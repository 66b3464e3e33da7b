/**
 * sync/import_ids.py: deriving a YNAB import_id from a source's prefix and a
 * seed, and reading the prefix back.  The hash is left abstract: all that is
 * used of sha256().hexdigest() is its output format.
 */
module ImportIds {

  const IMPORT_ID_HASH_LEN := 30
  const YNAB_IMPORT_ID_MAX_LEN := 36

  const HEX_DIGITS := "0123456789abcdef"

  predicate IsHexDigest(digest: string) {
    |digest| == 64 && forall i :: 0 <= i < |digest| ==> digest[i] in HEX_DIGITS
  }

  const ZERO_DIGEST := seq(64, _ => '0')

  type Hasher = h: string -> string | forall s :: IsHexDigest(h(s))
    witness (s: string) => ZERO_DIGEST

  function DeriveImportId(hash: Hasher, prefix: string, seed: string): string {
    prefix + hash(seed)[..IMPORT_ID_HASH_LEN]
  }

  /** The index of the first ':' at or after `from`, or |s|. */
  function FirstColonFrom(s: string, from: nat): (n: nat)
    requires from <= |s|
    ensures from <= n <= |s|
    ensures n < |s| ==> s[n] == ':'
    ensures forall i :: from <= i < n ==> s[i] != ':'
    decreases |s| - from
  {
    if from == |s| || s[from] == ':' then from else FirstColonFrom(s, from + 1)
  }

  /** The length of what str.partition(":") returns as its head. */
  function FirstColon(s: string): nat {
    FirstColonFrom(s, 0)
  }

  function PrefixOf(importId: string): string {
    var n := FirstColon(importId);
    if n < |importId| then importId[..n] + ":" else ""
  }

  lemma FirstColonUnique(s: string, n: nat)
    requires n <= |s|
    requires n < |s| ==> s[n] == ':'
    requires forall i :: 0 <= i < n ==> s[i] != ':'
    ensures FirstColon(s) == n
  {
  }

  lemma HashTailHasNoColon(hash: Hasher, seed: string, i: nat)
    requires i < IMPORT_ID_HASH_LEN
    ensures |hash(seed)| >= IMPORT_ID_HASH_LEN && hash(seed)[i] != ':'
  {
    var digest := hash(seed);
    assert IsHexDigest(digest);
    assert digest[i] in HEX_DIGITS;
  }

  lemma PrefixOfConcat(prefix: string, tail: string)
    requires forall i :: 0 <= i < |tail| ==> tail[i] != ':'
    ensures PrefixOf(prefix + tail) == prefix <==> prefix == "" || FirstColon(prefix) == |prefix| - 1
  {
    var n, id := FirstColon(prefix), prefix + tail;
    if n < |prefix| {
      FirstColonUnique(id, n);
      assert PrefixOf(id) == id[..n] + ":";
      assert id[..n] == prefix[..n];
      assert prefix[..n] + ":" == prefix[..n + 1];
      if n < |prefix| - 1 {
        assert |PrefixOf(id)| < |prefix|;
      }
    } else {
      FirstColonUnique(id, |id|);
    }
  }

  /** prefix_of undoes derive_import_id exactly for the empty prefix and the prefixes whose only colon comes last. */
  lemma PrefixRoundTrip(hash: Hasher, prefix: string, seed: string)
    ensures PrefixOf(DeriveImportId(hash, prefix, seed)) == prefix
       <==> prefix == "" || FirstColon(prefix) == |prefix| - 1
  {
    HashTailHasNoColon(hash, seed, 0);
    var tail := hash(seed)[..IMPORT_ID_HASH_LEN];
    forall i | 0 <= i < |tail| ensures tail[i] != ':' {
      HashTailHasNoColon(hash, seed, i);
    }
    PrefixOfConcat(prefix, tail);
  }

  lemma ImportIdFits(hash: Hasher, prefix: string, seed: string)
    ensures |DeriveImportId(hash, prefix, seed)| <= YNAB_IMPORT_ID_MAX_LEN <==> |prefix| <= 6
  {
    assert IsHexDigest(hash(seed));
  }

  /** str(n) for a non-negative count. */
  function Decimal(n: nat): (s: string)
    ensures |s| > 0 && forall i :: 0 <= i < |s| ==> '0' <= s[i] <= '9'
  {
    var digit := ['0' + (n % 10) as char];
    if n < 10 then digit else Decimal(n / 10) + digit
  }

  function Value(s: string): int {
    if s == "" then 0 else 10 * Value(s[..|s| - 1]) + (s[|s| - 1] as int - '0' as int)
  }

  lemma {:induction false} DecimalRoundTrip(n: nat)
    ensures Value(Decimal(n)) == n
  {
    var s := Decimal(n);
    if n < 10 {
      assert s[..|s| - 1] == "";
    } else {
      assert s[..|s| - 1] == Decimal(n / 10);
      DecimalRoundTrip(n / 10);
    }
  }

  const READD_TAG := ":readd:"

  function ReaddSeed(trackingKey: string, round: nat): string {
    trackingKey + READD_TAG + Decimal(round)
  }

  lemma DecimalStartsAfterLastColon(key: string, round: nat, i: nat)
    requires i < |ReaddSeed(key, round)|
    ensures i >= |key| + 7 ==> ReaddSeed(key, round)[i] != ':'
    ensures i == |key| + 6 ==> ReaddSeed(key, round)[i] == ':'
  {
  }

  /** No two re-adds, of the same or of different transactions, ever share a seed. */
  lemma ReaddSeedInjective(key1: string, round1: nat, key2: string, round2: nat)
    requires ReaddSeed(key1, round1) == ReaddSeed(key2, round2)
    ensures key1 == key2 && round1 == round2
  {
    var s := ReaddSeed(key1, round1);
    DecimalStartsAfterLastColon(key1, round1, |key1| + 6);
    DecimalStartsAfterLastColon(key2, round2, |key2| + 6);
    DecimalStartsAfterLastColon(key1, round1, |key2| + 6);
    DecimalStartsAfterLastColon(key2, round2, |key1| + 6);
    assert |key1| == |key2|;
    assert key1 == s[..|key1|] && key2 == s[..|key2|];
    assert Decimal(round1) == s[|key1| + 7..] && Decimal(round2) == s[|key2| + 7..];
    DecimalRoundTrip(round1);
    DecimalRoundTrip(round2);
  }
}
