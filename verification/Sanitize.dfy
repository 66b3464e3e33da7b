/**
 * sync/sanitize.py: the edit distance, the similarity built on it, and the
 * coarse payee check.  Normalisation (casefolding, the country suffix) is
 * done before these are called and is not modelled here.
 */
module Sanitize {

  function Min(x: nat, y: nat): nat { if x <= y then x else y }
  function Max(x: nat, y: nat): nat { if x <= y then y else x }
  function Mismatch(x: char, y: char): nat { if x == y then 0 else 1 }

  /** The recurrence behind the dynamic program, between a[..i] and b[..j]. */
  function PrefixDistance(a: string, i: nat, b: string, j: nat): nat
    requires i <= |a| && j <= |b|
  {
    if i == 0 then j
    else if j == 0 then i
    else Min(Min(PrefixDistance(a, i - 1, b, j) + 1, PrefixDistance(a, i, b, j - 1) + 1),
             PrefixDistance(a, i - 1, b, j - 1) + Mismatch(a[i - 1], b[j - 1]))
  }

  function Distance(a: string, b: string): nat {
    PrefixDistance(a, |a|, b, |b|)
  }

  /** levenshtein_distance, with its early exits, its swap and its two rows. */
  method LevenshteinDistance(first: string, second: string) returns (d: nat)
    ensures d == Distance(first, second)
  {
    hide PrefixDistance;
    var a, b := first, second;
    if a == b {
      DistanceZeroIffEqual(a, b);
      return 0;
    }
    Cell(a, |a|, b, |b|);
    if a == "" { return |b|; }
    if b == "" { return |a|; }
    if |a| > |b| {
      DistanceSymmetric(a, |a|, b, |b|);
      a, b := b, a;
    }
    forall j | 0 <= j <= |a| ensures PrefixDistance(a, j, b, 0) == j { Cell(a, j, b, 0); }
    var previous := new nat[|a| + 1](j => j);
    var i := 0;
    while i < |b|
      invariant 0 <= i <= |b|
      invariant previous.Length == |a| + 1
      invariant forall j :: 0 <= j <= |a| ==> previous[j] == PrefixDistance(a, j, b, i)
    {
      var current := new nat[|a| + 1](j => 0);
      current[0] := i + 1;
      Cell(a, 0, b, i + 1);
      var j := 0;
      while j < |a|
        invariant 0 <= j <= |a|
        invariant forall k :: 0 <= k <= |a| ==> previous[k] == PrefixDistance(a, k, b, i)
        invariant forall k :: 0 <= k <= j ==> current[k] == PrefixDistance(a, k, b, i + 1)
      {
        Cell(a, j + 1, b, i + 1);
        var cost := if a[j] == b[i] then 0 else 1;
        current[j + 1] := Min(Min(previous[j + 1] + 1, current[j] + 1), previous[j] + cost);
        j := j + 1;
      }
      previous := current;
      i := i + 1;
    }
    d := previous[|a|];
  }

  // --- the distance is a metric -------------------------------------------------

  /** What the recurrence says at one cell, so that proofs can use it without unfolding it further. */
  lemma Cell(a: string, i: nat, b: string, j: nat)
    requires i <= |a| && j <= |b|
    ensures i == 0 ==> PrefixDistance(a, i, b, j) == j
    ensures j == 0 ==> PrefixDistance(a, i, b, j) == i
    ensures i > 0 && j > 0 ==>
      var d := PrefixDistance(a, i, b, j);
      var del, ins := PrefixDistance(a, i - 1, b, j) + 1, PrefixDistance(a, i, b, j - 1) + 1;
      var sub := PrefixDistance(a, i - 1, b, j - 1) + Mismatch(a[i - 1], b[j - 1]);
      d <= del && d <= ins && d <= sub && (d == del || d == ins || d == sub)
  {
  }

  lemma {:induction false} DistanceSymmetric(a: string, i: nat, b: string, j: nat)
    requires i <= |a| && j <= |b|
    ensures PrefixDistance(a, i, b, j) == PrefixDistance(b, j, a, i)
  {
    hide PrefixDistance;
    Cell(a, i, b, j);
    Cell(b, j, a, i);
    if i > 0 && j > 0 {
      DistanceSymmetric(a, i - 1, b, j);
      DistanceSymmetric(a, i, b, j - 1);
      DistanceSymmetric(a, i - 1, b, j - 1);
    }
  }

  lemma {:induction false} LengthBounds(a: string, i: nat, b: string, j: nat)
    requires i <= |a| && j <= |b|
    ensures PrefixDistance(a, i, b, j) <= Max(i, j)
    ensures i <= j + PrefixDistance(a, i, b, j) && j <= i + PrefixDistance(a, i, b, j)
  {
    hide PrefixDistance;
    Cell(a, i, b, j);
    if i > 0 && j > 0 {
      LengthBounds(a, i - 1, b, j);
      LengthBounds(a, i, b, j - 1);
      LengthBounds(a, i - 1, b, j - 1);
    }
  }

  lemma {:induction false} ZeroDistance(a: string, i: nat, b: string, j: nat)
    requires i <= |a| && j <= |b|
    ensures PrefixDistance(a, i, b, j) == 0 <==> i == j && forall k :: 0 <= k < i ==> a[k] == b[k]
  {
    hide PrefixDistance;
    Cell(a, i, b, j);
    if i > 0 && j > 0 {
      LengthBounds(a, i, b, j);
      LengthBounds(a, i - 1, b, j);
      LengthBounds(a, i, b, j - 1);
      ZeroDistance(a, i - 1, b, j - 1);
    }
  }

  lemma DistanceZeroIffEqual(a: string, b: string)
    ensures Distance(a, b) == 0 <==> a == b
  {
    ZeroDistance(a, |a|, b, |b|);
  }

  lemma {:induction false} PrefixTriangle(a: string, i: nat, b: string, j: nat, c: string, k: nat)
    requires i <= |a| && j <= |b| && k <= |c|
    ensures PrefixDistance(a, i, c, k) <= PrefixDistance(a, i, b, j) + PrefixDistance(b, j, c, k)
    decreases i + j + k
  {
    hide PrefixDistance;
    Cell(a, i, b, j);
    Cell(b, j, c, k);
    Cell(a, i, c, k);
    LengthBounds(a, i, b, j);
    LengthBounds(b, j, c, k);
    LengthBounds(a, i, c, k);
    if i > 0 && j > 0 && k > 0 {
      PrefixTriangle(a, i - 1, b, j, c, k);
      PrefixTriangle(a, i, b, j, c, k - 1);
      PrefixTriangle(a, i, b, j - 1, c, k);
      PrefixTriangle(a, i, b, j - 1, c, k - 1);
      PrefixTriangle(a, i - 1, b, j - 1, c, k);
      PrefixTriangle(a, i - 1, b, j - 1, c, k - 1);
    }
  }

  /** Zero iff equal, symmetric, triangle inequality, bounded by the longer length. */
  lemma DistanceIsAMetric(a: string, b: string, c: string)
    ensures Distance(a, b) == 0 <==> a == b
    ensures Distance(a, b) == Distance(b, a)
    ensures Distance(a, c) <= Distance(a, b) + Distance(b, c)
    ensures Distance(a, b) <= Max(|a|, |b|)
  {
    DistanceZeroIffEqual(a, b);
    DistanceSymmetric(a, |a|, b, |b|);
    PrefixTriangle(a, |a|, b, |b|, c, |c|);
    LengthBounds(a, |a|, b, |b|);
  }

  // --- the distance is the least number of single-character edits ---------------

  datatype Edit = Insert(pos: nat, c: char) | Delete(pos: nat) | Substitute(pos: nat, c: char)

  predicate Applies(e: Edit, s: string) {
    if e.Insert? then e.pos <= |s| else e.pos < |s|
  }

  function Apply(e: Edit, s: string): string
    requires Applies(e, s)
  {
    match e
    case Insert(p, c) => s[..p] + [c] + s[p..]
    case Delete(p) => s[..p] + s[p + 1..]
    case Substitute(p, c) => s[p := c]
  }

  predicate Rewrites(script: seq<Edit>, a: string, b: string) {
    if script == [] then a == b
    else Applies(script[0], a) && Rewrites(script[1..], Apply(script[0], a), b)
  }

  /** Strings that agree up to (i, j) and shift by a constant afterwards stay within the same distance. */
  lemma {:induction false} SharedTail(a: string, i: nat, b: string, j: nat, i': nat, j': nat)
    requires i <= i' <= |a| && j <= j' <= |b| && i' - i == j' - j
    requires forall k :: i <= k < i' ==> a[k] == b[k + j - i]
    ensures PrefixDistance(a, i', b, j') <= PrefixDistance(a, i, b, j)
    decreases i'
  {
    hide PrefixDistance;
    if i < i' {
      SharedTail(a, i, b, j, i' - 1, j' - 1);
      assert a[i' - 1] == b[j' - 1];
      Cell(a, i', b, j');
    }
  }

  lemma OneEditIsNear(e: Edit, s: string)
    requires Applies(e, s)
    ensures Distance(s, Apply(e, s)) <= 1
  {
    hide PrefixDistance;
    var t, p := Apply(e, s), e.pos;
    ZeroDistance(s, p, t, p);
    StepIsNear(s, p, t, p);
    match e
    case Insert(_, _) =>
      assert |t| == |s| + 1 && forall k :: p <= k < |s| ==> s[k] == t[k + 1];
      SharedTail(s, p, t, p + 1, |s|, |t|);
    case Delete(_) =>
      assert |t| == |s| - 1 && forall k :: p + 1 <= k < |s| ==> s[k] == t[k - 1];
      SharedTail(s, p + 1, t, p, |s|, |t|);
    case Substitute(_, _) =>
      assert |t| == |s| && forall k :: p + 1 <= k < |s| ==> s[k] == t[k];
      SharedTail(s, p + 1, t, p + 1, |s|, |t|);
  }

  lemma StepIsNear(a: string, i: nat, b: string, j: nat)
    requires i <= |a| && j <= |b| && PrefixDistance(a, i, b, j) == 0
    ensures i < |a| ==> PrefixDistance(a, i + 1, b, j) <= 1
    ensures j < |b| ==> PrefixDistance(a, i, b, j + 1) <= 1
    ensures i < |a| && j < |b| ==> PrefixDistance(a, i + 1, b, j + 1) <= 1
  {
  }

  /** No script is shorter than the distance. */
  lemma {:induction false} ScriptsAreLong(script: seq<Edit>, a: string, b: string)
    requires Rewrites(script, a, b)
    ensures Distance(a, b) <= |script|
  {
    if script == [] {
      DistanceZeroIffEqual(a, b);
    } else {
      var next := Apply(script[0], a);
      ScriptsAreLong(script[1..], next, b);
      OneEditIsNear(script[0], a);
      DistanceIsAMetric(a, next, b);
    }
  }

  lemma OneMoreEdit(e: Edit, script: seq<Edit>, s: string, t: string)
    requires Applies(e, s) && Rewrites(script, Apply(e, s), t)
    ensures Rewrites([e] + script, s, t)
  {
    assert ([e] + script)[1..] == script;
  }

  lemma DeleteLast(a: string, i: nat, rest: string, shorter: seq<Edit>, t: string)
    requires 0 < i <= |a| && Rewrites(shorter, a[..i - 1] + rest, t)
    ensures Rewrites([Delete(i - 1)] + shorter, a[..i] + rest, t)
  {
    assert Apply(Delete(i - 1), a[..i] + rest) == a[..i - 1] + rest;
    OneMoreEdit(Delete(i - 1), shorter, a[..i] + rest, t);
  }

  lemma InsertAfter(a: string, i: nat, c: char, rest: string, shorter: seq<Edit>, t: string)
    requires i <= |a| && Rewrites(shorter, a[..i] + ([c] + rest), t)
    ensures Rewrites([Insert(i, c)] + shorter, a[..i] + rest, t)
  {
    assert Apply(Insert(i, c), a[..i] + rest) == a[..i] + ([c] + rest);
    OneMoreEdit(Insert(i, c), shorter, a[..i] + rest, t);
  }

  /** A script read off the recurrence, rewriting a[..i] followed by any rest into b[..j] followed by that rest. */
  lemma {:induction false} ShortScript(a: string, i: nat, b: string, j: nat, rest: string) returns (script: seq<Edit>)
    requires i <= |a| && j <= |b|
    ensures |script| == PrefixDistance(a, i, b, j)
    ensures Rewrites(script, a[..i] + rest, b[..j] + rest)
  {
    hide PrefixDistance;
    hide Rewrites;
    Cell(a, i, b, j);
    if i == 0 && j == 0 {
      NoEdit(rest, a[..i] + rest, b[..j] + rest);
      return [];
    }
    if i > 0 && (j == 0 || PrefixDistance(a, i, b, j) == PrefixDistance(a, i - 1, b, j) + 1) {
      Cell(a, i - 1, b, j);
      script := ShortScript(a, i - 1, b, j, rest);
      DeleteLast(a, i, rest, script, b[..j] + rest);
      return [Delete(i - 1)] + script;
    }
    var c := b[j - 1];
    assert b[..j - 1] + ([c] + rest) == b[..j] + rest;
    if i == 0 || PrefixDistance(a, i, b, j) == PrefixDistance(a, i, b, j - 1) + 1 {
      Cell(a, i, b, j - 1);
      script := ShortScript(a, i, b, j - 1, [c] + rest);
      InsertAfter(a, i, c, rest, script, b[..j] + rest);
      return [Insert(i, c)] + script;
    }
    script := ShortScript(a, i - 1, b, j - 1, [c] + rest);
    script := KeepOrSubstitute(a, i, c, rest, script, b[..j] + rest);
  }

  lemma NoEdit(rest: string, s: string, t: string)
    requires s == t == rest
    ensures Rewrites([], s, t)
  {
  }

  lemma KeepOrSubstitute(a: string, i: nat, c: char, rest: string, shorter: seq<Edit>, t: string)
      returns (script: seq<Edit>)
    requires 0 < i <= |a| && Rewrites(shorter, a[..i - 1] + ([c] + rest), t)
    ensures |script| == |shorter| + Mismatch(a[i - 1], c)
    ensures Rewrites(script, a[..i] + rest, t)
  {
    var s := a[..i] + rest;
    if a[i - 1] == c {
      assert a[..i - 1] + ([c] + rest) == s;
      script := shorter;
    } else {
      assert Apply(Substitute(i - 1, c), s) == a[..i - 1] + ([c] + rest);
      OneMoreEdit(Substitute(i - 1, c), shorter, s, t);
      script := [Substitute(i - 1, c)] + shorter;
    }
  }

  /** The distance is the minimum length of all edit scripts from a to b. */
  lemma DistanceIsLeastEdits(a: string, b: string)
    ensures exists script :: Rewrites(script, a, b) && |script| == Distance(a, b)
    ensures forall script :: Rewrites(script, a, b) ==> Distance(a, b) <= |script|
  {
    var best := ShortScript(a, |a|, b, |b|, "");
    assert a[..|a|] + "" == a && b[..|b|] + "" == b;
    assert Rewrites(best, a, b);
    forall script | Rewrites(script, a, b) ensures Distance(a, b) <= |script| {
      ScriptsAreLong(script, a, b);
    }
  }

  // --- similarity and the coarse check ------------------------------------------

  function PayeeSimilarity(a: string, b: string): real {
    if a == "" && b == "" then 1.0
    else 1.0 - Distance(a, b) as real / Max(Max(|a|, |b|), 1) as real
  }

  lemma SimilarityRange(a: string, b: string)
    ensures 0.0 <= PayeeSimilarity(a, b) <= 1.0
    ensures PayeeSimilarity(a, b) == 1.0 <==> a == b
    ensures PayeeSimilarity(a, b) == PayeeSimilarity(b, a)
  {
    DistanceIsAMetric(a, b, a);
    if a != "" || b != "" {
      RatioInUnit(Distance(a, b), Max(|a|, |b|));
    }
  }

  /** The similarity is the share of the longer payee that a shortest rewriting leaves alone. */
  lemma SimilarityCountsEdits(a: string, b: string, shortest: seq<Edit>)
    requires Rewrites(shortest, a, b) && forall script :: Rewrites(script, a, b) ==> |shortest| <= |script|
    ensures var longer := if |a| < |b| then |b| else |a|;
            PayeeSimilarity(a, b) * longer as real == (longer - |shortest|) as real
  {
    ShareLeftAlone(a, b);
    assert |shortest| == Distance(a, b) by { ShortestIsDistance(a, b, shortest); }
    hide *;
  }

  lemma ShortestIsDistance(a: string, b: string, shortest: seq<Edit>)
    requires Rewrites(shortest, a, b) && forall script :: Rewrites(script, a, b) ==> |shortest| <= |script|
    ensures |shortest| == Distance(a, b)
  {
    DistanceIsLeastEdits(a, b);
    hide Distance, Rewrites;
  }

  lemma ShareLeftAlone(a: string, b: string)
    ensures var longer := if |a| < |b| then |b| else |a|;
            PayeeSimilarity(a, b) * longer as real == (longer - Distance(a, b)) as real
  {
    if |a| == 0 && |b| == 0 {
      DistanceIsAMetric(a, b, a);
    } else {
      RestOfShare(Distance(a, b), if |a| < |b| then |b| else |a|);
    }
    hide Distance;
  }

  lemma RestOfShare(d: nat, n: nat)
    requires n > 0
    ensures (1.0 - d as real / n as real) * n as real == (n - d) as real
  {
    var q := d as real / n as real;
    assert q * n as real == d as real;
  }

  lemma RatioInUnit(d: nat, n: nat)
    requires d <= n && n > 0
    ensures 0.0 <= d as real / n as real <= 1.0
    ensures d as real / n as real == 0.0 <==> d == 0
  {
    var q := d as real / n as real;
    assert q * n as real == d as real;
  }

  function StartsWith(s: string, prefix: string): bool {
    |prefix| <= |s| && s[..|prefix|] == prefix
  }

  /** payees_plausibly_match, on two payees that are already normalised. */
  predicate PayeesPlausiblyMatch(normA: string, normB: string, minPrefixLen: nat) {
    if normA == "" || normB == "" then false
    else if normA == normB || StartsWith(normA, normB) || StartsWith(normB, normA) then true
    else
      var prefixLen := Min(Min(|normA|, |normB|), minPrefixLen);
      prefixLen >= minPrefixLen && normA[..prefixLen] == normB[..prefixLen]
  }

  ghost predicate AgreeUpTo(a: string, b: string, n: nat) {
    n <= |a| && n <= |b| && forall i :: 0 <= i < n ==> a[i] == b[i]
  }

  /** The three cases are one: both non-empty, agreeing on the first min(|a|, |b|, minPrefixLen) characters. */
  lemma PlausibleMatchIsSharedPrefix(a: string, b: string, minPrefixLen: nat)
    ensures PayeesPlausiblyMatch(a, b, minPrefixLen)
       <==> a != "" && b != "" && AgreeUpTo(a, b, Min(Min(|a|, |b|), minPrefixLen))
    ensures PayeesPlausiblyMatch(a, b, minPrefixLen) == PayeesPlausiblyMatch(b, a, minPrefixLen)
  {
    var n := Min(Min(|a|, |b|), minPrefixLen);
    assert AgreeUpTo(a, b, n) <==> a[..n] == b[..n] by {
      assert forall i :: 0 <= i < n ==> a[..n][i] == a[i] && b[..n][i] == b[i];
    }
    if |b| <= |a| && n == |b| {
      assert b[..n] == b;
    }
    if |a| <= |b| && n == |a| {
      assert a[..n] == a;
    }
    if StartsWith(a, b) {
      assert forall i :: 0 <= i < |b| ==> a[..|b|][i] == a[i];
    }
    if StartsWith(b, a) {
      assert forall i :: 0 <= i < |a| ==> b[..|a|][i] == b[i];
    }
  }
}
