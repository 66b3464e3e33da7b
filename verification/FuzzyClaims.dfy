/**
 * Pending -> booked transitions found by fuzzy correlation: classification
 * never claims a pending row twice, and moving a row to its new key loses none.
 */
module FuzzyClaims {
  import opened Wrappers
  import opened StateDb
  import opened SyncSpec
  import opened PendingMatch
  import opened Sequences
  import opened Classification

  type Updates = map<string, seq<Correction>>

  ghost predicate At(f: Updates, b: string, i: nat) { b in f && i < |f[b]| }

  // --- one classify loop ------------------------------------------------------------------------

  /** Built from a PENDING row of the table, filed under that row's budget, for a key that is not tracked. */
  ghost predicate FromPendingRow(t: Table, b: string, c: Correction) {
    && c.FuzzyUpdate? && c.oldKey in t && c.newKey !in t && c.budget == b
    && t[c.oldKey].facts.status == Pending && t[c.oldKey].facts.txnId == c.txnId && t[c.oldKey].facts.budget == b
  }

  ghost predicate AllFromPendingRows(t: Table, f: Updates) {
    forall b, i: nat :: At(f, b, i) ==> FromPendingRow(t, b, f[b][i])
  }

  /** No row is claimed twice, and no key is claimed for two rows. */
  ghost predicate ClaimsDistinct(f: Updates) {
    forall b, i: nat, b', i': nat :: At(f, b, i) && At(f, b', i') ==> SameClaim(f[b][i], f[b'][i']) ==> b == b' && i == i'
  }

  ghost predicate RowsDistinct(f: Updates) {
    forall b, i: nat, b', i': nat :: At(f, b, i) && At(f, b', i') && f[b][i].oldKey == f[b'][i'].oldKey ==> b == b' && i == i'
  }

  predicate SameClaim(c: Correction, c': Correction) {
    c.oldKey == c'.oldKey || (c.FuzzyUpdate? && c'.FuzzyUpdate? && c.newKey == c'.newKey)
  }

  ghost predicate Claims(f: Updates, key: string) { exists b, i: nat :: At(f, b, i) && f[b][i].oldKey == key }

  ghost predicate KeysFrom(f: Updates, seen: iset<string>) {
    forall b, i: nat :: At(f, b, i) && f[b][i].FuzzyUpdate? ==> f[b][i].newKey in seen
  }

  ghost predicate DistinctCandidates(cs: seq<PendingCandidate>) {
    forall i, j :: 0 <= i < j < |cs| ==> cs[i].trackingKey != cs[j].trackingKey
  }

  /** The list is for PENDING rows of this account, each at most once. */
  ghost predicate Lists(t: Table, accountKey: string, cs: seq<PendingCandidate>) {
    && DistinctCandidates(cs)
    && forall c :: c in cs ==>
         c.trackingKey in t && IsPendingOf(t[c.trackingKey], accountKey)
         && c == ToPendingCandidate(c.trackingKey, t[c.trackingKey], c.index)
  }

  ghost predicate CachesList(t: Table, pending: PendingCache) {
    forall a :: a in pending ==> Lists(t, a, pending[a])
  }

  /** What is claimed has left its account's list for good. */
  ghost predicate ClaimedAreGone(t: Table, pending: PendingCache, f: Updates) {
    forall b, i: nat :: At(f, b, i) && f[b][i].oldKey in t ==> GoneFrom(pending, t[f[b][i].oldKey].facts.accountKey, f[b][i].oldKey)
  }

  ghost predicate GoneFrom(pending: PendingCache, accountKey: string, key: string) {
    accountKey in pending && forall c :: c in pending[accountKey] ==> c.trackingKey != key
  }

  /** `once` says that no key has been reported twice so far. */
  ghost predicate ClaimsInv(t: Table, s: Sorting, seen: iset<string>, once: bool) {
    && CachesList(t, s.pending)
    && AllFromPendingRows(t, s.cycle.fuzzyUpdates)
    && RowsDistinct(s.cycle.fuzzyUpdates)
    && (once ==> ClaimsDistinct(s.cycle.fuzzyUpdates))
    && ClaimedAreGone(t, s.pending, s.cycle.fuzzyUpdates)
    && KeysFrom(s.cycle.fuzzyUpdates, seen)
  }

  lemma {:induction false} PendingRowsList(t: Table, scan: seq<string>, accountKey: string, index: nat)
    requires forall i, j :: 0 <= i < j < |scan| ==> scan[i] != scan[j]
    ensures Lists(t, accountKey, PendingRows(t, scan, accountKey, index))
    ensures forall c :: c in PendingRows(t, scan, accountKey, index) ==> c.trackingKey in scan
  {
    hide Lists, IsPendingOf;
    if scan == [] {
      NothingListed(t, accountKey);
    } else {
      var own := scan[0] in t && IsPendingOf(t[scan[0]], accountKey);
      var more := if own then index + 1 else index;
      PendingRowsList(t, scan[1..], accountKey, more);
      assert forall k :: k in scan[1..] ==> k in scan && k != scan[0];
      if own {
        OneMoreListed(t, accountKey, scan[0], index, PendingRows(t, scan[1..], accountKey, more));
      }
    }
  }

  lemma NothingListed(t: Table, accountKey: string)
    ensures Lists(t, accountKey, [])
  {
  }

  lemma OneMoreListed(t: Table, accountKey: string, key: string, index: nat, rest: seq<PendingCandidate>)
    requires Lists(t, accountKey, rest) && key in t && IsPendingOf(t[key], accountKey)
    requires forall c :: c in rest ==> c.trackingKey != key
    ensures Lists(t, accountKey, [ToPendingCandidate(key, t[key], index)] + rest)
  {
    var c := ToPendingCandidate(key, t[key], index);
    forall i, j | 0 <= i < j < |[c] + rest| ensures ([c] + rest)[i].trackingKey != ([c] + rest)[j].trackingKey {
      assert rest[j - 1] in rest;
    }
  }

  lemma {:induction false} RemoveTakes(cs: seq<PendingCandidate>, c: PendingCandidate)
    requires DistinctCandidates(cs) && c in cs
    ensures DistinctCandidates(Remove(cs, c))
    ensures forall d :: d in Remove(cs, c) <==> d in cs && d.trackingKey != c.trackingKey
  {
    if cs[0] == c {
      assert forall d :: d in cs <==> d == cs[0] || d in cs[1..];
    } else {
      assert c in cs[1..];
      RemoveTakes(cs[1..], c);
      var rest := Remove(cs[1..], c);
      assert forall d :: d in cs <==> d == cs[0] || d in cs[1..];
      assert DistinctCandidates([cs[0]] + rest) by {
        forall j | 0 <= j < |rest| ensures rest[j].trackingKey != cs[0].trackingKey {
          assert rest[j] in rest;
        }
      }
    }
  }

  lemma Appended(f: Updates, budget: string, c: Correction, b: string, i: nat)
    requires At(Append(f, budget, c), b, i)
    ensures (At(f, b, i) && Append(f, budget, c)[b][i] == f[b][i])
         || (!At(f, b, i) && b == budget && i == |Lookup(f, budget)| && Append(f, budget, c)[b][i] == c)
  {
  }

  /** Fetching an account's list for the first time keeps the invariant. */
  lemma FetchingKeepsClaims(ctx: Context, s: Sorting, seen: iset<string>, once: bool, accountKey: string)
    requires ScansTable(ctx.scan, ctx.table) && ClaimsInv(ctx.table, s, seen, once)
    ensures ClaimsInv(ctx.table, s.(pending := PendingCandidates(ctx, s.pending, accountKey).0), seen, once)
    ensures Lists(ctx.table, accountKey, PendingCandidates(ctx, s.pending, accountKey).1)
    ensures PendingCandidates(ctx, s.pending, accountKey).1 != [] ==>
        var cache := PendingCandidates(ctx, s.pending, accountKey).0;
        accountKey in cache && cache[accountKey] == PendingCandidates(ctx, s.pending, accountKey).1
  {
    PendingRowsList(ctx.table, ctx.scan, accountKey, 0);
    hide PendingRows;
    var pending' := PendingCandidates(ctx, s.pending, accountKey).0;
    forall b, i: nat | At(s.cycle.fuzzyUpdates, b, i) && s.cycle.fuzzyUpdates[b][i].oldKey in ctx.table
      ensures GoneFrom(pending', ctx.table[s.cycle.fuzzyUpdates[b][i].oldKey].facts.accountKey,
                       s.cycle.fuzzyUpdates[b][i].oldKey)
    {
      assert GoneFrom(s.pending, ctx.table[s.cycle.fuzzyUpdates[b][i].oldKey].facts.accountKey,
                      s.cycle.fuzzyUpdates[b][i].oldKey);
    }
  }

  /** Filing a fuzzy update claims a row that no earlier update claimed. */
  lemma ClaimKeepsClaims(t: Table, s: Sorting, seen: iset<string>, once: bool, m: Mapping, accountKey: string,
                         c: PendingCandidate, newKey: string, amount: real)
    requires ClaimsInv(t, s, seen, once) && accountKey in s.pending && c in s.pending[accountKey]
    requires newKey !in t && (once ==> newKey !in seen)
    ensures var u := FuzzyUpdate(c.trackingKey, newKey, c.txnId, amount, c.date, c.budget);
            ClaimsInv(t, File(s, m, accountKey, TransitionedFuzzy(u, c)), seen + iset{newKey}, once)
  {
    var u := FuzzyUpdate(c.trackingKey, newKey, c.txnId, amount, c.date, c.budget);
    var f := s.cycle.fuzzyUpdates;
    var f' := Append(f, u.budget, u);
    var pending' := TakePending(s.pending, accountKey, c);
    assert Lists(t, accountKey, s.pending[accountKey]);
    RemoveTakes(s.pending[accountKey], c);
    NotClaimedYet(t, s, seen, once, accountKey, c);
    AppendKeepsDistinct(f, u, seen, once);
    hide Append, Remove, ClaimsDistinct, RowsDistinct;
    forall b, i: nat | At(f', b, i)
      ensures FromPendingRow(t, b, f'[b][i]) && f'[b][i].newKey in seen + iset{newKey}
      ensures GoneFrom(pending', t[f'[b][i].oldKey].facts.accountKey, f'[b][i].oldKey)
    {
      Appended(f, u.budget, u, b, i);
      if At(f, b, i) {
        assert FromPendingRow(t, b, f[b][i]);
        assert GoneFrom(s.pending, t[f[b][i].oldKey].facts.accountKey, f[b][i].oldKey);
      }
    }
  }

  lemma NotClaimedYet(t: Table, s: Sorting, seen: iset<string>, once: bool, accountKey: string, c: PendingCandidate)
    requires ClaimsInv(t, s, seen, once) && accountKey in s.pending && c in s.pending[accountKey]
    ensures !Claims(s.cycle.fuzzyUpdates, c.trackingKey)
  {
    var f := s.cycle.fuzzyUpdates;
    assert Lists(t, accountKey, s.pending[accountKey]);
    forall b, i: nat | At(f, b, i) ensures f[b][i].oldKey != c.trackingKey {
      assert FromPendingRow(t, b, f[b][i]);
      assert GoneFrom(s.pending, t[f[b][i].oldKey].facts.accountKey, f[b][i].oldKey);
    }
  }

  lemma AppendKeepsDistinct(f: Updates, u: Correction, seen: iset<string>, once: bool)
    requires RowsDistinct(f) && u.FuzzyUpdate? && !Claims(f, u.oldKey)
    requires once ==> ClaimsDistinct(f) && u.newKey !in seen && KeysFrom(f, seen)
    ensures RowsDistinct(Append(f, u.budget, u)) && (once ==> ClaimsDistinct(Append(f, u.budget, u)))
  {
    var f' := Append(f, u.budget, u);
    hide Append;
    forall b, i: nat, b', i': nat | At(f', b, i) && At(f', b', i') && SameClaim(f'[b][i], f'[b'][i'])
      ensures f'[b][i].oldKey == f'[b'][i'].oldKey || once ==> b == b' && i == i'
    {
      Appended(f, u.budget, u, b, i);
      Appended(f, u.budget, u, b', i');
    }
  }

  lemma SortKeepsClaims(ctx: Context, provider: string, m: Mapping, s: Sorting, ntx: Ntx, seen: iset<string>,
                        once: bool)
    requires ScansTable(ctx.scan, ctx.table) && ClaimsInv(ctx.table, s, seen, once)
    requires once ==> ntx.trackingKey !in seen
    ensures ClaimsInv(ctx.table, Sort(ctx, provider, m, s, ntx), seen + iset{ntx.trackingKey}, once)
  {
    var (manualCache, manual) := ManualCandidates(ctx, s.manual, m, ntx.date);
    var (pendingCache, pending) := PendingCandidates(ctx, s.pending, ntx.accountKey);
    FetchingKeepsClaims(ctx, s, seen, once, ntx.accountKey);
    hide PendingCandidates, ManualCandidates, FindPendingMatch, ManualMatchFor;
    var s1 := s.(manual := manualCache, pending := pendingCache);
    var outcome := Classify(ctx.table, ctx.rules, provider, m, ntx, manual, pending);
    if outcome.TransitionedFuzzy? {
      assert outcome.settled in pending;
      ClaimKeepsClaims(ctx.table, s1, seen, once, m, ntx.accountKey, outcome.settled, ntx.trackingKey, ntx.amount);
    } else {
      assert File(s1, m, ntx.accountKey, outcome).pending == pendingCache;
      assert File(s1, m, ntx.accountKey, outcome).cycle.fuzzyUpdates == s.cycle.fuzzyUpdates;
    }
  }

  ghost predicate DistinctFeed(feed: Feed) {
    forall i, j :: 0 <= i < j < |feed| ==> feed[i].ntx.trackingKey != feed[j].ntx.trackingKey
  }

  lemma {:induction false} SortAllKeepsClaims(ctx: Context, s: Sorting, feed: Feed, seen: iset<string>, once: bool)
    requires ScansTable(ctx.scan, ctx.table) && ClaimsInv(ctx.table, s, seen, once)
    requires once ==> DistinctFeed(feed) && forall i :: 0 <= i < |feed| ==> feed[i].ntx.trackingKey !in seen
    ensures exists seen' :: ClaimsInv(ctx.table, SortAll(ctx, s, feed), seen', once)
    decreases |feed|
  {
    hide ClaimsInv, Sort, FetchWindow;
    if feed == [] {
      assert ClaimsInv(ctx.table, SortAll(ctx, s, feed), seen, once);
    } else {
      var ntx := feed[0].ntx;
      var s1 := SortOne(ctx, feed[0].provider, s, ntx);
      var seen1 := seen + iset{ntx.trackingKey};
      if Accepted(ctx, feed[0].provider, ntx) {
        SortKeepsClaims(ctx, feed[0].provider, ctx.mappings[(feed[0].provider, ntx.accountKey)], s, ntx, seen, once);
      } else {
        MoreSeen(ctx.table, s, seen, seen1, once);
      }
      SortAllKeepsClaims(ctx, s1, feed[1..], seen1, once);
      assert SortAll(ctx, s, feed) == SortAll(ctx, s1, feed[1..]);
    }
  }

  lemma MoreSeen(t: Table, s: Sorting, seen: iset<string>, seen': iset<string>, once: bool)
    requires ClaimsInv(t, s, seen, once) && seen <= seen'
    ensures ClaimsInv(t, s, seen', once)
  {
  }

  /** In one classify loop no pending row is claimed by two fuzzy updates, nor for two keys if each is reported once. */
  lemma NoRowClaimedTwice(ctx: Context, feed: Feed)
    requires ScansTable(ctx.scan, ctx.table)
    ensures AllFromPendingRows(ctx.table, CycleOf(ctx, feed).fuzzyUpdates)
    ensures RowsDistinct(CycleOf(ctx, feed).fuzzyUpdates)
    ensures DistinctFeed(feed) ==> ClaimsDistinct(CycleOf(ctx, feed).fuzzyUpdates)
  {
    SortAllKeepsClaims(ctx, NOTHING_SORTED, feed, iset{}, DistinctFeed(feed));
  }

  // --- moving a row -----------------------------------------------------------------------------

  /** The YNAB transactions the table refers to, with multiplicity. */
  ghost function TxnIds(t: Table): multiset<nat>
    decreases |t|
  {
    if t == map[] then multiset{}
    else
      var k :| k in t;
      assert |t - {k}| == |t| - 1 by { WithoutOne(t, k); }
      multiset{t[k].facts.txnId} + TxnIds(t - {k})
  }

  lemma WithoutOne(t: Table, k: string)
    requires k in t
    ensures |t - {k}| == |t| - 1
  {
    assert (t - {k}).Keys == t.Keys - {k};
  }

  lemma {:induction false} TxnIdsWithout(t: Table, k: string)
    requires k in t
    ensures TxnIds(t) == multiset{t[k].facts.txnId} + TxnIds(t - {k})
    decreases |t|
  {
    var c := TxnIdsStep(t);
    hide TxnIds;
    if c != k {
      WithoutOne(t, c);
      WithoutOne(t, k);
      assert k in t - {c} && c in t - {k};
      TxnIdsWithout(t - {c}, k);
      TxnIdsWithout(t - {k}, c);
      WithoutBoth(t, c, k);
      SwapFirstTwo(t[c].facts.txnId, t[k].facts.txnId, TxnIds(t - {c} - {k}));
    }
  }

  lemma WithoutBoth(t: Table, c: string, k: string)
    requires c in t && k in t && c != k
    ensures t - {c} - {k} == t - {k} - {c}
    ensures k in t - {c} && (t - {c})[k] == t[k] && c in t - {k} && (t - {k})[c] == t[c]
  {
  }

  lemma SwapFirstTwo(a: nat, b: nat, rest: multiset<nat>)
    ensures multiset{a} + (multiset{b} + rest) == multiset{b} + (multiset{a} + rest)
  {
  }

  lemma TxnIdsStep(t: Table) returns (c: string)
    requires t != map[]
    ensures c in t && TxnIds(t) == multiset{t[c].facts.txnId} + TxnIds(t - {c})
  {
    c :| c in t && TxnIds(t) == multiset{t[c].facts.txnId} + TxnIds(t - {c});
  }

  lemma RekeyConserves(t: Table, oldKey: string, newKey: string, amount: real)
    requires Rekey(t, oldKey, newKey, amount).Rekeyed?
    ensures |Rekey(t, oldKey, newKey, amount).table| == |t|
    ensures TxnIds(Rekey(t, oldKey, newKey, amount).table) == TxnIds(t)
  {
    var t1 := Rekey(t, oldKey, newKey, amount).table;
    assert t1 - {newKey} == t - {oldKey};
    WithoutOne(t, oldKey);
    WithoutOne(t1, newKey);
    TxnIdsWithout(t, oldKey);
    TxnIdsWithout(t1, newKey);
  }
}
