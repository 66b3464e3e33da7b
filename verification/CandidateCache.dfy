/**
 * The cached, bounded lists of manual candidates against the simple form
 * that lists the whole account for every transaction.
 */
module CandidateCache {
  import opened Wrappers
  import opened Ynab
  import opened StateDb
  import opened SyncSpec
  import opened DateWindow
  import opened PendingMatch
  import opened Sequences
  import opened Classification

  // --- the simple form ---------------------------------------------------------------------

  /** Every unimported visible transaction of the account, however old. */
  function AllUnimported(l: Ledger, budget: string, account: string, from: nat := 0): seq<ManualCandidate>
    requires from <= |l|
    decreases |l| - from
  {
    if from == |l| then []
    else
      var t, rest := l[from], AllUnimported(l, budget, account, from + 1);
      if t.budget == budget && t.account == account && t.importId.None? && IsVisible(t)
      then [ManualCandidate(from, t.amount, t.date, t.split, t.payee)] + rest
      else rest
  }

  predicate IsClaimed(matches: seq<Batch<ManualMatch>>, account: string, id: nat) {
    exists b, i :: 0 <= b < |matches| && 0 <= i < |matches[b].items|
      && matches[b].items[i].payload.account == account && matches[b].items[i].originalId == id
  }

  function Unclaimed(matches: seq<Batch<ManualMatch>>, account: string): ManualCandidate -> bool {
    (c: ManualCandidate) => !IsClaimed(matches, account, c.id)
  }

  /** The whole account, less what this cycle has claimed. */
  function Remaining(ctx: Context, matches: seq<Batch<ManualMatch>>, m: Mapping): seq<ManualCandidate> {
    Filter(AllUnimported(ctx.ledger, m.budget, m.ynabAccount), Unclaimed(matches, m.ynabAccount))
  }

  function SortFull(ctx: Context, provider: string, m: Mapping, s: Sorting, ntx: Ntx): Sorting {
    var (pendingCache, pending) := PendingCandidates(ctx, s.pending, ntx.accountKey);
    File(s.(pending := pendingCache), m, ntx.accountKey,
         Classify(ctx.table, ctx.rules, provider, m, ntx, Remaining(ctx, s.cycle.matches, m), pending))
  }

  function SortAllFull(ctx: Context, s: Sorting, feed: Feed): Sorting
    decreases |feed|
  {
    if feed == [] then s
    else
      var provider, ntx := feed[0].provider, feed[0].ntx;
      var s1 := if Accepted(ctx, provider, ntx)
                then SortFull(ctx, provider, ctx.mappings[(provider, ntx.accountKey)], s, ntx) else s;
      SortAllFull(ctx, s1, feed[1..])
  }

  // --- when the two agree ----------------------------------------------------------------------

  /** Calendar days, and neither window wider than the listing reaches back. */
  ghost predicate WindowsFit(rules: Rules) {
    && rules.options.unit == CalendarDays
    && rules.manualWindowDays <= rules.backfillDays && rules.options.windowDays <= rules.backfillDays
  }

  /** An account belongs to one budget. */
  ghost predicate OneBudget(ctx: Context, home: string -> string) {
    forall a :: a in ctx.mappings ==> ctx.mappings[a].budget == home(ctx.mappings[a].ynabAccount)
  }

  ghost predicate HasClaims(matches: seq<Batch<ManualMatch>>, account: string) {
    exists id :: IsClaimed(matches, account, id)
  }

  /** This transaction makes the account's list reach further back. */
  predicate Widens(ctx: Context, manual: ManualCache, m: Mapping, ntx: Ntx) {
    && m.ynabAccount in manual
    && manual[m.ynabAccount].0 > SinceDateBound(ntx.date, ctx.rules.backfillDays)
  }

  /** No list is widened once something has been claimed from it. */
  ghost predicate NoLateWidening(ctx: Context, s: Sorting, feed: Feed)
    decreases |feed|
  {
    feed != [] ==>
      var provider, ntx := feed[0].provider, feed[0].ntx;
      && (Accepted(ctx, provider, ntx) ==>
            var m := ctx.mappings[(provider, ntx.accountKey)];
            Widens(ctx, s.manual, m, ntx) ==> !HasClaims(s.cycle.matches, m.ynabAccount))
      && NoLateWidening(ctx, SortOne(ctx, provider, s, ntx), feed[1..])
  }

  function Reaching(matches: seq<Batch<ManualMatch>>, account: string, since: int): ManualCandidate -> bool {
    (c: ManualCandidate) => c.date >= since && !IsClaimed(matches, account, c.id)
  }

  /** Each cached list is the remaining part of its account, from its own date on. */
  ghost predicate Faithful(ctx: Context, s: Sorting, home: string -> string) {
    && (forall a :: a in s.manual ==>
          s.manual[a].1 == Filter(AllUnimported(ctx.ledger, home(a), a), Reaching(s.cycle.matches, a, s.manual[a].0)))
    && forall a :: a !in s.manual ==> !HasClaims(s.cycle.matches, a)
  }

  lemma {:induction false} ListedIsFiltered(l: Ledger, budget: string, account: string, since: int, from: nat,
                                            keep: ManualCandidate -> bool)
    requires from <= |l| && forall c: ManualCandidate :: keep(c) <==> c.date >= since
    ensures ListUnimported(l, budget, account, since, from) == Filter(AllUnimported(l, budget, account, from), keep)
    decreases |l| - from
  {
    if from < |l| {
      ListedIsFiltered(l, budget, account, since, from + 1, keep);
      FilterStep(AllUnimported(l, budget, account, from), keep);
    }
  }

  lemma {:induction false} IdsAscend(l: Ledger, budget: string, account: string, from: nat)
    requires from <= |l|
    ensures DistinctIds(AllUnimported(l, budget, account, from))
    ensures forall c :: c in AllUnimported(l, budget, account, from) ==> c.id >= from
    decreases |l| - from
  {
    if from < |l| {
      IdsAscend(l, budget, account, from + 1);
      var rest := AllUnimported(l, budget, account, from + 1);
      forall j | 0 <= j < |rest| ensures rest[j].id > from {
        assert rest[j] in rest;
      }
    }
  }

  ghost predicate DistinctIds(cs: seq<ManualCandidate>) {
    forall i, j :: 0 <= i < j < |cs| ==> cs[i].id != cs[j].id
  }

  lemma {:induction false} FilterBoth<T>(xs: seq<T>, first: T -> bool, second: T -> bool, both: T -> bool)
    requires forall x :: x in xs ==> (both(x) <==> first(x) && second(x))
    ensures Filter(Filter(xs, first), second) == Filter(xs, both)
  {
    hide Filter;
    FilterStep(xs, first);
    FilterStep(xs, both);
    if xs == [] {
      FilterStep(Filter(xs, first), second);
    } else {
      FilterBoth(xs[1..], first, second, both);
      var head := if first(xs[0]) then [xs[0]] else [];
      FilterConcat(head, Filter(xs[1..], first), second);
      FilterStep(head, second);
      assert head != [] ==> head[1..] == [];
      FilterStep([], second);
    }
  }

  /** list.remove is a filter on the id. */
  lemma {:induction false} RemoveIsFilter(xs: seq<ManualCandidate>, c: ManualCandidate, keep: ManualCandidate -> bool)
    requires DistinctIds(xs) && c in xs && forall d :: keep(d) <==> d.id != c.id
    ensures Remove(xs, c) == Filter(xs, keep)
  {
    FilterStep(xs, keep);
    if xs[0] == c {
      assert forall d :: d in xs[1..] ==> keep(d);
      FilterAll(xs[1..], keep);
    } else {
      assert xs[0].id != c.id by {
        var j :| 0 <= j < |xs| && xs[j] == c;
      }
      RemoveIsFilter(xs[1..], c, keep);
    }
  }

  lemma {:induction false} FilterAll<T>(xs: seq<T>, keep: T -> bool)
    requires forall x :: x in xs ==> keep(x)
    ensures Filter(xs, keep) == xs
  {
    if xs != [] {
      FilterAll(xs[1..], keep);
    }
  }

  lemma {:induction false} FilterKeepsDistinct(xs: seq<ManualCandidate>, keep: ManualCandidate -> bool)
    requires DistinctIds(xs)
    ensures DistinctIds(Filter(xs, keep))
  {
    if xs != [] {
      FilterKeepsDistinct(xs[1..], keep);
      FilterMembers(xs[1..], keep);
      var rest := Filter(xs[1..], keep);
      forall j | 0 <= j < |rest| ensures rest[j].id != xs[0].id {
        assert rest[j] in rest;
        var k :| 0 <= k < |xs[1..]| && xs[1..][k] == rest[j];
        assert xs[k + 1] == rest[j];
      }
    }
  }

  // --- one step ----------------------------------------------------------------------------------

  /** The same survivors, so the same match. */
  lemma SameManualMatch(ctx: Context, matches: seq<Batch<ManualMatch>>, m: Mapping, ntx: Ntx, since: int,
                        cached: seq<ManualCandidate>)
    requires WindowsFit(ctx.rules) && since <= SinceDateBound(ntx.date, ctx.rules.backfillDays)
    requires cached == Filter(AllUnimported(ctx.ledger, m.budget, m.ynabAccount), Reaching(matches, m.ynabAccount, since))
    ensures ManualMatchFor(ctx.rules, ntx, cached) == ManualMatchFor(ctx.rules, ntx, Remaining(ctx, matches, m))
  {
    var all := AllUnimported(ctx.ledger, m.budget, m.ynabAccount);
    var unclaimed, reaching := Unclaimed(matches, m.ynabAccount), Reaching(matches, m.ynabAccount, since);
    hide Filter, AllUnimported, IsClaimed;
    var exact := (c: ManualCandidate) => SameAmountInWindow(ctx.rules, ntx, c);
    var both := (c: ManualCandidate) => exact(c) && unclaimed(c);
    FilterBoth(all, unclaimed, exact, both);
    FilterBoth(all, reaching, exact, both);
    var tolerant := (c: ManualCandidate) => ManualPassesFilters(ntx.amount, ntx.date, c, ctx.rules.options);
    var both' := (c: ManualCandidate) => tolerant(c) && unclaimed(c);
    FilterBoth(all, unclaimed, tolerant, both');
    FilterBoth(all, reaching, tolerant, both');
    hide Disambiguate;
    assert ManualSurvivors(ntx.amount, ntx.date, cached, ctx.rules.options)
        == ManualSurvivors(ntx.amount, ntx.date, Remaining(ctx, matches, m), ctx.rules.options);
  }

  lemma FetchKeepsFaithful(ctx: Context, s: Sorting, home: string -> string, m: Mapping, ntx: Ntx)
    requires Faithful(ctx, s, home) && m.budget == home(m.ynabAccount)
    requires Widens(ctx, s.manual, m, ntx) ==> !HasClaims(s.cycle.matches, m.ynabAccount)
    requires ctx.rules.manualWindowDays > 0 || ctx.rules.pendingEnabled
    ensures var (cache, listed) := ManualCandidates(ctx, s.manual, m, ntx.date);
            && Faithful(ctx, s.(manual := cache), home)
            && m.ynabAccount in cache && cache[m.ynabAccount].1 == listed
            && cache[m.ynabAccount].0 <= SinceDateBound(ntx.date, ctx.rules.backfillDays)
  {
    var since := SinceDateBound(ntx.date, ctx.rules.backfillDays);
    var (cache, listed) := ManualCandidates(ctx, s.manual, m, ntx.date);
    var all := AllUnimported(ctx.ledger, m.budget, m.ynabAccount);
    var reaching := Reaching(s.cycle.matches, m.ynabAccount, since);
    hide AllUnimported, ListUnimported, IsClaimed, Filter;
    if cache != s.manual {
      assert !HasClaims(s.cycle.matches, m.ynabAccount);
      forall c: ManualCandidate ensures reaching(c) <==> c.date >= since {
        assert IsClaimed(s.cycle.matches, m.ynabAccount, c.id) ==> HasClaims(s.cycle.matches, m.ynabAccount);
      }
      ListedIsFiltered(ctx.ledger, m.budget, m.ynabAccount, since, 0, reaching);
    }
  }

  lemma {:induction false} AddToClaims(matches: seq<Batch<ManualMatch>>, budget: string, p: ManualMatch,
                                       account: string, id: nat)
    ensures IsClaimed(AddTo(matches, budget, p), account, id)
       <==> IsClaimed(matches, account, id) || (p.payload.account == account && p.originalId == id)
  {
    hide IsClaimed, AddTo;
    ClaimedCons(matches, account, id);
    AddToStep(matches, budget, p);
    var more := AddTo(matches, budget, p);
    ClaimedCons(more, account, id);
    if matches == [] {
      ClaimedCons(more[1..], account, id);
      assert more[0].items == [] + [p];
      ClaimsInAppended([], p, account, id);
    } else if matches[0].budget == budget {
      ClaimsInAppended(matches[0].items, p, account, id);
    } else {
      AddToClaims(matches[1..], budget, p, account, id);
    }
  }

  ghost predicate ClaimedBy(items: seq<ManualMatch>, account: string, id: nat) {
    exists i :: 0 <= i < |items| && items[i].payload.account == account && items[i].originalId == id
  }

  lemma ClaimsInAppended(items: seq<ManualMatch>, p: ManualMatch, account: string, id: nat)
    ensures ClaimedBy(items + [p], account, id)
       <==> ClaimedBy(items, account, id) || (p.payload.account == account && p.originalId == id)
  {
    var more := items + [p];
    assert more[|items|] == p;
    if ClaimedBy(items, account, id) {
      var i :| 0 <= i < |items| && items[i].payload.account == account && items[i].originalId == id;
      assert more[i] == items[i];
    }
  }

  lemma ClaimedCons(matches: seq<Batch<ManualMatch>>, account: string, id: nat)
    ensures matches == [] ==> !IsClaimed(matches, account, id)
    ensures matches != [] ==>
        (IsClaimed(matches, account, id)
         <==> ClaimedBy(matches[0].items, account, id) || IsClaimed(matches[1..], account, id))
  {
    if matches != [] {
      if IsClaimed(matches, account, id) {
        var b, i :| 0 <= b < |matches| && 0 <= i < |matches[b].items|
          && matches[b].items[i].payload.account == account && matches[b].items[i].originalId == id;
        assert b > 0 ==> matches[1..][b - 1] == matches[b];
      }
      if IsClaimed(matches[1..], account, id) {
        var b, i :| 0 <= b < |matches[1..]| && 0 <= i < |matches[1..][b].items|
          && matches[1..][b].items[i].payload.account == account && matches[1..][b].items[i].originalId == id;
        assert matches[b + 1] == matches[1..][b];
      }
    }
  }

  /** A claim leaves the list by its id, and only there. */
  lemma ClaimKeepsFaithful(ctx: Context, s: Sorting, home: string -> string, m: Mapping, accountKey: string,
                           p: ManualMatch, c: ManualCandidate)
    requires Faithful(ctx, s, home) && m.budget == home(m.ynabAccount)
    requires m.ynabAccount in s.manual && c in s.manual[m.ynabAccount].1
    requires p.payload.account == m.ynabAccount && p.originalId == c.id
    ensures Faithful(ctx, File(s, m, accountKey, MatchedManual(p, c)), home)
  {
    hide IsClaimed, AddTo, Filter, AllUnimported, Remove, OneMoreClaim;
    var matches' := AddTo(s.cycle.matches, m.budget, p);
    AddToClaimsOne(s.cycle.matches, m.budget, p);
    OtherAccountsUnclaimed(s.cycle.matches, matches', p);
    forall a | a in s.manual
      ensures (if a == m.ynabAccount then Remove(s.manual[a].1, c) else s.manual[a].1)
           == Filter(AllUnimported(ctx.ledger, home(a), a), Reaching(matches', a, s.manual[a].0))
    {
      IdsAscend(ctx.ledger, home(a), a, 0);
      ListAfterClaim(AllUnimported(ctx.ledger, home(a), a), s.cycle.matches, matches', a, s.manual[a].0, p, c);
    }
  }

  ghost predicate OneMoreClaim(matches: seq<Batch<ManualMatch>>, matches': seq<Batch<ManualMatch>>, p: ManualMatch) {
    forall a, id :: IsClaimed(matches', a, id)
      <==> (IsClaimed(matches, a, id) || (p.payload.account == a && p.originalId == id))
  }

  lemma AddToClaimsOne(matches: seq<Batch<ManualMatch>>, budget: string, p: ManualMatch)
    ensures OneMoreClaim(matches, AddTo(matches, budget, p), p)
  {
    forall a, id
      ensures IsClaimed(AddTo(matches, budget, p), a, id)
         <==> IsClaimed(matches, a, id) || (p.payload.account == a && p.originalId == id)
    {
      AddToClaims(matches, budget, p, a, id);
    }
  }

  lemma OtherAccountsUnclaimed(matches: seq<Batch<ManualMatch>>, matches': seq<Batch<ManualMatch>>, p: ManualMatch)
    requires OneMoreClaim(matches, matches', p)
    ensures forall a :: a != p.payload.account && !HasClaims(matches, a) ==> !HasClaims(matches', a)
  {
  }

  lemma ListAfterClaim(all: seq<ManualCandidate>, matches: seq<Batch<ManualMatch>>, matches': seq<Batch<ManualMatch>>,
                       account: string, since: int, p: ManualMatch, c: ManualCandidate)
    requires DistinctIds(all) && p.originalId == c.id
    requires OneMoreClaim(matches, matches', p)
    requires p.payload.account == account ==> c in Filter(all, Reaching(matches, account, since))
    ensures Filter(all, Reaching(matches', account, since))
         == if p.payload.account == account then Remove(Filter(all, Reaching(matches, account, since)), c)
            else Filter(all, Reaching(matches, account, since))
  {
    hide IsClaimed, Filter, Remove;
    var before, after := Reaching(matches, account, since), Reaching(matches', account, since);
    if p.payload.account == account {
      FilterKeepsDistinct(all, before);
      var others := (d: ManualCandidate) => d.id != c.id;
      RemoveIsFilter(Filter(all, before), c, others);
      FilterBoth(all, before, others, after);
    } else {
      FilterAgree(all, before, after);
    }
  }

  /** The same outcome, and the cache stays faithful. */
  lemma SortAgrees(ctx: Context, provider: string, m: Mapping, s: Sorting, full: Sorting, ntx: Ntx,
                   home: string -> string)
    requires WindowsFit(ctx.rules) && Faithful(ctx, s, home) && m.budget == home(m.ynabAccount)
    requires Widens(ctx, s.manual, m, ntx) ==> !HasClaims(s.cycle.matches, m.ynabAccount)
    requires full.pending == s.pending && full.cycle == s.cycle
    ensures var next, next' := Sort(ctx, provider, m, s, ntx), SortFull(ctx, provider, m, full, ntx);
            next'.pending == next.pending && next'.cycle == next.cycle && Faithful(ctx, next, home)
  {
    var (cache, manual) := ManualCandidates(ctx, s.manual, m, ntx.date);
    var (pendingCache, pending) := PendingCandidates(ctx, s.pending, ntx.accountKey);
    var remaining := Remaining(ctx, s.cycle.matches, m);
    var s1 := s.(manual := cache, pending := pendingCache);
    var outcome := Classify(ctx.table, ctx.rules, provider, m, ntx, manual, pending);
    SameOutcome(ctx, provider, m, s, ntx, home, pending);
    FileIgnoresManual(s1, full.(pending := pendingCache), m, ntx.accountKey, outcome);
    hide ManualCandidates, PendingCandidates, Classify, Remaining, File, AllUnimported;
    if outcome.MatchedManual? {
      ClaimKeepsFaithful(ctx, s1, home, m, ntx.accountKey, outcome.match_, outcome.original);
    }
  }

  lemma FileIgnoresManual(s: Sorting, full: Sorting, m: Mapping, accountKey: string, outcome: Outcome)
    requires full.pending == s.pending && full.cycle == s.cycle
    ensures var next, next' := File(s, m, accountKey, outcome), File(full, m, accountKey, outcome);
            && next'.pending == next.pending && next'.cycle == next.cycle
            && (!outcome.MatchedManual? ==> next.manual == s.manual && next.cycle.matches == s.cycle.matches)
  {
    hide AddTo, Append, Remove;
  }

  lemma SameOutcome(ctx: Context, provider: string, m: Mapping, s: Sorting, ntx: Ntx, home: string -> string,
                    pending: seq<PendingCandidate>)
    requires WindowsFit(ctx.rules) && Faithful(ctx, s, home) && m.budget == home(m.ynabAccount)
    requires Widens(ctx, s.manual, m, ntx) ==> !HasClaims(s.cycle.matches, m.ynabAccount)
    ensures var (cache, manual) := ManualCandidates(ctx, s.manual, m, ntx.date);
            var outcome := Classify(ctx.table, ctx.rules, provider, m, ntx, manual, pending);
            && Faithful(ctx, s.(manual := cache), home)
            && outcome == Classify(ctx.table, ctx.rules, provider, m, ntx, Remaining(ctx, s.cycle.matches, m), pending)
            && (outcome.MatchedManual? ==>
                  m.ynabAccount in cache && outcome.original in cache[m.ynabAccount].1
                  && outcome.match_.payload.account == m.ynabAccount && outcome.match_.originalId == outcome.original.id)
  {
    var (cache, manual) := ManualCandidates(ctx, s.manual, m, ntx.date);
    MatchIsListed(ctx.rules, ntx, manual);
    MatchIsListed(ctx.rules, ntx, Remaining(ctx, s.cycle.matches, m));
    if ctx.rules.manualWindowDays > 0 || ctx.rules.pendingEnabled {
      FetchKeepsFaithful(ctx, s, home, m, ntx);
      SameManualMatch(ctx, s.cycle.matches, m, ntx, cache[m.ynabAccount].0, manual);
    }
    hide Faithful, FuzzyMatchFor, Remaining, ManualMatchFor, ListUnimported;
  }

  lemma MatchIsListed(rules: Rules, ntx: Ntx, candidates: seq<ManualCandidate>)
    ensures var found := ManualMatchFor(rules, ntx, candidates);
            found.Some? ==> found.value in candidates && (rules.manualWindowDays > 0 || rules.pendingEnabled)
  {
    FilterMembers(candidates, (c: ManualCandidate) => SameAmountInWindow(rules, ntx, c));
  }

  lemma {:induction false} SortAllAgrees(ctx: Context, s: Sorting, full: Sorting, feed: Feed, home: string -> string)
    requires WindowsFit(ctx.rules) && OneBudget(ctx, home) && Faithful(ctx, s, home) && NoLateWidening(ctx, s, feed)
    requires full.pending == s.pending && full.cycle == s.cycle
    ensures SortAll(ctx, s, feed).cycle == SortAllFull(ctx, full, feed).cycle
    decreases |feed|
  {
    hide WindowsFit, Faithful, Sort, SortFull, FetchWindow, HasClaims, Widens;
    if feed != [] {
      var provider, ntx := feed[0].provider, feed[0].ntx;
      var s1, full1 := SortOne(ctx, provider, s, ntx), full;
      if Accepted(ctx, provider, ntx) {
        var m := ctx.mappings[(provider, ntx.accountKey)];
        full1 := SortFull(ctx, provider, m, full, ntx);
        SortAgrees(ctx, provider, m, s, full, ntx, home);
      }
      SortAllAgrees(ctx, s1, full1, feed[1..], home);
      assert SortAllFull(ctx, full, feed) == SortAllFull(ctx, full1, feed[1..]);
    }
  }

  /**
   * The bounded, widening cache gives every transaction the match, ambiguity or None that the whole remaining
   * account would give, so the same cycle, as long as no claim precedes a widening.
   */
  lemma CachedMatchingIsFullMatching(ctx: Context, feed: Feed, home: string -> string)
    requires WindowsFit(ctx.rules) && OneBudget(ctx, home) && NoLateWidening(ctx, NOTHING_SORTED, feed)
    ensures CycleOf(ctx, feed) == SortAllFull(ctx, NOTHING_SORTED, feed).cycle
  {
    SortAllAgrees(ctx, NOTHING_SORTED, NOTHING_SORTED, feed, home);
  }

  // --- widening after a claim -----------------------------------------------------------------------

  ghost predicate Within(all: seq<ManualCandidate>, since: int, cs: seq<ManualCandidate>) {
    forall c :: c in cs ==> c in all && c.date >= since
  }

  ghost predicate ClaimedWithin(all: seq<ManualCandidate>, since: int, id: nat) {
    exists c :: c in all && c.id == id && c.date >= since
  }

  /** Lists hold candidates of their account back to their own date, and so do the claims. */
  ghost predicate Reaches(ctx: Context, s: Sorting, home: string -> string) {
    && (forall a :: a in s.manual ==> Within(AllUnimported(ctx.ledger, home(a), a), s.manual[a].0, s.manual[a].1))
    && (forall a, id :: IsClaimed(s.cycle.matches, a, id) ==>
          a in s.manual && ClaimedWithin(AllUnimported(ctx.ledger, home(a), a), s.manual[a].0, id))
  }

  lemma ListingIsWithin(l: Ledger, budget: string, account: string, since: int)
    ensures Within(AllUnimported(l, budget, account), since, ListUnimported(l, budget, account, since))
  {
    var keep := (c: ManualCandidate) => c.date >= since;
    ListedIsFiltered(l, budget, account, since, 0, keep);
    FilterMembers(AllUnimported(l, budget, account), keep);
  }

  lemma FetchReaches(ctx: Context, s: Sorting, home: string -> string, m: Mapping, date: int)
    requires Reaches(ctx, s, home) && m.budget == home(m.ynabAccount)
    ensures var (cache, listed) := ManualCandidates(ctx, s.manual, m, date);
            && Reaches(ctx, s.(manual := cache), home)
            && (listed != [] ==> m.ynabAccount in cache && listed == cache[m.ynabAccount].1)
  {
    ListingIsWithin(ctx.ledger, m.budget, m.ynabAccount, SinceDateBound(date, ctx.rules.backfillDays));
    hide ListUnimported, AllUnimported, IsClaimed, Within;
    var cache := ManualCandidates(ctx, s.manual, m, date).0;
    forall a, id | IsClaimed(s.cycle.matches, a, id)
      ensures a in cache && ClaimedWithin(AllUnimported(ctx.ledger, home(a), a), cache[a].0, id)
    {
    }
  }

  lemma RemoveIsWithin(all: seq<ManualCandidate>, since: int, cs: seq<ManualCandidate>, c: ManualCandidate)
    requires Within(all, since, cs)
    ensures Within(all, since, Remove(cs, c))
  {
    if cs != [] && cs[0] != c {
      assert Within(all, since, cs[1..]);
      RemoveIsWithin(all, since, cs[1..], c);
    }
  }

  lemma ClaimReaches(ctx: Context, s: Sorting, home: string -> string, m: Mapping, accountKey: string, p: ManualMatch,
                     c: ManualCandidate)
    requires Reaches(ctx, s, home) && m.ynabAccount in s.manual && c in s.manual[m.ynabAccount].1
    requires p.payload.account == m.ynabAccount && p.originalId == c.id
    ensures Reaches(ctx, File(s, m, accountKey, MatchedManual(p, c)), home)
  {
    var matches' := AddTo(s.cycle.matches, m.budget, p);
    AddToClaimsOne(s.cycle.matches, m.budget, p);
    var a := m.ynabAccount;
    assert ClaimedWithin(AllUnimported(ctx.ledger, home(a), a), s.manual[a].0, c.id);
    RemoveIsWithin(AllUnimported(ctx.ledger, home(a), a), s.manual[a].0, s.manual[a].1, c);
    hide AddTo, IsClaimed, AllUnimported, Remove, Within, ClaimedWithin;
  }

  lemma SortReaches(ctx: Context, provider: string, m: Mapping, s: Sorting, ntx: Ntx, home: string -> string)
    requires Reaches(ctx, s, home) && m.budget == home(m.ynabAccount)
    ensures Reaches(ctx, Sort(ctx, provider, m, s, ntx), home)
  {
    var (cache, manual) := ManualCandidates(ctx, s.manual, m, ntx.date);
    var (pendingCache, pending) := PendingCandidates(ctx, s.pending, ntx.accountKey);
    var s1 := s.(manual := cache, pending := pendingCache);
    var outcome := Classify(ctx.table, ctx.rules, provider, m, ntx, manual, pending);
    FetchReaches(ctx, s, home, m, ntx.date);
    MatchIsListed(ctx.rules, ntx, manual);
    ClaimIsListed(ctx, provider, m, ntx, manual, pending);
    FileIgnoresManual(s1, s1, m, ntx.accountKey, outcome);
    hide ManualCandidates, PendingCandidates, Classify, File, Reaches;
    ReachesIgnoresRest(ctx, s.(manual := cache), s1, home);
    if outcome.MatchedManual? {
      ClaimReaches(ctx, s1, home, m, ntx.accountKey, outcome.match_, outcome.original);
    } else {
      ReachesIgnoresRest(ctx, s1, Sort(ctx, provider, m, s, ntx), home);
    }
  }

  lemma ReachesIgnoresRest(ctx: Context, s: Sorting, s': Sorting, home: string -> string)
    requires Reaches(ctx, s, home) && s'.manual == s.manual && s'.cycle.matches == s.cycle.matches
    ensures Reaches(ctx, s', home)
  {
  }

  lemma ClaimIsListed(ctx: Context, provider: string, m: Mapping, ntx: Ntx, manual: seq<ManualCandidate>,
                      pending: seq<PendingCandidate>)
    ensures var outcome := Classify(ctx.table, ctx.rules, provider, m, ntx, manual, pending);
            outcome.MatchedManual? ==>
              && outcome.original in manual && outcome.match_.payload.account == m.ynabAccount
              && outcome.match_.originalId == outcome.original.id
  {
    MatchIsListed(ctx.rules, ntx, manual);
    hide ManualMatchFor, FuzzyMatchFor;
  }

  lemma {:induction false} SortAllReaches(ctx: Context, s: Sorting, feed: Feed, home: string -> string)
    requires OneBudget(ctx, home) && Reaches(ctx, s, home)
    ensures Reaches(ctx, SortAll(ctx, s, feed), home)
    decreases |feed|
  {
    hide Reaches, Sort, FetchWindow;
    if feed != [] {
      var provider, ntx := feed[0].provider, feed[0].ntx;
      if Accepted(ctx, provider, ntx) {
        SortReaches(ctx, provider, ctx.mappings[(provider, ntx.accountKey)], s, ntx, home);
      }
      SortAllReaches(ctx, SortOne(ctx, provider, s, ntx), feed[1..], home);
    }
  }

  /** The account back to what this transaction needs, without what has been claimed. */
  function RightList(ctx: Context, matches: seq<Batch<ManualMatch>>, m: Mapping, ntx: Ntx): seq<ManualCandidate> {
    Filter(AllUnimported(ctx.ledger, m.budget, m.ynabAccount),
           Reaching(matches, m.ynabAccount, SinceDateBound(ntx.date, ctx.rules.backfillDays)))
  }

  /**
   * At any point of a cycle, a list that is widened comes back right, that is without what has been claimed, if and
   * only if nothing has been claimed from it yet.
   */
  lemma WideningIsRightIffNothingClaimed(ctx: Context, feed: Feed, m: Mapping, ntx: Ntx, home: string -> string)
    requires OneBudget(ctx, home) && m.budget == home(m.ynabAccount)
    requires ctx.rules.manualWindowDays > 0 || ctx.rules.pendingEnabled
    requires Widens(ctx, SortAll(ctx, NOTHING_SORTED, feed).manual, m, ntx)
    ensures ManualCandidates(ctx, SortAll(ctx, NOTHING_SORTED, feed).manual, m, ntx.date).1
         == RightList(ctx, SortAll(ctx, NOTHING_SORTED, feed).cycle.matches, m, ntx)
       <==> !HasClaims(SortAll(ctx, NOTHING_SORTED, feed).cycle.matches, m.ynabAccount)
  {
    assert Reaches(ctx, NOTHING_SORTED, home);
    SortAllReaches(ctx, NOTHING_SORTED, feed, home);
    var s := SortAll(ctx, NOTHING_SORTED, feed);
    RelistedIsRight(ctx, s, m, ntx, home);
  }

  lemma RelistedIsRight(ctx: Context, s: Sorting, m: Mapping, ntx: Ntx, home: string -> string)
    requires Reaches(ctx, s, home) && m.budget == home(m.ynabAccount) && Widens(ctx, s.manual, m, ntx)
    requires ctx.rules.manualWindowDays > 0 || ctx.rules.pendingEnabled
    ensures ManualCandidates(ctx, s.manual, m, ntx.date).1 == RightList(ctx, s.cycle.matches, m, ntx)
       <==> !HasClaims(s.cycle.matches, m.ynabAccount)
  {
    var since := SinceDateBound(ntx.date, ctx.rules.backfillDays);
    var account := m.ynabAccount;
    var all := AllUnimported(ctx.ledger, m.budget, account);
    var late := (c: ManualCandidate) => c.date >= since;
    var reaching := Reaching(s.cycle.matches, account, since);
    ListedIsFiltered(ctx.ledger, m.budget, account, since, 0, late);
    FilterMembers(all, late);
    FilterMembers(all, reaching);
    hide AllUnimported, ListUnimported, IsClaimed, Filter;
    if HasClaims(s.cycle.matches, account) {
      var id :| IsClaimed(s.cycle.matches, account, id);
      assert ClaimedWithin(all, s.manual[account].0, id);
      var c :| c in all && c.id == id && c.date >= s.manual[account].0;
      assert c in Filter(all, late) && c !in Filter(all, reaching);
    } else {
      forall c | c in all ensures late(c) == reaching(c) {
        assert IsClaimed(s.cycle.matches, account, c.id) ==> HasClaims(s.cycle.matches, account);
      }
      FilterAgree(all, late, reaching);
    }
  }

  // --- a late widening -----------------------------------------------------------------------------

  const SHOP := Mapping("checking", "home")
  const TYPED := Txn("home", "checking", 10, 5000, "Shop", Cleared, None, None, false, false)
  const TYPED_CANDIDATE := ManualCandidate(0, 5000, 10, false, "Shop")

  /** One hand-typed transaction, one account, matching within three days. */
  function OneTyped(o: Options): Context {
    Context(Rules(30, 24, 3, false, o), map[], [], map[], [TYPED], map[("bank", "acct") := SHOP], 20 * SECONDS_PER_DAY)
  }

  function Purchase(key: string, date: int): Ntx {
    Ntx("acct", key, "SB1:" + key, date, 5.0, "SHOP 1", true, None, None)
  }

  lemma TypedIsMatched(o: Options, key: string, date: int)
    requires o.unit == CalendarDays && 9 <= date <= 11
    ensures ManualMatchFor(OneTyped(o).rules, Purchase(key, date), [TYPED_CANDIDATE]) == Some(TYPED_CANDIDATE)
    ensures ManualMatchFor(OneTyped(o).rules, Purchase(key, date), []) == None
    ensures Accepted(OneTyped(o), "bank", Purchase(key, date))
    ensures ListUnimported([TYPED], "home", "checking", date - 30) == [TYPED_CANDIDATE]
  {
    assert 5.0 * 1000.0 == 5000.0;
    var keep := (c: ManualCandidate) => SameAmountInWindow(OneTyped(o).rules, Purchase(key, date), c);
    FilterStep([TYPED_CANDIDATE], keep);
    FilterStep([], keep);
    assert [TYPED_CANDIDATE][1..] == [];
    assert ListUnimported([TYPED], "home", "checking", date - 30, 1) == [];
    assert DateOf(-10 * SECONDS_PER_DAY) == -10;
  }

  function Claimed(s: Sorting, key: string, date: int): Sorting {
    s.(manual := s.manual["checking" := (date - 30, [])],
       cycle := s.cycle.(matches := AddTo(s.cycle.matches, "home", NewMatch(SHOP, Purchase(key, date), TYPED_CANDIDATE))))
  }

  lemma PurchaseIsClaimed(o: Options, s: Sorting, key: string, date: int)
    requires o.unit == CalendarDays && 9 <= date <= 11
    requires "checking" !in s.manual || s.manual["checking"].0 > date - 30
    ensures SortOne(OneTyped(o), "bank", s, Purchase(key, date)) == Claimed(s, key, date)
  {
    TypedIsMatched(o, key, date);
    var ctx, ntx := OneTyped(o), Purchase(key, date);
    assert ManualCandidates(ctx, s.manual, SHOP, date)
        == (s.manual["checking" := (date - 30, [TYPED_CANDIDATE])], [TYPED_CANDIDATE]);
    hide ManualCandidates, ManualMatchFor, AddTo, Accepted, NewMatch;
    assert Classify(ctx.table, ctx.rules, "bank", SHOP, ntx, [TYPED_CANDIDATE], [])
        == MatchedManual(NewMatch(SHOP, ntx, TYPED_CANDIDATE), TYPED_CANDIDATE);
    assert Remove([TYPED_CANDIDATE], TYPED_CANDIDATE) == [];
  }

  /** The cycle of two purchases that both replace the hand-typed transaction. */
  function TwiceClaimed(key1: string, key2: string): Cycle {
    Cycle([], map[], map[], [Batch("home", [NewMatch(SHOP, Purchase(key1, 11), TYPED_CANDIDATE),
                                            NewMatch(SHOP, Purchase(key2, 10), TYPED_CANDIDATE)])])
  }

  /** A claim before a widening refetch is forgotten: two purchases replace the same hand-typed transaction. */
  lemma LateWideningClaimsTwice(o: Options, key1: string, key2: string)
    requires o.unit == CalendarDays
    ensures CycleOf(OneTyped(o), [Fetched("bank", Purchase(key1, 11)), Fetched("bank", Purchase(key2, 10))])
         == TwiceClaimed(key1, key2)
    ensures forall m :: m in TwiceClaimed(key1, key2).matches[0].items ==> m.originalId == 0
  {
    var p1, p2 := Purchase(key1, 11), Purchase(key2, 10);
    var m1, m2 := NewMatch(SHOP, p1, TYPED_CANDIDATE), NewMatch(SHOP, p2, TYPED_CANDIDATE);
    var feed := [Fetched("bank", p1), Fetched("bank", p2)];
    var s1 := SortOne(OneTyped(o), "bank", NOTHING_SORTED, p1);
    PurchaseIsClaimed(o, NOTHING_SORTED, key1, 11);
    PurchaseIsClaimed(o, s1, key2, 10);
    hide SortOne, NewMatch;
    var s2 := SortOne(OneTyped(o), "bank", s1, p2);
    var none: seq<Batch<ManualMatch>> := [];
    assert AddTo(none, "home", m1) == [Batch("home", [m1])];
    assert AddTo([Batch("home", [m1])], "home", m2) == [Batch("home", [m1, m2])] by {
      assert [Batch("home", [m1])][1..] == [] && [m1] + [m2] == [m1, m2];
    }
    assert feed[1..] == [Fetched("bank", p2)] && feed[1..][1..] == [];
    assert SortAll(OneTyped(o), NOTHING_SORTED, feed) == SortAll(OneTyped(o), s1, feed[1..]);
    assert SortAll(OneTyped(o), s1, feed[1..]) == SortAll(OneTyped(o), s2, []);
  }
}
