/**
 * sync/engine.py, phase 1: every fetched transaction is judged against the
 * local table and filed into the cycle that phase 2 will submit.  Candidate
 * lists are cached for the cycle, and a match takes its candidate off them.
 */
module Classification {
  import opened Wrappers
  import opened Ynab
  import opened StateDb
  import opened SyncSpec
  import opened Money
  import opened DateWindow
  import opened PendingMatch
  import opened Sequences

  /** NormalizedTransaction. */
  datatype Ntx = Ntx(
    accountKey: string, trackingKey: string, importId: string, date: int, amount: real, payee: string, booked: bool,
    accountNumber: Option<string>, remoteAccountNumber: Option<string>)

  datatype Mapping = Mapping(ynabAccount: string, budget: string)

  /** Provider and provider_account_id. */
  type AccountId = (string, string)

  datatype Rules = Rules(backfillDays: nat, overlapHours: nat, manualWindowDays: int, pendingEnabled: bool,
                         options: Options)

  /** What classification reads; `scan` is the order in which SQLite returns the tracked rows. */
  datatype Context = Context(
    rules: Rules, table: Table, scan: seq<string>, cursors: map<string, int>, ledger: Ledger,
    mappings: map<AccountId, Mapping>, now: int)

  ghost predicate ScansTable(scan: seq<string>, t: Table) {
    && (forall i, j :: 0 <= i < j < |scan| ==> scan[i] != scan[j])
    && forall k :: k in scan <==> k in t
  }

  // --- fetch windows and candidate lists ------------------------------------------------

  function CursorOf(cursors: map<string, int>, accountKey: string): Option<int> {
    if accountKey in cursors then Some(cursors[accountKey]) else None
  }

  /** _compute_fetch_windows, for one account: never later than its oldest pending row was first seen. */
  function FetchWindow(ctx: Context, accountKey: string): int {
    var since := ComputeSince(CursorOf(ctx.cursors, accountKey), ctx.now, ctx.rules.backfillDays, ctx.rules.overlapHours);
    var floor := EarliestPending(ctx.table, accountKey);
    if floor.Some? && floor.value < since then floor.value else since
  }

  type ManualCache = map<string, (int, seq<ManualCandidate>)>
  type PendingCache = map<string, seq<PendingCandidate>>

  /** _get_manual_candidates: list the account when it is not cached far enough back. */
  function ManualCandidates(ctx: Context, cache: ManualCache, m: Mapping, date: int): (ManualCache, seq<ManualCandidate>) {
    if ctx.rules.manualWindowDays <= 0 && !ctx.rules.pendingEnabled then (cache, [])
    else
      var since := SinceDateBound(date, ctx.rules.backfillDays);
      if m.ynabAccount !in cache || cache[m.ynabAccount].0 > since then
        var listed := ListUnimported(ctx.ledger, m.budget, m.ynabAccount, since);
        (cache[m.ynabAccount := (since, listed)], listed)
      else (cache, cache[m.ynabAccount].1)
  }

  function ToPendingCandidate(key: string, r: Row, index: nat): PendingCandidate {
    PendingCandidate(index, key, r.facts.txnId, r.facts.budget, r.facts.accountKey, r.facts.amount,
                     DateOf(r.firstSeenAt), r.facts.payee)
  }

  /** The PENDING rows of an account, in table order, numbered from `index` on. */
  function PendingRows(t: Table, scan: seq<string>, accountKey: string, index: nat := 0): seq<PendingCandidate> {
    if scan == [] then []
    else if scan[0] in t && IsPendingOf(t[scan[0]], accountKey) then
      [ToPendingCandidate(scan[0], t[scan[0]], index)] + PendingRows(t, scan[1..], accountKey, index + 1)
    else PendingRows(t, scan[1..], accountKey, index)
  }

  /** _get_pending_candidates. */
  function PendingCandidates(ctx: Context, cache: PendingCache, accountKey: string)
    : (PendingCache, seq<PendingCandidate>)
  {
    if !ctx.rules.pendingEnabled then (cache, [])
    else if accountKey !in cache then
      var rows := PendingRows(ctx.table, ctx.scan, accountKey);
      (cache[accountKey := rows], rows)
    else (cache, cache[accountKey])
  }

  // --- _classify ----------------------------------------------------------------------------

  datatype Outcome =
    | New(create: Create)
    | Transitioned(update: Correction)
    | TransitionedFuzzy(update: Correction, settled: PendingCandidate)
    | MatchedManual(match_: ManualMatch, original: ManualCandidate)
    | Unchanged

  function StatusOf(ntx: Ntx): BookingStatus { if ntx.booked then Booked else Pending }

  function FuzzyMatchFor(rules: Rules, ntx: Ntx, pending: seq<PendingCandidate>): Option<Match> {
    if !ntx.booked then None
    else FindPendingMatch(BookedCandidate(ntx.accountKey, ntx.amount, ntx.date, ntx.payee), pending, rules.options)
  }

  predicate SameAmountInWindow(rules: Rules, ntx: Ntx, c: ManualCandidate) {
    && !c.split
    && c.amount == ToMilliunits(ntx.amount)
    && DaysBetween(c.date, ntx.date, rules.options.unit, rules.options.workingDays) <= rules.manualWindowDays
  }

  /** _find_manual_match: the only same-amount candidate in the window, if there is exactly one. */
  function FindManualMatch(rules: Rules, ntx: Ntx, candidates: seq<ManualCandidate>): Option<ManualCandidate> {
    var matches := Filter(candidates, (c: ManualCandidate) => SameAmountInWindow(rules, ntx, c));
    if |matches| == 1 then Some(matches[0]) else None
  }

  /** It refuses to guess: a match is the one and only candidate that fits, whatever the order of the list. */
  lemma ManualMatchIsSole(rules: Rules, ntx: Ntx, candidates: seq<ManualCandidate>, c: ManualCandidate)
    ensures FindManualMatch(rules, ntx, candidates) == Some(c)
       <==> multiset(candidates)[c] == 1 && SameAmountInWindow(rules, ntx, c)
            && forall d :: d in candidates && SameAmountInWindow(rules, ntx, d) ==> d == c
  {
    var keep := (d: ManualCandidate) => SameAmountInWindow(rules, ntx, d);
    var matches := Filter(candidates, keep);
    FilterMembers(candidates, keep);
    FilterCounts(candidates, keep, c);
    hide SameAmountInWindow, Filter;
    SoleMember(matches, c);
  }

  lemma SoleMember<T>(xs: seq<T>, x: T)
    ensures xs == [x] <==> multiset(xs)[x] == 1 && forall y :: y in xs ==> y == x
  {
    if forall y :: y in xs ==> y == x {
      CountAll(xs, x);
    }
  }

  lemma {:induction false} CountAll<T>(xs: seq<T>, x: T)
    requires forall y :: y in xs ==> y == x
    ensures multiset(xs)[x] == |xs|
  {
    if xs != [] {
      assert forall y :: y in xs[1..] ==> y in xs;
      CountAll(xs[1..], x);
      assert xs == [xs[0]] + xs[1..] && xs[0] in xs;
    }
  }

  /** Pending and booked transactions each have their own opt-in, and their own matcher. */
  function ManualMatchFor(rules: Rules, ntx: Ntx, candidates: seq<ManualCandidate>): Option<ManualCandidate> {
    if ntx.booked then
      if rules.manualWindowDays > 0 then FindManualMatch(rules, ntx, candidates) else None
    else
      if rules.pendingEnabled then
        FindManualMatchTolerant(ntx.amount, ntx.date, candidates, Some(ntx.payee), rules.options)
      else None
  }

  function NewCreate(provider: string, m: Mapping, ntx: Ntx): Create {
    Create(ntx.trackingKey,
           Payload(m.ynabAccount, ntx.date, ToMilliunits(ntx.amount), ntx.payee, ClearedFor(StatusOf(ntx)), ntx.importId,
                   None),
           StatusOf(ntx), ntx.accountKey, provider, ntx.accountNumber, ntx.remoteAccountNumber, None)
  }

  /** The replacement carries the matched transaction's own amount and payee. */
  function NewMatch(m: Mapping, ntx: Ntx, c: ManualCandidate): ManualMatch {
    ManualMatch(ntx.trackingKey,
                Payload(m.ynabAccount, ntx.date, c.amount, c.payee, ClearedFor(StatusOf(ntx)), ntx.importId, None),
                c.id, StatusOf(ntx), ntx.accountKey, ntx.payee)
  }

  function Classify(t: Table, rules: Rules, provider: string, m: Mapping, ntx: Ntx, manual: seq<ManualCandidate>,
                    pending: seq<PendingCandidate>): Outcome {
    if ntx.trackingKey in t then
      var row := t[ntx.trackingKey].facts;
      if row.status == Pending && ntx.booked then
        Transitioned(Update(ntx.trackingKey, row.txnId, ntx.amount, row.date, row.budget))
      else Unchanged
    else
      var fuzzy := FuzzyMatchFor(rules, ntx, pending);
      if fuzzy.Some? then
        var c := fuzzy.value.candidate;
        TransitionedFuzzy(FuzzyUpdate(c.trackingKey, ntx.trackingKey, c.txnId, ntx.amount, c.date, c.budget), c)
      else
        var original := ManualMatchFor(rules, ntx, manual);
        if original.Some? then MatchedManual(NewMatch(m, ntx, original.value), original.value)
        else New(NewCreate(provider, m, ntx))
  }

  // --- fetch_and_classify -----------------------------------------------------------------

  /** The caches and the cycle, as far as they are filled. */
  datatype Sorting = Sorting(manual: ManualCache, pending: PendingCache, cycle: Cycle)

  const NOTHING_SORTED := Sorting(map[], map[], Cycle([], map[], map[], []))

  /** batches[budget].append(item), for a dictionary of lists. */
  function AddTo<T>(batches: seq<Batch<T>>, budget: string, item: T): seq<Batch<T>> {
    if batches == [] then [Batch(budget, [item])]
    else if batches[0].budget == budget then [Batch(budget, batches[0].items + [item])] + batches[1..]
    else [batches[0]] + AddTo(batches[1..], budget, item)
  }

  lemma AddToStep<T>(batches: seq<Batch<T>>, budget: string, p: T)
    ensures var more := AddTo(batches, budget, p);
            && more != []
            && if batches == [] then more[0] == Batch(budget, [p]) && more[1..] == []
               else if batches[0].budget == budget then
                 more[0] == Batch(budget, batches[0].items + [p]) && more[1..] == batches[1..]
               else more[0] == batches[0] && more[1..] == AddTo(batches[1..], budget, p)
  {
  }

  function Append(m: map<string, seq<Correction>>, budget: string, c: Correction): map<string, seq<Correction>> {
    m[budget := Lookup(m, budget) + [c]]
  }

  function TakeManual(cache: ManualCache, account: string, c: ManualCandidate): ManualCache {
    if account in cache then cache[account := (cache[account].0, Remove(cache[account].1, c))] else cache
  }

  function TakePending(cache: PendingCache, accountKey: string, c: PendingCandidate): PendingCache {
    if accountKey in cache then cache[accountKey := Remove(cache[accountKey], c)] else cache
  }

  function File(s: Sorting, m: Mapping, accountKey: string, outcome: Outcome): Sorting {
    match outcome
    case New(p) => s.(cycle := s.cycle.(creates := AddTo(s.cycle.creates, m.budget, p)))
    case Transitioned(c) => s.(cycle := s.cycle.(updates := Append(s.cycle.updates, c.budget, c)))
    case TransitionedFuzzy(c, settled) =>
      s.(pending := TakePending(s.pending, accountKey, settled),
         cycle := s.cycle.(fuzzyUpdates := Append(s.cycle.fuzzyUpdates, c.budget, c)))
    case MatchedManual(p, original) =>
      s.(manual := TakeManual(s.manual, m.ynabAccount, original),
         cycle := s.cycle.(matches := AddTo(s.cycle.matches, m.budget, p)))
    case Unchanged => s
  }

  /** Mapped, and not dated before its account's own window. */
  predicate Accepted(ctx: Context, provider: string, ntx: Ntx) {
    && (provider, ntx.accountKey) in ctx.mappings
    && ntx.date >= DateOf(FetchWindow(ctx, ntx.accountKey))
  }

  function Sort(ctx: Context, provider: string, m: Mapping, s: Sorting, ntx: Ntx): Sorting {
    var (manualCache, manual) := ManualCandidates(ctx, s.manual, m, ntx.date);
    var (pendingCache, pending) := PendingCandidates(ctx, s.pending, ntx.accountKey);
    File(s.(manual := manualCache, pending := pendingCache), m, ntx.accountKey,
         Classify(ctx.table, ctx.rules, provider, m, ntx, manual, pending))
  }

  function SortOne(ctx: Context, provider: string, s: Sorting, ntx: Ntx): Sorting {
    if Accepted(ctx, provider, ntx) then Sort(ctx, provider, ctx.mappings[(provider, ntx.accountKey)], s, ntx) else s
  }

  datatype Fetched = Fetched(provider: string, ntx: Ntx)

  /** Everything the configured providers returned, in the order it is looped over. */
  type Feed = seq<Fetched>

  function SortAll(ctx: Context, s: Sorting, feed: Feed): Sorting
    decreases |feed|
  {
    if feed == [] then s else SortAll(ctx, SortOne(ctx, feed[0].provider, s, feed[0].ntx), feed[1..])
  }

  /** The cycle before transfers are linked (see TransferLinking.MatchTransfers). */
  function CycleOf(ctx: Context, feed: Feed): Cycle { SortAll(ctx, NOTHING_SORTED, feed).cycle }

  // --- the loops of fetch_and_classify, in place ------------------------------------------

  class CycleSorter {
    const ctx: Context
    var windows: map<AccountId, int>
    var manualCandidates: ManualCache
    var pendingCandidates: PendingCache
    var creates: seq<Batch<Create>>
    var updates: map<string, seq<Correction>>
    var fuzzyUpdates: map<string, seq<Correction>>
    var matches: seq<Batch<ManualMatch>>

    constructor (ctx: Context)
      ensures this.ctx == ctx && Sorted() == NOTHING_SORTED && windows == map[]
    {
      this.ctx := ctx;
      windows, manualCandidates, pendingCandidates := map[], map[], map[];
      creates, updates, fuzzyUpdates, matches := [], map[], map[], [];
    }

    ghost function Sorted(): Sorting
      reads this
    {
      Sorting(manualCandidates, pendingCandidates, Cycle(creates, updates, fuzzyUpdates, matches))
    }

    /** _compute_fetch_windows. */
    method ComputeFetchWindows(accounts: seq<AccountId>)
      modifies this`windows
      ensures windows == map a | a in accounts :: FetchWindow(ctx, a.1)
    {
      windows := map[];
      for i := 0 to |accounts|
        invariant windows == map a | a in accounts[..i] :: FetchWindow(ctx, a.1)
      {
        var account := accounts[i].1;
        var since := ComputeSince(CursorOf(ctx.cursors, account), ctx.now, ctx.rules.backfillDays, ctx.rules.overlapHours);
        var floor := EarliestPending(ctx.table, account);
        if floor.Some? && floor.value < since {
          since := floor.value;
        }
        windows := windows[accounts[i] := since];
        assert accounts[..i + 1] == accounts[..i] + [accounts[i]];
      }
      assert accounts[..|accounts|] == accounts;
    }

    method GetManualCandidates(m: Mapping, date: int) returns (candidates: seq<ManualCandidate>)
      modifies this`manualCandidates
      ensures (manualCandidates, candidates) == ManualCandidates(ctx, old(manualCandidates), m, date)
    {
      if ctx.rules.manualWindowDays <= 0 && !ctx.rules.pendingEnabled {
        return [];
      }
      var neededSince := SinceDateBound(date, ctx.rules.backfillDays);
      if m.ynabAccount !in manualCandidates || manualCandidates[m.ynabAccount].0 > neededSince {
        candidates := ListUnimported(ctx.ledger, m.budget, m.ynabAccount, neededSince);
        manualCandidates := manualCandidates[m.ynabAccount := (neededSince, candidates)];
        return;
      }
      candidates := manualCandidates[m.ynabAccount].1;
    }

    method GetPendingCandidates(accountKey: string) returns (candidates: seq<PendingCandidate>)
      modifies this`pendingCandidates
      ensures (pendingCandidates, candidates) == PendingCandidates(ctx, old(pendingCandidates), accountKey)
    {
      if !ctx.rules.pendingEnabled {
        return [];
      }
      if accountKey !in pendingCandidates {
        pendingCandidates := pendingCandidates[accountKey := PendingRows(ctx.table, ctx.scan, accountKey)];
      }
      candidates := pendingCandidates[accountKey];
    }

    /** One accepted transaction: judge it, pop what it claimed, and append it to its list. */
    method SortNtx(provider: string, m: Mapping, ntx: Ntx)
      modifies this
      ensures Sorted() == Sort(ctx, provider, m, old(Sorted()), ntx) && windows == old(windows)
    {
      hide Classify, AddTo, Remove, ListUnimported, PendingRows;
      var manual := GetManualCandidates(m, ntx.date);
      var pending := GetPendingCandidates(ntx.accountKey);
      match Classify(ctx.table, ctx.rules, provider, m, ntx, manual, pending) {
        case New(p) => creates := AddTo(creates, m.budget, p);
        case Transitioned(c) => updates := Append(updates, c.budget, c);
        case TransitionedFuzzy(c, settled) =>
          pendingCandidates := TakePending(pendingCandidates, ntx.accountKey, settled);
          fuzzyUpdates := Append(fuzzyUpdates, c.budget, c);
        case MatchedManual(p, original) =>
          manualCandidates := TakeManual(manualCandidates, m.ynabAccount, original);
          matches := AddTo(matches, m.budget, p);
        case Unchanged =>
      }
    }

    method FetchAndClassify(accounts: seq<AccountId>, feed: Feed) returns (cycle: Cycle)
      requires Sorted() == NOTHING_SORTED
      requires forall a :: a in accounts <==> a in ctx.mappings
      modifies this
      ensures cycle == CycleOf(ctx, feed)
    {
      ComputeFetchWindows(accounts);
      hide Sort, FetchWindow;
      for i := 0 to |feed|
        invariant windows == map a | a in accounts :: FetchWindow(ctx, a.1)
        invariant SortAll(ctx, NOTHING_SORTED, feed) == SortAll(ctx, Sorted(), feed[i..])
      {
        var provider, ntx := feed[i].provider, feed[i].ntx;
        assert feed[i..][0] == feed[i] && feed[i..][1..] == feed[i + 1..];
        var account := (provider, ntx.accountKey);
        if account in ctx.mappings && ntx.date >= DateOf(windows[account]) {
          SortNtx(provider, ctx.mappings[account], ntx);
        }
      }
      assert feed[|feed|..] == [];
      cycle := Cycle(creates, updates, fuzzyUpdates, matches);
    }
  }
}
