/**
 * Where every item of a classified cycle comes from, field by field: the
 * report, the mapping of its account, the row it settles, and what is listed
 * in YNAB.
 */
module Provenance {
  import opened Wrappers
  import opened Ynab
  import opened StateDb
  import opened SyncSpec
  import opened PendingMatch
  import opened Classification
  import opened Filing
  import opened Sequences
  import DateWindow
  import Money

  // --- items -------------------------------------------------------------------------------------------------------

  function ReportedStatus(f: Fetched): BookingStatus { if f.ntx.booked then Booked else Pending }

  function ReportedFlag(f: Fetched): ClearedFlag { if f.ntx.booked then Cleared else Uncleared }

  /** What the payload of an untracked report takes from it, whatever it is matched with. */
  ghost predicate CarriesReport(ctx: Context, f: Fetched, b: string, key: string, account: string, p: Payload) {
    && IsNew(ctx, f) && key == f.ntx.trackingKey && account == f.ntx.accountKey
    && b == MappingOf(ctx, f).budget && p.account == MappingOf(ctx, f).ynabAccount
    && p.importId == f.ntx.importId && p.date == f.ntx.date && p.cleared == ReportedFlag(f) && p.transferTo.None?
  }

  /** A create is the report. */
  ghost predicate CreatesReport(ctx: Context, f: Fetched, b: string, p: Create) {
    && CarriesReport(ctx, f, b, p.trackingKey, p.accountKey, p.payload)
    && p.payload.amount == Money.ToMilliunits(f.ntx.amount) && p.payload.payee == f.ntx.payee
    && p.status == ReportedStatus(f) && p.provider == f.provider
    && p.accountNumber == f.ntx.accountNumber && p.remoteAccountNumber == f.ntx.remoteAccountNumber
    && p.secondary.None?
  }

  /** The opt-in of a booked or a pending report, and how far the replaced transaction may differ from it. */
  ghost predicate ReplacedFits(rules: Rules, ntx: Ntx, amount: int, date: int, split: bool) {
    && !split
    && if ntx.booked then
         && rules.manualWindowDays > 0 && amount == Money.ToMilliunits(ntx.amount)
         && CloseEnough(date, ntx.date, rules.options.(windowDays := rules.manualWindowDays))
       else
         && rules.pendingEnabled
         && amount as real / 1000.0 - ntx.amount <= rules.options.toleranceKroner
         && ntx.amount - amount as real / 1000.0 <= rules.options.toleranceKroner
         && CloseEnough(date, ntx.date, rules.options)
  }

  /** A match is the report under the amount and the payee of the transaction it replaces. */
  ghost predicate ReplacesFor(ctx: Context, f: Fetched, b: string, m: ManualMatch) {
    && CarriesReport(ctx, f, b, m.trackingKey, m.accountKey, m.payload)
    && m.status == ReportedStatus(f) && m.rawPayee == f.ntx.payee
    && m.originalId < |ctx.ledger|
    && var o := ctx.ledger[m.originalId];
       && m.payload.amount == o.amount && m.payload.payee == o.payee && o.importId.None? && IsVisible(o)
       && o.account == m.payload.account
       && ReplacedFits(ctx.rules, f.ntx, o.amount, o.date, o.split)
  }

  /** A plain update books the PENDING row of the report's own key. */
  ghost predicate BooksOwn(ctx: Context, f: Fetched, b: string, c: Correction) {
    && IsAccepted(ctx, f) && f.ntx.booked && c.Update? && c.oldKey == f.ntx.trackingKey && c.oldKey in ctx.table
    && var r := ctx.table[c.oldKey];
       && r.facts.status == Pending && c.txnId == r.facts.txnId && c.newAmount == f.ntx.amount
       && c.date == r.facts.date && c.budget == b == r.facts.budget
  }

  /** A row that could have become the report: see CouldBecome. */
  ghost predicate RowCouldBecome(ctx: Context, r: Row, ntx: Ntx) {
    var o := ctx.rules.options;
    && r.facts.accountKey == ntx.accountKey && r.facts.status == Pending
    && r.facts.amount - ntx.amount <= o.toleranceKroner && ntx.amount - r.facts.amount <= o.toleranceKroner
    && CloseEnough(DateWindow.DateOf(r.firstSeenAt), ntx.date, o)
    && (o.requirePayeeMatch ==> PayeesAgree(r.facts.payee, ntx.payee, o))
  }

  /** A fuzzy update books the PENDING row of another key, in the report's account, under the report's key. */
  ghost predicate BooksOther(ctx: Context, f: Fetched, b: string, c: Correction) {
    && IsNew(ctx, f) && f.ntx.booked && ctx.rules.pendingEnabled
    && c.FuzzyUpdate? && c.newKey == f.ntx.trackingKey && c.oldKey in ctx.table
    && var r := ctx.table[c.oldKey];
       && RowCouldBecome(ctx, r, f.ntx) && c.txnId == r.facts.txnId && c.newAmount == f.ntx.amount
       && c.date == DateWindow.DateOf(r.firstSeenAt) && c.budget == b == r.facts.budget
  }

  ghost predicate Corrected(ctx: Context, f: Fetched, b: string, c: Correction) {
    BooksOwn(ctx, f, b, c) || BooksOther(ctx, f, b, c)
  }

  /** Every item of the cycle comes from a report of the feed. */
  ghost predicate AllFromReports(ctx: Context, feed: Feed, cycle: Cycle) {
    && (forall b, p :: InBatches(cycle.creates, b, p) ==> exists f :: f in feed && CreatesReport(ctx, f, b, p))
    && (forall b, m :: InBatches(cycle.matches, b, m) ==> exists f :: f in feed && ReplacesFor(ctx, f, b, m))
    && (forall b, c :: c in CorrectionsOf(cycle, b) ==> exists f :: f in feed && Corrected(ctx, f, b, c))
  }

  // --- candidates --------------------------------------------------------------------------------------------------

  /** A candidate row: its key, its transaction and what it is compared by. */
  ghost predicate IsRow(t: Table, account: string, c: PendingCandidate) {
    && c.trackingKey in t
    && var r := t[c.trackingKey];
       && r.facts.status == Pending && r.facts.accountKey == account == c.accountKey
       && c.txnId == r.facts.txnId && c.budget == r.facts.budget && c.amount == r.facts.amount
       && c.date == DateWindow.DateOf(r.firstSeenAt) && c.payee == r.facts.payee
  }

  /** A candidate transaction: visible in YNAB, and not imported. */
  ghost predicate IsListed(l: Ledger, account: string, c: ManualCandidate) {
    && c.id < |l|
    && var o := l[c.id];
       && o.account == account && o.importId.None? && IsVisible(o)
       && c.amount == o.amount && c.date == o.date && c.payee == o.payee && c.split == o.split
  }

  ghost predicate AllRowsOf(t: Table, account: string, cs: seq<PendingCandidate>) {
    forall c :: c in cs ==> IsRow(t, account, c)
  }

  ghost predicate AllListed(l: Ledger, account: string, cs: seq<ManualCandidate>) {
    forall c :: c in cs ==> IsListed(l, account, c)
  }

  ghost predicate CachesTruth(ctx: Context, s: Sorting) {
    && (forall a :: a in s.pending ==> AllRowsOf(ctx.table, a, s.pending[a]))
    && (forall a :: a in s.manual ==> AllListed(ctx.ledger, a, s.manual[a].1))
  }

  lemma {:induction false} ListedIsListed(l: Ledger, budget: string, account: string, since: int, from: nat)
    requires from <= |l|
    ensures AllListed(l, account, ListUnimported(l, budget, account, since, from))
    decreases |l| - from
  {
    if from < |l| {
      ListedIsListed(l, budget, account, since, from + 1);
    }
  }

  lemma {:induction false} PendingRowsAreRows(t: Table, scan: seq<string>, account: string, index: nat)
    ensures AllRowsOf(t, account, PendingRows(t, scan, account, index))
  {
    if scan != [] {
      PendingRowsAreRows(t, scan[1..], account, index);
      PendingRowsAreRows(t, scan[1..], account, index + 1);
    }
  }

  lemma {:induction false} RemoveKeeps<T>(xs: seq<T>, x: T)
    ensures forall y :: y in Remove(xs, x) ==> y in xs
  {
    if xs != [] {
      RemoveKeeps(xs[1..], x);
      assert xs == [xs[0]] + xs[1..];
    }
  }

  lemma FetchedCachesTruth(ctx: Context, s: Sorting, m: Mapping, ntx: Ntx)
    requires CachesTruth(ctx, s)
    ensures var (manualCache, manual) := ManualCandidates(ctx, s.manual, m, ntx.date);
            var (pendingCache, pending) := PendingCandidates(ctx, s.pending, ntx.accountKey);
            && AllListed(ctx.ledger, m.ynabAccount, manual) && AllRowsOf(ctx.table, ntx.accountKey, pending)
            && (pending != [] ==> ctx.rules.pendingEnabled)
            && CachesTruth(ctx, s.(manual := manualCache, pending := pendingCache))
  {
    ListedIsListed(ctx.ledger, m.budget, m.ynabAccount, DateWindow.SinceDateBound(ntx.date, ctx.rules.backfillDays), 0);
    PendingRowsAreRows(ctx.table, ctx.scan, ntx.accountKey, 0);
    hide IsListed, IsRow, ListUnimported, PendingRows;
  }

  lemma TakingKeepsTruth(ctx: Context, s: Sorting, m: Mapping, account: string, outcome: Outcome)
    requires CachesTruth(ctx, s)
    ensures CachesTruth(ctx, File(s, m, account, outcome))
  {
    hide IsListed, IsRow, AddTo, Append, Remove;
    match outcome
    case MatchedManual(_, original) =>
      if m.ynabAccount in s.manual {
        RemoveKeeps(s.manual[m.ynabAccount].1, original);
      }
    case TransitionedFuzzy(_, settled) =>
      if account in s.pending {
        RemoveKeeps(s.pending[account], settled);
      }
    case _ =>
  }

  // --- one report at a time ----------------------------------------------------------------------------------------

  ghost predicate OutcomeFrom(ctx: Context, f: Fetched, outcome: Outcome)
    requires IsAccepted(ctx, f)
  {
    match outcome
    case New(p) => CreatesReport(ctx, f, MappingOf(ctx, f).budget, p)
    case Transitioned(c) => BooksOwn(ctx, f, c.budget, c)
    case TransitionedFuzzy(c, _) => BooksOther(ctx, f, c.budget, c)
    case MatchedManual(p, _) => ReplacesFor(ctx, f, MappingOf(ctx, f).budget, p)
    case Unchanged => true
  }

  lemma FuzzyIsRow(ctx: Context, ntx: Ntx, pending: seq<PendingCandidate>)
    requires AllRowsOf(ctx.table, ntx.accountKey, pending) && (pending != [] ==> ctx.rules.pendingEnabled)
    ensures var found := FuzzyMatchFor(ctx.rules, ntx, pending);
            found.Some? ==>
              && ntx.booked && ctx.rules.pendingEnabled && IsRow(ctx.table, ntx.accountKey, found.value.candidate)
              && RowCouldBecome(ctx, ctx.table[found.value.candidate.trackingKey], ntx)
  {
    if ntx.booked {
      var booked := BookedCandidate(ntx.accountKey, ntx.amount, ntx.date, ntx.payee);
      var found := FindPendingMatch(booked, pending, ctx.rules.options);
      PendingMatchFits(booked, pending, ctx.rules.options);
      hide FindPendingMatch, CloseEnough, PayeesAgree;
      if found.Some? {
        var c := found.value.candidate;
        assert IsRow(ctx.table, ntx.accountKey, c) && CouldBecome(c, booked, ctx.rules.options);
      }
    }
  }

  lemma SoleFits(rules: Rules, ntx: Ntx, manual: seq<ManualCandidate>, c: ManualCandidate)
    requires ntx.booked && ManualMatchFor(rules, ntx, manual) == Some(c)
    ensures c in manual && ReplacedFits(rules, ntx, c.amount, c.date, c.split)
  {
    ManualMatchIsSole(rules, ntx, manual, c);
    hide FindManualMatch, Money.ToMilliunits;
    assert multiset(manual)[c] == 1;
  }

  lemma TolerantFits(rules: Rules, ntx: Ntx, manual: seq<ManualCandidate>, c: ManualCandidate)
    requires !ntx.booked && ManualMatchFor(rules, ntx, manual) == Some(c)
    ensures c in manual && ReplacedFits(rules, ntx, c.amount, c.date, c.split)
  {
    ManualMatchFits(ntx.amount, ntx.date, manual, Some(ntx.payee), rules.options);
    hide FindManualMatchTolerant, CloseEnough;
  }

  /** A candidate that the report's own opt-in allows. */
  ghost predicate Allowed(rules: Rules, ntx: Ntx, c: ManualCandidate) {
    ReplacedFits(rules, ntx, c.amount, c.date, c.split)
  }

  /** A booked report replaces the one place in the list that holds what is allowed; a pending one the clear winner. */
  lemma ReplacementIsChosen(rules: Rules, ntx: Ntx, manual: seq<ManualCandidate>, c: ManualCandidate)
    requires rules.options.minMargin > 0.0
    ensures ntx.booked ==> (ManualMatchFor(rules, ntx, manual) == Some(c) <==>
              multiset(manual)[c] == 1 && Allowed(rules, ntx, c)
              && forall d :: d in manual && Allowed(rules, ntx, d) ==> d == c)
    ensures !ntx.booked ==> (ManualMatchFor(rules, ntx, manual) == Some(c) <==>
              rules.pendingEnabled && ManualLeads(ntx.amount, ntx.date, manual, ntx.payee, rules.options, c))
  {
    if ntx.booked {
      ManualMatchIsSole(rules, ntx, manual, c);
      forall d ensures rules.manualWindowDays > 0 ==> (SameAmountInWindow(rules, ntx, d) <==> Allowed(rules, ntx, d)) {
        AllowedIsSame(rules, ntx, d);
      }
      assert Allowed(rules, ntx, c) ==> rules.manualWindowDays > 0;
      hide FindManualMatch, SameAmountInWindow, Allowed;
    } else if rules.pendingEnabled {
      ManualMatchIsClearWinner(ntx.amount, ntx.date, manual, ntx.payee, rules.options, c);
      hide FindManualMatchTolerant, ManualLeads;
    }
  }

  lemma AllowedIsSame(rules: Rules, ntx: Ntx, d: ManualCandidate)
    requires ntx.booked
    ensures rules.manualWindowDays > 0 ==> (SameAmountInWindow(rules, ntx, d) <==> Allowed(rules, ntx, d))
  {
    hide Money.ToMilliunits;
  }

  /** How a report and a row of its account are compared. */
  function AsBooked(ntx: Ntx): BookedCandidate { BookedCandidate(ntx.accountKey, ntx.amount, ntx.date, ntx.payee) }

  ghost predicate NothingFits(rules: Rules, ntx: Ntx, manual: seq<ManualCandidate>, pending: seq<PendingCandidate>) {
    && (forall c :: c in pending ==> !CouldBecome(c, AsBooked(ntx), rules.options))
    && forall c :: c in manual ==> !Allowed(rules, ntx, c)
  }

  /**
   * An untracked report settles the pending row that leads, if it is booked; otherwise it replaces the manual
   * transaction that is chosen; and if no row could have become it and no transaction is allowed, it is created.
   */
  lemma OutcomeIsChosen(ctx: Context, f: Fetched, manual: seq<ManualCandidate>, pending: seq<PendingCandidate>)
    requires IsNew(ctx, f) && ctx.rules.options.minMargin > 0.0
    ensures var o := ctx.rules.options;
            var outcome := Classify(ctx.table, ctx.rules, f.provider, MappingOf(ctx, f), f.ntx, manual, pending);
            && (forall c, similarity :: f.ntx.booked && Leads(AsBooked(f.ntx), pending, o, c, similarity) ==>
                  outcome.TransitionedFuzzy? && outcome.settled == c)
            && (!outcome.TransitionedFuzzy? ==>
                  forall c :: ManualMatchFor(ctx.rules, f.ntx, manual) == Some(c) ==>
                    outcome.MatchedManual? && outcome.original == c)
            && (NothingFits(ctx.rules, f.ntx, manual, pending) ==> outcome.New?)
  {
    var o := ctx.rules.options;
    forall c, similarity | f.ntx.booked && Leads(AsBooked(f.ntx), pending, o, c, similarity)
      ensures FuzzyMatchFor(ctx.rules, f.ntx, pending) == Some(BuildMatch(AsBooked(f.ntx), c, similarity, o))
    {
      PendingMatchIsClearWinner(AsBooked(f.ntx), pending, o, c, similarity);
    }
    PendingMatchFits(AsBooked(f.ntx), pending, o);
    var original := ManualMatchFor(ctx.rules, f.ntx, manual);
    if original.Some? {
      if f.ntx.booked {
        SoleFits(ctx.rules, f.ntx, manual, original.value);
      } else {
        TolerantFits(ctx.rules, f.ntx, manual, original.value);
      }
    }
    hide Leads, FindPendingMatch, ManualMatchFor, CouldBecome, Accepted, ReplacedFits, NewMatch, NewCreate;
  }

  lemma OutcomeFromReport(ctx: Context, f: Fetched, manual: seq<ManualCandidate>, pending: seq<PendingCandidate>)
    requires IsAccepted(ctx, f) && AllListed(ctx.ledger, MappingOf(ctx, f).ynabAccount, manual)
    requires AllRowsOf(ctx.table, f.ntx.accountKey, pending) && (pending != [] ==> ctx.rules.pendingEnabled)
    ensures OutcomeFrom(ctx, f, Classify(ctx.table, ctx.rules, f.provider, MappingOf(ctx, f), f.ntx, manual, pending))
  {
    FuzzyIsRow(ctx, f.ntx, pending);
    var original := ManualMatchFor(ctx.rules, f.ntx, manual);
    if original.Some? {
      if f.ntx.booked {
        SoleFits(ctx.rules, f.ntx, manual, original.value);
      } else {
        TolerantFits(ctx.rules, f.ntx, manual, original.value);
      }
    }
    hide FuzzyMatchFor, ManualMatchFor, Accepted, ReplacedFits, RowCouldBecome, Money.ToMilliunits;
  }

  // --- the whole feed ----------------------------------------------------------------------------------------------

  lemma MoreFromReports(ctx: Context, done: Feed, f: Fetched, cycle: Cycle)
    requires AllFromReports(ctx, done, cycle)
    ensures AllFromReports(ctx, done + [f], cycle)
  {
    hide InBatches, CreatesReport, ReplacesFor, Corrected, CorrectionsOf;
    assert forall g :: g in done ==> g in done + [f];
  }

  /** A correction is filed once, with the plain updates or with the fuzzy ones. */
  lemma CorrectionFromReport(ctx: Context, done: Feed, cycle: Cycle, f: Fetched, c: Correction)
    requires AllFromReports(ctx, done, cycle) && f in done && Corrected(ctx, f, c.budget, c)
    ensures AllFromReports(ctx, done, cycle.(updates := Append(cycle.updates, c.budget, c)))
    ensures AllFromReports(ctx, done, cycle.(fuzzyUpdates := Append(cycle.fuzzyUpdates, c.budget, c)))
  {
    var plain := cycle.(updates := Append(cycle.updates, c.budget, c));
    var fuzzy := cycle.(fuzzyUpdates := Append(cycle.fuzzyUpdates, c.budget, c));
    hide CreatesReport, ReplacesFor, Corrected, InBatches;
    forall b, d | d in CorrectionsOf(plain, b) || d in CorrectionsOf(fuzzy, b)
      ensures exists g :: g in done && Corrected(ctx, g, b, d)
    {
      assert d in CorrectionsOf(cycle, b) || (b == c.budget && d == c);
    }
    hide CorrectionsOf;
  }

  lemma CreateFromReport(ctx: Context, done: Feed, cycle: Cycle, f: Fetched, budget: string, p: Create)
    requires AllFromReports(ctx, done, cycle) && f in done && CreatesReport(ctx, f, budget, p)
    ensures AllFromReports(ctx, done, cycle.(creates := AddTo(cycle.creates, budget, p)))
  {
    hide CreatesReport, ReplacesFor, Corrected, InBatches, AddTo, CorrectionsOf;
    forall b, q | InBatches(AddTo(cycle.creates, budget, p), b, q)
      ensures exists g :: g in done && CreatesReport(ctx, g, b, q)
    {
      AddToMembers(cycle.creates, budget, p, b, q);
    }
    SameCorrections(cycle, cycle.(creates := AddTo(cycle.creates, budget, p)));
  }

  lemma MatchFromReport(ctx: Context, done: Feed, cycle: Cycle, f: Fetched, budget: string, m: ManualMatch)
    requires AllFromReports(ctx, done, cycle) && f in done && ReplacesFor(ctx, f, budget, m)
    ensures AllFromReports(ctx, done, cycle.(matches := AddTo(cycle.matches, budget, m)))
  {
    hide CreatesReport, ReplacesFor, Corrected, InBatches, AddTo, CorrectionsOf;
    forall b, q | InBatches(AddTo(cycle.matches, budget, m), b, q)
      ensures exists g :: g in done && ReplacesFor(ctx, g, b, q)
    {
      AddToMembers(cycle.matches, budget, m, b, q);
    }
    SameCorrections(cycle, cycle.(matches := AddTo(cycle.matches, budget, m)));
  }

  lemma SameCorrections(cycle: Cycle, cycle': Cycle)
    requires cycle'.updates == cycle.updates && cycle'.fuzzyUpdates == cycle.fuzzyUpdates
    ensures forall b :: CorrectionsOf(cycle', b) == CorrectionsOf(cycle, b)
  {
  }

  lemma FiledFromReport(ctx: Context, done: Feed, s: Sorting, f: Fetched, outcome: Outcome)
    requires AllFromReports(ctx, done, s.cycle) && f in done && IsAccepted(ctx, f) && OutcomeFrom(ctx, f, outcome)
    ensures AllFromReports(ctx, done, File(s, MappingOf(ctx, f), f.ntx.accountKey, outcome).cycle)
  {
    var m := MappingOf(ctx, f);
    hide AllFromReports, CreatesReport, ReplacesFor, BooksOwn, BooksOther, AddTo, Append, TakePending, TakeManual;
    match outcome
    case New(p) => CreateFromReport(ctx, done, s.cycle, f, m.budget, p);
    case MatchedManual(p, _) => MatchFromReport(ctx, done, s.cycle, f, m.budget, p);
    case Transitioned(c) => CorrectionFromReport(ctx, done, s.cycle, f, c);
    case TransitionedFuzzy(c, _) => CorrectionFromReport(ctx, done, s.cycle, f, c);
    case Unchanged =>
  }

  lemma StepFromReports(ctx: Context, s: Sorting, done: Feed, f: Fetched)
    requires AllFromReports(ctx, done, s.cycle) && CachesTruth(ctx, s)
    ensures AllFromReports(ctx, done + [f], SortOne(ctx, f.provider, s, f.ntx).cycle)
    ensures CachesTruth(ctx, SortOne(ctx, f.provider, s, f.ntx))
  {
    MoreFromReports(ctx, done, f, s.cycle);
    if IsAccepted(ctx, f) {
      var m := MappingOf(ctx, f);
      var (manualCache, manual) := ManualCandidates(ctx, s.manual, m, f.ntx.date);
      var (pendingCache, pending) := PendingCandidates(ctx, s.pending, f.ntx.accountKey);
      var s1 := s.(manual := manualCache, pending := pendingCache);
      var outcome := Classify(ctx.table, ctx.rules, f.provider, m, f.ntx, manual, pending);
      FetchedCachesTruth(ctx, s, m, f.ntx);
      OutcomeFromReport(ctx, f, manual, pending);
      hide AllFromReports, CachesTruth, ManualCandidates, PendingCandidates, Classify, Accepted, File, OutcomeFrom,
           AllListed, AllRowsOf;
      assert f in done + [f];
      FiledFromReport(ctx, done + [f], s1, f, outcome);
      TakingKeepsTruth(ctx, s1, m, f.ntx.accountKey, outcome);
    }
  }

  lemma {:induction false} SortAllFromReports(ctx: Context, s: Sorting, done: Feed, feed: Feed)
    requires AllFromReports(ctx, done, s.cycle) && CachesTruth(ctx, s)
    ensures AllFromReports(ctx, done + feed, SortAll(ctx, s, feed).cycle)
    decreases |feed|
  {
    hide AllFromReports, CachesTruth, SortOne;
    if feed == [] {
      assert done + feed == done;
    } else {
      var f := feed[0];
      StepFromReports(ctx, s, done, f);
      SortAllFromReports(ctx, SortOne(ctx, f.provider, s, f.ntx), done + [f], feed[1..]);
      assert done + [f] + feed[1..] == done + feed;
    }
  }

  /** Whatever is fetched, and whatever is cached on the way. */
  lemma CycleComesFromReports(ctx: Context, feed: Feed)
    ensures AllFromReports(ctx, feed, CycleOf(ctx, feed))
  {
    NothingFiled(ctx);
    hide AllFromReports, CachesTruth, SortAll;
    SortAllFromReports(ctx, NOTHING_SORTED, [], feed);
    assert [] + feed == feed;
  }

  lemma NothingFiled(ctx: Context)
    ensures AllFromReports(ctx, [], NOTHING_SORTED.cycle) && CachesTruth(ctx, NOTHING_SORTED)
  {
  }
}
