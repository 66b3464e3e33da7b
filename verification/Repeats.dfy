/**
 * What comes after a success: the next fetch window, and the same bank data
 * fetched again.
 */
module Repeats {
  import opened Wrappers
  import opened Ynab
  import opened StateDb
  import opened SyncSpec
  import opened Creation
  import opened Classification
  import opened Filing
  import opened RowFacts
  import opened Recovery
  import opened RecoveryFacts
  import opened AttemptEffects
  import opened DateWindow
  import opened Runs
  import opened RecoveryEndings

  // --- what the windows need ------------------------------------------------------------------------

  /** A row is either new since the fetch, or PENDING within the window that was fetched. */
  ghost function InWindow(ctx: Context): RowProperty {
    (k: string, r: Row) =>
      && (k !in ctx.table ==> r.firstSeenAt >= ctx.now)
      && (k in ctx.table && r.facts.status == Pending ==> r.firstSeenAt >= FetchWindow(ctx, r.facts.accountKey))
  }

  ghost predicate CursorsPast(cursors: map<string, int>, clock: int) {
    forall a :: a in cursors ==> cursors[a] <= clock
  }

  /** The cached job was fetched at these cursors, and its rows are in its windows. */
  ghost predicate TimelyJob(s: Store, ctx: Context) {
    && ctx.now <= s.clock && ctx.cursors == s.cursors && CursorsPast(s.cursors, ctx.now)
    && AllRows(s.table, InWindow(ctx))
  }

  ghost predicate Timely(s: Store) {
    CursorsPast(s.cursors, s.clock) && (s.cached.Some? ==> TimelyJob(s, s.cached.value.ctx))
  }

  /** The clock does not run backwards. */
  ghost predicate InOrder(s: Store, e: Event) {
    match e
    case Fetch(_, _, _, now) => s.clock <= now
    case Submission(t) => s.clock <= t.now
    case _ => true
  }

  // --- what the corrections need ----------------------------------------------------------------------

  ghost predicate WantsUpdate(job: Job, key: string) {
    exists f :: f in job.feed && SettlesOwnRow(job.ctx, f) && f.ntx.trackingKey == key
  }

  ghost predicate SeenBooked(job: Job, key: string) {
    exists f :: f in job.feed && IsAccepted(job.ctx, f) && f.ntx.booked && f.ntx.trackingKey == key
  }

  /** A row seen booked is PENDING only while its update is outstanding. */
  ghost function SettledBy(job: Job): RowProperty {
    (k: string, r: Row) => SeenBooked(job, k) && r.facts.status == Pending ==> WantsUpdate(job, k)
  }

  /** A new transaction was reported booked, but last of all pending. */
  ghost predicate LeftPending(job: Job, budget: string, importId: string) {
    var g := LastNew(job.ctx, job.feed, budget, importId);
    g.Some? && !g.value.ntx.booked && SeenBooked(job, g.value.ntx.trackingKey)
  }

  ghost predicate NoneLeftPending(job: Job) {
    forall b, id :: !LeftPending(job, b, id)
  }

  ghost predicate Settles(s: Store) {
    s.cached.Some? && NoneLeftPending(s.cached.value) ==> AllRows(s.table, SettledBy(s.cached.value))
  }

  // --- over every run -----------------------------------------------------------------------------------

  lemma WindowBelowPending(ctx: Context, k: string)
    requires k in ctx.table && ctx.table[k].facts.status == Pending
    ensures ctx.table[k].firstSeenAt >= FetchWindow(ctx, ctx.table[k].facts.accountKey)
  {
    var account := ctx.table[k].facts.accountKey;
    assert IsPendingOf(ctx.table[k], account);
    assert ctx.table[k].firstSeenAt in PendingTimes(ctx.table, account);
  }

  lemma FetchIsTimely(m: Machine, s: Store, feed: Feed, scan: seq<string>, synced: set<string>, now: int)
    requires Inv(m, s) && s.cached.None?
    ensures Timely(s) && s.clock <= now ==> Timely(Step(m, s, Fetch(feed, scan, synced, now)))
    ensures Settles(Step(m, s, Fetch(feed, scan, synced, now)))
  {
    var ctx := ContextOf(m, s, scan, now);
    var job := Job(ctx, feed, synced);
    hide FetchWindow, UniqueIds, ImportsAtHome, Imported, DeliveredImported, NoneLeftPending;
    forall k | k in s.table ensures InWindow(ctx)(k, s.table[k]) && SettledBy(job)(k, s.table[k]) {
      if s.table[k].facts.status == Pending {
        WindowBelowPending(ctx, k);
        if SeenBooked(job, k) {
          var f :| f in feed && IsAccepted(ctx, f) && f.ntx.booked && f.ntx.trackingKey == k;
          assert SettlesOwnRow(ctx, f);
        }
      }
    }
  }

  /** What the job records for an import_id is settled, and first seen no earlier than the fetch. */
  lemma CreateFitsJob(cfg: Settings, job: Job, b: Batch<Create>, id: string, now: int)
    requires ExactCycle(job.ctx, job.feed) && b in CycleOf(job.ctx, job.feed).creates && FindCreate(b.items, id).Some?
    ensures var p := FindCreate(b.items, id).value;
            && (job.ctx.now <= now ==> CreateHas(cfg, b.budget, p, now, InWindow(job.ctx)))
            && (NoneLeftPending(job) ==> CreateHas(cfg, b.budget, p, now, SettledBy(job)))
  {
    var p := FindCreate(b.items, id).value;
    CycleFindsLast(job.ctx, job.feed, b, id);
    var g := LastNew(job.ctx, job.feed, b.budget, id).value;
    assert p == CreateFor(job.ctx, g);
    assert p.secondary.None? && p.trackingKey == g.ntx.trackingKey && p.status == StatusOf(g.ntx);
    hide CycleOf, FindCreate, LastNew, CreateFor, IsAccepted, SettledBy, InWindow, CreateFacts, SeenBooked;
    assert NoneLeftPending(job) ==> !LeftPending(job, b.budget, id);
    forall txnId, status, amount, payee | status == p.status || status == Deleted
      ensures job.ctx.now <= now ==>
          RecordingKeeps(now, p.trackingKey, CreateFacts(b.budget, p, txnId, status, amount, payee), InWindow(job.ctx))
      ensures NoneLeftPending(job) ==>
          RecordingKeeps(now, p.trackingKey, CreateFacts(b.budget, p, txnId, status, amount, payee), SettledBy(job))
    {
      CreateFactsStatus(b.budget, p, txnId, status, amount, payee);
      RecordingFitsJob(job, now, p.trackingKey, CreateFacts(b.budget, p, txnId, status, amount, payee));
    }
  }

  lemma CreateFactsStatus(budget: string, p: Create, txnId: nat, status: BookingStatus, amount: int, payee: string)
    ensures CreateFacts(budget, p, txnId, status, amount, payee).status == status
  {
  }

  lemma RecordingFitsJob(job: Job, now: int, key: string, facts: Facts)
    requires key !in job.ctx.table
    ensures job.ctx.now <= now ==> RecordingKeeps(now, key, facts, InWindow(job.ctx))
    ensures (SeenBooked(job, key) ==> facts.status != Pending) ==> RecordingKeeps(now, key, facts, SettledBy(job))
  {
    hide Money.ToMilliunits, FetchWindow, SeenBooked, WantsUpdate;
  }

  lemma BookingFitsJob(m: Machine, job: Job)
    requires CycleAtHome(m.home, CycleOf(job.ctx, job.feed))
    ensures CorrectionsKeep(CycleOf(job.ctx, job.feed), SettledBy(job))
    ensures CorrectionsKeep(CycleOf(job.ctx, job.feed), InWindow(job.ctx))
  {
    hide CycleOf, FetchWindow, Money.ToMilliunits, WantsUpdate, SeenBooked;
    OnlyUpdates(m.home, CycleOf(job.ctx, job.feed));
    assert SurvivesBooking(SettledBy(job)) && SurvivesBooking(InWindow(job.ctx));
    hide SurvivesBooking, CorrectionsKeep;
    UpdatesKeep(CycleOf(job.ctx, job.feed), SettledBy(job));
    UpdatesKeep(CycleOf(job.ctx, job.feed), InWindow(job.ctx));
  }

  /** A recovered row is not PENDING any more. */
  lemma RecoveryFitsJob(m: Machine, job: Job, now: int)
    requires CycleAtHome(m.home, CycleOf(job.ctx, job.feed))
    ensures RecoveriesKeep(CycleOf(job.ctx, job.feed), now, SettledBy(job))
    ensures job.ctx.now <= now ==> RecoveriesKeep(CycleOf(job.ctx, job.feed), now, InWindow(job.ctx))
  {
    var cycle := CycleOf(job.ctx, job.feed);
    OnlyUpdates(m.home, cycle);
    hide CycleOf, CycleAtHome, CorrectionsOf;
    forall b, c | c in CorrectionsOf(cycle, b)
      ensures RecoveryKeeps(c, b, now, SettledBy(job))
      ensures job.ctx.now <= now ==> RecoveryKeeps(c, b, now, InWindow(job.ctx))
    {
      assert c.Update?;
      RecoveredRowFits(job, now, c, b);
    }
  }

  lemma RecoveredRowFits(job: Job, now: int, c: Correction, budget: string)
    requires c.Update?
    ensures RecoveryKeeps(c, budget, now, SettledBy(job))
    ensures job.ctx.now <= now ==> RecoveryKeeps(c, budget, now, InWindow(job.ctx))
  {
    hide FetchWindow, Money.ToMilliunits, WantsUpdate, SeenBooked;
  }

  lemma CyclesFit(cfg: Settings, job: Job, now: int)
    requires ExactCycle(job.ctx, job.feed)
    ensures job.ctx.now <= now ==> forall b :: b in CycleOf(job.ctx, job.feed).creates ==>
        CreatesHave(cfg, b.budget, b.items, now, InWindow(job.ctx))
    ensures NoneLeftPending(job) ==> forall b :: b in CycleOf(job.ctx, job.feed).creates ==>
        CreatesHave(cfg, b.budget, b.items, now, SettledBy(job))
  {
    hide CycleOf, CreateHas, NoneLeftPending, FindCreate;
    forall b, id | b in CycleOf(job.ctx, job.feed).creates && FindCreate(b.items, id).Some?
      ensures job.ctx.now <= now ==> CreateHas(cfg, b.budget, FindCreate(b.items, id).value, now, InWindow(job.ctx))
      ensures NoneLeftPending(job) ==> CreateHas(cfg, b.budget, FindCreate(b.items, id).value, now, SettledBy(job))
    {
      CreateFitsJob(cfg, job, b, id, now);
    }
  }

  /** The tracked rows of a job, through any attempt at it. */
  lemma AttemptFitsJob(m: Machine, s: Store, job: Job, t: Try)
    requires Inv(m, s) && s.cached == Some(job)
    ensures var w := SubmissionOf(m, s, job, t);
            && (Timely(s) && s.clock <= t.now ==> AllRows(w.table, InWindow(job.ctx)))
            && (Settles(s) && NoneLeftPending(job) ==> AllRows(w.table, SettledBy(job)))
  {
    var cycle := CycleOf(job.ctx, job.feed);
    var w0 := Attempt(s.table, s.ledger, t.script, t.now);
    JobAtHome(m, job);
    BookingFitsJob(m, job);
    RecoveryFitsJob(m, job, t.now);
    CyclesFit(m.cfg, job, t.now);
    hide CycleOf, SettledBy, InWindow, CreatesHave, CorrectionsKeep, RecoveriesKeep, SubmitFully, FiledExactly, NoneLeftPending, AllRows;
    hide StoresAtHome, DeliveredImported, JobFits;
    if Timely(s) && s.clock <= t.now {
      SubmitFullyKeeps(w0, m.cfg, cycle, t.budgets, t.now, InWindow(job.ctx));
    }
    if Settles(s) && NoneLeftPending(job) {
      SubmitFullyKeeps(w0, m.cfg, cycle, t.budgets, t.now, SettledBy(job));
    }
  }

  lemma SubmissionIsTimely(m: Machine, s: Store, t: Try)
    requires Inv(m, s) && s.cached.Some?
    ensures Timely(s) && s.clock <= t.now ==> Timely(AfterSubmission(m, s, t))
    ensures Settles(s) ==> Settles(AfterSubmission(m, s, t))
  {
    AttemptFitsJob(m, s, s.cached.value, t);
    SubmissionStep(m, s, t);
    if s.clock <= t.now {
      StampedPast(s.cursors, s.cached.value.synced, s.clock, t.now);
    }
    hide Inv, SubmissionOf, AfterSubmission, AllRows, NoneLeftPending, Stamp, CursorsPast;
  }

  lemma StampedPast(cursors: map<string, int>, accounts: set<string>, clock: int, now: int)
    requires clock <= now
    ensures CursorsPast(cursors, clock) ==> CursorsPast(cursors, now) && CursorsPast(cursors + Stamp(accounts, now), now)
  {
  }

  lemma NothingToSubmit(m: Machine, s: Store, t: Try)
    requires s.cached.None?
    ensures AfterSubmission(m, s, t) == s
  {
  }

  lemma StepIsTimely(m: Machine, s: Store, e: Event)
    requires Inv(m, s)
    ensures Timely(s) && InOrder(s, e) ==> Timely(Step(m, s, e))
    ensures Settles(s) ==> Settles(Step(m, s, e))
  {
    hide InWindow, SettledBy, NoneLeftPending, Inv, AfterSubmission, SubmissionOf, CycleOf;
    match e
    case Fetch(feed, scan, synced, now) =>
      if s.cached.None? { FetchIsTimely(m, s, feed, scan, synced, now); }
    case Submission(t) =>
      if s.cached.Some? { SubmissionIsTimely(m, s, t); } else { NothingToSubmit(m, s, t); }
    case _ =>
  }

  ghost predicate OrderedRun(m: Machine, s: Store, events: seq<Event>)
    decreases |events|
  {
    events != [] ==> InOrder(s, events[0]) && OrderedRun(m, Step(m, s, events[0]), events[1..])
  }

  lemma FreshIsTimely(l: Ledger, clock: int)
    ensures Timely(Store(map[], map[], l, clock, None, [])) && Settles(Store(map[], map[], l, clock, None, []))
  {
  }

  /** From a fresh installation on, both hold over every run; the first one if the clock never runs backwards. */
  lemma {:induction false} RunIsTimely(m: Machine, s: Store, events: seq<Event>)
    requires Inv(m, s) && PossibleRun(m, s, events)
    ensures Timely(s) && OrderedRun(m, s, events) ==> Timely(Run(m, s, events))
    ensures Settles(s) ==> Settles(Run(m, s, events))
    decreases |events|
  {
    hide Inv, Step, Possible, Timely, Settles, InOrder;
    if events != [] {
      StepIsTimely(m, s, events[0]);
      StepKeepsInv(m, s, events[0]);
      RunIsTimely(m, Step(m, s, events[0]), events[1..]);
    }
  }

  // --- the next window ------------------------------------------------------------------------------

  lemma WindowNotAfterNow(ctx: Context, account: string)
    requires CursorsPast(ctx.cursors, ctx.now)
    ensures FetchWindow(ctx, account) <= ctx.now
  {
  }

  lemma SinceAdvances(ctx: Context, ctx': Context, account: string)
    requires ctx'.rules == ctx.rules && ctx.now <= ctx'.now
    requires account in ctx.cursors ==> account in ctx'.cursors && ctx.cursors[account] <= ctx'.cursors[account]
    ensures ComputeSince(CursorOf(ctx.cursors, account), ctx.now, ctx.rules.backfillDays, ctx.rules.overlapHours)
         <= ComputeSince(CursorOf(ctx'.cursors, account), ctx'.now, ctx.rules.backfillDays, ctx.rules.overlapHours)
  {
  }

  lemma PendingFloor(t: Table, account: string) returns (k: string)
    requires EarliestPending(t, account).Some?
    ensures k in t && IsPendingOf(t[k], account) && t[k].firstSeenAt == EarliestPending(t, account).value
  {
    var x := EarliestPending(t, account).value;
    assert x in PendingTimes(t, account);
    k :| k in t && IsPendingOf(t[k], account) && t[k].firstSeenAt == x;
  }

  /** The next fetch window never reaches further back than the one before. */
  lemma WindowAdvances(ctx: Context, ctx': Context, account: string)
    requires ctx'.rules == ctx.rules && ctx.now <= ctx'.now && CursorsPast(ctx.cursors, ctx.now)
    requires account in ctx.cursors ==> account in ctx'.cursors && ctx.cursors[account] <= ctx'.cursors[account]
    requires AllRows(ctx'.table, InWindow(ctx))
    ensures FetchWindow(ctx, account) <= FetchWindow(ctx', account)
  {
    SinceAdvances(ctx, ctx', account);
    WindowNotAfterNow(ctx, account);
    if EarliestPending(ctx'.table, account).Some? {
      var k := PendingFloor(ctx'.table, account);
      assert InWindow(ctx)(k, ctx'.table[k]);
    }
  }

  /** After a completed submission no account's next window starts earlier than the one it was fetched with. */
  lemma WindowNeverMovesBack(m: Machine, s: Store, t: Try, scan: seq<string>, now: int, account: string)
    requires Inv(m, s) && Timely(s) && s.clock <= t.now && Completes(m, s, t) && t.now <= now
    ensures FetchWindow(s.cached.value.ctx, account)
         <= FetchWindow(ContextOf(m, Step(m, s, Submission(t)), scan, now), account)
  {
    var job := s.cached.value;
    AttemptFitsJob(m, s, job, t);
    hide SubmissionOf, FetchWindow, InWindow, SettledBy, StoresAtHome, AcceptedOf, FromSource, NoneLeftPending;
    WindowAdvances(job.ctx, ContextOf(m, Step(m, s, Submission(t)), scan, now), account);
  }

  // --- fetching the same data again -----------------------------------------------------------------

  lemma BackfillReadsOnly(w: World, cfg: Settings, budget: string, creates: seq<Create>, importIds: seq<string>)
    ensures Backfill(w, cfg, budget, creates, importIds).ledger == w.ledger
    decreases |importIds|
  {
    if importIds != [] && w.status == Running {
      var found := FindCreate(creates, importIds[0]);
      if found.Some? { RecoverReadsOnly(w, cfg, budget, found.value); }
      hide Recover, FindCreate;
      BackfillReadsOnly(BackfillOne(w, cfg, budget, creates, importIds[0]), cfg, budget, creates, importIds[1..]);
    }
  }

  lemma RecoverReadsOnly(w: World, cfg: Settings, budget: string, p: Create)
    ensures Recover(w, cfg, budget, p).ledger == w.ledger
  {
    hide LookUp, LookUpGone, RecoveredFacts, DeletedFacts, Upsert;
  }

  /** Creates that are all imported already change nothing, however the calls go. */
  lemma QuietBatch(w: World, cfg: Settings, h: Home, batch: Batch<Create>)
    requires BatchAtHome(h, batch) && forall p :: p in batch.items ==> Imported(h, w.ledger, p.trackingKey)
    ensures SubmitCreates(w, cfg, batch).ledger == w.ledger
  {
    var ps := Payloads(batch.items);
    forall p | p in ps ensures Burned(w.ledger, batch.budget, p.importId) {
      var i :| 0 <= i < |ps| && ps[i] == p;
      assert CreateAtHome(h, batch.budget, batch.items[i]) && Imported(h, w.ledger, batch.items[i].trackingKey);
    }
    ResubmittedBatch(w.ledger, cfg.native, batch.budget, ps);
    hide CreateAll, Backfill, Burned, Payloads, BatchAtHome, SubmittedIds;
    var (posted, response) := PostCreates(w, cfg, batch.budget, ps);
    assert posted.ledger == w.ledger && response.rows == [];
    BackfillReadsOnly(CountDuplicates(posted, |response.duplicates|), cfg, batch.budget, batch.items, response.duplicates);
  }

  lemma {:induction false} QuietCreates(w: World, cfg: Settings, h: Home, batches: seq<Batch<Create>>)
    requires forall b :: b in batches ==> BatchAtHome(h, b)
    requires forall b, p :: b in batches && p in b.items ==> Imported(h, w.ledger, p.trackingKey)
    ensures CreatesPhase(w, cfg, batches).ledger == w.ledger
    decreases |batches|
  {
    hide BatchAtHome, SubmitCreates, Imported;
    if batches != [] && w.status == Running {
      QuietBatch(w, cfg, h, batches[0]);
      QuietCreates(SubmitCreates(w, cfg, batches[0]), cfg, h, batches[1..]);
    }
  }

  lemma {:induction false} QuietCorrections(w: World, cfg: Settings, cycle: Cycle, budgets: seq<string>)
    requires forall b :: CorrectionsOf(cycle, b) == []
    ensures CorrectionsPhaseFully(w, cfg, cycle, budgets).ledger == w.ledger
    decreases |budgets|
  {
    if budgets != [] && w.status == Running {
      assert CorrectionsOf(cycle, budgets[0]) == [];
      hide CorrectionsOf;
      assert CorrectBudgetFully(w, cfg, cycle, budgets[0]).ledger == w.ledger;
      hide CorrectBudgetFully;
      QuietCorrections(CorrectBudgetFully(w, cfg, cycle, budgets[0]), cfg, cycle, budgets[1..]);
    }
  }

  /** An attempt that finds every target it corrects. */
  ghost predicate MissesNothing(m: Machine, s: Store, t: Try) {
    s.cached.Some? && var job := s.cached.value;
    Submit(Attempt(s.table, s.ledger, t.script, t.now), m.cfg, CycleOf(job.ctx, job.feed), t.budgets).status
    != NeedsRecovery
  }

  /** An attempt in which no recovery of a missing target meets a burned import_id. */
  ghost predicate RecoversAfresh(m: Machine, s: Store, t: Try) {
    s.cached.Some?
    && var cycle := CycleOf(s.cached.value.ctx, s.cached.value.feed);
       FreshPhase(CreatesPhase(Attempt(s.table, s.ledger, t.script, t.now), m.cfg, cycle.creates), m.cfg, cycle, t.budgets)
  }

  lemma NothingMissedIsFresh(m: Machine, s: Store, t: Try)
    requires MissesNothing(m, s, t) && Inv(m, s)
    ensures RecoversAfresh(m, s, t)
  {
    var job := s.cached.value;
    var cycle := CycleOf(job.ctx, job.feed);
    JobAtHome(m, job);
    hide CycleOf, CreatesPhase, CorrectionsPhase, FreshPhase;
    SubmitWithoutMatches(Attempt(s.table, s.ledger, t.script, t.now), m.cfg, cycle, t.budgets);
    NothingMissed(CreatesPhase(Attempt(s.table, s.ledger, t.script, t.now), m.cfg, cycle.creates), m.cfg, cycle, t.budgets);
  }

  /** A submission that settles what it saw, recovers nothing twice, and visits every budget with corrections. */
  ghost predicate Settling(m: Machine, s: Store, t: Try) {
    && Inv(m, s) && Settles(s) && Completes(m, s, t) && RecoversAfresh(m, s, t) && NoneLeftPending(s.cached.value)
    && VisitsCorrected(CycleOf(s.cached.value.ctx, s.cached.value.feed), t.budgets)
  }

  /** Whatever the attempt corrected is no longer PENDING. */
  lemma UpdateSettles(m: Machine, s: Store, t: Try, c: Correction)
    requires Inv(m, s) && Completes(m, s, t) && RecoversAfresh(m, s, t)
    requires var cycle := CycleOf(s.cached.value.ctx, s.cached.value.feed);
             VisitsCorrected(cycle, t.budgets) && c in Lookup(cycle.updates, c.budget)
    ensures AllRows(SubmissionOf(m, s, s.cached.value, t).table, NotPendingAt(c.oldKey))
  {
    var job, w0 := s.cached.value, Attempt(s.table, s.ledger, t.script, t.now);
    var cycle := CycleOf(job.ctx, job.feed);
    var w1 := CreatesPhase(w0, m.cfg, cycle.creates);
    JobAtHome(m, job);
    OnlyUpdates(m.home, cycle);
    CreatesStayHome(w0, m.cfg, m.home, cycle.creates);
    HomeAgrees(m.cfg, m.home, w1.ledger, w1.table);
    assert c.budget in t.budgets && cycle.matches == [];
    hide CycleOf, CreatesPhase, CorrectionsPhaseFully, StoresAtHome, CycleAtHome, FreshPhase, CorrectionsOf, AllRows, AllAgree;
    assert SubmissionOf(m, s, job, t) == CorrectionsPhaseFully(w1, m.cfg, cycle, t.budgets);
    CorrectionsSettle(w1, m.cfg, cycle, t.budgets, c.budget, c);
  }

  /** A tracked transaction that was seen booked is no longer PENDING after a completed attempt. */
  lemma SeenBookedIsSettled(m: Machine, s: Store, t: Try, key: string)
    requires Settling(m, s, t)
    requires SeenBooked(s.cached.value, key) && key in Step(m, s, Submission(t)).table
    ensures Step(m, s, Submission(t)).table[key].facts.status != Pending
  {
    var job := s.cached.value;
    var cycle := CycleOf(job.ctx, job.feed);
    var w := SubmissionOf(m, s, job, t);
    JobAtHome(m, job);
    AttemptFitsJob(m, s, job, t);
    hide CycleOf, SubmitFully, FetchWindow, InWindow, StoresAtHome, CycleAtHome, SeenBooked, FromSource, IsAccepted;
    hide NoneLeftPending, RecoversAfresh;
    assert SettledBy(job)(key, w.table[key]);
    if WantsUpdate(job, key) {
      var f :| f in job.feed && SettlesOwnRow(job.ctx, f) && f.ntx.trackingKey == key;
      var c := UpdateFor(job.ctx, f);
      assert Corrects(job.ctx, f, c.budget, c);
      assert UpdateFrom(job.ctx, job.feed, c.budget, c);
      UpdateSettles(m, s, t, c);
      RowHas(w.table, key, NotPendingAt(key));
    }
  }

  /** Fetching the same data again after a success finds nothing to correct and only what is imported. */
  lemma RefetchFindsNothing(m: Machine, s: Store, t: Try, again: Job)
    requires Settling(m, s, t) && Timely(s) && s.clock <= t.now
    requires var s1 := Step(m, s, Submission(t)); again.ctx == ContextOf(m, s1, again.ctx.scan, again.ctx.now)
    requires t.now <= again.ctx.now && forall f :: f in again.feed ==> f in s.cached.value.feed
    ensures forall f :: f in again.feed && IsAccepted(again.ctx, f) ==>
        Imported(m.home, Step(m, s, Submission(t)).ledger, f.ntx.trackingKey) && !SettlesOwnRow(again.ctx, f)
  {
    var job := s.cached.value;
    forall f | f in again.feed && IsAccepted(again.ctx, f)
      ensures Imported(m.home, Step(m, s, Submission(t)).ledger, f.ntx.trackingKey) && !SettlesOwnRow(again.ctx, f)
    {
      WindowNeverMovesBack(m, s, t, again.ctx.scan, again.ctx.now, f.ntx.accountKey);
      DateOfMonotone(FetchWindow(job.ctx, f.ntx.accountKey), FetchWindow(again.ctx, f.ntx.accountKey));
      assert IsAccepted(job.ctx, f);
      SuccessImportsWindow(m, s, t, f);
      if SettlesOwnRow(again.ctx, f) {
        assert SeenBooked(job, f.ntx.trackingKey);
        SeenBookedIsSettled(m, s, t, f.ntx.trackingKey);
      }
    }
  }

  /**
   * Repeating the cycle on unchanged bank data leaves YNAB unchanged, even if the repeat breaks off, provided that
   * nothing new was reported booked but last of all pending, no recovery of the success met a burned import_id, and
   * nothing is matched by its looks this time.
   */
  lemma RepeatLeavesYnabAlone(m: Machine, s: Store, t: Try, feed: Feed, scan: seq<string>, synced: set<string>, now: int,
                              t': Try)
    requires Settling(m, s, t) && Timely(s) && s.clock <= t.now
    requires t.now <= now && forall f :: f in feed ==> f in s.cached.value.feed
    requires ExactCycle(ContextOf(m, Step(m, s, Submission(t)), scan, now), feed)
    ensures Run(m, s, [Submission(t), Fetch(feed, scan, synced, now), Submission(t')]).ledger
         == Run(m, s, [Submission(t)]).ledger
  {
    var s1 := Step(m, s, Submission(t));
    var again := Job(ContextOf(m, s1, scan, now), feed, synced);
    var e1, e2, e3 := Submission(t), Fetch(feed, scan, synced, now), Submission(t');
    RefetchFindsNothing(m, s, t, again);
    SubmissionKeepsInv(m, s, t);
    FetchKeepsInv(m, s1, feed, scan, synced, now);
    JobAtHome(m, again);
    QuietJob(m, Attempt(s1.table, s1.ledger, t'.script, t'.now), again, t'.budgets);
    assert s1.cached.None?;
    SubmissionStep(m, Step(m, s1, e2), t');
    assert Step(m, Step(m, s1, e2), e3).ledger == s1.ledger;
    hide *;
    TwoSteps(m, s, e1, e2, [e3]);
    OneStep(m, s, e1);
    OneStep(m, Step(m, s1, e2), e3);
    assert [e1, e2] + [e3] == [e1, e2, e3];
  }

  lemma OneStep(m: Machine, s: Store, e: Event)
    ensures Run(m, s, [e]) == Step(m, s, e)
  {
    hide Step;
    assert [e][1..] == [];
  }

  lemma QuietJob(m: Machine, w: World, job: Job, budgets: seq<string>)
    requires CycleAtHome(m.home, CycleOf(job.ctx, job.feed))
    requires FiledExactly(job.ctx, CycleOf(job.ctx, job.feed), job.feed)
    requires forall f :: f in job.feed && IsAccepted(job.ctx, f) ==>
        Imported(m.home, w.ledger, f.ntx.trackingKey) && !SettlesOwnRow(job.ctx, f)
    ensures SubmitFully(w, m.cfg, CycleOf(job.ctx, job.feed), budgets).ledger == w.ledger
  {
    var cycle := CycleOf(job.ctx, job.feed);
    hide CycleOf, Accepted, Imported;
    forall b, p | b in cycle.creates && p in b.items ensures Imported(m.home, w.ledger, p.trackingKey) {
      var f := CreateComesFrom(job, cycle, b, p);
    }
    forall b ensures CorrectionsOf(cycle, b) == [] {
      var cs := Lookup(cycle.updates, b);
      assert cs != [] ==> UpdateFrom(job.ctx, job.feed, b, cs[0]);
    }
    QuietCreates(w, m.cfg, m.home, cycle.creates);
    hide FiledExactly, CycleAtHome, CorrectionsOf, CreatesPhase, CorrectionsPhaseFully;
    QuietCorrections(CreatesPhase(w, m.cfg, cycle.creates), m.cfg, cycle, budgets);
  }
}
