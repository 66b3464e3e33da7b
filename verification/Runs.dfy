/**
 * Whole runs of the service in which no report is settled or matched by its
 * looks: fetches, attempts that complete, recover missing targets or break off
 * anywhere, restarts, give-ups, loss of the local database, pruning, and
 * whatever the user does in YNAB in between.
 */
module Runs {
  import opened Wrappers
  import opened Ynab
  import opened StateDb
  import opened SyncSpec
  import opened Creation
  import opened Classification
  import opened Filing
  import opened RowFacts
  import opened Recovery
  import opened AttemptEffects
  import opened DateWindow
  import Sequences

  datatype Machine = Machine(cfg: Settings, rules: Rules, mappings: map<AccountId, Mapping>, home: Home)

  /** A classified cycle waiting to be submitted: what it was classified from, and the accounts it covers. */
  datatype Job = Job(ctx: Context, feed: Feed, synced: set<string>)

  /** `delivered` are the accepted transactions of every cycle that succeeded. */
  datatype Store = Store(table: Table, cursors: map<string, int>, ledger: Ledger, clock: int, cached: Option<Job>,
                         delivered: seq<Fetched>)

  datatype Event =
    | Fetch(feed: Feed, scan: seq<string>, synced: set<string>, now: int)
    | Submission(attempt: Try)
    | Forget
    | LoseDatabase
    | PruneBooked(cutoff: int)
    | UserEdits(ledger: Ledger)

  function ContextOf(m: Machine, s: Store, scan: seq<string>, now: int): Context {
    Context(m.rules, s.table, scan, s.cursors, s.ledger, m.mappings, now)
  }

  function AcceptedOf(job: Job): seq<Fetched> {
    Sequences.Filter(job.feed, (f: Fetched) => IsAccepted(job.ctx, f))
  }

  function Stamp(accounts: set<string>, now: int): map<string, int> { map a | a in accounts :: now }

  function SubmissionOf(m: Machine, s: Store, job: Job, t: Try): World {
    SubmitFully(Attempt(s.table, s.ledger, t.script, t.now), m.cfg, CycleOf(job.ctx, job.feed), t.budgets)
  }

  function AfterSubmission(m: Machine, s: Store, t: Try): Store {
    if s.cached.None? then s
    else
      var job := s.cached.value;
      var w := SubmissionOf(m, s, job, t);
      var s1 := s.(table := w.table, ledger := w.ledger, clock := t.now);
      if w.status != Running then s1
      else s1.(cached := None, cursors := s.cursors + Stamp(job.synced, t.now), delivered := s.delivered + AcceptedOf(job))
  }

  function Step(m: Machine, s: Store, e: Event): Store {
    match e
    case Fetch(feed, scan, synced, now) =>
      if s.cached.Some? then s
      else s.(clock := now, cached := Some(Job(ContextOf(m, s, scan, now), feed, synced)))
    case Submission(t) => AfterSubmission(m, s, t)
    case Forget => s.(cached := None)
    case LoseDatabase => s.(table := map[], cursors := map[], cached := None)
    case PruneBooked(cutoff) => s.(table := Prune(s.table, cutoff))
    case UserEdits(ledger) => s.(ledger := ledger)
  }

  /** What a submission leaves of the store but for what it delivers. */
  lemma SubmissionStep(m: Machine, s: Store, t: Try)
    requires s.cached.Some?
    ensures var job := s.cached.value;
            var w := SubmissionOf(m, s, job, t);
            var s' := AfterSubmission(m, s, t);
            && s'.table == w.table && s'.ledger == w.ledger && s'.clock == t.now
            && s'.cached == (if w.status == Running then None else s.cached)
            && s'.cursors == if w.status == Running then s.cursors + Stamp(job.synced, t.now) else s.cursors
  {
    hide SubmissionOf, AcceptedOf, Stamp;
  }

  /** A fetch with nothing cached, and a submission of what it brought that meets no missing target. */
  lemma CycleSteps(m: Machine, s: Store, feed: Feed, scan: seq<string>, synced: set<string>, now: int, t: Try,
                   cycle: Cycle)
    requires s.cached.None? && CycleOf(ContextOf(m, s, scan, now), feed) == cycle
    requires Submit(Attempt(s.table, s.ledger, t.script, t.now), m.cfg, cycle, t.budgets).status != NeedsRecovery
    ensures var w := Submit(Attempt(s.table, s.ledger, t.script, t.now), m.cfg, cycle, t.budgets);
            var s' := Step(m, Step(m, s, Fetch(feed, scan, synced, now)), Submission(t));
            && s'.table == w.table && s'.ledger == w.ledger && s'.clock == t.now
            && (s'.cached.None? <==> w.status == Running)
            && s'.cursors == if w.status == Running then s.cursors + Stamp(synced, t.now) else s.cursors
  {
    var s1 := Step(m, s, Fetch(feed, scan, synced, now));
    SubmissionStep(m, s1, t);
    hide CycleOf, Submit, SubmitFully, AfterSubmission, ContextOf, Stamp;
    SubmitIsSubmitFully(Attempt(s.table, s.ledger, t.script, t.now), m.cfg, cycle, t.budgets);
  }

  lemma TwoSteps(m: Machine, s: Store, e1: Event, e2: Event, events: seq<Event>)
    ensures Run(m, s, [e1, e2] + events) == Run(m, Step(m, Step(m, s, e1), e2), events)
    ensures Run(m, s, [e1, e2]) == Step(m, Step(m, s, e1), e2)
  {
    hide Step;
    var s1 := Step(m, s, e1);
    assert ([e1, e2] + events)[1..] == [e2] + events && ([e2] + events)[1..] == events;
    assert Run(m, s, [e1, e2] + events) == Run(m, s1, [e2] + events);
    assert [e1, e2][1..] == [e2] && [e2][1..] == [];
    assert Run(m, s, [e1, e2]) == Run(m, s1, [e2]) == Run(m, Step(m, s1, e2), []);
  }

  function Run(m: Machine, s: Store, events: seq<Event>): Store
    decreases |events|
  {
    if events == [] then s else Run(m, Step(m, s, events[0]), events[1..])
  }

  // --- what the environment promises ------------------------------------------------------------

  /** A source names a transaction by its key alone, and a mapping keeps an account in its budget. */
  ghost predicate FromSource(m: Machine, f: Fetched) {
    && f.ntx.importId == m.home.idOf(f.ntx.trackingKey)
    && ((f.provider, f.ntx.accountKey) in m.mappings ==>
          m.mappings[(f.provider, f.ntx.accountKey)].budget == m.home.budgetOf(f.ntx.importId))
  }

  /** The user may edit, delete and add transactions, but cannot touch or make an import_id. */
  ghost predicate KeepsIds(l: Ledger, l': Ledger) {
    && |l| <= |l'|
    && (forall i :: 0 <= i < |l| ==> l'[i].budget == l[i].budget && l'[i].importId == l[i].importId)
    && (forall i :: |l| <= i < |l'| ==> l'[i].importId.None?)
  }

  /** Every report comes from the source, and exact keys alone decide what becomes of it. */
  ghost predicate FeedFits(m: Machine, s: Store, feed: Feed, scan: seq<string>, now: int) {
    (forall f :: f in feed ==> FromSource(m, f)) && ExactCycle(ContextOf(m, s, scan, now), feed)
  }

  ghost predicate Possible(m: Machine, s: Store, e: Event) {
    match e
    case Fetch(feed, scan, _, now) => FeedFits(m, s, feed, scan, now)
    case UserEdits(l) => KeepsIds(s.ledger, l)
    case _ => true
  }

  ghost predicate PossibleRun(m: Machine, s: Store, events: seq<Event>)
    decreases |events|
  {
    events != [] ==> Possible(m, s, events[0]) && PossibleRun(m, Step(m, s, events[0]), events[1..])
  }

  // --- the invariant ------------------------------------------------------------------------------

  /** Every accepted transaction that was tracked when it was fetched is imported. */
  ghost predicate TrackedImported(h: Home, l: Ledger, job: Job) {
    forall f :: f in job.feed && IsAccepted(job.ctx, f) && f.ntx.trackingKey in job.ctx.table ==>
      Imported(h, l, f.ntx.trackingKey)
  }

  /** Their rows were in the budgets of their keys. */
  ghost predicate TrackedInBudget(h: Home, job: Job) {
    forall f :: f in job.feed && IsAccepted(job.ctx, f) && f.ntx.trackingKey in job.ctx.table ==>
      job.ctx.table[f.ntx.trackingKey].facts.budget == h.budgetOf(h.idOf(f.ntx.trackingKey))
  }

  /** The cached job, against the present ledger. */
  ghost predicate JobFits(m: Machine, l: Ledger, job: Job) {
    && job.ctx.rules == m.rules && job.ctx.mappings == m.mappings
    && (forall f :: f in job.feed ==> FromSource(m, f)) && ExactCycle(job.ctx, job.feed)
    && TrackedImported(m.home, l, job) && TrackedInBudget(m.home, job)
  }

  ghost predicate DeliveredImported(h: Home, l: Ledger, delivered: seq<Fetched>) {
    forall f :: f in delivered ==> Imported(h, l, f.ntx.trackingKey)
  }

  ghost predicate Inv(m: Machine, s: Store) {
    && StoresAtHome(m.cfg, m.home, s.ledger, s.table)
    && DeliveredImported(m.home, s.ledger, s.delivered)
    && (s.cached.Some? ==> JobFits(m, s.ledger, s.cached.value))
  }

  /** A fresh installation, on any ledger whose import_ids are where this source puts them. */
  lemma FreshStoreFits(m: Machine, l: Ledger, clock: int)
    requires UniqueIds(l) && ImportsAtHome(m.cfg, m.home, l)
    ensures Inv(m, Store(map[], map[], l, clock, None, []))
  {
  }

  // --- each event keeps it ------------------------------------------------------------------------

  lemma JobAtHome(m: Machine, job: Job)
    requires ExactCycle(job.ctx, job.feed) && job.ctx.mappings == m.mappings
    requires TrackedInBudget(m.home, job) && forall f :: f in job.feed ==> FromSource(m, f)
    ensures CycleAtHome(m.home, CycleOf(job.ctx, job.feed))
    ensures FiledExactly(job.ctx, CycleOf(job.ctx, job.feed), job.feed)
  {
    CycleFilesExactly(job.ctx, job.feed);
    var cycle := CycleOf(job.ctx, job.feed);
    hide CycleOf, Accepted;
    forall b, p | b in cycle.creates && p in b.items ensures CreateAtHome(m.home, b.budget, p) {
      var i :| 0 <= i < |cycle.creates| && cycle.creates[i] == b;
      assert InBatches(cycle.creates, b.budget, p);
      var f :| f in job.feed && Makes(job.ctx, f, b.budget, p);
    }
    forall b, c | c in Lookup(cycle.updates, b) ensures UpdateAtHome(m.home, b, c) {
      assert UpdateFrom(job.ctx, job.feed, b, c);
    }
  }

  lemma CreateComesFrom(job: Job, cycle: Cycle, b: Batch<Create>, p: Create) returns (f: Fetched)
    requires FiledExactly(job.ctx, cycle, job.feed) && b in cycle.creates && p in b.items
    ensures f in job.feed && Makes(job.ctx, f, b.budget, p)
  {
    var i :| 0 <= i < |cycle.creates| && cycle.creates[i] == b;
    assert InBatches(cycle.creates, b.budget, p);
    f :| f in job.feed && Makes(job.ctx, f, b.budget, p);
  }

  lemma FetchKeepsInv(m: Machine, s: Store, feed: Feed, scan: seq<string>, synced: set<string>, now: int)
    requires Inv(m, s) && s.cached.None? && FeedFits(m, s, feed, scan, now)
    ensures Inv(m, Step(m, s, Fetch(feed, scan, synced, now)))
  {
    var ctx := ContextOf(m, s, scan, now);
    hide FetchWindow, UniqueIds, ImportsAtHome, Imported, DeliveredImported, ExactCycle;
    forall f | f in feed && IsAccepted(ctx, f) && f.ntx.trackingKey in ctx.table
      ensures Imported(m.home, s.ledger, f.ntx.trackingKey)
      ensures s.table[f.ntx.trackingKey].facts.budget == m.home.budgetOf(m.home.idOf(f.ntx.trackingKey))
    {
      assert RowAtHome(m.cfg, m.home, s.ledger)(f.ntx.trackingKey, s.table[f.ntx.trackingKey]);
    }
  }

  /** A completed attempt has imported every accepted transaction. */
  lemma CompletedImportsAll(m: Machine, l: Ledger, job: Job, f: Fetched)
    requires FiledExactly(job.ctx, CycleOf(job.ctx, job.feed), job.feed)
    requires CreatesImported(m.home, l, CycleOf(job.ctx, job.feed)) && TrackedImported(m.home, l, job)
    requires f in job.feed && IsAccepted(job.ctx, f)
    ensures Imported(m.home, l, f.ntx.trackingKey)
  {
    hide CycleOf, Imported, Accepted;
    var cycle := CycleOf(job.ctx, job.feed);
    if f.ntx.trackingKey !in job.ctx.table {
      var b, p := MappingOf(job.ctx, f).budget, CreateFor(job.ctx, f);
      assert Makes(job.ctx, f, b, p);
      assert CreateFrom(job.ctx, job.feed, b, p);
      assert InBatches(cycle.creates, b, p);
    }
  }

  lemma AcceptedMembers(job: Job)
    ensures forall f :: f in AcceptedOf(job) <==> f in job.feed && IsAccepted(job.ctx, f)
  {
    Sequences.FilterMembers(job.feed, (f: Fetched) => IsAccepted(job.ctx, f));
  }

  lemma DeliveredForever(h: Home, l: Ledger, l': Ledger, delivered: seq<Fetched>)
    requires Extends(l, l') && DeliveredImported(h, l, delivered)
    ensures DeliveredImported(h, l', delivered)
  {
    forall f | f in delivered ensures Imported(h, l', f.ntx.trackingKey) {
      ImportedForever(h, l, l', f.ntx.trackingKey);
    }
  }

  lemma TrackedForever(h: Home, l: Ledger, l': Ledger, job: Job)
    requires Extends(l, l') && TrackedImported(h, l, job)
    ensures TrackedImported(h, l', job)
  {
    forall f | f in job.feed && IsAccepted(job.ctx, f) && f.ntx.trackingKey in job.ctx.table
      ensures Imported(h, l', f.ntx.trackingKey)
    {
      ImportedForever(h, l, l', f.ntx.trackingKey);
    }
  }

  lemma SubmissionKeepsInv(m: Machine, s: Store, t: Try)
    requires Inv(m, s) && s.cached.Some?
    ensures Inv(m, AfterSubmission(m, s, t))
  {
    var job := s.cached.value;
    var cycle := CycleOf(job.ctx, job.feed);
    var w := SubmissionOf(m, s, job, t);
    JobAtHome(m, job);
    SubmitStaysHome(Attempt(s.table, s.ledger, t.script, t.now), m.cfg, m.home, cycle, t.budgets);
    DeliveredForever(m.home, s.ledger, w.ledger, s.delivered);
    TrackedForever(m.home, s.ledger, w.ledger, job);
    AcceptedMembers(job);
    hide CycleOf, FiledExactly, SubmitFully, StoresAtHome, Extends, AcceptedOf, TrackedImported, Imported, FromSource;
    hide CreatesImported, IsAccepted, CycleAtHome, SubmissionOf, TrackedInBudget, ExactCycle;
    if w.status == Running {
      forall f | f in AcceptedOf(job) ensures Imported(m.home, w.ledger, f.ntx.trackingKey) {
        CompletedImportsAll(m, w.ledger, job, f);
      }
    }
  }

  lemma EditKeepsInv(m: Machine, s: Store, l: Ledger)
    requires Inv(m, s) && KeepsIds(s.ledger, l)
    ensures Inv(m, Step(m, s, UserEdits(l)))
  {
    EditKeepsIds(m.cfg, m.home, s.ledger, l);
    EditKeepsRows(m.cfg, m.home, s.ledger, l, s.table);
    hide UniqueIds, ImportsAtHome, FromSource, IsAccepted, AllRows, KeepsIds, Imported;
    forall key | Imported(m.home, s.ledger, key) ensures Imported(m.home, l, key) {
      EditKeepsImported(m.home, s.ledger, l, key);
    }
  }

  lemma EditKeepsImported(h: Home, l: Ledger, l': Ledger, key: string)
    requires KeepsIds(l, l') && Imported(h, l, key)
    ensures Imported(h, l', key)
  {
    EditKeepsBurned(l, l', h.budgetOf(h.idOf(key)), h.idOf(key));
  }

  lemma EditKeepsRows(cfg: Settings, h: Home, l: Ledger, l': Ledger, t: Table)
    requires KeepsIds(l, l') && AllRows(t, RowAtHome(cfg, h, l))
    ensures AllRows(t, RowAtHome(cfg, h, l'))
  {
    hide AtHome, KeepsIds, AmountsAgree;
    forall k | k in t ensures AmountsAgree(t[k]) && RowAtHome(cfg, h, l')(k, t[k]) {
      assert RowAtHome(cfg, h, l)(k, t[k]);
      EditKeepsRow(cfg, h, l, l', k, t[k]);
    }
  }

  lemma EditKeepsRow(cfg: Settings, h: Home, l: Ledger, l': Ledger, k: string, r: Row)
    requires KeepsIds(l, l') && AtHome(cfg, h, l, k, r)
    ensures AtHome(cfg, h, l', k, r)
  {
    hide NamedFor, KeepsIds;
    EditKeepsImported(h, l, l', k);
    EditKeepsBurned(l, l', r.facts.budget, r.facts.importId);
  }

  lemma EditKeepsBurned(l: Ledger, l': Ledger, budget: string, id: string)
    requires KeepsIds(l, l') && Burned(l, budget, id)
    ensures Burned(l', budget, id)
  {
    var i :| 0 <= i < |l| && Holds(l[i], budget, id);
    assert Holds(l'[i], budget, id);
  }

  lemma EditKeepsIds(cfg: Settings, h: Home, l: Ledger, l': Ledger)
    requires KeepsIds(l, l') && UniqueIds(l) && ImportsAtHome(cfg, h, l)
    ensures UniqueIds(l') && ImportsAtHome(cfg, h, l')
  {
    forall i, j, id | 0 <= i < |l'| && 0 <= j < |l'| && Holds(l'[i], l'[j].budget, id) && l'[j].importId == Some(id)
      ensures i == j
    {
      assert Holds(l[i], l[j].budget, id);
    }
    hide OwnBudget;
    forall i, key | 0 <= i < |l'| && l'[i].importId == Some(h.idOf(key)) && OwnBudget(cfg, h, key)
      ensures l'[i].budget == h.budgetOf(h.idOf(key))
    {
      assert l'[i].importId == l[i].importId;
    }
  }

  lemma SubsetKeepsInv(m: Machine, s: Store, t: Table)
    requires Inv(m, s) && forall k :: k in t ==> k in s.table && t[k] == s.table[k]
    ensures Inv(m, s.(table := t))
  {
    hide RowAtHome, UniqueIds, ImportsAtHome, FromSource, IsAccepted, Imported;
  }

  lemma StepKeepsInv(m: Machine, s: Store, e: Event)
    requires Inv(m, s) && Possible(m, s, e)
    ensures Inv(m, Step(m, s, e))
  {
    match e
    case Fetch(feed, scan, synced, now) =>
      if s.cached.None? { FetchKeepsInv(m, s, feed, scan, synced, now); }
    case Submission(t) =>
      if s.cached.Some? { SubmissionKeepsInv(m, s, t); }
    case UserEdits(l) => EditKeepsInv(m, s, l);
    case PruneBooked(cutoff) => SubsetKeepsInv(m, s, Prune(s.table, cutoff));
    case LoseDatabase =>
      hide StoresAtHome, JobFits;
      LosingKeepsInv(m, s);
    case Forget =>
  }

  lemma LosingKeepsInv(m: Machine, s: Store)
    requires Inv(m, s)
    ensures Inv(m, s.(table := map[], cursors := map[], cached := None))
  {
  }

  lemma {:induction false} RunKeepsInv(m: Machine, s: Store, events: seq<Event>)
    requires Inv(m, s) && PossibleRun(m, s, events)
    ensures Inv(m, Run(m, s, events))
    decreases |events|
  {
    hide Inv, Step, Possible;
    if events != [] {
      StepKeepsInv(m, s, events[0]);
      RunKeepsInv(m, Step(m, s, events[0]), events[1..]);
    }
  }

  // --- exactly once, and no loss --------------------------------------------------------------------

  /**
   * However the run went, a tracking key has at most one transaction in YNAB under its own import_id, deleted ones
   * included, unless a recovery in another budget took that import_id.
   */
  lemma ExactlyOnce(m: Machine, s: Store, events: seq<Event>, key: string, i: nat, j: nat)
    requires Inv(m, s) && PossibleRun(m, s, events)
    requires var l := Run(m, s, events).ledger;
             && i < |l| && j < |l| && l[i].importId == Some(m.home.idOf(key)) && l[j].importId == Some(m.home.idOf(key))
             && (OwnBudget(m.cfg, m.home, key) || l[i].budget == l[j].budget)
    ensures i == j
  {
    RunKeepsInv(m, s, events);
    hide Run, JobFits, DeliveredImported, AllRows, OwnBudget;
    var l := Run(m, s, events).ledger;
    assert l[i].budget == l[j].budget;
    assert Holds(l[i], l[j].budget, m.home.idOf(key));
  }

  /**
   * Whatever a successful cycle accepted is in YNAB for good, and so is whatever is tracked: under the import_id of
   * its key, and under the one of its row, which is the same or made by a recovery of that row.
   */
  lemma NothingLost(m: Machine, s: Store, events: seq<Event>)
    requires Inv(m, s) && PossibleRun(m, s, events)
    ensures var s' := Run(m, s, events);
            && (forall f :: f in s'.delivered ==> Imported(m.home, s'.ledger, f.ntx.trackingKey))
            && forall k :: k in s'.table ==>
                 && Imported(m.home, s'.ledger, k) && NamedFor(m.cfg, m.home, k, s'.table[k].facts.importId)
                 && Burned(s'.ledger, s'.table[k].facts.budget, s'.table[k].facts.importId)
  {
    RunKeepsInv(m, s, events);
    hide Run, JobFits, UniqueIds, ImportsAtHome, Imported, NamedFor, Burned;
    var s' := Run(m, s, events);
    forall k | k in s'.table ensures RowAtHome(m.cfg, m.home, s'.ledger)(k, s'.table[k]) {
    }
  }

  predicate Completes(m: Machine, s: Store, t: Try) {
    s.cached.Some? && SubmissionOf(m, s, s.cached.value, t).status == Running
  }

  /** When a cycle succeeds, every in-window transaction it fetched is in YNAB. */
  lemma SuccessImportsWindow(m: Machine, s: Store, t: Try, f: Fetched)
    requires Inv(m, s) && Completes(m, s, t)
    requires f in s.cached.value.feed && IsAccepted(s.cached.value.ctx, f)
    ensures Imported(m.home, Step(m, s, Submission(t)).ledger, f.ntx.trackingKey)
  {
    SubmissionKeepsInv(m, s, t);
    AcceptedMembers(s.cached.value);
    hide SubmissionOf, StoresAtHome, Imported, IsAccepted, JobFits, AcceptedOf;
    var s1 := AfterSubmission(m, s, t);
    assert f in s1.delivered;
  }
}
