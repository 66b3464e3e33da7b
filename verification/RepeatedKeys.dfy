/**
 * Feeds that report one tracking key more than once: which of the reports the
 * row follows, and when the same feed, fetched again, corrects it once more.
 */
module RepeatedKeys {
  import opened Wrappers
  import opened Ynab
  import opened StateDb
  import opened SyncSpec
  import opened Classification
  import opened Filing
  import opened RowFacts
  import opened Recovery
  import opened RecoveryFacts
  import opened AttemptEffects
  import opened Creation
  import opened DateWindow
  import opened Runs
  import opened Repeats
  import opened RepeatedRecovery
  import PendingMatch

  // --- the row follows the last report ----------------------------------------------------------------

  /** The last report of this key, among those that make it a create. */
  function LastReport(h: Home, job: Job, key: string): Option<Fetched> {
    LastNew(job.ctx, job.feed, h.budgetOf(h.idOf(key)), h.idOf(key))
  }

  /** A row that was there neither at the fetch nor at the submission has the status of the last report. */
  ghost function FollowsLast(h: Home, job: Job, before: Table): RowProperty {
    (k: string, r: Row) =>
      k !in job.ctx.table && k !in before && r.facts.status != Deleted ==>
        var g := LastReport(h, job, k);
        g.Some? && g.value.ntx.trackingKey == k && r.facts.status == StatusOf(g.value.ntx)
  }

  lemma LastReportFits(m: Machine, job: Job, before: Table, b: Batch<Create>, id: string, now: int)
    requires ExactCycle(job.ctx, job.feed) && b in CycleOf(job.ctx, job.feed).creates && FindCreate(b.items, id).Some?
    requires job.ctx.mappings == m.mappings && forall f :: f in job.feed ==> FromSource(m, f)
    ensures CreateHas(m.cfg, b.budget, FindCreate(b.items, id).value, now, FollowsLast(m.home, job, before))
  {
    var p := FindCreate(b.items, id).value;
    CycleFindsLast(job.ctx, job.feed, b, id);
    var g := LastNew(job.ctx, job.feed, b.budget, id).value;
    assert FromSource(m, g) && p == CreateFor(job.ctx, g);
    assert id == m.home.idOf(p.trackingKey) && b.budget == m.home.budgetOf(id) && p.status == StatusOf(g.ntx);
    assert LastReport(m.home, job, p.trackingKey) == Some(g) && p.secondary.None?;
    hide CycleOf, FindCreate, LastReport, IsAccepted, CreateFacts;
    forall txnId, status, amount, payee | status == p.status || status == Deleted
      ensures RecordingKeeps(now, p.trackingKey, CreateFacts(b.budget, p, txnId, status, amount, payee),
                             FollowsLast(m.home, job, before))
    {
      CreateFactsStatus(b.budget, p, txnId, status, amount, payee);
    }
  }

  lemma UpdatesFollow(m: Machine, job: Job, before: Table)
    requires CycleAtHome(m.home, CycleOf(job.ctx, job.feed))
    requires FiledExactly(job.ctx, CycleOf(job.ctx, job.feed), job.feed)
    ensures CorrectionsKeep(CycleOf(job.ctx, job.feed), FollowsLast(m.home, job, before))
  {
    var cycle := CycleOf(job.ctx, job.feed);
    OnlyUpdates(m.home, cycle);
    hide CycleOf, LastReport, CycleAtHome;
    forall b, c | c in CorrectionsOf(cycle, b) ensures SettlingKeeps(c, FollowsLast(m.home, job, before)) {
      assert UpdateFrom(job.ctx, job.feed, b, c);
    }
  }

  /** A recovered row was tracked at the fetch. */
  lemma RecoveriesFollow(m: Machine, job: Job, before: Table, now: int)
    requires CycleAtHome(m.home, CycleOf(job.ctx, job.feed))
    requires FiledExactly(job.ctx, CycleOf(job.ctx, job.feed), job.feed)
    ensures RecoveriesKeep(CycleOf(job.ctx, job.feed), now, FollowsLast(m.home, job, before))
  {
    var cycle := CycleOf(job.ctx, job.feed);
    OnlyUpdates(m.home, cycle);
    hide CycleOf, LastReport, CycleAtHome, CorrectionsOf;
    forall b, c | c in CorrectionsOf(cycle, b) ensures RecoveryKeeps(c, b, now, FollowsLast(m.home, job, before)) {
      assert UpdateFrom(job.ctx, job.feed, b, c);
    }
  }

  lemma AttemptFollowsLast(m: Machine, s: Store, job: Job, t: Try)
    requires Inv(m, s) && s.cached == Some(job)
    ensures AllRows(SubmissionOf(m, s, job, t).table, FollowsLast(m.home, job, s.table))
  {
    var cycle := CycleOf(job.ctx, job.feed);
    var has := FollowsLast(m.home, job, s.table);
    JobAtHome(m, job);
    UpdatesFollow(m, job, s.table);
    RecoveriesFollow(m, job, s.table, t.now);
    hide CycleOf, CreateHas, CorrectionsKeep, RecoveriesKeep, SubmitFully, FiledExactly, LastReport, FindCreate, StoresAtHome;
    forall b, id | b in cycle.creates && FindCreate(b.items, id).Some?
      ensures CreateHas(m.cfg, b.budget, FindCreate(b.items, id).value, t.now, has)
    {
      LastReportFits(m, job, s.table, b, id, t.now);
    }
    assert AllRows(s.table, has) by { assert AllAgree(s.table) by { RowsAgree(m, s); } }
    hide AllRows, FollowsLast;
    SubmitFullyKeeps(Attempt(s.table, s.ledger, t.script, t.now), m.cfg, cycle, t.budgets, t.now, has);
  }

  lemma RowsAgree(m: Machine, s: Store)
    requires Inv(m, s)
    ensures AllAgree(s.table)
  {
  }

  /**
   * A transaction first seen in this cycle, reported booked, and tracked by a success: the same report, fetched
   * again, is filed as a correction of its row if and only if the last of its reports was a pending one.
   */
  lemma CorrectedAgainIffLeftPending(m: Machine, s: Store, t: Try, f: Fetched, scan: seq<string>, now: int)
    requires Inv(m, s) && Completes(m, s, t)
    requires f in s.cached.value.feed && IsNew(s.cached.value.ctx, f) && f.ntx.booked && f.ntx.trackingKey !in s.table
    requires var s1 := Step(m, s, Submission(t));
             && f.ntx.trackingKey in s1.table && s1.table[f.ntx.trackingKey].facts.status != Deleted
             && IsAccepted(ContextOf(m, s1, scan, now), f)
    ensures SettlesOwnRow(ContextOf(m, Step(m, s, Submission(t)), scan, now), f)
       <==> LeftPending(s.cached.value, m.home.budgetOf(f.ntx.importId), f.ntx.importId)
  {
    var job := s.cached.value;
    var key := f.ntx.trackingKey;
    var w := SubmissionOf(m, s, job, t);
    AttemptFollowsLast(m, s, job, t);
    hide CycleOf, SubmissionOf, FetchWindow, StoresAtHome, AcceptedOf, LastNew;
    assert FollowsLast(m.home, job, s.table)(key, w.table[key]);
    assert FromSource(m, f);
    assert IsAccepted(job.ctx, f);
  }

  // --- a feed that is corrected again -------------------------------------------------------------------

  const CARD := Mapping("checking", "home")

  function Seen(amount: real, booked: bool): Ntx {
    Ntx("acct", "T1", "SB1:T1", 20, amount, "Shop", booked, None, None)
  }

  /** One purchase, reported as a preauthorisation, as a charge, and as the preauthorisation again. */
  const PREAUTH := Fetched("bank", Seen(5.0, false))
  const CHARGE := Fetched("bank", Seen(6.0, true))
  const STUTTER := [PREAUTH, CHARGE, PREAUTH]
  const NOW := 20 * SECONDS_PER_DAY

  function OneCard(cfg: Settings, o: PendingMatch.Options): Machine {
    Machine(cfg, Rules(30, 24, 0, true, o), map[("bank", "acct") := CARD],
            Home((k: string) => "SB1:" + k, (id: string) => "home"))
  }

  function Empty(): Store { Store(map[], map[], [], NOW, None, []) }

  function Purchased(amount: int, cleared: ClearedFlag): Ledger {
    [Txn("home", "checking", 20, amount, "Shop", cleared, Some("SB1:T1"), None, false, false)]
  }

  const HELD := NewCreate("bank", CARD, Seen(5.0, false))
  const CHARGED := NewCreate("bank", CARD, Seen(6.0, true))

  /** The row after the first cycle: pending, though the charge was seen. */
  function Held(): Table { Upsert(map[], "T1", CreateFacts("home", HELD, 0, Pending, 5000, "Shop"), NOW) }

  const FIRST_CYCLE := Cycle([Batch("home", [HELD, CHARGED, HELD])], map[], map[], [])
  const SECOND_CYCLE := Cycle([], map["home" := [Update("T1", 0, 6.0, 20, "home")]], map[], [])

  lemma ThreeFiled(ctx: Context, c1: Cycle, c2: Cycle, c3: Cycle)
    requires Filed(ctx, NOTHING_SORTED.cycle, PREAUTH) == c1
    requires Filed(ctx, c1, CHARGE) == c2 && Filed(ctx, c2, PREAUTH) == c3
    ensures FiledAll(ctx, NOTHING_SORTED.cycle, STUTTER) == c3
  {
    hide Filed;
    assert STUTTER[1..] == [CHARGE, PREAUTH] && [CHARGE, PREAUTH][1..] == [PREAUTH] && [PREAUTH][1..] == [];
    assert FiledAll(ctx, NOTHING_SORTED.cycle, STUTTER) == FiledAll(ctx, c1, [CHARGE, PREAUTH]);
    assert FiledAll(ctx, c1, [CHARGE, PREAUTH]) == FiledAll(ctx, c2, [PREAUTH]);
    assert FiledAll(ctx, c2, [PREAUTH]) == FiledAll(ctx, c3, []);
  }

  /** Nothing is tracked, so nothing could have become this report; and nothing was typed in. */
  lemma NothingElse(cfg: Settings, o: PendingMatch.Options, s: Store)
    requires s.table == map[] && forall t :: t in s.ledger ==> t.importId.Some?
    ensures NoCandidates(ContextOf(OneCard(cfg, o), s, [], NOW), NOTHING_SORTED)
  {
    forall b, a, since ensures ListUnimported(s.ledger, b, a, since) == [] {
      ImportsAreNotListed(s.ledger, b, a, since, 0);
    }
  }

  lemma ReportIsNew(cfg: Settings, o: PendingMatch.Options, s: Store, f: Fetched, creates: seq<Create>)
    requires (f == PREAUTH || f == CHARGE) && s.table == map[] && s.cursors == map[]
    ensures Filed(ContextOf(OneCard(cfg, o), s, [], NOW), Cycle(if creates == [] then [] else [Batch("home", creates)], map[], map[], []), f)
         == Cycle([Batch("home", creates + [NewCreate("bank", CARD, f.ntx)])], map[], map[], [])
  {
    var ctx := ContextOf(OneCard(cfg, o), s, [], NOW);
    assert EarliestPending(ctx.table, "acct").None?;
    assert FetchWindow(ctx, "acct") == -10 * SECONDS_PER_DAY && DateOf(-10 * SECONDS_PER_DAY) == -10;
    assert IsNew(ctx, f);
    var p := NewCreate("bank", CARD, f.ntx);
    assert MappingOf(ctx, f) == CARD && CreateFor(ctx, f) == p;
    hide FetchWindow, Accepted, NewCreate, IsNew;
    OneList(creates, p);
  }

  lemma OneList(creates: seq<Create>, p: Create)
    ensures AddTo(if creates == [] then [] else [Batch("home", creates)], "home", p) == [Batch("home", creates + [p])]
  {
    assert [Batch("home", creates)][1..] == [];
    assert creates == [] ==> creates + [p] == [p];
  }

  lemma FirstJob(cfg: Settings, o: PendingMatch.Options)
    ensures CycleOf(ContextOf(OneCard(cfg, o), Empty(), [], NOW), STUTTER) == FIRST_CYCLE
    ensures ExactCycle(ContextOf(OneCard(cfg, o), Empty(), [], NOW), STUTTER)
  {
    var ctx := ContextOf(OneCard(cfg, o), Empty(), [], NOW);
    var c1 := Filed(ctx, NOTHING_SORTED.cycle, PREAUTH);
    var c2 := Filed(ctx, c1, CHARGE);
    assert [] + [HELD] == [HELD] && [HELD] + [CHARGED] == [HELD, CHARGED];
    assert [HELD, CHARGED] + [HELD] == [HELD, CHARGED, HELD];
    ReportIsNew(cfg, o, Empty(), PREAUTH, []);
    ReportIsNew(cfg, o, Empty(), CHARGE, [HELD]);
    ReportIsNew(cfg, o, Empty(), PREAUTH, [HELD, CHARGED]);
    hide Filed, NewCreate, ContextOf;
    ThreeFiled(ctx, c1, c2, Filed(ctx, c2, PREAUTH));
    NothingElse(cfg, o, Empty());
    AllByKey(ctx, NOTHING_SORTED, STUTTER);
  }

  lemma AmountsInMilliunits()
    ensures Money.ToMilliunits(5.0) == 5000 && Money.ToMilliunits(6.0) == 6000
  {
    assert 5.0 * 1000.0 == 5000.0 && 6.0 * 1000.0 == 6000.0;
  }

  /** YNAB creates the first of the three and calls the others duplicates. */
  lemma FirstPost(native: NativeMatcher)
    ensures CreateAll([], native, "home", [HELD.payload, CHARGED.payload, HELD.payload])
         == (Purchased(5000, Uncleared), Response([Reported(0, Some("SB1:T1"), None, None, "Shop")], ["SB1:T1", "SB1:T1"]))
  {
    var l := Purchased(5000, Uncleared);
    var later := [CHARGED.payload, HELD.payload];
    FirstCreate(native);
    assert Holds(l[0], "home", "SB1:T1");
    ResubmittedBatch(l, native, "home", later);
    assert SubmittedIds(later) == ["SB1:T1", "SB1:T1"];
    assert [HELD.payload, CHARGED.payload, HELD.payload][1..] == later;
    var row := Reported(0, Some("SB1:T1"), None, None, "Shop");
    hide CreateOne, NewCreate, SubmittedIds;
    var none: seq<string> := [];
    assert [row] + [] == [row] && none + ["SB1:T1", "SB1:T1"] == ["SB1:T1", "SB1:T1"];
  }

  lemma FirstCreate(native: NativeMatcher)
    ensures CreateOne([], native, "home", HELD.payload)
         == (Purchased(5000, Uncleared), Response([Reported(0, Some("SB1:T1"), None, None, "Shop")], []))
  {
    AmountsInMilliunits();
    var none: Ledger := [];
    assert !Burned(none, "home", "SB1:T1");
    assert NewTxn("home", HELD.payload, None) == Purchased(5000, Uncleared)[0];
    assert none + [NewTxn("home", HELD.payload, None)] == Purchased(5000, Uncleared);
  }

  /** The row follows the last report. */
  lemma FirstSubmission(cfg: Settings)
    ensures var w := Submit(Attempt(map[], [], [], NOW), cfg, FIRST_CYCLE, []);
            w.table == Held() && w.ledger == Purchased(5000, Uncleared) && w.status == Running
  {
    var creates := [HELD, CHARGED, HELD];
    var row := Reported(0, Some("SB1:T1"), None, None, "Shop");
    var response := Response([row], ["SB1:T1", "SB1:T1"]);
    var w0 := Attempt(map[], [], [], NOW);
    var posted := w0.(ledger := Purchased(5000, Uncleared));
    var w1 := CountCreated(posted.(table := Held()));
    assert "T1" in Held();
    hide Held, Purchased, NewCreate, PostCreates, RecordCreated, Backfill, FindCreate, Payloads, SubmitCreates, Submit;
    FirstPosted(cfg, w0, posted, response);
    FirstRecord(cfg, posted, row);
    BatchSteps(w0, cfg, Batch("home", creates), posted, response, w1);
    TrackedBackfill(CountDuplicates(w1, 2), cfg, creates, ["SB1:T1", "SB1:T1"]);
    OnlyCreates(w0, cfg, Batch("home", creates));
  }

  lemma FirstPosted(cfg: Settings, w0: World, posted: World, response: Response)
    requires w0 == Attempt(map[], [], [], NOW) && posted == w0.(ledger := Purchased(5000, Uncleared))
    requires response == Response([Reported(0, Some("SB1:T1"), None, None, "Shop")], ["SB1:T1", "SB1:T1"])
    ensures PostCreates(w0, cfg, "home", Payloads([HELD, CHARGED, HELD])) == (posted, response)
  {
    FirstPost(cfg.native);
    assert Payloads([HELD, CHARGED, HELD]) == [HELD.payload, CHARGED.payload, HELD.payload];
    hide CreateAll, NewCreate, Purchased, Payloads;
  }

  lemma FirstRecord(cfg: Settings, posted: World, row: Reported)
    requires posted.table == map[] && posted.status == Running && posted.now == NOW
    requires row == Reported(0, Some("SB1:T1"), None, None, "Shop")
    ensures RecordCreated(posted, cfg, "home", [HELD, CHARGED, HELD], [row]) == CountCreated(posted.(table := Held()))
  {
    AmountsInMilliunits();
    assert [row][1..] == [];
    assert FindCreate([HELD, CHARGED, HELD], "SB1:T1") == Some(HELD);
    hide CreateFacts, FindCreate;
  }

  lemma {:induction false} TrackedBackfill(w: World, cfg: Settings, creates: seq<Create>, ids: seq<string>)
    requires creates == [HELD, CHARGED, HELD] && "T1" in w.table
    requires forall id :: id in ids ==> id == "SB1:T1"
    ensures Backfill(w, cfg, "home", creates, ids) == w
    decreases |ids|
  {
    if ids != [] {
      assert FindCreate(creates, "SB1:T1") == Some(HELD);
      assert ids[0] in ids && forall id :: id in ids[1..] ==> id in ids;
      assert BackfillOne(w, cfg, "home", creates, ids[0]) == w;
      TrackedBackfill(w, cfg, creates, ids[1..]);
    }
  }

  lemma Start(cfg: Settings, o: PendingMatch.Options)
    ensures OneCard(cfg, o).cfg == cfg
    ensures Empty() == Store(map[], map[], [], NOW, None, [])
    ensures var empty: map<string, int> := map[]; empty + Stamp({"acct"}, NOW) == map["acct" := NOW]
  {
  }

  /** After the first fetch and submission: pending, though the charge was seen. */
  lemma FirstCycleRuns(cfg: Settings, o: PendingMatch.Options)
    ensures var m := OneCard(cfg, o);
            var s := Step(m, Step(m, Empty(), Fetch(STUTTER, [], {"acct"}, NOW)), Submission(Try([], NOW, [])));
            && s.table == Held() && s.ledger == Purchased(5000, Uncleared) && s.cached.None? && s.clock == NOW
            && s.cursors == map["acct" := NOW]
  {
    FirstJob(cfg, o);
    FirstSubmission(cfg);
    Start(cfg, o);
    hide *;
    CycleSteps(OneCard(cfg, o), Empty(), STUTTER, [], {"acct"}, NOW, Try([], NOW, []), FIRST_CYCLE);
  }

  lemma SecondWindow(ctx: Context)
    requires ctx.table == Held() && ctx.cursors == map["acct" := NOW] && ctx.now == NOW
    requires ctx.rules.backfillDays == 30 && ctx.rules.overlapHours == 24
    ensures DateOf(FetchWindow(ctx, "acct")) == 19
  {
    var floor := EarliestPending(ctx.table, "acct");
    if floor.Some? {
      var k := PendingFloor(ctx.table, "acct");
      assert k == "T1";
    }
    assert ComputeSince(Some(NOW), NOW, 30, 24) == NOW - SECONDS_PER_DAY;
    assert DateOf(NOW - SECONDS_PER_DAY) == 19;
  }

  lemma SecondReports(ctx: Context)
    requires ctx.table == Held() && DateOf(FetchWindow(ctx, "acct")) == 19 && ctx.mappings == map[("bank", "acct") := CARD]
    ensures !IsNew(ctx, PREAUTH) && !SettlesOwnRow(ctx, PREAUTH) && !IsNew(ctx, CHARGE)
    ensures SettlesOwnRow(ctx, CHARGE) && UpdateFor(ctx, CHARGE) == Update("T1", 0, 6.0, 20, "home")
  {
    hide FetchWindow, Money.ToMilliunits, Money.FromMilliunits;
  }

  /** The second cycle corrects the row that the first one left pending. */
  lemma SecondJob(ctx: Context)
    requires !IsNew(ctx, PREAUTH) && !SettlesOwnRow(ctx, PREAUTH) && !IsNew(ctx, CHARGE)
    requires SettlesOwnRow(ctx, CHARGE) && UpdateFor(ctx, CHARGE) == Update("T1", 0, 6.0, 20, "home")
    ensures CycleOf(ctx, STUTTER) == SECOND_CYCLE && ExactCycle(ctx, STUTTER)
  {
    hide IsNew, SettlesOwnRow, UpdateFor;
    var c := Update("T1", 0, 6.0, 20, "home");
    var none: seq<Correction> := [];
    assert none + [c] == [c];
    assert Append(map[], "home", c) == map["home" := [c]];
    ThreeFiled(ctx, NOTHING_SORTED.cycle, SECOND_CYCLE, SECOND_CYCLE);
    AllByKey(ctx, NOTHING_SORTED, STUTTER);
  }

  lemma SecondSubmission(cfg: Settings)
    ensures var w := Submit(Attempt(Held(), Purchased(5000, Uncleared), [], NOW), cfg, SECOND_CYCLE, ["home"]);
            w.ledger == Purchased(6000, Cleared) && w.status == Running
  {
    var c := Update("T1", 0, 6.0, 20, "home");
    var w0 := Attempt(Held(), Purchased(5000, Uncleared), [], NOW);
    var since := SinceOf(cfg, [c]);
    assert CorrectionsOf(SECOND_CYCLE, "home") == [c];
    ChargePatches(cfg, w0, c);
    hide CorrectionsOf, SinceOf, ListedAlive, Held, Correct, Purchased;
    var w1 := Correct(w0, "home", w0.ledger, since, c);
    assert [c][1..] == [];
    assert CorrectAll(w0, "home", w0.ledger, since, [c]) == CorrectAll(w1, "home", w0.ledger, since, []) == w1;
    hide CorrectAll;
    assert CorrectBudget(w0, cfg, SECOND_CYCLE, "home") == w1;
    OnlyCorrections(w0, cfg, map["home" := [c]], map[], "home");
  }

  lemma ChargePatches(cfg: Settings, w: World, c: Correction)
    requires w == Attempt(Held(), Purchased(5000, Uncleared), [], NOW) && c == Update("T1", 0, 6.0, 20, "home")
    ensures var w' := Correct(w, "home", w.ledger, SinceOf(cfg, [c]), c);
            w'.ledger == Purchased(6000, Cleared) && w'.status == Running
  {
    AmountsInMilliunits();
    assert SinceOf(cfg, [c]) == Some(20 - cfg.backfillDays);
    assert ListedAlive(w.ledger, "home", 0, SinceOf(cfg, [c]));
    assert Patch(w.ledger, "home", 0, Some(6000), Cleared) == Purchased(6000, Cleared);
    ChargeSettles(w.(ledger := Purchased(6000, Cleared)), c);
    hide SinceOf, ListedAlive, Held, Settle;
  }

  lemma ChargeSettles(w: World, c: Correction)
    requires w.table == Held() && w.status == Running && c == Update("T1", 0, 6.0, 20, "home")
    ensures Settle(w, c).status == Running && Settle(w, c).ledger == w.ledger
  {
    hide CreateFacts, Money.ToMilliunits;
  }

  /**
   * One purchase reported as a preauthorisation, a charge and the preauthorisation again: after a first cycle that
   * succeeds, the same data fetched a second time still changes YNAB.
   */
  lemma StutterChangesYnab(cfg: Settings, o: PendingMatch.Options)
    ensures var m := OneCard(cfg, o);
            var e1, e2 := Fetch(STUTTER, [], {"acct"}, NOW), Submission(Try([], NOW, []));
            var e3, e4 := Fetch(STUTTER, ["T1"], {"acct"}, NOW), Submission(Try([], NOW, ["home"]));
            && Run(m, Empty(), [e1, e2]).ledger == Purchased(5000, Uncleared)
            && Run(m, Empty(), [e1, e2] + [e3, e4]).ledger == Purchased(6000, Cleared)
  {
    var m := OneCard(cfg, o);
    var e1, e2 := Fetch(STUTTER, [], {"acct"}, NOW), Submission(Try([], NOW, []));
    var e3, e4 := Fetch(STUTTER, ["T1"], {"acct"}, NOW), Submission(Try([], NOW, ["home"]));
    var s2 := Step(m, Step(m, Empty(), e1), e2);
    FirstCycleRuns(cfg, o);
    SecondStep(cfg, o, s2);
    hide *;
    TwoSteps(m, Empty(), e1, e2, [e3, e4]);
    TwoSteps(m, s2, e3, e4, []);
  }

  lemma SecondStep(cfg: Settings, o: PendingMatch.Options, s: Store)
    requires s.table == Held() && s.ledger == Purchased(5000, Uncleared) && s.cached.None? && s.clock == NOW
    requires s.cursors == map["acct" := NOW]
    ensures var m := OneCard(cfg, o);
            Step(m, Step(m, s, Fetch(STUTTER, ["T1"], {"acct"}, NOW)), Submission(Try([], NOW, ["home"]))).ledger
            == Purchased(6000, Cleared)
  {
    SecondCycle(cfg, o, s);
    SecondSubmission(cfg);
    Start(cfg, o);
    hide *;
    CycleSteps(OneCard(cfg, o), s, STUTTER, ["T1"], {"acct"}, NOW, Try([], NOW, ["home"]), SECOND_CYCLE);
  }

  lemma SecondCycle(cfg: Settings, o: PendingMatch.Options, s: Store)
    requires s.table == Held() && s.cursors == map["acct" := NOW]
    ensures CycleOf(ContextOf(OneCard(cfg, o), s, ["T1"], NOW), STUTTER) == SECOND_CYCLE
  {
    var ctx := ContextOf(OneCard(cfg, o), s, ["T1"], NOW);
    SecondWindow(ctx);
    SecondReports(ctx);
    hide FetchWindow, IsNew, SettlesOwnRow, UpdateFor, CycleOf, Held;
    SecondJob(ctx);
  }
}
