/**
 * A purchase reported as a preauthorisation and then as a charge: if the
 * answer to the first create is lost, or if one fetch brings both reports,
 * the row and its YNAB transaction part for good.
 */
module LostPreauth {
  import opened Wrappers
  import opened Ynab
  import opened StateDb
  import opened SyncSpec
  import opened Creation
  import opened Classification
  import opened Filing
  import opened DateWindow
  import opened Runs
  import opened RepeatedKeys
  import opened Mirroring
  import Money
  import Readd
  import PendingMatch

  /**
   * A duplicate that is found again is recorded with the transaction's amount, but with the cleared flag of the
   * report: the row mirrors YNAB if and only if that flag is the transaction's.
   */
  lemma RecoveredMirrorsIffFlagFits(w: World, cfg: Settings, budget: string, p: Create)
    requires w.script == [] && w.status == Running && p.trackingKey !in w.table
    requires LookUp(w.ledger, cfg, budget, p).Some?
    ensures var w' := Recover(w, cfg, budget, p);
            && p.trackingKey in w'.table && w'.ledger == w.ledger && w'.table[p.trackingKey].facts.status == p.status
            && (Mirrors(w'.ledger, w'.table[p.trackingKey])
                <==> w.ledger[LookUp(w.ledger, cfg, budget, p).value].cleared == p.payload.cleared)
  {
    var id := LookUp(w.ledger, cfg, budget, p).value;
    Money.MilliunitsRoundTrip(w.ledger[id].amount);
    hide LookUp, Money.FromMilliunits, Money.ToMilliunits;
  }

  const HELD_CYCLE := Cycle([Batch("home", [HELD])], map[], map[], [])
  const CHARGED_CYCLE := Cycle([Batch("home", [CHARGED])], map[], map[], [])

  /** Nothing is tracked, so either report is filed as a create. */
  lemma OneCreate(cfg: Settings, o: PendingMatch.Options, f: Fetched, s: Store)
    requires (f == PREAUTH || f == CHARGE) && s.table == map[] && s.cursors == map[]
    requires forall t :: t in s.ledger ==> t.importId.Some?
    ensures CycleOf(ContextOf(OneCard(cfg, o), s, [], NOW), [f])
         == Cycle([Batch("home", [NewCreate("bank", CARD, f.ntx)])], map[], map[], [])
  {
    var ctx := ContextOf(OneCard(cfg, o), s, [], NOW);
    ReportIsNew(cfg, o, s, f, []);
    NothingElse(cfg, o, s);
    hide NewCreate, ContextOf, Filed;
    var none: seq<Create> := [];
    assert none + [NewCreate("bank", CARD, f.ntx)] == [NewCreate("bank", CARD, f.ntx)] && [f][1..] == [];
    AllByKey(ctx, NOTHING_SORTED, [f]);
    assert FiledAll(ctx, NOTHING_SORTED.cycle, [f]) == FiledAll(ctx, Filed(ctx, NOTHING_SORTED.cycle, f), []);
  }

  /** The create arrives, its response does not. */
  lemma HeldIsLost(cfg: Settings)
    ensures var w := Submit(Attempt(map[], [], [LostAfter], NOW), cfg, HELD_CYCLE, []);
            w.table == map[] && w.ledger == Purchased(5000, Uncleared) && w.status == CallFailed
  {
    var w0 := Attempt(map[], [], [LostAfter], NOW);
    FirstCreate(cfg.native);
    Readd.OneCreateAnswers([], cfg.native, "home", HELD.payload);
    OnePayload(HELD);
    hide CreateAll, CreateOne, Payloads, Purchased, NewCreate;
    var w1 := PostCreates(w0, cfg, "home", Payloads([HELD])).0;
    assert w1.table == map[] && w1.ledger == Purchased(5000, Uncleared) && w1.status == CallFailed;
    hide PostCreates;
    assert SubmitCreates(w0, cfg, Batch("home", [HELD])) == w1;
    OnlyCreates(w0, cfg, Batch("home", [HELD]));
  }

  lemma OnePayload(p: Create)
    ensures Payloads([p]) == [p.payload]
  {
  }

  lemma ChargeIsDuplicate(cfg: Settings)
    ensures var l := Purchased(5000, Uncleared);
            && LookUp(l, cfg, "home", CHARGED) == Some(0) && l[0].cleared != CHARGED.payload.cleared
            && CHARGED.trackingKey == "T1" && CHARGED.status == Booked && CHARGED.payload.importId == "SB1:T1"
            && CreateAll(l, cfg.native, "home", Payloads([CHARGED])) == (l, Response([], ["SB1:T1"]))
    ensures FindCreate([CHARGED], "SB1:T1") == Some(CHARGED) && Payloads([CHARGED]) != []
  {
    var l := Purchased(5000, Uncleared);
    assert Holds(l[0], "home", "SB1:T1");
    OnePayload(CHARGED);
    ResubmittedBatch(l, cfg.native, "home", [CHARGED.payload]);
    assert SubmittedIds([CHARGED.payload]) == ["SB1:T1"];
  }

  /** The charge meets the burned import_id and takes over the preauthorisation as it is. */
  lemma ChargeTakesOver(cfg: Settings)
    ensures var w := Submit(Attempt(map[], Purchased(5000, Uncleared), [], NOW), cfg, CHARGED_CYCLE, []);
            && w.status == Running && w.ledger == Purchased(5000, Uncleared) && "T1" in w.table
            && w.table["T1"].facts.status == Booked && !Mirrors(w.ledger, w.table["T1"])
  {
    var w0 := Attempt(map[], Purchased(5000, Uncleared), [], NOW);
    var w1 := CountDuplicates(w0, 1);
    ChargeIsDuplicate(cfg);
    RecoveredMirrorsIffFlagFits(w1, cfg, "home", CHARGED);
    RecoverRuns(w1, cfg);
    hide CreateAll, LookUp, Payloads, Recover, FindCreate, Purchased, NewCreate, Mirrors;
    assert PostCreates(w0, cfg, "home", Payloads([CHARGED])) == (w0, Response([], ["SB1:T1"]));
    hide PostCreates;
    var w2 := Recover(w1, cfg, "home", CHARGED);
    assert ["SB1:T1"][1..] == [];
    assert Backfill(w1, cfg, "home", [CHARGED], ["SB1:T1"]) == w2;
    hide Backfill;
    BatchSteps(w0, cfg, Batch("home", [CHARGED]), w0, Response([], ["SB1:T1"]), w0);
    OnlyCreates(w0, cfg, Batch("home", [CHARGED]));
  }

  lemma RecoverRuns(w: World, cfg: Settings)
    requires w.script == [] && w.status == Running && LookUp(w.ledger, cfg, "home", CHARGED).Some?
    ensures Recover(w, cfg, "home", CHARGED).status == Running
  {
    hide LookUp, RecoveredFacts, Upsert;
  }

  /** The stores after the cycle was given up. */
  lemma GivenUp(cfg: Settings, o: PendingMatch.Options)
    ensures var m := OneCard(cfg, o);
            var s2 := Step(m, Step(m, Empty(), Fetch([PREAUTH], [], {"acct"}, NOW)), Submission(Try([LostAfter], NOW, [])));
            var s3 := Step(m, s2, Forget);
            && s3.table == map[] && s3.cursors == map[] && s3.ledger == Purchased(5000, Uncleared) && s3.cached.None?
  {
    var m := OneCard(cfg, o);
    Start(cfg, o);
    OneCreate(cfg, o, PREAUTH, Empty());
    HeldIsLost(cfg);
    var s2 := Step(m, Step(m, Empty(), Fetch([PREAUTH], [], {"acct"}, NOW)), Submission(Try([LostAfter], NOW, [])));
    ForgetStep(m, s2);
    hide *;
    CycleSteps(m, Empty(), [PREAUTH], [], {"acct"}, NOW, Try([LostAfter], NOW, []), HELD_CYCLE);
  }

  /** The next fetch and submission, on those stores. */
  lemma TakenOver(cfg: Settings, o: PendingMatch.Options, s3: Store)
    requires s3.table == map[] && s3.cursors == map[] && s3.ledger == Purchased(5000, Uncleared) && s3.cached.None?
    ensures var m := OneCard(cfg, o);
            var s := Step(m, Step(m, s3, Fetch([CHARGE], [], {"acct"}, NOW)), Submission(Try([], NOW, [])));
            && s.cached.None? && "T1" in s.table && s.table["T1"].facts.status == Booked
            && s.ledger == Purchased(5000, Uncleared) && !Mirrors(s.ledger, s.table["T1"])
  {
    Start(cfg, o);
    OneCreate(cfg, o, CHARGE, s3);
    hide *;
    ChargeTakesOver(cfg);
    CycleSteps(OneCard(cfg, o), s3, [CHARGE], [], {"acct"}, NOW, Try([], NOW, []), CHARGED_CYCLE);
  }

  lemma ForgetStep(m: Machine, s: Store)
    ensures Step(m, s, Forget) == s.(cached := None)
  {
  }

  /**
   * The preauthorisation is created but its answer lost, the cycle is given up, and the next fetch reports the
   * charge: the cycle succeeds, and its BOOKED, cleared row stands for a transaction that stays uncleared, at the
   * preauthorised amount.
   */
  lemma LostPreauthStaysUncleared(cfg: Settings, o: PendingMatch.Options)
    ensures var m := OneCard(cfg, o);
            var s := Run(m, Empty(), [Fetch([PREAUTH], [], {"acct"}, NOW), Submission(Try([LostAfter], NOW, [])), Forget,
                                      Fetch([CHARGE], [], {"acct"}, NOW), Submission(Try([], NOW, []))]);
            && s.cached.None? && "T1" in s.table && s.table["T1"].facts.status == Booked
            && s.ledger == Purchased(5000, Uncleared) && !Mirrors(s.ledger, s.table["T1"])
  {
    var m := OneCard(cfg, o);
    var e1, e2 := Fetch([PREAUTH], [], {"acct"}, NOW), Submission(Try([LostAfter], NOW, []));
    var e4, e5 := Fetch([CHARGE], [], {"acct"}, NOW), Submission(Try([], NOW, []));
    hide *;
    GivenUp(cfg, o);
    TakenOver(cfg, o, Step(m, Step(m, Step(m, Empty(), e1), e2), Forget));
    FiveSteps(m, Empty(), e1, e2, Forget, e4, e5);
  }

  lemma FiveSteps(m: Machine, s: Store, e1: Event, e2: Event, e3: Event, e4: Event, e5: Event)
    ensures Run(m, s, [e1, e2, e3, e4, e5]) == Step(m, Step(m, Step(m, Step(m, Step(m, s, e1), e2), e3), e4), e5)
  {
    var s2 := Step(m, Step(m, s, e1), e2);
    hide Step;
    assert [e1, e2, e3, e4, e5] == [e1, e2] + [e3, e4, e5] && [e3, e4, e5] == [e3, e4] + [e5];
    TwoSteps(m, s, e1, e2, [e3, e4, e5]);
    TwoSteps(m, s2, e3, e4, [e5]);
    assert [e5][1..] == [];
  }

  // --- both reports in one fetch ----------------------------------------------------------------------------------

  const BOTH := [PREAUTH, CHARGE]
  const BOTH_CYCLE := Cycle([Batch("home", [HELD, CHARGED])], map[], map[], [])

  lemma BothFiled(cfg: Settings, o: PendingMatch.Options)
    ensures CycleOf(ContextOf(OneCard(cfg, o), Empty(), [], NOW), BOTH) == BOTH_CYCLE
  {
    var ctx := ContextOf(OneCard(cfg, o), Empty(), [], NOW);
    var c1 := Filed(ctx, NOTHING_SORTED.cycle, PREAUTH);
    ReportIsNew(cfg, o, Empty(), PREAUTH, []);
    ReportIsNew(cfg, o, Empty(), CHARGE, [HELD]);
    NothingElse(cfg, o, Empty());
    hide Filed, NewCreate, ContextOf;
    var none: seq<Create> := [];
    assert none + [HELD] == [HELD] && [HELD] + [CHARGED] == [HELD, CHARGED];
    assert BOTH[1..] == [CHARGE] && [CHARGE][1..] == [];
    AllByKey(ctx, NOTHING_SORTED, BOTH);
    assert FiledAll(ctx, NOTHING_SORTED.cycle, BOTH) == FiledAll(ctx, c1, [CHARGE]);
    assert FiledAll(ctx, c1, [CHARGE]) == FiledAll(ctx, Filed(ctx, c1, CHARGE), []);
  }

  /** YNAB creates the preauthorisation and calls the charge a duplicate. */
  lemma BothPosted(native: NativeMatcher)
    ensures CreateAll([], native, "home", Payloads([HELD, CHARGED]))
         == (Purchased(5000, Uncleared), Response([Reported(0, Some("SB1:T1"), None, None, "Shop")], ["SB1:T1"]))
  {
    var l := Purchased(5000, Uncleared);
    FirstCreate(native);
    assert Holds(l[0], "home", "SB1:T1");
    ResubmittedBatch(l, native, "home", [CHARGED.payload]);
    assert SubmittedIds([CHARGED.payload]) == ["SB1:T1"];
    assert Payloads([HELD, CHARGED]) == [HELD.payload, CHARGED.payload];
    assert [HELD.payload, CHARGED.payload][1..] == [CHARGED.payload];
    var row := Reported(0, Some("SB1:T1"), None, None, "Shop");
    hide CreateOne, NewCreate, SubmittedIds, Payloads;
    var none: seq<string> := [];
    assert [row] + [] == [row] && none + ["SB1:T1"] == ["SB1:T1"];
  }

  /** The row of the charge, on the transaction of the preauthorisation. */
  function Charged(): Table { Upsert(map[], "T1", CreateFacts("home", CHARGED, 0, Booked, 6000, "Shop"), NOW) }

  lemma ChargeRecorded(cfg: Settings, posted: World, row: Reported)
    requires posted.table == map[] && posted.status == Running && posted.now == NOW
    requires row == Reported(0, Some("SB1:T1"), None, None, "Shop")
    ensures RecordCreated(posted, cfg, "home", [HELD, CHARGED], [row]) == CountCreated(posted.(table := Charged()))
  {
    AmountsInMilliunits();
    assert [row][1..] == [];
    assert FindCreate([HELD, CHARGED], "SB1:T1") == Some(CHARGED);
    hide CreateFacts, FindCreate;
  }

  lemma ChargeTracked(cfg: Settings, w: World)
    requires "T1" in w.table && w.status == Running
    ensures Backfill(w, cfg, "home", [HELD, CHARGED], ["SB1:T1"]) == w
  {
    assert FindCreate([HELD, CHARGED], "SB1:T1") == Some(CHARGED);
    assert BackfillOne(w, cfg, "home", [HELD, CHARGED], "SB1:T1") == w;
    hide FindCreate, BackfillOne;
    assert ["SB1:T1"][1..] == [];
  }

  lemma BothSubmitted(cfg: Settings)
    ensures var w := Submit(Attempt(map[], [], [], NOW), cfg, BOTH_CYCLE, []);
            w.table == Charged() && w.ledger == Purchased(5000, Uncleared) && w.status == Running
  {
    var row := Reported(0, Some("SB1:T1"), None, None, "Shop");
    var response := Response([row], ["SB1:T1"]);
    var w0 := Attempt(map[], [], [], NOW);
    var posted := w0.(ledger := Purchased(5000, Uncleared));
    var w1 := CountCreated(posted.(table := Charged()));
    assert Payloads([HELD, CHARGED]) != [];
    BothPosted(cfg.native);
    assert "T1" in Charged();
    hide Charged, Purchased, NewCreate, CreateAll, RecordCreated, Backfill, Payloads, SubmitCreates, Submit;
    assert PostCreates(w0, cfg, "home", Payloads([HELD, CHARGED])) == (posted, response);
    hide PostCreates;
    ChargeRecorded(cfg, posted, row);
    BatchSteps(w0, cfg, Batch("home", [HELD, CHARGED]), posted, response, w1);
    ChargeTracked(cfg, CountDuplicates(w1, 1));
    OnlyCreates(w0, cfg, Batch("home", [HELD, CHARGED]));
  }

  lemma ChargedDiffers()
    ensures "T1" in Charged() && Charged()["T1"].facts.status == Booked && Charged()["T1"].facts.cleared == Cleared
    ensures Charged()["T1"].amountMilliunits == 6000 && !Mirrors(Purchased(5000, Uncleared), Charged()["T1"])
  {
    Money.MilliunitsRoundTrip(6000);
    hide Money.FromMilliunits, Money.ToMilliunits;
  }

  /**
   * One fetch reports a preauthorisation and its charge, and nothing fails: the success leaves a BOOKED, cleared row
   * over the charged amount for a transaction that stays uncleared at the preauthorised one.
   */
  lemma BothAtOnceStaysUncleared(cfg: Settings, o: PendingMatch.Options)
    ensures var m := OneCard(cfg, o);
            var s := Run(m, Empty(), [Fetch(BOTH, [], {"acct"}, NOW), Submission(Try([], NOW, []))]);
            && s.cached.None? && s.ledger == Purchased(5000, Uncleared)
            && "T1" in s.table && s.table["T1"].facts.status == Booked && s.table["T1"].facts.cleared == Cleared
            && s.table["T1"].amountMilliunits == 6000 && !Mirrors(s.ledger, s.table["T1"])
  {
    var m := OneCard(cfg, o);
    var e1, e2 := Fetch(BOTH, [], {"acct"}, NOW), Submission(Try([], NOW, []));
    Start(cfg, o);
    BothFiled(cfg, o);
    BothSubmitted(cfg);
    ChargedDiffers();
    hide *;
    CycleSteps(m, Empty(), BOTH, [], {"acct"}, NOW, Try([], NOW, []), BOTH_CYCLE);
    TwoSteps(m, Empty(), e1, e2, []);
  }
}
