/**
 * Two charges for one preauthorised row: the bank reports a new charge that
 * looks like the pending one, and then books the pending one, too.
 */
module TwoCharges {
  import opened Wrappers
  import opened Ynab
  import opened StateDb
  import opened SyncSpec
  import opened Classification
  import opened PendingMatch
  import opened DateWindow
  import opened Sequences
  import opened Resubmission
  import Money
  import Sanitize

  const OPTIONS := Options(2.0, 5, CalendarDays, (d1, d2) => 0, true, 6, 0.6, 0.15, s => s)
  const RULES := Rules(30, 24, 0, true, OPTIONS)
  const CARD := Mapping("checking", "home")
  const NOW := 20 * SECONDS_PER_DAY

  /** The preauthorisation: tracked as PENDING, and uncleared in YNAB. */
  const HELD := Row(Facts("SB1:K", 0, "home", "acct", Pending, 5.0, "Grocery", 20, "checking", Uncleared), 5000, NOW, 0)

  function Held(): Table { map["K" := HELD] }

  function OneTxn(amount: int, cleared: ClearedFlag): Ledger {
    [Txn("home", "checking", 20, amount, "Grocery", cleared, Some("SB1:K"), None, false, false)]
  }

  function Charge(key: string, amount: real): Ntx {
    Ntx("acct", key, "SB1:" + key, 20, amount, "Grocery", true, None, None)
  }

  const OTHER := Fetched("bank", Charge("N", 5.5))
  const OWN := Fetched("bank", Charge("K", 5.0))

  function Shop(t: Table, scan: seq<string>, l: Ledger): Context {
    Context(RULES, t, scan, map[], l, map[("bank", "acct") := CARD], NOW)
  }

  const CANDIDATE := PendingCandidate(0, "K", 0, "home", "acct", 5.0, 20, "Grocery")
  const MOVE := FuzzyUpdate("K", "N", 0, 5.5, 20, "home")
  const BOOK := Update("K", 0, 5.0, 20, "home")
  const BOTH := Cycle([], map["home" := [BOOK]], map["home" := [MOVE]], [])

  lemma Windows(t: Table, scan: seq<string>, l: Ledger, ntx: Ntx)
    requires ntx == OTHER.ntx || ntx == OWN.ntx
    ensures Accepted(Shop(t, scan, l), "bank", ntx)
  {
    var ctx := Shop(t, scan, l);
    var since := ComputeSince(CursorOf(ctx.cursors, "acct"), NOW, 30, 24);
    assert since == -10 * SECONDS_PER_DAY && DateOf(since) == -10;
    DateOfMonotone(FetchWindow(ctx, "acct"), since);
    assert ntx.accountKey == "acct" && ntx.date == 20;
    InWindow(ctx, ntx);
  }

  lemma InWindow(ctx: Context, ntx: Ntx)
    requires ("bank", ntx.accountKey) in ctx.mappings && ntx.date >= DateOf(FetchWindow(ctx, ntx.accountKey))
    ensures Accepted(ctx, "bank", ntx)
  {
  }

  lemma RowIsListed(l: Ledger)
    ensures PendingCandidates(Shop(Held(), ["K"], l), map[], "acct") == (map["acct" := [CANDIDATE]], [CANDIDATE])
  {
    assert DateOf(NOW) == 20;
    assert ["K"][1..] == [];
    assert PendingRows(Held(), [], "acct", 1) == [];
    assert IsPendingOf(HELD, "acct");
    var none: seq<PendingCandidate> := [];
    assert [CANDIDATE] + none == [CANDIDATE];
    assert PendingRows(Held(), ["K"], "acct", 0) == [CANDIDATE];
    hide PendingRows;
  }

  /** The new charge is the only one that the pending row could have become. */
  lemma ChargeFitsRow()
    ensures FuzzyMatchFor(RULES, OTHER.ntx, [CANDIDATE]).Some?
    ensures FuzzyMatchFor(RULES, OTHER.ntx, [CANDIDATE]).value.candidate == CANDIDATE
  {
    var booked := BookedCandidate("acct", 5.5, 20, "Grocery");
    assert PassesFilters(booked, CANDIDATE, OPTIONS) by {
      assert Plausible(booked, CANDIDATE, OPTIONS);
    }
    var keep := (c: PendingCandidate) => PassesFilters(booked, c, OPTIONS);
    FilterStep([CANDIDATE], keep);
    FilterStep([], keep);
    assert [CANDIDATE][1..] == [];
    assert Survivors(booked, [CANDIDATE], OPTIONS) == [CANDIDATE];
    hide PassesFilters, Survivors;
  }

  lemma NothingTyped(amount: int, cleared: ClearedFlag, since: int)
    ensures ListUnimported(OneTxn(amount, cleared), "home", "checking", since) == []
  {
    assert ListUnimported(OneTxn(amount, cleared), "home", "checking", since, 1) == [];
  }

  /** The new charge claims the pending row, and the row's own booking updates it, too. */
  lemma BothClaimOneRow()
    ensures CycleOf(Shop(Held(), ["K"], OneTxn(5000, Uncleared)), [OTHER, OWN]) == BOTH
    ensures SharedRow(BOTH)
  {
    var ctx := Shop(Held(), ["K"], OneTxn(5000, Uncleared));
    var s1, s2 := SortOne(ctx, "bank", NOTHING_SORTED, OTHER.ntx), SortOne(ctx, "bank", SortedOther(), OWN.ntx);
    OtherIsSorted();
    OwnIsSorted();
    assert [OTHER, OWN][1..] == [OWN] && [OWN][1..] == [];
    hide SortOne;
    assert SortAll(ctx, NOTHING_SORTED, [OTHER, OWN]) == SortAll(ctx, s1, [OWN]);
    assert SortAll(ctx, s1, [OWN]) == SortAll(ctx, s2, []);
    assert Plain(BOTH, "home", BOOK) && Fuzzy(BOTH, "home", MOVE);
  }

  function SortedOther(): Sorting {
    Sorting(map["checking" := (-10, [])], map["acct" := []], Cycle([], map[], map["home" := [MOVE]], []))
  }

  lemma OtherIsSorted()
    ensures SortOne(Shop(Held(), ["K"], OneTxn(5000, Uncleared)), "bank", NOTHING_SORTED, OTHER.ntx) == SortedOther()
  {
    var ctx := Shop(Held(), ["K"], OneTxn(5000, Uncleared));
    Windows(Held(), ["K"], OneTxn(5000, Uncleared), OTHER.ntx);
    RowIsListed(OneTxn(5000, Uncleared));
    NothingTyped(5000, Uncleared, -10);
    ChargeFitsRow();
    hide Accepted, PendingRows, ListUnimported, FuzzyMatchFor;
    assert ManualCandidates(ctx, map[], CARD, 20) == (map["checking" := (-10, [])], []);
    hide ManualCandidates, PendingCandidates;
    assert Classify(ctx.table, RULES, "bank", CARD, OTHER.ntx, [], [CANDIDATE]) == TransitionedFuzzy(MOVE, CANDIDATE);
    hide Classify;
    var none: seq<Correction> := [];
    assert none + [MOVE] == [MOVE] && Append(map[], "home", MOVE) == map["home" := [MOVE]];
    assert TakePending(map["acct" := [CANDIDATE]], "acct", CANDIDATE) == map["acct" := []];
  }

  lemma OwnIsSorted()
    ensures SortOne(Shop(Held(), ["K"], OneTxn(5000, Uncleared)), "bank", SortedOther(), OWN.ntx).cycle == BOTH
  {
    var ctx := Shop(Held(), ["K"], OneTxn(5000, Uncleared));
    Windows(Held(), ["K"], OneTxn(5000, Uncleared), OWN.ntx);
    hide Accepted, PendingRows, ListUnimported, FuzzyMatchFor;
    var manual := ManualCandidates(ctx, SortedOther().manual, CARD, 20).1;
    var pending := PendingCandidates(ctx, SortedOther().pending, "acct").1;
    assert Classify(ctx.table, RULES, "bank", CARD, OWN.ntx, manual, pending) == Transitioned(BOOK);
    hide Classify, ManualCandidates, PendingCandidates;
    var none: seq<Correction> := [];
    assert none + [BOOK] == [BOOK] && Append(map[], "home", BOOK) == map["home" := [BOOK]];
  }

  // --- what the cycle does --------------------------------------------------------------------------------------

  /** Both updates patch the one transaction, and the row moves to the new charge. */
  function AfterBoth(): Table { map["N" := Settled(Settled(HELD, 5.0), 5.5)] }

  lemma Milliunits()
    ensures Money.ToMilliunits(5.0) == 5000 && Money.ToMilliunits(5.5) == 5500
  {
    assert 5.0 * 1000.0 == 5000.0 && 5.5 * 1000.0 == 5500.0;
  }

  lemma Patches(amount: int, cleared: ClearedFlag, newAmount: int)
    ensures Patch(OneTxn(amount, cleared), "home", 0, Some(newAmount), Cleared) == OneTxn(newAmount, Cleared)
    ensures CanPatch(OneTxn(amount, cleared), "home", 0)
  {
    var l := OneTxn(amount, cleared);
    assert l[0 := l[0].(amount := newAmount, cleared := Cleared)] == OneTxn(newAmount, Cleared);
  }

  lemma Rows()
    ensures var booked := map["K" := Settled(HELD, 5.0)];
            && MarkBooked(Held(), "K", 5.0) == Some(booked)
            && Rekey(booked, "K", "N", 5.5) == Rekeyed(AfterBoth(), Settled(HELD, 5.0))
            && MarkBooked(AfterBoth(), "K", 5.0) == None
  {
    hide Settled;
    var booked: Table := map["K" := Settled(HELD, 5.0)];
    assert "K"[0] != "N"[0];
    assert Held()["K" := Settled(HELD, 5.0)] == booked;
    assert booked - {"K"} == map[];
    var empty: Table := map[];
    assert empty["N" := Settled(Settled(HELD, 5.0), 5.5)] == AfterBoth();
  }

  lemma Targets(cfg: Settings, amount: int, cleared: ClearedFlag)
    ensures CorrectionsOf(BOTH, "home") == [BOOK, MOVE] && SinceOf(cfg, [BOOK, MOVE]) == Some(20 - cfg.backfillDays)
    ensures ListedAlive(OneTxn(amount, cleared), "home", 0, Some(20 - cfg.backfillDays))
  {
    assert [BOOK, MOVE][1..] == [MOVE];
    assert EarliestDate([MOVE]) == 20 && EarliestDate([BOOK, MOVE]) == 20;
  }

  /** One of the two corrections, its target alive. */
  lemma Corrects(cfg: Settings, w: World, snapshot: Ledger, c: Correction, amount: int, cleared: ClearedFlag)
    requires w.script == [] && w.status == Running && w.ledger == OneTxn(amount, cleared)
    requires snapshot == OneTxn(5000, Uncleared) || snapshot == OneTxn(5500, Cleared)
    requires c == BOOK || c == MOVE
    ensures var patched := w.(ledger := OneTxn(Money.ToMilliunits(c.newAmount), Cleared));
            Correct(w, "home", snapshot, Some(20 - cfg.backfillDays), c) == Settle(patched, c)
  {
    Patches(amount, cleared, Money.ToMilliunits(c.newAmount));
    Targets(cfg, 5000, Uncleared);
    Targets(cfg, 5500, Cleared);
    hide Patch, OneTxn, ListedAlive, Settle, CanPatch, Money.ToMilliunits, CorrectionsOf, SinceOf;
  }

  lemma BothSubmitted(cfg: Settings, now: int)
    ensures var w := Submit(Attempt(Held(), OneTxn(5000, Uncleared), [], now), cfg, BOTH, ["home"]);
            w.status == Running && w.table == AfterBoth() && w.ledger == OneTxn(5500, Cleared)
  {
    var w0 := Attempt(Held(), OneTxn(5000, Uncleared), [], now);
    var since := Some(20 - cfg.backfillDays);
    Milliunits();
    Rows();
    Targets(cfg, 5000, Uncleared);
    Corrects(cfg, w0, w0.ledger, BOOK, 5000, Uncleared);
    hide OneTxn, Held, AfterBoth, MarkBooked, Rekey, ListedAlive, CorrectionsOf, SinceOf, Correct, Money.ToMilliunits;
    var w1 := Correct(w0, "home", w0.ledger, since, BOOK);
    assert w1.status == Running && w1.script == [] && w1.ledger == OneTxn(5000, Cleared);
    Corrects(cfg, w1, w0.ledger, MOVE, 5000, Cleared);
    var w2 := Correct(w1, "home", w0.ledger, since, MOVE);
    assert w2.status == Running && w2.ledger == OneTxn(5500, Cleared) && w2.table == AfterBoth();
    hide Settle;
    TwoCorrections(w0, w1, w2, since);
    assert CorrectBudget(w0, cfg, BOTH, "home") == w2;
    OnlyCorrections(w0, cfg, map["home" := [BOOK]], map["home" := [MOVE]], "home");
  }

  lemma TwoCorrections(w0: World, w1: World, w2: World, since: Option<int>)
    requires w0.status == Running && w1 == Correct(w0, "home", w0.ledger, since, BOOK) && w1.status == Running
    requires w2 == Correct(w1, "home", w0.ledger, since, MOVE)
    ensures CorrectAll(w0, "home", w0.ledger, since, [BOOK, MOVE]) == w2
  {
    hide Correct;
    assert [BOOK, MOVE][1..] == [MOVE] && [MOVE][1..] == [];
    assert CorrectAll(w1, "home", w0.ledger, since, [MOVE]) == CorrectAll(w2, "home", w0.ledger, since, []);
  }

  lemma FirstFails(w0: World, w1: World, since: Option<int>)
    requires w0.status == Running && w1 == Correct(w0, "home", w0.ledger, since, BOOK) && w1.status != Running
    ensures CorrectAll(w0, "home", w0.ledger, since, [BOOK, MOVE]) == w1
  {
    hide Correct;
    HaltedCorrectAll(w1, "home", w0.ledger, since, [BOOK, MOVE][1..]);
  }

  /** Submitted once more, as after a failure in its third phase, the cycle fails for good. */
  lemma BothResubmitted(cfg: Settings, now: int)
    ensures Submit(Attempt(AfterBoth(), OneTxn(5500, Cleared), [], now), cfg, BOTH, ["home"]).status == DbFailed
  {
    var w0 := Attempt(AfterBoth(), OneTxn(5500, Cleared), [], now);
    var since := Some(20 - cfg.backfillDays);
    Rows();
    Targets(cfg, 5500, Cleared);
    Corrects(cfg, w0, w0.ledger, BOOK, 5500, Cleared);
    hide OneTxn, AfterBoth, MarkBooked, ListedAlive, CorrectionsOf, SinceOf, Correct, Money.ToMilliunits;
    var w1 := Correct(w0, "home", w0.ledger, since, BOOK);
    assert w1.status == DbFailed;
    hide Settle;
    FirstFails(w0, w1, since);
    assert CorrectBudget(w0, cfg, BOTH, "home") == w1;
    OnlyCorrections(w0, cfg, map["home" := [BOOK]], map["home" := [MOVE]], "home");
  }

  // --- and the one after it -----------------------------------------------------------------------------------------

  const AGAIN := NewCreate("bank", CARD, OWN.ntx)
  const SECOND := Cycle([Batch("home", [AGAIN])], map[], map[], [])

  /** The row's own charge is untracked now, and filed as new. */
  lemma OwnIsNewAgain()
    ensures CycleOf(Shop(AfterBoth(), ["N"], OneTxn(5500, Cleared)), [OTHER, OWN]) == SECOND
  {
    var t, l := AfterBoth(), OneTxn(5500, Cleared);
    var ctx := Shop(t, ["N"], l);
    Windows(t, ["N"], l, OTHER.ntx);
    Windows(t, ["N"], l, OWN.ntx);
    NothingTyped(5500, Cleared, -10);
    assert PendingRows(t, ["N"], "acct", 0) == PendingRows(t, ["N"][1..], "acct", 0) == [];
    NoFuzzy();
    hide Accepted, PendingRows, ListUnimported, FuzzyMatchFor, NewCreate;
    assert ManualCandidates(ctx, map[], CARD, 20) == (map["checking" := (-10, [])], []);
    assert PendingCandidates(ctx, map[], "acct") == (map["acct" := []], []);
    assert Classify(t, RULES, "bank", CARD, OTHER.ntx, [], []) == Unchanged;
    var s1 := Sorting(map["checking" := (-10, [])], map["acct" := []], NOTHING_SORTED.cycle);
    assert SortOne(ctx, "bank", NOTHING_SORTED, OTHER.ntx) == s1;
    assert Classify(t, RULES, "bank", CARD, OWN.ntx, [], []) == New(AGAIN);
    var none: seq<Batch<Create>> := [];
    assert AddTo(none, "home", AGAIN) == [Batch("home", [AGAIN])];
    assert SortOne(ctx, "bank", s1, OWN.ntx).cycle == SECOND;
    hide SortOne;
    assert [OTHER, OWN][1..] == [OWN] && [OWN][1..] == [];
    assert SortAll(ctx, NOTHING_SORTED, [OTHER, OWN]) == SortAll(ctx, s1, [OWN]);
    assert SortAll(ctx, s1, [OWN]) == SortAll(ctx, SortOne(ctx, "bank", s1, OWN.ntx), []);
  }

  lemma NoFuzzy()
    ensures FuzzyMatchFor(RULES, OWN.ntx, []) == None
  {
    var booked := BookedCandidate("acct", 5.0, 20, "Grocery");
    FilterStep([], (c: PendingCandidate) => PassesFilters(booked, c, OPTIONS));
  }

  lemma AgainIsBurned(cfg: Settings)
    ensures CreateAll(OneTxn(5500, Cleared), cfg.native, "home", Payloads([AGAIN]))
         == (OneTxn(5500, Cleared), Response([], ["SB1:K"]))
    ensures LookUp(OneTxn(5500, Cleared), cfg, "home", AGAIN) == Some(0)
  {
    assert AGAIN.payload.importId == "SB1:K" && AGAIN.payload.account == "checking" && AGAIN.payload.date == 20;
    assert Payloads([AGAIN]) == [AGAIN.payload];
    var l := OneTxn(5500, Cleared);
    assert Holds(l[0], "home", "SB1:K");
    var ps := [AGAIN.payload];
    assert ps[1..] == [] && CreateAll(l, cfg.native, "home", []) == (l, Response([], []));
    assert CreateOne(l, cfg.native, "home", AGAIN.payload) == (l, Response([], ["SB1:K"]));
    hide CreateOne;
    var none: seq<Reported> := [];
    assert none + none == none && ["SB1:K"] + [] == ["SB1:K"];
  }

  lemma AgainShape()
    ensures AGAIN.trackingKey == "K" && AGAIN.payload.importId == "SB1:K" && AGAIN.status == Booked
    ensures FindCreate([AGAIN], "SB1:K") == Some(AGAIN) && |Payloads([AGAIN])| == 1
    ensures "K" !in AfterBoth() && "N" in AfterBoth() && AfterBoth()["N"].facts.txnId == 0
  {
  }

  lemma AgainRecovered(cfg: Settings, w: World)
    requires w.script == [] && w.status == Running && w.ledger == OneTxn(5500, Cleared) && w.table == AfterBoth()
    ensures var w' := Recover(w, cfg, "home", AGAIN);
            && w'.status == Running && w'.ledger == w.ledger
            && "N" in w'.table && "K" in w'.table && w'.table["N"].facts.txnId == w'.table["K"].facts.txnId == 0
  {
    AgainShape();
    AgainIsBurned(cfg);
    hide LookUp, OneTxn, NewCreate, AfterBoth, Money.FromMilliunits, Money.ToMilliunits, CreateAll, FindCreate, Payloads;
    assert "K"[0] != "N"[0];
  }

  /** Nothing is created, and the one duplicate is recovered. */
  lemma AgainIsRecover(cfg: Settings, w0: World)
    requires w0.script == [] && w0.status == Running && w0.ledger == OneTxn(5500, Cleared) && w0.table == AfterBoth()
    requires Recover(CountDuplicates(w0, 1), cfg, "home", AGAIN).status == Running
    ensures SubmitCreates(w0, cfg, Batch("home", [AGAIN])) == Recover(CountDuplicates(w0, 1), cfg, "home", AGAIN)
  {
    AgainIsBurned(cfg);
    AgainShape();
    hide CreateAll, LookUp, OneTxn, NewCreate, Payloads, FindCreate, Recover, AfterBoth;
    assert PostCreates(w0, cfg, "home", Payloads([AGAIN])) == (w0, Response([], ["SB1:K"]));
    hide PostCreates;
    var w1 := CountDuplicates(w0, 1);
    var w2 := Recover(w1, cfg, "home", AGAIN);
    assert ["SB1:K"][1..] == [];
    assert Backfill(w1, cfg, "home", [AGAIN], ["SB1:K"]) == w2;
    hide Backfill;
    BatchSteps(w0, cfg, Batch("home", [AGAIN]), w0, Response([], ["SB1:K"]), w0);
  }

  lemma AgainSubmitted(cfg: Settings, now: int)
    ensures var w := Submit(Attempt(AfterBoth(), OneTxn(5500, Cleared), [], now), cfg, SECOND, []);
            && w.status == Running && w.ledger == OneTxn(5500, Cleared)
            && "N" in w.table && "K" in w.table && w.table["N"].facts.txnId == w.table["K"].facts.txnId == 0
  {
    var w0 := Attempt(AfterBoth(), OneTxn(5500, Cleared), [], now);
    AgainRecovered(cfg, CountDuplicates(w0, 1));
    hide OneTxn, NewCreate, Recover, AfterBoth, SubmitCreates, Submit;
    AgainIsRecover(cfg, w0);
    OnlyCreates(w0, cfg, Batch("home", [AGAIN]));
  }

  /**
   * The bank booked 5.50 and 5.00.  After two cycles without any fault both are tracked, and both as the one
   * transaction in YNAB, over 5.50: the other charge is nowhere.
   */
  lemma TwoChargesOneTransaction(cfg: Settings, now: int)
    ensures var first := CycleOf(Shop(Held(), ["K"], OneTxn(5000, Uncleared)), [OTHER, OWN]);
            var w1 := Submit(Attempt(Held(), OneTxn(5000, Uncleared), [], now), cfg, first, ["home"]);
            var second := CycleOf(Shop(w1.table, ["N"], w1.ledger), [OTHER, OWN]);
            var w2 := Submit(Attempt(w1.table, w1.ledger, [], now), cfg, second, []);
            && w1.status == w2.status == Running && w2.ledger == OneTxn(5500, Cleared)
            && OTHER.ntx.trackingKey in w2.table && w2.table[OTHER.ntx.trackingKey].facts.txnId == 0
            && OWN.ntx.trackingKey in w2.table && w2.table[OWN.ntx.trackingKey].facts.txnId == 0
  {
    BothClaimOneRow();
    BothSubmitted(cfg, now);
    OwnIsNewAgain();
    AgainSubmitted(cfg, now);
    hide CycleOf, Submit, OneTxn, Held, AfterBoth;
  }
}
