/**
 * One booked charge that settles a pending row by its looks, and is reported
 * twice in one fetch: it is filed as that row's booking and as a new purchase.
 */
module OneChargeTwice {
  import opened Wrappers
  import opened Ynab
  import opened StateDb
  import opened SyncSpec
  import opened Creation
  import opened Classification
  import opened PendingMatch
  import opened Resubmission
  import opened Settlement
  import opened TwoCharges
  import Money

  const ANEW := NewCreate("bank", CARD, OTHER.ntx)
  const TWICE := Cycle([Batch("home", [ANEW])], map[], map["home" := [MOVE]], [])

  /** The first report claims the pending row; for the second one none is left. */
  lemma FiledTwice()
    ensures CycleOf(Shop(Held(), ["K"], OneTxn(5000, Uncleared)), [OTHER, OTHER]) == TWICE
  {
    var ctx := Shop(Held(), ["K"], OneTxn(5000, Uncleared));
    var s1, s2 := SortOne(ctx, "bank", NOTHING_SORTED, OTHER.ntx), SortOne(ctx, "bank", SortedOther(), OTHER.ntx);
    OtherIsSorted();
    AgainIsNew();
    assert [OTHER, OTHER][1..] == [OTHER] && [OTHER][1..] == [];
    hide SortOne;
    assert SortAll(ctx, NOTHING_SORTED, [OTHER, OTHER]) == SortAll(ctx, s1, [OTHER]);
    assert SortAll(ctx, s1, [OTHER]) == SortAll(ctx, s2, []);
  }

  lemma AgainIsNew()
    ensures SortOne(Shop(Held(), ["K"], OneTxn(5000, Uncleared)), "bank", SortedOther(), OTHER.ntx).cycle == TWICE
  {
    var ctx := Shop(Held(), ["K"], OneTxn(5000, Uncleared));
    Windows(Held(), ["K"], OneTxn(5000, Uncleared), OTHER.ntx);
    NothingLeft();
    hide Accepted, PendingRows, ListUnimported, FuzzyMatchFor, NewCreate;
    assert ManualCandidates(ctx, SortedOther().manual, CARD, 20) == (SortedOther().manual, []);
    assert PendingCandidates(ctx, SortedOther().pending, "acct") == (SortedOther().pending, []);
    assert "N"[0] != "K"[0];
    assert Classify(ctx.table, RULES, "bank", CARD, OTHER.ntx, [], []) == New(ANEW);
    hide Classify, ManualCandidates, PendingCandidates;
    var none: seq<Batch<Create>> := [];
    assert AddTo(none, "home", ANEW) == [Batch("home", [ANEW])];
  }

  lemma NothingLeft()
    ensures FuzzyMatchFor(RULES, OTHER.ntx, []) == None
  {
    var booked := BookedCandidate("acct", 5.5, 20, "Grocery");
    Sequences.FilterStep([], (c: PendingCandidate) => PassesFilters(booked, c, OPTIONS));
  }

  // --- what the cycle does ----------------------------------------------------------------------------------------

  /** Both transactions: the preauthorised one and the new one. */
  function Both(amount: int, cleared: ClearedFlag): Ledger {
    OneTxn(amount, cleared) + [Txn("home", "checking", 20, 5500, "Grocery", Cleared, Some("SB1:N"), None, false, false)]
  }

  function Tracked(now: int): Table { Upsert(Held(), "N", CreateFacts("home", ANEW, 1, Booked, 5500, "Grocery"), now) }

  const ANSWER := Reported(1, Some("SB1:N"), None, None, "Grocery")

  lemma AnewShape()
    ensures ANEW.trackingKey == "N" && ANEW.status == Booked && ANEW.secondary == None
    ensures ANEW.payload == Payload("checking", 20, 5500, "Grocery", Cleared, "SB1:N", None)
    ensures FindCreate([ANEW], "SB1:N") == Some(ANEW) && Payloads([ANEW]) == [ANEW.payload]
  {
    Milliunits();
  }

  /** YNAB has nothing to match it with, and creates it. */
  lemma Posted(native: NativeMatcher)
    ensures CreateAll(OneTxn(5000, Uncleared), native, "home", [ANEW.payload])
         == (Both(5000, Uncleared), Response([ANSWER], []))
  {
    AnewShape();
    hide NewCreate, FindCreate, Payloads;
    var l := OneTxn(5000, Uncleared);
    assert "SB1:K"[4] != "SB1:N"[4];
    assert !Burned(l, "home", "SB1:N");
    assert forall o :: !CanMatch(l, o, "home", ANEW.payload);
    assert l + [NewTxn("home", ANEW.payload, None)] == Both(5000, Uncleared);
    assert CreateOne(l, native, "home", ANEW.payload) == (Both(5000, Uncleared), Response([ANSWER], []));
    hide CreateOne;
    var ps := [ANEW.payload];
    assert ps[1..] == []
      && CreateAll(Both(5000, Uncleared), native, "home", []) == (Both(5000, Uncleared), Response([], []));
    var none: seq<string> := [];
    assert [ANSWER] + [] == [ANSWER] && none + none == none;
  }

  lemma RecordedAnew(cfg: Settings, w: World)
    requires w.table == Held() && w.status == Running
    ensures RecordCreated(w, cfg, "home", [ANEW], [ANSWER]) == CountCreated(w.(table := Tracked(w.now)))
  {
    AnewShape();
    hide NewCreate, CreateFacts, FindCreate, Payloads;
    assert [ANSWER][1..] == [];
    var w1 := RecordRow(w, cfg, "home", [ANEW], ANSWER);
    assert w1 == CountCreated(w.(table := Tracked(w.now)));
    hide RecordRow;
    assert RecordCreated(w, cfg, "home", [ANEW], [ANSWER]) == RecordCreated(w1, cfg, "home", [ANEW], []) == w1;
  }

  lemma CreatedAnew(cfg: Settings, now: int)
    ensures var w := Attempt(Held(), OneTxn(5000, Uncleared), [], now);
            SubmitCreates(w, cfg, Batch("home", [ANEW])) == CountDuplicates(
              CountCreated(w.(table := Tracked(now), ledger := Both(5000, Uncleared))), 0)
  {
    var w := Attempt(Held(), OneTxn(5000, Uncleared), [], now);
    var posted := w.(ledger := Both(5000, Uncleared));
    var recorded := CountCreated(posted.(table := Tracked(now)));
    AnewShape();
    Posted(cfg.native);
    RecordedAnew(cfg, posted);
    hide NewCreate, CreateAll, Held, OneTxn, Both, Tracked, Payloads, FindCreate;
    assert PostCreates(w, cfg, "home", Payloads([ANEW])) == (posted, Response([ANSWER], []));
    hide PostCreates, RecordCreated;
    BatchSteps(w, cfg, Batch("home", [ANEW]), posted, Response([ANSWER], []), recorded);
  }

  lemma Moves(cfg: Settings)
    ensures CorrectionsOf(TWICE, "home") == [MOVE] && SinceOf(cfg, [MOVE]) == Some(20 - cfg.backfillDays)
    ensures ListedAlive(Both(5000, Uncleared), "home", 0, Some(20 - cfg.backfillDays))
    ensures Patch(Both(5000, Uncleared), "home", 0, Some(5500), Cleared) == Both(5500, Cleared)
  {
    assert [MOVE][1..] == [];
    var l := Both(5000, Uncleared);
    assert l[0 := l[0].(amount := 5500, cleared := Cleared)] == Both(5500, Cleared);
  }

  lemma MoveBlocked(now: int)
    ensures Blocked(Tracked(now), MOVE) && Rekey(Tracked(now), "K", "N", 5.5) == KeyTaken
  {
    hide CreateFacts;
    assert "K"[0] != "N"[0];
  }

  /** The new key is recorded before the pending row can move there. */
  lemma CorrectedAnew(cfg: Settings, w: World, now: int)
    requires w.table == Tracked(now) && w.ledger == Both(5000, Uncleared) && w.script == [] && w.status == Running
    ensures CorrectBudget(w, cfg, TWICE, "home") == Halt(w.(ledger := Both(5500, Cleared)), DbFailed)
  {
    Moves(cfg);
    Milliunits();
    MoveBlocked(now);
    hide Both, Tracked, CorrectionsOf, SinceOf, ListedAlive, Patch, Money.ToMilliunits, Rekey;
    var since := SinceOf(cfg, [MOVE]);
    var w1 := Correct(w, "home", w.ledger, since, MOVE);
    assert w1 == Halt(w.(ledger := Both(5500, Cleared)), DbFailed) by { MovePatched(w, since, now); }
    hide Correct;
    assert [MOVE][1..] == [];
    assert CorrectAll(w, "home", w.ledger, since, [MOVE]) == CorrectAll(w1, "home", w.ledger, since, []) == w1;
  }

  lemma MovePatched(w: World, since: Option<int>, now: int)
    requires w.table == Tracked(now) && w.ledger == Both(5000, Uncleared) && w.script == [] && w.status == Running
    requires ListedAlive(w.ledger, "home", 0, since)
    requires Patch(Both(5000, Uncleared), "home", 0, Some(5500), Cleared) == Both(5500, Cleared)
    ensures Correct(w, "home", w.ledger, since, MOVE) == Halt(w.(ledger := Both(5500, Cleared)), DbFailed)
  {
    Milliunits();
    MoveBlocked(now);
    hide Both, Tracked, Patch, Money.ToMilliunits, Rekey;
  }

  lemma FirstFails(cfg: Settings, now: int)
    ensures var w := Submit(Attempt(Held(), OneTxn(5000, Uncleared), [], now), cfg, TWICE, ["home"]);
            w.status == DbFailed && w.table == Tracked(now) && w.ledger == Both(5500, Cleared)
  {
    hide Held, OneTxn, Tracked, Both, SubmitCreates, CorrectBudget, NewCreate, Submit;
    var w0 := Attempt(Held(), OneTxn(5000, Uncleared), [], now);
    CreatedAnew(cfg, now);
    var w1 := SubmitCreates(w0, cfg, Batch("home", [ANEW]));
    CorrectedAnew(cfg, w1, now);
    CreatesThenCorrections(w0, cfg, Batch("home", [ANEW]), map[], map["home" := [MOVE]], "home");
  }

  lemma BothShow()
    ensures Visible(Both(5500, Cleared), 0) && Both(5500, Cleared)[0].amount == 5500
    ensures Visible(Both(5500, Cleared), 1) && Both(5500, Cleared)[1].amount == 5500
    ensures Fuzzy(TWICE, "home", MOVE)
  {
  }

  /**
   * The charge settles the pending row by its looks and is reported twice.  Its first submission, in which every call
   * works, fails, as does every later one; the charge stands in YNAB twice, over 5.50 each.
   */
  lemma OneChargeTwoTransactions(cfg: Settings, now: int, tries: seq<Try>)
    requires tries != [] && forall t :: t in tries ==> VisitsCorrected(TWICE, t.budgets)
    ensures var cycle := CycleOf(Shop(Held(), ["K"], OneTxn(5000, Uncleared)), [OTHER, OTHER]);
            var w := Submit(Attempt(Held(), OneTxn(5000, Uncleared), [], now), cfg, cycle, ["home"]);
            && w.status == DbFailed
            && Visible(w.ledger, 0) && w.ledger[0].amount == 5500 && Visible(w.ledger, 1) && w.ledger[1].amount == 5500
            && AfterTries(cfg, cycle, w, tries).status != Running
  {
    FiledTwice();
    FirstFails(cfg, now);
    MoveBlocked(now);
    OwnRowsApart();
    BothShow();
    hide *;
    BlockedNeverCompletes(cfg, TWICE, Submit(Attempt(Held(), OneTxn(5000, Uncleared), [], now), cfg, TWICE, ["home"]),
                          tries, "home", MOVE);
  }

  lemma OwnRowsApart()
    ensures RowsApart(TWICE)
  {
    AnewShape();
    hide NewCreate, FindCreate, Payloads;
    assert "K"[0] != "N"[0];
    assert forall b, d :: Fuzzy(TWICE, b, d) ==> b == "home" && d == MOVE;
    forall b, c | c in CorrectionsOf(TWICE, b) ensures c == MOVE {
      PlainOrFuzzy(TWICE, b, c);
    }
  }
}
