/**
 * A purchase that settled a pending row by its looks keeps that row's
 * import_id in YNAB.  If the local tables are lost, the next fetch imports it
 * again under its own.
 */
module LostTransition {
  import opened Wrappers
  import opened Ynab
  import opened StateDb
  import opened SyncSpec
  import opened Creation
  import opened Classification
  import opened RowRecords
  import opened TrackedKeys
  import opened UntouchedImports
  import opened TwoCharges
  import opened OneChargeTwice
  import Money

  // --- when a purchase that is in YNAB comes a second time ----------------------------------------------------------

  /**
   * A purchase stands in YNAB as an import of some other id.  With nothing tracked, its create adds a second
   * transaction for it if and only if its own import_id is free.
   */
  lemma ComesBackIffIdFree(l: Ledger, cfg: Settings, budget: string, p: Create, id: nat, now: int)
    requires p.secondary.None? && Visible(l, id) && l[id].importId.Some?
    ensures var w := SubmitCreates(Attempt(map[], l, [], now), cfg, Batch(budget, [p]));
            && w.status == Running && Visible(w.ledger, id) && w.ledger[id] == l[id]
            && ((exists n :: |l| <= n < |w.ledger| && Holds(w.ledger[n], budget, p.payload.importId)
                             && w.ledger[n].amount == p.payload.amount)
                <==> !Burned(l, budget, p.payload.importId))
  {
    var w0, batch := Attempt(map[], l, [], now), Batch(budget, [p]);
    var w := SubmitCreates(w0, cfg, batch);
    FaultFreeBatch(w0, cfg, batch);
    assert NoSecondaries([p]);
    BatchKeepsImports(w0, cfg, batch);
    if Burned(l, budget, p.payload.importId) {
      assert BatchBurned(l, batch);
      BurnedBatchKeepsRows(w0, cfg, batch);
    } else {
      var (posted, r) := PostCreates(w0, cfg, budget, Payloads([p]));
      assert Payloads([p]) == [p.payload];
      hide SubmitCreates, Burned;
      CreatedAlone(l, cfg.native, budget, p.payload);
      assert posted.ledger == CreateAll(l, cfg.native, budget, [p.payload]).0;
      assert w.ledger[|l|] == posted.ledger[|l|];
    }
  }

  lemma CreatedAlone(l: Ledger, native: NativeMatcher, budget: string, p: Payload)
    requires !Burned(l, budget, p.importId)
    ensures var l' := CreateAll(l, native, budget, [p]).0;
            |l| < |l'| && Holds(l'[|l|], budget, p.importId) && l'[|l|].amount == p.amount
  {
    assert [p][1..] == [];
  }

  /** A batch whose calls all work goes through. */
  lemma FaultFreeBatch(w: World, cfg: Settings, batch: Batch<Create>)
    requires w.script == [] && w.status == Running
    ensures SubmitCreates(w, cfg, batch).status == Running
  {
    var (posted, r) := PostCreates(w, cfg, batch.budget, Payloads(batch.items));
    assert posted.script == [] && posted.status == Running by { hide CreateAll; }
    FaultFreeRecording(posted, cfg, batch.budget, batch.items, r.rows);
    hide RecordCreated, PostCreates, Backfill;
    var recorded := RecordCreated(posted, cfg, batch.budget, batch.items, r.rows);
    FaultFreeBackfill(CountDuplicates(recorded, |r.duplicates|), cfg, batch.budget, batch.items, r.duplicates);
  }

  predicate Smooth(w: World) { w.script == [] && w.status == Running }

  lemma {:induction false} FaultFreeRecording(w: World, cfg: Settings, budget: string, creates: seq<Create>,
                                              rows: seq<Reported>)
    requires Smooth(w)
    ensures Smooth(RecordCreated(w, cfg, budget, creates, rows))
    decreases |rows|
  {
    if rows != [] {
      FaultFreeRow(w, cfg, budget, creates, rows[0]);
      hide RecordRow;
      FaultFreeRecording(RecordRow(w, cfg, budget, creates, rows[0]), cfg, budget, creates, rows[1..]);
    }
  }

  lemma FaultFreeRow(w: World, cfg: Settings, budget: string, creates: seq<Create>, row: Reported)
    requires Smooth(w)
    ensures Smooth(RecordRow(w, cfg, budget, creates, row))
  {
    hide FindCreate, CreateFacts, SecondaryFacts, Upsert, Patch;
  }

  lemma {:induction false} FaultFreeBackfill(w: World, cfg: Settings, budget: string, creates: seq<Create>,
                                             ids: seq<string>)
    requires Smooth(w)
    ensures Smooth(Backfill(w, cfg, budget, creates, ids))
    decreases |ids|
  {
    if ids != [] {
      hide FindCreate, LookUp, LookUpGone, Upsert;
      assert Smooth(BackfillOne(w, cfg, budget, creates, ids[0]));
      hide BackfillOne;
      FaultFreeBackfill(BackfillOne(w, cfg, budget, creates, ids[0]), cfg, budget, creates, ids[1..]);
    }
  }

  // --- a purchase that does -----------------------------------------------------------------------------------------

  const MOVED := Cycle([], map[], map["home" := [MOVE]], [])
  const ALONE := Cycle([Batch("home", [ANEW])], map[], map[], [])

  /** The charge settles the pending row. */
  lemma ChargeMoves()
    ensures CycleOf(Shop(Held(), ["K"], OneTxn(5000, Uncleared)), [OTHER]) == MOVED
  {
    var ctx := Shop(Held(), ["K"], OneTxn(5000, Uncleared));
    OtherIsSorted();
    hide SortOne;
    assert [OTHER][1..] == [];
    assert SortAll(ctx, NOTHING_SORTED, [OTHER]) == SortAll(ctx, SortOne(ctx, "bank", NOTHING_SORTED, OTHER.ntx), []);
  }

  /** With the tables lost it is new. */
  lemma ChargeIsNew()
    ensures CycleOf(Shop(map[], [], OneTxn(5500, Cleared)), [OTHER]) == ALONE
  {
    var ctx := Shop(map[], [], OneTxn(5500, Cleared));
    Windows(map[], [], OneTxn(5500, Cleared), OTHER.ntx);
    NothingTyped(5500, Cleared, -10);
    NothingLeft();
    hide Accepted, PendingRows, ListUnimported, FuzzyMatchFor, NewCreate;
    assert ManualCandidates(ctx, map[], CARD, 20) == (map["checking" := (-10, [])], []);
    assert PendingRows(map[], [], "acct", 0) == [];
    assert PendingCandidates(ctx, map[], "acct") == (map["acct" := []], []);
    assert Classify(map[], RULES, "bank", CARD, OTHER.ntx, [], []) == New(ANEW);
    hide Classify, ManualCandidates, PendingCandidates;
    var none: seq<Batch<Create>> := [];
    assert AddTo(none, "home", ANEW) == [Batch("home", [ANEW])];
    assert SortOne(ctx, "bank", NOTHING_SORTED, OTHER.ntx).cycle == ALONE;
    hide SortOne;
    assert [OTHER][1..] == [];
    assert SortAll(ctx, NOTHING_SORTED, [OTHER]) == SortAll(ctx, SortOne(ctx, "bank", NOTHING_SORTED, OTHER.ntx), []);
  }

  lemma MoveGoesThrough(cfg: Settings, now: int)
    ensures var w := Submit(Attempt(Held(), OneTxn(5000, Uncleared), [], now), cfg, MOVED, ["home"]);
            && w.status == Running && w.ledger == OneTxn(5500, Cleared)
            && "N" in w.table && w.table["N"].facts.status == Booked && w.table["N"].facts.importId == "SB1:K"
  {
    var w0 := Attempt(Held(), OneTxn(5000, Uncleared), [], now);
    var since := Some(20 - cfg.backfillDays);
    Milliunits();
    MoveTargets(cfg);
    Corrects(cfg, w0, w0.ledger, MOVE, 5000, Uncleared);
    MoveSettles(w0.(ledger := OneTxn(5500, Cleared)));
    hide OneTxn, Held, CorrectionsOf, SinceOf, Correct, Settle, Money.ToMilliunits;
    var w1 := Correct(w0, "home", w0.ledger, since, MOVE);
    assert [MOVE][1..] == [];
    assert CorrectAll(w0, "home", w0.ledger, since, [MOVE]) == CorrectAll(w1, "home", w0.ledger, since, []) == w1;
    hide CorrectAll;
    assert CorrectBudget(w0, cfg, MOVED, "home") == w1;
    OnlyCorrections(w0, cfg, map[], map["home" := [MOVE]], "home");
  }

  lemma MoveTargets(cfg: Settings)
    ensures CorrectionsOf(MOVED, "home") == [MOVE] && SinceOf(cfg, [MOVE]) == Some(20 - cfg.backfillDays)
  {
  }

  lemma MoveSettles(w: World)
    requires w.table == Held() && w.status == Running
    ensures var w' := Settle(w, MOVE);
            && w'.status == Running && w'.ledger == w.ledger
            && "N" in w'.table && w'.table["N"].facts.status == Booked && w'.table["N"].facts.importId == "SB1:K"
  {
    assert "K"[0] != "N"[0];
    hide Money.ToMilliunits;
  }

  /** Nothing in the ledger can be matched with it, and its own import_id is free. */
  lemma AnewPosted(cfg: Settings, now: int)
    ensures var w0 := Attempt(map[], OneTxn(5500, Cleared), [], now);
           
            && PostCreates(w0, cfg, "home", Payloads([ANEW])) == (w0.(ledger := Both(5500, Cleared)), Response([ANSWER], []))
  {
    var l := OneTxn(5500, Cleared);
    AnewShape();
    hide NewCreate, FindCreate, Payloads;
    assert "SB1:K"[4] != "SB1:N"[4];
    assert !Burned(l, "home", "SB1:N");
    assert forall o :: !CanMatch(l, o, "home", ANEW.payload);
    assert l + [NewTxn("home", ANEW.payload, None)] == Both(5500, Cleared);
    assert CreateOne(l, cfg.native, "home", ANEW.payload) == (Both(5500, Cleared), Response([ANSWER], []));
    hide CreateOne;
    var ps := [ANEW.payload];
    assert ps[1..] == []
      && CreateAll(Both(5500, Cleared), cfg.native, "home", []) == (Both(5500, Cleared), Response([], []));
    var none: seq<string> := [];
    assert [ANSWER] + [] == [ANSWER] && none + none == none;
    assert CreateAll(l, cfg.native, "home", ps) == (Both(5500, Cleared), Response([ANSWER], []));
  }

  lemma ChargeImported(cfg: Settings, now: int)
    ensures var w := Submit(Attempt(map[], OneTxn(5500, Cleared), [], now), cfg, ALONE, []);
            w.status == Running && w.ledger == Both(5500, Cleared)
  {
    var w0, batch := Attempt(map[], OneTxn(5500, Cleared), [], now), Batch("home", [ANEW]);
    AnewShape();
    AnewPosted(cfg, now);
    FaultFreeBatch(w0, cfg, batch);
    hide NewCreate, CreateAll, OneTxn, Both, Payloads, FindCreate, SubmitCreates, RecordCreated, PostCreates, Submit;
    assert NoSecondaries([ANEW]);
    BatchKeepsImports(w0, cfg, batch);
    RecordingAnewKeepsLedger(cfg, w0.(ledger := Both(5500, Cleared)));
    OnlyCreates(w0, cfg, batch);
  }

  lemma RecordingAnewKeepsLedger(cfg: Settings, w: World)
    requires w.status == Running
    ensures RecordCreated(w, cfg, "home", [ANEW], [ANSWER]).ledger == w.ledger
  {
    AnewShape();
    hide NewCreate, CreateFacts, FindCreate, Payloads;
    assert [ANSWER][1..] == [];
    var w1 := RecordRow(w, cfg, "home", [ANEW], ANSWER);
    assert w1.ledger == w.ledger;
    hide RecordRow;
    assert RecordCreated(w, cfg, "home", [ANEW], [ANSWER]) == RecordCreated(w1, cfg, "home", [ANEW], []) == w1;
  }

  /**
   * A booked charge settles a pending row by its looks, without any fault; the tables are lost, and the next fetch
   * reports the charge again: two visible transactions stand for it, over 5.50 each.
   */
  lemma LostTransitionIsImportedAgain(cfg: Settings, now: int)
    ensures var first := CycleOf(Shop(Held(), ["K"], OneTxn(5000, Uncleared)), [OTHER]);
            var w1 := Submit(Attempt(Held(), OneTxn(5000, Uncleared), [], now), cfg, first, ["home"]);
            var second := CycleOf(Shop(map[], [], w1.ledger), [OTHER]);
            var w2 := Submit(Attempt(map[], w1.ledger, [], now), cfg, second, []);
            && w1.status == w2.status == Running
            && OTHER.ntx.trackingKey in w1.table && w1.table[OTHER.ntx.trackingKey].facts.status == Booked
            && Visible(w2.ledger, 0) && w2.ledger[0].amount == 5500 && Visible(w2.ledger, 1)
            && w2.ledger[1].amount == 5500
  {
    ChargeMoves();
    MoveGoesThrough(cfg, now);
    ChargeIsNew();
    ChargeImported(cfg, now);
    BothShow();
    assert OTHER.ntx.trackingKey == "N";
    hide *;
  }
}
