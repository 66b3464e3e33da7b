/**
 * What the two legs of a linked transfer are in YNAB and in the table once
 * the submitted leg is created, whatever becomes of the call that clears the
 * other one.
 */
module LinkedTransfers {
  import opened Wrappers
  import opened Ynab
  import opened StateDb
  import opened SyncSpec
  import opened Classification
  import opened Creation
  import opened Provenance
  import opened Searches
  import opened TransferLinking
  import Money
  import PendingMatch
  import Readd

  /** The row under this key is for this transaction, over the amount and the flag given. */
  ghost predicate Records(w: World, key: string, id: nat, account: string, amount: int, cleared: ClearedFlag) {
    && key in w.table && id < |w.ledger|
    && var r := w.table[key];
       && r.facts.txnId == id && r.facts.ynabAccount == account && r.amountMilliunits == amount
       && r.facts.cleared == cleared
  }

  /** And YNAB shows the same. */
  ghost predicate AgreesOn(w: World, key: string, id: nat, account: string, amount: int, cleared: ClearedFlag) {
    && Records(w, key, id, account, amount, cleared)
    && var t := w.ledger[id]; IsVisible(t) && t.account == account && t.amount == amount && t.cleared == cleared
  }

  /** A pending leg is left alone; a booked one is cleared if the call works, or only its answer is lost. */
  predicate ClearedIfAsked(s: Create, fault: Fault) { s.status != Booked || fault == Works || fault == LostAfter }

  lemma TransferIsCreated(l: Ledger, native: NativeMatcher, budget: string, p: Create)
    requires p.secondary.Some? && GoodLink(p) && !Burned(l, budget, p.payload.importId)
    ensures var (l', r) := CreateOne(l, native, budget, p.payload);
            var s := p.secondary.value.payload;
            && l' == l + [NewTxn(budget, p.payload, None),
                          Txn(budget, s.account, p.payload.date, s.amount, p.payload.payee, Uncleared, None, None, false,
                              false)]
            && r == Response([Reported(|l|, Some(p.payload.importId), None, Some(|l| + 1), p.payload.payee)], [])
  {
  }

  lemma RecordedAt(w: World, key: string, facts: Facts, amount: int)
    requires facts.amount == Money.FromMilliunits(amount)
    ensures var t := Record(w, key, facts).table;
            && key in t && t[key].facts == facts && t[key].amountMilliunits == amount
            && forall k :: k != key && k in w.table ==> k in t && t[k] == w.table[k]
  {
    Money.MilliunitsRoundTrip(amount);
    hide Money.FromMilliunits, Money.ToMilliunits;
  }

  /** Uncleared, over the amount of this leg, as YNAB adds it. */
  ghost predicate AddedByYnab(l: Ledger, budget: string, id: nat, s: Create) {
    && CanPatch(l, budget, id) && IsVisible(l[id]) && l[id].cleared == Uncleared
    && l[id].amount == s.payload.amount && l[id].account == s.payload.account
  }

  /** What clearing the added leg leaves of the stores. */
  lemma ClearingCall(w: World, budget: string, id: nat, s: Create, fault: Fault)
    requires w.script == [fault] && w.status == Running && AddedByYnab(w.ledger, budget, id, s)
    ensures var w' := WriteUnless400(w, Patch(w.ledger, budget, id, Some(s.payload.amount), Cleared));
            && w'.table == w.table
            && (w'.status == Running <==> fault == Works || fault == BadRequest)
            && w'.ledger == if fault == Works || fault == LostAfter then w.ledger[id := w.ledger[id].(cleared := Cleared)]
                            else w.ledger
  {
  }

  /** Nothing changes but the row of the added leg and the transaction at its id. */
  ghost predicate OnlyLeg(w: World, w': World, key: string, id: nat) {
    && (forall k :: k != key && k in w.table ==> k in w'.table && w'.table[k] == w.table[k])
    && |w'.ledger| == |w.ledger| && forall i :: 0 <= i < |w.ledger| && i != id ==> w'.ledger[i] == w.ledger[i]
  }

  ghost function FlagOf(s: Create): ClearedFlag { if s.status == Booked then Cleared else Uncleared }

  /** The leg that YNAB added is cleared only if it is booked and the call arrives; its row says cleared if it is booked. */
  lemma OtherLegRecorded(w: World, cfg: Settings, budget: string, s: Create, row: Reported, fault: Fault)
    requires w.script == [fault] && w.status == Running && s.status != Deleted
    requires row.transferId.Some? && AddedByYnab(w.ledger, budget, row.transferId.value, s)
    ensures var w', id := RecordSecondary(w, cfg, budget, s, row), row.transferId.value;
            && Records(w', s.trackingKey, id, s.payload.account, s.payload.amount, FlagOf(s))
            && w'.table[s.trackingKey].facts.status == s.status
            && (AgreesOn(w', s.trackingKey, id, s.payload.account, s.payload.amount, FlagOf(s))
                <==> ClearedIfAsked(s, fault))
            && (w'.status == Running <==> s.status != Booked || fault == Works || fault == BadRequest)
            && OnlyLeg(w, w', s.trackingKey, id)
  {
    var id := row.transferId.value;
    var facts := SecondaryFacts(cfg, budget, s, id, row.payee);
    var tracked := CountCreated(Record(w, s.trackingKey, facts));
    RecordedAt(w, s.trackingKey, facts, s.payload.amount);
    ClearingCall(tracked, budget, id, s, fault);
    hide Money.FromMilliunits, Record, SecondaryImportId, WriteUnless400, Patch;
  }

  lemma RowIsRecorded(w: World, cfg: Settings, budget: string, p: Create, row: Reported)
    requires row.importId == Some(p.payload.importId) && row.matched.None? && p.secondary.Some?
    ensures var payee := PayeeOr(p.payload.payee, row.payee);
            var facts := CreateFacts(budget, p, row.id, p.status, p.payload.amount, payee);
            RecordRow(w, cfg, budget, [p], row)
              == RecordSecondary(CountCreated(Record(w, p.trackingKey, facts)), cfg, budget, p.secondary.value, row)
  {
    assert FindCreate([p], p.payload.importId) == Some(p);
    hide FindCreate, Record, RecordSecondary, CreateFacts;
  }

  /** One create, no duplicates: its row is all there is to record. */
  lemma OneRowRecorded(w: World, cfg: Settings, budget: string, p: Create, posted: World, r: Response)
    requires PostCreates(w, cfg, budget, [p.payload]) == (posted, r) && posted.status == Running
    requires |r.rows| == 1 && r.duplicates == []
    ensures SubmitCreates(w, cfg, Batch(budget, [p])) == RecordRow(posted, cfg, budget, [p], r.rows[0])
  {
    assert Payloads([p]) == [p.payload];
    hide PostCreates, RecordRow;
    var recorded := RecordRow(posted, cfg, budget, [p], r.rows[0]);
    assert r.rows[1..] == [];
    assert RecordCreated(recorded, cfg, budget, [p], r.rows[1..]) == recorded;
    assert RecordCreated(posted, cfg, budget, [p], r.rows) == recorded;
    if recorded.status == Running {
      BatchSteps(w, cfg, Batch(budget, [p]), posted, r, recorded);
    }
  }

  /**
   * A new transfer: the row of the submitted leg agrees with its transaction.  The row of the other leg, which YNAB
   * adds uncleared, agrees with it if and only if that leg is pending or the call that clears it arrives.
   */
  lemma TransferMirrorsIff(w: World, cfg: Settings, budget: string, p: Create, fault: Fault)
    requires w.script == [Works, fault] && w.status == Running && p.secondary.Some? && GoodLink(p)
    requires p.secondary.value.status != Deleted && p.secondary.value.trackingKey != p.trackingKey
    requires !Burned(w.ledger, budget, p.payload.importId)
    ensures var w' := SubmitCreates(w, cfg, Batch(budget, [p]));
            var s := p.secondary.value;
            var flag := if s.status == Booked then Cleared else Uncleared;
            && AgreesOn(w', p.trackingKey, |w.ledger|, p.payload.account, p.payload.amount, p.payload.cleared)
            && Records(w', s.trackingKey, |w.ledger| + 1, s.payload.account, s.payload.amount, flag)
            && w'.table[s.trackingKey].facts.status == s.status
            && (AgreesOn(w', s.trackingKey, |w.ledger| + 1, s.payload.account, s.payload.amount, flag)
                <==> ClearedIfAsked(s, fault))
            && (w'.status == Running <==> s.status != Booked || fault == Works || fault == BadRequest)
  {
    var s, id := p.secondary.value, |w.ledger|;
    var (l', r) := CreateOne(w.ledger, cfg.native, budget, p.payload);
    var posted := w.(ledger := l', script := [fault]);
    TransferIsCreated(w.ledger, cfg.native, budget, p);
    Readd.OneCreateAnswers(w.ledger, cfg.native, budget, p.payload);
    PostedFirst(w, cfg, budget, p, posted, r, fault);
    OneRowRecorded(w, cfg, budget, p, posted, r);
    BothLegsRecorded(posted, cfg, budget, p, r.rows[0], fault);
    hide SubmitCreates, CreateOne, CreateAll, RecordRow, AgreesOn, Records;
  }

  /** The row of the submitted leg, then that of the other one. */
  lemma BothLegsRecorded(w: World, cfg: Settings, budget: string, p: Create, row: Reported, fault: Fault)
    requires w.script == [fault] && w.status == Running && p.secondary.Some?
    requires p.secondary.value.status != Deleted && p.secondary.value.trackingKey != p.trackingKey
    requires row.importId == Some(p.payload.importId) && row.matched.None?
    requires row.id < |w.ledger| && w.ledger[row.id] == NewTxn(budget, p.payload, None)
    requires row.transferId.Some? && row.transferId.value != row.id
    requires AddedByYnab(w.ledger, budget, row.transferId.value, p.secondary.value)
    ensures var w' := RecordRow(w, cfg, budget, [p], row);
            var s := p.secondary.value;
            && AgreesOn(w', p.trackingKey, row.id, p.payload.account, p.payload.amount, p.payload.cleared)
            && Records(w', s.trackingKey, row.transferId.value, s.payload.account, s.payload.amount, FlagOf(s))
            && w'.table[s.trackingKey].facts.status == s.status
            && (AgreesOn(w', s.trackingKey, row.transferId.value, s.payload.account, s.payload.amount, FlagOf(s))
                <==> ClearedIfAsked(s, fault))
            && (w'.status == Running <==> s.status != Booked || fault == Works || fault == BadRequest)
  {
    var facts := CreateFacts(budget, p, row.id, p.status, p.payload.amount, PayeeOr(p.payload.payee, row.payee));
    var tracked := CountCreated(Record(w, p.trackingKey, facts));
    RecordedAt(w, p.trackingKey, facts, p.payload.amount);
    assert tracked.ledger == w.ledger;
    assert AgreesOn(tracked, p.trackingKey, row.id, p.payload.account, p.payload.amount, p.payload.cleared);
    OtherLegRecorded(tracked, cfg, budget, p.secondary.value, row, fault);
    RowIsRecorded(w, cfg, budget, p, row);
    hide RecordSecondary, RecordRow, Record, CreateFacts, AddedByYnab;
  }

  lemma PostedFirst(w: World, cfg: Settings, budget: string, p: Create, posted: World, r: Response, fault: Fault)
    requires w.script == [Works, fault] && posted == w.(ledger := posted.ledger, script := [fault])
    requires CreateAll(w.ledger, cfg.native, budget, [p.payload]) == (posted.ledger, r)
    ensures PostCreates(w, cfg, budget, [p.payload]) == (posted, r)
  {
    hide CreateAll;
    assert w.script[1..] == [fault];
  }

  // --- for good -----------------------------------------------------------------------------------------------------

  /** The same create submitted again, whatever its calls do, changes neither store. */
  lemma ResubmissionChangesNothing(w: World, cfg: Settings, budget: string, p: Create)
    requires Burned(w.ledger, budget, p.payload.importId) && p.trackingKey in w.table && w.status == Running
    ensures var w' := SubmitCreates(w, cfg, Batch(budget, [p])); w'.ledger == w.ledger && w'.table == w.table
  {
    assert Payloads([p]) == [p.payload];
    ResubmittedBatch(w.ledger, cfg.native, budget, [p.payload]);
    hide CreateAll, Burned;
    var (posted, r) := PostCreates(w, cfg, budget, [p.payload]);
    assert posted.ledger == w.ledger && posted.table == w.table && r.rows == [];
    hide PostCreates;
    if posted.status == Running {
      assert RecordCreated(posted, cfg, budget, [p], r.rows) == posted;
      BatchSteps(w, cfg, Batch(budget, [p]), posted, r, posted);
      NothingToBackfill(CountDuplicates(posted, |r.duplicates|), cfg, budget, [p], r.duplicates);
    }
    hide Backfill;
  }

  lemma {:induction false} TriesChangeNothing(w: World, cfg: Settings, budget: string, p: Create, tries: seq<Try>)
    requires Burned(w.ledger, budget, p.payload.importId) && p.trackingKey in w.table
    requires forall t :: t in tries ==> t.budgets == []
    ensures var w' := AfterTries(cfg, Cycle([Batch(budget, [p])], map[], map[], []), w, tries);
            w'.ledger == w.ledger && w'.table == w.table
    decreases |tries|
  {
    hide Burned, SubmitCreates;
    if tries != [] {
      var t, batch := tries[0], Batch(budget, [p]);
      assert t in tries && forall u :: u in tries[1..] ==> u in tries;
      var start := Attempt(w.table, w.ledger, t.script, t.now);
      OnlyCreates(start, cfg, batch);
      ResubmissionChangesNothing(start, cfg, budget, p);
      hide Submit;
      TriesChangeNothing(Submit(start, cfg, Cycle([batch], map[], map[], []), t.budgets), cfg, budget, p, tries[1..]);
    }
  }

  /** No later cycle corrects a BOOKED row, so a leg that stayed uncleared under one stays so. */
  lemma BookedIsNeverCorrected(ctx: Context, feed: Feed, key: string)
    requires key in ctx.table && ctx.table[key].facts.status == Booked
    ensures forall b, c :: c in CorrectionsOf(CycleOf(ctx, feed), b) ==> FinalKey(c) != key && c.oldKey != key
  {
    CycleComesFromReports(ctx, feed);
    hide CycleOf, CorrectionsOf, PendingMatch.CloseEnough, PendingMatch.PayeesAgree;
    forall b, c | c in CorrectionsOf(CycleOf(ctx, feed), b) ensures FinalKey(c) != key && c.oldKey != key {
      var f :| f in feed && Corrected(ctx, f, b, c);
    }
  }
}
