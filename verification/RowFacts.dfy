/**
 * Facts about tracked rows that survive the phases of submit(): whatever
 * holds of every row, of what the cycle would record, and of a settled row,
 * still holds after them, on any script.
 */
module RowFacts {
  import opened Wrappers
  import opened Ynab
  import opened StateDb
  import opened SyncSpec
  import opened Money
  import DateWindow

  type RowProperty = (string, Row) -> bool

  /** Both amount columns agree in every row, and each has the property. */
  ghost predicate AllRows(t: Table, has: RowProperty) {
    forall k :: k in t ==> AmountsAgree(t[k]) && has(k, t[k])
  }

  lemma RowHas(t: Table, key: string, has: RowProperty)
    requires AllRows(t, has)
    ensures key in t ==> has(key, t[key])
  {
    hide AmountsAgree;
  }

  /** The same of a run whose writes are stamped `now`. */
  ghost predicate RowsHave(w: World, now: int, has: RowProperty) {
    w.now == now && AllRows(w.table, has)
  }

  /** An upsert of these facts, over no row or over one that has the property, leaves a row that has it. */
  ghost predicate RecordingKeeps(now: int, key: string, facts: Facts, has: RowProperty) {
    && has(key, Row(facts, ToMilliunits(facts.amount), now, 0))
    && forall r: Row :: has(key, r) ==>
         has(key, Row(facts, ToMilliunits(facts.amount), r.firstSeenAt, r.readdCount))
  }

  /** As reported, or found deleted; an amount of YNAB's own is recorded only for what is still there. */
  ghost predicate MayRecord(p: Create, status: BookingStatus, amount: int, payee: string) {
    && (status == p.status || (status == Deleted && amount == p.payload.amount))
    && (p.payload.payee != "" ==> payee == p.payload.payee)
  }

  ghost predicate CreateHas(cfg: Settings, budget: string, p: Create, now: int, has: RowProperty) {
    && (forall txnId, status, amount, payee ::
          MayRecord(p, status, amount, payee) ==>
          RecordingKeeps(now, p.trackingKey, CreateFacts(budget, p, txnId, status, amount, payee), has))
    && (p.secondary.Some? ==> SecondaryHas(cfg, budget, p.secondary.value, now, has))
  }

  ghost predicate SecondaryHas(cfg: Settings, budget: string, s: Create, now: int, has: RowProperty) {
    forall txnId, payee :: RecordingKeeps(now, s.trackingKey, SecondaryFacts(cfg, budget, s, txnId, payee), has)
  }

  /** Of several creates with one import_id only the last is ever recorded. */
  ghost predicate CreatesHave(cfg: Settings, budget: string, creates: seq<Create>, now: int, has: RowProperty) {
    forall id: string :: FindCreate(creates, id).Some? ==> CreateHas(cfg, budget, FindCreate(creates, id).value, now, has)
  }

  /** Settling a row, in place or under a new key, keeps the property. */
  ghost predicate SettlingKeeps(c: Correction, has: RowProperty) {
    forall row: Row :: has(c.oldKey, row) ==>
      has(FinalKey(c), Settled(row, c.newAmount))
  }

  ghost predicate MatchesHave(budget: string, matches: seq<ManualMatch>, now: int, has: RowProperty) {
    forall p, txnId :: p in matches ==> RecordingKeeps(now, p.trackingKey, MatchFacts(budget, p, txnId), has)
  }

  lemma RecordKeeps(w: World, key: string, facts: Facts, now: int, has: RowProperty)
    requires RowsHave(w, now, has) && RecordingKeeps(now, key, facts, has)
    ensures RowsHave(Record(w, key, facts), now, has)
  {
    hide ToMilliunits;
  }

  lemma CallsKeepTable(w: World, l: Ledger)
    ensures Write(w, l).table == WriteUnless400(w, l).table == Read(w).table == w.table
    ensures Write(w, l).now == WriteUnless400(w, l).now == Read(w).now == w.now
  {
  }

  lemma TrackNativeKeeps(w: World, key: string, facts: Facts, now: int, has: RowProperty)
    requires RowsHave(w, now, has) && RecordingKeeps(now, key, facts, has)
    ensures RowsHave(TrackNativeMatch(w, key, facts), now, has)
  {
    RecordKeeps(w, key, facts, now, has);
    CallsKeepTable(Record(w, key, facts), Patch(w.ledger, facts.budget, facts.txnId, None, Uncleared));
    hide AllRows, Record, WriteUnless400, Patch;
  }

  lemma SecondaryKeeps(w: World, cfg: Settings, budget: string, secondary: Create, row: Reported, now: int, has: RowProperty)
    requires RowsHave(w, now, has) && SecondaryHas(cfg, budget, secondary, now, has)
    ensures RowsHave(RecordSecondary(w, cfg, budget, secondary, row), now, has)
  {
    hide AllRows, Record, WriteUnless400, Patch, CreateFacts, SecondaryImportId, ClearedFor;
    if row.transferId.Some? {
      var facts := SecondaryFacts(cfg, budget, secondary, row.transferId.value, row.payee);
      assert RecordingKeeps(now, secondary.trackingKey, facts, has);
      RecordKeeps(w, secondary.trackingKey, facts, now, has);
      CallsKeepTable(CountCreated(Record(w, secondary.trackingKey, facts)),
                     Patch(w.ledger, budget, row.transferId.value, Some(secondary.payload.amount), Cleared));
    }
  }

  lemma RecordRowKeeps(w: World, cfg: Settings, budget: string, creates: seq<Create>, row: Reported, now: int, has: RowProperty)
    requires RowsHave(w, now, has) && CreatesHave(cfg, budget, creates, now, has)
    ensures RowsHave(RecordRow(w, cfg, budget, creates, row), now, has)
  {
    hide AllRows, Record, CreateFacts, RecordSecondary, TrackNativeMatch, FindCreate, SecondaryHas;
    if row.importId.Some? && FindCreate(creates, row.importId.value).Some? {
      var p := FindCreate(creates, row.importId.value).value;
      var payee := PayeeOr(p.payload.payee, row.payee);
      assert CreateHas(cfg, budget, p, now, has);
      if p.secondary.None? && row.matched.Some? {
        TrackNativeKeeps(CountUpdated(w), p.trackingKey,
                         CreateFacts(budget, p, row.matched.value, p.status, p.payload.amount, payee), now, has);
      } else {
        var facts := CreateFacts(budget, p, row.id, p.status, p.payload.amount, payee);
        RecordKeeps(w, p.trackingKey, facts, now, has);
        if p.secondary.Some? {
          SecondaryKeeps(CountCreated(Record(w, p.trackingKey, facts)), cfg, budget, p.secondary.value, row, now, has);
        }
      }
    }
  }

  lemma {:induction false} RecordCreatedKeeps(w: World, cfg: Settings, budget: string, creates: seq<Create>,
                                              rows: seq<Reported>, now: int, has: RowProperty)
    requires RowsHave(w, now, has) && CreatesHave(cfg, budget, creates, now, has)
    ensures RowsHave(RecordCreated(w, cfg, budget, creates, rows), now, has)
    decreases |rows|
  {
    hide AllRows, CreatesHave, RecordRow;
    if rows != [] && w.status == Running {
      RecordRowKeeps(w, cfg, budget, creates, rows[0], now, has);
      RecordCreatedKeeps(RecordRow(w, cfg, budget, creates, rows[0]), cfg, budget, creates, rows[1..], now, has);
    }
  }

  lemma RecoverKeeps(w: World, cfg: Settings, budget: string, p: Create, now: int, has: RowProperty)
    requires RowsHave(w, now, has) && CreateHas(cfg, budget, p, now, has)
    ensures RowsHave(Recover(w, cfg, budget, p), now, has)
  {
    hide AllRows, RecordingKeeps, Record, CreateFacts, LookUp, LookUpGone, Read, SecondaryHas;
    var read := Read(w);
    CallsKeepTable(w, w.ledger);
    CallsKeepTable(read, w.ledger);
    var existing, gone := LookUp(w.ledger, cfg, budget, p), LookUpGone(w.ledger, cfg, budget, p);
    if existing.Some? {
      RecordKeeps(read, p.trackingKey, RecoveredFacts(w.ledger, budget, p, existing.value), now, has);
    } else if gone.Some? {
      RecordKeeps(Read(read), p.trackingKey, DeletedFacts(budget, p, gone.value), now, has);
    }
  }

  lemma {:induction false} BackfillKeeps(w: World, cfg: Settings, budget: string, creates: seq<Create>,
                                         importIds: seq<string>, now: int, has: RowProperty)
    requires RowsHave(w, now, has) && CreatesHave(cfg, budget, creates, now, has)
    ensures RowsHave(Backfill(w, cfg, budget, creates, importIds), now, has)
    decreases |importIds|
  {
    hide AllRows, CreateHas, Recover;
    if importIds != [] && w.status == Running {
      var found := FindCreate(creates, importIds[0]);
      if found.Some? {
        RecoverKeeps(w, cfg, budget, found.value, now, has);
      }
      BackfillKeeps(BackfillOne(w, cfg, budget, creates, importIds[0]), cfg, budget, creates, importIds[1..], now, has);
    }
  }

  lemma PostKeepsTable(w: World, cfg: Settings, budget: string, payloads: seq<Payload>)
    ensures PostCreates(w, cfg, budget, payloads).0.table == w.table && PostCreates(w, cfg, budget, payloads).0.now == w.now
  {
  }

  /** What is recorded after a create needs the property only if the create was answered. */
  lemma SubmitCreatesKeeps(w: World, cfg: Settings, batch: Batch<Create>, now: int, has: RowProperty)
    requires RowsHave(w, now, has)
    requires PostCreates(w, cfg, batch.budget, Payloads(batch.items)).0.status == Running ==>
        CreatesHave(cfg, batch.budget, batch.items, now, has)
    ensures RowsHave(SubmitCreates(w, cfg, batch), now, has)
  {
    hide AllRows, CreatesHave, PostCreates, RecordCreated, Backfill;
    var (posted, response) := PostCreates(w, cfg, batch.budget, Payloads(batch.items));
    PostKeepsTable(w, cfg, batch.budget, Payloads(batch.items));
    if posted.status == Running {
      RecordCreatedKeeps(posted, cfg, batch.budget, batch.items, response.rows, now, has);
      var recorded := RecordCreated(posted, cfg, batch.budget, batch.items, response.rows);
      BackfillKeeps(CountDuplicates(recorded, |response.duplicates|), cfg, batch.budget, batch.items,
                    response.duplicates, now, has);
    }
  }

  lemma SettleKeeps(w: World, c: Correction, now: int, has: RowProperty)
    requires RowsHave(w, now, has) && SettlingKeeps(c, has)
    ensures RowsHave(Settle(w, c), now, has)
  {
    hide ToMilliunits;
  }

  lemma CorrectKeeps(w: World, budget: string, snapshot: Ledger, since: Option<int>, c: Correction, now: int, has: RowProperty)
    requires RowsHave(w, now, has) && SettlingKeeps(c, has)
    ensures RowsHave(Correct(w, budget, snapshot, since, c), now, has)
  {
    var l := Patch(w.ledger, budget, c.txnId, Some(ToMilliunits(c.newAmount)), Cleared);
    CallsKeepTable(w, l);
    hide AllRows, SettlingKeeps, Settle, Write, Read, ToMilliunits, Patch;
    SettleKeeps(Write(w, l), c, now, has);
  }

  lemma {:induction false} CorrectAllKeeps(w: World, budget: string, snapshot: Ledger, since: Option<int>,
                                           cs: seq<Correction>, now: int, has: RowProperty)
    requires RowsHave(w, now, has) && forall c :: c in cs ==> SettlingKeeps(c, has)
    ensures RowsHave(CorrectAll(w, budget, snapshot, since, cs), now, has)
    decreases |cs|
  {
    hide AllRows, SettlingKeeps, Correct;
    if cs != [] && w.status == Running {
      CorrectKeeps(w, budget, snapshot, since, cs[0], now, has);
      CorrectAllKeeps(Correct(w, budget, snapshot, since, cs[0]), budget, snapshot, since, cs[1..], now, has);
    }
  }

  ghost predicate CorrectionsKeep(cycle: Cycle, has: RowProperty) {
    forall b, c :: c in CorrectionsOf(cycle, b) ==> SettlingKeeps(c, has)
  }

  lemma {:induction false} CorrectionsPhaseKeeps(w: World, cfg: Settings, cycle: Cycle, budgets: seq<string>,
                                                 now: int, has: RowProperty)
    requires RowsHave(w, now, has) && CorrectionsKeep(cycle, has)
    ensures RowsHave(CorrectionsPhase(w, cfg, cycle, budgets), now, has)
    decreases |budgets|
  {
    hide AllRows, SettlingKeeps, CorrectAll, Read;
    if budgets != [] && w.status == Running {
      var cs := CorrectionsOf(cycle, budgets[0]);
      CallsKeepTable(w, w.ledger);
      CorrectAllKeeps(Read(w), budgets[0], w.ledger, SinceOf(cfg, cs), cs, now, has);
      CorrectionsPhaseKeeps(CorrectBudget(w, cfg, cycle, budgets[0]), cfg, cycle, budgets[1..], now, has);
    }
  }

  // --- replaced manual transactions --------------------------------------------------------------

  lemma DeleteKeepsTable(w: World, budget: string, id: nat)
    ensures DeleteOriginal(w, budget, id).table == w.table && DeleteOriginal(w, budget, id).now == w.now
  {
  }

  lemma FinishKeeps(w: World, budget: string, p: ManualMatch, shadowId: nat, now: int, has: RowProperty)
    requires RowsHave(w, now, has) && forall txnId :: RecordingKeeps(now, p.trackingKey, MatchFacts(budget, p, txnId), has)
    ensures RowsHave(FinishNative(w, budget, p), now, has)
    ensures RowsHave(FinishFallback(w, budget, p, shadowId), now, has)
  {
    hide AllRows, MatchFacts, TrackNativeMatch, Record, DeleteOriginal;
    TrackNativeKeeps(CountUpdated(w), p.trackingKey, MatchFacts(budget, p, p.originalId), now, has);
    RecordKeeps(w, p.trackingKey, MatchFacts(budget, p, shadowId), now, has);
    DeleteKeepsTable(CountCreated(Record(w, p.trackingKey, MatchFacts(budget, p, shadowId))), budget, p.originalId);
  }

  lemma {:induction false} MatchRowsKeep(w: World, budget: string, matches: seq<ManualMatch>, rows: seq<Reported>,
                                         now: int, has: RowProperty)
    requires RowsHave(w, now, has) && MatchesHave(budget, matches, now, has)
    ensures RowsHave(MatchRows(w, budget, matches, rows), now, has)
    decreases |rows|
  {
    hide AllRows, MatchFacts, FinishNative, FinishFallback, FindMatch;
    if rows != [] && w.status == Running {
      var row := rows[0];
      if row.importId.Some? && FindMatch(matches, row.importId.value).Some? {
        FinishKeeps(w, budget, FindMatch(matches, row.importId.value).value, row.id, now, has);
      }
      MatchRowsKeep(MatchRow(w, budget, matches, row), budget, matches, rows[1..], now, has);
    }
  }

  lemma MatchDuplicateKeeps(w: World, cfg: Settings, budget: string, matches: seq<ManualMatch>, importId: string,
                            now: int, has: RowProperty)
    requires RowsHave(w, now, has) && MatchesHave(budget, matches, now, has)
    ensures RowsHave(MatchDuplicate(w, cfg, budget, matches, importId), now, has)
  {
    hide AllRows, MatchFacts, FinishNative, FinishFallback, FindMatch, DeleteOriginal, Read, FindByImportId;
    var found := FindMatch(matches, importId);
    if found.Some? {
      var p := found.value;
      DeleteKeepsTable(w, budget, p.originalId);
      CallsKeepTable(w, w.ledger);
      var shadow := FindByImportId(w.ledger, budget, p.payload.account, importId,
                                   DateWindow.SinceDateBound(p.payload.date, cfg.backfillDays), cfg.shadowsListed);
      FinishKeeps(Read(w), budget, p, if shadow.Some? then shadow.value else 0, now, has);
    }
  }

  lemma {:induction false} MatchDuplicatesKeep(w: World, cfg: Settings, budget: string, matches: seq<ManualMatch>,
                                               importIds: seq<string>, now: int, has: RowProperty)
    requires RowsHave(w, now, has) && MatchesHave(budget, matches, now, has)
    ensures RowsHave(MatchDuplicates(w, cfg, budget, matches, importIds), now, has)
    decreases |importIds|
  {
    hide AllRows, MatchesHave, MatchDuplicate;
    if importIds != [] && w.status == Running {
      MatchDuplicateKeeps(w, cfg, budget, matches, importIds[0], now, has);
      MatchDuplicatesKeep(MatchDuplicate(w, cfg, budget, matches, importIds[0]), cfg, budget, matches, importIds[1..], now, has);
    }
  }

  lemma {:induction false} MatchesPhaseKeeps(w: World, cfg: Settings, batches: seq<Batch<ManualMatch>>, now: int, has: RowProperty)
    requires RowsHave(w, now, has) && forall b :: b in batches ==> MatchesHave(b.budget, b.items, now, has)
    ensures RowsHave(MatchesPhase(w, cfg, batches), now, has)
    decreases |batches|
  {
    hide AllRows, MatchesHave, PostCreates, MatchRows, MatchDuplicates;
    if batches != [] && w.status == Running {
      var b := batches[0];
      var (posted, response) := PostCreates(w, cfg, b.budget, MatchPayloads(b.items));
      PostKeepsTable(w, cfg, b.budget, MatchPayloads(b.items));
      MatchRowsKeep(posted, b.budget, b.items, response.rows, now, has);
      MatchDuplicatesKeep(MatchRows(posted, b.budget, b.items, response.rows), cfg, b.budget, b.items,
                          response.duplicates, now, has);
      MatchesPhaseKeeps(SubmitMatches(w, cfg, b), cfg, batches[1..], now, has);
    }
  }

  lemma {:induction false} CreatesPhaseKeeps(w: World, cfg: Settings, batches: seq<Batch<Create>>, now: int, has: RowProperty)
    requires RowsHave(w, now, has) && forall b :: b in batches ==> CreatesHave(cfg, b.budget, b.items, now, has)
    ensures RowsHave(CreatesPhase(w, cfg, batches), now, has)
    decreases |batches|
  {
    hide AllRows, CreatesHave, SubmitCreates, PostCreates;
    if batches != [] && w.status == Running {
      SubmitCreatesKeeps(w, cfg, batches[0], now, has);
      CreatesPhaseKeeps(SubmitCreates(w, cfg, batches[0]), cfg, batches[1..], now, has);
    }
  }

  // --- PENDING iff uncleared -----------------------------------------------------------------------

  /** Every create and match of the cycle has the cleared flag of its status, as classification gives it. */
  ghost predicate FlagsFit(cycle: Cycle) {
    && (forall b, p :: b in cycle.creates && p in b.items ==> p.status != Deleted && CreateFlagFits(p))
    && (forall b, m :: b in cycle.matches && m in b.items ==>
          m.status != Deleted && m.payload.cleared == ClearedFor(m.status))
  }

  ghost predicate CreateFlagFits(p: Create) {
    && p.payload.cleared == ClearedFor(p.status)
    && (p.secondary.Some? ==> p.secondary.value.status != Deleted)
  }

  lemma FlagsAgree(cfg: Settings, cycle: Cycle, now: int)
    requires FlagsFit(cycle)
    ensures forall b :: b in cycle.creates ==> CreatesHave(cfg, b.budget, b.items, now, Agreeing())
    ensures forall b :: b in cycle.matches ==> MatchesHave(b.budget, b.items, now, Agreeing())
  {
    hide CreateHas, RecordingKeeps, CreateFlagFits, MatchFacts;
    forall b, p | b in cycle.creates && p in b.items ensures CreateHas(cfg, b.budget, p, now, Agreeing()) {
      CreateAgrees(cfg, b.budget, p, now);
    }
    forall b, m, txnId | b in cycle.matches && m in b.items
      ensures RecordingKeeps(now, m.trackingKey, MatchFacts(b.budget, m, txnId), Agreeing())
    {
      MatchAgrees(b.budget, m, txnId, now);
    }
  }

  lemma FactsAgree(now: int, key: string, facts: Facts)
    requires StatusAgrees(facts)
    ensures RecordingKeeps(now, key, facts, Agreeing())
  {
    hide ToMilliunits;
  }

  lemma MatchAgrees(budget: string, m: ManualMatch, txnId: nat, now: int)
    requires m.status != Deleted && m.payload.cleared == ClearedFor(m.status)
    ensures RecordingKeeps(now, m.trackingKey, MatchFacts(budget, m, txnId), Agreeing())
  {
    hide FromMilliunits;
    FactsAgree(now, m.trackingKey, MatchFacts(budget, m, txnId));
  }

  lemma CreateAgrees(cfg: Settings, budget: string, p: Create, now: int)
    requires p.status != Deleted && CreateFlagFits(p)
    ensures CreateHas(cfg, budget, p, now, Agreeing())
  {
    hide FromMilliunits, SecondaryImportId, RecordingKeeps;
    forall txnId, status, amount, payee | MayRecord(p, status, amount, payee)
      ensures RecordingKeeps(now, p.trackingKey, CreateFacts(budget, p, txnId, status, amount, payee), Agreeing())
    {
      FactsAgree(now, p.trackingKey, CreateFacts(budget, p, txnId, status, amount, payee));
    }
    if p.secondary.Some? {
      SecondaryAgrees(cfg, budget, p.secondary.value, now);
    }
  }

  lemma SecondaryAgrees(cfg: Settings, budget: string, s: Create, now: int)
    requires s.status != Deleted
    ensures SecondaryHas(cfg, budget, s, now, Agreeing())
  {
    hide FromMilliunits, SecondaryImportId, RecordingKeeps;
    forall txnId, payee
      ensures RecordingKeeps(now, s.trackingKey, SecondaryFacts(cfg, budget, s, txnId, payee), Agreeing())
    {
      FactsAgree(now, s.trackingKey, SecondaryFacts(cfg, budget, s, txnId, payee));
    }
  }

  function Agreeing(): RowProperty {
    (k: string, r: Row) => r.facts.status != Deleted ==> (r.facts.status == Pending <==> r.facts.cleared == Uncleared)
  }

  lemma ConsistentMeansAgreeing(t: Table)
    ensures Consistent(t) <==> AllRows(t, Agreeing())
  {
    hide AmountsAgree;
  }

  lemma SettlingAgrees(cycle: Cycle)
    ensures CorrectionsKeep(cycle, Agreeing())
  {
  }
}
