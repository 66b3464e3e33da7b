/**
 * What an attempt leaves alone: transactions that carry an import_id, unless
 * a correction is for them.
 */
module UntouchedImports {
  import opened Wrappers
  import opened Ynab
  import opened StateDb
  import opened SyncSpec
  import opened Creation
  import opened RowRecords
  import opened TrackedKeys
  import opened Recovery
  import opened RecoveryFacts
  import opened AttemptEffects
  import opened OwnTransactions
  import DateWindow
  import Money
  import RepeatedRecovery

  // --- imported transactions while creates are recorded ---------------------------------------------------------

  ghost predicate ImportsStay(l: Ledger, l': Ledger) {
    |l| <= |l'| && forall i :: 0 <= i < |l| && l[i].importId.Some? ==> l'[i] == l[i]
  }

  ghost predicate Unimported(l: Ledger, id: nat) { id < |l| ==> l[id].importId.None? }

  /** Only an original without an import_id is un-cleared again. */
  lemma TrackNativeKeepsImports(w: World, key: string, facts: Facts)
    requires Unimported(w.ledger, facts.txnId)
    ensures var l' := TrackNativeMatch(w, key, facts).ledger; ImportsStay(w.ledger, l') && SameIds(w.ledger, l')
  {
    hide Upsert;
  }

  lemma RecordRowKeepsImports(w: World, cfg: Settings, budget: string, creates: seq<Create>, row: Reported)
    requires NoSecondaries(creates)
    requires row.importId.Some? && row.matched.Some? ==> Unimported(w.ledger, row.matched.value)
    ensures var l' := RecordRow(w, cfg, budget, creates, row).ledger; ImportsStay(w.ledger, l') && SameIds(w.ledger, l')
  {
    if row.importId.Some? && FindCreate(creates, row.importId.value).Some? {
      FoundHasId(creates, row.importId.value);
      var p := FindCreate(creates, row.importId.value).value;
      hide FindCreate, TrackNativeMatch, CreateFacts, Record;
      if row.matched.Some? {
        var payee := PayeeOr(p.payload.payee, row.payee);
        var facts := CreateFacts(budget, p, row.matched.value, p.status, p.payload.amount, payee);
        CreateFactsId(budget, p, row.matched.value, p.status, p.payload.amount, payee);
        TrackNativeKeepsImports(CountUpdated(w), p.trackingKey, facts);
      } else {
        var facts := CreateFacts(budget, p, row.id, p.status, p.payload.amount, PayeeOr(p.payload.payee, row.payee));
        RecordKeepsLedger(w, p.trackingKey, facts);
      }
    }
  }

  lemma {:induction false} RecordCreatedKeepsImports(w: World, cfg: Settings, budget: string, creates: seq<Create>,
                                                     rows: seq<Reported>)
    requires NoSecondaries(creates)
    requires forall row :: row in rows && row.importId.Some? && row.matched.Some? ==>
        Unimported(w.ledger, row.matched.value)
    ensures ImportsStay(w.ledger, RecordCreated(w, cfg, budget, creates, rows).ledger)
    decreases |rows|
  {
    if rows != [] && w.status == Running {
      var w1 := RecordRow(w, cfg, budget, creates, rows[0]);
      assert rows[0] in rows && forall row :: row in rows[1..] ==> row in rows;
      RecordRowKeepsImports(w, cfg, budget, creates, rows[0]);
      hide RecordRow;
      RecordCreatedKeepsImports(w1, cfg, budget, creates, rows[1..]);
    }
  }

  lemma BatchKeepsImports(w: World, cfg: Settings, batch: Batch<Create>)
    requires NoSecondaries(batch.items) && SubmitCreates(w, cfg, batch).status == Running
    ensures var w' := SubmitCreates(w, cfg, batch);
            var (posted, r) := PostCreates(w, cfg, batch.budget, Payloads(batch.items));
            var recorded := RecordCreated(posted, cfg, batch.budget, batch.items, r.rows);
            && ImportsStay(w.ledger, w'.ledger) && ImportsStay(posted.ledger, w'.ledger) && w'.ledger == recorded.ledger
            && ImportsStay(w.ledger, recorded.ledger)
  {
    var b, ps := batch.budget, Payloads(batch.items);
    var (posted, r) := PostCreates(w, cfg, b, ps);
    CutAtCalls(w, cfg, batch);
    hide SubmitCreates, PostCreates, RecordCreated, Backfill, Payloads, CreateAll, Burned;
    BatchRuns(w, cfg, batch);
    AnsweredPost(w, cfg, b, ps);
    CreateAllKeepsImports(w.ledger, cfg.native, b, ps);
    CreateAllAnswersFirst(w.ledger, cfg.native, b, ps);
    RecordCreatedKeepsImports(posted, cfg, b, batch.items, r.rows);
  }

  // --- imported transactions while corrections are made -----------------------------------------------------------

  /** This import is as it was. */
  ghost predicate Stays(l: Ledger, l': Ledger, id: nat) {
    id < |l| <= |l'| && l[id].importId.Some? && l'[id] == l[id]
  }

  /** A match that is no pending one, on a transaction without an import_id. */
  ghost predicate SafeMatch(l: Ledger, m: ManualMatch) { m.status == Booked && Unimported(l, m.originalId) }

  lemma DeleteOriginalStays(w: World, budget: string, m: ManualMatch, id: nat)
    requires SafeMatch(w.ledger, m) && id < |w.ledger| && w.ledger[id].importId.Some?
    ensures var w' := DeleteOriginal(w, budget, m.originalId); Stays(w.ledger, w'.ledger, id) && SafeMatch(w'.ledger, m)
  {
  }

  lemma FinishStays(w: World, budget: string, m: ManualMatch, shadowId: nat, id: nat)
    requires SafeMatch(w.ledger, m) && id < |w.ledger| && w.ledger[id].importId.Some?
    ensures FinishNative(w, budget, m).ledger == w.ledger
    ensures var w' := FinishFallback(w, budget, m, shadowId); Stays(w.ledger, w'.ledger, id) && SafeMatch(w'.ledger, m)
  {
    hide DeleteOriginal, Upsert;
    DeleteOriginalStays(CountCreated(Record(w, m.trackingKey, MatchFacts(budget, m, shadowId))), budget, m, id);
  }

  lemma {:induction false} MatchRowsStay(w: World, budget: string, m: ManualMatch, rows: seq<Reported>, id: nat)
    requires SafeMatch(w.ledger, m) && id < |w.ledger| && w.ledger[id].importId.Some?
    ensures var w' := MatchRows(w, budget, [m], rows); Stays(w.ledger, w'.ledger, id) && SafeMatch(w'.ledger, m)
    decreases |rows|
  {
    hide FinishNative, FinishFallback, SafeMatch;
    if rows != [] && w.status == Running {
      FinishStays(w, budget, m, rows[0].id, id);
      if rows[0].importId.Some? && FindMatch([m], rows[0].importId.value).Some? {
        FoundMatch([m], rows[0].importId.value);
      }
      hide FindMatch;
      MatchRowsStay(MatchRow(w, budget, [m], rows[0]), budget, m, rows[1..], id);
    }
  }

  lemma MatchDuplicateStays(w: World, cfg: Settings, budget: string, m: ManualMatch, importId: string, id: nat)
    requires SafeMatch(w.ledger, m) && id < |w.ledger| && w.ledger[id].importId.Some?
    ensures var w' := MatchDuplicate(w, cfg, budget, [m], importId);
            Stays(w.ledger, w'.ledger, id) && SafeMatch(w'.ledger, m)
  {
    ReadKeepsStores(w);
    hide FinishNative, FinishFallback, DeleteOriginal, SafeMatch, FindMatch, Read, FindByImportId;
    DeleteOriginalStays(w, budget, m, id);
    if FindMatch([m], importId).Some? {
      FoundMatch([m], importId);
      var shadow := FindByImportId(w.ledger, budget, m.payload.account, importId,
                                   DateWindow.SinceDateBound(m.payload.date, cfg.backfillDays), cfg.shadowsListed);
      FinishStays(Read(w), budget, m, if shadow.Some? then shadow.value else 0, id);
    }
  }

  lemma {:induction false} MatchDuplicatesStay(w: World, cfg: Settings, budget: string, m: ManualMatch,
                                               ids: seq<string>,
                                               id: nat)
    requires SafeMatch(w.ledger, m) && id < |w.ledger| && w.ledger[id].importId.Some?
    ensures Stays(w.ledger, MatchDuplicates(w, cfg, budget, [m], ids).ledger, id)
    decreases |ids|
  {
    hide MatchDuplicate, SafeMatch;
    if ids != [] && w.status == Running {
      MatchDuplicateStays(w, cfg, budget, m, ids[0], id);
      MatchDuplicatesStay(MatchDuplicate(w, cfg, budget, [m], ids[0]), cfg, budget, m, ids[1..], id);
    }
  }

  /** The one match of a recovery leaves every earlier import alone, on any script. */
  lemma SubmitMatchesStays(w: World, cfg: Settings, budget: string, m: ManualMatch, id: nat)
    requires w.status == Running && m.status == Booked && m.originalId < |w.ledger|
             && w.ledger[m.originalId].importId.None?
    requires id < |w.ledger| && w.ledger[id].importId.Some?
    ensures Stays(w.ledger, SubmitMatches(w, cfg, Batch(budget, [m])).ledger, id)
  {
    var ps := MatchPayloads([m]);
    var (posted, r) := PostCreates(w, cfg, budget, ps);
    CreateAllKeepsImports(w.ledger, cfg.native, budget, ps);
    ImportsExtend(w.ledger, cfg.native, budget, ps);
    PostShape(w, cfg, budget, ps);
    hide PostCreates, CreateAll, MatchPayloads, MatchRows, MatchDuplicates;
    assert SameIdentity(posted.ledger[m.originalId], w.ledger[m.originalId]);
    if posted.status == Running {
      MatchRowsStay(posted, budget, m, r.rows, id);
      var recorded := MatchRows(posted, budget, [m], r.rows);
      MatchDuplicatesStay(recorded, cfg, budget, m, r.duplicates, id);
    }
  }

  lemma {:induction false} ImportsExtend(l: Ledger, native: NativeMatcher, budget: string, ps: seq<Payload>)
    ensures Extends(l, CreateAll(l, native, budget, ps).0)
    decreases |ps|
  {
    ExtendsRefl(l);
    if ps != [] {
      var l1 := CreateOne(l, native, budget, ps[0]).0;
      CreateAddsOneImport(l, native, budget, ps[0]);
      assert Extends(l, l1);
      hide CreateOne, Extends;
      ImportsExtend(l1, native, budget, ps[1..]);
      ExtendsTransitive(l, l1, CreateAll(l1, native, budget, ps[1..]).0);
    }
  }

  lemma CorrectStays(w: World, budget: string, snapshot: Ledger, since: Option<int>, c: Correction, id: nat)
    requires id < |w.ledger| && w.ledger[id].importId.Some? && c.txnId != id
    ensures Stays(w.ledger, Correct(w, budget, snapshot, since, c).ledger, id)
  {
    hide Money.ToMilliunits, MarkBooked, Rekey;
  }

  lemma RecoveryStays(w: World, cfg: Settings, budget: string, c: Correction, id: nat)
    requires id < |w.ledger| && w.ledger[id].importId.Some?
    ensures Stays(w.ledger, RecoverMissing(w, cfg, budget, c).ledger, id)
  {
    RecoverMissingShape(w, cfg, budget, c);
    ReadKeepsStores(w);
    hide RecoverMissing, Replacements, ReplacementMatch, SubmitMatches, Read, Record, GoneFacts;
    if c.oldKey in w.table {
      var r := w.table[c.oldKey];
      var found := Replacements(w.ledger, cfg, budget, r, c.newAmount);
      RecordKeepsLedger(Read(w), c.oldKey, GoneFacts(r, budget, c));
      if |found| == 1 && Read(w).status == Running {
        assert found[0] in found;
        RepeatedRecovery.ReplacementIsTyped(w.ledger, cfg, budget, r, c.newAmount, found[0]);
        ReplacementOriginal(cfg, r, c, found[0]);
        SubmitMatchesStays(Read(w), cfg, budget, ReplacementMatch(cfg.hash, r, c, found[0]), id);
      }
    }
  }

  lemma {:induction false} CorrectAllStays(w: World, cfg: Settings, budget: string, snapshot: Ledger,
                                           since: Option<int>,
                                           cs: seq<Correction>, id: nat)
    requires id < |w.ledger| && w.ledger[id].importId.Some? && forall c :: c in cs ==> c.txnId != id
    ensures Stays(w.ledger, CorrectAllFully(w, cfg, budget, snapshot, since, cs).ledger, id)
    decreases |cs|
  {
    hide Correct, RecoverMissing;
    if cs != [] && w.status == Running {
      assert cs[0] in cs;
      CorrectStays(w, budget, snapshot, since, cs[0], id);
      RecoveryStays(Correct(w, budget, snapshot, since, cs[0]).(status := Running), cfg, budget, cs[0], id);
      CorrectAllStays(CorrectFully(w, cfg, budget, snapshot, since, cs[0]), cfg, budget, snapshot, since, cs[1..], id);
    }
  }

  lemma {:induction false} CorrectionsStay(w: World, cfg: Settings, cycle: Cycle, budgets: seq<string>, id: nat)
    requires id < |w.ledger| && w.ledger[id].importId.Some?
    requires forall b, c :: c in CorrectionsOf(cycle, b) ==> c.txnId != id
    ensures Stays(w.ledger, CorrectionsPhaseFully(w, cfg, cycle, budgets).ledger, id)
    decreases |budgets|
  {
    hide CorrectAllFully, Read, CorrectionsOf;
    if budgets != [] && w.status == Running {
      var cs := CorrectionsOf(cycle, budgets[0]);
      ReadKeepsStores(w);
      CorrectAllStays(Read(w), cfg, budgets[0], w.ledger, SinceOf(cfg, cs), cs, id);
      CorrectionsStay(CorrectBudgetFully(w, cfg, cycle, budgets[0]), cfg, cycle, budgets[1..], id);
    }
  }
}
