/**
 * Whose transaction a row is for: over every run it carries no import_id, or
 * one that is named after the row's own key.
 */
module OwnTransactions {
  import opened Wrappers
  import opened Ynab
  import opened StateDb
  import opened SyncSpec
  import opened Creation
  import opened Frames
  import opened Classification
  import opened Filing
  import opened RowFacts
  import opened RowRecords
  import opened TrackedKeys
  import opened Recovery
  import opened RecoveryFacts
  import opened AttemptEffects
  import opened Runs
  import PendingMatch
  import RepeatedRecovery
  import Money

  ghost predicate Owns(cfg: Settings, h: Home, l: Ledger, key: string, id: nat) {
    id < |l| && (l[id].importId.Some? ==> NamedFor(cfg, h, key, l[id].importId.value))
  }

  ghost function RowOwns(cfg: Settings, h: Home, l: Ledger): RowProperty {
    (k: string, r: Row) => Owns(cfg, h, l, k, r.facts.txnId)
  }

  lemma OwnsForever(cfg: Settings, h: Home, l: Ledger, l': Ledger, key: string, id: nat)
    requires Extends(l, l') && Owns(cfg, h, l, key, id)
    ensures Owns(cfg, h, l', key, id)
  {
    hide NamedFor;
    assert SameIdentity(l[id], l'[id]);
  }

  lemma RowsOwnForever(cfg: Settings, h: Home, l: Ledger, l': Ledger, t: Table)
    requires Extends(l, l') && AllRows(t, RowOwns(cfg, h, l))
    ensures AllRows(t, RowOwns(cfg, h, l'))
  {
    hide Extends, AmountsAgree, Owns;
    forall k | k in t ensures AmountsAgree(t[k]) && RowOwns(cfg, h, l')(k, t[k]) {
      assert RowOwns(cfg, h, l)(k, t[k]);
      OwnsForever(cfg, h, l, l', k, t[k].facts.txnId);
    }
  }

  lemma OwningFacts(cfg: Settings, h: Home, l: Ledger, key: string, facts: Facts, now: int)
    requires Owns(cfg, h, l, key, facts.txnId)
    ensures RecordingKeeps(now, key, facts, RowOwns(cfg, h, l))
  {
    hide Owns, Money.ToMilliunits;
  }

  // --- creates ------------------------------------------------------------------------------------------------

  /** The answer to a create names its own transaction, or one that was matched and has no import_id. */
  lemma AnswerOwns(cfg: Settings, h: Home, l: Ledger, l1: Ledger, l': Ledger, budget: string, ps: seq<Payload>,
                   r: Response,
                   creates: seq<Create>, row: Reported, now: int)
    requires AnswersFirst(l, budget, ps, l1, r) && row in r.rows && Extends(l1, l')
    requires forall p :: p in creates ==> CreateAtHome(h, budget, p)
    ensures AnswerRecords(budget, creates, row, now, RowOwns(cfg, h, l'))
  {
    hide Burned, FirstPayload, FindCreate, RecordingKeeps, CreateFacts, Extends;
    if row.importId.Some? && FindCreate(creates, row.importId.value).Some? {
      FoundHasId(creates, row.importId.value);
      var p := FindCreate(creates, row.importId.value).value;
      assert CreateAtHome(h, budget, p);
      assert Owns(cfg, h, l1, p.trackingKey, TargetOf(row));
      OwnsForever(cfg, h, l1, l', p.trackingKey, TargetOf(row));
      forall payee
        ensures RecordingKeeps(now, p.trackingKey,
                               CreateFacts(budget, p, TargetOf(row), p.status, p.payload.amount, payee),
                               RowOwns(cfg, h, l'))
      {
        CreateFactsId(budget, p, TargetOf(row), p.status, p.payload.amount, payee);
        OwningFacts(cfg, h, l', p.trackingKey,
                    CreateFacts(budget, p, TargetOf(row), p.status, p.payload.amount, payee), now);
      }
    }
  }

  lemma CreateFactsId(budget: string, p: Create, id: nat, status: BookingStatus, amount: int, payee: string)
    ensures CreateFacts(budget, p, id, status, amount, payee).txnId == id
  {
  }

  /** What a lookup finds holds the import_id. */
  lemma LookUpHolds(l: Ledger, cfg: Settings, budget: string, p: Create)
    ensures LookUp(l, cfg, budget, p).Some? ==> Holds(l[LookUp(l, cfg, budget, p).value], budget, p.payload.importId)
    ensures LookUpGone(l, cfg, budget, p).Some? ==>
        Holds(l[LookUpGone(l, cfg, budget, p).value], budget, p.payload.importId)
  {
  }

  lemma DuplicateOwns(cfg: Settings, h: Home, l: Ledger, budget: string, creates: seq<Create>, id: string, t: Table,
                      now: int)
    requires forall p :: p in creates ==> CreateAtHome(h, budget, p)
    ensures DuplicateRecords(cfg, l, budget, creates, id, t, now, RowOwns(cfg, h, l))
  {
    hide FindCreate, RecordingKeeps, LookUp, LookUpGone;
    if FindCreate(creates, id).Some? {
      FoundHasId(creates, id);
      var p := FindCreate(creates, id).value;
      assert CreateAtHome(h, budget, p);
      LookUpHolds(l, cfg, budget, p);
      var existing, gone := LookUp(l, cfg, budget, p), LookUpGone(l, cfg, budget, p);
      if existing.Some? {
        assert Owns(cfg, h, l, p.trackingKey, existing.value);
        OwningFacts(cfg, h, l, p.trackingKey, RecoveredFacts(l, budget, p, existing.value), now);
      }
      if gone.Some? {
        assert Owns(cfg, h, l, p.trackingKey, gone.value);
        OwningFacts(cfg, h, l, p.trackingKey, DeletedFacts(budget, p, gone.value), now);
      }
    }
  }

  lemma BatchOwns(w: World, cfg: Settings, h: Home, batch: Batch<Create>)
    requires w.status == Running && StoresAtHome(cfg, h, w.ledger, w.table) && BatchAtHome(h, batch)
    requires AllRows(w.table, RowOwns(cfg, h, w.ledger))
    ensures AllRows(SubmitCreates(w, cfg, batch).table, RowOwns(cfg, h, SubmitCreates(w, cfg, batch).ledger))
  {
    var b, ps, w' := batch.budget, Payloads(batch.items), SubmitCreates(w, cfg, batch);
    var (posted, r) := PostCreates(w, cfg, b, ps);
    var recorded := RecordCreated(posted, cfg, b, batch.items, r.rows);
    var has := RowOwns(cfg, h, w'.ledger);
    assert forall p :: p in batch.items ==> CreateAtHome(h, b, p);
    BatchLedger(w, cfg, h, batch);
    RowsOwnForever(cfg, h, w.ledger, w'.ledger, w.table);
    CutAtCalls(w, cfg, batch);
    hide SubmitCreates, PostCreates, RecordCreated, CreateAll, Payloads;
    hide AllRows, Extends, Imported, UniqueIds, ImportsAtHome;
    hide AnswerRecords, DuplicateRecords, AnswersFirst, CreateAtHome, StoresAtHome, BatchAtHome;
    if posted.status == Running {
      AnsweredPost(w, cfg, b, ps);
      CreateAllAnswersFirst(w.ledger, cfg.native, b, ps);
      forall row | row in r.rows ensures AnswerRecords(b, batch.items, row, w.now, has) {
        AnswerOwns(cfg, h, w.ledger, posted.ledger, w'.ledger, b, ps, r, batch.items, row, w.now);
      }
      if recorded.status == Running {
        forall id | id in r.duplicates
          ensures DuplicateRecords(cfg, recorded.ledger, b, batch.items, id, recorded.table, w.now, has)
        {
          DuplicateOwns(cfg, h, recorded.ledger, b, batch.items, id, recorded.table, w.now);
        }
      }
    }
    assert NoSecondaries(batch.items) by {
      forall p | p in batch.items ensures p.secondary.None? { HasNoSecondary(h, b, p); }
    }
    SubmitCreatesHas(w, cfg, batch, w.now, has);
  }

  lemma HasNoSecondary(h: Home, budget: string, p: Create)
    requires CreateAtHome(h, budget, p)
    ensures p.secondary.None?
  {
  }

  /** Once everything that was answered is recorded, the ledger stays. */
  lemma CutAtCalls(w: World, cfg: Settings, batch: Batch<Create>)
    ensures var (posted, r) := PostCreates(w, cfg, batch.budget, Payloads(batch.items));
            var recorded := RecordCreated(posted, cfg, batch.budget, batch.items, r.rows);
            posted.status == recorded.status == Running ==> SubmitCreates(w, cfg, batch).ledger == recorded.ledger
  {
    hide PostCreates, RecordCreated, Payloads;
    var (posted, r) := PostCreates(w, cfg, batch.budget, Payloads(batch.items));
    var recorded := RecordCreated(posted, cfg, batch.budget, batch.items, r.rows);
    BackfillKeepsRows(CountDuplicates(recorded, |r.duplicates|), cfg, batch.budget, batch.items, r.duplicates);
    hide Backfill;
  }

  lemma {:induction false} CreatesOwn(w: World, cfg: Settings, h: Home, batches: seq<Batch<Create>>)
    requires StoresAtHome(cfg, h, w.ledger, w.table) && forall b :: b in batches ==> BatchAtHome(h, b)
    requires AllRows(w.table, RowOwns(cfg, h, w.ledger))
    ensures AllRows(CreatesPhase(w, cfg, batches).table, RowOwns(cfg, h, CreatesPhase(w, cfg, batches).ledger))
    decreases |batches|
  {
    hide StoresAtHome, BatchAtHome, SubmitCreates, Imported, AllRows, Extends;
    if batches != [] && w.status == Running {
      BatchStaysHome(w, cfg, h, batches[0]);
      BatchOwns(w, cfg, h, batches[0]);
      CreatesOwn(SubmitCreates(w, cfg, batches[0]), cfg, h, batches[1..]);
    }
  }

  // --- corrections --------------------------------------------------------------------------------------------

  /** Each correction is for a transaction of its own row. */
  ghost predicate TargetsOwned(cfg: Settings, h: Home, l: Ledger, cs: seq<Correction>) {
    forall c :: c in cs ==> Owns(cfg, h, l, c.oldKey, c.txnId)
  }

  lemma TargetsOwnedForever(cfg: Settings, h: Home, l: Ledger, l': Ledger, cs: seq<Correction>)
    requires Extends(l, l') && TargetsOwned(cfg, h, l, cs)
    ensures TargetsOwned(cfg, h, l', cs)
  {
    hide Extends, Owns;
    forall c | c in cs ensures Owns(cfg, h, l', c.oldKey, c.txnId) {
      OwnsForever(cfg, h, l, l', c.oldKey, c.txnId);
    }
  }

  lemma UpdatesOwn(cfg: Settings, h: Home, l: Ledger, c: Correction)
    requires c.Update?
    ensures SettlingKeeps(c, RowOwns(cfg, h, l))
  {
    hide Owns;
  }

  lemma PlainCorrectionOwns(w: World, cfg: Settings, h: Home, budget: string, snapshot: Ledger, since: Option<int>,
                            c: Correction)
    requires StoresAtHome(cfg, h, w.ledger, w.table) && UpdateAtHome(h, budget, c)
    requires AllRows(w.table, RowOwns(cfg, h, w.ledger))
    ensures var w' := Correct(w, budget, snapshot, since, c); AllRows(w'.table, RowOwns(cfg, h, w'.ledger))
  {
    var w' := Correct(w, budget, snapshot, since, c);
    PlainCorrectionStaysHome(w, cfg, h, budget, snapshot, since, c);
    hide Correct, AllRows, StoresAtHome, Extends;
    RowsOwnForever(cfg, h, w.ledger, w'.ledger, w.table);
    UpdatesOwn(cfg, h, w'.ledger, c);
    CorrectKeeps(w, budget, snapshot, since, c, w.now, RowOwns(cfg, h, w'.ledger));
  }

  lemma AnsweredMatchOwns(cfg: Settings, h: Home, l: Ledger, l1: Ledger, l': Ledger, budget: string, m: ManualMatch,
                          r: Response, row: Reported, now: int)
    requires AnswersFirst(l, budget, [m.payload], l1, r) && row in r.rows && Extends(l, l') && Extends(l1, l')
    requires NamedFor(cfg, h, m.trackingKey, m.payload.importId) && m.originalId < |l| && l[m.originalId].importId.None?
    ensures MatchRecords(budget, [m], row, now, RowOwns(cfg, h, l'))
  {
    hide Burned, FirstPayload, RecordingKeeps, MatchFacts, NamedFor, FindMatch, Extends;
    if row.importId.Some? && FindMatch([m], row.importId.value).Some? {
      FoundMatch([m], row.importId.value);
      assert Owns(cfg, h, l, m.trackingKey, m.originalId) && Owns(cfg, h, l1, m.trackingKey, row.id);
      OwnsForever(cfg, h, l, l', m.trackingKey, m.originalId);
      OwnsForever(cfg, h, l1, l', m.trackingKey, row.id);
      MatchFactsId(budget, m, m.originalId);
      MatchFactsId(budget, m, row.id);
      OwningFacts(cfg, h, l', m.trackingKey, MatchFacts(budget, m, m.originalId), now);
      OwningFacts(cfg, h, l', m.trackingKey, MatchFacts(budget, m, row.id), now);
    }
  }

  lemma MatchFactsId(budget: string, m: ManualMatch, id: nat)
    ensures MatchFacts(budget, m, id).txnId == id
  {
  }

  lemma FoundMatch(matches: seq<ManualMatch>, id: string)
    requires FindMatch(matches, id).Some?
    ensures FindMatch(matches, id).value in matches && FindMatch(matches, id).value.payload.importId == id
  {
  }

  /** The answer that MatchOwns relies on. */
  lemma MatchAnswers(w: World, cfg: Settings, h: Home, budget: string, m: ManualMatch)
    requires w.status == Running && StoresAtHome(cfg, h, w.ledger, w.table) && PayloadAtHome(cfg, h, budget, m.payload)
    ensures var w' := SubmitMatches(w, cfg, Batch(budget, [m]));
            var (posted, r) := PostCreates(w, cfg, budget, MatchPayloads([m]));
            && Extends(w.ledger, w'.ledger) && Extends(posted.ledger, w'.ledger)
            && (posted.status == Running ==> AnswersFirst(w.ledger, budget, [m.payload], posted.ledger, r))
  {
    var ps := MatchPayloads([m]);
    var (posted, r) := PostCreates(w, cfg, budget, ps);
    assert ps == [m.payload];
    hide SubmitMatches, PostCreates, CreateAll, MatchPayloads;
    hide AllRows, UniqueIds, ImportsAtHome, AnswersFirst, PayloadAtHome;
    MatchedLedgerStaysHome(w, cfg, h, budget, m);
    SubmitMatchesKeepsIds(w, cfg, Batch(budget, [m]));
    if posted.status == Running {
      AnsweredPost(w, cfg, budget, ps);
      CreateAllAnswersFirst(w.ledger, cfg.native, budget, ps);
    }
  }

  lemma MatchOwns(w: World, cfg: Settings, h: Home, budget: string, m: ManualMatch)
    requires w.status == Running && StoresAtHome(cfg, h, w.ledger, w.table) && PayloadAtHome(cfg, h, budget, m.payload)
    requires m.trackingKey in w.table && NamedFor(cfg, h, m.trackingKey, m.payload.importId)
    requires m.originalId < |w.ledger| && w.ledger[m.originalId].importId.None?
    requires AllRows(w.table, RowOwns(cfg, h, w.ledger))
    ensures var w' := SubmitMatches(w, cfg, Batch(budget, [m])); AllRows(w'.table, RowOwns(cfg, h, w'.ledger))
  {
    var w' := SubmitMatches(w, cfg, Batch(budget, [m]));
    var (posted, r) := PostCreates(w, cfg, budget, MatchPayloads([m]));
    var has := RowOwns(cfg, h, w'.ledger);
    MatchAnswers(w, cfg, h, budget, m);
    hide SubmitMatches, PostCreates, MatchPayloads, AllRows, Extends, NamedFor, MatchRecords, AnswersFirst, StoresAtHome,
         PayloadAtHome, RowOwns, KeysTracked;
    OneTracked(m, w.table);
    RowsOwnForever(cfg, h, w.ledger, w'.ledger, w.table);
    if posted.status == Running {
      forall row | row in r.rows ensures MatchRecords(budget, [m], row, w.now, has) {
        AnsweredMatchOwns(cfg, h, w.ledger, posted.ledger, w'.ledger, budget, m, r, row, w.now);
      }
    }
    SubmitMatchesHas(w, cfg, Batch(budget, [m]), w.now, has);
  }

  lemma OneTracked(m: ManualMatch, t: Table)
    requires m.trackingKey in t
    ensures KeysTracked([m], t)
  {
  }

  lemma GoneOwns(w: World, cfg: Settings, h: Home, budget: string, c: Correction, r: Row)
    requires AllRows(w.table, RowOwns(cfg, h, w.ledger)) && Owns(cfg, h, w.ledger, c.oldKey, c.txnId)
    ensures AllRows(Record(w, c.oldKey, GoneFacts(r, budget, c)).table, RowOwns(cfg, h, w.ledger))
  {
    assert GoneFacts(r, budget, c).txnId == c.txnId;
    hide GoneFacts, AllRows, Owns, Record;
    OwningFacts(cfg, h, w.ledger, c.oldKey, GoneFacts(r, budget, c), w.now);
    RecordKeeps(w, c.oldKey, GoneFacts(r, budget, c), w.now, RowOwns(cfg, h, w.ledger));
  }

  lemma RecoveryOwns(w: World, cfg: Settings, h: Home, budget: string, c: Correction)
    requires StoresAtHome(cfg, h, w.ledger, w.table) && UpdateAtHome(h, budget, c)
    requires AllRows(w.table, RowOwns(cfg, h, w.ledger)) && Owns(cfg, h, w.ledger, c.oldKey, c.txnId)
    ensures var w' := RecoverMissing(w, cfg, budget, c); AllRows(w'.table, RowOwns(cfg, h, w'.ledger))
  {
    RecoverMissingShape(w, cfg, budget, c);
    ReadKeepsStores(w);
    hide RecoverMissing, Replacements, ReplacementMatch, SubmitMatches, StoresAtHome, PayloadAtHome, NamedFor, AllRows;
    hide Read, Record, GoneFacts, UpdateAtHome, Owns;
    if c.oldKey in w.table {
      var r := w.table[c.oldKey];
      var found := Replacements(w.ledger, cfg, budget, r, c.newAmount);
      GoneOwns(Read(w), cfg, h, budget, c, r);
      RecordKeepsLedger(Read(w), c.oldKey, GoneFacts(r, budget, c));
      if |found| == 1 && Read(w).status == Running {
        assert found[0] in found;
        RepeatedRecovery.ReplacementIsTyped(w.ledger, cfg, budget, r, c.newAmount, found[0]);
        ReplacementAtHome(cfg, h, budget, r, c, found[0]);
        ReplacementOriginal(cfg, r, c, found[0]);
        MatchOwns(Read(w), cfg, h, budget, ReplacementMatch(cfg.hash, r, c, found[0]));
      }
    }
  }

  lemma RecordKeepsLedger(w: World, key: string, facts: Facts)
    ensures Record(w, key, facts).ledger == w.ledger
  {
  }

  lemma ReplacementOriginal(cfg: Settings, r: Row, c: Correction, x: PendingMatch.ManualCandidate)
    ensures var m := ReplacementMatch(cfg.hash, r, c, x); m.originalId == x.id && m.status == Booked
  {
    hide ReevalId;
  }

  lemma CorrectionOwns(w: World, cfg: Settings, h: Home, budget: string, snapshot: Ledger, since: Option<int>,
                       c: Correction)
    requires StoresAtHome(cfg, h, w.ledger, w.table) && UpdateAtHome(h, budget, c)
    requires AllRows(w.table, RowOwns(cfg, h, w.ledger)) && Owns(cfg, h, w.ledger, c.oldKey, c.txnId)
    ensures var w' := CorrectFully(w, cfg, budget, snapshot, since, c); AllRows(w'.table, RowOwns(cfg, h, w'.ledger))
  {
    var w1 := Correct(w, budget, snapshot, since, c).(status := Running);
    PlainCorrectionOwns(w, cfg, h, budget, snapshot, since, c);
    PlainCorrectionStaysHome(w, cfg, h, budget, snapshot, since, c);
    hide Correct, RecoverMissing, StoresAtHome, UpdateAtHome, AllRows, Owns, Extends;
    OwnsForever(cfg, h, w.ledger, w1.ledger, c.oldKey, c.txnId);
    RecoveryOwns(w1, cfg, h, budget, c);
  }

  lemma {:induction false} CorrectAllOwns(w: World, cfg: Settings, h: Home, budget: string, snapshot: Ledger,
                                          since: Option<int>, cs: seq<Correction>)
    requires StoresAtHome(cfg, h, w.ledger, w.table) && forall c :: c in cs ==> UpdateAtHome(h, budget, c)
    requires AllRows(w.table, RowOwns(cfg, h, w.ledger)) && TargetsOwned(cfg, h, w.ledger, cs)
    ensures var w' := CorrectAllFully(w, cfg, budget, snapshot, since, cs);
            AllRows(w'.table, RowOwns(cfg, h, w'.ledger))
    decreases |cs|
  {
    hide StoresAtHome, UpdateAtHome, CorrectFully, AllRows, Extends, Owns;
    if cs != [] && w.status == Running {
      var w1 := CorrectFully(w, cfg, budget, snapshot, since, cs[0]);
      CorrectionStaysHome(w, cfg, h, budget, snapshot, since, cs[0]);
      CorrectionOwns(w, cfg, h, budget, snapshot, since, cs[0]);
      TargetsOwnedForever(cfg, h, w.ledger, w1.ledger, cs);
      assert forall c :: c in cs[1..] ==> c in cs;
      CorrectAllOwns(w1, cfg, h, budget, snapshot, since, cs[1..]);
    }
  }

  ghost predicate CycleTargetsOwned(cfg: Settings, h: Home, l: Ledger, cycle: Cycle) {
    forall b :: TargetsOwned(cfg, h, l, Lookup(cycle.updates, b))
  }

  lemma CycleTargetsForever(cfg: Settings, h: Home, l: Ledger, l': Ledger, cycle: Cycle)
    requires Extends(l, l') && CycleTargetsOwned(cfg, h, l, cycle)
    ensures CycleTargetsOwned(cfg, h, l', cycle)
  {
    hide Extends, TargetsOwned;
    forall b ensures TargetsOwned(cfg, h, l', Lookup(cycle.updates, b)) {
      TargetsOwnedForever(cfg, h, l, l', Lookup(cycle.updates, b));
    }
  }

  lemma BudgetOwns(w: World, cfg: Settings, h: Home, cycle: Cycle, budget: string)
    requires StoresAtHome(cfg, h, w.ledger, w.table) && CycleAtHome(h, cycle)
             && CycleTargetsOwned(cfg, h, w.ledger, cycle)
    requires AllRows(w.table, RowOwns(cfg, h, w.ledger))
    ensures var w' := CorrectBudgetFully(w, cfg, cycle, budget); AllRows(w'.table, RowOwns(cfg, h, w'.ledger))
  {
    var cs := CorrectionsOf(cycle, budget);
    OnlyUpdates(h, cycle);
    assert TargetsOwned(cfg, h, w.ledger, Lookup(cycle.updates, budget));
    ReadKeepsStores(w);
    hide StoresAtHome, CorrectionsOf, CorrectAllFully, CycleAtHome, AllRows, Owns, Read, Lookup, UpdateAtHome;
    CorrectAllOwns(Read(w), cfg, h, budget, w.ledger, SinceOf(cfg, cs), cs);
  }

  lemma {:induction false} CorrectionsOwn(w: World, cfg: Settings, h: Home, cycle: Cycle, budgets: seq<string>)
    requires StoresAtHome(cfg, h, w.ledger, w.table) && CycleAtHome(h, cycle)
             && CycleTargetsOwned(cfg, h, w.ledger, cycle)
    requires AllRows(w.table, RowOwns(cfg, h, w.ledger))
    ensures var w' := CorrectionsPhaseFully(w, cfg, cycle, budgets); AllRows(w'.table, RowOwns(cfg, h, w'.ledger))
    decreases |budgets|
  {
    hide StoresAtHome, CorrectBudgetFully, CycleAtHome, AllRows, CycleTargetsOwned, Extends;
    if budgets != [] && w.status == Running {
      var w1 := CorrectBudgetFully(w, cfg, cycle, budgets[0]);
      BudgetStaysHome(w, cfg, h, cycle, budgets[0]);
      BudgetOwns(w, cfg, h, cycle, budgets[0]);
      CycleTargetsForever(cfg, h, w.ledger, w1.ledger, cycle);
      CorrectionsOwn(w1, cfg, h, cycle, budgets[1..]);
    }
  }

  /** A whole attempt with its recoveries, on any script. */
  lemma SubmitOwns(w: World, cfg: Settings, h: Home, cycle: Cycle, budgets: seq<string>)
    requires StoresAtHome(cfg, h, w.ledger, w.table) && CycleAtHome(h, cycle)
             && CycleTargetsOwned(cfg, h, w.ledger, cycle)
    requires AllRows(w.table, RowOwns(cfg, h, w.ledger))
    ensures var w' := SubmitFully(w, cfg, cycle, budgets); AllRows(w'.table, RowOwns(cfg, h, w'.ledger))
  {
    var w1 := CreatesPhase(w, cfg, cycle.creates);
    CreatesStayHome(w, cfg, h, cycle.creates);
    CreatesOwn(w, cfg, h, cycle.creates);
    assert cycle.matches == [];
    hide StoresAtHome, CreatesPhase, CorrectBudgetFully, Imported, Extends, AllRows, CycleTargetsOwned, CycleAtHome;
    CycleTargetsForever(cfg, h, w.ledger, w1.ledger, cycle);
    CorrectionsOwn(w1, cfg, h, cycle, budgets);
    assert SubmitFully(w, cfg, cycle, budgets) == CorrectionsPhaseFully(w1, cfg, cycle, budgets);
  }

  // --- runs ---------------------------------------------------------------------------------------------------

  /** Every row is for a transaction of its own, and so was every row when the cached job was fetched. */
  ghost predicate AllOwned(m: Machine, s: Store) {
    && AllRows(s.table, RowOwns(m.cfg, m.home, s.ledger))
    && (s.cached.Some? ==> AllRows(s.cached.value.ctx.table, RowOwns(m.cfg, m.home, s.ledger)))
  }

  lemma FreshStoreOwned(m: Machine, l: Ledger, clock: int)
    ensures AllOwned(m, Store(map[], map[], l, clock, None, []))
  {
  }

  lemma JobTargets(m: Machine, l: Ledger, job: Job)
    requires FiledExactly(job.ctx, CycleOf(job.ctx, job.feed), job.feed)
    requires AllRows(job.ctx.table, RowOwns(m.cfg, m.home, l))
    ensures CycleTargetsOwned(m.cfg, m.home, l, CycleOf(job.ctx, job.feed))
  {
    hide CycleOf, Owns, Accepted, AmountsAgree;
    var cycle := CycleOf(job.ctx, job.feed);
    forall b, c | c in Lookup(cycle.updates, b) ensures Owns(m.cfg, m.home, l, c.oldKey, c.txnId) {
      assert UpdateFrom(job.ctx, job.feed, b, c);
      assert RowOwns(m.cfg, m.home, l)(c.oldKey, job.ctx.table[c.oldKey]);
    }
  }

  lemma SubmissionKeepsOwned(m: Machine, s: Store, t: Try)
    requires Inv(m, s) && s.cached.Some? && AllOwned(m, s)
    ensures AllOwned(m, AfterSubmission(m, s, t))
  {
    var job, w0 := s.cached.value, Attempt(s.table, s.ledger, t.script, t.now);
    var cycle, w := CycleOf(job.ctx, job.feed), SubmissionOf(m, s, job, t);
    JobAtHome(m, job);
    JobTargets(m, s.ledger, job);
    SubmissionStep(m, s, t);
    hide CycleOf, FiledExactly, SubmitFully, StoresAtHome, Extends, TrackedImported, Imported, FromSource, AllRows;
    hide CreatesImported, CycleAtHome, TrackedInBudget, ExactCycle, AfterSubmission, CycleTargetsOwned;
    SubmitOwns(w0, m.cfg, m.home, cycle, t.budgets);
    SubmitStaysHome(w0, m.cfg, m.home, cycle, t.budgets);
    RowsOwnForever(m.cfg, m.home, s.ledger, w.ledger, job.ctx.table);
  }

  lemma EditKeepsOwning(cfg: Settings, h: Home, l: Ledger, l': Ledger, t: Table)
    requires KeepsIds(l, l') && AllRows(t, RowOwns(cfg, h, l))
    ensures AllRows(t, RowOwns(cfg, h, l'))
  {
    hide AmountsAgree, Owns, KeepsIds;
    forall k | k in t ensures AmountsAgree(t[k]) && RowOwns(cfg, h, l')(k, t[k]) {
      assert RowOwns(cfg, h, l)(k, t[k]);
      EditKeepsOwn(cfg, h, l, l', k, t[k].facts.txnId);
    }
  }

  lemma EditKeepsOwn(cfg: Settings, h: Home, l: Ledger, l': Ledger, key: string, id: nat)
    requires KeepsIds(l, l') && Owns(cfg, h, l, key, id)
    ensures Owns(cfg, h, l', key, id)
  {
    hide NamedFor;
    assert l'[id].importId == l[id].importId;
  }

  lemma StepKeepsOwned(m: Machine, s: Store, e: Event)
    requires Inv(m, s) && Possible(m, s, e) && AllOwned(m, s)
    ensures AllOwned(m, Step(m, s, e))
  {
    hide Inv, SubmissionOf, AfterSubmission, FeedFits, KeepsIds, Owns, AmountsAgree;
    match e
    case Fetch(feed, scan, synced, now) =>
    case Submission(t) =>
      if s.cached.Some? { SubmissionKeepsOwned(m, s, t); } else { NothingCached(m, s, t); }
    case UserEdits(l) =>
      EditKeepsOwning(m.cfg, m.home, s.ledger, l, s.table);
      if s.cached.Some? { EditKeepsOwning(m.cfg, m.home, s.ledger, l, s.cached.value.ctx.table); }
    case PruneBooked(cutoff) =>
    case LoseDatabase =>
    case Forget =>
  }

  lemma NothingCached(m: Machine, s: Store, t: Try)
    requires s.cached.None?
    ensures AfterSubmission(m, s, t) == s
  {
  }

  /** However the run went, every row is for a transaction without an import_id or with one of its own key. */
  lemma {:induction false} RunKeepsOwned(m: Machine, s: Store, events: seq<Event>)
    requires Inv(m, s) && PossibleRun(m, s, events) && AllOwned(m, s)
    ensures Inv(m, Run(m, s, events)) && AllOwned(m, Run(m, s, events))
    decreases |events|
  {
    hide Inv, Step, Possible, AllOwned;
    if events != [] {
      StepKeepsInv(m, s, events[0]);
      StepKeepsOwned(m, s, events[0]);
      RunKeepsOwned(m, Step(m, s, events[0]), events[1..]);
    }
  }
}
