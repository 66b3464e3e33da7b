/**
 * When a success leaves rows that say what YNAB shows: for every transaction
 * that comes to be tracked, by what was reported first and last of it.
 */
module Mirroring {
  import opened Wrappers
  import opened Ynab
  import opened StateDb
  import opened SyncSpec
  import opened Creation
  import opened Classification
  import opened Filing
  import opened RowFacts
  import opened RowRecords
  import opened TrackedKeys
  import opened Recovery
  import opened RecoveryFacts
  import opened AttemptEffects
  import opened OwnTransactions
  import opened UntouchedImports
  import opened Runs
  import Money

  /** YNAB shows what the row says: its amount, and cleared exactly if the row is. */
  predicate Mirrors(l: Ledger, r: Row) {
    && r.facts.txnId < |l| && l[r.facts.txnId].amount == r.amountMilliunits
    && l[r.facts.txnId].cleared == r.facts.cleared
  }

  // --- the row of a key that comes to be tracked -------------------------------------------------------------------

  /** No other key has this one's import_id, nor has a recovery of another one's row. */
  ghost predicate OwnName(cfg: Settings, h: Home, key: string) {
    forall k :: NamedFor(cfg, h, k, h.idOf(key)) ==> k == key
  }

  /** The row is for what the lookup finds, over its amount. */
  ghost predicate FoundRow(cfg: Settings, l: Ledger, budget: string, p: Create, l': Ledger, r: Row) {
    && LookUp(l, cfg, budget, p) == Some(r.facts.txnId) && r.facts.txnId < |l'|
    && l'[r.facts.txnId] == l[r.facts.txnId] && r.amountMilliunits == l[r.facts.txnId].amount
  }

  /** The row has the amount of the last create, its own transaction what the first one asked for. */
  ghost predicate CreatedRow(first: Payload, p: Create, l': Ledger, r: Row) {
    && r.facts.txnId < |l'| && r.amountMilliunits == p.payload.amount
    && var txn := l'[r.facts.txnId];
       txn.importId.Some? ==>
         txn.importId == Some(p.payload.importId) && txn.amount == first.amount && txn.cleared == first.cleared
  }

  /** What the creates leave under the key of p: p is the last create with its import_id, `first` the first payload. */
  ghost predicate RowFor(cfg: Settings, l: Ledger, budget: string, first: Payload, p: Create, l': Ledger, r: Row) {
    && r.facts.cleared == p.payload.cleared
    && if Burned(l, budget, p.payload.importId) then
         r.facts.status == Deleted || FoundRow(cfg, l, budget, p, l', r)
       else CreatedRow(first, p, l', r)
  }

  ghost function HasRowFor(cfg: Settings, l: Ledger, budget: string, first: Payload, p: Create,
                           l': Ledger): RowProperty {
    (k: string, r: Row) => k == p.trackingKey ==> RowFor(cfg, l, budget, first, p, l', r)
  }

  lemma RowForStays(cfg: Settings, l: Ledger, budget: string, first: Payload, p: Create, l1: Ledger, l2: Ledger, r: Row)
    requires RowFor(cfg, l, budget, first, p, l1, r) && ImportsStay(l1, l2) && Extends(l1, l2)
    ensures RowFor(cfg, l, budget, first, p, l2, r)
  {
    LookUpHolds(l, cfg, budget, p);
    hide LookUp, Burned;
    if r.facts.txnId < |l1| {
      assert SameIdentity(l1[r.facts.txnId], l2[r.facts.txnId]);
    }
  }

  /** RowFor looks at the facts and the amount alone. */
  lemma RecordsRow(cfg: Settings, l: Ledger, budget: string, first: Payload, p: Create, l': Ledger, facts: Facts,
                   now: int)
    requires RowFor(cfg, l, budget, first, p, l', Row(facts, Money.ToMilliunits(facts.amount), now, 0))
    ensures RecordingKeeps(now, p.trackingKey, facts, HasRowFor(cfg, l, budget, first, p, l'))
  {
    var has, amount := HasRowFor(cfg, l, budget, first, p, l'), Money.ToMilliunits(facts.amount);
    hide RowFor, Money.ToMilliunits;
    assert has(p.trackingKey, Row(facts, amount, now, 0));
    forall r: Row ensures has(p.trackingKey, Row(facts, amount, r.firstSeenAt, r.readdCount)) {
      SameFactsRow(cfg, l, budget, first, p, l', Row(facts, amount, now, 0),
                   Row(facts, amount, r.firstSeenAt, r.readdCount));
    }
  }

  lemma SameFactsRow(cfg: Settings, l: Ledger, budget: string, first: Payload, p: Create, l': Ledger, r: Row, r': Row)
    requires RowFor(cfg, l, budget, first, p, l', r) && r'.facts == r.facts && r'.amountMilliunits == r.amountMilliunits
    ensures RowFor(cfg, l, budget, first, p, l', r')
  {
    hide Burned, LookUp;
  }

  /** p is the create that is recorded under the import_id of its key, and `first` the first payload with it. */
  ghost predicate Sole(h: Home, budget: string, creates: seq<Create>, first: Payload, p: Create) {
    && (forall q :: q in creates ==> CreateAtHome(h, budget, q))
    && FindCreate(creates, h.idOf(p.trackingKey)) == Some(p)
    && FirstPayload(Payloads(creates), h.idOf(p.trackingKey)) == Some(first)
  }

  lemma SoleFound(h: Home, budget: string, creates: seq<Create>, first: Payload, p: Create, id: string)
    requires Sole(h, budget, creates, first, p) && FindCreate(creates, id).Some?
    ensures p.payload.importId == h.idOf(p.trackingKey) && p in creates
    ensures FindCreate(creates, id).value.trackingKey == p.trackingKey ==>
        FindCreate(creates, id).value == p && id == p.payload.importId
  {
    FoundHasId(creates, id);
    FoundHasId(creates, h.idOf(p.trackingKey));
    hide FindCreate, FirstPayload;
    assert CreateAtHome(h, budget, FindCreate(creates, id).value) && CreateAtHome(h, budget, p);
  }

  lemma AnswerHasRow(cfg: Settings, h: Home, l: Ledger, l1: Ledger, l': Ledger, budget: string, r: Response,
                     creates: seq<Create>, row: Reported, now: int, first: Payload, p: Create)
    requires Sole(h, budget, creates, first, p) && AnswersFirst(l, budget, Payloads(creates), l1, r) && row in r.rows
    requires ImportsStay(l1, l') && Extends(l1, l')
    ensures AnswerRecords(budget, creates, row, now, HasRowFor(cfg, l, budget, first, p, l'))
  {
    if row.importId.Some? && FindCreate(creates, row.importId.value).Some? {
      var id := row.importId.value;
      var q := FindCreate(creates, id).value;
      SoleFound(h, budget, creates, first, p, id);
      hide FindCreate, FirstPayload, Burned, Payloads, CreateAtHome, RecordingKeeps;
      if q.trackingKey == p.trackingKey {
        assert Created(l, l1, budget, first, row);
        TargetStays(l, l1, l', budget, first, row);
        forall payee
          ensures RecordingKeeps(now, p.trackingKey,
                                 CreateFacts(budget, p, TargetOf(row), p.status, p.payload.amount, payee),
                                 HasRowFor(cfg, l, budget, first, p, l'))
        {
          CreatedHasRow(cfg, l, budget, first, p, l', TargetOf(row), payee, now);
        }
      } else {
        OtherKeyKeeps(cfg, l, budget, first, p, l', q.trackingKey, now);
      }
    }
  }

  lemma OtherKeyKeeps(cfg: Settings, l: Ledger, budget: string, first: Payload, p: Create, l': Ledger, key: string,
                      now: int)
    requires key != p.trackingKey
    ensures forall facts :: RecordingKeeps(now, key, facts, HasRowFor(cfg, l, budget, first, p, l'))
  {
    hide RowFor;
  }

  /** The transaction an answer is for: created for the first payload, or matched and without an import_id. */
  ghost predicate FirstTxn(l: Ledger, first: Payload, id: nat) {
    id < |l| && (l[id].importId.Some? ==>
      l[id].importId == Some(first.importId) && l[id].amount == first.amount && l[id].cleared == first.cleared)
  }

  lemma TargetStays(l: Ledger, l1: Ledger, l': Ledger, budget: string, first: Payload, row: Reported)
    requires Created(l, l1, budget, first, row) && ImportsStay(l1, l') && Extends(l1, l')
    ensures FirstTxn(l', first, TargetOf(row))
  {
    assert SameIdentity(l1[TargetOf(row)], l'[TargetOf(row)]);
  }

  lemma CreatedHasRow(cfg: Settings, l: Ledger, budget: string, first: Payload, p: Create, l': Ledger, id: nat,
                      payee: string, now: int)
    requires !Burned(l, budget, p.payload.importId) && first.importId == p.payload.importId && FirstTxn(l', first, id)
    ensures RecordingKeeps(now, p.trackingKey, CreateFacts(budget, p, id, p.status, p.payload.amount, payee),
                           HasRowFor(cfg, l, budget, first, p, l'))
  {
    hide Burned, LookUp, RecordingKeeps;
    var facts := CreateFacts(budget, p, id, p.status, p.payload.amount, payee);
    Money.MilliunitsRoundTrip(p.payload.amount);
    hide Money.ToMilliunits, Money.FromMilliunits;
    RecordsRow(cfg, l, budget, first, p, l', facts, now);
  }

  lemma FoundHasRow(cfg: Settings, l: Ledger, budget: string, first: Payload, p: Create, l': Ledger, now: int)
    requires Burned(l, budget, p.payload.importId) && ImportsStay(l, l')
             && LookUp(l', cfg, budget, p) == LookUp(l, cfg, budget, p)
    ensures FoundRecords(cfg, l', budget, p, now, HasRowFor(cfg, l, budget, first, p, l'))
  {
    LookUpHolds(l, cfg, budget, p);
    hide Burned, LookUp, LookUpGone, RecordingKeeps;
    var existing, gone := LookUp(l', cfg, budget, p), LookUpGone(l', cfg, budget, p);
    if existing.Some? {
      Money.MilliunitsRoundTrip(l'[existing.value].amount);
      hide Money.ToMilliunits, Money.FromMilliunits;
      RecordsRow(cfg, l, budget, first, p, l', RecoveredFacts(l', budget, p, existing.value), now);
    } else if gone.Some? {
      hide Money.ToMilliunits, Money.FromMilliunits;
      RecordsRow(cfg, l, budget, first, p, l', DeletedFacts(budget, p, gone.value), now);
    }
  }

  lemma OtherKeyFound(cfg: Settings, l: Ledger, budget: string, first: Payload, p: Create, l': Ledger, q: Create,
                      now: int)
    requires q.trackingKey != p.trackingKey
    ensures FoundRecords(cfg, l', budget, q, now, HasRowFor(cfg, l, budget, first, p, l'))
  {
    hide LookUp, LookUpGone, RecordingKeeps;
    OtherKeyKeeps(cfg, l, budget, first, p, l', q.trackingKey, now);
  }

  lemma DuplicateHasRow(w: World, cfg: Settings, h: Home, batch: Batch<Create>, posted: World, recorded: World,
                        r: Response,
                        first: Payload, p: Create, id: string)
    requires PostCreates(w, cfg, batch.budget, Payloads(batch.items)) == (posted, r) && posted.status == Running
    requires recorded == RecordCreated(posted, cfg, batch.budget, batch.items, r.rows) && recorded.status == Running
    requires AnswersFirst(w.ledger, batch.budget, Payloads(batch.items), posted.ledger, r)
    requires Sole(h, batch.budget, batch.items, first, p) && ImportsStay(w.ledger, recorded.ledger)
    ensures DuplicateRecords(cfg, recorded.ledger, batch.budget, batch.items, id, recorded.table, w.now,
                             HasRowFor(cfg, w.ledger, batch.budget, first, p, recorded.ledger))
  {
    var b, items := batch.budget, batch.items;
    if FindCreate(items, id).Some? {
      var q := FindCreate(items, id).value;
      SoleFound(h, b, items, first, p, id);
      hide PostCreates, RecordCreated, FindCreate, FirstPayload, Burned, Payloads, CreateAtHome, RecordingKeeps, LookUp;
      hide FoundRecords, AnswersFirst, HasRowFor;
      if q.trackingKey != p.trackingKey {
        OtherKeyFound(cfg, w.ledger, b, first, p, recorded.ledger, q, w.now);
      } else if Burned(w.ledger, b, p.payload.importId) {
        FoundThroughout(w, cfg, batch, posted, recorded, r, p);
        FoundHasRow(cfg, w.ledger, b, first, p, recorded.ledger, w.now);
      } else {
        AnsweredIsTracked(w, cfg, batch, posted, recorded, r, p);
      }
    }
  }

  /** An import_id that was not burned is answered, and the key of its create tracked. */
  lemma AnsweredIsTracked(w: World, cfg: Settings, batch: Batch<Create>, posted: World, recorded: World, r: Response,
                          p: Create)
    requires AnswersFirst(w.ledger, batch.budget, Payloads(batch.items), posted.ledger, r)
    requires recorded == RecordCreated(posted, cfg, batch.budget, batch.items, r.rows) && recorded.status == Running
    requires p in batch.items && FindCreate(batch.items, p.payload.importId) == Some(p)
    requires !Burned(w.ledger, batch.budget, p.payload.importId)
    ensures p.trackingKey in recorded.table
  {
    PayloadOf(batch.items, p);
    hide RecordCreated, FindCreate, FirstPayload, Burned, Payloads;
    var row :| row in r.rows && row.importId == Some(p.payload.importId);
    RecordCreatedTracks(posted, cfg, batch.budget, batch.items, r.rows, p.trackingKey);
    assert RowTracks(batch.items, row, p.trackingKey);
  }

  /** What the rest relies on of a batch that went through. */
  lemma BatchCut(w: World, cfg: Settings, h: Home, batch: Batch<Create>)
    requires SubmitCreates(w, cfg, batch).status == Running && StoresAtHome(cfg, h, w.ledger, w.table)
    requires BatchAtHome(h, batch) && NoSecondaries(batch.items)
    ensures var w' := SubmitCreates(w, cfg, batch);
            var (posted, r) := PostCreates(w, cfg, batch.budget, Payloads(batch.items));
            var recorded := RecordCreated(posted, cfg, batch.budget, batch.items, r.rows);
            && posted.status == recorded.status == Running && w'.ledger == recorded.ledger
            && ImportsStay(w.ledger, w'.ledger) && ImportsStay(posted.ledger, w'.ledger)
            && Extends(w.ledger, w'.ledger) && Extends(posted.ledger, w'.ledger)
            && AnswersFirst(w.ledger, batch.budget, Payloads(batch.items), posted.ledger, r)
  {
    var b, ps := batch.budget, Payloads(batch.items);
    hide SubmitCreates, PostCreates, RecordCreated, CreateAll, Payloads, UniqueIds, ImportsAtHome, BatchAtHome, AllRows;
    hide AnswersFirst, Extends, Backfill, Imported, ImportsStay;
    BatchRuns(w, cfg, batch);
    BatchKeepsImports(w, cfg, batch);
    AnsweredPost(w, cfg, b, ps);
    CreateAllAnswersFirst(w.ledger, cfg.native, b, ps);
    BatchLedger(w, cfg, h, batch);
  }

  lemma NothingToHave(cfg: Settings, h: Home, l0: Ledger, t: Table, l: Ledger, budget: string, first: Payload,
                      p: Create,
                      l': Ledger)
    requires StoresAtHome(cfg, h, l0, t) && p.trackingKey !in t
    ensures AllRows(t, HasRowFor(cfg, l, budget, first, p, l'))
  {
    hide RowFor, UniqueIds, ImportsAtHome, RowAtHome;
  }

  /** The batch of an untracked key, if it went through. */
  lemma BatchRow(w: World, cfg: Settings, h: Home, batch: Batch<Create>, first: Payload, p: Create)
    requires SubmitCreates(w, cfg, batch).status == Running && StoresAtHome(cfg, h, w.ledger, w.table)
    requires Sole(h, batch.budget, batch.items, first, p) && p.trackingKey !in w.table
    ensures var w' := SubmitCreates(w, cfg, batch);
            p.trackingKey in w'.table ==>
              RowFor(cfg, w.ledger, batch.budget, first, p, w'.ledger, w'.table[p.trackingKey])
  {
    var b, items, w' := batch.budget, batch.items, SubmitCreates(w, cfg, batch);
    var (posted, r) := PostCreates(w, cfg, b, Payloads(items));
    var recorded := RecordCreated(posted, cfg, b, items, r.rows);
    var has := HasRowFor(cfg, w.ledger, b, first, p, w'.ledger);
    SoleNoSecondaries(h, b, items, first, p);
    hide SubmitCreates, PostCreates, RecordCreated, Payloads, StoresAtHome;
    hide Sole, RowFor, AllRows, NoSecondaries, BatchAtHome;
    hide AnswerRecords, DuplicateRecords, AnswersFirst, Extends, ImportsStay;
    BatchCut(w, cfg, h, batch);
    forall row | row in r.rows ensures AnswerRecords(b, items, row, w.now, has) {
      AnswerHasRow(cfg, h, w.ledger, posted.ledger, w'.ledger, b, r, items, row, w.now, first, p);
    }
    forall id | id in r.duplicates
      ensures DuplicateRecords(cfg, recorded.ledger, b, items, id, recorded.table, w.now, has)
    {
      DuplicateHasRow(w, cfg, h, batch, posted, recorded, r, first, p, id);
    }
    NothingToHave(cfg, h, w.ledger, w.table, w.ledger, b, first, p, w'.ledger);
    SubmitCreatesHas(w, cfg, batch, w.now, has);
    RowHas(w'.table, p.trackingKey, has);
  }

  lemma SoleNoSecondaries(h: Home, budget: string, creates: seq<Create>, first: Payload, p: Create)
    requires Sole(h, budget, creates, first, p)
    ensures NoSecondaries(creates) && BatchAtHome(h, Batch(budget, creates))
  {
    hide FindCreate, FirstPayload;
    forall q | q in creates ensures q.secondary.None? { HasNoSecondary(h, budget, q); }
  }

  // --- all batches ----------------------------------------------------------------------------------------------

  ghost predicate NotCreated(batches: seq<Batch<Create>>, key: string) {
    forall b, q :: b in batches && q in b.items ==> q.trackingKey != key
  }

  /** The row is still there if it was, and as it was. */
  ghost predicate SameRowAt(t: Table, t': Table, key: string) {
    (key in t <==> key in t') && (key in t ==> t'[key] == t[key])
  }

  ghost function StillAt(t: Table, key: string): RowProperty {
    (k: string, r: Row) => k == key ==> k in t && t[k] == r
  }

  lemma StillThere(cfg: Settings, h: Home, l: Ledger, t: Table, key: string)
    requires StoresAtHome(cfg, h, l, t)
    ensures AllRows(t, StillAt(t, key))
  {
    hide UniqueIds, ImportsAtHome, RowAtHome, AmountsAgree;
  }

  lemma OtherCreatesKeep(cfg: Settings, budget: string, creates: seq<Create>, t: Table, key: string, now: int)
    requires NoSecondaries(creates) && forall q :: q in creates ==> q.trackingKey != key
    ensures CreatesHave(cfg, budget, creates, now, StillAt(t, key))
  {
    hide FindCreate, CreateFacts, Money.ToMilliunits;
    forall id | FindCreate(creates, id).Some?
      ensures CreateHas(cfg, budget, FindCreate(creates, id).value, now, StillAt(t, key))
    {
      FoundHasId(creates, id);
    }
  }

  lemma OtherBatchKeepsRow(w: World, cfg: Settings, h: Home, batch: Batch<Create>, key: string)
    requires SubmitCreates(w, cfg, batch).status == Running && StoresAtHome(cfg, h, w.ledger, w.table)
    requires NoSecondaries(batch.items) && forall q :: q in batch.items ==> q.trackingKey != key
    ensures SameRowAt(w.table, SubmitCreates(w, cfg, batch).table, key)
  {
    var w', has := SubmitCreates(w, cfg, batch), StillAt(w.table, key);
    StillThere(cfg, h, w.ledger, w.table, key);
    OtherCreatesKeep(cfg, batch.budget, batch.items, w.table, key, w.now);
    hide SubmitCreates, PostCreates, StoresAtHome, AllRows, CreatesHave, Burned, Payloads;
    SubmitCreatesKeeps(w, cfg, batch, w.now, has);
    RowHas(w'.table, key, has);
    BatchTracks(w, cfg, batch, key);
    forall id ensures !RecordsAs(cfg, w.ledger, batch, id, key) {
      FoundHasId(batch.items, id);
    }
  }

  lemma NoneCreatedHere(h: Home, batch: Batch<Create>)
    requires BatchAtHome(h, batch)
    ensures NoSecondaries(batch.items)
  {
    forall q | q in batch.items ensures q.secondary.None? {
      assert CreateAtHome(h, batch.budget, q);
    }
  }

  lemma {:induction false} OthersKeepRow(w: World, cfg: Settings, h: Home, batches: seq<Batch<Create>>, key: string)
    requires CreatesPhase(w, cfg, batches).status == Running && StoresAtHome(cfg, h, w.ledger, w.table)
    requires NotCreated(batches, key) && forall b :: b in batches ==> BatchAtHome(h, b)
    ensures var w' := CreatesPhase(w, cfg, batches);
            && SameRowAt(w.table, w'.table, key) && ImportsStay(w.ledger, w'.ledger) && Extends(w.ledger, w'.ledger)
    decreases |batches|
  {
    hide StoresAtHome, BatchAtHome, SubmitCreates, Imported, Extends;
    ExtendsRefl(w.ledger);
    if batches != [] {
      var w1 := SubmitCreates(w, cfg, batches[0]);
      assert batches[0] in batches && forall b :: b in batches[1..] ==> b in batches;
      assert w1.status == Running by { HaltedCreates(w1, cfg, batches[1..]); }
      NoneCreatedHere(h, batches[0]);
      WasRunning(w, cfg, batches);
      BatchStaysHome(w, cfg, h, batches[0]);
      OtherBatchKeepsRow(w, cfg, h, batches[0], key);
      BatchCut(w, cfg, h, batches[0]);
      OthersKeepRow(w1, cfg, h, batches[1..], key);
      ExtendsTransitive(w.ledger, w1.ledger, CreatesPhase(w1, cfg, batches[1..]).ledger);
    }
  }

  lemma WasRunning(w: World, cfg: Settings, batches: seq<Batch<Create>>)
    requires CreatesPhase(w, cfg, batches).status == Running
    ensures w.status == Running
  {
  }

  /** What RowFor says of the ledger before does not depend on other budgets' batches. */
  lemma RowForBefore(cfg: Settings, l: Ledger, l1: Ledger, budget: string, first: Payload, p: Create, l': Ledger,
                     r: Row)
    requires SameHolders(l, l1, budget, p.payload.importId) && ImportsStay(l, l1)
    requires RowFor(cfg, l1, budget, first, p, l', r)
    ensures RowFor(cfg, l, budget, first, p, l', r)
  {
    SameLookUps(l, l1, budget, p.payload.importId);
    SameFound(l, l1, cfg, budget, p);
    LookUpHolds(l, cfg, budget, p);
    hide LookUp, Burned, SameHolders;
  }

  /** The creates are named by the source, p is the last one for its import_id and `first` the first payload. */
  ghost predicate SoleIn(h: Home, batches: seq<Batch<Create>>, budget: string, first: Payload, p: Create) {
    && DistinctBudgets(batches) && (forall b :: b in batches ==> BatchAtHome(h, b))
    && budget == h.budgetOf(h.idOf(p.trackingKey)) && p.payload.importId == h.idOf(p.trackingKey)
    && forall b :: b in batches && b.budget == budget ==> Sole(h, budget, b.items, first, p)
  }

  lemma OtherBudget(h: Home, batch: Batch<Create>, key: string)
    requires BatchAtHome(h, batch) && batch.budget != h.budgetOf(h.idOf(key))
    ensures forall q :: q in batch.items ==> q.trackingKey != key
  {
    forall q | q in batch.items ensures q.trackingKey != key {
      assert CreateAtHome(h, batch.budget, q);
    }
  }

  lemma RestElsewhere(h: Home, batches: seq<Batch<Create>>, budget: string, first: Payload, p: Create)
    requires batches != [] && SoleIn(h, batches, budget, first, p)
    ensures SoleIn(h, batches[1..], budget, first, p)
    ensures batches[0].budget == budget ==> NotCreated(batches[1..], p.trackingKey)
  {
    hide Sole, BatchAtHome;
    assert forall b :: b in batches[1..] ==> b in batches;
    if batches[0].budget == budget {
      forall b, q | b in batches[1..] && q in b.items ensures q.trackingKey != p.trackingKey {
        var n :| 0 <= n < |batches[1..]| && batches[1..][n] == b;
        assert batches[n + 1] == b;
        OtherBudget(h, b, p.trackingKey);
      }
    }
  }

  /** The creates of an attempt that completes: what they leave under a key that was not tracked. */
  lemma {:induction false} CreatesRow(w: World, cfg: Settings, h: Home, batches: seq<Batch<Create>>, budget: string,
                                      first: Payload, p: Create)
    requires CreatesPhase(w, cfg, batches).status == Running && StoresAtHome(cfg, h, w.ledger, w.table)
    requires SoleIn(h, batches, budget, first, p) && p.trackingKey !in w.table
    ensures var w' := CreatesPhase(w, cfg, batches);
            p.trackingKey in w'.table ==> RowFor(cfg, w.ledger, budget, first, p, w'.ledger, w'.table[p.trackingKey])
    decreases |batches|
  {
    hide StoresAtHome, BatchAtHome, SubmitCreates, Imported, Extends;
    hide Sole, RowFor, ImportsStay, DistinctBudgets, NotCreated;
    if batches != [] {
      var w1, w' := SubmitCreates(w, cfg, batches[0]), CreatesPhase(w, cfg, batches);
      assert batches[0] in batches && forall b :: b in batches[1..] ==> b in batches;
      assert w1.status == Running by { HaltedCreates(w1, cfg, batches[1..]); }
      WasRunning(w, cfg, batches);
      NoneCreatedHere(h, batches[0]);
      BatchStaysHome(w, cfg, h, batches[0]);
      BatchCut(w, cfg, h, batches[0]);
      RestElsewhere(h, batches, budget, first, p);
      if batches[0].budget == budget {
        BatchRow(w, cfg, h, batches[0], first, p);
        OthersKeepRow(w1, cfg, h, batches[1..], p.trackingKey);
        if p.trackingKey in w'.table {
          RowForStays(cfg, w.ledger, budget, first, p, w1.ledger, w'.ledger, w'.table[p.trackingKey]);
        }
      } else {
        OtherBudget(h, batches[0], p.trackingKey);
        OtherBatchKeepsRow(w, cfg, h, batches[0], p.trackingKey);
        CreatesRow(w1, cfg, h, batches[1..], budget, first, p);
        OtherHolders(w, cfg, batches[0], budget, p.payload.importId);
        if p.trackingKey in w'.table {
          RowForBefore(cfg, w.ledger, w1.ledger, budget, first, p, w'.ledger, w'.table[p.trackingKey]);
        }
      }
    }
  }

  // --- the corrections of other keys ------------------------------------------------------------------------------

  ghost predicate NotCorrected(cycle: Cycle, key: string) {
    forall b, c :: c in CorrectionsOf(cycle, b) ==> c.Update? && c.oldKey != key
  }

  lemma OtherCorrectionsKeep(cycle: Cycle, t: Table, key: string, now: int)
    requires NotCorrected(cycle, key)
    ensures CorrectionsKeep(cycle, StillAt(t, key)) && RecoveriesKeep(cycle, now, StillAt(t, key))
  {
    hide CorrectionsOf, Money.ToMilliunits;
  }

  lemma OtherCorrectionsKeepRow(w: World, cfg: Settings, h: Home, cycle: Cycle, budgets: seq<string>, key: string)
    requires StoresAtHome(cfg, h, w.ledger, w.table) && NotCorrected(cycle, key)
    ensures var w' := CorrectionsPhaseFully(w, cfg, cycle, budgets);
            key in w'.table ==> key in w.table && w'.table[key] == w.table[key]
  {
    var w', has := CorrectionsPhaseFully(w, cfg, cycle, budgets), StillAt(w.table, key);
    StillThere(cfg, h, w.ledger, w.table, key);
    OtherCorrectionsKeep(cycle, w.table, key, w.now);
    hide CorrectionsPhaseFully, StoresAtHome, AllRows, CorrectionsKeep, RecoveriesKeep, NotCorrected;
    CorrectionsPhaseFullyKeeps(w, cfg, cycle, budgets, w.now, has);
    RowHas(w'.table, key, has);
  }

  /** An import named after this key alone is the target of no correction of another row. */
  lemma NotATarget(cfg: Settings, h: Home, l: Ledger, cycle: Cycle, key: string, id: nat)
    requires CycleAtHome(h, cycle) && CycleTargetsOwned(cfg, h, l, cycle) && NotCorrected(cycle, key)
             && OwnName(cfg, h, key)
    requires id < |l| && l[id].importId == Some(h.idOf(key))
    ensures forall b, c :: c in CorrectionsOf(cycle, b) ==> c.txnId != id
  {
    OnlyUpdates(h, cycle);
    hide CorrectionsOf, NamedFor, CycleAtHome;
    forall b, c | c in CorrectionsOf(cycle, b) ensures c.txnId != id {
      assert TargetsOwned(cfg, h, l, Lookup(cycle.updates, b));
      assert Owns(cfg, h, l, c.oldKey, c.txnId);
    }
  }

  // --- reports ------------------------------------------------------------------------------------------------------

  lemma {:induction false} NoneFirst(ctx: Context, feed: Feed, budget: string, importId: string, f: Fetched)
    requires f in feed && IsNew(ctx, f) && MappingOf(ctx, f).budget == budget && f.ntx.importId == importId
    ensures FirstNew(ctx, feed, budget, importId).Some? && LastNew(ctx, feed, budget, importId).Some?
    decreases |feed|
  {
    hide IsNew, MappingOf;
    if f != feed[0] {
      NoneFirst(ctx, feed[1..], budget, importId, f);
    }
    LastSome(ctx, feed, budget, importId, f);
  }

  lemma {:induction false} LastSome(ctx: Context, feed: Feed, budget: string, importId: string, f: Fetched)
    requires f in feed && IsNew(ctx, f) && MappingOf(ctx, f).budget == budget && f.ntx.importId == importId
    ensures LastNew(ctx, feed, budget, importId).Some?
    decreases |feed|
  {
    hide IsNew, MappingOf;
    if f != feed[|feed| - 1] {
      LastSome(ctx, feed[..|feed| - 1], budget, importId, f);
    }
  }

  /** Both reports would be imported alike: with the same milliunits, and both as booked or both as pending. */
  predicate SameEffect(f: Fetched, g: Fetched) {
    Money.ToMilliunits(f.ntx.amount) == Money.ToMilliunits(g.ntx.amount) && f.ntx.booked == g.ntx.booked
  }

  lemma CreateForShape(ctx: Context, f: Fetched)
    requires IsAccepted(ctx, f)
    ensures var p := CreateFor(ctx, f);
            && p.trackingKey == f.ntx.trackingKey && p.payload.importId == f.ntx.importId
            && p.payload.amount == Money.ToMilliunits(f.ntx.amount) && p.payload.cleared == ClearedFor(StatusOf(f.ntx))
  {
    hide Accepted, Money.ToMilliunits;
  }

  /** A key that is created was reported. */
  lemma CreatedIsReported(m: Machine, job: Job, key: string)
    requires job.ctx.mappings == m.mappings && forall f :: f in job.feed ==> FromSource(m, f)
    requires FiledExactly(job.ctx, CycleOf(job.ctx, job.feed), job.feed)
    requires !NotCreated(CycleOf(job.ctx, job.feed).creates, key)
    ensures var id := m.home.idOf(key);
            && FirstNew(job.ctx, job.feed, m.home.budgetOf(id), id).Some?
            && LastNew(job.ctx, job.feed, m.home.budgetOf(id), id).Some?
  {
    var cycle, id := CycleOf(job.ctx, job.feed), m.home.idOf(key);
    var b, q :| b in cycle.creates && q in b.items && q.trackingKey == key;
    hide CycleOf, FiledExactly, FromSource, NewCreate;
    var f := CreateComesFrom(job, cycle, b, q);
    assert FromSource(m, f);
    hide IsAccepted;
    assert f.ntx.trackingKey == key && f.ntx.importId == id && MappingOf(job.ctx, f).budget == m.home.budgetOf(id) by {
      assert Makes(job.ctx, f, b.budget, q);
      CreateForShape(job.ctx, f);
      SourceNames(m, job.ctx, f);
    }
    NoneFirst(job.ctx, job.feed, m.home.budgetOf(id), id, f);
  }

  lemma SourceNames(m: Machine, ctx: Context, f: Fetched)
    requires FromSource(m, f) && ctx.mappings == m.mappings && IsAccepted(ctx, f)
    ensures f.ntx.importId == m.home.idOf(f.ntx.trackingKey)
    ensures MappingOf(ctx, f).budget == m.home.budgetOf(f.ntx.importId)
  {
  }

  lemma BudgetsDiffer(ctx: Context, feed: Feed)
    requires ExactCycle(ctx, feed)
    ensures DistinctBudgets(CycleOf(ctx, feed).creates)
  {
    hide CycleOf, FirstPayload, Payloads, ExactCycle;
    var creates := CycleOf(ctx, feed).creates;
    if creates != [] {
      CycleFindsFirst(ctx, feed, creates[0], "");
    }
  }

  /** What the creates of a job record under a key, and what YNAB created it from. */
  lemma JobIsSole(m: Machine, job: Job, key: string, first: Fetched, last: Fetched)
    requires job.ctx.mappings == m.mappings && ExactCycle(job.ctx, job.feed)
    requires forall f :: f in job.feed ==> FromSource(m, f)
    requires CycleAtHome(m.home, CycleOf(job.ctx, job.feed)) && OwnName(m.cfg, m.home, key)
    requires var id := m.home.idOf(key);
             && FirstNew(job.ctx, job.feed, m.home.budgetOf(id), id) == Some(first)
             && LastNew(job.ctx, job.feed, m.home.budgetOf(id), id) == Some(last)
    ensures IsNew(job.ctx, first) && IsNew(job.ctx, last) && last.ntx.trackingKey == key
    ensures SoleIn(m.home, CycleOf(job.ctx, job.feed).creates, m.home.budgetOf(m.home.idOf(key)),
                   CreateFor(job.ctx, first).payload, CreateFor(job.ctx, last))
  {
    var creates, id := CycleOf(job.ctx, job.feed).creates, m.home.idOf(key);
    var budget := m.home.budgetOf(id);
    BudgetsDiffer(job.ctx, job.feed);
    CreateForShape(job.ctx, last);
    SourceNames(m, job.ctx, last);
    assert NamedFor(m.cfg, m.home, last.ntx.trackingKey, id);
    hide FirstNew, LastNew, CreateFor, DistinctBudgets, ExactCycle, FromSource, FindCreate, FirstPayload, Payloads;
    hide IsNew, IsAccepted, OwnName, NamedFor;
    forall b | b in creates && b.budget == budget
      ensures Sole(m.home, budget, b.items, CreateFor(job.ctx, first).payload, CreateFor(job.ctx, last))
    {
      CycleFindsLast(job.ctx, job.feed, b, id);
      CycleFindsFirst(job.ctx, job.feed, b, id);
      assert BatchAtHome(m.home, b);
    }
  }

  lemma NewIsNotCorrected(m: Machine, job: Job, key: string)
    requires FiledExactly(job.ctx, CycleOf(job.ctx, job.feed), job.feed)
             && CycleAtHome(m.home, CycleOf(job.ctx, job.feed))
    requires key !in job.ctx.table
    ensures NotCorrected(CycleOf(job.ctx, job.feed), key)
  {
    var cycle := CycleOf(job.ctx, job.feed);
    OnlyUpdates(m.home, cycle);
    hide CycleOf, CorrectionsOf, Accepted, CycleAtHome, UpdateAtHome;
    forall b, c | c in CorrectionsOf(cycle, b) ensures c.Update? && c.oldKey != key {
      assert UpdateFrom(job.ctx, job.feed, b, c);
    }
  }

  /** The attempt, cut where its creates are done. */
  lemma CutAtCorrections(w: World, cfg: Settings, h: Home, cycle: Cycle, budgets: seq<string>)
    requires StoresAtHome(cfg, h, w.ledger, w.table) && CycleAtHome(h, cycle)
    requires SubmitFully(w, cfg, cycle, budgets).status == Running
    ensures var w1 := CreatesPhase(w, cfg, cycle.creates);
            && w1.status == Running
            && SubmitFully(w, cfg, cycle, budgets) == CorrectionsPhaseFully(w1, cfg, cycle, budgets)
            && StoresAtHome(cfg, h, w1.ledger, w1.table) && Extends(w.ledger, w1.ledger)
  {
    assert cycle.matches == [];
    hide StoresAtHome, CreatesPhase, CorrectBudgetFully, Imported, Extends;
    CreatesStayHome(w, cfg, h, cycle.creates);
  }

  /** Whether the row under a new key will say what YNAB shows, before the attempt. */
  ghost predicate Agrees(cfg: Settings, l: Ledger, ctx: Context, budget: string, first: Fetched, last: Fetched)
    requires IsAccepted(ctx, last)
  {
    var p := CreateFor(ctx, last);
    var listed := LookUp(l, cfg, budget, p);
    if Burned(l, budget, p.payload.importId) then
      listed.Some? && l[listed.value].cleared == ClearedFor(StatusOf(last.ntx))
    else SameEffect(first, last)
  }

  /** The row after the attempt, and the import it is for. */
  ghost predicate TracksImport(w: World, key: string) {
    && key in w.table && w.table[key].facts.status != Deleted
    && w.table[key].facts.txnId < |w.ledger| && w.ledger[w.table[key].facts.txnId].importId.Some?
  }

  /** What the corrections leave of a new row and of its import. */
  lemma NewRowIsLeft(m: Machine, w1: World, w: World, cycle: Cycle, budgets: seq<string>, l0: Ledger, budget: string,
                     first: Payload, p: Create)
    requires StoresAtHome(m.cfg, m.home, w1.ledger, w1.table) && CycleAtHome(m.home, cycle)
    requires CycleTargetsOwned(m.cfg, m.home, w1.ledger, cycle) && NotCorrected(cycle, p.trackingKey)
    requires OwnName(m.cfg, m.home, p.trackingKey) && p.payload.importId == m.home.idOf(p.trackingKey)
    requires p.trackingKey in w1.table ==> RowFor(m.cfg, l0, budget, first, p, w1.ledger, w1.table[p.trackingKey])
    requires w == CorrectionsPhaseFully(w1, m.cfg, cycle, budgets) && TracksImport(w, p.trackingKey)
    ensures var r := w.table[p.trackingKey];
            && p.trackingKey in w1.table && r == w1.table[p.trackingKey] && r.facts.txnId < |w1.ledger| <= |w.ledger|
            && w.ledger[r.facts.txnId] == w1.ledger[r.facts.txnId]
            && w1.ledger[r.facts.txnId].importId == Some(p.payload.importId)
  {
    var r := w.table[p.trackingKey];
    hide CorrectionsPhaseFully, StoresAtHome, CycleAtHome, CycleTargetsOwned, NotCorrected, OwnName, RowFor;
    OtherCorrectionsKeepRow(w1, m.cfg, m.home, cycle, budgets, p.trackingKey);
    CorrectionsStayHome(w1, m.cfg, m.home, cycle, budgets);
    RowForId(m.cfg, l0, budget, first, p, w1.ledger, r);
    assert SameIdentity(w1.ledger[r.facts.txnId], w.ledger[r.facts.txnId]);
    NotATarget(m.cfg, m.home, w1.ledger, cycle, p.trackingKey, r.facts.txnId);
    hide CorrectionsOf;
    CorrectionsStay(w1, m.cfg, cycle, budgets, r.facts.txnId);
  }

  lemma RowForId(cfg: Settings, l: Ledger, budget: string, first: Payload, p: Create, l': Ledger, r: Row)
    requires RowFor(cfg, l, budget, first, p, l', r) && r.facts.status != Deleted
    ensures r.facts.txnId < |l'|
    ensures l'[r.facts.txnId].importId.Some? ==> l'[r.facts.txnId].importId == Some(p.payload.importId)
  {
    LookUpHolds(l, cfg, budget, p);
    hide LookUp, Burned;
  }

  lemma MirrorsByRow(cfg: Settings, l: Ledger, ctx: Context, budget: string, first: Fetched, last: Fetched,
                     l': Ledger, r: Row)
    requires IsAccepted(ctx, first) && IsAccepted(ctx, last) && r.facts.status != Deleted
    requires RowFor(cfg, l, budget, CreateFor(ctx, first).payload, CreateFor(ctx, last), l', r)
    requires r.facts.txnId < |l'| && l'[r.facts.txnId].importId.Some?
    ensures Mirrors(l', r) <==> Agrees(cfg, l, ctx, budget, first, last)
  {
    CreateForShape(ctx, first);
    CreateForShape(ctx, last);
    hide CreateFor, IsAccepted, LookUp, Burned, Money.ToMilliunits;
  }

  /**
   * A success that comes to track a transaction under an import of its own: the row says what YNAB shows if and only
   * if, before the attempt, either the import_id was free and the first and the last new report of it agree, or the
   * transaction that is listed under it was cleared as the last report asks for.
   */
  lemma SuccessMirrorsIff(m: Machine, s: Store, t: Try, key: string)
    requires Inv(m, s) && AllOwned(m, s) && Completes(m, s, t)
    requires key !in s.table && OwnName(m.cfg, m.home, key)
    requires TracksImport(SubmissionOf(m, s, s.cached.value, t), key)
    ensures var job, w := s.cached.value, SubmissionOf(m, s, s.cached.value, t);
            var id := m.home.idOf(key);
            var first := FirstNew(job.ctx, job.feed, m.home.budgetOf(id), id);
            var last := LastNew(job.ctx, job.feed, m.home.budgetOf(id), id);
            && first.Some? && last.Some?
            && (Mirrors(w.ledger, w.table[key])
                <==> Agrees(m.cfg, s.ledger, job.ctx, m.home.budgetOf(id), first.value, last.value))
  {
    var job, w0 := s.cached.value, Attempt(s.table, s.ledger, t.script, t.now);
    var cycle, w, id := CycleOf(job.ctx, job.feed), SubmissionOf(m, s, job, t), m.home.idOf(key);
    var w1, b := CreatesPhase(w0, m.cfg, cycle.creates), m.home.budgetOf(id);
    JobAtHome(m, job);
    hide CycleOf, SubmitFully, CreatesPhase, CorrectionsPhaseFully, StoresAtHome, FiledExactly, CycleAtHome, NotCreated;
    hide FirstNew, LastNew, ExactCycle, FromSource;
    hide DeliveredImported, TrackedImported, TrackedInBudget, OwnName, Imported;
    hide AllRows, Extends, CycleTargetsOwned, SoleIn, RowFor, IsAccepted, NotCorrected, CreateFor, Mirrors, Agrees;
    CutAtCorrections(w0, m.cfg, m.home, cycle, t.budgets);
    assert w == CorrectionsPhaseFully(w1, m.cfg, cycle, t.budgets);
    JobTargets(m, s.ledger, job);
    CycleTargetsForever(m.cfg, m.home, s.ledger, w1.ledger, cycle);
    NewWasCreated(m, job, w0, w1, w, cycle, t.budgets, key);
    var first, last := FirstNew(job.ctx, job.feed, b, id).value, LastNew(job.ctx, job.feed, b, id).value;
    JobIsSole(m, job, key, first, last);
    var p := CreateFor(job.ctx, last);
    assert p.trackingKey == key && p.payload.importId == id by { LastIsKeys(m, job, key, last); }
    NewIsNotCorrected(m, job, key);
    CreatesRow(w0, m.cfg, m.home, cycle.creates, b, CreateFor(job.ctx, first).payload, p);
    NewRowIsLeft(m, w1, w, cycle, t.budgets, s.ledger, b, CreateFor(job.ctx, first).payload, p);
    MirrorsByRow(m.cfg, s.ledger, job.ctx, b, first, last, w1.ledger, w.table[key]);
    SameMirrors(w1.ledger, w.ledger, w.table[key]);
  }

  lemma SameMirrors(l: Ledger, l': Ledger, r: Row)
    requires r.facts.txnId < |l| <= |l'| && l'[r.facts.txnId] == l[r.facts.txnId]
    ensures Mirrors(l', r) <==> Mirrors(l, r)
  {
  }

  lemma LastIsKeys(m: Machine, job: Job, key: string, last: Fetched)
    requires LastNew(job.ctx, job.feed, m.home.budgetOf(m.home.idOf(key)), m.home.idOf(key)) == Some(last)
    requires last.ntx.trackingKey == key && IsAccepted(job.ctx, last)
    ensures CreateFor(job.ctx, last).trackingKey == key && CreateFor(job.ctx, last).payload.importId == m.home.idOf(key)
  {
    CreateForShape(job.ctx, last);
    hide CreateFor, IsAccepted;
  }

  /** A key that was not tracked and is now was created by the cycle. */
  lemma NewWasCreated(m: Machine, job: Job, w0: World, w1: World, w: World, cycle: Cycle, budgets: seq<string>,
                      key: string)
    requires job.ctx.mappings == m.mappings && forall f :: f in job.feed ==> FromSource(m, f)
    requires cycle == CycleOf(job.ctx, job.feed) && FiledExactly(job.ctx, cycle, job.feed) && CycleAtHome(m.home, cycle)
    requires StoresAtHome(m.cfg, m.home, w0.ledger, w0.table) && StoresAtHome(m.cfg, m.home, w1.ledger, w1.table)
    requires w1 == CreatesPhase(w0, m.cfg, cycle.creates) && w1.status == Running
    requires w == CorrectionsPhaseFully(w1, m.cfg, cycle, budgets) && key !in w0.table && key in w.table
    ensures var id := m.home.idOf(key);
            && FirstNew(job.ctx, job.feed, m.home.budgetOf(id), id).Some?
            && LastNew(job.ctx, job.feed, m.home.budgetOf(id), id).Some?
  {
    hide CycleOf, CreatesPhase, CorrectionsPhaseFully, StoresAtHome, FiledExactly, FirstNew, LastNew, FromSource;
    if NotCreated(cycle.creates, key) {
      OthersKeepRow(w0, m.cfg, m.home, cycle.creates, key);
      CorrectionsAddNone(w1, m.cfg, m.home, cycle, budgets, key);
    } else {
      CreatedIsReported(m, job, key);
    }
  }

  /** A correction whose own row is missing fails, and writes nothing. */
  lemma MissingRowStaysMissing(w: World, cfg: Settings, budget: string, snapshot: Ledger, since: Option<int>,
                               c: Correction)
    requires c.Update? && c.oldKey !in w.table
    ensures CorrectFully(w, cfg, budget, snapshot, since, c).table == w.table
  {
    CorrectMissing(w, budget, snapshot, since, c);
    hide Correct, Replacements, ReplacementMatch, GoneFacts, SubmitMatches, Read;
  }

  lemma CorrectMissing(w: World, budget: string, snapshot: Ledger, since: Option<int>, c: Correction)
    requires c.Update? && c.oldKey !in w.table
    ensures Correct(w, budget, snapshot, since, c).table == w.table
  {
    CallsKeepTable(w, Patch(w.ledger, budget, c.txnId, Some(Money.ToMilliunits(c.newAmount)), Cleared));
    CallsKeepTable(w, w.ledger);
    hide Patch, Money.ToMilliunits, Write, Read, ListedAlive;
  }

  lemma CorrectionAddsNone(w: World, cfg: Settings, h: Home, budget: string, snapshot: Ledger, since: Option<int>,
                           c: Correction, key: string)
    requires StoresAtHome(cfg, h, w.ledger, w.table) && UpdateAtHome(h, budget, c) && key !in w.table
    ensures key !in CorrectFully(w, cfg, budget, snapshot, since, c).table
  {
    hide CorrectFully, StoresAtHome, AllRows, SettlingKeeps, RecoveryKeeps;
    if c.oldKey == key {
      MissingRowStaysMissing(w, cfg, budget, snapshot, since, c);
    } else {
      StillThere(cfg, h, w.ledger, w.table, key);
      OtherCorrectionKeeps(c, budget, w.table, key, w.now);
      CorrectFullyKeeps(w, cfg, budget, snapshot, since, c, w.now, StillAt(w.table, key));
      RowHas(CorrectFully(w, cfg, budget, snapshot, since, c).table, key, StillAt(w.table, key));
    }
  }

  lemma OtherCorrectionKeeps(c: Correction, budget: string, t: Table, key: string, now: int)
    requires c.Update? && c.oldKey != key
    ensures SettlingKeeps(c, StillAt(t, key)) && RecoveryKeeps(c, budget, now, StillAt(t, key))
  {
    hide Money.ToMilliunits;
  }

  lemma {:induction false} CorrectAllAddNone(w: World, cfg: Settings, h: Home, budget: string, snapshot: Ledger,
                                             since: Option<int>, cs: seq<Correction>, key: string)
    requires StoresAtHome(cfg, h, w.ledger, w.table) && forall c :: c in cs ==> UpdateAtHome(h, budget, c)
    requires key !in w.table
    ensures key !in CorrectAllFully(w, cfg, budget, snapshot, since, cs).table
    decreases |cs|
  {
    hide StoresAtHome, UpdateAtHome, CorrectFully, Extends;
    if cs != [] && w.status == Running {
      CorrectionStaysHome(w, cfg, h, budget, snapshot, since, cs[0]);
      CorrectionAddsNone(w, cfg, h, budget, snapshot, since, cs[0], key);
      CorrectAllAddNone(CorrectFully(w, cfg, budget, snapshot, since, cs[0]), cfg, h, budget, snapshot, since, cs[1..],
                        key);
    }
  }

  lemma BudgetAddsNone(w: World, cfg: Settings, h: Home, cycle: Cycle, budget: string, key: string)
    requires StoresAtHome(cfg, h, w.ledger, w.table) && CycleAtHome(h, cycle) && key !in w.table
    ensures key !in CorrectBudgetFully(w, cfg, cycle, budget).table
  {
    var cs := CorrectionsOf(cycle, budget);
    OnlyUpdates(h, cycle);
    ReadKeepsStores(w);
    hide StoresAtHome, CorrectionsOf, CorrectAllFully, CycleAtHome, Read, UpdateAtHome;
    CorrectAllAddNone(Read(w), cfg, h, budget, w.ledger, SinceOf(cfg, cs), cs, key);
  }

  /** Corrections bring no new key into the table. */
  lemma {:induction false} CorrectionsAddNone(w: World, cfg: Settings, h: Home, cycle: Cycle, budgets: seq<string>,
                                              key: string)
    requires StoresAtHome(cfg, h, w.ledger, w.table) && CycleAtHome(h, cycle) && key !in w.table
    ensures key !in CorrectionsPhaseFully(w, cfg, cycle, budgets).table
    decreases |budgets|
  {
    hide StoresAtHome, CorrectBudgetFully, CycleAtHome, Extends;
    if budgets != [] && w.status == Running {
      BudgetStaysHome(w, cfg, h, cycle, budgets[0]);
      BudgetAddsNone(w, cfg, h, cycle, budgets[0], key);
      CorrectionsAddNone(CorrectBudgetFully(w, cfg, cycle, budgets[0]), cfg, h, cycle, budgets[1..], key);
    }
  }
}
