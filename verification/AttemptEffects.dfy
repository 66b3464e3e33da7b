/**
 * What one attempt at an exact-key cycle does to the stores, when import_ids
 * and budgets are fixed by the tracking key.
 */
module AttemptEffects {
  import opened Wrappers
  import opened Ynab
  import opened StateDb
  import opened SyncSpec
  import opened Creation
  import opened Frames
  import opened RowFacts
  import opened Recovery
  import opened RecoveryFacts
  import opened Money
  import PendingMatch

  /** How a source names things: a transaction's import_id by its key, and the budget by the import_id. */
  datatype Home = Home(idOf: string -> string, budgetOf: string -> string)

  /** The import_id of this key is taken by no recovery in another budget. */
  ghost predicate OwnBudget(cfg: Settings, h: Home, key: string) {
    forall r: Row, k, n: nat :: ReevalId(cfg.hash, r, k, n) == h.idOf(key) ==>
      h.budgetOf(h.idOf(k)) == h.budgetOf(h.idOf(key))
  }

  ghost predicate ImportsAtHome(cfg: Settings, h: Home, l: Ledger) {
    forall i, key :: 0 <= i < |l| && l[i].importId == Some(h.idOf(key)) && OwnBudget(cfg, h, key) ==>
      l[i].budget == h.budgetOf(h.idOf(key))
  }

  predicate Imported(h: Home, l: Ledger, key: string) { Burned(l, h.budgetOf(h.idOf(key)), h.idOf(key)) }

  /** The key's own import_id, or one that a recovery of its row made. */
  ghost predicate NamedFor(cfg: Settings, h: Home, key: string, id: string) {
    id == h.idOf(key) || exists r: Row, n: nat :: id == ReevalId(cfg.hash, r, key, n)
  }

  /** A row is named after its key and in that key's budget; its import_id is burned there, and so is the key's own. */
  ghost predicate AtHome(cfg: Settings, h: Home, l: Ledger, k: string, r: Row) {
    && r.facts.budget == h.budgetOf(h.idOf(k)) && Imported(h, l, k)
    && Burned(l, r.facts.budget, r.facts.importId) && NamedFor(cfg, h, k, r.facts.importId)
  }

  ghost function RowAtHome(cfg: Settings, h: Home, l: Ledger): RowProperty {
    (k: string, r: Row) => AtHome(cfg, h, l, k, r)
  }

  ghost predicate StoresAtHome(cfg: Settings, h: Home, l: Ledger, t: Table) {
    UniqueIds(l) && ImportsAtHome(cfg, h, l) && AllRows(t, RowAtHome(cfg, h, l))
  }

  ghost predicate CreateAtHome(h: Home, budget: string, p: Create) {
    p.secondary.None? && p.payload.importId == h.idOf(p.trackingKey) && budget == h.budgetOf(p.payload.importId)
  }

  ghost predicate BatchAtHome(h: Home, batch: Batch<Create>) {
    forall p :: p in batch.items ==> CreateAtHome(h, batch.budget, p)
  }

  /** Only creates and plain updates, all named by the source. */
  ghost predicate CycleAtHome(h: Home, cycle: Cycle) {
    && cycle.fuzzyUpdates == map[] && cycle.matches == []
    && (forall b :: b in cycle.creates ==> BatchAtHome(h, b))
    && (forall b, c :: c in Lookup(cycle.updates, b) ==> c.Update? && b == h.budgetOf(h.idOf(c.oldKey)))
  }

  lemma ImportedForever(h: Home, l: Ledger, l': Ledger, key: string)
    requires Extends(l, l') && Imported(h, l, key)
    ensures Imported(h, l', key)
  {
    BurnedForever(l, l', h.budgetOf(h.idOf(key)), h.idOf(key));
  }

  lemma RowsStayAtHome(cfg: Settings, h: Home, l: Ledger, l': Ledger, t: Table)
    requires Extends(l, l') && AllRows(t, RowAtHome(cfg, h, l))
    ensures AllRows(t, RowAtHome(cfg, h, l'))
  {
    hide Extends, Imported, AmountsAgree, Burned, NamedFor;
    forall k | k in t ensures AmountsAgree(t[k]) && RowAtHome(cfg, h, l')(k, t[k]) {
      assert RowAtHome(cfg, h, l)(k, t[k]);
      ImportedForever(h, l, l', k);
      BurnedForever(l, l', t[k].facts.budget, t[k].facts.importId);
    }
  }

  /** What is imported here under a key's own id belongs here. */
  ghost predicate PayloadAtHome(cfg: Settings, h: Home, budget: string, p: Payload) {
    forall key :: p.importId == h.idOf(key) && OwnBudget(cfg, h, key) ==> budget == h.budgetOf(h.idOf(key))
  }

  /** A create adds one import, under its own id, and changes no identity. */
  lemma CreateAddsOneImport(l: Ledger, native: NativeMatcher, budget: string, p: Payload)
    ensures var l' := CreateOne(l, native, budget, p).0;
            && |l| <= |l'| && (forall i :: 0 <= i < |l| ==> SameIdentity(l[i], l'[i]))
            && forall i :: |l| <= i < |l'| && l'[i].importId.Some? ==>
                 l'[i].importId == Some(p.importId) && l'[i].budget == budget
  {
  }

  lemma CreateOneAtHome(cfg: Settings, h: Home, l: Ledger, budget: string, p: Payload)
    requires ImportsAtHome(cfg, h, l) && PayloadAtHome(cfg, h, budget, p)
    ensures ImportsAtHome(cfg, h, CreateOne(l, cfg.native, budget, p).0)
  {
    CreateAddsOneImport(l, cfg.native, budget, p);
    hide OwnBudget, CreateOne;
    var l' := CreateOne(l, cfg.native, budget, p).0;
    forall i, key | 0 <= i < |l'| && l'[i].importId == Some(h.idOf(key)) && OwnBudget(cfg, h, key)
      ensures l'[i].budget == h.budgetOf(h.idOf(key))
    {
      assert i < |l| ==> SameIdentity(l[i], l'[i]);
    }
  }

  lemma {:induction false} CreateAllAtHome(cfg: Settings, h: Home, l: Ledger, budget: string, ps: seq<Payload>)
    requires ImportsAtHome(cfg, h, l) && forall p :: p in ps ==> PayloadAtHome(cfg, h, budget, p)
    ensures ImportsAtHome(cfg, h, CreateAll(l, cfg.native, budget, ps).0)
    decreases |ps|
  {
    hide ImportsAtHome, PayloadAtHome, CreateOne;
    if ps != [] {
      CreateOneAtHome(cfg, h, l, budget, ps[0]);
      CreateAllAtHome(cfg, h, CreateOne(l, cfg.native, budget, ps[0]).0, budget, ps[1..]);
    }
  }

  /** Without new imports everything stays at home. */
  lemma CalmStaysHome(cfg: Settings, h: Home, l: Ledger, l': Ledger)
    requires ImportsAtHome(cfg, h, l) && Calm(l, l', iset{})
    ensures ImportsAtHome(cfg, h, l')
  {
    hide UniqueIds, OwnBudget;
    forall i, key | 0 <= i < |l'| && l'[i].importId == Some(h.idOf(key)) && OwnBudget(cfg, h, key)
      ensures l'[i].budget == h.budgetOf(h.idOf(key))
    {
      assert i < |l| ==> SameIdentity(l[i], l'[i]);
    }
  }

  function KeysOf(creates: seq<Create>): iset<string> { iset p | p in creates :: p.trackingKey }

  function IdsOf(creates: seq<Create>): iset<string> { iset p | p in creates :: p.payload.importId }

  /** A create that was answered has burned every submitted id, in the right budget. */
  lemma PostAtHome(w: World, cfg: Settings, h: Home, batch: Batch<Create>)
    requires w.status == Running && ImportsAtHome(cfg, h, w.ledger) && UniqueIds(w.ledger) && BatchAtHome(h, batch)
    ensures var posted := PostCreates(w, cfg, batch.budget, Payloads(batch.items)).0;
            && ImportsAtHome(cfg, h, posted.ledger) && UniqueIds(posted.ledger) && Extends(w.ledger, posted.ledger)
            && (posted.status == Running ==> forall p :: p in batch.items ==> Imported(h, posted.ledger, p.trackingKey))
  {
    var ps := Payloads(batch.items);
    PayloadsAtHome(cfg, h, batch);
    CreateAllAtHome(cfg, h, w.ledger, batch.budget, ps);
    CreateAllKeepsUnique(w.ledger, cfg.native, batch.budget, ps);
    ExtendsRefl(w.ledger);
    PostShape(w, cfg, batch.budget, ps);
    hide CreateAll, UniqueIds, ImportsAtHome, Burned, Payloads, BatchAtHome, CreateAtHome, Extends, PostCreates;
  }

  lemma PostShape(w: World, cfg: Settings, budget: string, ps: seq<Payload>)
    requires w.status == Running
    ensures var posted, l := PostCreates(w, cfg, budget, ps).0, CreateAll(w.ledger, cfg.native, budget, ps).0;
            posted.ledger == l || (posted.ledger == w.ledger && posted.status != Running)
  {
    hide CreateOne;
  }

  lemma PayloadsAtHome(cfg: Settings, h: Home, batch: Batch<Create>)
    requires BatchAtHome(h, batch)
    ensures var ps := Payloads(batch.items);
            && (forall p :: p in ps ==> PayloadAtHome(cfg, h, batch.budget, p))
            && forall p :: p in batch.items ==>
                 p.payload in ps && p.payload.importId == h.idOf(p.trackingKey) && batch.budget == h.budgetOf(h.idOf(p.trackingKey))
  {
    hide OwnBudget, PayloadAtHome;
    var ps := Payloads(batch.items);
    forall i | 0 <= i < |ps| ensures PayloadAtHome(cfg, h, batch.budget, ps[i]) {
      assert CreateAtHome(h, batch.budget, batch.items[i]);
      OwnPayloadAtHome(cfg, h, batch.budget, batch.items[i]);
    }
    forall p | p in batch.items
      ensures p.payload in ps && p.payload.importId == h.idOf(p.trackingKey)
      ensures batch.budget == h.budgetOf(h.idOf(p.trackingKey))
    {
      var i :| 0 <= i < |batch.items| && batch.items[i] == p;
      assert ps[i] == p.payload;
      assert CreateAtHome(h, batch.budget, p);
    }
  }

  lemma OwnPayloadAtHome(cfg: Settings, h: Home, budget: string, p: Create)
    requires CreateAtHome(h, budget, p)
    ensures PayloadAtHome(cfg, h, budget, p.payload)
  {
    hide OwnBudget;
  }

  lemma CreatesHaveHome(cfg: Settings, h: Home, batch: Batch<Create>, l: Ledger, now: int)
    requires BatchAtHome(h, batch) && forall p :: p in batch.items ==> Imported(h, l, p.trackingKey)
    ensures CreatesHave(cfg, batch.budget, batch.items, now, RowAtHome(cfg, h, l))
  {
    hide Imported, CreateHas, CreateAtHome, FindCreate;
    forall id | FindCreate(batch.items, id).Some?
      ensures CreateHas(cfg, batch.budget, FindCreate(batch.items, id).value, now, RowAtHome(cfg, h, l))
    {
      CreateHasHome(cfg, h, batch.budget, FindCreate(batch.items, id).value, l, now);
    }
  }

  lemma CreateHasHome(cfg: Settings, h: Home, budget: string, p: Create, l: Ledger, now: int)
    requires CreateAtHome(h, budget, p) && Imported(h, l, p.trackingKey)
    ensures CreateHas(cfg, budget, p, now, RowAtHome(cfg, h, l))
  {
    hide Burned, ToMilliunits, FromMilliunits;
    forall txnId, status, amount, payee
      ensures RecordingKeeps(now, p.trackingKey, CreateFacts(budget, p, txnId, status, amount, payee), RowAtHome(cfg, h, l))
    {
      assert NamedFor(cfg, h, p.trackingKey, p.payload.importId);
    }
  }

  lemma AfterPostIsQuiet(posted: World, cfg: Settings, batch: Batch<Create>, response: Response)
    requires forall p :: p in batch.items ==> p.secondary.None?
    ensures var recorded := RecordCreated(posted, cfg, batch.budget, batch.items, response.rows);
            var counted := CountDuplicates(recorded, |response.duplicates|);
            && Calm(posted.ledger, recorded.ledger, iset{})
            && Calm(posted.ledger, Backfill(counted, cfg, batch.budget, batch.items, response.duplicates).ledger, iset{})
  {
    hide Calm, RecordCreated, Backfill;
    var keys := KeysOf(batch.items);
    var recorded := RecordCreated(posted, cfg, batch.budget, batch.items, response.rows);
    var counted := CountDuplicates(recorded, |response.duplicates|);
    RecordCreatedIsQuiet(posted, cfg, batch.budget, batch.items, response.rows, keys, iset{});
    BackfillIsQuiet(counted, cfg, batch.budget, batch.items, response.duplicates, keys, iset{});
    CalmTransitive(posted.ledger, recorded.ledger,
                   Backfill(counted, cfg, batch.budget, batch.items, response.duplicates).ledger, iset{});
  }

  /** One batch of creates: the stores stay at home, and if it went through, every create is imported. */
  lemma BatchStaysHome(w: World, cfg: Settings, h: Home, batch: Batch<Create>)
    requires w.status == Running && StoresAtHome(cfg, h, w.ledger, w.table) && BatchAtHome(h, batch)
    ensures var w' := SubmitCreates(w, cfg, batch);
            && StoresAtHome(cfg, h, w'.ledger, w'.table) && Extends(w.ledger, w'.ledger)
            && (w'.status == Running ==> forall p :: p in batch.items ==> Imported(h, w'.ledger, p.trackingKey))
  {
    var w' := SubmitCreates(w, cfg, batch);
    var (posted, response) := PostCreates(w, cfg, batch.budget, Payloads(batch.items));
    BatchLedger(w, cfg, h, batch);
    RowsStayAtHome(cfg, h, w.ledger, w'.ledger, w.table);
    if posted.status == Running {
      forall p | p in batch.items ensures Imported(h, w'.ledger, p.trackingKey) {
        ImportedForever(h, posted.ledger, w'.ledger, p.trackingKey);
      }
      CreatesHaveHome(cfg, h, batch, w'.ledger, w.now);
    }
    hide SubmitCreates, PostCreates, AllRows, CreatesHave, UniqueIds, ImportsAtHome, Extends, Imported;
    SubmitCreatesKeeps(w, cfg, batch, w.now, RowAtHome(cfg, h, w'.ledger));
  }

  lemma BatchLedger(w: World, cfg: Settings, h: Home, batch: Batch<Create>)
    requires w.status == Running && ImportsAtHome(cfg, h, w.ledger) && UniqueIds(w.ledger) && BatchAtHome(h, batch)
    ensures var w' := SubmitCreates(w, cfg, batch);
            var posted := PostCreates(w, cfg, batch.budget, Payloads(batch.items)).0;
            && ImportsAtHome(cfg, h, w'.ledger) && UniqueIds(w'.ledger)
            && Extends(w.ledger, w'.ledger) && Extends(posted.ledger, w'.ledger)
            && (w'.status == Running ==> posted.status == Running)
            && (posted.status == Running ==> forall p :: p in batch.items ==> Imported(h, posted.ledger, p.trackingKey))
  {
    var w' := SubmitCreates(w, cfg, batch);
    var (posted, response) := PostCreates(w, cfg, batch.budget, Payloads(batch.items));
    PostAtHome(w, cfg, h, batch);
    forall p | p in batch.items ensures p.secondary.None? { assert CreateAtHome(h, batch.budget, p); }
    AfterPostIsQuiet(posted, cfg, batch, response);
    CalmRefl(posted.ledger, iset{});
    hide PostCreates, RecordCreated, Backfill, UniqueIds, ImportsAtHome, Imported;
    assert Calm(posted.ledger, w'.ledger, iset{});
    CalmStaysHome(cfg, h, posted.ledger, w'.ledger);
    ExtendsTransitive(w.ledger, posted.ledger, w'.ledger);
  }

  lemma ExtendsTransitive(l: Ledger, l1: Ledger, l2: Ledger)
    requires Extends(l, l1) && Extends(l1, l2)
    ensures Extends(l, l2)
  {
    forall i | 0 <= i < |l| ensures SameIdentity(l[i], l2[i]) {
      assert SameIdentity(l[i], l1[i]) && SameIdentity(l1[i], l2[i]);
    }
  }

  lemma {:induction false} CreatesStayHome(w: World, cfg: Settings, h: Home, batches: seq<Batch<Create>>)
    requires StoresAtHome(cfg, h, w.ledger, w.table) && forall b :: b in batches ==> BatchAtHome(h, b)
    ensures var w' := CreatesPhase(w, cfg, batches);
            && StoresAtHome(cfg, h, w'.ledger, w'.table) && Extends(w.ledger, w'.ledger)
            && (w'.status == Running ==>
                  forall b, p :: b in batches && p in b.items ==> Imported(h, w'.ledger, p.trackingKey))
    decreases |batches|
  {
    hide StoresAtHome, BatchAtHome, SubmitCreates, Imported;
    ExtendsRefl(w.ledger);
    if batches != [] && w.status == Running {
      var w1 := SubmitCreates(w, cfg, batches[0]);
      BatchStaysHome(w, cfg, h, batches[0]);
      CreatesStayHome(w1, cfg, h, batches[1..]);
      var w' := CreatesPhase(w1, cfg, batches[1..]);
      ExtendsTransitive(w.ledger, w1.ledger, w'.ledger);
      if w'.status == Running {
        RunningBefore(w1, cfg, batches[1..]);
        forall p | p in batches[0].items ensures Imported(h, w'.ledger, p.trackingKey) {
          ImportedForever(h, w1.ledger, w'.ledger, p.trackingKey);
        }
        assert forall b :: b in batches ==> b == batches[0] || b in batches[1..];
      }
    }
  }

  lemma ExtendsRefl(l: Ledger)
    ensures Extends(l, l)
  {
  }

  lemma RunningBefore(w: World, cfg: Settings, batches: seq<Batch<Create>>)
    requires CreatesPhase(w, cfg, batches).status == Running
    ensures w.status == Running
  {
  }

  ghost function CorrectedKeys(cycle: Cycle): iset<string> {
    iset b, c | c in CorrectionsOf(cycle, b) :: c.oldKey
  }

  /** A correction of this source's own row. */
  ghost predicate UpdateAtHome(h: Home, budget: string, c: Correction) {
    c.Update? && budget == h.budgetOf(h.idOf(c.oldKey))
  }

  lemma PlainCorrectionStaysHome(w: World, cfg: Settings, h: Home, budget: string, snapshot: Ledger, since: Option<int>,
                                 c: Correction)
    requires StoresAtHome(cfg, h, w.ledger, w.table) && UpdateAtHome(h, budget, c)
    ensures var w' := Correct(w, budget, snapshot, since, c);
            StoresAtHome(cfg, h, w'.ledger, w'.table) && Extends(w.ledger, w'.ledger)
  {
    var w' := Correct(w, budget, snapshot, since, c);
    CorrectIsQuiet(w, budget, snapshot, since, c, iset{c.oldKey}, iset{});
    CalmStaysHome(cfg, h, w.ledger, w'.ledger);
    RowsStayAtHome(cfg, h, w.ledger, w'.ledger, w.table);
    BookingStaysHome(cfg, h, w'.ledger);
    hide Correct, AllRows, UniqueIds, ImportsAtHome, Extends, Imported, RowAtHome;
    CorrectKeeps(w, budget, snapshot, since, c, w.now, RowAtHome(cfg, h, w'.ledger));
  }

  lemma BookingStaysHome(cfg: Settings, h: Home, l: Ledger)
    ensures forall c: Correction :: c.Update? ==> SettlingKeeps(c, RowAtHome(cfg, h, l))
  {
    hide Imported, Burned, NamedFor, ToMilliunits;
  }

  /** What was created for a match is imported at home, and the rest is as before. */
  lemma MatchedLedgerStaysHome(w: World, cfg: Settings, h: Home, budget: string, m: ManualMatch)
    requires w.status == Running && UniqueIds(w.ledger) && ImportsAtHome(cfg, h, w.ledger)
    requires PayloadAtHome(cfg, h, budget, m.payload)
    ensures var posted := PostCreates(w, cfg, budget, MatchPayloads([m])).0;
            var w' := SubmitMatches(w, cfg, Batch(budget, [m]));
            && UniqueIds(w'.ledger) && ImportsAtHome(cfg, h, w'.ledger) && Extends(w.ledger, w'.ledger)
            && (posted.status == Running ==> Burned(w'.ledger, budget, m.payload.importId))
  {
    var ps := MatchPayloads([m]);
    var w' := SubmitMatches(w, cfg, Batch(budget, [m]));
    assert ps == [m.payload];
    var posted := PostCreates(w, cfg, budget, ps).0;
    CreateAllAtHome(cfg, h, w.ledger, budget, ps);
    CreateAllKeepsUnique(w.ledger, cfg.native, budget, ps);
    ExtendsRefl(w.ledger);
    PostShape(w, cfg, budget, ps);
    SubmitMatchesKeepsIds(w, cfg, Batch(budget, [m]));
    hide CreateAll, UniqueIds, ImportsAtHome, Burned, PayloadAtHome, PostCreates, SubmitMatches, MatchPayloads;
    assert UniqueIds(posted.ledger) && ImportsAtHome(cfg, h, posted.ledger) && Extends(w.ledger, posted.ledger);
    SameIdsUnique(posted.ledger, w'.ledger);
    SameIdsAtHome(cfg, h, posted.ledger, w'.ledger);
    ExtendsTransitive(w.ledger, posted.ledger, w'.ledger);
    if posted.status == Running {
      BurnedForever(posted.ledger, w'.ledger, budget, m.payload.importId);
    }
  }

  lemma SameIdsAtHome(cfg: Settings, h: Home, l: Ledger, l': Ledger)
    requires ImportsAtHome(cfg, h, l) && SameIds(l, l')
    ensures ImportsAtHome(cfg, h, l')
  {
    hide OwnBudget;
    forall i, key | 0 <= i < |l'| && l'[i].importId == Some(h.idOf(key)) && OwnBudget(cfg, h, key)
      ensures l'[i].budget == h.budgetOf(h.idOf(key))
    {
      assert SameIdentity(l[i], l'[i]);
    }
  }

  /** The import of a recovery keeps the stores at home, whatever calls fail. */
  lemma MatchStaysHome(w: World, cfg: Settings, h: Home, budget: string, m: ManualMatch)
    requires w.status == Running && StoresAtHome(cfg, h, w.ledger, w.table)
    requires PayloadAtHome(cfg, h, budget, m.payload) && budget == h.budgetOf(h.idOf(m.trackingKey))
    requires m.trackingKey in w.table && NamedFor(cfg, h, m.trackingKey, m.payload.importId)
    ensures var w' := SubmitMatches(w, cfg, Batch(budget, [m]));
            StoresAtHome(cfg, h, w'.ledger, w'.table) && Extends(w.ledger, w'.ledger)
  {
    var w' := SubmitMatches(w, cfg, Batch(budget, [m]));
    MatchedLedgerStaysHome(w, cfg, h, budget, m);
    RowsStayAtHome(cfg, h, w.ledger, w'.ledger, w.table);
    assert RowAtHome(cfg, h, w'.ledger)(m.trackingKey, w.table[m.trackingKey]);
    hide SubmitMatches, AllRows, UniqueIds, ImportsAtHome, Extends, PostCreates, PayloadAtHome;
    if PostCreates(w, cfg, budget, MatchPayloads([m])).0.status == Running {
      MatchedRowAtHome(cfg, h, w'.ledger, budget, m, w.now);
    }
    SubmitMatchesKeeps(w, cfg, Batch(budget, [m]), w.now, RowAtHome(cfg, h, w'.ledger));
  }

  lemma MatchedRowAtHome(cfg: Settings, h: Home, l: Ledger, budget: string, m: ManualMatch, now: int)
    requires budget == h.budgetOf(h.idOf(m.trackingKey)) && Imported(h, l, m.trackingKey)
    requires Burned(l, budget, m.payload.importId) && NamedFor(cfg, h, m.trackingKey, m.payload.importId)
    ensures MatchesHave(budget, [m], now, RowAtHome(cfg, h, l))
  {
    hide Imported, Burned, NamedFor, ToMilliunits, FromMilliunits;
  }

  lemma RecoveryStaysHome(w: World, cfg: Settings, h: Home, budget: string, c: Correction)
    requires StoresAtHome(cfg, h, w.ledger, w.table) && UpdateAtHome(h, budget, c)
    ensures var w' := RecoverMissing(w, cfg, budget, c);
            StoresAtHome(cfg, h, w'.ledger, w'.table) && Extends(w.ledger, w'.ledger)
  {
    hide RecoverMissing, Replacements, ReplacementMatch, SubmitMatches, StoresAtHome, Extends, PayloadAtHome, NamedFor;
    hide Read, Record, GoneFacts, UpdateAtHome;
    ExtendsRefl(w.ledger);
    RecoverMissingShape(w, cfg, budget, c);
    if c.oldKey in w.table {
      var r := w.table[c.oldKey];
      var found := Replacements(w.ledger, cfg, budget, r, c.newAmount);
      GoneStaysHome(w, cfg, h, budget, c);
      ReadKeepsStores(w);
      if |found| == 1 && Read(w).status == Running {
        ReplacementAtHome(cfg, h, budget, r, c, found[0]);
        MatchStaysHome(Read(w), cfg, h, budget, ReplacementMatch(cfg.hash, r, c, found[0]));
      }
    }
  }

  lemma GoneStaysHome(w: World, cfg: Settings, h: Home, budget: string, c: Correction)
    requires StoresAtHome(cfg, h, w.ledger, w.table) && UpdateAtHome(h, budget, c) && c.oldKey in w.table
    ensures var w1 := CountDeleted(Record(Read(w), c.oldKey, GoneFacts(w.table[c.oldKey], budget, c)));
            && StoresAtHome(cfg, h, w1.ledger, w1.table) && w1.ledger == w.ledger
            && StoresAtHome(cfg, h, Read(w).ledger, Read(w).table) && Read(w).ledger == w.ledger
  {
    hide UniqueIds, ImportsAtHome, AllRows, GoneFacts, Read, Upsert, RowAtHome, UpdateAtHome, RecordingKeeps;
    var r := w.table[c.oldKey];
    var has := RowAtHome(cfg, h, w.ledger);
    HomeAgrees(cfg, h, w.ledger, w.table);
    GoneRowAtHome(cfg, h, budget, c, r, w.ledger, w.now);
    ReadKeepsStores(w);
    RecordKeeps(Read(w), c.oldKey, GoneFacts(r, budget, c), w.now, has);
  }

  lemma GoneRowAtHome(cfg: Settings, h: Home, budget: string, c: Correction, r: Row, l: Ledger, now: int)
    requires UpdateAtHome(h, budget, c) && RowAtHome(cfg, h, l)(c.oldKey, r)
    ensures RecordingKeeps(now, c.oldKey, GoneFacts(r, budget, c), RowAtHome(cfg, h, l))
  {
    hide Imported, Burned, NamedFor, ToMilliunits;
  }

  lemma ReplacementAtHome(cfg: Settings, h: Home, budget: string, r: Row, c: Correction, x: PendingMatch.ManualCandidate)
    requires UpdateAtHome(h, budget, c)
    ensures var m := ReplacementMatch(cfg.hash, r, c, x);
            && m.trackingKey == c.oldKey && PayloadAtHome(cfg, h, budget, m.payload)
            && NamedFor(cfg, h, m.trackingKey, m.payload.importId) && budget == h.budgetOf(h.idOf(m.trackingKey))
  {
    hide ReevalId;
  }

  lemma CorrectionStaysHome(w: World, cfg: Settings, h: Home, budget: string, snapshot: Ledger, since: Option<int>,
                            c: Correction)
    requires StoresAtHome(cfg, h, w.ledger, w.table) && UpdateAtHome(h, budget, c)
    ensures var w' := CorrectFully(w, cfg, budget, snapshot, since, c);
            StoresAtHome(cfg, h, w'.ledger, w'.table) && Extends(w.ledger, w'.ledger)
  {
    var w1 := Correct(w, budget, snapshot, since, c).(status := Running);
    PlainCorrectionStaysHome(w, cfg, h, budget, snapshot, since, c);
    hide Correct, RecoverMissing, StoresAtHome, UpdateAtHome;
    RecoveryStaysHome(w1, cfg, h, budget, c);
    var w' := CorrectFully(w, cfg, budget, snapshot, since, c);
    if w' == RecoverMissing(w1, cfg, budget, c) {
      ExtendsTransitive(w.ledger, w1.ledger, w'.ledger);
    }
  }

  lemma {:induction false} CorrectAllStaysHome(w: World, cfg: Settings, h: Home, budget: string, snapshot: Ledger,
                                               since: Option<int>, cs: seq<Correction>)
    requires StoresAtHome(cfg, h, w.ledger, w.table) && forall c :: c in cs ==> UpdateAtHome(h, budget, c)
    ensures var w' := CorrectAllFully(w, cfg, budget, snapshot, since, cs);
            StoresAtHome(cfg, h, w'.ledger, w'.table) && Extends(w.ledger, w'.ledger)
    decreases |cs|
  {
    hide StoresAtHome, UpdateAtHome, CorrectFully;
    ExtendsRefl(w.ledger);
    if cs != [] && w.status == Running {
      var w1 := CorrectFully(w, cfg, budget, snapshot, since, cs[0]);
      CorrectionStaysHome(w, cfg, h, budget, snapshot, since, cs[0]);
      CorrectAllStaysHome(w1, cfg, h, budget, snapshot, since, cs[1..]);
      ExtendsTransitive(w.ledger, w1.ledger, CorrectAllFully(w1, cfg, budget, snapshot, since, cs[1..]).ledger);
    }
  }

  lemma {:induction false} CorrectionsStayHome(w: World, cfg: Settings, h: Home, cycle: Cycle, budgets: seq<string>)
    requires StoresAtHome(cfg, h, w.ledger, w.table) && CycleAtHome(h, cycle)
    ensures var w' := CorrectionsPhaseFully(w, cfg, cycle, budgets);
            StoresAtHome(cfg, h, w'.ledger, w'.table) && Extends(w.ledger, w'.ledger)
    decreases |budgets|
  {
    hide StoresAtHome, CorrectBudgetFully, CycleAtHome;
    ExtendsRefl(w.ledger);
    if budgets != [] && w.status == Running {
      var w1 := CorrectBudgetFully(w, cfg, cycle, budgets[0]);
      BudgetStaysHome(w, cfg, h, cycle, budgets[0]);
      CorrectionsStayHome(w1, cfg, h, cycle, budgets[1..]);
      ExtendsTransitive(w.ledger, w1.ledger, CorrectionsPhaseFully(w1, cfg, cycle, budgets[1..]).ledger);
    }
  }

  lemma BudgetStaysHome(w: World, cfg: Settings, h: Home, cycle: Cycle, budget: string)
    requires StoresAtHome(cfg, h, w.ledger, w.table) && CycleAtHome(h, cycle)
    ensures var w' := CorrectBudgetFully(w, cfg, cycle, budget);
            StoresAtHome(cfg, h, w'.ledger, w'.table) && Extends(w.ledger, w'.ledger)
  {
    hide StoresAtHome, CorrectionsOf, CorrectAllFully, CycleAtHome, Extends;
    var cs := CorrectionsOf(cycle, budget);
    OnlyUpdates(h, cycle);
    ReadKeepsStores(w);
    hide Read;
    ExtendsRefl(w.ledger);
    CorrectAllStaysHome(Read(w), cfg, h, budget, w.ledger, SinceOf(cfg, cs), cs);
  }

  lemma ReadKeepsStores(w: World)
    ensures Read(w).ledger == w.ledger && Read(w).table == w.table && Read(w).now == w.now
  {
  }

  lemma OnlyUpdates(h: Home, cycle: Cycle)
    requires CycleAtHome(h, cycle)
    ensures forall b, c :: c in CorrectionsOf(cycle, b) <==> c in Lookup(cycle.updates, b)
    ensures forall b, c :: c in CorrectionsOf(cycle, b) ==> c.Update? && UpdateAtHome(h, b, c)
    ensures CorrectionsWithin(cycle, CorrectedKeys(cycle))
  {
    forall b, c | c in CorrectionsOf(cycle, b) ensures CorrectionWithin(c, CorrectedKeys(cycle)) {
      assert c.Update?;
      hide CorrectionsOf;
      assert c.oldKey in CorrectedKeys(cycle);
    }
  }

  /** A property that no booking can break. */
  ghost predicate SurvivesBooking(has: RowProperty) {
    forall k, row: Row, amount :: has(k, row) ==> has(k, Settled(row, amount))
  }

  lemma UpdatesKeep(cycle: Cycle, has: RowProperty)
    requires SurvivesBooking(has) && forall b, c :: c in CorrectionsOf(cycle, b) ==> c.Update?
    ensures CorrectionsKeep(cycle, has)
  {
    hide Settled;
    forall b, c, row: Row | c in CorrectionsOf(cycle, b) && has(c.oldKey, row)
      ensures has(FinalKey(c), Settled(row, c.newAmount))
    {
      assert c.Update?;
      assert has(c.oldKey, Settled(row, c.newAmount));
    }
  }

  /** A whole attempt with its recoveries, on any script. */
  lemma SubmitStaysHome(w: World, cfg: Settings, h: Home, cycle: Cycle, budgets: seq<string>)
    requires StoresAtHome(cfg, h, w.ledger, w.table) && CycleAtHome(h, cycle)
    ensures var w' := SubmitFully(w, cfg, cycle, budgets);
            && StoresAtHome(cfg, h, w'.ledger, w'.table) && Extends(w.ledger, w'.ledger)
            && (w'.status == Running ==> CreatesImported(h, w'.ledger, cycle))
  {
    CreatesStayHome(w, cfg, h, cycle.creates);
    var w1 := CreatesPhase(w, cfg, cycle.creates);
    CorrectionsStayHome(w1, cfg, h, cycle, budgets);
    var w' := CorrectionsPhaseFully(w1, cfg, cycle, budgets);
    assert cycle.matches == [];
    hide StoresAtHome, CreatesPhase, CorrectBudgetFully, Imported, Extends;
    ExtendsTransitive(w.ledger, w1.ledger, w'.ledger);
    assert SubmitFully(w, cfg, cycle, budgets) == w';
    assert w'.status == Running ==> w1.status == Running;
    forall b, p | b in cycle.creates && p in b.items && w1.status == Running
      ensures Imported(h, w'.ledger, p.trackingKey)
    {
      ImportedForever(h, w1.ledger, w'.ledger, p.trackingKey);
    }
  }

  ghost predicate CreatesImported(h: Home, l: Ledger, cycle: Cycle) {
    forall b, p :: b in cycle.creates && p in b.items ==> Imported(h, l, p.trackingKey)
  }

  lemma SubmitWithoutMatches(w: World, cfg: Settings, cycle: Cycle, budgets: seq<string>)
    requires cycle.matches == []
    ensures Submit(w, cfg, cycle, budgets)
         == CorrectionsPhase(CreatesPhase(w, cfg, cycle.creates), cfg, cycle, budgets)
  {
  }

  // --- corrections book their rows ------------------------------------------------------------------

  function BookedAt(key: string): RowProperty {
    (k: string, r: Row) => k == key ==> r.facts.status == Booked
  }

  lemma SettleBooks(w: World, c: Correction)
    requires c.Update? && AllAgree(w.table) && Settle(w, c).status == Running
    ensures AllRows(Settle(w, c).table, BookedAt(c.oldKey))
  {
    hide ToMilliunits;
  }

  ghost predicate AllAgree(t: Table) { forall k :: k in t ==> AmountsAgree(t[k]) }

  lemma CorrectBooks(w: World, budget: string, snapshot: Ledger, since: Option<int>, c: Correction)
    requires c.Update? && AllAgree(w.table) && Correct(w, budget, snapshot, since, c).status == Running
    ensures AllRows(Correct(w, budget, snapshot, since, c).table, BookedAt(c.oldKey))
  {
    var l := Patch(w.ledger, budget, c.txnId, Some(ToMilliunits(c.newAmount)), Cleared);
    CallsKeepTable(w, l);
    hide AllRows, AllAgree, Settle, Write, Read, Patch, ToMilliunits;
    var patched := Write(w, l);
    if patched.status == Running && Settle(patched, c).status == Running {
      SettleBooks(patched, c);
    }
  }

  lemma CorrectAgrees(w: World, budget: string, snapshot: Ledger, since: Option<int>, c: Correction)
    requires AllAgree(w.table)
    ensures AllAgree(Correct(w, budget, snapshot, since, c).table)
  {
    var any: RowProperty := (k, r) => true;
    CorrectKeeps(w, budget, snapshot, since, c, w.now, any);
  }

  lemma HomeAgrees(cfg: Settings, h: Home, l: Ledger, t: Table)
    requires StoresAtHome(cfg, h, l, t)
    ensures AllAgree(t) && forall k :: k in t ==> RowAtHome(cfg, h, l)(k, t[k])
  {
    hide UniqueIds, ImportsAtHome, RowAtHome;
  }
}
