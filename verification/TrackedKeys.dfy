/**
 * Which keys the creates of an attempt track: for each import_id, the key of
 * the create that was reported last, unless YNAB hides what it holds under it.
 */
module TrackedKeys {
  import opened Wrappers
  import opened Ynab
  import opened StateDb
  import opened SyncSpec
  import opened Creation
  import opened Frames
  import opened Filing
  import opened RowFacts
  import DateWindow

  // --- the holders of an import_id -------------------------------------------------------------------------

  /** What is held under this import_id stays as it is for a lookup, and nothing new is. */
  ghost predicate SameHolders(l: Ledger, l': Ledger, budget: string, id: string) {
    && |l| <= |l'|
    && (forall i :: 0 <= i < |l| ==> SameIdentity(l[i], l'[i]))
    && (forall i :: 0 <= i < |l| && Holds(l[i], budget, id) ==>
          l'[i].matched == l[i].matched && l'[i].deleted == l[i].deleted)
    && forall i :: |l| <= i < |l'| ==> !Holds(l'[i], budget, id)
  }

  lemma SameHoldersTransitive(l: Ledger, l1: Ledger, l2: Ledger, budget: string, id: string)
    requires SameHolders(l, l1, budget, id) && SameHolders(l1, l2, budget, id)
    ensures SameHolders(l, l2, budget, id)
  {
    forall i | 0 <= i < |l| ensures SameIdentity(l[i], l2[i]) {
      assert SameIdentity(l[i], l1[i]) && SameIdentity(l1[i], l2[i]);
    }
    forall i | 0 <= i < |l| && Holds(l[i], budget, id)
      ensures l2[i].matched == l[i].matched && l2[i].deleted == l[i].deleted
    {
      assert SameIdentity(l[i], l1[i]) && Holds(l1[i], budget, id);
    }
    forall i | |l| <= i < |l2| ensures !Holds(l2[i], budget, id) {
      assert i < |l1| ==> SameIdentity(l1[i], l2[i]);
    }
  }

  lemma CalmSameHolders(l: Ledger, l': Ledger, budget: string, id: string)
    requires Calm(l, l', iset{})
    ensures SameHolders(l, l', budget, id)
  {
    hide UniqueIds;
  }

  lemma CreateOneSameHolders(l: Ledger, native: NativeMatcher, b: string, p: Payload, budget: string, id: string)
    requires b != budget || p.importId != id || Burned(l, budget, id)
    ensures SameHolders(l, CreateOne(l, native, b, p).0, budget, id)
  {
  }

  lemma {:induction false} CreateAllSameHolders(l: Ledger, native: NativeMatcher, b: string, ps: seq<Payload>,
                                                budget: string, id: string)
    requires b != budget || Burned(l, budget, id) || forall p :: p in ps ==> p.importId != id
    ensures SameHolders(l, CreateAll(l, native, b, ps).0, budget, id)
    decreases |ps|
  {
    if ps != [] {
      var l1 := CreateOne(l, native, b, ps[0]).0;
      CreateOneSameHolders(l, native, b, ps[0], budget, id);
      SameLookUps(l, l1, budget, id);
      hide CreateOne, Burned;
      CreateAllSameHolders(l1, native, b, ps[1..], budget, id);
      SameHoldersTransitive(l, l1, CreateAll(l1, native, b, ps[1..]).0, budget, id);
    }
  }

  lemma SameLookUps(l: Ledger, l': Ledger, budget: string, id: string)
    requires SameHolders(l, l', budget, id)
    ensures Burned(l, budget, id) <==> Burned(l', budget, id)
  {
    if Burned(l, budget, id) {
      var i :| 0 <= i < |l| && Holds(l[i], budget, id);
      assert SameIdentity(l[i], l'[i]) && Holds(l'[i], budget, id);
    }
    if Burned(l', budget, id) {
      var i :| 0 <= i < |l'| && Holds(l'[i], budget, id);
      assert SameIdentity(l[i], l'[i]) && Holds(l[i], budget, id);
    }
  }

  lemma SameSearch(l: Ledger, l': Ledger, keep: Txn -> bool)
    requires |l| <= |l'| && forall i :: 0 <= i < |l| ==> keep(l'[i]) == keep(l[i])
    requires forall i :: |l| <= i < |l'| ==> !keep(l'[i])
    ensures FirstIndex(l', keep) == FirstIndex(l, keep)
  {
    var found := FirstIndex(l, keep);
    if found.Some? {
      FirstIndexIs(l', keep, found.value);
    } else {
      FirstIndexNone(l', keep);
    }
  }

  /** A lookup finds the same, in the account and among deleted transactions. */
  lemma SameFound(l: Ledger, l': Ledger, cfg: Settings, budget: string, p: Create)
    requires SameHolders(l, l', budget, p.payload.importId)
    ensures LookUp(l', cfg, budget, p) == LookUp(l, cfg, budget, p)
    ensures LookUpGone(l', cfg, budget, p) == LookUpGone(l, cfg, budget, p)
  {
    var id := p.payload.importId;
    var since := DateWindow.SinceDateBound(p.payload.date, cfg.backfillDays);
    SameSearch(l, l', ListedUnder(budget, p.payload.account, id, since, cfg.shadowsListed));
    SameSearch(l, l', HeldSince(budget, id, since));
    hide FirstIndex;
  }

  // --- what the answer to a create holds -------------------------------------------------------------------

  /** What YNAB matched a create with: a live transaction of the same amount, cleared by the match. */
  predicate MatchedWith(l: Ledger, budget: string, amount: int, o: nat) {
    && o < |l| && l[o].budget == budget && !l[o].deleted && l[o].importId.None? && l[o].matched.Some?
    && l[o].amount == amount && l[o].cleared == Cleared
  }

  /** The row that answers a submitted id: of the transaction that was created for the first payload with it. */
  ghost predicate Created(l: Ledger, l': Ledger, budget: string, p: Payload, row: Reported) {
    && row.importId == Some(p.importId) && |l| <= row.id < |l'| && l'[row.id] == NewTxn(budget, p, row.matched)
    && (row.transferId.Some? <==> p.transferTo.Some?)
    && (row.matched.Some? ==>
          MatchedWith(l', budget, p.amount, row.matched.value) && l'[row.matched.value].matched == Some(row.id))
  }

  /** Rows answer the ids that were not burned, each for its first payload; burned ids come back as duplicates. */
  ghost predicate AnswersFirst(l: Ledger, budget: string, ps: seq<Payload>, l': Ledger, r: Response) {
    && (forall row :: row in r.rows && row.importId.Some? ==>
          !Burned(l, budget, row.importId.value) && FirstPayload(ps, row.importId.value).Some?
          && Created(l, l', budget, FirstPayload(ps, row.importId.value).value, row))
    && (forall p :: p in ps && !Burned(l, budget, p.importId) ==>
          exists row :: row in r.rows && row.importId == Some(p.importId))
    && (forall p :: p in ps && Burned(l, budget, p.importId) ==> p.importId in r.duplicates)
  }

  /** Imports and matched transactions are as they were. */
  ghost predicate ImportsKept(l: Ledger, l': Ledger) {
    |l| <= |l'| && forall i :: 0 <= i < |l| && (l[i].importId.Some? || l[i].matched.Some?) ==> l'[i] == l[i]
  }

  lemma CreateOneKeepsImports(l: Ledger, native: NativeMatcher, b: string, p: Payload)
    ensures ImportsKept(l, CreateOne(l, native, b, p).0)
    ensures forall id :: Burned(CreateOne(l, native, b, p).0, b, id) <==> Burned(l, b, id) || id == p.importId
  {
    var l' := CreateOne(l, native, b, p).0;
    forall id ensures Burned(l', b, id) <==> Burned(l, b, id) || id == p.importId {
      if Burned(l, b, id) {
        var i :| 0 <= i < |l| && Holds(l[i], b, id);
        assert Holds(l'[i], b, id);
      } else if id == p.importId {
        assert Holds(l'[|l|], b, id);
      } else {
        forall i | 0 <= i < |l'| ensures !Holds(l'[i], b, id) {
          assert i < |l| ==> !Holds(l[i], b, id);
        }
      }
    }
  }

  lemma {:induction false} CreateAllKeepsImports(l: Ledger, native: NativeMatcher, b: string, ps: seq<Payload>)
    ensures ImportsKept(l, CreateAll(l, native, b, ps).0)
    decreases |ps|
  {
    if ps != [] {
      CreateOneKeepsImports(l, native, b, ps[0]);
      hide CreateOne, Burned;
      CreateAllKeepsImports(CreateOne(l, native, b, ps[0]).0, native, b, ps[1..]);
    }
  }

  lemma CreateOneAnswersFirst(l: Ledger, native: NativeMatcher, b: string, p: Payload)
    ensures var (l', r) := CreateOne(l, native, b, p);
            && (Burned(l, b, p.importId) ==> l' == l && r == Response([], [p.importId]))
            && (!Burned(l, b, p.importId) ==> r.duplicates == [] && r.rows != [] && Created(l, l', b, p, r.rows[0])
                                              && forall row :: row in r.rows && row.importId.Some? ==> row == r.rows[0])
  {
  }

  lemma {:induction false} CreateAllAnswersFirst(l: Ledger, native: NativeMatcher, b: string, ps: seq<Payload>)
    ensures var (l', r) := CreateAll(l, native, b, ps); AnswersFirst(l, b, ps, l', r)
    decreases |ps|
  {
    if ps != [] {
      var (l1, r1) := CreateOne(l, native, b, ps[0]);
      var (l2, r2) := CreateAll(l1, native, b, ps[1..]);
      CreateOneAnswersFirst(l, native, b, ps[0]);
      CreateOneKeepsImports(l, native, b, ps[0]);
      CreateAllKeepsImports(l1, native, b, ps[1..]);
      CreateAllAnswersFirst(l1, native, b, ps[1..]);
      hide CreateOne, CreateAll, Burned;
      FirstAnswered(l, b, ps, l1, r1, l2, r2);
    }
  }

  lemma FirstAnswered(l: Ledger, b: string, ps: seq<Payload>, l1: Ledger, r1: Response, l2: Ledger, r2: Response)
    requires ps != [] && AnswersFirst(l1, b, ps[1..], l2, r2) && ImportsKept(l1, l2)
    requires |l| <= |l1| && forall id :: Burned(l1, b, id) <==> Burned(l, b, id) || id == ps[0].importId
    requires Burned(l, b, ps[0].importId) ==> l1 == l && r1 == Response([], [ps[0].importId])
    requires !Burned(l, b, ps[0].importId) ==>
        r1.duplicates == [] && r1.rows != [] && Created(l, l1, b, ps[0], r1.rows[0])
        && forall row :: row in r1.rows && row.importId.Some? ==> row == r1.rows[0]
    ensures AnswersFirst(l, b, ps, l2, Response(r1.rows + r2.rows, r1.duplicates + r2.duplicates))
  {
    hide Burned;
    var r := Response(r1.rows + r2.rows, r1.duplicates + r2.duplicates);
    forall row | row in r.rows && row.importId.Some?
      ensures !Burned(l, b, row.importId.value) && FirstPayload(ps, row.importId.value).Some?
      ensures Created(l, l2, b, FirstPayload(ps, row.importId.value).value, row)
    {
      if row in r2.rows {
        assert !Burned(l1, b, row.importId.value);
      }
    }
    forall p | p in ps && !Burned(l, b, p.importId) ensures exists row :: row in r.rows && row.importId == Some(p.importId) {
      if p.importId == ps[0].importId {
        assert r1.rows[0] in r.rows;
      } else {
        assert p in ps[1..];
        var row :| row in r2.rows && row.importId == Some(p.importId);
        assert row in r.rows;
      }
    }
  }

  // --- which keys come into the table --------------------------------------------------------------------------

  predicate IsFound(cfg: Settings, l: Ledger, budget: string, p: Create) {
    LookUp(l, cfg, budget, p).Some? || LookUpGone(l, cfg, budget, p).Some?
  }

  /**
   * The create recorded under this import_id tracks the key: its own unless the id is burned by something that no
   * lookup finds; its secondary's if the id is not burned and the first payload with it makes a transfer.
   */
  ghost predicate RecordsAs(cfg: Settings, l: Ledger, batch: Batch<Create>, id: string, k: string) {
    FindCreate(batch.items, id).Some?
    && var p := FindCreate(batch.items, id).value;
       var burned := Burned(l, batch.budget, id);
       || (p.trackingKey == k && (burned ==> IsFound(cfg, l, batch.budget, p)))
       || (p.secondary.Some? && p.secondary.value.trackingKey == k && !burned && MakesTransfer(batch.items, id))
  }

  predicate MakesTransfer(creates: seq<Create>, id: string) {
    var first := FirstPayload(Payloads(creates), id);
    first.Some? && first.value.transferTo.Some?
  }

  ghost predicate RecordsKey(cfg: Settings, l: Ledger, batch: Batch<Create>, k: string) {
    exists id :: RecordsAs(cfg, l, batch, id, k)
  }

  predicate RowTracks(creates: seq<Create>, row: Reported, k: string) {
    row.importId.Some? && FindCreate(creates, row.importId.value).Some?
    && var p := FindCreate(creates, row.importId.value).value;
       p.trackingKey == k || (p.secondary.Some? && row.transferId.Some? && p.secondary.value.trackingKey == k)
  }

  predicate DuplicateTracks(cfg: Settings, l: Ledger, budget: string, creates: seq<Create>, id: string, k: string) {
    FindCreate(creates, id).Some? && FindCreate(creates, id).value.trackingKey == k
    && IsFound(cfg, l, budget, FindCreate(creates, id).value)
  }

  lemma TrackNativeTracks(w: World, key: string, facts: Facts, k: string)
    ensures k in TrackNativeMatch(w, key, facts).table <==> k in w.table || k == key
  {
    hide Patch;
  }

  lemma SecondaryTracks(w: World, cfg: Settings, budget: string, secondary: Create, row: Reported, k: string)
    ensures k in RecordSecondary(w, cfg, budget, secondary, row).table
       <==> k in w.table || (row.transferId.Some? && k == secondary.trackingKey)
  {
    hide Patch, SecondaryFacts, Record, WriteUnless400;
    if row.transferId.Some? {
      var facts := SecondaryFacts(cfg, budget, secondary, row.transferId.value, row.payee);
      var tracked := CountCreated(Record(w, secondary.trackingKey, facts));
      RecordTracks(w, secondary.trackingKey, facts, k);
      CallsKeepTable(tracked, Patch(w.ledger, budget, row.transferId.value, Some(secondary.payload.amount), Cleared));
    }
  }

  lemma RecordTracks(w: World, key: string, facts: Facts, k: string)
    ensures k in Record(w, key, facts).table <==> k in w.table || k == key
  {
  }

  lemma RecordRowTracks(w: World, cfg: Settings, budget: string, creates: seq<Create>, row: Reported, k: string)
    ensures k in RecordRow(w, cfg, budget, creates, row).table <==> k in w.table || RowTracks(creates, row, k)
  {
    hide TrackNativeMatch, CreateFacts, FindCreate, Record, RecordSecondary;
    if row.importId.Some? && FindCreate(creates, row.importId.value).Some? {
      var p := FindCreate(creates, row.importId.value).value;
      var payee := PayeeOr(p.payload.payee, row.payee);
      if p.secondary.None? && row.matched.Some? {
        var facts := CreateFacts(budget, p, row.matched.value, p.status, p.payload.amount, payee);
        TrackNativeTracks(CountUpdated(w), p.trackingKey, facts, k);
      } else {
        var facts := CreateFacts(budget, p, row.id, p.status, p.payload.amount, payee);
        RecordTracks(w, p.trackingKey, facts, k);
        if p.secondary.Some? {
          SecondaryTracks(CountCreated(Record(w, p.trackingKey, facts)), cfg, budget, p.secondary.value, row, k);
        }
      }
    }
  }

  lemma {:induction false} RecordCreatedTracks(w: World, cfg: Settings, budget: string, creates: seq<Create>,
                                               rows: seq<Reported>, k: string)
    requires RecordCreated(w, cfg, budget, creates, rows).status == Running
    ensures k in RecordCreated(w, cfg, budget, creates, rows).table
       <==> k in w.table || exists row :: row in rows && RowTracks(creates, row, k)
    decreases |rows|
  {
    hide RecordRow, RowTracks;
    if rows != [] {
      var w1 := RecordRow(w, cfg, budget, creates, rows[0]);
      HaltedRows(w1, cfg, budget, creates, rows[1..]);
      RecordRowTracks(w, cfg, budget, creates, rows[0], k);
      RecordCreatedTracks(w1, cfg, budget, creates, rows[1..], k);
      assert forall row :: row in rows <==> row == rows[0] || row in rows[1..];
    }
  }

  lemma HaltedRows(w: World, cfg: Settings, budget: string, creates: seq<Create>, rows: seq<Reported>)
    ensures w.status != Running ==> RecordCreated(w, cfg, budget, creates, rows) == w
  {
  }

  lemma RecoverTracks(w: World, cfg: Settings, budget: string, p: Create, k: string)
    requires Recover(w, cfg, budget, p).status == Running
    ensures var w' := Recover(w, cfg, budget, p);
            w'.ledger == w.ledger && (k in w'.table <==> k in w.table || (k == p.trackingKey && IsFound(cfg, w.ledger, budget, p)))
  {
    hide LookUp, LookUpGone, RecoveredFacts, DeletedFacts;
  }

  lemma {:induction false} BackfillTracks(w: World, cfg: Settings, budget: string, creates: seq<Create>,
                                          ids: seq<string>,
                                          k: string)
    requires Backfill(w, cfg, budget, creates, ids).status == Running
    ensures var w' := Backfill(w, cfg, budget, creates, ids);
            && w'.ledger == w.ledger
            && (k in w'.table
                <==> k in w.table || exists id :: id in ids && DuplicateTracks(cfg, w.ledger, budget, creates, id, k))
    decreases |ids|
  {
    hide Recover, FindCreate, IsFound;
    if ids != [] {
      var w1 := BackfillOne(w, cfg, budget, creates, ids[0]);
      HaltedBackfill(w1, cfg, budget, creates, ids[1..]);
      var found := FindCreate(creates, ids[0]);
      if found.Some? && found.value.trackingKey !in w.table {
        RecoverTracks(w, cfg, budget, found.value, k);
      }
      assert k in w1.table <==> k in w.table || DuplicateTracks(cfg, w.ledger, budget, creates, ids[0], k);
      BackfillTracks(w1, cfg, budget, creates, ids[1..], k);
      hide DuplicateTracks, BackfillOne;
      assert forall id :: id in ids <==> id == ids[0] || id in ids[1..];
    }
  }

  lemma HaltedBackfill(w: World, cfg: Settings, budget: string, creates: seq<Create>, ids: seq<string>)
    ensures w.status != Running ==> Backfill(w, cfg, budget, creates, ids) == w
  {
  }

  // --- one batch, and all of them ---------------------------------------------------------------------------------

  /** A create that was answered: YNAB's ledger and response, the script aside. */
  lemma AnsweredPost(w: World, cfg: Settings, budget: string, ps: seq<Payload>)
    requires PostCreates(w, cfg, budget, ps).0.status == Running
    ensures var (posted, r) := PostCreates(w, cfg, budget, ps);
            && posted.table == w.table && posted.now == w.now && w.status == Running
            && (posted.ledger, r) == CreateAll(w.ledger, cfg.native, budget, ps)
  {
    hide CreateOne;
  }

  /** Recording changes no import and adds none. */
  lemma RecordingIsCalm(w: World, cfg: Settings, budget: string, creates: seq<Create>, rows: seq<Reported>)
    ensures Calm(w.ledger, RecordCreated(w, cfg, budget, creates, rows).ledger, iset{})
  {
    var own := iset p | p in creates :: p.trackingKey;
    var others := iset p | p in creates && p.secondary.Some? :: p.secondary.value.trackingKey;
    hide Calm, RecordCreated;
    assert CreateKeysIn(creates, own + others);
    RecordCreatedIsQuiet(w, cfg, budget, creates, rows, own + others, iset{});
  }

  lemma PayloadOf(creates: seq<Create>, p: Create)
    requires p in creates
    ensures p.payload in Payloads(creates)
  {
    var i :| 0 <= i < |creates| && creates[i] == p;
    assert Payloads(creates)[i] == p.payload;
  }

  /** What the ledger holds under a burned id is found alike before and after the batch. */
  lemma FoundThroughout(w: World, cfg: Settings, batch: Batch<Create>, posted: World, recorded: World, r: Response,
                        p: Create)
    requires PostCreates(w, cfg, batch.budget, Payloads(batch.items)) == (posted, r) && posted.status == Running
    requires recorded == RecordCreated(posted, cfg, batch.budget, batch.items, r.rows)
    requires Burned(w.ledger, batch.budget, p.payload.importId)
    ensures IsFound(cfg, recorded.ledger, batch.budget, p) <==> IsFound(cfg, w.ledger, batch.budget, p)
    ensures LookUp(recorded.ledger, cfg, batch.budget, p) == LookUp(w.ledger, cfg, batch.budget, p)
  {
    var b, id, ps := batch.budget, p.payload.importId, Payloads(batch.items);
    AnsweredPost(w, cfg, b, ps);
    CreateAllSameHolders(w.ledger, cfg.native, b, ps, b, id);
    RecordingIsCalm(posted, cfg, b, batch.items, r.rows);
    hide PostCreates, RecordCreated, CreateAll, Calm, SameHolders, LookUp, LookUpGone, Payloads, Burned;
    CalmSameHolders(posted.ledger, recorded.ledger, b, id);
    SameHoldersTransitive(w.ledger, posted.ledger, recorded.ledger, b, id);
    SameFound(w.ledger, recorded.ledger, cfg, b, p);
  }

  /** The batch, cut at its two calls. */
  lemma BatchRuns(w: World, cfg: Settings, batch: Batch<Create>)
    requires SubmitCreates(w, cfg, batch).status == Running
    ensures var (posted, r) := PostCreates(w, cfg, batch.budget, Payloads(batch.items));
            var recorded := RecordCreated(posted, cfg, batch.budget, batch.items, r.rows);
            var counted := CountDuplicates(recorded, |r.duplicates|);
            && posted.status == Running && recorded.status == Running
            && SubmitCreates(w, cfg, batch) == Backfill(counted, cfg, batch.budget, batch.items, r.duplicates)
  {
    hide PostCreates, RecordCreated, Backfill, Payloads;
  }

  /** A batch that went through tracks exactly the keys of what it records. */
  lemma BatchTracks(w: World, cfg: Settings, batch: Batch<Create>, k: string)
    requires SubmitCreates(w, cfg, batch).status == Running
    ensures k in SubmitCreates(w, cfg, batch).table <==> k in w.table || RecordsKey(cfg, w.ledger, batch, k)
  {
    var b, ps := batch.budget, Payloads(batch.items);
    var (posted, r) := PostCreates(w, cfg, b, ps);
    var recorded := RecordCreated(posted, cfg, b, batch.items, r.rows);
    hide SubmitCreates, PostCreates, RecordCreated, Backfill;
    hide Payloads, RecordsKey, RowTracks, DuplicateTracks, AnswersFirst;
    BatchRuns(w, cfg, batch);
    AnsweredPost(w, cfg, b, ps);
    CreateAllAnswersFirst(w.ledger, cfg.native, b, ps);
    RecordCreatedTracks(posted, cfg, b, batch.items, r.rows, k);
    BackfillTracks(CountDuplicates(recorded, |r.duplicates|), cfg, b, batch.items, r.duplicates, k);
    TrackedIffRecords(w, cfg, batch, posted, recorded, r, k);
  }

  lemma TrackedIffRecords(w: World, cfg: Settings, batch: Batch<Create>, posted: World, recorded: World, r: Response,
                          k: string)
    requires PostCreates(w, cfg, batch.budget, Payloads(batch.items)) == (posted, r) && posted.status == Running
    requires recorded == RecordCreated(posted, cfg, batch.budget, batch.items, r.rows)
    requires AnswersFirst(w.ledger, batch.budget, Payloads(batch.items), posted.ledger, r)
    ensures RecordsKey(cfg, w.ledger, batch, k)
       <==> (exists row :: row in r.rows && RowTracks(batch.items, row, k))
            || exists id :: id in r.duplicates && DuplicateTracks(cfg, recorded.ledger, batch.budget, batch.items, id, k)
  {
    var b, items := batch.budget, batch.items;
    hide PostCreates, RecordCreated, Burned, Payloads, LookUp, LookUpGone, FindCreate, IsFound;
    if RecordsKey(cfg, w.ledger, batch, k) {
      var id :| RecordsAs(cfg, w.ledger, batch, id, k);
      RecordedIsTracked(w, cfg, batch, posted, recorded, r, id, k);
    }
    if exists row :: row in r.rows && RowTracks(items, row, k) {
      var row :| row in r.rows && RowTracks(items, row, k);
      assert RecordsAs(cfg, w.ledger, batch, row.importId.value, k);
    }
    if exists id :: id in r.duplicates && DuplicateTracks(cfg, recorded.ledger, b, items, id, k) {
      var id :| id in r.duplicates && DuplicateTracks(cfg, recorded.ledger, b, items, id, k);
      var p := FindCreate(items, id).value;
      assert p.payload.importId == id by { FoundHasId(items, id); }
      if Burned(w.ledger, b, id) {
        FoundThroughout(w, cfg, batch, posted, recorded, r, p);
      }
      assert RecordsAs(cfg, w.ledger, batch, id, k);
    }
  }

  lemma FoundHasId(creates: seq<Create>, id: string)
    ensures FindCreate(creates, id).Some? ==>
        FindCreate(creates, id).value in creates && FindCreate(creates, id).value.payload.importId == id
  {
  }

  lemma RecordedIsTracked(w: World, cfg: Settings, batch: Batch<Create>, posted: World, recorded: World, r: Response,
                          id: string, k: string)
    requires PostCreates(w, cfg, batch.budget, Payloads(batch.items)) == (posted, r) && posted.status == Running
    requires recorded == RecordCreated(posted, cfg, batch.budget, batch.items, r.rows)
    requires AnswersFirst(w.ledger, batch.budget, Payloads(batch.items), posted.ledger, r)
    requires RecordsAs(cfg, w.ledger, batch, id, k)
    ensures (exists row :: row in r.rows && RowTracks(batch.items, row, k))
         || exists id :: id in r.duplicates && DuplicateTracks(cfg, recorded.ledger, batch.budget, batch.items, id, k)
  {
    var p := FindCreate(batch.items, id).value;
    FoundHasId(batch.items, id);
    PayloadOf(batch.items, p);
    hide PostCreates, RecordCreated, Burned, Payloads, LookUp, LookUpGone, FindCreate, IsFound;
    if Burned(w.ledger, batch.budget, id) {
      FoundThroughout(w, cfg, batch, posted, recorded, r, p);
      assert DuplicateTracks(cfg, recorded.ledger, batch.budget, batch.items, id, k);
    } else {
      var row :| row in r.rows && row.importId == Some(id);
      assert RowTracks(batch.items, row, k);
    }
  }

  /** Other budgets' batches change nothing for this one. */
  lemma OtherBatch(w: World, cfg: Settings, batch: Batch<Create>, other: Batch<Create>, k: string)
    requires SubmitCreates(w, cfg, batch).status == Running && other.budget != batch.budget
    ensures RecordsKey(cfg, SubmitCreates(w, cfg, batch).ledger, other, k) <==> RecordsKey(cfg, w.ledger, other, k)
  {
    var l' := SubmitCreates(w, cfg, batch).ledger;
    hide SubmitCreates, FindCreate, LookUp, LookUpGone, Burned, MakesTransfer;
    forall id ensures RecordsAs(cfg, l', other, id, k) <==> RecordsAs(cfg, w.ledger, other, id, k) {
      OtherHolders(w, cfg, batch, other.budget, id);
      SameLookUps(w.ledger, l', other.budget, id);
      if FindCreate(other.items, id).Some? {
        FoundHasId(other.items, id);
        SameFound(w.ledger, l', cfg, other.budget, FindCreate(other.items, id).value);
      }
    }
  }

  lemma OtherHolders(w: World, cfg: Settings, batch: Batch<Create>, budget: string, id: string)
    requires SubmitCreates(w, cfg, batch).status == Running && (budget != batch.budget || Burned(w.ledger, budget, id))
    ensures SameHolders(w.ledger, SubmitCreates(w, cfg, batch).ledger, budget, id)
  {
    var b, ps := batch.budget, Payloads(batch.items);
    var (posted, r) := PostCreates(w, cfg, b, ps);
    var recorded := RecordCreated(posted, cfg, b, batch.items, r.rows);
    hide SubmitCreates, PostCreates, RecordCreated, Backfill, Payloads, CreateAll, SameHolders, Calm, Burned;
    BatchRuns(w, cfg, batch);
    AnsweredPost(w, cfg, b, ps);
    CreateAllSameHolders(w.ledger, cfg.native, b, ps, budget, id);
    RecordingIsCalm(posted, cfg, b, batch.items, r.rows);
    CalmSameHolders(posted.ledger, recorded.ledger, budget, id);
    SameHoldersTransitive(w.ledger, posted.ledger, recorded.ledger, budget, id);
    BackfillTracks(CountDuplicates(recorded, |r.duplicates|), cfg, b, batch.items, r.duplicates, "");
  }

  /** Creates that went through track exactly the keys of what they record. */
  lemma {:induction false} CreatesTrack(w: World, cfg: Settings, batches: seq<Batch<Create>>, k: string)
    requires DistinctBudgets(batches) && CreatesPhase(w, cfg, batches).status == Running
    ensures k in CreatesPhase(w, cfg, batches).table
       <==> k in w.table || exists n :: 0 <= n < |batches| && RecordsKey(cfg, w.ledger, batches[n], k)
    decreases |batches|
  {
    hide SubmitCreates, RecordsKey;
    if batches != [] {
      var w1 := SubmitCreates(w, cfg, batches[0]);
      assert w1.status == Running by { HaltedCreates(w1, cfg, batches[1..]); }
      BatchTracks(w, cfg, batches[0], k);
      forall n | 1 <= n < |batches|
        ensures RecordsKey(cfg, w1.ledger, batches[1..][n - 1], k) <==> RecordsKey(cfg, w.ledger, batches[n], k)
      {
        OtherBatch(w, cfg, batches[0], batches[n], k);
      }
      CreatesTrack(w1, cfg, batches[1..], k);
      assert forall n :: 0 <= n < |batches[1..]| ==> batches[1..][n] == batches[n + 1];
    }
  }

  lemma HaltedCreates(w: World, cfg: Settings, batches: seq<Batch<Create>>)
    ensures w.status != Running ==> CreatesPhase(w, cfg, batches) == w
  {
  }

  // --- creates that were submitted before ------------------------------------------------------------------------

  lemma {:induction false} BackfillKeepsRows(w: World, cfg: Settings, budget: string, creates: seq<Create>,
                                             ids: seq<string>)
    ensures var w' := Backfill(w, cfg, budget, creates, ids);
            w'.ledger == w.ledger && forall k :: k in w.table ==> k in w'.table && w'.table[k] == w.table[k]
    decreases |ids|
  {
    hide Recover, FindCreate;
    if ids != [] && w.status == Running {
      var found := FindCreate(creates, ids[0]);
      if found.Some? && found.value.trackingKey !in w.table {
        RecoverKeepsRows(w, cfg, budget, found.value);
      }
      BackfillKeepsRows(BackfillOne(w, cfg, budget, creates, ids[0]), cfg, budget, creates, ids[1..]);
    }
  }

  lemma RecoverKeepsRows(w: World, cfg: Settings, budget: string, p: Create)
    ensures var w' := Recover(w, cfg, budget, p);
            && w'.ledger == w.ledger
            && forall k :: k in w.table && k != p.trackingKey ==> k in w'.table && w'.table[k] == w.table[k]
  {
    hide LookUp, LookUpGone, RecoveredFacts, DeletedFacts;
  }

  ghost predicate BatchBurned(l: Ledger, batch: Batch<Create>) {
    forall p :: p in batch.items ==> Burned(l, batch.budget, p.payload.importId)
  }

  /** Resubmitted, a batch leaves every tracked row and YNAB alone, whatever calls fail. */
  lemma BurnedBatchKeepsRows(w: World, cfg: Settings, batch: Batch<Create>)
    requires BatchBurned(w.ledger, batch)
    ensures var w' := SubmitCreates(w, cfg, batch);
            w'.ledger == w.ledger && forall k :: k in w.table ==> k in w'.table && w'.table[k] == w.table[k]
  {
    var ps := Payloads(batch.items);
    forall p | p in ps ensures Burned(w.ledger, batch.budget, p.importId) {
      var i :| 0 <= i < |ps| && ps[i] == p;
      assert batch.items[i] in batch.items;
    }
    ResubmittedBatch(w.ledger, cfg.native, batch.budget, ps);
    hide CreateAll, Backfill, Burned, Payloads, SubmittedIds;
    var (posted, r) := PostCreates(w, cfg, batch.budget, ps);
    assert posted.ledger == w.ledger && posted.table == w.table && r.rows == [];
    BackfillKeepsRows(CountDuplicates(posted, |r.duplicates|), cfg, batch.budget, batch.items, r.duplicates);
  }

  lemma {:induction false} BurnedCreatesKeepRows(w: World, cfg: Settings, batches: seq<Batch<Create>>)
    requires forall b :: b in batches ==> BatchBurned(w.ledger, b)
    ensures var w' := CreatesPhase(w, cfg, batches);
            w'.ledger == w.ledger && forall k :: k in w.table ==> k in w'.table && w'.table[k] == w.table[k]
    decreases |batches|
  {
    hide SubmitCreates, BatchBurned;
    if batches != [] && w.status == Running {
      BurnedBatchKeepsRows(w, cfg, batches[0]);
      BurnedCreatesKeepRows(SubmitCreates(w, cfg, batches[0]), cfg, batches[1..]);
    }
  }

  lemma {:induction false} CreateAllBurns(l: Ledger, native: NativeMatcher, b: string, ps: seq<Payload>)
    ensures var l' := CreateAll(l, native, b, ps).0;
            (forall id :: Burned(l, b, id) ==> Burned(l', b, id)) && forall p :: p in ps ==> Burned(l', b, p.importId)
    decreases |ps|
  {
    if ps != [] {
      CreateOneKeepsImports(l, native, b, ps[0]);
      hide CreateOne, Burned;
      CreateAllBurns(CreateOne(l, native, b, ps[0]).0, native, b, ps[1..]);
    }
  }

  /** A batch that went through has burned all its import_ids. */
  lemma BatchBurns(w: World, cfg: Settings, batch: Batch<Create>)
    requires SubmitCreates(w, cfg, batch).status == Running
    ensures BatchBurned(SubmitCreates(w, cfg, batch).ledger, batch)
  {
    var b, ps := batch.budget, Payloads(batch.items);
    var (posted, r) := PostCreates(w, cfg, b, ps);
    var recorded := RecordCreated(posted, cfg, b, batch.items, r.rows);
    var l' := SubmitCreates(w, cfg, batch).ledger;
    hide SubmitCreates, PostCreates, RecordCreated, Backfill, Payloads, CreateAll, Burned, SameHolders, Calm;
    BatchRuns(w, cfg, batch);
    AnsweredPost(w, cfg, b, ps);
    CreateAllBurns(w.ledger, cfg.native, b, ps);
    RecordingIsCalm(posted, cfg, b, batch.items, r.rows);
    BackfillKeepsRows(CountDuplicates(recorded, |r.duplicates|), cfg, b, batch.items, r.duplicates);
    forall p | p in batch.items ensures Burned(l', b, p.payload.importId) {
      PayloadOf(batch.items, p);
      CalmSameHolders(posted.ledger, recorded.ledger, b, p.payload.importId);
      SameLookUps(posted.ledger, recorded.ledger, b, p.payload.importId);
    }
  }

  lemma BatchStaysBurned(l: Ledger, l': Ledger, batch: Batch<Create>)
    requires BatchBurned(l, batch) && Extends(l, l')
    ensures BatchBurned(l', batch)
  {
    hide Burned, Extends;
    forall p | p in batch.items ensures Burned(l', batch.budget, p.payload.importId) {
      BurnedForever(l, l', batch.budget, p.payload.importId);
    }
  }

  ghost function KeysIn(batches: seq<Batch<Create>>): iset<string> {
    iset b, p | b in batches && p in b.items :: p.trackingKey
  }

  ghost function SecondariesIn(batches: seq<Batch<Create>>): iset<string> {
    iset b, p | b in batches && p in b.items && p.secondary.Some? :: p.secondary.value.trackingKey
  }

  ghost function IdsIn(batches: seq<Batch<Create>>): iset<string> {
    iset b, p | b in batches && p in b.items :: p.payload.importId
  }

  lemma OwnWithin(batches: seq<Batch<Create>>, b: Batch<Create>)
    requires b in batches
    ensures BatchWithin(b, KeysIn(batches) + SecondariesIn(batches), IdsIn(batches))
  {
  }

  lemma CreatesExtend(w: World, cfg: Settings, batches: seq<Batch<Create>>)
    ensures Extends(w.ledger, CreatesPhase(w, cfg, batches).ledger)
  {
    hide CreatesPhase, BatchWithin, KeysIn, SecondariesIn, IdsIn, Extends;
    forall b | b in batches ensures BatchWithin(b, KeysIn(batches) + SecondariesIn(batches), IdsIn(batches)) {
      OwnWithin(batches, b);
    }
    CreatesPhaseIsQuiet(w, cfg, batches, KeysIn(batches) + SecondariesIn(batches), IdsIn(batches));
  }

  lemma {:induction false} CreatesBurn(w: World, cfg: Settings, batches: seq<Batch<Create>>)
    requires CreatesPhase(w, cfg, batches).status == Running
    ensures forall b :: b in batches ==> BatchBurned(CreatesPhase(w, cfg, batches).ledger, b)
    decreases |batches|
  {
    hide SubmitCreates, BatchBurned, Extends;
    if batches != [] {
      var w1 := SubmitCreates(w, cfg, batches[0]);
      assert w1.status == Running by { HaltedCreates(w1, cfg, batches[1..]); }
      BatchBurns(w, cfg, batches[0]);
      CreatesBurn(w1, cfg, batches[1..]);
      CreatesExtend(w1, cfg, batches[1..]);
      BatchStaysBurned(w1.ledger, CreatesPhase(w1, cfg, batches[1..]).ledger, batches[0]);
    }
  }
}
