/**
 * Creates that YNAB matches natively: what their rows and the originals they
 * are for say of each other after a success.
 */
module MatchedOriginals {
  import opened Wrappers
  import opened Ynab
  import opened StateDb
  import opened SyncSpec
  import opened Creation
  import opened Classification
  import opened Filing
  import opened RowFacts
  import opened RowRecords
  import opened TrackedKeys
  import opened Recovery
  import opened RecoveryFacts
  import opened AttemptEffects
  import opened OwnTransactions
  import opened UntouchedImports
  import opened Mirroring
  import opened Runs
  import DateWindow
  import Money

  // --- no call is answered with a 400 -----------------------------------------------------------------------------

  predicate NoBadRequest(script: seq<Fault>) { BadRequest !in script }

  lemma CallsStayGood(w: World, l: Ledger)
    requires NoBadRequest(w.script)
    ensures NoBadRequest(Consume(w).script) && NoBadRequest(Write(w, l).script) && NoBadRequest(Read(w).script)
    ensures NoBadRequest(WriteUnless400(w, l).script)
  {
  }

  lemma TrackNativeStaysGood(w: World, key: string, facts: Facts)
    requires NoBadRequest(w.script)
    ensures NoBadRequest(TrackNativeMatch(w, key, facts).script)
  {
    hide Upsert, Patch;
  }

  lemma RecordRowStaysGood(w: World, cfg: Settings, budget: string, creates: seq<Create>, row: Reported)
    requires NoBadRequest(w.script) && NoSecondaries(creates)
    ensures NoBadRequest(RecordRow(w, cfg, budget, creates, row).script)
  {
    if row.importId.Some? && FindCreate(creates, row.importId.value).Some? {
      FoundHasId(creates, row.importId.value);
      var p := FindCreate(creates, row.importId.value).value;
      var payee := PayeeOr(p.payload.payee, row.payee);
      hide FindCreate, TrackNativeMatch, CreateFacts, NoBadRequest, Upsert;
      if row.matched.Some? {
        TrackNativeStaysGood(CountUpdated(w), p.trackingKey,
                             CreateFacts(budget, p, row.matched.value, p.status, p.payload.amount, payee));
      }
    }
  }

  lemma {:induction false} RecordCreatedStaysGood(w: World, cfg: Settings, budget: string, creates: seq<Create>,
                                                  rows: seq<Reported>)
    requires NoBadRequest(w.script) && NoSecondaries(creates)
    ensures NoBadRequest(RecordCreated(w, cfg, budget, creates, rows).script)
    decreases |rows|
  {
    if rows != [] && w.status == Running {
      RecordRowStaysGood(w, cfg, budget, creates, rows[0]);
      hide RecordRow;
      RecordCreatedStaysGood(RecordRow(w, cfg, budget, creates, rows[0]), cfg, budget, creates, rows[1..]);
    }
  }

  lemma {:induction false} BackfillStaysGood(w: World, cfg: Settings, budget: string, creates: seq<Create>,
                                             ids: seq<string>)
    requires NoBadRequest(w.script)
    ensures NoBadRequest(Backfill(w, cfg, budget, creates, ids).script)
    decreases |ids|
  {
    if ids != [] && w.status == Running {
      hide FindCreate, LookUp, LookUpGone, Upsert;
      assert NoBadRequest(BackfillOne(w, cfg, budget, creates, ids[0]).script);
      hide BackfillOne;
      BackfillStaysGood(BackfillOne(w, cfg, budget, creates, ids[0]), cfg, budget, creates, ids[1..]);
    }
  }

  lemma PostStaysGood(w: World, cfg: Settings, budget: string, ps: seq<Payload>)
    requires NoBadRequest(w.script)
    ensures NoBadRequest(PostCreates(w, cfg, budget, ps).0.script)
  {
    hide CreateAll;
  }

  lemma BatchStaysGood(w: World, cfg: Settings, batch: Batch<Create>)
    requires NoBadRequest(w.script) && NoSecondaries(batch.items)
    ensures NoBadRequest(SubmitCreates(w, cfg, batch).script)
  {
    var b, ps := batch.budget, Payloads(batch.items);
    var (posted, r) := PostCreates(w, cfg, b, ps);
    var recorded := RecordCreated(posted, cfg, b, batch.items, r.rows);
    PostStaysGood(w, cfg, b, ps);
    hide PostCreates, RecordCreated, Backfill, Payloads;
    RecordCreatedStaysGood(posted, cfg, b, batch.items, r.rows);
    BackfillStaysGood(CountDuplicates(recorded, |r.duplicates|), cfg, b, batch.items, r.duplicates);
  }

  // --- the original while answers are recorded -------------------------------------------------------------------

  /** The original as YNAB left it when it matched it, or already with the flag of the create. */
  ghost predicate AtFlag(l: Ledger, o: nat, txn: Txn, p: Create, done: bool) {
    && o < |l| && txn.cleared == Cleared && l[o] == txn.(cleared := l[o].cleared)
    && (l[o].cleared == Cleared || l[o].cleared == p.payload.cleared)
    && (done ==> l[o].cleared == p.payload.cleared)
  }

  lemma TrackNativeAt(w: World, key: string, facts: Facts, o: nat)
    requires NoBadRequest(w.script) && o < |w.ledger| && CanPatch(w.ledger, facts.budget, o)
    requires TrackNativeMatch(w, key, facts).status == Running
    ensures var l' := TrackNativeMatch(w, key, facts).ledger;
            && |l'| == |w.ledger| && (facts.txnId != o ==> l'[o] == w.ledger[o])
            && (facts.txnId == o && facts.status == Pending && facts.cleared == Uncleared ==>
                  l'[o] == w.ledger[o].(cleared := Uncleared))
            && (facts.txnId == o && !(facts.status == Pending && facts.cleared == Uncleared) ==> l'[o] == w.ledger[o])
  {
    hide Upsert;
  }

  /** Only the answer for p names this original. */
  ghost predicate OnlyFor(row: Reported, id: string, o: nat) {
    row.importId.Some? && row.matched == Some(o) ==> row.importId == Some(id)
  }

  ghost predicate FlagFits(p: Create) { p.status != Deleted && p.payload.cleared == ClearedFor(p.status) }

  lemma RecordRowAt(w: World, cfg: Settings, budget: string, creates: seq<Create>, row: Reported, p: Create, o: nat,
                    txn: Txn, done: bool)
    requires NoBadRequest(w.script) && NoSecondaries(creates) && FlagFits(p) && OnlyFor(row, p.payload.importId, o)
    requires FindCreate(creates, p.payload.importId) == Some(p)
    requires AtFlag(w.ledger, o, txn, p, done) && txn.budget == budget && !txn.deleted
    requires RecordRow(w, cfg, budget, creates, row).status == Running
    ensures AtFlag(RecordRow(w, cfg, budget, creates, row).ledger, o, txn, p,
                   done || (row.importId == Some(p.payload.importId) && row.matched == Some(o)))
  {
    if row.importId.Some? && FindCreate(creates, row.importId.value).Some? {
      FoundHasId(creates, row.importId.value);
      var q := FindCreate(creates, row.importId.value).value;
      var payee := PayeeOr(q.payload.payee, row.payee);
      assert CanPatch(w.ledger, budget, o);
      hide FindCreate, TrackNativeMatch, Record;
      if row.matched.Some? {
        var facts := CreateFacts(budget, q, row.matched.value, q.status, q.payload.amount, payee);
        assert facts.budget == budget && facts.txnId == row.matched.value && facts.status == q.status
            && facts.cleared == q.payload.cleared by { hide Money.FromMilliunits; }
        hide CreateFacts, CanPatch;
        TrackNativeAt(CountUpdated(w), q.trackingKey, facts, o);
      } else {
        RecordKeepsLedger(w, q.trackingKey, CreateFacts(budget, q, row.id, q.status, q.payload.amount, payee));
      }
    }
  }

  ghost predicate Answer(row: Reported, id: string, o: nat) { row.importId == Some(id) && row.matched == Some(o) }

  /** Once its answer is recorded, the original has the flag of the create. */
  lemma {:induction false} RecordedAt(w: World, cfg: Settings, budget: string, creates: seq<Create>,
                                      rows: seq<Reported>,
                                      p: Create, o: nat, txn: Txn, done: bool)
    requires NoBadRequest(w.script) && NoSecondaries(creates) && FlagFits(p)
    requires forall row :: row in rows ==> OnlyFor(row, p.payload.importId, o)
    requires FindCreate(creates, p.payload.importId) == Some(p)
    requires AtFlag(w.ledger, o, txn, p, done) && txn.budget == budget && !txn.deleted
    requires done || exists row :: row in rows && Answer(row, p.payload.importId, o)
    requires RecordCreated(w, cfg, budget, creates, rows).status == Running
    ensures AtFlag(RecordCreated(w, cfg, budget, creates, rows).ledger, o, txn, p, true)
    decreases |rows|
  {
    hide AtFlag, FindCreate, FlagFits, OnlyFor;
    if rows != [] {
      var w1 := RecordRow(w, cfg, budget, creates, rows[0]);
      HaltedRows(w1, cfg, budget, creates, rows[1..]);
      assert rows[0] in rows && forall row :: row in rows <==> row == rows[0] || row in rows[1..];
      RecordRowAt(w, cfg, budget, creates, rows[0], p, o, txn, done);
      RecordRowStaysGood(w, cfg, budget, creates, rows[0]);
      hide RecordRow;
      RecordedAt(w1, cfg, budget, creates, rows[1..], p, o, txn, done || Answer(rows[0], p.payload.importId, o));
    }
  }

  // --- the row of a create that was matched ----------------------------------------------------------------------

  /** A row for a transaction without an import_id: that one was matched for the first payload, and has p's flag. */
  ghost predicate MatchedRow(budget: string, first: Payload, p: Create, l: Ledger, r: Row) {
    r.facts.txnId < |l|
    && var txn := l[r.facts.txnId];
       txn.importId.None? ==>
         && r.amountMilliunits == p.payload.amount && r.facts.cleared == p.payload.cleared
         && txn.matched.Some? && txn.budget == budget && txn.amount == first.amount && txn.cleared == p.payload.cleared
  }

  ghost function HasMatchedRow(budget: string, first: Payload, p: Create, l: Ledger): RowProperty {
    (k: string, r: Row) => k == p.trackingKey ==> MatchedRow(budget, first, p, l, r)
  }

  lemma RecordsMatched(budget: string, first: Payload, p: Create, l: Ledger, facts: Facts, now: int)
    requires MatchedRow(budget, first, p, l, Row(facts, Money.ToMilliunits(facts.amount), now, 0))
    ensures RecordingKeeps(now, p.trackingKey, facts, HasMatchedRow(budget, first, p, l))
  {
    var has, amount := HasMatchedRow(budget, first, p, l), Money.ToMilliunits(facts.amount);
    hide MatchedRow, Money.ToMilliunits;
    assert has(p.trackingKey, Row(facts, amount, now, 0));
    forall r: Row ensures has(p.trackingKey, Row(facts, amount, r.firstSeenAt, r.readdCount)) {
      SameFactsMatched(budget, first, p, l, Row(facts, amount, now, 0),
                       Row(facts, amount, r.firstSeenAt, r.readdCount));
    }
  }

  lemma SameFactsMatched(budget: string, first: Payload, p: Create, l: Ledger, r: Row, r': Row)
    requires MatchedRow(budget, first, p, l, r) && r'.facts == r.facts && r'.amountMilliunits == r.amountMilliunits
    ensures MatchedRow(budget, first, p, l, r')
  {
  }

  lemma OtherKeyMatched(budget: string, first: Payload, p: Create, l: Ledger, key: string, now: int)
    requires key != p.trackingKey
    ensures forall facts :: RecordingKeeps(now, key, facts, HasMatchedRow(budget, first, p, l))
  {
    hide MatchedRow;
  }

  /** Of the answers, only the one for p names the original that was matched for p. */
  lemma NamesApart(l: Ledger, budget: string, ps: seq<Payload>, l': Ledger, r: Response, answer: Reported, o: nat)
    requires AnswersFirst(l, budget, ps, l', r) && answer in r.rows && answer.importId.Some?
             && answer.matched == Some(o)
    ensures forall row :: row in r.rows ==> OnlyFor(row, answer.importId.value, o)
  {
    hide FirstPayload, Burned, MatchedWith;
    forall row | row in r.rows && row.importId.Some? && row.matched == Some(o)
      ensures row.importId == answer.importId
    {
      assert Created(l, l', budget, FirstPayload(ps, row.importId.value).value, row);
      assert Created(l, l', budget, FirstPayload(ps, answer.importId.value).value, answer);
    }
  }

  /** The answer for p: its own import, or an original that is flagged once the answers are recorded. */
  lemma MatchedTarget(w: World, cfg: Settings, h: Home, batch: Batch<Create>, posted: World, recorded: World,
                      r: Response,
                      first: Payload, p: Create, row: Reported)
    requires PostCreates(w, cfg, batch.budget, Payloads(batch.items)) == (posted, r) && posted.status == Running
    requires recorded == RecordCreated(posted, cfg, batch.budget, batch.items, r.rows) && recorded.status == Running
    requires AnswersFirst(w.ledger, batch.budget, Payloads(batch.items), posted.ledger, r)
    requires Sole(h, batch.budget, batch.items, first, p) && FlagFits(p) && NoBadRequest(posted.script)
    requires NoSecondaries(batch.items) && Extends(posted.ledger, recorded.ledger)
    requires row in r.rows && row.importId == Some(p.payload.importId) && p.payload.importId == h.idOf(p.trackingKey)
    ensures var l := recorded.ledger;
            && TargetOf(row) < |l|
            && (l[TargetOf(row)].importId.None? ==>
                  && l[TargetOf(row)].matched.Some? && l[TargetOf(row)].budget == batch.budget
                  && l[TargetOf(row)].amount == first.amount && l[TargetOf(row)].cleared == p.payload.cleared)
  {
    hide PostCreates, RecordCreated, Burned, Payloads, FirstPayload, FindCreate, CreateAtHome;
    assert Created(w.ledger, posted.ledger, batch.budget, first, row);
    assert SameIdentity(posted.ledger[TargetOf(row)], recorded.ledger[TargetOf(row)]);
    if row.matched.Some? {
      var o := row.matched.value;
      NamesApart(w.ledger, batch.budget, Payloads(batch.items), posted.ledger, r, row, o);
      assert Answer(row, p.payload.importId, o);
      assert AtFlag(posted.ledger, o, posted.ledger[o], p, false);
      hide AnswersFirst, FlagFits, OnlyFor;
      RecordedAt(posted, cfg, batch.budget, batch.items, r.rows, p, o, posted.ledger[o], false);
    }
  }

  lemma AnswerHasMatched(w: World, cfg: Settings, h: Home, batch: Batch<Create>, posted: World, recorded: World,
                         r: Response, first: Payload, p: Create, row: Reported)
    requires PostCreates(w, cfg, batch.budget, Payloads(batch.items)) == (posted, r) && posted.status == Running
    requires recorded == RecordCreated(posted, cfg, batch.budget, batch.items, r.rows) && recorded.status == Running
    requires AnswersFirst(w.ledger, batch.budget, Payloads(batch.items), posted.ledger, r)
    requires Sole(h, batch.budget, batch.items, first, p) && FlagFits(p) && NoBadRequest(posted.script)
    requires NoSecondaries(batch.items) && Extends(posted.ledger, recorded.ledger) && row in r.rows
    ensures AnswerRecords(batch.budget, batch.items, row, w.now, HasMatchedRow(batch.budget, first, p, recorded.ledger))
  {
    var b, items, l := batch.budget, batch.items, recorded.ledger;
    if row.importId.Some? && FindCreate(items, row.importId.value).Some? {
      var q := FindCreate(items, row.importId.value).value;
      SoleFound(h, b, items, first, p, row.importId.value);
      hide PostCreates, RecordCreated, FindCreate, FirstPayload, Burned, Payloads, RecordingKeeps, AnswersFirst, Sole;
      hide FlagFits;
      if q.trackingKey == p.trackingKey {
        MatchedTarget(w, cfg, h, batch, posted, recorded, r, first, p, row);
        hide Extends, NoSecondaries;
        forall payee
          ensures RecordingKeeps(w.now, p.trackingKey,
                                 CreateFacts(b, p, TargetOf(row), p.status, p.payload.amount, payee),
                                 HasMatchedRow(b, first, p, l))
        {
          MatchedFacts(b, first, p, l, TargetOf(row), payee, w.now);
        }
      } else {
        OtherKeyMatched(b, first, p, l, q.trackingKey, w.now);
      }
    }
  }

  lemma MatchedFacts(budget: string, first: Payload, p: Create, l: Ledger, id: nat, payee: string, now: int)
    requires id < |l|
    requires l[id].importId.None? ==>
        && l[id].matched.Some? && l[id].budget == budget
        && l[id].amount == first.amount && l[id].cleared == p.payload.cleared
    ensures RecordingKeeps(now, p.trackingKey, CreateFacts(budget, p, id, p.status, p.payload.amount, payee),
                           HasMatchedRow(budget, first, p, l))
  {
    var facts := CreateFacts(budget, p, id, p.status, p.payload.amount, payee);
    Money.MilliunitsRoundTrip(p.payload.amount);
    hide Money.ToMilliunits, Money.FromMilliunits, RecordingKeeps;
    RecordsMatched(budget, first, p, l, facts, now);
  }

  /** A duplicate is found under its import_id. */
  lemma DuplicateHasMatched(cfg: Settings, l: Ledger, budget: string, creates: seq<Create>, id: string, t: Table,
                            now: int,
                            first: Payload, p: Create)
    ensures DuplicateRecords(cfg, l, budget, creates, id, t, now, HasMatchedRow(budget, first, p, l))
  {
    hide FindCreate, RecordingKeeps, LookUp, LookUpGone;
    if FindCreate(creates, id).Some? {
      var q := FindCreate(creates, id).value;
      LookUpHolds(l, cfg, budget, q);
      var existing, gone := LookUp(l, cfg, budget, q), LookUpGone(l, cfg, budget, q);
      if q.trackingKey != p.trackingKey {
        OtherKeyMatched(budget, first, p, l, q.trackingKey, now);
      } else {
        hide Money.ToMilliunits, Money.FromMilliunits;
        if existing.Some? {
          KeyMatched(budget, first, p, q, l, RecoveredFacts(l, budget, q, existing.value), now);
        }
        if gone.Some? {
          KeyMatched(budget, first, p, q, l, DeletedFacts(budget, q, gone.value), now);
        }
      }
    }
  }

  lemma KeyMatched(budget: string, first: Payload, p: Create, q: Create, l: Ledger, facts: Facts, now: int)
    requires q.trackingKey == p.trackingKey && facts.txnId < |l| && l[facts.txnId].importId.Some?
    ensures RecordingKeeps(now, q.trackingKey, facts, HasMatchedRow(budget, first, p, l))
  {
    hide Money.ToMilliunits, RecordingKeeps;
    RecordsMatched(budget, first, p, l, facts, now);
  }

  lemma NothingMatched(cfg: Settings, h: Home, l0: Ledger, t: Table, budget: string, first: Payload, p: Create,
                       l: Ledger)
    requires StoresAtHome(cfg, h, l0, t) && p.trackingKey !in t
    ensures AllRows(t, HasMatchedRow(budget, first, p, l))
  {
    hide MatchedRow, UniqueIds, ImportsAtHome, RowAtHome;
  }

  /** The batch of an untracked key, if it went through and no call was answered with a 400. */
  lemma MatchedBatchRow(w: World, cfg: Settings, h: Home, batch: Batch<Create>, first: Payload, p: Create)
    requires SubmitCreates(w, cfg, batch).status == Running && StoresAtHome(cfg, h, w.ledger, w.table)
    requires Sole(h, batch.budget, batch.items, first, p) && p.trackingKey !in w.table
    requires FlagFits(p) && NoBadRequest(w.script)
    ensures var w' := SubmitCreates(w, cfg, batch);
            p.trackingKey in w'.table ==> MatchedRow(batch.budget, first, p, w'.ledger, w'.table[p.trackingKey])
  {
    var b, items, w' := batch.budget, batch.items, SubmitCreates(w, cfg, batch);
    var (posted, r) := PostCreates(w, cfg, b, Payloads(items));
    var recorded := RecordCreated(posted, cfg, b, items, r.rows);
    var has := HasMatchedRow(b, first, p, w'.ledger);
    SoleNoSecondaries(h, b, items, first, p);
    PostStaysGood(w, cfg, b, Payloads(items));
    hide SubmitCreates, PostCreates, RecordCreated, Payloads, StoresAtHome, Sole, MatchedRow, AllRows, NoSecondaries;
    hide AnswerRecords, DuplicateRecords, AnswersFirst, Extends, ImportsStay, BatchAtHome, FlagFits, NoBadRequest;
    BatchCut(w, cfg, h, batch);
    forall row | row in r.rows ensures AnswerRecords(b, items, row, w.now, has) {
      AnswerHasMatched(w, cfg, h, batch, posted, recorded, r, first, p, row);
    }
    forall id | id in r.duplicates
      ensures DuplicateRecords(cfg, recorded.ledger, b, items, id, recorded.table, w.now, has)
    {
      DuplicateHasMatched(cfg, recorded.ledger, b, items, id, recorded.table, w.now, first, p);
    }
    NothingMatched(cfg, h, w.ledger, w.table, b, first, p, w'.ledger);
    SubmitCreatesHas(w, cfg, batch, w.now, has);
    RowHas(w'.table, p.trackingKey, has);
  }

  // --- all batches -----------------------------------------------------------------------------------------------

  /** This transaction is as it was. */
  ghost predicate Untouched(l: Ledger, l': Ledger, o: nat) { o < |l| <= |l'| && l'[o] == l[o] }

  lemma TrackNativeElsewhere(w: World, key: string, facts: Facts, o: nat)
    requires o < |w.ledger| && w.ledger[o].budget != facts.budget
    ensures Untouched(w.ledger, TrackNativeMatch(w, key, facts).ledger, o)
  {
    hide Upsert;
  }

  lemma RecordRowElsewhere(w: World, cfg: Settings, budget: string, creates: seq<Create>, row: Reported, o: nat)
    requires NoSecondaries(creates) && o < |w.ledger| && w.ledger[o].budget != budget
    ensures Untouched(w.ledger, RecordRow(w, cfg, budget, creates, row).ledger, o)
  {
    if row.importId.Some? && FindCreate(creates, row.importId.value).Some? {
      FoundHasId(creates, row.importId.value);
      var p := FindCreate(creates, row.importId.value).value;
      var payee := PayeeOr(p.payload.payee, row.payee);
      hide FindCreate, TrackNativeMatch, Record;
      if row.matched.Some? {
        var facts := CreateFacts(budget, p, row.matched.value, p.status, p.payload.amount, payee);
        assert facts.budget == budget by { hide Money.FromMilliunits; }
        hide CreateFacts;
        TrackNativeElsewhere(CountUpdated(w), p.trackingKey, facts, o);
      } else {
        RecordKeepsLedger(w, p.trackingKey, CreateFacts(budget, p, row.id, p.status, p.payload.amount, payee));
      }
    }
  }

  lemma {:induction false} RecordCreatedElsewhere(w: World, cfg: Settings, budget: string, creates: seq<Create>,
                                                  rows: seq<Reported>, o: nat)
    requires NoSecondaries(creates) && o < |w.ledger| && w.ledger[o].budget != budget
    ensures Untouched(w.ledger, RecordCreated(w, cfg, budget, creates, rows).ledger, o)
    decreases |rows|
  {
    if rows != [] && w.status == Running {
      RecordRowElsewhere(w, cfg, budget, creates, rows[0], o);
      hide RecordRow;
      RecordCreatedElsewhere(RecordRow(w, cfg, budget, creates, rows[0]), cfg, budget, creates, rows[1..], o);
    }
  }

  /** Another budget's batch leaves a matched original alone. */
  lemma BatchElsewhere(w: World, cfg: Settings, batch: Batch<Create>, o: nat)
    requires SubmitCreates(w, cfg, batch).status == Running && NoSecondaries(batch.items)
    requires o < |w.ledger| && w.ledger[o].budget != batch.budget && w.ledger[o].matched.Some?
    ensures Untouched(w.ledger, SubmitCreates(w, cfg, batch).ledger, o)
  {
    var b, ps := batch.budget, Payloads(batch.items);
    var (posted, r) := PostCreates(w, cfg, b, ps);
    hide SubmitCreates, PostCreates, RecordCreated, Backfill, Payloads, CreateAll;
    BatchRuns(w, cfg, batch);
    CutAtCalls(w, cfg, batch);
    AnsweredPost(w, cfg, b, ps);
    CreateAllKeepsImports(w.ledger, cfg.native, b, ps);
    RecordCreatedElsewhere(posted, cfg, b, batch.items, r.rows, o);
  }

  lemma {:induction false} CreatesElsewhere(w: World, cfg: Settings, h: Home, batches: seq<Batch<Create>>, o: nat)
    requires CreatesPhase(w, cfg, batches).status == Running && forall b :: b in batches ==> BatchAtHome(h, b)
    requires o < |w.ledger| && w.ledger[o].matched.Some?
    requires forall b :: b in batches ==> b.budget != w.ledger[o].budget
    ensures Untouched(w.ledger, CreatesPhase(w, cfg, batches).ledger, o)
    decreases |batches|
  {
    hide BatchAtHome, SubmitCreates;
    if batches != [] {
      var w1 := SubmitCreates(w, cfg, batches[0]);
      assert batches[0] in batches && forall b :: b in batches[1..] ==> b in batches;
      HaltedCreates(w1, cfg, batches[1..]);
      NoneCreatedHere(h, batches[0]);
      BatchElsewhere(w, cfg, batches[0], o);
      CreatesElsewhere(w1, cfg, h, batches[1..], o);
    }
  }

  lemma OthersElsewhere(batches: seq<Batch<Create>>)
    requires batches != [] && DistinctBudgets(batches)
    ensures forall b :: b in batches[1..] ==> b.budget != batches[0].budget
  {
    forall b | b in batches[1..] ensures b.budget != batches[0].budget {
      var n :| 0 <= n < |batches[1..]| && batches[1..][n] == b;
      assert batches[n + 1] == b;
    }
  }

  lemma MatchedStays(w1: World, cfg: Settings, h: Home, batches: seq<Batch<Create>>, budget: string, first: Payload,
                     p: Create, r: Row)
    requires CreatesPhase(w1, cfg, batches).status == Running && StoresAtHome(cfg, h, w1.ledger, w1.table)
    requires MatchedRow(budget, first, p, w1.ledger, r) && NotCreated(batches, p.trackingKey)
    requires forall b :: b in batches ==> BatchAtHome(h, b) && b.budget != budget
    ensures MatchedRow(budget, first, p, CreatesPhase(w1, cfg, batches).ledger, r)
  {
    var o, w' := r.facts.txnId, CreatesPhase(w1, cfg, batches);
    hide CreatesPhase, StoresAtHome, BatchAtHome, NotCreated;
    OthersKeepRow(w1, cfg, h, batches, p.trackingKey);
    assert SameIdentity(w1.ledger[o], w'.ledger[o]);
    if w1.ledger[o].importId.None? {
      CreatesElsewhere(w1, cfg, h, batches, o);
    }
  }

  /** The creates of an attempt that completes: what they leave under a key that was not tracked. */
  lemma {:induction false} MatchedCreatesRow(w: World, cfg: Settings, h: Home, batches: seq<Batch<Create>>,
                                             budget: string,
                                             first: Payload, p: Create)
    requires CreatesPhase(w, cfg, batches).status == Running && StoresAtHome(cfg, h, w.ledger, w.table)
    requires SoleIn(h, batches, budget, first, p) && p.trackingKey !in w.table
    requires FlagFits(p) && NoBadRequest(w.script)
    ensures var w' := CreatesPhase(w, cfg, batches);
            p.trackingKey in w'.table ==> MatchedRow(budget, first, p, w'.ledger, w'.table[p.trackingKey])
    decreases |batches|
  {
    hide StoresAtHome, BatchAtHome, SubmitCreates, Imported, Extends, Sole;
    hide MatchedRow, DistinctBudgets, NotCreated, FlagFits, NoBadRequest;
    if batches != [] {
      var w1, w' := SubmitCreates(w, cfg, batches[0]), CreatesPhase(w, cfg, batches);
      assert batches[0] in batches && forall b :: b in batches[1..] ==> b in batches;
      HaltedCreates(w1, cfg, batches[1..]);
      WasRunning(w, cfg, batches);
      NoneCreatedHere(h, batches[0]);
      BatchStaysHome(w, cfg, h, batches[0]);
      BatchStaysGood(w, cfg, batches[0]);
      RestElsewhere(h, batches, budget, first, p);
      OthersElsewhere(batches);
      if batches[0].budget == budget {
        MatchedBatchRow(w, cfg, h, batches[0], first, p);
        OthersKeepRow(w1, cfg, h, batches[1..], p.trackingKey);
        if p.trackingKey in w'.table {
          MatchedStays(w1, cfg, h, batches[1..], budget, first, p, w'.table[p.trackingKey]);
        }
      } else {
        OtherBudget(h, batches[0], p.trackingKey);
        OtherBatchKeepsRow(w, cfg, h, batches[0], p.trackingKey);
        MatchedCreatesRow(w1, cfg, h, batches[1..], budget, first, p);
      }
    }
  }

  // --- corrections of other transactions -------------------------------------------------------------------------

  /** A matched transaction over the same amount and with the same flag. */
  ghost predicate Alike(l: Ledger, l': Ledger, o: nat) {
    && o < |l| <= |l'| && l[o].matched.Some? && l'[o].matched.Some?
    && l'[o].amount == l[o].amount && l'[o].cleared == l[o].cleared
  }

  lemma DeleteOriginalAlike(w: World, budget: string, id: nat, o: nat)
    requires o < |w.ledger| && w.ledger[o].matched.Some?
    ensures Alike(w.ledger, DeleteOriginal(w, budget, id).ledger, o)
  {
  }

  lemma FinishAlike(w: World, budget: string, m: ManualMatch, shadowId: nat, o: nat)
    requires m.status == Booked && o < |w.ledger| && w.ledger[o].matched.Some?
    ensures FinishNative(w, budget, m).ledger == w.ledger
    ensures Alike(w.ledger, FinishFallback(w, budget, m, shadowId).ledger, o)
  {
    hide DeleteOriginal, Upsert;
    DeleteOriginalAlike(CountCreated(Record(w, m.trackingKey, MatchFacts(budget, m, shadowId))), budget, m.originalId,
                        o);
  }

  lemma {:induction false} MatchRowsAlike(w: World, budget: string, m: ManualMatch, rows: seq<Reported>, o: nat)
    requires m.status == Booked && o < |w.ledger| && w.ledger[o].matched.Some?
    ensures Alike(w.ledger, MatchRows(w, budget, [m], rows).ledger, o)
    decreases |rows|
  {
    hide FinishNative, FinishFallback;
    if rows != [] && w.status == Running {
      FinishAlike(w, budget, m, rows[0].id, o);
      if rows[0].importId.Some? && FindMatch([m], rows[0].importId.value).Some? {
        FoundMatch([m], rows[0].importId.value);
      }
      hide FindMatch;
      MatchRowsAlike(MatchRow(w, budget, [m], rows[0]), budget, m, rows[1..], o);
    }
  }

  lemma MatchDuplicateAlike(w: World, cfg: Settings, budget: string, m: ManualMatch, importId: string, o: nat)
    requires m.status == Booked && o < |w.ledger| && w.ledger[o].matched.Some?
    ensures Alike(w.ledger, MatchDuplicate(w, cfg, budget, [m], importId).ledger, o)
  {
    ReadKeepsStores(w);
    hide FinishNative, FinishFallback, DeleteOriginal, FindMatch, Read, FindByImportId;
    DeleteOriginalAlike(w, budget, m.originalId, o);
    if FindMatch([m], importId).Some? {
      FoundMatch([m], importId);
      var shadow := FindByImportId(w.ledger, budget, m.payload.account, importId,
                                   DateWindow.SinceDateBound(m.payload.date, cfg.backfillDays), cfg.shadowsListed);
      FinishAlike(Read(w), budget, m, if shadow.Some? then shadow.value else 0, o);
    }
  }

  lemma {:induction false} MatchDuplicatesAlike(w: World, cfg: Settings, budget: string, m: ManualMatch,
                                                ids: seq<string>,
                                                o: nat)
    requires m.status == Booked && o < |w.ledger| && w.ledger[o].matched.Some?
    ensures Alike(w.ledger, MatchDuplicates(w, cfg, budget, [m], ids).ledger, o)
    decreases |ids|
  {
    hide MatchDuplicate;
    if ids != [] && w.status == Running {
      MatchDuplicateAlike(w, cfg, budget, m, ids[0], o);
      MatchDuplicatesAlike(MatchDuplicate(w, cfg, budget, [m], ids[0]), cfg, budget, m, ids[1..], o);
    }
  }

  lemma SubmitMatchesAlike(w: World, cfg: Settings, budget: string, m: ManualMatch, o: nat)
    requires w.status == Running && m.status == Booked && o < |w.ledger| && w.ledger[o].matched.Some?
    ensures Alike(w.ledger, SubmitMatches(w, cfg, Batch(budget, [m])).ledger, o)
  {
    var ps := MatchPayloads([m]);
    var (posted, r) := PostCreates(w, cfg, budget, ps);
    CreateAllKeepsImports(w.ledger, cfg.native, budget, ps);
    PostShape(w, cfg, budget, ps);
    hide PostCreates, CreateAll, MatchPayloads, MatchRows, MatchDuplicates;
    if posted.status == Running {
      MatchRowsAlike(posted, budget, m, r.rows, o);
      var recorded := MatchRows(posted, budget, [m], r.rows);
      MatchDuplicatesAlike(recorded, cfg, budget, m, r.duplicates, o);
    }
  }

  lemma CorrectAlike(w: World, budget: string, snapshot: Ledger, since: Option<int>, c: Correction, o: nat)
    requires o < |w.ledger| && w.ledger[o].matched.Some? && c.txnId != o
    ensures Alike(w.ledger, Correct(w, budget, snapshot, since, c).ledger, o)
  {
    hide Money.ToMilliunits, MarkBooked, Rekey;
  }

  lemma RecoveryAlike(w: World, cfg: Settings, budget: string, c: Correction, o: nat)
    requires o < |w.ledger| && w.ledger[o].matched.Some?
    ensures Alike(w.ledger, RecoverMissing(w, cfg, budget, c).ledger, o)
  {
    RecoverMissingShape(w, cfg, budget, c);
    ReadKeepsStores(w);
    hide RecoverMissing, Replacements, ReplacementMatch, SubmitMatches, Read, Record, GoneFacts;
    if c.oldKey in w.table {
      var r := w.table[c.oldKey];
      var found := Replacements(w.ledger, cfg, budget, r, c.newAmount);
      RecordKeepsLedger(Read(w), c.oldKey, GoneFacts(r, budget, c));
      if |found| == 1 && Read(w).status == Running {
        ReplacementOriginal(cfg, r, c, found[0]);
        SubmitMatchesAlike(Read(w), cfg, budget, ReplacementMatch(cfg.hash, r, c, found[0]), o);
      }
    }
  }

  lemma {:induction false} CorrectAllAlike(w: World, cfg: Settings, budget: string, snapshot: Ledger,
                                           since: Option<int>,
                                           cs: seq<Correction>, o: nat)
    requires o < |w.ledger| && w.ledger[o].matched.Some? && forall c :: c in cs ==> c.txnId != o
    ensures Alike(w.ledger, CorrectAllFully(w, cfg, budget, snapshot, since, cs).ledger, o)
    decreases |cs|
  {
    hide Correct, RecoverMissing;
    if cs != [] && w.status == Running {
      assert cs[0] in cs;
      CorrectAlike(w, budget, snapshot, since, cs[0], o);
      RecoveryAlike(Correct(w, budget, snapshot, since, cs[0]).(status := Running), cfg, budget, cs[0], o);
      CorrectAllAlike(CorrectFully(w, cfg, budget, snapshot, since, cs[0]), cfg, budget, snapshot, since, cs[1..], o);
    }
  }

  lemma {:induction false} CorrectionsAlike(w: World, cfg: Settings, cycle: Cycle, budgets: seq<string>, o: nat)
    requires o < |w.ledger| && w.ledger[o].matched.Some?
    requires forall b, c :: c in CorrectionsOf(cycle, b) ==> c.txnId != o
    ensures Alike(w.ledger, CorrectionsPhaseFully(w, cfg, cycle, budgets).ledger, o)
    decreases |budgets|
  {
    hide CorrectAllFully, Read, CorrectionsOf;
    if budgets != [] && w.status == Running {
      var cs := CorrectionsOf(cycle, budgets[0]);
      ReadKeepsStores(w);
      CorrectAllAlike(Read(w), cfg, budgets[0], w.ledger, SinceOf(cfg, cs), cs, o);
      CorrectionsAlike(CorrectBudgetFully(w, cfg, cycle, budgets[0]), cfg, cycle, budgets[1..], o);
    }
  }

  // --- a whole success -------------------------------------------------------------------------------------------

  /** The row under this key is for a transaction without an import_id, which no correction of the cycle is for. */
  ghost predicate TracksMatched(w: World, cycle: Cycle, key: string) {
    && key in w.table && w.table[key].facts.txnId < |w.ledger|
    && w.ledger[w.table[key].facts.txnId].importId.None?
    && forall b, c :: c in CorrectionsOf(cycle, b) ==> c.txnId != w.table[key].facts.txnId
  }

  /** What the corrections leave of a new row and of the original it is for. */
  lemma MatchedRowIsLeft(m: Machine, w1: World, w: World, cycle: Cycle, budgets: seq<string>, budget: string,
                         first: Payload,
                         p: Create)
    requires StoresAtHome(m.cfg, m.home, w1.ledger, w1.table) && CycleAtHome(m.home, cycle)
    requires NotCorrected(cycle, p.trackingKey)
    requires p.trackingKey in w1.table ==> MatchedRow(budget, first, p, w1.ledger, w1.table[p.trackingKey])
    requires w == CorrectionsPhaseFully(w1, m.cfg, cycle, budgets) && TracksMatched(w, cycle, p.trackingKey)
    ensures Mirrors(w.ledger, w.table[p.trackingKey]) <==> first.amount == p.payload.amount
  {
    var r := w.table[p.trackingKey];
    hide CorrectionsPhaseFully, StoresAtHome, CycleAtHome, NotCorrected, CorrectionsOf;
    OtherCorrectionsKeepRow(w1, m.cfg, m.home, cycle, budgets, p.trackingKey);
    CorrectionsStayHome(w1, m.cfg, m.home, cycle, budgets);
    assert r.facts.txnId < |w1.ledger|;
    assert SameIdentity(w1.ledger[r.facts.txnId], w.ledger[r.facts.txnId]);
    CorrectionsAlike(w1, m.cfg, cycle, budgets, r.facts.txnId);
  }

  /**
   * A success, no call of which is answered with a 400, that comes to track a transaction as one the user had typed in,
   * and corrects no row of it: the row says what YNAB shows if and only if the first and the last new report agree in
   * milliunits; the flag is that of the last report.
   */
  lemma MatchedMirrorsIff(m: Machine, s: Store, t: Try, key: string)
    requires Inv(m, s) && Completes(m, s, t) && NoBadRequest(t.script)
    requires key !in s.table && OwnName(m.cfg, m.home, key)
    requires TracksMatched(SubmissionOf(m, s, s.cached.value, t), CycleOf(s.cached.value.ctx, s.cached.value.feed), key)
    ensures var job, w := s.cached.value, SubmissionOf(m, s, s.cached.value, t);
            var id := m.home.idOf(key);
            var first := FirstNew(job.ctx, job.feed, m.home.budgetOf(id), id);
            var last := LastNew(job.ctx, job.feed, m.home.budgetOf(id), id);
            && first.Some? && last.Some?
            && (Mirrors(w.ledger, w.table[key])
                <==> Money.ToMilliunits(first.value.ntx.amount) == Money.ToMilliunits(last.value.ntx.amount))
  {
    var job, w0 := s.cached.value, Attempt(s.table, s.ledger, t.script, t.now);
    var cycle, w, id := CycleOf(job.ctx, job.feed), SubmissionOf(m, s, job, t), m.home.idOf(key);
    var w1, b := CreatesPhase(w0, m.cfg, cycle.creates), m.home.budgetOf(id);
    JobAtHome(m, job);
    hide CycleOf, SubmitFully, CreatesPhase, CorrectionsPhaseFully, StoresAtHome, FiledExactly, CycleAtHome, NotCreated;
    hide FirstNew, LastNew, ExactCycle, FromSource, DeliveredImported, TrackedImported, TrackedInBudget, OwnName;
    hide SoleIn, IsAccepted, NotCorrected, CreateFor, Mirrors, MatchedRow, Imported, AllRows, Extends, CorrectionsOf;
    hide NoBadRequest, Money.ToMilliunits;
    CutAtCorrections(w0, m.cfg, m.home, cycle, t.budgets);
    NewWasCreated(m, job, w0, w1, w, cycle, t.budgets, key);
    var first, last := FirstNew(job.ctx, job.feed, b, id).value, LastNew(job.ctx, job.feed, b, id).value;
    JobIsSole(m, job, key, first, last);
    var p := CreateFor(job.ctx, last);
    LastIsKeys(m, job, key, last);
    NewIsNotCorrected(m, job, key);
    ReportsAsCreates(job.ctx, first, last);
    MatchedCreatesRow(w0, m.cfg, m.home, cycle.creates, b, CreateFor(job.ctx, first).payload, p);
    MatchedRowIsLeft(m, w1, w, cycle, t.budgets, b, CreateFor(job.ctx, first).payload, p);
  }

  lemma ReportsAsCreates(ctx: Context, first: Fetched, last: Fetched)
    requires IsAccepted(ctx, first) && IsAccepted(ctx, last)
    ensures FlagFits(CreateFor(ctx, last))
    ensures CreateFor(ctx, first).payload.amount == Money.ToMilliunits(first.ntx.amount)
    ensures CreateFor(ctx, last).payload.amount == Money.ToMilliunits(last.ntx.amount)
  {
    hide Money.ToMilliunits, Accepted;
  }
}
