/**
 * Row properties again, judged on what is recorded for each answer: which
 * transaction a row is for, and what YNAB holds there.
 */
module RowRecords {
  import opened Wrappers
  import opened Ynab
  import opened StateDb
  import opened SyncSpec
  import opened RowFacts
  import opened TrackedKeys

  /** The transaction that the row of a create is for. */
  function TargetOf(row: Reported): nat { if row.matched.Some? then row.matched.value else row.id }

  /** Recording this answer for the create that has its import_id gives a row that has the property. */
  ghost predicate AnswerRecords(budget: string, creates: seq<Create>, row: Reported, now: int, has: RowProperty) {
    row.importId.Some? && FindCreate(creates, row.importId.value).Some? ==>
      var p := FindCreate(creates, row.importId.value).value;
      forall payee ::
        RecordingKeeps(now, p.trackingKey, CreateFacts(budget, p, TargetOf(row), p.status, p.payload.amount, payee), has)
  }

  ghost predicate NoSecondaries(creates: seq<Create>) { forall p :: p in creates ==> p.secondary.None? }

  lemma RecordRowHas(w: World, cfg: Settings, budget: string, creates: seq<Create>, row: Reported, now: int,
                     has: RowProperty)
    requires RowsHave(w, now, has) && NoSecondaries(creates) && AnswerRecords(budget, creates, row, now, has)
    ensures RowsHave(RecordRow(w, cfg, budget, creates, row), now, has)
  {
    hide AllRows, TrackNativeMatch, CreateFacts, FindCreate, Record, RecordingKeeps;
    if row.importId.Some? && FindCreate(creates, row.importId.value).Some? {
      FoundHasId(creates, row.importId.value);
      var p := FindCreate(creates, row.importId.value).value;
      var payee := PayeeOr(p.payload.payee, row.payee);
      var facts := CreateFacts(budget, p, TargetOf(row), p.status, p.payload.amount, payee);
      TrackNativeKeeps(CountUpdated(w), p.trackingKey, facts, now, has);
      RecordKeeps(w, p.trackingKey, facts, now, has);
    }
  }

  lemma {:induction false} RecordCreatedHas(w: World, cfg: Settings, budget: string, creates: seq<Create>,
                                            rows: seq<Reported>, now: int, has: RowProperty)
    requires RowsHave(w, now, has) && NoSecondaries(creates)
    requires forall row :: row in rows ==> AnswerRecords(budget, creates, row, now, has)
    ensures RowsHave(RecordCreated(w, cfg, budget, creates, rows), now, has)
    decreases |rows|
  {
    hide AllRows, RecordRow, AnswerRecords;
    if rows != [] && w.status == Running {
      assert rows[0] in rows && forall row :: row in rows[1..] ==> row in rows;
      RecordRowHas(w, cfg, budget, creates, rows[0], now, has);
      RecordCreatedHas(RecordRow(w, cfg, budget, creates, rows[0]), cfg, budget, creates, rows[1..], now, has);
    }
  }

  /** So does recording what a duplicate is found to be. */
  ghost predicate FoundRecords(cfg: Settings, l: Ledger, budget: string, p: Create, now: int, has: RowProperty) {
    var existing, gone := LookUp(l, cfg, budget, p), LookUpGone(l, cfg, budget, p);
    && (existing.Some? ==> RecordingKeeps(now, p.trackingKey, RecoveredFacts(l, budget, p, existing.value), has))
    && (existing.None? && gone.Some? ==> RecordingKeeps(now, p.trackingKey, DeletedFacts(budget, p, gone.value), has))
  }

  lemma RecoverHas(w: World, cfg: Settings, budget: string, p: Create, now: int, has: RowProperty)
    requires RowsHave(w, now, has) && FoundRecords(cfg, w.ledger, budget, p, now, has)
    ensures RowsHave(Recover(w, cfg, budget, p), now, has) && Recover(w, cfg, budget, p).ledger == w.ledger
  {
    var existing, gone := LookUp(w.ledger, cfg, budget, p), LookUpGone(w.ledger, cfg, budget, p);
    CallsKeepTable(w, w.ledger);
    CallsKeepTable(Read(w), w.ledger);
    assert Read(w).ledger == w.ledger && Read(Read(w)).ledger == w.ledger;
    hide AllRows, LookUp, LookUpGone, RecoveredFacts, DeletedFacts, Read, RecordingKeeps;
    if existing.Some? {
      RecordKeeps(Read(w), p.trackingKey, RecoveredFacts(w.ledger, budget, p, existing.value), now, has);
    } else if gone.Some? {
      RecordKeeps(Read(Read(w)), p.trackingKey, DeletedFacts(budget, p, gone.value), now, has);
    }
  }

  /** An untracked duplicate, that is; one whose key is tracked is passed over. */
  ghost predicate DuplicateRecords(cfg: Settings, l: Ledger, budget: string, creates: seq<Create>, id: string, t: Table,
                                   now: int, has: RowProperty) {
    FindCreate(creates, id).Some? && FindCreate(creates, id).value.trackingKey !in t ==>
      FoundRecords(cfg, l, budget, FindCreate(creates, id).value, now, has)
  }

  lemma {:induction false} BackfillHas(w: World, cfg: Settings, budget: string, creates: seq<Create>, ids: seq<string>,
                                       now: int, has: RowProperty)
    requires RowsHave(w, now, has)
    requires forall id :: id in ids ==> DuplicateRecords(cfg, w.ledger, budget, creates, id, w.table, now, has)
    ensures RowsHave(Backfill(w, cfg, budget, creates, ids), now, has)
    decreases |ids|
  {
    hide AllRows, Recover, FindCreate, FoundRecords;
    if ids != [] && w.status == Running {
      assert ids[0] in ids && forall id :: id in ids[1..] ==> id in ids;
      var w1 := BackfillOne(w, cfg, budget, creates, ids[0]);
      var found := FindCreate(creates, ids[0]);
      if found.Some? && found.value.trackingKey !in w.table {
        RecoverHas(w, cfg, budget, found.value, now, has);
        RecoverKeepsRows(w, cfg, budget, found.value);
      }
      assert forall k :: k in w.table ==> k in w1.table;
      BackfillHas(w1, cfg, budget, creates, ids[1..], now, has);
    }
  }

  /** What is recorded after a create needs the property only if the create was answered. */
  lemma SubmitCreatesHas(w: World, cfg: Settings, batch: Batch<Create>, now: int, has: RowProperty)
    requires RowsHave(w, now, has) && NoSecondaries(batch.items)
    requires var (posted, r) := PostCreates(w, cfg, batch.budget, Payloads(batch.items));
             var recorded := RecordCreated(posted, cfg, batch.budget, batch.items, r.rows);
             && (posted.status == Running ==>
                   forall row :: row in r.rows ==> AnswerRecords(batch.budget, batch.items, row, now, has))
             && (posted.status == recorded.status == Running ==> forall id :: id in r.duplicates ==>
                   DuplicateRecords(cfg, recorded.ledger, batch.budget, batch.items, id, recorded.table, now, has))
    ensures RowsHave(SubmitCreates(w, cfg, batch), now, has)
  {
    hide AllRows, AnswerRecords, DuplicateRecords, PostCreates, RecordCreated, Backfill, Payloads;
    var (posted, r) := PostCreates(w, cfg, batch.budget, Payloads(batch.items));
    PostKeepsTable(w, cfg, batch.budget, Payloads(batch.items));
    if posted.status == Running {
      RecordCreatedHas(posted, cfg, batch.budget, batch.items, r.rows, now, has);
      var recorded := RecordCreated(posted, cfg, batch.budget, batch.items, r.rows);
      if recorded.status == Running {
        BackfillHas(CountDuplicates(recorded, |r.duplicates|), cfg, batch.budget, batch.items, r.duplicates, now, has);
      }
    }
  }

  // --- replaced manual transactions whose key is tracked ------------------------------------------------------------

  ghost predicate MatchRecords(budget: string, matches: seq<ManualMatch>, row: Reported, now: int, has: RowProperty) {
    row.importId.Some? && FindMatch(matches, row.importId.value).Some? ==>
      var p := FindMatch(matches, row.importId.value).value;
      && RecordingKeeps(now, p.trackingKey, MatchFacts(budget, p, p.originalId), has)
      && RecordingKeeps(now, p.trackingKey, MatchFacts(budget, p, row.id), has)
  }

  lemma MatchRowHas(w: World, budget: string, matches: seq<ManualMatch>, row: Reported, now: int, has: RowProperty)
    requires RowsHave(w, now, has) && MatchRecords(budget, matches, row, now, has)
    ensures RowsHave(MatchRow(w, budget, matches, row), now, has)
    ensures forall k :: k in w.table ==> k in MatchRow(w, budget, matches, row).table
  {
    hide AllRows, MatchFacts, TrackNativeMatch, Record, DeleteOriginal, FindMatch, RecordingKeeps;
    if row.importId.Some? && FindMatch(matches, row.importId.value).Some? {
      var p := FindMatch(matches, row.importId.value).value;
      TrackNativeKeeps(CountUpdated(w), p.trackingKey, MatchFacts(budget, p, p.originalId), now, has);
      RecordKeeps(w, p.trackingKey, MatchFacts(budget, p, row.id), now, has);
      DeleteKeepsTable(CountCreated(Record(w, p.trackingKey, MatchFacts(budget, p, row.id))), budget, p.originalId);
      forall k | k in w.table
        ensures k in TrackNativeMatch(CountUpdated(w), p.trackingKey, MatchFacts(budget, p, p.originalId)).table
        ensures k in Record(w, p.trackingKey, MatchFacts(budget, p, row.id)).table
      {
        TrackNativeTracks(CountUpdated(w), p.trackingKey, MatchFacts(budget, p, p.originalId), k);
        RecordTracks(w, p.trackingKey, MatchFacts(budget, p, row.id), k);
      }
    }
  }

  lemma {:induction false} MatchRowsHas(w: World, budget: string, matches: seq<ManualMatch>, rows: seq<Reported>,
                                        now: int,
                                        has: RowProperty)
    requires RowsHave(w, now, has) && forall row :: row in rows ==> MatchRecords(budget, matches, row, now, has)
    ensures RowsHave(MatchRows(w, budget, matches, rows), now, has)
    ensures forall k :: k in w.table ==> k in MatchRows(w, budget, matches, rows).table
    decreases |rows|
  {
    hide AllRows, MatchRow, MatchRecords;
    if rows != [] && w.status == Running {
      assert rows[0] in rows && forall row :: row in rows[1..] ==> row in rows;
      MatchRowHas(w, budget, matches, rows[0], now, has);
      MatchRowsHas(MatchRow(w, budget, matches, rows[0]), budget, matches, rows[1..], now, has);
    }
  }

  ghost predicate KeysTracked(matches: seq<ManualMatch>, t: Table) { forall p :: p in matches ==> p.trackingKey in t }

  lemma {:induction false} TrackedDuplicates(w: World, cfg: Settings, budget: string, matches: seq<ManualMatch>,
                                             ids: seq<string>)
    requires KeysTracked(matches, w.table)
    ensures var w' := MatchDuplicates(w, cfg, budget, matches, ids); w'.table == w.table && w'.now == w.now
    decreases |ids|
  {
    hide FindMatch;
    if ids != [] && w.status == Running {
      var found := FindMatch(matches, ids[0]);
      if found.Some? {
        DeleteKeepsTable(w, budget, found.value.originalId);
      }
      hide DeleteOriginal;
      assert MatchDuplicate(w, cfg, budget, matches, ids[0]).table == w.table;
      TrackedDuplicates(MatchDuplicate(w, cfg, budget, matches, ids[0]), cfg, budget, matches, ids[1..]);
    }
  }

  lemma SubmitMatchesHas(w: World, cfg: Settings, batch: Batch<ManualMatch>, now: int, has: RowProperty)
    requires RowsHave(w, now, has) && KeysTracked(batch.items, w.table)
    requires var (posted, r) := PostCreates(w, cfg, batch.budget, MatchPayloads(batch.items));
             posted.status == Running ==>
               forall row :: row in r.rows ==> MatchRecords(batch.budget, batch.items, row, now, has)
    ensures RowsHave(SubmitMatches(w, cfg, batch), now, has)
  {
    hide AllRows, MatchRecords, PostCreates, MatchRows, MatchDuplicates, MatchPayloads;
    var (posted, r) := PostCreates(w, cfg, batch.budget, MatchPayloads(batch.items));
    PostKeepsTable(w, cfg, batch.budget, MatchPayloads(batch.items));
    if posted.status == Running {
      MatchRowsHas(posted, batch.budget, batch.items, r.rows, now, has);
      var recorded := MatchRows(posted, batch.budget, batch.items, r.rows);
      if recorded.status == Running {
        TrackedDuplicates(recorded, cfg, batch.budget, batch.items, r.duplicates);
      }
    }
  }
}
