/**
 * _record_created reads a response row by row.  With distinct ids and keys
 * the rows it writes, and both counts, do not depend on their order or on
 * rows that YNAB merely echoes.
 */
module RecordLayout {
  import opened Wrappers
  import opened Ynab
  import opened StateDb
  import opened SyncSpec

  // --- one row ------------------------------------------------------------------------------------

  function Submitted(creates: seq<Create>, row: Reported): Option<Create> {
    if row.importId.None? then None else FindCreate(creates, row.importId.value)
  }

  /** A native match, which is counted as updated. */
  predicate IsNative(p: Create, row: Reported) { p.secondary.None? && row.matched.Some? }

  function UpdatedBy(creates: seq<Create>, row: Reported): set<string> {
    var p := Submitted(creates, row);
    if p.Some? && IsNative(p.value, row) then {p.value.trackingKey} else {}
  }

  /** The keys counted as created: the primary, and the secondary if YNAB named its transaction. */
  function CreatedBy(creates: seq<Create>, row: Reported): set<string> {
    var p := Submitted(creates, row);
    if p.None? || IsNative(p.value, row) then {}
    else {p.value.trackingKey}
         + if p.value.secondary.Some? && row.transferId.Some? then {p.value.secondary.value.trackingKey} else {}
  }

  function KeysBy(creates: seq<Create>, row: Reported): set<string> {
    UpdatedBy(creates, row) + CreatedBy(creates, row)
  }

  function PrimaryFacts(budget: string, p: Create, row: Reported): Facts {
    CreateFacts(budget, p, if IsNative(p, row) then row.matched.value else row.id, p.status, p.payload.amount,
                PayeeOr(p.payload.payee, row.payee))
  }

  function FactsBy(cfg: Settings, budget: string, creates: seq<Create>, row: Reported, key: string): Facts
    requires key in KeysBy(creates, row)
  {
    var p := Submitted(creates, row).value;
    if key == p.trackingKey then PrimaryFacts(budget, p, row)
    else SecondaryFacts(cfg, budget, p.secondary.value, row.transferId.value, row.payee)
  }

  // --- distinctness ---------------------------------------------------------------------------------

  predicate OwnSecondary(p: Create) { p.secondary.Some? ==> p.secondary.value.trackingKey != p.trackingKey }

  function LegKeys(p: Create): set<string> {
    {p.trackingKey} + if p.secondary.Some? then {p.secondary.value.trackingKey} else {}
  }

  /** Distinct submitted import_ids, and distinct tracking keys, secondaries included. */
  ghost predicate DistinctCreates(creates: seq<Create>) {
    && (forall p :: p in creates ==> OwnSecondary(p))
    && forall i, j :: 0 <= i < j < |creates| ==>
         creates[i].payload.importId != creates[j].payload.importId && LegKeys(creates[i]) !! LegKeys(creates[j])
  }

  /** At most one row answers a submitted id. */
  ghost predicate OneAnswerEach(creates: seq<Create>, rows: seq<Reported>) {
    forall a, b :: 0 <= a < b < |rows| && Submitted(creates, rows[a]).Some? ==> rows[a].importId != rows[b].importId
  }

  /** A world whose calls all work. */
  predicate Faultless(w: World) { w.script == [] && w.status == Running }

  ghost predicate WritesRow(w: World, w': World, cfg: Settings, budget: string, creates: seq<Create>, row: Reported) {
    forall k :: k in KeysBy(creates, row) ==> Wrote(w.table, w'.table, k, FactsBy(cfg, budget, creates, row, k), w.now)
  }

  /** An upsert of these facts accounts for the row at k. */
  ghost predicate Wrote(t: Table, t': Table, k: string, facts: Facts, now: int) {
    k in t' && t'[k] == Upsert(t, k, facts, now)[k]
  }

  ghost predicate Same(t: Table, t': Table, k: string) { (k in t <==> k in t') && (k in t ==> t[k] == t'[k]) }

  lemma PatchesWork(w: World, l: Ledger)
    requires Faultless(w)
    ensures Write(w, l) == w.(ledger := l)
  {
  }

  /** The table after one row. */
  function TableAfter(t: Table, now: int, cfg: Settings, budget: string, creates: seq<Create>, row: Reported): Table {
    var found := Submitted(creates, row);
    if found.None? then t
    else
      var p := found.value;
      var t1 := Upsert(t, p.trackingKey, PrimaryFacts(budget, p, row), now);
      if p.secondary.Some? && row.transferId.Some? then
        Upsert(t1, p.secondary.value.trackingKey,
               SecondaryFacts(cfg, budget, p.secondary.value, row.transferId.value, row.payee), now)
      else t1
  }

  lemma RecordRowTable(w: World, cfg: Settings, budget: string, creates: seq<Create>, row: Reported)
    requires Faultless(w)
    ensures var w' := RecordRow(w, cfg, budget, creates, row);
            && Faultless(w') && w'.now == w.now && w'.table == TableAfter(w.table, w.now, cfg, budget, creates, row)
            && w'.tally.duplicates == w.tally.duplicates && w'.tally.resolvedDeleted == w.tally.resolvedDeleted
            && (var p := Submitted(creates, row);
                && w'.tally.updated - w.tally.updated == (if p.Some? && IsNative(p.value, row) then 1 else 0)
                && w'.tally.created - w.tally.created
                == (if p.None? || IsNative(p.value, row) then 0
                    else if p.value.secondary.Some? && row.transferId.Some? then 2 else 1))
  {
    hide FindCreate, CreateFacts, SecondaryFacts, TrackNativeMatch, RecordSecondary, Upsert, PayeeOr;
    var found := Submitted(creates, row);
    if found.Some? {
      var p := found.value;
      var facts := PrimaryFacts(budget, p, row);
      var w1 := CountCreated(Record(w, p.trackingKey, facts));
      NativeWrites(w, p, facts);
      if p.secondary.Some? {
        SecondaryWrites(w1, cfg, budget, p.secondary.value, row);
      }
    }
  }

  lemma TableAfterWrites(t: Table, now: int, cfg: Settings, budget: string, creates: seq<Create>, row: Reported, k: string)
    requires DistinctCreates(creates)
    ensures var t' := TableAfter(t, now, cfg, budget, creates, row);
            if k in KeysBy(creates, row) then
              Wrote(t, t', k, FactsBy(cfg, budget, creates, row, k), now)
            else Same(t, t', k)
  {
    hide FindCreate, PrimaryFacts, SecondaryFacts, Upsert;
    KeyCases(creates, row, k);
    var found := Submitted(creates, row);
    if found.Some? {
      var p := found.value;
      assert OwnSecondary(p);
      hide DistinctCreates, KeysBy, Submitted, OwnSecondary, Same;
      UpsertAt(t, p.trackingKey, PrimaryFacts(budget, p, row), now, k);
      if p.secondary.Some? && row.transferId.Some? {
        TwoUpserts(t, p.trackingKey, PrimaryFacts(budget, p, row), p.secondary.value.trackingKey,
                   SecondaryFacts(cfg, budget, p.secondary.value, row.transferId.value, row.payee), now, k);
      }
    }
  }

  predicate IsLegKey(p: Create, row: Reported, k: string) {
    k == p.trackingKey || (p.secondary.Some? && row.transferId.Some? && k == p.secondary.value.trackingKey)
  }

  lemma KeyCases(creates: seq<Create>, row: Reported, k: string)
    ensures k in KeysBy(creates, row) <==> Submitted(creates, row).Some? && IsLegKey(Submitted(creates, row).value, row, k)
  {
    hide FindCreate;
  }

  lemma UpsertAt(t: Table, key: string, facts: Facts, now: int, k: string)
    ensures key in Upsert(t, key, facts, now)
    ensures k != key ==> Same(t, Upsert(t, key, facts, now), k)
  {
  }

  lemma TwoUpserts(t: Table, key: string, facts: Facts, key': string, facts': Facts, now: int, k: string)
    requires key != key'
    ensures var t' := Upsert(Upsert(t, key, facts, now), key', facts', now);
            && key in t' && t'[key] == Upsert(t, key, facts, now)[key]
            && key' in t' && t'[key'] == Upsert(t, key', facts', now)[key']
            && (k != key && k != key' ==> Same(t, t', k))
  {
  }

  lemma KeyCounts(creates: seq<Create>, row: Reported)
    requires DistinctCreates(creates)
    ensures var p := Submitted(creates, row);
            && |UpdatedBy(creates, row)| == (if p.Some? && IsNative(p.value, row) then 1 else 0)
            && |CreatedBy(creates, row)| == (if p.None? || IsNative(p.value, row) then 0
                                             else if p.value.secondary.Some? && row.transferId.Some? then 2 else 1)
  {
    var found := Submitted(creates, row);
    if found.Some? {
      assert OwnSecondary(found.value);
      hide FindCreate;
    }
  }

  lemma RecordRowWrites(w: World, cfg: Settings, budget: string, creates: seq<Create>, row: Reported)
    requires Faultless(w) && DistinctCreates(creates)
    ensures var w' := RecordRow(w, cfg, budget, creates, row);
            && Faultless(w') && w'.now == w.now && WritesRow(w, w', cfg, budget, creates, row)
            && (forall k :: k !in KeysBy(creates, row) ==> Same(w.table, w'.table, k))
            && w'.tally == w.tally.(created := w.tally.created + |CreatedBy(creates, row)|,
                                    updated := w.tally.updated + |UpdatedBy(creates, row)|)
  {
    RecordRowTable(w, cfg, budget, creates, row);
    KeyCounts(creates, row);
    forall k {
      TableAfterWrites(w.table, w.now, cfg, budget, creates, row, k);
    }
    hide RecordRow, TableAfter, KeysBy, FactsBy, CreatedBy, UpdatedBy, Upsert;
  }

  lemma NativeWrites(w: World, p: Create, facts: Facts)
    requires Faultless(w)
    ensures var w' := TrackNativeMatch(CountUpdated(w), p.trackingKey, facts);
            && Faultless(w') && w'.table == Upsert(w.table, p.trackingKey, facts, w.now) && w'.now == w.now
            && w'.tally == w.tally.(updated := w.tally.updated + 1)
  {
    hide Patch, Upsert;
    PatchesWork(Record(CountUpdated(w), p.trackingKey, facts), Patch(w.ledger, facts.budget, facts.txnId, None, Uncleared));
  }

  lemma SecondaryWrites(w: World, cfg: Settings, budget: string, s: Create, row: Reported)
    requires Faultless(w)
    ensures var w' := RecordSecondary(w, cfg, budget, s, row);
            && Faultless(w') && w'.now == w.now
            && w'.table == (if row.transferId.None? then w.table
                            else Upsert(w.table, s.trackingKey,
                                        SecondaryFacts(cfg, budget, s, row.transferId.value, row.payee), w.now))
            && w'.tally == w.tally.(created := w.tally.created + if row.transferId.None? then 0 else 1)
  {
    hide Patch, Upsert, CreateFacts, SecondaryImportId;
    if row.transferId.Some? {
      var facts := SecondaryFacts(cfg, budget, s, row.transferId.value, row.payee);
      PatchesWork(CountCreated(Record(w, s.trackingKey, facts)),
                  Patch(w.ledger, budget, row.transferId.value, Some(s.payload.amount), Cleared));
    }
  }

  // --- all rows -----------------------------------------------------------------------------------------

  function CreatedKeys(creates: seq<Create>, rows: seq<Reported>): set<string> {
    set row, k | row in rows && k in CreatedBy(creates, row) :: k
  }

  function UpdatedKeys(creates: seq<Create>, rows: seq<Reported>): set<string> {
    set row, k | row in rows && k in UpdatedBy(creates, row) :: k
  }

  /** Rows that answer different submissions write different keys. */
  lemma RowsWriteApart(creates: seq<Create>, row: Reported, row': Reported)
    requires DistinctCreates(creates) && row.importId != row'.importId
    ensures KeysBy(creates, row) !! KeysBy(creates, row')
  {
    var p, p' := Submitted(creates, row), Submitted(creates, row');
    hide FindCreate;
    if p.Some? && p'.Some? {
      var i :| 0 <= i < |creates| && creates[i] == p.value;
      var j :| 0 <= j < |creates| && creates[j] == p'.value;
      assert i != j;
      assert LegKeys(p.value) !! LegKeys(p'.value);
      hide DistinctCreates;
      assert KeysBy(creates, row) <= LegKeys(p.value) && KeysBy(creates, row') <= LegKeys(p'.value);
    }
  }

  lemma RestWritesApart(creates: seq<Create>, rows: seq<Reported>)
    requires rows != [] && DistinctCreates(creates) && OneAnswerEach(creates, rows)
    ensures OneAnswerEach(creates, rows[1..])
    ensures forall row :: row in rows[1..] ==> KeysBy(creates, rows[0]) !! KeysBy(creates, row)
  {
    hide KeysBy, FindCreate;
    forall row | row in rows[1..] ensures KeysBy(creates, rows[0]) !! KeysBy(creates, row) {
      var b :| 0 <= b < |rows[1..]| && rows[1..][b] == row;
      assert rows[b + 1] == row;
      UnmatchedWritesNothing(creates, rows[0]);
      if Submitted(creates, rows[0]).Some? {
        RowsWriteApart(creates, rows[0], row);
      }
    }
  }

  lemma UnmatchedWritesNothing(creates: seq<Create>, row: Reported)
    ensures Submitted(creates, row).None? ==> KeysBy(creates, row) == {}
  {
  }

  lemma ConsKeys(creates: seq<Create>, rows: seq<Reported>)
    requires rows != []
    ensures CreatedKeys(creates, rows) == CreatedBy(creates, rows[0]) + CreatedKeys(creates, rows[1..])
    ensures UpdatedKeys(creates, rows) == UpdatedBy(creates, rows[0]) + UpdatedKeys(creates, rows[1..])
  {
    hide CreatedBy, UpdatedBy;
    assert forall row :: row in rows <==> row == rows[0] || row in rows[1..];
  }

  /** What the recorded table must look like, whatever the layout of the response. */
  ghost predicate RecordedExactly(t: Table, t': Table, now: int, cfg: Settings, budget: string, creates: seq<Create>,
                                  rows: seq<Reported>) {
    && (forall row, k :: row in rows && k in KeysBy(creates, row) ==>
          Wrote(t, t', k, FactsBy(cfg, budget, creates, row, k), now))
    && (forall k :: (forall row :: row in rows ==> k !in KeysBy(creates, row)) ==> Same(t, t', k))
  }

  lemma RecordedCons(w: World, w1: World, t': Table, cfg: Settings, budget: string, creates: seq<Create>,
                     rows: seq<Reported>)
    requires rows != [] && WritesRow(w, w1, cfg, budget, creates, rows[0]) && w1.now == w.now
    requires forall k :: k !in KeysBy(creates, rows[0]) ==> Same(w.table, w1.table, k)
    requires forall row :: row in rows[1..] ==> KeysBy(creates, rows[0]) !! KeysBy(creates, row)
    requires RecordedExactly(w1.table, t', w.now, cfg, budget, creates, rows[1..])
    ensures RecordedExactly(w.table, t', w.now, cfg, budget, creates, rows)
  {
    hide KeysBy, FactsBy, Upsert;
    forall row, k | row in rows && k in KeysBy(creates, row)
      ensures Wrote(w.table, t', k, FactsBy(cfg, budget, creates, row, k), w.now)
    {
      if row in rows[1..] {
        assert k !in KeysBy(creates, rows[0]);
        WroteEarlier(w.table, w1.table, t', k, FactsBy(cfg, budget, creates, row, k), w.now);
      } else {
        assert row == rows[0];
        assert forall row' :: row' in rows[1..] ==> k !in KeysBy(creates, row');
        assert Same(w1.table, t', k);
      }
    }
    forall k | forall row :: row in rows ==> k !in KeysBy(creates, row) ensures Same(w.table, t', k) {
      assert rows[0] in rows;
      assert Same(w.table, w1.table, k) && Same(w1.table, t', k);
    }
  }

  lemma WroteEarlier(t: Table, t1: Table, t': Table, key: string, facts: Facts, now: int)
    requires Same(t, t1, key) && Wrote(t1, t', key, facts, now)
    ensures Wrote(t, t', key, facts, now)
  {
  }

  lemma DisjointSizes(a: set<string>, b: set<string>)
    requires a !! b
    ensures |a + b| == |a| + |b|
  {
  }

  lemma {:induction false} RecordingIsExact(w: World, cfg: Settings, budget: string, creates: seq<Create>,
                                            rows: seq<Reported>)
    requires Faultless(w) && DistinctCreates(creates) && OneAnswerEach(creates, rows)
    ensures var w' := RecordCreated(w, cfg, budget, creates, rows);
            && Faultless(w') && RecordedExactly(w.table, w'.table, w.now, cfg, budget, creates, rows)
            && w'.tally == w.tally.(created := w.tally.created + |CreatedKeys(creates, rows)|,
                                    updated := w.tally.updated + |UpdatedKeys(creates, rows)|)
    decreases |rows|
  {
    hide RecordRow, WritesRow, KeysBy, FactsBy, CreatedBy, UpdatedBy, DistinctCreates, OneAnswerEach, Upsert;
    if rows != [] {
      var w1 := RecordRow(w, cfg, budget, creates, rows[0]);
      RecordRowWrites(w, cfg, budget, creates, rows[0]);
      RestWritesApart(creates, rows);
      RecordingIsExact(w1, cfg, budget, creates, rows[1..]);
      RecordedCons(w, w1, RecordCreated(w1, cfg, budget, creates, rows[1..]).table, cfg, budget, creates, rows);
      ConsSizes(creates, rows);
      hide RecordedExactly, CreatedKeys, UpdatedKeys, Same;
    }
  }

  lemma ConsSizes(creates: seq<Create>, rows: seq<Reported>)
    requires rows != [] && forall row :: row in rows[1..] ==> KeysBy(creates, rows[0]) !! KeysBy(creates, row)
    ensures |CreatedKeys(creates, rows)| == |CreatedBy(creates, rows[0])| + |CreatedKeys(creates, rows[1..])|
    ensures |UpdatedKeys(creates, rows)| == |UpdatedBy(creates, rows[0])| + |UpdatedKeys(creates, rows[1..])|
  {
    hide CreatedBy, UpdatedBy;
    ConsKeys(creates, rows);
    DisjointSizes(CreatedBy(creates, rows[0]), CreatedKeys(creates, rows[1..]));
    DisjointSizes(UpdatedBy(creates, rows[0]), UpdatedKeys(creates, rows[1..]));
  }

  /** The same answers to the submitted ids, in any order and among any echoed rows. */
  ghost predicate SameAnswers(creates: seq<Create>, rows: seq<Reported>, rows': seq<Reported>) {
    forall row :: Submitted(creates, row).Some? ==> (row in rows <==> row in rows')
  }

  /** The layout of the response does not matter: same table, same counts. */
  lemma LayoutDoesNotMatter(w: World, cfg: Settings, budget: string, creates: seq<Create>, rows: seq<Reported>,
                            rows': seq<Reported>)
    requires Faultless(w) && DistinctCreates(creates)
    requires OneAnswerEach(creates, rows) && OneAnswerEach(creates, rows') && SameAnswers(creates, rows, rows')
    ensures var one, other := RecordCreated(w, cfg, budget, creates, rows), RecordCreated(w, cfg, budget, creates, rows');
            one.table == other.table && one.tally == other.tally
  {
    RecordingIsExact(w, cfg, budget, creates, rows);
    RecordingIsExact(w, cfg, budget, creates, rows');
    SameKeys(creates, rows, rows');
    hide RecordCreated, KeysBy, FactsBy, Upsert, CreatedKeys, UpdatedKeys, DistinctCreates, OneAnswerEach;
    SameTables(w.table, RecordCreated(w, cfg, budget, creates, rows).table,
               RecordCreated(w, cfg, budget, creates, rows').table, w.now, cfg, budget, creates, rows, rows');
  }

  lemma SameKeys(creates: seq<Create>, rows: seq<Reported>, rows': seq<Reported>)
    requires SameAnswers(creates, rows, rows')
    ensures CreatedKeys(creates, rows) == CreatedKeys(creates, rows')
    ensures UpdatedKeys(creates, rows) == UpdatedKeys(creates, rows')
  {
    hide FindCreate;
  }

  lemma SameTables(t: Table, one: Table, other: Table, now: int, cfg: Settings, budget: string, creates: seq<Create>,
                   rows: seq<Reported>, rows': seq<Reported>)
    requires SameAnswers(creates, rows, rows')
    requires RecordedExactly(t, one, now, cfg, budget, creates, rows)
    requires RecordedExactly(t, other, now, cfg, budget, creates, rows')
    ensures one == other
  {
    hide Upsert, FactsBy, KeysBy, Submitted;
    forall k ensures Same(one, other, k) {
      SameAt(t, one, other, now, cfg, budget, creates, rows, rows', k);
    }
    hide *;
    MapsEqual(one, other);
  }

  lemma SameAt(t: Table, one: Table, other: Table, now: int, cfg: Settings, budget: string, creates: seq<Create>,
               rows: seq<Reported>, rows': seq<Reported>, k: string)
    requires SameAnswers(creates, rows, rows')
    requires RecordedExactly(t, one, now, cfg, budget, creates, rows)
    requires RecordedExactly(t, other, now, cfg, budget, creates, rows')
    ensures Same(one, other, k)
  {
    hide Upsert, FactsBy, KeysBy, Submitted;
    forall row { UnmatchedWritesNothing(creates, row); }
    if exists row :: row in rows && k in KeysBy(creates, row) {
      var row :| row in rows && k in KeysBy(creates, row);
      assert row in rows';
    } else {
      assert forall row :: row in rows' ==> k !in KeysBy(creates, row);
      assert Same(t, one, k) && Same(t, other, k);
    }
  }

  lemma MapsEqual(one: Table, other: Table)
    requires forall k :: Same(one, other, k)
    ensures one == other
  {
    forall k ensures (k in one <==> k in other) && (k in one ==> one[k] == other[k]) {
      assert Same(one, other, k);
    }
  }

  function KeysWritten(creates: seq<Create>, rows: seq<Reported>): set<string> {
    set row, k | row in rows && k in KeysBy(creates, row) :: k
  }

  lemma KeysWrittenSplit(creates: seq<Create>, rows: seq<Reported>)
    ensures KeysWritten(creates, rows) == CreatedKeys(creates, rows) + UpdatedKeys(creates, rows)
  {
    hide CreatedBy, UpdatedBy;
    var created, updated := CreatedKeys(creates, rows), UpdatedKeys(creates, rows);
    forall k ensures k in KeysWritten(creates, rows) <==> k in created + updated {
      forall row | row in rows
        ensures k in KeysBy(creates, row) <==> k in CreatedBy(creates, row) || k in UpdatedBy(creates, row)
      {
      }
      if k in KeysWritten(creates, rows) {
        var row :| row in rows && k in KeysBy(creates, row);
        assert k in CreatedBy(creates, row) ==> k in created;
        assert k in UpdatedBy(creates, row) ==> k in updated;
      }
      if k in created {
        var row :| row in rows && k in CreatedBy(creates, row);
        assert k in KeysBy(creates, row);
      }
      if k in updated {
        var row :| row in rows && k in UpdatedBy(creates, row);
        assert k in KeysBy(creates, row);
      }
    }
  }

  /** Created plus updated is the number of tracking keys written, secondaries included. */
  lemma CountsAreKeysWritten(w: World, cfg: Settings, budget: string, creates: seq<Create>, rows: seq<Reported>)
    requires Faultless(w) && DistinctCreates(creates) && OneAnswerEach(creates, rows)
    ensures var tally := RecordCreated(w, cfg, budget, creates, rows).tally;
            tally.created + tally.updated == w.tally.created + w.tally.updated + |KeysWritten(creates, rows)|
  {
    RecordingIsExact(w, cfg, budget, creates, rows);
    CreatedApartFromUpdated(creates, rows);
    KeysWrittenSplit(creates, rows);
    hide RecordCreated, RecordedExactly, CreatedKeys, UpdatedKeys, KeysWritten, DistinctCreates, OneAnswerEach;
    DisjointSizes(CreatedKeys(creates, rows), UpdatedKeys(creates, rows));
  }

  lemma CreatedApartFromUpdated(creates: seq<Create>, rows: seq<Reported>)
    requires DistinctCreates(creates) && OneAnswerEach(creates, rows)
    ensures CreatedKeys(creates, rows) !! UpdatedKeys(creates, rows)
  {
    forall row, row' | row in rows && row' in rows ensures CreatedBy(creates, row) !! UpdatedBy(creates, row') {
      if row != row' && row.importId == row'.importId {
        var a :| 0 <= a < |rows| && rows[a] == row;
        var b :| 0 <= b < |rows| && rows[b] == row';
        assert Submitted(creates, row).None?;
      } else if row != row' {
        RowsWriteApart(creates, row, row');
      }
    }
  }
}
