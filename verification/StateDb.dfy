/**
 * sync/state_db.py: the local tables.  Each operation is given as a function
 * on the table and as a method of StateDB that applies it in place.
 */
module StateDb {
  import opened Wrappers
  import opened Ynab
  import DateWindow
  import Money

  datatype BookingStatus = Pending | Booked | Deleted

  /** The columns an upsert overwrites. */
  datatype Facts = Facts(
    importId: string, txnId: nat, budget: string, accountKey: string, status: BookingStatus, amount: real,
    payee: string, date: int, ynabAccount: string, cleared: ClearedFlag)

  datatype Row = Row(facts: Facts, amountMilliunits: int, firstSeenAt: int, readdCount: nat)

  /** tracked_transactions, by its primary key. */
  type Table = map<string, Row>

  // --- invariants of the table -----------------------------------------------------

  ghost predicate AmountsAgree(r: Row) {
    r.amountMilliunits == Money.ToMilliunits(r.facts.amount)
  }

  ghost predicate StatusAgrees(f: Facts) {
    f.status != Deleted ==> (f.status == Pending <==> f.cleared == Uncleared)
  }

  /** Both amount columns agree, and a non-DELETED row is PENDING iff it is uncleared. */
  ghost predicate Consistent(t: Table) {
    forall k :: k in t ==> AmountsAgree(t[k]) && StatusAgrees(t[k].facts)
  }

  ghost predicate AmountsSound(t: Table) { forall k :: k in t ==> AmountsAgree(t[k]) }

  /** What an upsert of an existing row keeps. */
  ghost predicate SameHistory(r: Row, before: Row) {
    r.firstSeenAt == before.firstSeenAt && r.readdCount == before.readdCount
  }

  ghost predicate OthersKept(t: Table, before: Table, key: string) {
    forall k :: k != key ==> (k in t <==> k in before) && (k in before ==> t[k] == before[k])
  }

  // --- operations --------------------------------------------------------------------

  function Upsert(t: Table, key: string, facts: Facts, now: int): Table {
    t[key := Row(facts, Money.ToMilliunits(facts.amount),
                 if key in t then t[key].firstSeenAt else now,
                 if key in t then t[key].readdCount else 0)]
  }

  /** One call of upsert_tracked. */
  datatype Upserting = Upserting(key: string, facts: Facts, now: int)

  function UpsertAll(t: Table, writes: seq<Upserting>): Table
    decreases |writes|
  {
    if writes == [] then t
    else UpsertAll(Upsert(t, writes[0].key, writes[0].facts, writes[0].now), writes[1..])
  }

  /** The row of writes[last].key, when writes[first] is the first upsert of that key and writes[last] the last. */
  ghost predicate Spans(writes: seq<Upserting>, first: nat, last: nat) {
    && first <= last < |writes| && writes[first].key == writes[last].key
    && (forall i :: 0 <= i < first ==> writes[i].key != writes[last].key)
    && (forall i :: last < i < |writes| ==> writes[i].key != writes[last].key)
  }

  lemma {:induction false} UnwrittenRow(t: Table, writes: seq<Upserting>, key: string)
    requires forall w :: w in writes ==> w.key != key
    ensures key in UpsertAll(t, writes) <==> key in t
    ensures key in t ==> UpsertAll(t, writes)[key] == t[key]
    decreases |writes|
  {
    if writes != [] {
      UnwrittenRow(Upsert(t, writes[0].key, writes[0].facts, writes[0].now), writes[1..], key);
    }
  }

  /**
   * However often a row is upserted, it holds the facts of the last time, and the first_seen_at and re-add count it
   * had before; a row that was not there was first seen at its first upsert.
   */
  lemma {:induction false} RepeatedUpserts(t: Table, writes: seq<Upserting>, first: nat, last: nat)
    requires Spans(writes, first, last)
    ensures var key := writes[last].key;
            var t' := UpsertAll(t, writes);
            && key in t' && t'[key].facts == writes[last].facts && AmountsAgree(t'[key])
            && t'[key].firstSeenAt == (if key in t then t[key].firstSeenAt else writes[first].now)
            && t'[key].readdCount == if key in t then t[key].readdCount else 0
    decreases |writes|
  {
    var key := writes[last].key;
    var t1 := Upsert(t, writes[0].key, writes[0].facts, writes[0].now);
    if last == 0 {
      UnwrittenRow(t1, writes[1..], key);
    } else if first > 0 {
      RepeatedUpserts(t1, writes[1..], first - 1, last - 1);
    } else {
      var next := NextOf(writes, last);
      RepeatedUpserts(t1, writes[1..], next - 1, last - 1);
    }
  }

  /** The second upsert of the key that writes[0] writes. */
  lemma NextOf(writes: seq<Upserting>, last: nat) returns (next: nat)
    requires 0 < last < |writes|
    ensures 0 < next <= last && writes[next].key == writes[last].key
    ensures forall i :: 0 < i < next ==> writes[i].key != writes[last].key
  {
    next := 1;
    while writes[next].key != writes[last].key
      invariant 0 < next <= last
      invariant forall i :: 0 < i < next ==> writes[i].key != writes[last].key
      decreases last - next
    {
      next := next + 1;
    }
  }

  function Settled(r: Row, newAmount: real): Row {
    r.(facts := r.facts.(status := Booked, amount := newAmount, cleared := Cleared),
       amountMilliunits := Money.ToMilliunits(newAmount))
  }

  /** BOOKED and cleared under the new amount in both columns, and nothing else changed. */
  ghost predicate Booking(r: Row, before: Row, newAmount: real) {
    && r.facts.status == Booked && r.facts.cleared == Cleared && r.facts.amount == newAmount && AmountsAgree(r)
    && r.(facts := before.facts, amountMilliunits := before.amountMilliunits) == before
    && r.facts.(status := before.facts.status, amount := before.facts.amount, cleared := before.facts.cleared)
       == before.facts
  }

  /** mark_booked; None is the ValueError for a missing row. */
  function MarkBooked(t: Table, key: string, newAmount: real): Option<Table> {
    if key in t then Some(t[key := Settled(t[key], newAmount)]) else None
  }

  datatype RekeyResult = Rekeyed(table: Table, previous: Row) | AlreadyRekeyed | NoSuchRow | KeyTaken

  /** rekey_pending_to_booked; KeyTaken is SQLite's IntegrityError on the primary key. */
  function Rekey(t: Table, oldKey: string, newKey: string, newAmount: real): RekeyResult {
    if oldKey !in t then
      if newKey in t && t[newKey].facts.status == Booked then AlreadyRekeyed else NoSuchRow
    else if newKey != oldKey && newKey in t then KeyTaken
    else Rekeyed((t - {oldKey})[newKey := Settled(t[oldKey], newAmount)], t[oldKey])
  }

  /** mark_readded; None is the ValueError for a missing row. */
  function MarkReadded(t: Table, key: string, newTxnId: nat, newImportId: string): Option<Table> {
    if key !in t then None
    else
      var r := t[key];
      var status := if r.facts.cleared == Uncleared then Pending else Booked;
      Some(t[key := r.(facts := r.facts.(txnId := newTxnId, importId := newImportId, status := status),
                       readdCount := r.readdCount + 1)])
  }

  /** A re-added row: new ids, one more round, alive with the status its flag asks for, and nothing else changed. */
  ghost predicate Readded(r: Row, before: Row, newTxnId: nat, newImportId: string) {
    && r.facts.txnId == newTxnId && r.facts.importId == newImportId && r.readdCount == before.readdCount + 1
    && r.facts.status != Deleted && StatusAgrees(r.facts)
    && r.(facts := before.facts, readdCount := before.readdCount) == before
    && r.facts.(txnId := before.facts.txnId, importId := before.facts.importId, status := before.facts.status)
       == before.facts
  }

  predicate IsStale(r: Row, cutoff: int) { r.facts.status == Booked && r.facts.date < cutoff }

  /** The prune deletes by this condition. */
  function Prune(t: Table, cutoff: int): Table {
    map k | k in t && !IsStale(t[k], cutoff) :: t[k]
  }

  predicate IsPendingOf(r: Row, accountKey: string) {
    r.facts.accountKey == accountKey && r.facts.status == Pending
  }

  function PendingTimes(t: Table, accountKey: string): set<int> {
    set k | k in t && IsPendingOf(t[k], accountKey) :: t[k].firstSeenAt
  }

  /** Pruning never moves the floor of a fetch window. */
  lemma PruneKeepsPendingTimes(t: Table, cutoff: int)
    ensures forall a :: PendingTimes(Prune(t, cutoff), a) == PendingTimes(t, a)
  {
    forall a ensures PendingTimes(Prune(t, cutoff), a) == PendingTimes(t, a) {
      var pruned := Prune(t, cutoff);
      forall x | x in PendingTimes(t, a) ensures x in PendingTimes(pruned, a) {
        var k :| k in t && IsPendingOf(t[k], a) && t[k].firstSeenAt == x;
        assert k in pruned && IsPendingOf(pruned[k], a);
      }
    }
  }

  predicate IsMinimum(m: int, s: set<int>) {
    m in s && forall x :: x in s ==> m <= x
  }

  lemma MinimumExists(s: set<int>)
    requires exists x :: x in s
    ensures exists m :: IsMinimum(m, s)
    decreases |s|
  {
    var x :| x in s;
    var rest := s - {x};
    if exists y :: y in rest {
      MinimumExists(rest);
      var m :| IsMinimum(m, rest);
      forall y | y in s ensures (if x < m then x else m) <= y {
        assert y == x || y in rest;
      }
      assert IsMinimum(if x < m then x else m, s);
    } else {
      forall y | y in s ensures x <= y {
        assert y == x || y in rest;
      }
      assert IsMinimum(x, s);
    }
  }

  /** get_earliest_pending_first_seen. */
  function EarliestPending(t: Table, accountKey: string): (earliest: Option<int>)
    ensures earliest.None? <==> forall k :: k in t ==> !IsPendingOf(t[k], accountKey)
    ensures earliest.Some? ==> IsMinimum(earliest.value, PendingTimes(t, accountKey))
  {
    var times := PendingTimes(t, accountKey);
    if exists k :: k in t && IsPendingOf(t[k], accountKey) then
      var k :| k in t && IsPendingOf(t[k], accountKey);
      assert t[k].firstSeenAt in times;
      MinimumExists(times);
      var m :| IsMinimum(m, times);
      Some(m)
    else None
  }

  /** compute_since, in seconds. */
  function ComputeSince(lastSyncedAt: Option<int>, now: int, backfillDays: int, overlapHours: int): int {
    var earliestAllowed := now - backfillDays * DateWindow.SECONDS_PER_DAY;
    if lastSyncedAt.Some? then
      var candidate := lastSyncedAt.value - overlapHours * 3600;
      if candidate < earliestAllowed then earliestAllowed else candidate
    else earliestAllowed
  }

  // --- migration ------------------------------------------------------------------------

  /** A row of a database that predates amount_decimal. */
  datatype OldRow = OldRow(amountMilliunits: int, rest: Row)

  /** _backfill_amount_decimal. */
  function BackfillAmount(legacy: OldRow): Row {
    legacy.rest.(amountMilliunits := legacy.amountMilliunits,
              facts := legacy.rest.facts.(amount := Money.FromMilliunits(legacy.amountMilliunits)))
  }

  function Migrate(legacy: map<string, OldRow>): Table {
    map k | k in legacy :: BackfillAmount(legacy[k])
  }

  lemma MigrationAgrees(legacy: map<string, OldRow>)
    ensures AmountsSound(Migrate(legacy))
    ensures Migrate(legacy).Keys == legacy.Keys
    ensures forall k :: k in legacy ==> Migrate(legacy)[k].facts.amount == legacy[k].amountMilliunits as real / 1000.0
    ensures forall k :: k in legacy ==> Migrate(legacy)[k].amountMilliunits == legacy[k].amountMilliunits
    ensures forall k :: k in legacy ==>
        SameHistory(Migrate(legacy)[k], legacy[k].rest)
        && Migrate(legacy)[k].facts.(amount := legacy[k].rest.facts.amount) == legacy[k].rest.facts
  {
    forall k | k in legacy
      ensures AmountsAgree(Migrate(legacy)[k])
      ensures Migrate(legacy)[k].facts.amount == legacy[k].amountMilliunits as real / 1000.0
    {
      Money.MilliunitsRoundTrip(legacy[k].amountMilliunits);
    }
  }

  /** The run-level counters kept by record_success and record_failure. */
  datatype RunMetadata = RunMetadata(
    lastRunAt: Option<int>, lastSuccessAt: Option<int>, lastError: Option<string>, authRequired: bool, paused: bool,
    importedTotal: int, importedLastRun: int, updatedLastRun: int)

  class StateDB {
    var tracked: Table
    var cursors: map<string, int>
    var runMetadata: RunMetadata

    constructor ()
      ensures tracked == map[] && cursors == map[]
      ensures runMetadata == RunMetadata(None, None, None, false, false, 0, 0, 0)
    {
      tracked, cursors := map[], map[];
      runMetadata := RunMetadata(None, None, None, false, false, 0, 0, 0);
    }

    method UpsertTracked(key: string, facts: Facts, now: int)
      modifies this`tracked
      ensures key in tracked && tracked[key].facts == facts && AmountsAgree(tracked[key])
      ensures key in old(tracked) ==> SameHistory(tracked[key], old(tracked)[key])
      ensures key !in old(tracked) ==> tracked[key].firstSeenAt == now && tracked[key].readdCount == 0
      ensures OthersKept(tracked, old(tracked), key)
      ensures tracked == Upsert(old(tracked), key, facts, now)
    {
      var firstSeenAt, readdCount := now, 0;
      if key in tracked {
        firstSeenAt, readdCount := tracked[key].firstSeenAt, tracked[key].readdCount;
      }
      tracked := tracked[key := Row(facts, Money.ToMilliunits(facts.amount), firstSeenAt, readdCount)];
    }

    method MarkBookedRow(key: string, newAmount: real) returns (ok: bool)
      modifies this`tracked
      ensures ok <==> key in old(tracked)
      ensures ok ==> key in tracked && Booking(tracked[key], old(tracked)[key], newAmount)
      ensures OthersKept(tracked, old(tracked), key)
      ensures Some(tracked) == if ok then MarkBooked(old(tracked), key, newAmount) else Some(old(tracked))
    {
      ok := key in tracked;
      if ok {
        tracked := tracked[key := Settled(tracked[key], newAmount)];
      }
    }

    /** The source's three endings; `failed` covers both exceptions. */
    method RekeyPendingToBooked(oldKey: string, newKey: string, newAmount: real)
      returns (previous: Option<Row>, failed: bool)
      modifies this`tracked
      ensures var r := Rekey(old(tracked), oldKey, newKey, newAmount);
              && (r.Rekeyed? ==> tracked == r.table && previous == Some(r.previous) && !failed)
              && (!r.Rekeyed? ==> tracked == old(tracked) && previous.None?)
              && (failed <==> r.NoSuchRow? || r.KeyTaken?)
      ensures oldKey in old(tracked) ==> (failed <==> newKey != oldKey && newKey in old(tracked))
      ensures oldKey !in old(tracked) ==>
          (failed <==> newKey !in old(tracked) || old(tracked)[newKey].facts.status != Booked)
      ensures previous.Some? <==> oldKey in old(tracked) && (newKey == oldKey || newKey !in old(tracked))
      ensures previous.Some? ==> previous.value == old(tracked)[oldKey]
      ensures previous.Some? ==> newKey in tracked && Booking(tracked[newKey], previous.value, newAmount)
      ensures previous.Some? && newKey != oldKey ==> oldKey !in tracked
      ensures forall k :: k != oldKey && k != newKey ==> (k in tracked <==> k in old(tracked))
      ensures forall k :: k != oldKey && k != newKey && k in tracked ==> tracked[k] == old(tracked)[k]
    {
      previous, failed := None, false;
      if oldKey !in tracked {
        failed := !(newKey in tracked && tracked[newKey].facts.status == Booked);
        return;
      }
      if newKey != oldKey && newKey in tracked {
        failed := true;
        return;
      }
      previous := Some(tracked[oldKey]);
      tracked := (tracked - {oldKey})[newKey := Settled(tracked[oldKey], newAmount)];
    }

    method MarkReaddedRow(key: string, newTxnId: nat, newImportId: string) returns (ok: bool)
      modifies this`tracked
      ensures ok <==> key in old(tracked)
      ensures OthersKept(tracked, old(tracked), key)
      ensures ok ==> key in tracked && Readded(tracked[key], old(tracked)[key], newTxnId, newImportId)
      ensures Some(tracked) == if ok then MarkReadded(old(tracked), key, newTxnId, newImportId) else Some(old(tracked))
    {
      ok := key in tracked;
      if ok {
        var r := tracked[key];
        var status := if r.facts.cleared == Uncleared then Pending else Booked;
        tracked := tracked[key := r.(facts := r.facts.(txnId := newTxnId, importId := newImportId, status := status),
                                     readdCount := r.readdCount + 1)];
      }
    }

    /** `pruned` is the number of rows that are gone; what the fetch windows depend on stays. */
    method PruneBookedTransactions(cutoff: int) returns (pruned: nat)
      modifies this`tracked
      ensures forall k :: k in tracked
                <==> k in old(tracked) && !(old(tracked)[k].facts.status == Booked && old(tracked)[k].facts.date < cutoff)
      ensures forall k :: k in tracked ==> tracked[k] == old(tracked)[k]
      ensures pruned == |set k | k in old(tracked) && IsStale(old(tracked)[k], cutoff)|
      ensures forall a :: PendingTimes(tracked, a) == PendingTimes(old(tracked), a)
      ensures tracked == Prune(old(tracked), cutoff)
    {
      ghost var was := tracked;
      var stale := set k | k in tracked && IsStale(tracked[k], cutoff);
      pruned := |stale|;
      tracked := tracked - stale;
      PruneKeepsPendingTimes(was, cutoff);
      assert tracked == Prune(was, cutoff);
    }

    /** Cursors move only here. */
    method RecordSuccess(lastSynced: map<string, int>, imported: int, updated: int, now: int)
      modifies this`cursors, this`runMetadata
      ensures forall a :: a in lastSynced ==> a in cursors && cursors[a] == lastSynced[a]
      ensures forall a :: a !in lastSynced ==> (a in cursors <==> a in old(cursors))
      ensures forall a :: a in old(cursors) && a !in lastSynced ==> cursors[a] == old(cursors)[a]
      ensures runMetadata.importedTotal - old(runMetadata).importedTotal == runMetadata.importedLastRun == imported
      ensures runMetadata.lastRunAt == runMetadata.lastSuccessAt == Some(now) && runMetadata.lastError.None?
      ensures runMetadata.paused == old(runMetadata).paused && !runMetadata.authRequired
      ensures cursors == old(cursors) + lastSynced
      ensures runMetadata == old(runMetadata).(
        lastRunAt := Some(now), lastSuccessAt := Some(now), lastError := None, authRequired := false,
        importedTotal := old(runMetadata).importedTotal + imported, importedLastRun := imported,
        updatedLastRun := updated)
    {
      cursors := cursors + lastSynced;
      runMetadata := runMetadata.(
        lastRunAt := Some(now), lastSuccessAt := Some(now), lastError := None, authRequired := false,
        importedTotal := runMetadata.importedTotal + imported, importedLastRun := imported, updatedLastRun := updated);
    }

    method RecordFailure(error: string, authRequired: bool, now: int)
      modifies this`runMetadata
      ensures runMetadata == old(runMetadata).(
        lastRunAt := Some(now), lastError := Some(error), authRequired := authRequired, importedLastRun := 0,
        updatedLastRun := 0)
    {
      runMetadata := runMetadata.(
        lastRunAt := Some(now), lastError := Some(error), authRequired := authRequired, importedLastRun := 0,
        updatedLastRun := 0);
    }
  }
}
