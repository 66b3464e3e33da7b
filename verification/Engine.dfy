/**
 * sync/engine.py, phase 2, in its own form: methods that call YNAB, write
 * tracked rows as each call succeeds, bump counters in loops, and stop where
 * the source raises.  Every method computes its function in SyncSpec.dfy.
 */
module Engine {
  import opened Wrappers
  import opened Ynab
  import opened StateDb
  import opened SyncSpec
  import opened Money
  import DateWindow
  import Readd
  import Recovery

  /** The YNAB client: a ledger behind a connection that follows a script of faults. */
  class YnabApi {
    var ledger: Ledger
    var script: seq<Fault>

    constructor (ledger: Ledger, script: seq<Fault>)
      ensures this.ledger == ledger && this.script == script
    {
      this.ledger, this.script := ledger, script;
    }

    /** One writing call that would leave the ledger as `target`; ok means it was answered. */
    method Send(target: Ledger) returns (ok: bool)
      modifies this
      ensures var w := Write(Attempt(map[], old(ledger), old(script), 0), target);
              ledger == w.ledger && script == w.script && (ok <==> w.status == Running)
    {
      var fault := if script == [] then Works else script[0];
      script := if script == [] then [] else script[1..];
      if fault == Works || fault == LostAfter {
        ledger := target;
      }
      ok := fault == Works;
    }

    /** Whether the next call meets a 400; if so, it is over. */
    method AnsweredWith400() returns (rejected: bool)
      modifies this`script
      ensures rejected <==> old(script) != [] && old(script)[0] == BadRequest
      ensures script == if rejected then old(script)[1..] else old(script)
    {
      rejected := script != [] && script[0] == BadRequest;
      if rejected {
        script := script[1..];
      }
    }

    /** One writing call whose caller takes a 400 for done. */
    method SendUnless400(target: Ledger) returns (ok: bool)
      modifies this
      ensures var w := WriteUnless400(Attempt(map[], old(ledger), old(script), 0), target);
              ledger == w.ledger && script == w.script && (ok <==> w.status == Running)
    {
      ok := AnsweredWith400();
      if !ok {
        ok := Send(target);
      }
    }

    /** One reading call. */
    method Fetch() returns (ok: bool)
      modifies this`script
      ensures var w := Read(Attempt(map[], old(ledger), old(script), 0));
              script == w.script && (ok <==> w.status == Running)
    {
      ok := script == [] || script[0] == Works;
      script := if script == [] then [] else script[1..];
    }

    /** create_transactions; None when the call raised. */
    method CreateTransactions(native: NativeMatcher, budget: string, payloads: seq<Payload>)
      returns (response: Option<Response>)
      modifies this
      ensures payloads == [] ==> ledger == old(ledger) && script == old(script) && response == Some(Response([], []))
      ensures payloads != [] ==>
          var (l, r) := CreateAll(old(ledger), native, budget, payloads);
          var w := Write(Attempt(map[], old(ledger), old(script), 0), l);
          && ledger == w.ledger && script == w.script
          && response == if w.status == Running then Some(r) else None
    {
      if payloads == [] {
        return Some(Response([], []));
      }
      var (l, r) := CreateAll(ledger, native, budget, payloads);
      var ok := Send(l);
      response := if ok then Some(r) else None;
    }

    /** delete_transaction as _delete_original treats it: a refusal or a 404 is not an exception. */
    method DeleteTransaction(budget: string, id: nat) returns (ok: bool)
      modifies this
      ensures var w := DeleteOriginal(Attempt(map[], old(ledger), old(script), 0), budget, id);
              ledger == w.ledger && script == w.script && (ok <==> w.status == Running)
    {
      if script != [] && IsRejected(script[0]) {
        script := script[1..];
        return true;
      }
      ok := Send(Delete(ledger, budget, id));
    }
  }

  class SyncEngine {
    const cfg: Settings
    const db: StateDB
    const ynab: YnabApi

    constructor (cfg: Settings, db: StateDB, ynab: YnabApi)
      ensures this.cfg == cfg && this.db == db && this.ynab == ynab
    {
      this.cfg, this.db, this.ynab := cfg, db, ynab;
    }

    /** The three stores, with the outcome and the counts so far. */
    ghost function Stores(now: int, status: Status, tally: Tally): World
      reads db, ynab
    {
      World(db.tracked, ynab.ledger, ynab.script, now, status, tally)
    }

    lemma SameCall(w: World, v: World, target: Ledger)
      requires w.ledger == v.ledger && w.script == v.script && w.status == v.status == Running
      ensures Write(w, target)
           == w.(ledger := Write(v, target).ledger, script := Write(v, target).script, status := Write(v, target).status)
      ensures WriteUnless400(w, target)
           == w.(ledger := WriteUnless400(v, target).ledger, script := WriteUnless400(v, target).script,
                 status := WriteUnless400(v, target).status)
      ensures WriteUnless400(w, target).status == Running || WriteUnless400(w, target).status == CallFailed
      ensures Read(w) == w.(script := Read(v).script, status := Read(v).status)
      ensures Write(w, target).status == Running || Write(w, target).status == CallFailed
      ensures Read(w).status == Running || Read(w).status == CallFailed
    {
    }

    method SendTo(target: Ledger, now: int, tally: Tally) returns (status: Status)
      modifies ynab
      ensures Stores(now, status, tally) == Write(old(Stores(now, Running, tally)), target)
    {
      ghost var before := Stores(now, Running, tally);
      SameCall(before, Attempt(map[], ynab.ledger, ynab.script, 0), target);
      var ok := ynab.Send(target);
      status := if ok then Running else CallFailed;
    }

    method PatchUnless400(target: Ledger, now: int, tally: Tally) returns (status: Status)
      modifies ynab
      ensures Stores(now, status, tally) == WriteUnless400(old(Stores(now, Running, tally)), target)
    {
      ghost var before := Stores(now, Running, tally);
      SameCall(before, Attempt(map[], ynab.ledger, ynab.script, 0), target);
      var ok := ynab.SendUnless400(target);
      status := if ok then Running else CallFailed;
    }

    method FetchFrom(now: int, tally: Tally) returns (status: Status)
      modifies ynab`script
      ensures Stores(now, status, tally) == Read(old(Stores(now, Running, tally)))
    {
      ghost var before := Stores(now, Running, tally);
      SameCall(before, Attempt(map[], ynab.ledger, ynab.script, 0), ynab.ledger);
      var ok := ynab.Fetch();
      status := if ok then Running else CallFailed;
    }

    method TrackNative(key: string, facts: Facts, now: int, tally: Tally) returns (status: Status)
      modifies db, ynab
      ensures Stores(now, status, tally) == TrackNativeMatch(old(Stores(now, Running, tally)), key, facts)
    {
      db.UpsertTracked(key, facts, now);
      status := Running;
      if facts.status == Pending && facts.cleared == Uncleared {
        status := PatchUnless400(Patch(ynab.ledger, facts.budget, facts.txnId, None, Uncleared), now, tally);
      }
    }

    method RecordTransferSecondary(budget: string, secondary: Create, row: Reported, now: int, tally0: Tally)
      returns (status: Status, tally: Tally)
      modifies db, ynab
      ensures Stores(now, status, tally)
           == RecordSecondary(old(Stores(now, Running, tally0)), cfg, budget, secondary, row)
    {
      hide Upsert, SecondaryFacts, Patch, WriteUnless400;
      status, tally := Running, tally0;
      if row.transferId.None? {
        return;
      }
      var leg := row.transferId.value;
      var facts := SecondaryFacts(cfg, budget, secondary, leg, row.payee);
      db.UpsertTracked(secondary.trackingKey, facts, now);
      tally := tally.(created := tally.created + 1);
      if secondary.status == Booked {
        status := PatchUnless400(Patch(ynab.ledger, budget, leg, Some(secondary.payload.amount), Cleared), now, tally);
      }
    }

    method RecordOne(budget: string, creates: seq<Create>, row: Reported, now: int, tally0: Tally)
      returns (status: Status, tally: Tally)
      modifies db, ynab
      ensures Stores(now, status, tally) == RecordRow(old(Stores(now, Running, tally0)), cfg, budget, creates, row)
    {
      hide Upsert, CreateFacts, RecordSecondary, TrackNativeMatch, FindCreate;
      status, tally := Running, tally0;
      if row.importId.None? {
        return;
      }
      var found := FindCreate(creates, row.importId.value);
      if found.None? {
        return;
      }
      var p := found.value;
      var payee := PayeeOr(p.payload.payee, row.payee);
      if p.secondary.None? && row.matched.Some? {
        tally := tally.(updated := tally.updated + 1);
        status := TrackNative(p.trackingKey,
                              CreateFacts(budget, p, row.matched.value, p.status, p.payload.amount, payee), now, tally);
        return;
      }
      db.UpsertTracked(p.trackingKey, CreateFacts(budget, p, row.id, p.status, p.payload.amount, payee), now);
      tally := tally.(created := tally.created + 1);
      if p.secondary.Some? {
        status, tally := RecordTransferSecondary(budget, p.secondary.value, row, now, tally);
      }
    }

    method RecordCreatedRows(budget: string, creates: seq<Create>, rows: seq<Reported>, now: int, tally0: Tally)
      returns (status: Status, tally: Tally)
      modifies db, ynab
      ensures Stores(now, status, tally) == RecordCreated(old(Stores(now, Running, tally0)), cfg, budget, creates, rows)
    {
      status, tally := Running, tally0;
      var i := 0;
      while i < |rows| && status == Running
        invariant 0 <= i <= |rows|
        invariant RecordCreated(old(Stores(now, Running, tally0)), cfg, budget, creates, rows)
               == RecordCreated(Stores(now, status, tally), cfg, budget, creates, rows[i..])
      {
        assert rows[i..][0] == rows[i] && rows[i..][1..] == rows[i + 1..];
        status, tally := RecordOne(budget, creates, rows[i], now, tally);
        i := i + 1;
      }
    }

    method RecoverDuplicate(budget: string, p: Create, now: int, tally0: Tally) returns (status: Status, tally: Tally)
      modifies db, ynab
      ensures Stores(now, status, tally) == Recover(old(Stores(now, Running, tally0)), cfg, budget, p)
    {
      hide Upsert, LookUp, LookUpGone, RecoveredFacts, DeletedFacts;
      tally := tally0;
      status := FetchFrom(now, tally);
      if status != Running {
        return;
      }
      var existing := LookUp(ynab.ledger, cfg, budget, p);
      if existing.Some? {
        db.UpsertTracked(p.trackingKey, RecoveredFacts(ynab.ledger, budget, p, existing.value), now);
        return;
      }
      status := FetchFrom(now, tally);
      var gone := LookUpGone(ynab.ledger, cfg, budget, p);
      if status == Running && gone.Some? {
        db.UpsertTracked(p.trackingKey, DeletedFacts(budget, p, gone.value), now);
        tally := tally.(resolvedDeleted := tally.resolvedDeleted + 1);
      }
    }

    method BackfillDuplicates(budget: string, creates: seq<Create>, importIds: seq<string>, now: int, tally0: Tally)
      returns (status: Status, tally: Tally)
      modifies db, ynab
      ensures Stores(now, status, tally) == Backfill(old(Stores(now, Running, tally0)), cfg, budget, creates, importIds)
    {
      status, tally := Running, tally0;
      var i := 0;
      while i < |importIds| && status == Running
        invariant 0 <= i <= |importIds|
        invariant Backfill(old(Stores(now, Running, tally0)), cfg, budget, creates, importIds)
               == Backfill(Stores(now, status, tally), cfg, budget, creates, importIds[i..])
      {
        assert importIds[i..][0] == importIds[i] && importIds[i..][1..] == importIds[i + 1..];
        var found := FindCreate(creates, importIds[i]);
        if found.Some? && found.value.trackingKey !in db.tracked {
          status, tally := RecoverDuplicate(budget, found.value, now, tally);
        }
        i := i + 1;
      }
    }

    /** create_transactions, as both phases use it. */
    method Post(budget: string, payloads: seq<Payload>, now: int, tally: Tally)
      returns (status: Status, response: Response)
      modifies ynab
      ensures Stores(now, status, tally) == PostCreates(old(Stores(now, Running, tally)), cfg, budget, payloads).0
      ensures status == Running ==>
          response == PostCreates(old(Stores(now, Running, tally)), cfg, budget, payloads).1
    {
      ghost var before := Stores(now, Running, tally);
      SameCall(before, Attempt(map[], ynab.ledger, ynab.script, 0),
               CreateAll(ynab.ledger, cfg.native, budget, payloads).0);
      var r := ynab.CreateTransactions(cfg.native, budget, payloads);
      status := if r.Some? then Running else CallFailed;
      response := if r.Some? then r.value else Response([], []);
    }

    method SubmitBatch(batch: Batch<Create>, now: int, tally0: Tally) returns (status: Status, tally: Tally)
      modifies db, ynab
      ensures Stores(now, status, tally) == SubmitCreates(old(Stores(now, Running, tally0)), cfg, batch)
    {
      hide RecordCreated, Backfill, PostCreates, Payloads;
      tally := tally0;
      var response;
      status, response := Post(batch.budget, Payloads(batch.items), now, tally);
      if status != Running {
        return;
      }
      status, tally := RecordCreatedRows(batch.budget, batch.items, response.rows, now, tally);
      if status != Running {
        return;
      }
      tally := tally.(duplicates := tally.duplicates + |response.duplicates|);
      status, tally := BackfillDuplicates(batch.budget, batch.items, response.duplicates, now, tally);
    }

    /** mark_booked, or rekey_pending_to_booked for a fuzzy update. */
    method SettleRow(c: Correction, now: int, tally0: Tally) returns (status: Status, tally: Tally)
      modifies db
      ensures Stores(now, status, tally) == Settle(old(Stores(now, Running, tally0)), c)
    {
      tally := tally0;
      var failed;
      match c {
        case Update(key, _, amount, _, _) =>
          var ok := db.MarkBookedRow(key, amount);
          failed := !ok;
        case FuzzyUpdate(oldKey, newKey, _, amount, _, _) =>
          var previous;
          previous, failed := db.RekeyPendingToBooked(oldKey, newKey, amount);
      }
      if failed {
        status := DbFailed;
      } else {
        status := Running;
        tally := tally.(updated := tally.updated + 1);
      }
    }

    method DeleteManual(budget: string, id: nat, now: int, tally: Tally) returns (status: Status)
      modifies ynab
      ensures Stores(now, status, tally) == DeleteOriginal(old(Stores(now, Running, tally)), budget, id)
    {
      ghost var before := Stores(now, Running, tally);
      SameCall(before, Attempt(map[], ynab.ledger, ynab.script, 0), Delete(ynab.ledger, budget, id));
      var ok := ynab.DeleteTransaction(budget, id);
      status := if ok then Running else CallFailed;
    }

    method FinishNativeMatch(budget: string, p: ManualMatch, now: int, tally0: Tally)
      returns (status: Status, tally: Tally)
      modifies db, ynab
      ensures Stores(now, status, tally) == FinishNative(old(Stores(now, Running, tally0)), budget, p)
    {
      tally := tally0.(updated := tally0.updated + 1);
      status := TrackNative(p.trackingKey, MatchFacts(budget, p, p.originalId), now, tally);
    }

    method FinishByDeleting(budget: string, p: ManualMatch, shadowId: nat, now: int, tally0: Tally)
      returns (status: Status, tally: Tally)
      modifies db, ynab
      ensures Stores(now, status, tally) == FinishFallback(old(Stores(now, Running, tally0)), budget, p, shadowId)
    {
      db.UpsertTracked(p.trackingKey, MatchFacts(budget, p, shadowId), now);
      tally := tally0.(created := tally0.created + 1);
      status := DeleteManual(budget, p.originalId, now, tally);
    }

    method MatchOneRow(budget: string, matches: seq<ManualMatch>, row: Reported, now: int, tally0: Tally)
      returns (status: Status, tally: Tally)
      modifies db, ynab
      ensures Stores(now, status, tally) == MatchRow(old(Stores(now, Running, tally0)), budget, matches, row)
    {
      if row.importId.None? || FindMatch(matches, row.importId.value).None? {
        return Running, tally0;
      }
      var p := FindMatch(matches, row.importId.value).value;
      if row.matched.Some? {
        status, tally := FinishNativeMatch(budget, p, now, tally0);
      } else {
        status, tally := FinishByDeleting(budget, p, row.id, now, tally0);
      }
    }

    method MatchOneDuplicate(budget: string, matches: seq<ManualMatch>, importId: string, now: int, tally0: Tally)
      returns (status: Status, tally: Tally)
      modifies db, ynab
      ensures Stores(now, status, tally)
           == MatchDuplicate(old(Stores(now, Running, tally0)), cfg, budget, matches, importId)
    {
      status, tally := Running, tally0;
      var found := FindMatch(matches, importId);
      if found.None? {
        return;
      }
      var p := found.value;
      if p.trackingKey in db.tracked {
        if db.tracked[p.trackingKey].facts.txnId != p.originalId {
          status := DeleteManual(budget, p.originalId, now, tally);
        }
        return;
      }
      status := FetchFrom(now, tally);
      if status != Running {
        return;
      }
      var since := DateWindow.SinceDateBound(p.payload.date, cfg.backfillDays);
      var shadow := FindByImportId(ynab.ledger, budget, p.payload.account, importId, since, cfg.shadowsListed);
      if shadow.None? {
        return;
      }
      if ynab.ledger[shadow.value].matched.Some? {
        status, tally := FinishNativeMatch(budget, p, now, tally);
      } else {
        status, tally := FinishByDeleting(budget, p, shadow.value, now, tally);
      }
    }

    /** _record_matched and the create before it. */
    method SubmitMatchBatch(batch: Batch<ManualMatch>, now: int, tally0: Tally)
      returns (status: Status, tally: Tally)
      modifies db, ynab
      ensures Stores(now, status, tally) == SubmitMatches(old(Stores(now, Running, tally0)), cfg, batch)
    {
      tally := tally0;
      var response;
      status, response := Post(batch.budget, MatchPayloads(batch.items), now, tally);
      if status != Running {
        return;
      }
      var rows, duplicates := response.rows, response.duplicates;
      label Posted:
      var i := 0;
      while i < |rows| && status == Running
        invariant 0 <= i <= |rows|
        invariant MatchRows(old@Posted(Stores(now, Running, tally0)), batch.budget, batch.items, rows)
               == MatchRows(Stores(now, status, tally), batch.budget, batch.items, rows[i..])
      {
        assert rows[i..][0] == rows[i] && rows[i..][1..] == rows[i + 1..];
        status, tally := MatchOneRow(batch.budget, batch.items, rows[i], now, tally);
        i := i + 1;
      }
      if status != Running {
        return;
      }
      ghost var tally1 := tally;
      label Recorded:
      i := 0;
      while i < |duplicates| && status == Running
        invariant 0 <= i <= |duplicates|
        invariant MatchDuplicates(old@Recorded(Stores(now, Running, tally1)), cfg, batch.budget, batch.items, duplicates)
               == MatchDuplicates(Stores(now, status, tally), cfg, batch.budget, batch.items, duplicates[i..])
      {
        assert duplicates[i..][0] == duplicates[i] && duplicates[i..][1..] == duplicates[i + 1..];
        status, tally := MatchOneDuplicate(batch.budget, batch.items, duplicates[i], now, tally);
        i := i + 1;
      }
    }

    /** The PATCH of one correction; `gone` when it was answered with a 400. */
    method PatchOne(budget: string, c: Correction, now: int, tally: Tally) returns (status: Status, gone: bool)
      modifies ynab
      ensures var w := old(Stores(now, Running, tally));
              var patched := Write(w, Patch(w.ledger, budget, c.txnId, Some(ToMilliunits(c.newAmount)), Cleared));
              var read := Read(w);
              if NextFault(w) == BadRequest then gone && Stores(now, status, tally) == Consume(w)
              else if CanPatch(w.ledger, budget, c.txnId) then !gone && Stores(now, status, tally) == patched
              else gone == (status == Running) && Stores(now, status, tally) == read
    {
      hide Patch, ToMilliunits;
      gone := ynab.AnsweredWith400();
      if gone {
        status := Running;
      } else if CanPatch(ynab.ledger, budget, c.txnId) {
        status := SendTo(Patch(ynab.ledger, budget, c.txnId, Some(ToMilliunits(c.newAmount)), Cleared), now, tally);
      } else {
        status := FetchFrom(now, tally);
        gone := status == Running;
      }
    }

    /** _recover_missing_pending_update. */
    method RecoverMissingUpdate(budget: string, c: Correction, now: int, tally0: Tally)
      returns (status: Status, tally: Tally)
      modifies db, ynab
      ensures Stores(now, status, tally) == Recovery.RecoverMissing(old(Stores(now, Running, tally0)), cfg, budget, c)
    {
      hide Recovery.Replacements, Recovery.ReplacementMatch, Recovery.GoneFacts, SubmitMatches, Upsert;
      tally := tally0;
      if c.oldKey !in db.tracked {
        return DbFailed, tally;
      }
      var row := db.tracked[c.oldKey];
      status := FetchFrom(now, tally);
      if status != Running {
        return;
      }
      var found := Recovery.Replacements(ynab.ledger, cfg, budget, row, c.newAmount);
      if |found| != 1 {
        db.UpsertTracked(c.oldKey, Recovery.GoneFacts(row, budget, c), now);
        tally := tally.(resolvedDeleted := tally.resolvedDeleted + 1);
        return;
      }
      status, tally := SubmitMatchBatch(Batch(budget, [Recovery.ReplacementMatch(cfg.hash, row, c, found[0])]), now, tally);
    }

    method CorrectOne(budget: string, snapshot: Ledger, since: Option<int>, c: Correction, now: int, tally0: Tally)
      returns (status: Status, tally: Tally)
      modifies db, ynab
      ensures Stores(now, status, tally)
           == Recovery.CorrectFully(old(Stores(now, Running, tally0)), cfg, budget, snapshot, since, c)
    {
      hide Recovery.RecoverMissing, Patch, ToMilliunits, Settled, MarkBooked, Rekey;
      tally := tally0;
      var gone := !ListedAlive(snapshot, budget, c.txnId, since);
      status := Running;
      if !gone {
        status, gone := PatchOne(budget, c, now, tally);
      }
      if gone {
        status, tally := RecoverMissingUpdate(budget, c, now, tally);
      } else if status == Running {
        status, tally := SettleRow(c, now, tally);
      }
    }

    /** The pre-check of a budget, and its corrections one by one. */
    method CorrectOneBudget(cycle: Cycle, budget: string, now: int, tally0: Tally)
      returns (status: Status, tally: Tally)
      modifies db, ynab
      ensures Stores(now, status, tally)
           == Recovery.CorrectBudgetFully(old(Stores(now, Running, tally0)), cfg, cycle, budget)
    {
      tally := tally0;
      var cs := CorrectionsOf(cycle, budget);
      status := FetchFrom(now, tally);
      if status != Running {
        return;
      }
      var snapshot, since := ynab.ledger, SinceOf(cfg, cs);
      label Listed:
      var i := 0;
      while i < |cs| && status == Running
        invariant 0 <= i <= |cs|
        invariant Recovery.CorrectAllFully(old@Listed(Stores(now, Running, tally0)), cfg, budget, snapshot, since, cs)
               == Recovery.CorrectAllFully(Stores(now, status, tally), cfg, budget, snapshot, since, cs[i..])
      {
        assert cs[i..][0] == cs[i] && cs[i..][1..] == cs[i + 1..];
        status, tally := CorrectOne(budget, snapshot, since, cs[i], now, tally);
        i := i + 1;
      }
    }

    method SubmitAllCreates(batches: seq<Batch<Create>>, now: int) returns (status: Status, tally: Tally)
      modifies db, ynab
      ensures Stores(now, status, tally)
           == CreatesPhase(old(Stores(now, Running, Tally(0, 0, 0, 0))), cfg, batches)
    {
      status, tally := Running, Tally(0, 0, 0, 0);
      var i := 0;
      while i < |batches| && status == Running
        invariant 0 <= i <= |batches|
        invariant CreatesPhase(old(Stores(now, Running, Tally(0, 0, 0, 0))), cfg, batches)
               == CreatesPhase(Stores(now, status, tally), cfg, batches[i..])
      {
        assert batches[i..][0] == batches[i] && batches[i..][1..] == batches[i + 1..];
        status, tally := SubmitBatch(batches[i], now, tally);
        i := i + 1;
      }
    }

    method SubmitAllCorrections(cycle: Cycle, budgets: seq<string>, now: int, status0: Status, tally0: Tally)
      returns (status: Status, tally: Tally)
      modifies db, ynab
      ensures Stores(now, status, tally)
           == Recovery.CorrectionsPhaseFully(old(Stores(now, status0, tally0)), cfg, cycle, budgets)
    {
      status, tally := status0, tally0;
      var i := 0;
      while i < |budgets| && status == Running
        invariant 0 <= i <= |budgets|
        invariant Recovery.CorrectionsPhaseFully(old(Stores(now, status0, tally0)), cfg, cycle, budgets)
               == Recovery.CorrectionsPhaseFully(Stores(now, status, tally), cfg, cycle, budgets[i..])
      {
        assert budgets[i..][0] == budgets[i] && budgets[i..][1..] == budgets[i + 1..];
        status, tally := CorrectOneBudget(cycle, budgets[i], now, tally);
        i := i + 1;
      }
    }

    method SubmitAllMatches(batches: seq<Batch<ManualMatch>>, now: int, status0: Status, tally0: Tally)
      returns (status: Status, tally: Tally)
      modifies db, ynab
      ensures Stores(now, status, tally) == MatchesPhase(old(Stores(now, status0, tally0)), cfg, batches)
    {
      status, tally := status0, tally0;
      var i := 0;
      while i < |batches| && status == Running
        invariant 0 <= i <= |batches|
        invariant MatchesPhase(old(Stores(now, status0, tally0)), cfg, batches)
               == MatchesPhase(Stores(now, status, tally), cfg, batches[i..])
      {
        assert batches[i..][0] == batches[i] && batches[i..][1..] == batches[i + 1..];
        status, tally := SubmitMatchBatch(batches[i], now, tally);
        i := i + 1;
      }
    }

    /** submit(): the whole second phase, on the stores themselves. */
    method SubmitCycle(cycle: Cycle, budgets: seq<string>, now: int) returns (status: Status, tally: Tally)
      modifies db, ynab
      ensures Stores(now, status, tally)
           == Recovery.SubmitFully(old(Attempt(db.tracked, ynab.ledger, ynab.script, now)), cfg, cycle, budgets)
    {
      status, tally := SubmitAllCreates(cycle.creates, now);
      status, tally := SubmitAllCorrections(cycle, budgets, now, status, tally);
      status, tally := SubmitAllMatches(cycle.matches, now, status, tally);
    }

    /** readd_deleted_transaction; the outcomes other than Readded are its exceptions. */
    method ReaddDeletedTransaction(key: string, now: int, tally: Tally) returns (status: Status, outcome: Readd.Outcome)
      modifies db, ynab
      ensures (Stores(now, status, tally), outcome) == Readd.ReaddDeleted(old(Stores(now, Running, tally)), cfg, key)
    {
      hide Readd.ReportedAs, MarkReadded;
      if key !in db.tracked {
        return Running, Readd.NotTracked;
      }
      var row := db.tracked[key];
      if row.facts.status != Deleted {
        return Running, Readd.NotDeleted;
      }
      var payload := Readd.ReaddPayload(cfg.hash, key, row);
      var response;
      status, response := Post(row.facts.budget, [payload], now, tally);
      if status != Running {
        return status, Readd.CallLost;
      }
      var created := Readd.ReportedAs(response.rows, payload.importId);
      if created.None? {
        return Running, Readd.NotReported;
      }
      var id := Readd.VisibleId(created.value);
      var ok := db.MarkReaddedRow(key, id, payload.importId);
      outcome := Readd.Readded(id);
    }
  }
}
