/**
 * Retry convergence of the engine's own submit(), recoveries and all: on live
 * targets nothing is ever taken for missing, so no attempt recovers anything.
 */
module EngineRetries {
  import opened Wrappers
  import opened Ynab
  import opened StateDb
  import opened SyncSpec
  import opened Convergence
  import Recovery

  /** Attempts of submit() with its recoveries, each on what the previous one left. */
  function AfterFullTries(cfg: Settings, cycle: Cycle, w: World, tries: seq<Try>): World
    decreases |tries|
  {
    if tries == [] then w
    else
      var t := tries[0];
      var w1 := Recovery.SubmitFully(Attempt(w.table, w.ledger, t.script, t.now), cfg, cycle, t.budgets);
      AfterFullTries(cfg, cycle, w1, tries[1..])
  }

  // --- creates ask for no recovery --------------------------------------------------------------------------

  /** Nothing was taken for missing, and no 400 is to come. */
  predicate Unrejected(w: World) { w.status != NeedsRecovery && BadRequest !in w.script }

  lemma SendStaysUnrejected(w: World, l: Ledger)
    requires Unrejected(w)
    ensures Unrejected(Write(w, l)) && Unrejected(WriteUnless400(w, l)) && Unrejected(Read(w))
  {
  }

  lemma RecordStaysUnrejected(w: World, key: string, facts: Facts)
    requires Unrejected(w)
    ensures Unrejected(Record(w, key, facts))
  {
    hide Upsert;
  }

  lemma TrackNativeStaysUnrejected(w: World, key: string, facts: Facts)
    requires Unrejected(w)
    ensures Unrejected(TrackNativeMatch(w, key, facts))
  {
    RecordStaysUnrejected(w, key, facts);
    SendStaysUnrejected(Record(w, key, facts), Patch(w.ledger, facts.budget, facts.txnId, None, Uncleared));
    hide Unrejected, Record, WriteUnless400, Patch;
  }

  lemma SecondaryStaysUnrejected(w: World, cfg: Settings, budget: string, secondary: Create, row: Reported)
    requires Unrejected(w)
    ensures Unrejected(RecordSecondary(w, cfg, budget, secondary, row))
  {
    if row.transferId.Some? {
      var facts := SecondaryFacts(cfg, budget, secondary, row.transferId.value, row.payee);
      RecordStaysUnrejected(w, secondary.trackingKey, facts);
      var tracked := CountCreated(Record(w, secondary.trackingKey, facts));
      assert Unrejected(tracked);
      var l' := Patch(w.ledger, budget, row.transferId.value, Some(secondary.payload.amount), Cleared);
      SendStaysUnrejected(tracked, l');
      hide Unrejected, Record, WriteUnless400, Patch, SecondaryFacts;
    }
  }

  lemma RecordRowStaysUnrejected(w: World, cfg: Settings, budget: string, creates: seq<Create>, row: Reported)
    requires Unrejected(w)
    ensures Unrejected(RecordRow(w, cfg, budget, creates, row))
  {
    hide FindCreate, CreateFacts, RecordSecondary, TrackNativeMatch, Record;
    if row.importId.Some? && FindCreate(creates, row.importId.value).Some? {
      var p := FindCreate(creates, row.importId.value).value;
      var payee := PayeeOr(p.payload.payee, row.payee);
      if p.secondary.None? && row.matched.Some? {
        var facts := CreateFacts(budget, p, row.matched.value, p.status, p.payload.amount, payee);
        TrackNativeStaysUnrejected(CountUpdated(w), p.trackingKey, facts);
      } else {
        var facts := CreateFacts(budget, p, row.id, p.status, p.payload.amount, payee);
        RecordStaysUnrejected(w, p.trackingKey, facts);
        if p.secondary.Some? {
          SecondaryStaysUnrejected(CountCreated(Record(w, p.trackingKey, facts)), cfg, budget, p.secondary.value, row);
        }
      }
    }
  }

  lemma {:induction false} RecordCreatedStaysUnrejected(w: World, cfg: Settings, budget: string, creates: seq<Create>,
                                                        rows: seq<Reported>)
    requires Unrejected(w)
    ensures Unrejected(RecordCreated(w, cfg, budget, creates, rows))
    decreases |rows|
  {
    hide RecordRow, Unrejected;
    if rows != [] && w.status == Running {
      RecordRowStaysUnrejected(w, cfg, budget, creates, rows[0]);
      RecordCreatedStaysUnrejected(RecordRow(w, cfg, budget, creates, rows[0]), cfg, budget, creates, rows[1..]);
    }
  }

  lemma BackfillOneStaysUnrejected(w: World, cfg: Settings, budget: string, creates: seq<Create>, id: string)
    requires Unrejected(w)
    ensures Unrejected(BackfillOne(w, cfg, budget, creates, id))
  {
    SendStaysUnrejected(w, w.ledger);
    SendStaysUnrejected(Read(w), w.ledger);
    hide FindCreate, LookUp, LookUpGone, RecoveredFacts, DeletedFacts, Read, Upsert;
  }

  lemma {:induction false} BackfillStaysUnrejected(w: World, cfg: Settings, budget: string, creates: seq<Create>,
                                                   ids: seq<string>)
    requires Unrejected(w)
    ensures Unrejected(Backfill(w, cfg, budget, creates, ids))
    decreases |ids|
  {
    hide BackfillOne, Unrejected;
    if ids != [] && w.status == Running {
      BackfillOneStaysUnrejected(w, cfg, budget, creates, ids[0]);
      BackfillStaysUnrejected(BackfillOne(w, cfg, budget, creates, ids[0]), cfg, budget, creates, ids[1..]);
    }
  }

  lemma SubmitCreatesStaysUnrejected(w: World, cfg: Settings, batch: Batch<Create>)
    requires Unrejected(w)
    ensures Unrejected(SubmitCreates(w, cfg, batch))
  {
    hide RecordCreated, Backfill, CreateAll, Write, Payloads;
    var ps := Payloads(batch.items);
    SendStaysUnrejected(w, CreateAll(w.ledger, cfg.native, batch.budget, ps).0);
    var (posted, response) := PostCreates(w, cfg, batch.budget, ps);
    assert Unrejected(posted);
    hide PostCreates;
    if posted.status == Running {
      RecordCreatedStaysUnrejected(posted, cfg, batch.budget, batch.items, response.rows);
      var recorded := RecordCreated(posted, cfg, batch.budget, batch.items, response.rows);
      BackfillStaysUnrejected(CountDuplicates(recorded, |response.duplicates|), cfg, batch.budget, batch.items,
                              response.duplicates);
    }
  }

  lemma {:induction false} CreatesStayUnrejected(w: World, cfg: Settings, batches: seq<Batch<Create>>)
    requires Unrejected(w)
    ensures Unrejected(CreatesPhase(w, cfg, batches))
    decreases |batches|
  {
    hide SubmitCreates, Unrejected;
    if batches != [] && w.status == Running {
      SubmitCreatesStaysUnrejected(w, cfg, batches[0]);
      CreatesStayUnrejected(SubmitCreates(w, cfg, batches[0]), cfg, batches[1..]);
    }
  }

  // --- neither do corrections of live targets ---------------------------------------------------------------

  lemma CorrectStaysUnrejected(s: Setup, w: World, snapshot: Ledger, since: Option<int>, c: Correction)
    requires Retryable(s) && Correcting(s, w.table, w.ledger) && w.status == Running && IsCorrection(s, c)
    requires ListedAlive(snapshot, c.budget, c.txnId, since) && Unrejected(w)
    ensures Unrejected(Correct(w, c.budget, snapshot, since, c))
  {
    TargetStaysAlive(s, w.ledger, c);
    CorrectShape(w, snapshot, since, c);
    hide Retryable, Correcting, Correct, Patch, PatchFor;
    var patched := Write(w, PatchFor(w.ledger, c));
    SendStaysUnrejected(w, PatchFor(w.ledger, c));
    hide Write;
    SettleStaysUnrejected(patched, c);
  }

  lemma SettleStaysUnrejected(w: World, c: Correction)
    requires Unrejected(w)
    ensures Unrejected(Settle(w, c))
  {
    hide MarkBooked, Rekey;
  }

  lemma {:induction false} CorrectAllStaysUnrejected(s: Setup, w: World, budget: string, snapshot: Ledger,
                                                     since: Option<int>, cs: seq<Correction>)
    requires Retryable(s) && Correcting(s, w.table, w.ledger) && Unrejected(w)
    requires forall c :: c in cs ==> IsCorrection(s, c) && c.budget == budget && ListedAlive(snapshot, budget, c.txnId, since)
    ensures Unrejected(CorrectAll(w, budget, snapshot, since, cs))
    decreases |cs|
  {
    hide Retryable, Correcting, Correct, Done, DoneStays, Unrejected;
    if cs != [] && w.status == Running {
      assert cs[0] in cs;
      CorrectKeeps(s, w, snapshot, since, cs[0]);
      CorrectStaysUnrejected(s, w, snapshot, since, cs[0]);
      CorrectAllStaysUnrejected(s, Correct(w, budget, snapshot, since, cs[0]), budget, snapshot, since, cs[1..]);
    }
  }

  lemma CorrectBudgetStaysUnrejected(s: Setup, w: World, budget: string)
    requires Retryable(s) && Correcting(s, w.table, w.ledger) && w.status == Running && Unrejected(w)
    ensures Unrejected(CorrectBudget(w, s.cfg, s.cycle, budget))
  {
    var cs := CorrectionsOf(s.cycle, budget);
    var since := SinceOf(s.cfg, cs);
    ReadOnly(w);
    SendStaysUnrejected(w, w.ledger);
    CorrectionsBelong(s, budget);
    forall c | c in cs ensures ListedAlive(w.ledger, budget, c.txnId, since) {
      TargetStaysAlive(s, w.ledger, c);
    }
    hide Retryable, Correcting, CorrectionsOf, Read, Unrejected;
    CorrectAllStaysUnrejected(s, Read(w), budget, w.ledger, since, cs);
  }

  lemma {:induction false} CorrectionsStayUnrejected(s: Setup, w: World, budgets: seq<string>)
    requires Retryable(s) && Correcting(s, w.table, w.ledger) && Unrejected(w)
    ensures Unrejected(CorrectionsPhase(w, s.cfg, s.cycle, budgets))
    decreases |budgets|
  {
    hide Retryable, Correcting, CorrectionsOf, CorrectBudget, Done, DoneStays, Unrejected;
    if budgets != [] && w.status == Running {
      CorrectBudgetKeeps(s, w, budgets[0]);
      CorrectBudgetStaysUnrejected(s, w, budgets[0]);
      CorrectionsStayUnrejected(s, CorrectBudget(w, s.cfg, s.cycle, budgets[0]), budgets[1..]);
    }
  }

  // --- whole attempts ---------------------------------------------------------------------------------------

  /** With no 400 to a PATCH, an attempt on reachable stores recovers nothing. */
  lemma AttemptRecoversNothing(s: Setup, t: Try, w: World)
    requires Retryable(s) && Reachable(s, w.table, w.ledger) && BadRequest !in t.script
    ensures var start := Attempt(w.table, w.ledger, t.script, t.now);
            Recovery.SubmitFully(start, s.cfg, s.cycle, t.budgets) == Submit(start, s.cfg, s.cycle, t.budgets)
  {
    var start := Attempt(w.table, w.ledger, t.script, t.now);
    CreatesPhaseReaches(s, start);
    CreatesStayUnrejected(start, s.cfg, s.cycle.creates);
    var w1 := CreatesPhase(start, s.cfg, s.cycle.creates);
    assert s.cycle.matches == [];
    hide Retryable, Reachable, Correcting, CreatesPhase, CorrectionsPhase, Recovery.SubmitFully;
    HaltedBudgets(w1, s.cfg, s.cycle, t.budgets);
    if w1.status == Running {
      CorrectionsStayUnrejected(s, w1, t.budgets);
    }
    Recovery.SubmitIsSubmitFully(start, s.cfg, s.cycle, t.budgets);
  }

  lemma {:induction false} TriesRecoverNothing(s: Setup, w: World, tries: seq<Try>)
    requires Retryable(s) && Reachable(s, w.table, w.ledger)
    requires forall t :: t in tries ==> VisitsCorrected(s.cycle, t.budgets) && BadRequest !in t.script
    ensures AfterFullTries(s.cfg, s.cycle, w, tries) == AfterTries(s.cfg, s.cycle, w, tries)
    decreases |tries|
  {
    if tries != [] {
      var t := tries[0];
      assert t in tries;
      AttemptReaches(s, w.table, w.ledger, t.script, t.now, t.budgets);
      AttemptRecoversNothing(s, t, w);
      var w1 := Submit(Attempt(w.table, w.ledger, t.script, t.now), s.cfg, s.cycle, t.budgets);
      hide Retryable, Reachable, Submit, Recovery.SubmitFully, VisitsCorrected, Finished;
      assert forall u :: u in tries[1..] ==> u in tries;
      TriesRecoverNothing(s, w1, tries[1..]);
    }
  }

  /**
   * Convergence.RetryConvergence for the engine's submit(): whatever calls of whatever attempts fail, short of a
   * 400, the attempt that completes leaves the stores of a single one in which every call works.
   */
  lemma FullRetryConvergence(s: Setup, tries: seq<Try>, calm: Try)
    requires Retryable(s) && tries != []
    requires forall t :: t in tries ==> VisitsCorrected(s.cycle, t.budgets) && BadRequest !in t.script
    requires calm.script == [] && VisitsCorrected(s.cycle, calm.budgets)
    ensures var w := AfterFullTries(s.cfg, s.cycle, Attempt(s.table0, s.ledger0, [], 0), tries);
            var once := Recovery.SubmitFully(Attempt(s.table0, s.ledger0, [], calm.now), s.cfg, s.cycle, calm.budgets);
            && once.status == Running
            && (w.status == Running ==> w.ledger == once.ledger && SameTables(w.table, once.table))
  {
    var start := Attempt(s.table0, s.ledger0, [], 0);
    StartIsReachable(s);
    TriesRecoverNothing(s, start, tries);
    AttemptRecoversNothing(s, calm, start);
    hide Retryable, Reachable, AfterTries, AfterFullTries, VisitsCorrected, Recovery.SubmitFully;
    RetryConvergence(s, tries, calm);
  }
}
