/**
 * How corrections with their recoveries leave the rows they are for: none
 * stays PENDING unless a recovery meets a burned import_id.
 */
module RecoveryEndings {
  import opened Wrappers
  import opened Ynab
  import opened StateDb
  import opened SyncSpec
  import opened RowFacts
  import opened RowRecords
  import opened TrackedKeys
  import opened Recovery
  import opened RecoveryFacts
  import opened AttemptEffects
  import opened OwnTransactions
  import Money
  import PendingMatch

  /** What this recovery would import is new to YNAB, if it finds something to import. */
  ghost predicate FreshRecovery(w: World, cfg: Settings, budget: string, c: Correction) {
    c.oldKey in w.table ==>
      var r := w.table[c.oldKey];
      var found := Replacements(w.ledger, cfg, budget, r, c.newAmount);
      |found| == 1 ==> !Burned(w.ledger, budget, ReplacementMatch(cfg.hash, r, c, found[0]).payload.importId)
  }

  ghost predicate FreshCorrection(w: World, cfg: Settings, budget: string, snapshot: Ledger, since: Option<int>,
                                  c: Correction) {
    var w1 := Correct(w, budget, snapshot, since, c);
    w1.status == NeedsRecovery ==> FreshRecovery(w1.(status := Running), cfg, budget, c)
  }

  ghost predicate FreshAll(w: World, cfg: Settings, budget: string, snapshot: Ledger, since: Option<int>,
                           cs: seq<Correction>)
    decreases |cs|
  {
    cs != [] && w.status == Running ==>
      && FreshCorrection(w, cfg, budget, snapshot, since, cs[0])
      && FreshAll(CorrectFully(w, cfg, budget, snapshot, since, cs[0]), cfg, budget, snapshot, since, cs[1..])
  }

  ghost predicate FreshBudget(w: World, cfg: Settings, cycle: Cycle, budget: string) {
    var cs := CorrectionsOf(cycle, budget);
    FreshAll(Read(w), cfg, budget, w.ledger, SinceOf(cfg, cs), cs)
  }

  /** No recovery of the attempt meets a burned import_id. */
  ghost predicate FreshPhase(w: World, cfg: Settings, cycle: Cycle, budgets: seq<string>)
    decreases |budgets|
  {
    budgets != [] && w.status == Running ==>
      && FreshBudget(w, cfg, cycle, budgets[0])
      && FreshPhase(CorrectBudgetFully(w, cfg, cycle, budgets[0]), cfg, cycle, budgets[1..])
  }

  // --- attempts that recover nothing ------------------------------------------------------------------------------

  lemma {:induction false} NothingMissedAll(w: World, cfg: Settings, budget: string, snapshot: Ledger,
                                            since: Option<int>,
                                            cs: seq<Correction>)
    requires CorrectAll(w, budget, snapshot, since, cs).status != NeedsRecovery
    ensures FreshAll(w, cfg, budget, snapshot, since, cs)
    decreases |cs|
  {
    hide Correct, RecoverMissing, FreshRecovery;
    if cs != [] && w.status == Running {
      var w1 := Correct(w, budget, snapshot, since, cs[0]);
      assert w1.status != Running ==> CorrectAll(w1, budget, snapshot, since, cs[1..]) == w1;
      NothingMissedAll(w1, cfg, budget, snapshot, since, cs[1..]);
    }
  }

  /** An attempt that misses no target meets no burned import_id in a recovery. */
  lemma {:induction false} NothingMissed(w: World, cfg: Settings, cycle: Cycle, budgets: seq<string>)
    requires CorrectionsPhase(w, cfg, cycle, budgets).status != NeedsRecovery
    ensures FreshPhase(w, cfg, cycle, budgets)
    decreases |budgets|
  {
    if budgets != [] && w.status == Running {
      var cs := CorrectionsOf(cycle, budgets[0]);
      var w1 := CorrectBudget(w, cfg, cycle, budgets[0]);
      hide CorrectAll, CorrectAllFully, FreshAll, CorrectionsOf, Read;
      assert w1.status != Running ==> CorrectionsPhase(w1, cfg, cycle, budgets[1..]) == w1;
      if Read(w).status == Running {
        CorrectAllAgrees(Read(w), cfg, budgets[0], w.ledger, SinceOf(cfg, cs), cs);
        NothingMissedAll(Read(w), cfg, budgets[0], w.ledger, SinceOf(cfg, cs), cs);
      } else {
        NotRunningIsFresh(Read(w), cfg, budgets[0], w.ledger, SinceOf(cfg, cs), cs);
      }
      hide CorrectBudget, CorrectBudgetFully;
      NothingMissed(w1, cfg, cycle, budgets[1..]);
    }
  }

  lemma NotRunningIsFresh(w: World, cfg: Settings, budget: string, snapshot: Ledger, since: Option<int>,
                          cs: seq<Correction>)
    requires w.status != Running
    ensures FreshAll(w, cfg, budget, snapshot, since, cs)
  {
  }

  // --- one recovery -----------------------------------------------------------------------------------------------

  ghost function NotPendingAt(key: string): RowProperty {
    (k: string, r: Row) => k == key ==> r.facts.status != Pending
  }

  lemma FinishSettles(w: World, budget: string, m: ManualMatch, shadowId: nat)
    requires AllAgree(w.table) && m.status == Booked
    ensures var w' := FinishNative(w, budget, m); AllRows(w'.table, NotPendingAt(m.trackingKey))
    ensures var w' := FinishFallback(w, budget, m, shadowId); AllRows(w'.table, NotPendingAt(m.trackingKey))
  {
    var native, fallback := MatchFacts(budget, m, m.originalId), MatchFacts(budget, m, shadowId);
    RecordSettles(CountUpdated(w), m.trackingKey, native);
    RecordSettles(w, m.trackingKey, fallback);
    DeleteKeepsTable(CountCreated(Record(w, m.trackingKey, fallback)), budget, m.originalId);
    hide AllRows, MatchFacts, Record, DeleteOriginal, Patch;
    assert native.status == Booked by { MatchFactsStatus(budget, m, m.originalId); }
  }

  lemma MatchFactsStatus(budget: string, m: ManualMatch, id: nat)
    ensures MatchFacts(budget, m, id).status == m.status
  {
  }

  lemma RecordSettles(w: World, key: string, facts: Facts)
    requires AllAgree(w.table) && facts.status != Pending
    ensures AllRows(Record(w, key, facts).table, NotPendingAt(key))
  {
    hide Money.ToMilliunits;
  }

  lemma SettledStays(budget: string, m: ManualMatch, now: int, key: string)
    requires m.status == Booked
    ensures MatchesHave(budget, [m], now, NotPendingAt(key))
  {
    hide Money.ToMilliunits, Money.FromMilliunits;
  }

  /** The answer comes first, and is recorded as BOOKED. */
  lemma AnswerSettles(w: World, budget: string, m: ManualMatch, rows: seq<Reported>)
    requires w.status == Running && AllAgree(w.table) && m.status == Booked
    requires rows != [] && rows[0].importId == Some(m.payload.importId)
    ensures RowsHave(MatchRows(w, budget, [m], rows), w.now, NotPendingAt(m.trackingKey))
  {
    FinishSettles(w, budget, m, rows[0].id);
    FindsIt(m);
    SettledStays(budget, m, w.now, m.trackingKey);
    var w1 := MatchRow(w, budget, [m], rows[0]);
    assert w1.now == w.now;
    hide FinishNative, FinishFallback, AllRows, MatchesHave, FindMatch;
    assert AllRows(w1.table, NotPendingAt(m.trackingKey));
    hide MatchRow;
    MatchRowsKeep(w1, budget, [m], rows[1..], w.now, NotPendingAt(m.trackingKey));
  }

  lemma FindsIt(m: ManualMatch)
    ensures FindMatch([m], m.payload.importId) == Some(m)
  {
  }

  lemma OnePosted(w: World, cfg: Settings, budget: string, p: Payload)
    requires PostCreates(w, cfg, budget, [p]).0.status == Running
    ensures var (posted, r) := PostCreates(w, cfg, budget, [p]);
            && posted.table == w.table && posted.now == w.now && w.status == Running
            && (Burned(w.ledger, budget, p.importId) ==> r == Response([], [p.importId]))
            && (!Burned(w.ledger, budget, p.importId) ==> r.rows != [] && r.rows[0].importId == Some(p.importId))
  {
    AnsweredPost(w, cfg, budget, [p]);
    CreateOneAnswersFirst(w.ledger, cfg.native, budget, p);
    hide CreateOne, PostCreates, Burned;
    var (l1, r1) := CreateOne(w.ledger, cfg.native, budget, p);
    assert [p][1..] == [];
    assert CreateAll(l1, cfg.native, budget, []) == (l1, Response([], []));
    assert CreateAll(w.ledger, cfg.native, budget, [p]) == (l1, Response(r1.rows + [], r1.duplicates + []));
    assert r1.rows + [] == r1.rows && r1.duplicates + [] == r1.duplicates;
  }

  lemma OneMatchPayload(m: ManualMatch)
    ensures MatchPayloads([m]) == [m.payload]
  {
  }

  lemma MatchCut(w: World, cfg: Settings, budget: string, m: ManualMatch)
    requires SubmitMatches(w, cfg, Batch(budget, [m])).status == Running
    ensures var (posted, r) := PostCreates(w, cfg, budget, MatchPayloads([m]));
            var recorded := MatchRows(posted, budget, [m], r.rows);
            && posted.status == recorded.status == Running
            && SubmitMatches(w, cfg, Batch(budget, [m])) == MatchDuplicates(recorded, cfg, budget, [m], r.duplicates)
  {
    hide PostCreates, MatchRows, MatchDuplicates, MatchPayloads;
  }

  lemma BurnedMatchEnding(w: World, cfg: Settings, budget: string, m: ManualMatch)
    requires m.trackingKey in w.table && Burned(w.ledger, budget, m.payload.importId)
    requires SubmitMatches(w, cfg, Batch(budget, [m])).status == Running
    ensures SubmitMatches(w, cfg, Batch(budget, [m])).table == w.table
  {
    var (posted, r) := PostCreates(w, cfg, budget, MatchPayloads([m]));
    OneMatchPayload(m);
    MatchCut(w, cfg, budget, m);
    hide SubmitMatches, PostCreates, MatchRows, MatchDuplicates, MatchPayloads, Burned;
    OnePosted(w, cfg, budget, m.payload);
    NoRows(posted, budget, m);
    assert KeysTracked([m], posted.table);
    TrackedDuplicates(posted, cfg, budget, [m], r.duplicates);
  }

  lemma NewMatchEnding(w: World, cfg: Settings, budget: string, m: ManualMatch)
    requires AllAgree(w.table) && m.status == Booked && !Burned(w.ledger, budget, m.payload.importId)
    requires SubmitMatches(w, cfg, Batch(budget, [m])).status == Running
    ensures AllRows(SubmitMatches(w, cfg, Batch(budget, [m])).table, NotPendingAt(m.trackingKey))
  {
    var (posted, r) := PostCreates(w, cfg, budget, MatchPayloads([m]));
    var recorded := MatchRows(posted, budget, [m], r.rows);
    OneMatchPayload(m);
    MatchCut(w, cfg, budget, m);
    hide SubmitMatches, PostCreates, MatchRows, MatchDuplicates, MatchPayloads, AllRows, AllAgree, Burned, MatchesHave;
    OnePosted(w, cfg, budget, m.payload);
    AnswerSettles(posted, budget, m, r.rows);
    SettledStays(budget, m, w.now, m.trackingKey);
    MatchDuplicatesKeep(recorded, cfg, budget, [m], r.duplicates, w.now, NotPendingAt(m.trackingKey));
  }

  /** A match of a tracked key that goes through: the row is BOOKED, or untouched if the import_id was burned. */
  lemma MatchEnding(w: World, cfg: Settings, budget: string, m: ManualMatch)
    requires AllAgree(w.table) && m.status == Booked && m.trackingKey in w.table
    requires SubmitMatches(w, cfg, Batch(budget, [m])).status == Running
    ensures var w' := SubmitMatches(w, cfg, Batch(budget, [m]));
            && (Burned(w.ledger, budget, m.payload.importId) ==> w'.table == w.table)
            && (!Burned(w.ledger, budget, m.payload.importId) ==> AllRows(w'.table, NotPendingAt(m.trackingKey)))
  {
    hide SubmitMatches, Burned, AllRows, AllAgree;
    if Burned(w.ledger, budget, m.payload.importId) {
      BurnedMatchEnding(w, cfg, budget, m);
    } else {
      NewMatchEnding(w, cfg, budget, m);
    }
  }

  lemma NoRows(w: World, budget: string, m: ManualMatch)
    ensures MatchRows(w, budget, [m], []) == w
  {
  }

  /**
   * A recovery that goes through and finds one transaction to stand for the target leaves a PENDING row PENDING if
   * and only if the import_id of that replacement was burned before.
   */
  lemma LeftPendingIffBurned(w: World, cfg: Settings, budget: string, c: Correction)
    requires c.Update? && AllAgree(w.table) && c.oldKey in w.table && w.table[c.oldKey].facts.status == Pending
    requires RecoverMissing(w, cfg, budget, c).status == Running
    requires |Replacements(w.ledger, cfg, budget, w.table[c.oldKey], c.newAmount)| == 1
    ensures var w' := RecoverMissing(w, cfg, budget, c);
            var found := Replacements(w.ledger, cfg, budget, w.table[c.oldKey], c.newAmount);
            var m := ReplacementMatch(cfg.hash, w.table[c.oldKey], c, found[0]);
            c.oldKey in w'.table && w'.table[c.oldKey].facts.status == Pending
            <==> Burned(w.ledger, budget, m.payload.importId)
  {
    var r := w.table[c.oldKey];
    var found := Replacements(w.ledger, cfg, budget, r, c.newAmount);
    var m := ReplacementMatch(cfg.hash, r, c, found[0]);
    ReplacementOriginal(cfg, r, c, found[0]);
    ReplacementKey(cfg, r, c, found[0]);
    ReadKeepsStores(w);
    hide Replacements, ReplacementMatch, SubmitMatches, AllRows, AllAgree, Read, Burned;
    MatchEnding(Read(w), cfg, budget, m);
    if FreshRecovery(w, cfg, budget, c) {
      RowHas(RecoverMissing(w, cfg, budget, c).table, c.oldKey, NotPendingAt(c.oldKey));
    }
  }

  lemma ReplacementKey(cfg: Settings, r: Row, c: Correction, x: PendingMatch.ManualCandidate)
    ensures ReplacementMatch(cfg.hash, r, c, x).trackingKey == FinalKey(c)
  {
    hide ReevalId;
  }

  /** One that is not, or finds none, leaves no row PENDING that it was for. */
  lemma RecoverySettles(w: World, cfg: Settings, budget: string, c: Correction)
    requires c.Update? && AllAgree(w.table) && FreshRecovery(w, cfg, budget, c)
    requires RecoverMissing(w, cfg, budget, c).status == Running
    ensures AllRows(RecoverMissing(w, cfg, budget, c).table, NotPendingAt(c.oldKey))
  {
    var r := w.table[c.oldKey];
    var found := Replacements(w.ledger, cfg, budget, r, c.newAmount);
    ReadKeepsStores(w);
    assert GoneFacts(r, budget, c).status == Deleted;
    hide Replacements, ReplacementMatch, SubmitMatches, AllRows, AllAgree, Read, Burned, GoneFacts, Record;
    if |found| == 1 {
      ReplacementOriginal(cfg, r, c, found[0]);
      ReplacementKey(cfg, r, c, found[0]);
      MatchEnding(Read(w), cfg, budget, ReplacementMatch(cfg.hash, r, c, found[0]));
    } else {
      RecordSettles(Read(w), c.oldKey, GoneFacts(r, budget, c));
    }
  }

  // --- all corrections ----------------------------------------------------------------------------------------------

  lemma NotPendingSurvives(key: string, now: int)
    ensures forall c: Correction :: c.Update? ==> SettlingKeeps(c, NotPendingAt(key))
    ensures forall c: Correction, b :: c.Update? ==> RecoveryKeeps(c, b, now, NotPendingAt(key))
  {
    hide Money.ToMilliunits;
  }

  lemma AgreeFully(w: World, cfg: Settings, budget: string, snapshot: Ledger, since: Option<int>, c: Correction)
    requires AllAgree(w.table)
    ensures AllAgree(CorrectFully(w, cfg, budget, snapshot, since, c).table)
  {
    var any: RowProperty := (k, r) => true;
    hide CorrectFully;
    CorrectFullyKeeps(w, cfg, budget, snapshot, since, c, w.now, any);
  }

  lemma CorrectFullySettles(w: World, cfg: Settings, budget: string, snapshot: Ledger, since: Option<int>,
                            c: Correction)
    requires c.Update? && AllAgree(w.table) && FreshCorrection(w, cfg, budget, snapshot, since, c)
    requires CorrectFully(w, cfg, budget, snapshot, since, c).status == Running
    ensures AllRows(CorrectFully(w, cfg, budget, snapshot, since, c).table, NotPendingAt(c.oldKey))
  {
    var w1 := Correct(w, budget, snapshot, since, c);
    CorrectAgrees(w, budget, snapshot, since, c);
    hide Correct, RecoverMissing, AllRows, AllAgree, FreshRecovery;
    if w1.status == NeedsRecovery {
      RecoverySettles(w1.(status := Running), cfg, budget, c);
    } else {
      CorrectBooks(w, budget, snapshot, since, c);
      BookedIsNotPending(w1.table, c.oldKey);
    }
  }

  lemma BookedIsNotPending(t: Table, key: string)
    requires AllRows(t, BookedAt(key))
    ensures AllRows(t, NotPendingAt(key))
  {
    hide AmountsAgree;
  }

  lemma {:induction false} CorrectAllSettles(w: World, cfg: Settings, budget: string, snapshot: Ledger,
                                             since: Option<int>,
                                             cs: seq<Correction>, c: Correction)
    requires AllAgree(w.table) && c in cs && forall d :: d in cs ==> d.Update?
    requires FreshAll(w, cfg, budget, snapshot, since, cs)
    requires CorrectAllFully(w, cfg, budget, snapshot, since, cs).status == Running
    ensures AllRows(CorrectAllFully(w, cfg, budget, snapshot, since, cs).table, NotPendingAt(c.oldKey))
    decreases |cs|
  {
    hide AllRows, AllAgree, CorrectFully, FreshCorrection, SettlingKeeps, RecoveryKeeps;
    var w1 := CorrectFully(w, cfg, budget, snapshot, since, cs[0]);
    assert cs[0] in cs && forall d :: d in cs[1..] ==> d in cs;
    HaltedAllFully(w1, cfg, budget, snapshot, since, cs[1..]);
    AgreeFully(w, cfg, budget, snapshot, since, cs[0]);
    if c == cs[0] {
      CorrectFullySettles(w, cfg, budget, snapshot, since, c);
      NotPendingSurvives(c.oldKey, w1.now);
      CorrectAllFullyKeeps(w1, cfg, budget, snapshot, since, cs[1..], w1.now, NotPendingAt(c.oldKey));
    } else {
      CorrectAllSettles(w1, cfg, budget, snapshot, since, cs[1..], c);
    }
  }

  lemma HaltedAllFully(w: World, cfg: Settings, budget: string, snapshot: Ledger, since: Option<int>,
                       cs: seq<Correction>)
    ensures w.status != Running ==> CorrectAllFully(w, cfg, budget, snapshot, since, cs) == w
  {
  }

  lemma HaltedPhaseFully(w: World, cfg: Settings, cycle: Cycle, budgets: seq<string>)
    ensures w.status != Running ==> CorrectionsPhaseFully(w, cfg, cycle, budgets) == w
  {
  }

  lemma BudgetSettles(w: World, cfg: Settings, cycle: Cycle, budget: string, c: Correction)
    requires AllAgree(w.table) && FreshBudget(w, cfg, cycle, budget)
    requires CorrectBudgetFully(w, cfg, cycle, budget).status == Running
    requires forall d :: d in CorrectionsOf(cycle, budget) ==> d.Update?
    ensures AllAgree(CorrectBudgetFully(w, cfg, cycle, budget).table)
    ensures c in CorrectionsOf(cycle, budget) ==>
        AllRows(CorrectBudgetFully(w, cfg, cycle, budget).table, NotPendingAt(c.oldKey))
  {
    var cs, read := CorrectionsOf(cycle, budget), Read(w);
    var any: RowProperty := (k, r) => true;
    ReadKeepsStores(w);
    hide CorrectionsOf, CorrectAllFully, Read, FreshAll;
    assert RowsHave(read, w.now, any);
    CorrectAllFullyKeeps(read, cfg, budget, w.ledger, SinceOf(cfg, cs), cs, w.now, any);
    hide AllRows;
    if c in cs {
      CorrectAllSettles(read, cfg, budget, w.ledger, SinceOf(cfg, cs), cs, c);
    }
  }

  /** After an attempt that goes through and meets no burned import_id, no row it corrected is PENDING. */
  lemma {:induction false} CorrectionsSettle(w: World, cfg: Settings, cycle: Cycle, budgets: seq<string>, b: string,
                                             c: Correction)
    requires AllAgree(w.table) && b in budgets && c in CorrectionsOf(cycle, b)
    requires forall d, e :: e in CorrectionsOf(cycle, d) ==> e.Update?
    requires FreshPhase(w, cfg, cycle, budgets) && CorrectionsPhaseFully(w, cfg, cycle, budgets).status == Running
    ensures AllRows(CorrectionsPhaseFully(w, cfg, cycle, budgets).table, NotPendingAt(c.oldKey))
    decreases |budgets|
  {
    hide AllRows, AllAgree, CorrectionsOf, CorrectBudgetFully, FreshBudget, CorrectionsKeep, RecoveriesKeep;
    var w1 := CorrectBudgetFully(w, cfg, cycle, budgets[0]);
    HaltedPhaseFully(w1, cfg, cycle, budgets[1..]);
    BudgetSettles(w, cfg, cycle, budgets[0], c);
    if b == budgets[0] {
      NotPendingKept(cycle, c.oldKey, w1.now);
      CorrectionsPhaseFullyKeeps(w1, cfg, cycle, budgets[1..], w1.now, NotPendingAt(c.oldKey));
    } else {
      CorrectionsSettle(w1, cfg, cycle, budgets[1..], b, c);
    }
  }

  lemma NotPendingKept(cycle: Cycle, key: string, now: int)
    requires forall d, e :: e in CorrectionsOf(cycle, d) ==> e.Update?
    ensures CorrectionsKeep(cycle, NotPendingAt(key)) && RecoveriesKeep(cycle, now, NotPendingAt(key))
  {
    NotPendingSurvives(key, now);
    hide CorrectionsOf, RecoveryKeeps, NotPendingAt;
    forall b, c | c in CorrectionsOf(cycle, b)
      ensures RecoveryKeeps(c, b, now, NotPendingAt(key)) && SettlingKeeps(c, NotPendingAt(key))
    {
      assert c.Update?;
    }
  }
}
