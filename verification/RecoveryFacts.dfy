/**
 * Facts about tracked rows that survive submit() with its recoveries, and
 * what a recovery leaves of the identities in YNAB, on any script.
 */
module RecoveryFacts {
  import opened Wrappers
  import opened Ynab
  import opened StateDb
  import opened SyncSpec
  import opened Creation
  import opened Frames
  import opened RowFacts
  import opened Recovery
  import opened Sequences
  import DateWindow
  import Money
  import PendingMatch

  // --- rows -------------------------------------------------------------------------------------------------

  /** A recovery records the account and the payee of the row it is for, and the amount of the correction. */
  ghost predicate StandsFor(facts: Facts, before: Facts, budget: string, c: Correction) {
    && facts.accountKey == before.accountKey && facts.ynabAccount == before.ynabAccount && facts.payee == before.payee
    && facts.budget == budget && Money.ToMilliunits(facts.amount) == Money.ToMilliunits(c.newAmount)
  }

  /** A row that is given up keeps everything else. */
  ghost predicate GivenUp(facts: Facts, before: Facts, c: Correction) {
    && facts.status == Deleted && facts.txnId == c.txnId && facts.amount == c.newAmount
    && facts.importId == before.importId && facts.date == before.date && facts.cleared == before.cleared
  }

  /** A row given up under its own key, or BOOKED and cleared under the final one, has the property. */
  ghost predicate RecoveryKeeps(c: Correction, budget: string, now: int, has: RowProperty) {
    forall r: Row, facts: Facts :: has(c.oldKey, r) && StandsFor(facts, r.facts, budget, c) ==>
      && (GivenUp(facts, r.facts, c) ==> RecordingKeeps(now, c.oldKey, facts, has))
      && (facts.status == Booked && facts.cleared == Cleared ==> RecordingKeeps(now, FinalKey(c), facts, has))
  }

  ghost predicate RecoveriesKeep(cycle: Cycle, now: int, has: RowProperty) {
    forall b, c :: c in CorrectionsOf(cycle, b) ==> RecoveryKeeps(c, b, now, has)
  }

  lemma SubmitMatchesKeeps(w: World, cfg: Settings, batch: Batch<ManualMatch>, now: int, has: RowProperty)
    requires RowsHave(w, now, has)
    requires PostCreates(w, cfg, batch.budget, MatchPayloads(batch.items)).0.status == Running ==>
        MatchesHave(batch.budget, batch.items, now, has)
    ensures RowsHave(SubmitMatches(w, cfg, batch), now, has)
  {
    hide AllRows, MatchesHave, PostCreates, MatchRows, MatchDuplicates, MatchPayloads;
    var (posted, response) := PostCreates(w, cfg, batch.budget, MatchPayloads(batch.items));
    PostKeepsTable(w, cfg, batch.budget, MatchPayloads(batch.items));
    if posted.status == Running {
      MatchRowsKeep(posted, batch.budget, batch.items, response.rows, now, has);
      MatchDuplicatesKeep(MatchRows(posted, batch.budget, batch.items, response.rows), cfg, batch.budget, batch.items,
                          response.duplicates, now, has);
    }
  }

  lemma ReplacementHas(budget: string, hash: ImportIds.Hasher, r: Row, c: Correction, x: PendingMatch.ManualCandidate,
                       now: int, has: RowProperty)
    requires RecoveryKeeps(c, budget, now, has) && has(c.oldKey, r) && x.amount == Money.ToMilliunits(c.newAmount)
    ensures MatchesHave(budget, [ReplacementMatch(hash, r, c, x)], now, has)
  {
    Money.MilliunitsRoundTrip(x.amount);
    hide RecordingKeeps, Money.FromMilliunits, Money.ToMilliunits, ReevalId;
    var m := ReplacementMatch(hash, r, c, x);
    forall txnId ensures RecordingKeeps(now, m.trackingKey, MatchFacts(budget, m, txnId), has) {
      var facts := MatchFacts(budget, m, txnId);
      assert facts.status == Booked && facts.cleared == Cleared;
      assert StandsFor(facts, r.facts, budget, c);
    }
  }

  lemma GoneHas(budget: string, r: Row, c: Correction, now: int, has: RowProperty)
    requires RecoveryKeeps(c, budget, now, has) && has(c.oldKey, r)
    ensures RecordingKeeps(now, c.oldKey, GoneFacts(r, budget, c), has)
  {
    hide RecordingKeeps, Money.ToMilliunits;
    var facts := GoneFacts(r, budget, c);
    assert StandsFor(facts, r.facts, budget, c) && GivenUp(facts, r.facts, c);
  }

  /** What may stand for a row has the amount of the correction. */
  lemma ReplacementFits(l: Ledger, cfg: Settings, budget: string, r: Row, newAmount: real)
    ensures forall x :: x in Replacements(l, cfg, budget, r, newAmount) ==> x.amount == Money.ToMilliunits(newAmount)
  {
    hide ListUnimported, Money.ToMilliunits, DateWindow.DaysBetween;
    var since := DateWindow.SinceDateBound(r.facts.date, cfg.backfillDays);
    var listed := ListUnimported(l, budget, r.facts.ynabAccount, since);
    FilterMembers(listed, (x: PendingMatch.ManualCandidate) => FitsRow(cfg, r, Money.ToMilliunits(newAmount), x));
  }

  /** A recovery stops at once, gives the row up, or submits one match. */
  lemma RecoverMissingShape(w: World, cfg: Settings, budget: string, c: Correction)
    ensures c.oldKey !in w.table ==> RecoverMissing(w, cfg, budget, c) == Halt(w, DbFailed)
    ensures c.oldKey in w.table ==> var r := w.table[c.oldKey];
            var found := Replacements(w.ledger, cfg, budget, r, c.newAmount);
            var w' := RecoverMissing(w, cfg, budget, c);
            || w' == Read(w)
            || w' == CountDeleted(Record(Read(w), c.oldKey, GoneFacts(r, budget, c)))
            || (|found| == 1 && Read(w).status == Running
                && w' == SubmitMatches(Read(w), cfg, Batch(budget, [ReplacementMatch(cfg.hash, r, c, found[0])])))
  {
    hide Replacements, Read, Record, GoneFacts, ReplacementMatch, SubmitMatches;
  }

  lemma RecoverMissingKeeps(w: World, cfg: Settings, budget: string, c: Correction, now: int, has: RowProperty)
    requires RowsHave(w, now, has) && RecoveryKeeps(c, budget, now, has)
    ensures RowsHave(RecoverMissing(w, cfg, budget, c), now, has)
  {
    if c.oldKey in w.table {
      var r := w.table[c.oldKey];
      var found := Replacements(w.ledger, cfg, budget, r, c.newAmount);
      CallsKeepTable(w, w.ledger);
      RowHas(w.table, c.oldKey, has);
      RecoverMissingShape(w, cfg, budget, c);
      ReplacementFits(w.ledger, cfg, budget, r, c.newAmount);
      GoneHas(budget, r, c, now, has);
      hide AllRows, Replacements, Read, Record, GoneFacts, ReplacementMatch, SubmitMatches, MatchesHave, RecoverMissing;
      hide RecordingKeeps, RecoveryKeeps;
      RecordKeeps(Read(w), c.oldKey, GoneFacts(r, budget, c), now, has);
      if |found| == 1 {
        ReplacementHas(budget, cfg.hash, r, c, found[0], now, has);
        SubmitMatchesKeeps(Read(w), cfg, Batch(budget, [ReplacementMatch(cfg.hash, r, c, found[0])]), now, has);
      }
    }
  }

  lemma CorrectFullyKeeps(w: World, cfg: Settings, budget: string, snapshot: Ledger, since: Option<int>, c: Correction,
                          now: int, has: RowProperty)
    requires RowsHave(w, now, has) && SettlingKeeps(c, has) && RecoveryKeeps(c, budget, now, has)
    ensures RowsHave(CorrectFully(w, cfg, budget, snapshot, since, c), now, has)
  {
    hide AllRows, SettlingKeeps, RecoveryKeeps, Correct, RecoverMissing;
    CorrectKeeps(w, budget, snapshot, since, c, now, has);
    RecoverMissingKeeps(Correct(w, budget, snapshot, since, c).(status := Running), cfg, budget, c, now, has);
  }

  lemma {:induction false} CorrectAllFullyKeeps(w: World, cfg: Settings, budget: string, snapshot: Ledger,
                                                since: Option<int>, cs: seq<Correction>, now: int, has: RowProperty)
    requires RowsHave(w, now, has)
    requires forall c :: c in cs ==> SettlingKeeps(c, has) && RecoveryKeeps(c, budget, now, has)
    ensures RowsHave(CorrectAllFully(w, cfg, budget, snapshot, since, cs), now, has)
    decreases |cs|
  {
    hide AllRows, SettlingKeeps, RecoveryKeeps, CorrectFully;
    if cs != [] && w.status == Running {
      CorrectFullyKeeps(w, cfg, budget, snapshot, since, cs[0], now, has);
      CorrectAllFullyKeeps(CorrectFully(w, cfg, budget, snapshot, since, cs[0]), cfg, budget, snapshot, since, cs[1..],
                           now, has);
    }
  }

  lemma {:induction false} CorrectionsPhaseFullyKeeps(w: World, cfg: Settings, cycle: Cycle, budgets: seq<string>,
                                                      now: int, has: RowProperty)
    requires RowsHave(w, now, has) && CorrectionsKeep(cycle, has) && RecoveriesKeep(cycle, now, has)
    ensures RowsHave(CorrectionsPhaseFully(w, cfg, cycle, budgets), now, has)
    decreases |budgets|
  {
    hide AllRows, SettlingKeeps, RecoveryKeeps, CorrectAllFully, Read;
    if budgets != [] && w.status == Running {
      var cs := CorrectionsOf(cycle, budgets[0]);
      CallsKeepTable(w, w.ledger);
      CorrectAllFullyKeeps(Read(w), cfg, budgets[0], w.ledger, SinceOf(cfg, cs), cs, now, has);
      CorrectionsPhaseFullyKeeps(CorrectBudgetFully(w, cfg, cycle, budgets[0]), cfg, cycle, budgets[1..], now, has);
    }
  }

  /** Any attempt of the engine on any script. */
  lemma SubmitFullyKeeps(w: World, cfg: Settings, cycle: Cycle, budgets: seq<string>, now: int, has: RowProperty)
    requires RowsHave(w, now, has) && CorrectionsKeep(cycle, has) && RecoveriesKeep(cycle, now, has)
    requires forall b :: b in cycle.creates ==> CreatesHave(cfg, b.budget, b.items, now, has)
    requires forall b :: b in cycle.matches ==> MatchesHave(b.budget, b.items, now, has)
    ensures RowsHave(SubmitFully(w, cfg, cycle, budgets), now, has)
  {
    hide AllRows, CreatesHave, MatchesHave, CorrectionsKeep, RecoveriesKeep, CreatesPhase, CorrectionsPhaseFully,
         MatchesPhase;
    CreatesPhaseKeeps(w, cfg, cycle.creates, now, has);
    var w1 := CreatesPhase(w, cfg, cycle.creates);
    CorrectionsPhaseFullyKeeps(w1, cfg, cycle, budgets, now, has);
    MatchesPhaseKeeps(CorrectionsPhaseFully(w1, cfg, cycle, budgets), cfg, cycle.matches, now, has);
  }

  lemma RecoveriesAgree(cycle: Cycle, now: int)
    ensures RecoveriesKeep(cycle, now, Agreeing())
  {
    hide CorrectionsOf, Money.ToMilliunits;
  }

  /** PENDING rows are the uncleared ones, after any attempt at a cycle with fitting flags. */
  lemma SubmitKeepsConsistent(w: World, cfg: Settings, cycle: Cycle, budgets: seq<string>)
    requires Consistent(w.table) && FlagsFit(cycle)
    ensures Consistent(SubmitFully(w, cfg, cycle, budgets).table)
  {
    ConsistentMeansAgreeing(w.table);
    ConsistentMeansAgreeing(SubmitFully(w, cfg, cycle, budgets).table);
    SettlingAgrees(cycle);
    RecoveriesAgree(cycle, w.now);
    FlagsAgree(cfg, cycle, w.now);
    hide SubmitFully, Consistent, CorrectionsKeep, RecoveriesKeep, CreatesHave, MatchesHave, AllRows, Agreeing, FlagsFit;
    SubmitFullyKeeps(w, cfg, cycle, budgets, w.now, Agreeing());
  }

  // --- identities -------------------------------------------------------------------------------------------

  /** No transaction more or less, and each with the identity it had. */
  ghost predicate SameIds(l: Ledger, l': Ledger) {
    |l| == |l'| && forall i :: 0 <= i < |l| ==> SameIdentity(l[i], l'[i])
  }

  lemma SameIdsTransitive(l: Ledger, l1: Ledger, l2: Ledger)
    requires SameIds(l, l1) && SameIds(l1, l2)
    ensures SameIds(l, l2)
  {
    forall i | 0 <= i < |l| ensures SameIdentity(l[i], l2[i]) {
      assert SameIdentity(l[i], l1[i]) && SameIdentity(l1[i], l2[i]);
    }
  }

  lemma EditsKeepIds(l: Ledger, budget: string, id: nat)
    ensures SameIds(l, l) && SameIds(l, Delete(l, budget, id)) && SameIds(l, Patch(l, budget, id, None, Uncleared))
  {
  }

  lemma SendKeepsIds(w: World, l: Ledger)
    requires SameIds(w.ledger, l)
    ensures SameIds(w.ledger, Write(w, l).ledger) && SameIds(w.ledger, WriteUnless400(w, l).ledger)
    ensures SameIds(w.ledger, Read(w).ledger) && SameIds(w.ledger, Consume(w).ledger)
  {
  }

  lemma FinishKeepsIds(w: World, budget: string, m: ManualMatch, shadowId: nat)
    ensures SameIds(w.ledger, FinishNative(w, budget, m).ledger)
    ensures SameIds(w.ledger, FinishFallback(w, budget, m, shadowId).ledger)
    ensures SameIds(w.ledger, DeleteOriginal(w, budget, m.originalId).ledger)
  {
    var native, fallback := MatchFacts(budget, m, m.originalId), MatchFacts(budget, m, shadowId);
    EditsKeepIds(w.ledger, budget, m.originalId);
    EditsKeepIds(w.ledger, native.budget, native.txnId);
    var gone := Delete(w.ledger, budget, m.originalId);
    var patch := Patch(w.ledger, native.budget, native.txnId, None, Uncleared);
    hide SameIds, MatchFacts, Delete, Patch, Upsert;
    SendKeepsIds(w, gone);
    SendKeepsIds(CountCreated(Record(w, m.trackingKey, fallback)), gone);
    SendKeepsIds(Record(CountUpdated(w), m.trackingKey, native), patch);
    hide Write, WriteUnless400;
  }
  lemma MatchRowKeepsIds(w: World, budget: string, matches: seq<ManualMatch>, row: Reported)
    ensures SameIds(w.ledger, MatchRow(w, budget, matches, row).ledger)
  {
    EditsKeepIds(w.ledger, budget, 0);
    hide SameIds, FinishNative, FinishFallback, FindMatch;
    if row.importId.Some? && FindMatch(matches, row.importId.value).Some? {
      FinishKeepsIds(w, budget, FindMatch(matches, row.importId.value).value, row.id);
    }
  }

  lemma {:induction false} MatchRowsKeepIds(w: World, budget: string, matches: seq<ManualMatch>, rows: seq<Reported>)
    ensures SameIds(w.ledger, MatchRows(w, budget, matches, rows).ledger)
    decreases |rows|
  {
    EditsKeepIds(w.ledger, budget, 0);
    hide SameIds, MatchRow;
    if rows != [] && w.status == Running {
      var w1 := MatchRow(w, budget, matches, rows[0]);
      MatchRowKeepsIds(w, budget, matches, rows[0]);
      MatchRowsKeepIds(w1, budget, matches, rows[1..]);
      SameIdsTransitive(w.ledger, w1.ledger, MatchRows(w1, budget, matches, rows[1..]).ledger);
    }
  }

  lemma MatchDuplicateKeepsIds(w: World, cfg: Settings, budget: string, matches: seq<ManualMatch>, importId: string)
    ensures SameIds(w.ledger, MatchDuplicate(w, cfg, budget, matches, importId).ledger)
  {
    hide SameIds, FinishNative, FinishFallback, FindMatch, DeleteOriginal, Read, FindByImportId;
    EditsKeepIds(w.ledger, budget, 0);
    SendKeepsIds(w, w.ledger);
    if FindMatch(matches, importId).Some? {
      var p := FindMatch(matches, importId).value;
      var since := DateWindow.SinceDateBound(p.payload.date, cfg.backfillDays);
      var shadow := FindByImportId(w.ledger, budget, p.payload.account, importId, since, cfg.shadowsListed);
      var s := if shadow.Some? then shadow.value else 0;
      FinishKeepsIds(w, budget, p, 0);
      FinishKeepsIds(Read(w), budget, p, s);
      SameIdsTransitive(w.ledger, Read(w).ledger, FinishNative(Read(w), budget, p).ledger);
      SameIdsTransitive(w.ledger, Read(w).ledger, FinishFallback(Read(w), budget, p, s).ledger);
    }
  }

  lemma {:induction false} MatchDuplicatesKeepIds(w: World, cfg: Settings, budget: string, matches: seq<ManualMatch>,
                                                  ids: seq<string>)
    ensures SameIds(w.ledger, MatchDuplicates(w, cfg, budget, matches, ids).ledger)
    decreases |ids|
  {
    EditsKeepIds(w.ledger, budget, 0);
    hide SameIds, MatchDuplicate;
    if ids != [] && w.status == Running {
      var w1 := MatchDuplicate(w, cfg, budget, matches, ids[0]);
      MatchDuplicateKeepsIds(w, cfg, budget, matches, ids[0]);
      MatchDuplicatesKeepIds(w1, cfg, budget, matches, ids[1..]);
      SameIdsTransitive(w.ledger, w1.ledger, MatchDuplicates(w1, cfg, budget, matches, ids[1..]).ledger);
    }
  }

  /** After the create, a batch of matches edits and deletes, but adds nothing. */
  lemma SubmitMatchesKeepsIds(w: World, cfg: Settings, batch: Batch<ManualMatch>)
    ensures SameIds(PostCreates(w, cfg, batch.budget, MatchPayloads(batch.items)).0.ledger,
                    SubmitMatches(w, cfg, batch).ledger)
  {
    var (posted, response) := PostCreates(w, cfg, batch.budget, MatchPayloads(batch.items));
    EditsKeepIds(posted.ledger, batch.budget, 0);
    hide SameIds, PostCreates, MatchRows, MatchDuplicates, MatchPayloads;
    if posted.status == Running {
      var recorded := MatchRows(posted, batch.budget, batch.items, response.rows);
      MatchRowsKeepIds(posted, batch.budget, batch.items, response.rows);
      MatchDuplicatesKeepIds(recorded, cfg, batch.budget, batch.items, response.duplicates);
      SameIdsTransitive(posted.ledger, recorded.ledger,
                        MatchDuplicates(recorded, cfg, batch.budget, batch.items, response.duplicates).ledger);
    }
  }
}
