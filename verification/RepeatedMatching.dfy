/**
 * A manual transaction that YNAB has matched natively keeps having no
 * import_id, so later cycles offer it as a candidate again.
 */
module RepeatedMatching {
  import opened Wrappers
  import opened Ynab
  import opened StateDb
  import opened SyncSpec
  import opened Creation
  import opened Frames
  import opened ManualReplacement
  import opened MatchFrames
  import PendingMatch

  /** The visible side of an earlier native match: it is all that shows of that bank transaction. */
  predicate NativelyMatched(l: Ledger, id: nat) { id < |l| && IsVisible(l[id]) && l[id].matched.Some? }

  ghost predicate Offered(cs: seq<PendingMatch.ManualCandidate>, id: nat) { exists c :: c in cs && c.id == id }

  /** The listing of candidates does not look at the match, so a matched original is offered like any other. */
  lemma {:induction false} MatchedStaysOffered(l: Ledger, budget: string, account: string, since: int, from: nat, id: nat)
    requires from <= id < |l| && l[id].budget == budget && l[id].account == account && l[id].date >= since
    requires IsVisible(l[id])
    ensures Offered(ListUnimported(l, budget, account, since, from), id) <==> l[id].importId.None?
    decreases |l| - from
  {
    if from < id {
      MatchedStaysOffered(l, budget, account, since, from + 1, id);
      var rest, all := ListUnimported(l, budget, account, since, from + 1), ListUnimported(l, budget, account, since, from);
      assert all == rest || (all[0].id == from && all == [all[0]] + rest);
      assert forall c :: c in all && c.id == id ==> c in rest;
      assert forall c :: c in rest ==> c in all;
    } else {
      LaterIds(l, budget, account, since, from + 1);
      var all := ListUnimported(l, budget, account, since, from);
      assert l[id].importId.None? ==> all[0].id == id && all[0] in all;
    }
  }

  lemma {:induction false} LaterIds(l: Ledger, budget: string, account: string, since: int, from: nat)
    requires from <= |l|
    ensures forall c :: c in ListUnimported(l, budget, account, since, from) ==> c.id >= from
    decreases |l| - from
  {
    if from < |l| {
      LaterIds(l, budget, account, since, from + 1);
    }
  }

  // --- a whole cycle, with any attempts -----------------------------------------------------------------

  ghost predicate MatchedStayVisible(l: Ledger, l': Ledger) {
    forall id: nat :: NativelyMatched(l, id) ==> Visible(l', id)
  }

  /** No replacement of this cycle has been imported yet. */
  ghost predicate Unimported(cycle: Cycle, l: Ledger) {
    forall b, m :: IsMatch(cycle, b, m) ==> !Burned(l, b, m.payload.importId)
  }

  /** What an attempt leaves alone: all but the originals, and all rows but its own. */
  ghost predicate Leaves(cfg: Settings, cycle: Cycle, keys: iset<string>, w: World, w': World) {
    && LedgerSpares(cfg, cycle, w.ledger, w'.ledger)
    && forall k :: k !in keys && !IsMatchKey(cycle, k) ==> SameRowAt(w.table, w'.table, k)
  }

  lemma LeavesTransitive(cfg: Settings, cycle: Cycle, keys: iset<string>, w: World, w1: World, w2: World)
    requires Leaves(cfg, cycle, keys, w, w1) && Leaves(cfg, cycle, keys, w1, w2)
    ensures Leaves(cfg, cycle, keys, w, w2)
  {
    LedgerSparesTransitive(cfg, cycle, w.ledger, w1.ledger, w2.ledger);
    hide LedgerSpares, IsMatchKey;
    forall k | k !in keys && !IsMatchKey(cycle, k) ensures SameRowAt(w.table, w2.table, k) {
      assert SameRowAt(w.table, w1.table, k) && SameRowAt(w1.table, w2.table, k);
    }
  }

  /** The first two phases touch nothing that belongs to a match. */
  lemma QuietLeaves(cfg: Settings, cycle: Cycle, keys: iset<string>, ids: iset<string>, w: World, w': World)
    requires Quiet(w, w', keys, ids)
    requires forall b, m :: IsMatch(cycle, b, m) ==> m.payload.importId !in ids
    ensures Leaves(cfg, cycle, keys, w, w')
  {
    hide Rematching, Focused, DistinctMatches, IsOriginal, UniqueIds, AllManual, IsMatchKey;
    forall b, m | IsMatch(cycle, b, m) && Rematching(w.ledger, b, m) ensures Rematching(w'.ledger, b, m) {
      RematchingStays(w.ledger, w'.ledger, b, m);
    }
  }

  lemma AttemptLeaves(cfg: Settings, cycle: Cycle, w: World, budgets: seq<string>, keys: iset<string>, ids: iset<string>)
    requires Separate(cycle, keys, ids)
    ensures Leaves(cfg, cycle, keys, w, Submit(w, cfg, cycle, budgets))
  {
    var w1 := CreatesPhase(w, cfg, cycle.creates);
    var w2 := CorrectionsPhase(w1, cfg, cycle, budgets);
    CreatesPhaseIsQuiet(w, cfg, cycle.creates, keys, ids);
    CorrectionsPhaseIsQuiet(w1, cfg, cycle, budgets, keys, ids);
    assert cycle.matches[0..] == cycle.matches;
    MatchesPhaseSpares(cfg, cycle, w2, 0);
    hide CreatesPhase, CorrectionsPhase, MatchesPhase, Quiet, LedgerSpares, IsMatchKey, IsMatch;
    QuietLeaves(cfg, cycle, keys, ids, w, w1);
    QuietLeaves(cfg, cycle, keys, ids, w1, w2);
    LeavesTransitive(cfg, cycle, keys, w, w1, w2);
    LeavesTransitive(cfg, cycle, keys, w, w2, Submit(w, cfg, cycle, budgets));
  }

  lemma {:induction false} TriesLeave(cfg: Settings, cycle: Cycle, w: World, tries: seq<Try>, keys: iset<string>,
                                      ids: iset<string>)
    requires Separate(cycle, keys, ids)
    ensures Leaves(cfg, cycle, keys, w, AfterTries(cfg, cycle, w, tries))
    decreases |tries|
  {
    hide Separate, Submit;
    LedgerSparesRefl(cfg, cycle, w.ledger);
    hide LedgerSpares, IsMatchKey;
    if tries != [] {
      var start := Attempt(w.table, w.ledger, tries[0].script, tries[0].now);
      var w1 := Submit(start, cfg, cycle, tries[0].budgets);
      AttemptLeaves(cfg, cycle, start, tries[0].budgets, keys, ids);
      TriesLeave(cfg, cycle, w1, tries[1..], keys, ids);
      LeavesTransitive(cfg, cycle, keys, w, w1, AfterTries(cfg, cycle, w1, tries[1..]));
    }
  }

  /** The original of a completed match that was matched before does not show any more. */
  lemma MatchedOriginalGoes(l: Ledger, b: string, m: ManualMatch)
    requires Rematching(l, b, m) && Final(l, b, m)
    ensures !Visible(l, m.originalId)
  {
    var s :| 0 <= s < |l| && Holds(l[s], b, m.payload.importId);
    assert Replacement(l, b, m, s);
  }

  lemma NothingImportedYet(l: Ledger, b: string, m: ManualMatch)
    requires NativelyMatched(l, m.originalId) && !Burned(l, b, m.payload.importId)
    ensures Rematching(l, b, m)
  {
  }

  /**
   * Once a cycle has completed, every earlier natively matched original is still visible if and only if no match of
   * the cycle chose one.  If one did, YNAB cannot match that original again, so it is deleted, although an earlier
   * row still points at it and its import is hidden: the earlier transaction has vanished.
   */
  lemma EarlierMatchesSurviveIffUnmatched(cfg: Settings, cycle: Cycle, table: Table, ledger: Ledger, tries: seq<Try>,
                                          keys: iset<string>, ids: iset<string>)
    requires Separate(cycle, keys, ids) && FreshMatches(cfg, cycle, table, ledger)
    requires Focused(cfg, cycle) && Unimported(cycle, ledger)
    requires Completed(cfg, cycle, table, ledger, tries)
    ensures var w := AfterTries(cfg, cycle, Attempt(table, ledger, [], 0), tries);
            && (MatchedStayVisible(ledger, w.ledger)
                <==> forall b, m :: IsMatch(cycle, b, m) ==> ledger[m.originalId].matched.None?)
            && forall k :: k in table && k !in keys ==> k in w.table && w.table[k] == table[k]
  {
    var start := Attempt(table, ledger, [], 0);
    var w := AfterTries(cfg, cycle, start, tries);
    FreshIsKept(cfg, cycle, table, ledger);
    TriesKeep(cfg, cycle, start, tries, keys, ids);
    TriesLeave(cfg, cycle, start, tries, keys, ids);
    hide AfterTries, Separate, AllKept, Final, FreshMatches, Unimported, Focused;
    assert forall b, m :: IsMatch(cycle, b, m) ==> Final(w.ledger, b, m);
    MatchedStayIffUnmatched(cfg, cycle, table, ledger, w.ledger);
    forall k | k in table && k !in keys ensures k in w.table && w.table[k] == table[k] {
      assert SameRowAt(table, w.table, k) by { FreshKeys(cfg, cycle, table, ledger, k); }
    }
  }

  lemma FreshIsKept(cfg: Settings, cycle: Cycle, table: Table, ledger: Ledger)
    requires FreshMatches(cfg, cycle, table, ledger)
    ensures AllKept(cfg, cycle, table, ledger) && AllManual(cycle, ledger)
  {
    hide UniqueIds, Findable, IsMatch;
  }

  lemma FreshKeys(cfg: Settings, cycle: Cycle, table: Table, ledger: Ledger, k: string)
    requires FreshMatches(cfg, cycle, table, ledger) && k in table
    ensures !IsMatchKey(cycle, k)
  {
    hide UniqueIds, Findable, IsMatch;
  }

  lemma MatchedStayIffUnmatched(cfg: Settings, cycle: Cycle, table: Table, l: Ledger, l': Ledger)
    requires FreshMatches(cfg, cycle, table, l) && Edits(cfg, cycle, l, l') && Unimported(cycle, l)
    requires Focused(cfg, cycle) && DistinctMatches(cycle)
    requires forall b, m :: IsMatch(cycle, b, m) ==> Final(l', b, m)
    ensures MatchedStayVisible(l, l') <==> forall b, m :: IsMatch(cycle, b, m) ==> l[m.originalId].matched.None?
  {
    forall b, m | IsMatch(cycle, b, m)
      ensures m.originalId < |l|
      ensures l[m.originalId].matched.Some? ==> NativelyMatched(l, m.originalId) && !Visible(l', m.originalId)
    {
      ChosenOriginalGoes(cfg, cycle, table, l, l', b, m);
    }
    hide Edits, FreshMatches, Unimported, Focused, DistinctMatches, Final, IsMatch;
    if forall b, m :: IsMatch(cycle, b, m) ==> l[m.originalId].matched.None? {
      forall id: nat | NativelyMatched(l, id) ensures Visible(l', id) {
        MatchedSurvives(cfg, cycle, l, l', id);
      }
    }
  }

  lemma ChosenOriginalGoes(cfg: Settings, cycle: Cycle, table: Table, l: Ledger, l': Ledger, b: string, m: ManualMatch)
    requires FreshMatches(cfg, cycle, table, l) && Edits(cfg, cycle, l, l') && Unimported(cycle, l)
    requires Focused(cfg, cycle) && DistinctMatches(cycle) && IsMatch(cycle, b, m) && Final(l', b, m)
    ensures m.originalId < |l|
    ensures l[m.originalId].matched.Some? ==> NativelyMatched(l, m.originalId) && !Visible(l', m.originalId)
  {
    hide Focused, DistinctMatches, Final, Burned, Findable, UniqueIds, ImportsStable, IsMatch;
    assert IsManual(l, b, m) && !l[m.originalId].deleted;
    if l[m.originalId].matched.Some? {
      NothingImportedYet(l, b, m);
      MatchedOriginalGoes(l', b, m);
    }
  }

  /** The last attempt went through, and no delete was refused in it. */
  ghost predicate Completed(cfg: Settings, cycle: Cycle, table: Table, ledger: Ledger, tries: seq<Try>) {
    && tries != [] && NoRefusal(tries[|tries| - 1].script)
    && AfterTries(cfg, cycle, Attempt(table, ledger, [], 0), tries).status == Running
  }

  lemma MatchedSurvives(cfg: Settings, cycle: Cycle, l: Ledger, l': Ledger, id: nat)
    requires Edits(cfg, cycle, l, l') && NativelyMatched(l, id) && !IsOriginal(cycle, id)
    ensures Visible(l', id)
  {
    hide Focused, DistinctMatches, Rematching, IsOriginal;
    assert SameIdentity(l[id], l'[id]);
  }
}
