/**
 * _recover_missing_pending_update: a correction whose target is gone from
 * YNAB looks for the one manual transaction that may stand for it, and gives
 * the row up as DELETED otherwise.
 */
module Recovery {
  import opened Wrappers
  import opened Ynab
  import opened StateDb
  import opened SyncSpec
  import opened Sequences
  import opened ImportIds
  import DateWindow
  import Money
  import PendingMatch

  const REEVAL_TAG := ":reeval:"

  predicate FitsRow(cfg: Settings, r: Row, amount: int, c: PendingMatch.ManualCandidate) {
    && !c.split && c.amount == amount
    && DateWindow.DaysBetween(c.date, r.facts.date, cfg.unit, cfg.workingDays) <= cfg.pendingWindowDays
  }

  /** What may stand for the row: of the new amount, close to its date, in its account's listing. */
  function Replacements(l: Ledger, cfg: Settings, budget: string, r: Row, newAmount: real)
    : seq<PendingMatch.ManualCandidate>
  {
    var since := DateWindow.SinceDateBound(r.facts.date, cfg.backfillDays);
    Filter(ListUnimported(l, budget, r.facts.ynabAccount, since),
           (c: PendingMatch.ManualCandidate) => FitsRow(cfg, r, Money.ToMilliunits(newAmount), c))
  }

  function ReevalSeed(key: string, txnId: nat): string { key + REEVAL_TAG + Decimal(txnId) }

  lemma ReevalLastColon(key: string, txnId: nat, i: nat)
    requires i < |ReevalSeed(key, txnId)|
    ensures i >= |key| + 8 ==> ReevalSeed(key, txnId)[i] != ':'
    ensures i == |key| + 7 ==> ReevalSeed(key, txnId)[i] == ':'
    ensures i == |key| + 6 ==> ReevalSeed(key, txnId)[i] == 'l'
  {
  }

  lemma ReaddLastColon(key: string, round: nat, i: nat)
    requires i < |ReaddSeed(key, round)|
    ensures i >= |key| + 7 ==> ReaddSeed(key, round)[i] != ':'
    ensures i == |key| + 6 ==> ReaddSeed(key, round)[i] == ':'
    ensures i == |key| + 5 ==> ReaddSeed(key, round)[i] == 'd'
  {
  }

  /** No two recoveries, of one transaction or of different ones, share a seed, and none shares one with a re-add. */
  lemma ReevalSeedInjective(key1: string, txn1: nat, key2: string, txn2: nat)
    ensures ReevalSeed(key1, txn1) == ReevalSeed(key2, txn2) ==> key1 == key2 && txn1 == txn2
    ensures ReevalSeed(key1, txn1) != ReaddSeed(key2, txn2)
  {
    var s := ReevalSeed(key1, txn1);
    ReevalLastColon(key1, txn1, |key1| + 7);
    ReevalLastColon(key1, txn1, |key1| + 6);
    if s == ReevalSeed(key2, txn2) {
      ReevalLastColon(key2, txn2, |key2| + 7);
      ReevalLastColon(key1, txn1, |key2| + 7);
      ReevalLastColon(key2, txn2, |key1| + 7);
      assert |key1| == |key2|;
      assert key1 == s[..|key1|] && key2 == s[..|key2|];
      assert Decimal(txn1) == s[|key1| + 8..] && Decimal(txn2) == s[|key2| + 8..];
      DecimalRoundTrip(txn1);
      DecimalRoundTrip(txn2);
    }
    if s == ReaddSeed(key2, txn2) {
      ReaddLastColon(key2, txn2, |key2| + 6);
      ReaddLastColon(key2, txn2, |key2| + 5);
      ReaddLastColon(key2, txn2, |key1| + 7);
    }
  }

  function ReevalId(hash: Hasher, r: Row, key: string, txnId: nat): string {
    DeriveImportId(hash, PrefixOf(r.facts.importId), ReevalSeed(key, txnId))
  }

  /** The replacement is recorded under the key the correction leads to. */
  function ReplacementMatch(hash: Hasher, r: Row, c: Correction, found: PendingMatch.ManualCandidate): ManualMatch {
    ManualMatch(FinalKey(c),
                Payload(r.facts.ynabAccount, found.date, found.amount, found.payee, Cleared,
                        ReevalId(hash, r, FinalKey(c), c.txnId), None),
                found.id, Booked, r.facts.accountKey, r.facts.payee)
  }

  /** The row when nothing stands for it: still under its own key, even for a fuzzy update. */
  function GoneFacts(r: Row, budget: string, c: Correction): Facts {
    r.facts.(txnId := c.txnId, budget := budget, status := Deleted, amount := c.newAmount)
  }

  function RecoverMissing(w: World, cfg: Settings, budget: string, c: Correction): World {
    if c.oldKey !in w.table then
      // The caller unpacks three counts and gets two.
      Halt(w, DbFailed)
    else
      var r := w.table[c.oldKey];
      var read := Read(w);
      var found := Replacements(w.ledger, cfg, budget, r, c.newAmount);
      if read.status != Running then read
      else if |found| != 1 then CountDeleted(Record(read, c.oldKey, GoneFacts(r, budget, c)))
      else SubmitMatches(read, cfg, Batch(budget, [ReplacementMatch(cfg.hash, r, c, found[0])]))
  }

  // --- submit(), with its recoveries ----------------------------------------------------------------------

  function CorrectFully(w: World, cfg: Settings, budget: string, snapshot: Ledger, since: Option<int>, c: Correction)
    : World
  {
    var w1 := Correct(w, budget, snapshot, since, c);
    if w1.status == NeedsRecovery then RecoverMissing(w1.(status := Running), cfg, budget, c) else w1
  }

  function CorrectAllFully(w: World, cfg: Settings, budget: string, snapshot: Ledger, since: Option<int>,
                           cs: seq<Correction>): World
    decreases |cs|
  {
    if cs == [] || w.status != Running then w
    else CorrectAllFully(CorrectFully(w, cfg, budget, snapshot, since, cs[0]), cfg, budget, snapshot, since, cs[1..])
  }

  function CorrectBudgetFully(w: World, cfg: Settings, cycle: Cycle, budget: string): World {
    var cs := CorrectionsOf(cycle, budget);
    var read := Read(w);
    if read.status != Running then read
    else CorrectAllFully(read, cfg, budget, w.ledger, SinceOf(cfg, cs), cs)
  }

  function CorrectionsPhaseFully(w: World, cfg: Settings, cycle: Cycle, budgets: seq<string>): World
    decreases |budgets|
  {
    if budgets == [] || w.status != Running then w
    else CorrectionsPhaseFully(CorrectBudgetFully(w, cfg, cycle, budgets[0]), cfg, cycle, budgets[1..])
  }

  function SubmitFully(w: World, cfg: Settings, cycle: Cycle, budgets: seq<string>): World {
    MatchesPhase(CorrectionsPhaseFully(CreatesPhase(w, cfg, cycle.creates), cfg, cycle, budgets), cfg, cycle.matches)
  }

  // --- attempts that recover nothing ------------------------------------------------------------------------

  lemma {:induction false} CorrectAllAgrees(w: World, cfg: Settings, budget: string, snapshot: Ledger,
                                            since: Option<int>, cs: seq<Correction>)
    requires CorrectAll(w, budget, snapshot, since, cs).status != NeedsRecovery
    ensures CorrectAllFully(w, cfg, budget, snapshot, since, cs) == CorrectAll(w, budget, snapshot, since, cs)
    decreases |cs|
  {
    hide Correct, RecoverMissing;
    if cs != [] && w.status == Running {
      var w1 := Correct(w, budget, snapshot, since, cs[0]);
      assert w1.status != Running ==> CorrectAll(w1, budget, snapshot, since, cs[1..]) == w1;
      CorrectAllAgrees(w1, cfg, budget, snapshot, since, cs[1..]);
    }
  }

  lemma {:induction false} CorrectionsAgree(w: World, cfg: Settings, cycle: Cycle, budgets: seq<string>)
    requires CorrectionsPhase(w, cfg, cycle, budgets).status != NeedsRecovery
    ensures CorrectionsPhaseFully(w, cfg, cycle, budgets) == CorrectionsPhase(w, cfg, cycle, budgets)
    decreases |budgets|
  {
    if budgets != [] && w.status == Running {
      var w1 := CorrectBudget(w, cfg, cycle, budgets[0]);
      var cs := CorrectionsOf(cycle, budgets[0]);
      assert w1.status != Running ==> CorrectionsPhase(w1, cfg, cycle, budgets[1..]) == w1;
      if Read(w).status == Running {
        CorrectAllAgrees(Read(w), cfg, budgets[0], w.ledger, SinceOf(cfg, cs), cs);
      }
      hide CorrectAll, CorrectAllFully, CorrectionsOf, Read;
      assert CorrectBudgetFully(w, cfg, cycle, budgets[0]) == w1;
      hide CorrectBudget, CorrectBudgetFully;
      CorrectionsAgree(w1, cfg, cycle, budgets[1..]);
    }
  }

  /** An attempt that meets no missing target is what the results on Submit are about. */
  lemma SubmitIsSubmitFully(w: World, cfg: Settings, cycle: Cycle, budgets: seq<string>)
    requires Submit(w, cfg, cycle, budgets).status != NeedsRecovery
    ensures SubmitFully(w, cfg, cycle, budgets) == Submit(w, cfg, cycle, budgets)
  {
    var w1 := CreatesPhase(w, cfg, cycle.creates);
    var w2 := CorrectionsPhase(w1, cfg, cycle, budgets);
    assert w2.status != Running ==> MatchesPhase(w2, cfg, cycle.matches) == w2;
    hide CreatesPhase, CorrectionsPhase, CorrectionsPhaseFully, MatchesPhase;
    CorrectionsAgree(w1, cfg, cycle, budgets);
  }
}
