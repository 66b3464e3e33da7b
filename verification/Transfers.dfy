/**
 * sync/transfers.py: greedy pairing of the two legs of a transfer.
 */
module Transfers {
  import opened Wrappers
  import opened DateWindow

  datatype TransferCandidate = TransferCandidate(
    index: nat, accountKey: string, date: int, amount: real,
    accountNumber: Option<string>, remoteAccountNumber: Option<string>)

  datatype MatchRule = MatchRule(windowDays: int, unit: MatchWindowUnit, workingDays: WorkingDayCount)

  ghost predicate SymmetricDays(rule: MatchRule) {
    forall d1, d2 :: rule.workingDays(d1, d2) == rule.workingDays(d2, d1)
  }

  predicate Names(c: TransferCandidate, other: TransferCandidate) {
    c.remoteAccountNumber.Some? && c.remoteAccountNumber == other.accountNumber
  }

  /** "Could be the other leg": the edge relation of the candidate graph. */
  predicate CouldBeLegs(c: TransferCandidate, other: TransferCandidate, rule: MatchRule) {
    && other.index != c.index
    && other.accountKey != c.accountKey
    && other.amount == -c.amount
    && DaysBetween(c.date, other.date, rule.unit, rule.workingDays) <= rule.windowDays
    && (Names(c, other) || Names(other, c))
  }

  lemma LegsSymmetric(c: TransferCandidate, d: TransferCandidate, rule: MatchRule)
    requires SymmetricDays(rule)
    ensures CouldBeLegs(c, d, rule) == CouldBeLegs(d, c, rule)
  {
    assert rule.workingDays(c.date, d.date) == rule.workingDays(d.date, c.date);
  }

  ghost predicate DistinctIndices(candidates: seq<TransferCandidate>) {
    forall a, b :: 0 <= a < b < |candidates| ==> candidates[a].index != candidates[b].index
  }

  predicate Eligible(c: TransferCandidate, other: TransferCandidate, exclude: set<nat>, rule: MatchRule) {
    other.index !in exclude && CouldBeLegs(c, other, rule)
  }

  /** partners_of, from position `from` on. */
  function PartnersOf(c: TransferCandidate, candidates: seq<TransferCandidate>, exclude: set<nat>, rule: MatchRule,
                      from: nat := 0): (partners: seq<nat>)
    requires from <= |candidates|
    ensures forall k :: from <= k < |candidates| && Eligible(c, candidates[k], exclude, rule) ==>
        candidates[k].index in partners
    ensures forall x :: x in partners ==>
        exists k :: from <= k < |candidates| && Eligible(c, candidates[k], exclude, rule) && candidates[k].index == x
    decreases |candidates| - from
  {
    if from == |candidates| then []
    else
      var other := candidates[from];
      var rest := PartnersOf(c, candidates, exclude, rule, from + 1);
      if Eligible(c, other, exclude, rule) then [other.index] + rest else rest
  }

  ghost predicate NoRepeats(s: seq<nat>) {
    forall a, b :: 0 <= a < b < |s| ==> s[a] != s[b]
  }

  lemma {:induction false} PartnersDistinct(c: TransferCandidate, candidates: seq<TransferCandidate>,
                                            exclude: set<nat>, rule: MatchRule, from: nat)
    requires from <= |candidates| && DistinctIndices(candidates)
    ensures NoRepeats(PartnersOf(c, candidates, exclude, rule, from))
    decreases |candidates| - from
  {
    if from < |candidates| {
      PartnersDistinct(c, candidates, exclude, rule, from + 1);
      var rest := PartnersOf(c, candidates, exclude, rule, from + 1);
      forall b | 0 <= b < |rest| ensures rest[b] != candidates[from].index {
        assert rest[b] in rest;
      }
      assert NoRepeats([candidates[from].index] + rest);
    }
  }

  /** c is linked to d and to no other candidate. */
  ghost predicate OnlyPartner(candidates: seq<TransferCandidate>, c: TransferCandidate, d: TransferCandidate,
                              rule: MatchRule) {
    && d in candidates && CouldBeLegs(c, d, rule)
    && forall e :: e in candidates && CouldBeLegs(c, e, rule) ==> e == d
  }

  /** {c, d} is an isolated edge of the candidate graph. */
  ghost predicate IsolatedEdge(candidates: seq<TransferCandidate>, c: TransferCandidate, d: TransferCandidate,
                               rule: MatchRule) {
    OnlyPartner(candidates, c, d, rule) && OnlyPartner(candidates, d, c, rule)
  }

  /** A one-element partner list means an only partner, provided no excluded candidate is linked to c. */
  lemma SoleMatchIsOnlyPartner(candidates: seq<TransferCandidate>, c: TransferCandidate, exclude: set<nat>,
                               rule: MatchRule, d: TransferCandidate)
    requires DistinctIndices(candidates) && d in candidates
    requires forall e :: e in candidates && e.index in exclude ==> !CouldBeLegs(c, e, rule)
    ensures PartnersOf(c, candidates, exclude, rule) == [d.index] <==> OnlyPartner(candidates, c, d, rule)
  {
    var partners := PartnersOf(c, candidates, exclude, rule);
    PartnersDistinct(c, candidates, exclude, rule, 0);
    if partners == [d.index] {
      assert d.index in partners;
      forall e | e in candidates && CouldBeLegs(c, e, rule) ensures e == d {
        assert e.index in partners;
      }
    }
    if OnlyPartner(candidates, c, d, rule) {
      assert d.index in partners;
      forall a | 0 <= a < |partners| ensures partners[a] == d.index {
        assert partners[a] in partners;
      }
      AllTheSame(partners, d.index);
    }
  }

  lemma AllTheSame(partners: seq<nat>, x: nat)
    requires x in partners && forall a :: 0 <= a < |partners| ==> partners[a] == x
    requires NoRepeats(partners)
    ensures partners == [x]
  {
    assert partners[0] == x && partners[|partners| - 1] == x;
  }

  function Find(candidates: seq<TransferCandidate>, index: nat, from: nat := 0): (c: TransferCandidate)
    requires from <= |candidates|
    requires exists k :: from <= k < |candidates| && candidates[k].index == index
    ensures c in candidates && c.index == index
    decreases |candidates| - from
  {
    if candidates[from].index == index then candidates[from] else Find(candidates, index, from + 1)
  }

  ghost predicate Paired(pairs: seq<(nat, nat)>, i: nat, j: nat) {
    (i, j) in pairs || (j, i) in pairs
  }

  /** No index occurs in two pairs, or twice in one. */
  ghost predicate IsMatching(pairs: seq<(nat, nat)>) {
    && (forall p :: p in pairs ==> p.0 != p.1)
    && forall a, b :: 0 <= a < b < |pairs| ==>
         pairs[a].0 != pairs[b].0 && pairs[a].0 != pairs[b].1 && pairs[a].1 != pairs[b].0 && pairs[a].1 != pairs[b].1
  }

  /** Every listed pair is an isolated edge between two of the candidates. */
  ghost predicate OnlyIsolated(candidates: seq<TransferCandidate>, pairs: seq<(nat, nat)>, rule: MatchRule) {
    forall p :: p in pairs ==>
      exists c, d ::
        c in candidates && d in candidates && c.index == p.0 && d.index == p.1 && IsolatedEdge(candidates, c, d, rule)
  }

  /** Every isolated edge with an end among the first n candidates is listed. */
  ghost predicate ListsIsolated(candidates: seq<TransferCandidate>, n: nat, pairs: seq<(nat, nat)>, rule: MatchRule)
    requires n <= |candidates|
  {
    forall k, d :: 0 <= k < n && d in candidates && IsolatedEdge(candidates, candidates[k], d, rule) ==>
      Paired(pairs, candidates[k].index, d.index)
  }

  // --- what a pair is, in the bank's own fields ----------------------------------------------------------------------

  /** Not more than the window apart: in calendar days, or by the working-day calendar. */
  ghost predicate CloseEnough(c: TransferCandidate, d: TransferCandidate, rule: MatchRule) {
    match rule.unit
    case CalendarDays => c.date - d.date <= rule.windowDays && d.date - c.date <= rule.windowDays
    case WorkingDays => rule.workingDays(c.date, d.date) <= rule.windowDays
  }

  /** Two candidates of different accounts that cancel out, close together, one naming the other's account number. */
  ghost predicate OneTransfer(c: TransferCandidate, d: TransferCandidate, rule: MatchRule) {
    && c.index != d.index && c.accountKey != d.accountKey && c.amount + d.amount == 0.0 && CloseEnough(c, d, rule)
    && (  (c.remoteAccountNumber.Some? && d.accountNumber.Some? && c.remoteAccountNumber.value == d.accountNumber.value)
       || (d.remoteAccountNumber.Some? && c.accountNumber.Some? && d.remoteAccountNumber.value == c.accountNumber.value))
  }

  /** No third candidate could be one transfer with c or with d. */
  ghost predicate NoThird(candidates: seq<TransferCandidate>, c: TransferCandidate, d: TransferCandidate,
                          rule: MatchRule) {
    forall e :: e in candidates && e != c && e != d ==> !OneTransfer(c, e, rule) && !OneTransfer(d, e, rule)
  }

  /** Every returned pair is one transfer, and neither of its legs could be one with any other candidate. */
  ghost predicate OnlyTransfers(candidates: seq<TransferCandidate>, pairs: seq<(nat, nat)>, rule: MatchRule) {
    forall p :: p in pairs ==>
      exists c, d ::
        && c in candidates && d in candidates && c.index == p.0 && d.index == p.1
        && OneTransfer(c, d, rule) && NoThird(candidates, c, d, rule)
  }

  /** Two candidates that are one transfer, while neither could be one with a third, are paired. */
  ghost predicate AllTransfers(candidates: seq<TransferCandidate>, pairs: seq<(nat, nat)>, rule: MatchRule) {
    forall c, d :: c in candidates && d in candidates && OneTransfer(c, d, rule) && NoThird(candidates, c, d, rule) ==>
      (c.index, d.index) in pairs || (d.index, c.index) in pairs
  }

  lemma LegsAreOneTransfer(c: TransferCandidate, d: TransferCandidate, rule: MatchRule)
    ensures CouldBeLegs(c, d, rule) <==> OneTransfer(c, d, rule)
  {
  }

  lemma PairsAreTransfers(candidates: seq<TransferCandidate>, pairs: seq<(nat, nat)>, rule: MatchRule)
    requires SymmetricDays(rule) && OnlyIsolated(candidates, pairs, rule)
    requires ListsIsolated(candidates, |candidates|, pairs, rule)
    ensures OnlyTransfers(candidates, pairs, rule) && AllTransfers(candidates, pairs, rule)
  {
    forall c, d ensures CouldBeLegs(c, d, rule) <==> OneTransfer(c, d, rule) {
      LegsAreOneTransfer(c, d, rule);
    }
    hide CouldBeLegs, OneTransfer;
    forall p | p in pairs
      ensures exists c, d ::
        && c in candidates && d in candidates && c.index == p.0 && d.index == p.1
        && OneTransfer(c, d, rule) && NoThird(candidates, c, d, rule)
    {
      var c, d :| c in candidates && d in candidates && c.index == p.0 && d.index == p.1
        && IsolatedEdge(candidates, c, d, rule);
      assert OneTransfer(c, d, rule) && NoThird(candidates, c, d, rule);
    }
    forall c, d | c in candidates && d in candidates && OneTransfer(c, d, rule) && NoThird(candidates, c, d, rule)
      ensures (c.index, d.index) in pairs || (d.index, c.index) in pairs
    {
      NotItself(c, rule);
      NotItself(d, rule);
      LegsSymmetric(c, d, rule);
      assert OnlyPartner(candidates, c, d, rule) && OnlyPartner(candidates, d, c, rule);
      var k :| 0 <= k < |candidates| && candidates[k] == c;
      assert Paired(pairs, candidates[k].index, d.index);
    }
  }

  lemma NotItself(c: TransferCandidate, rule: MatchRule)
    ensures !CouldBeLegs(c, c, rule)
  {
  }

  /** find_transfer_pairs lists exactly the isolated edges, each once: the transfers that are beyond doubt. */
  method FindTransferPairs(candidates: seq<TransferCandidate>, rule: MatchRule) returns (pairs: seq<(nat, nat)>)
    requires DistinctIndices(candidates) && SymmetricDays(rule)
    ensures IsMatching(pairs)
    ensures OnlyIsolated(candidates, pairs, rule)
    ensures ListsIsolated(candidates, |candidates|, pairs, rule)
    ensures OnlyTransfers(candidates, pairs, rule)
    ensures AllTransfers(candidates, pairs, rule)
  {
    hide OnlyTransfers, AllTransfers;
    pairs := [];
    var used: set<nat> := {};
    for n := 0 to |candidates|
      invariant IsMatching(pairs)
      invariant OnlyIsolated(candidates, pairs, rule)
      invariant ListsIsolated(candidates, n, pairs, rule)
      invariant used == UsedIn(pairs)
    {
      var candidate := candidates[n];
      if candidate.index in used {
        UsedIsPaired(candidates, pairs, rule, candidate);
        continue;
      }
      UsedAreElsewhere(candidates, pairs, rule, candidate);
      var matches := PartnersOf(candidate, candidates, used + {candidate.index}, rule);
      if |matches| != 1 {
        NotSoleMatch(candidates, candidate, used + {candidate.index}, rule);
        continue;
      }
      assert matches[0] in matches;
      var partner := Find(candidates, matches[0]);
      assert matches == [partner.index];
      SoleMatchIsOnlyPartner(candidates, candidate, used + {candidate.index}, rule, partner);
      assert partner.index !in used by {
        assert matches[0] in PartnersOf(candidate, candidates, used + {candidate.index}, rule);
      }
      UsedAreElsewhere(candidates, pairs, rule, partner);
      var reverseMatches := PartnersOf(partner, candidates, used + {partner.index}, rule);
      SoleMatchIsOnlyPartner(candidates, partner, used + {partner.index}, rule, candidate);
      if reverseMatches == [candidate.index] {
        AddPair(candidates, n, pairs, rule, candidate, partner);
        pairs := pairs + [(candidate.index, partner.index)];
        used := used + {candidate.index, partner.index};
      }
    }
    PairsAreTransfers(candidates, pairs, rule);
  }

  lemma NotSoleMatch(candidates: seq<TransferCandidate>, c: TransferCandidate, exclude: set<nat>, rule: MatchRule)
    requires DistinctIndices(candidates)
    requires forall e :: e in candidates && e.index in exclude ==> !CouldBeLegs(c, e, rule)
    requires |PartnersOf(c, candidates, exclude, rule)| != 1
    ensures forall d :: d in candidates ==> !OnlyPartner(candidates, c, d, rule)
  {
    forall d | d in candidates ensures !OnlyPartner(candidates, c, d, rule) {
      SoleMatchIsOnlyPartner(candidates, c, exclude, rule, d);
    }
  }

  lemma AddPair(candidates: seq<TransferCandidate>, n: nat, pairs: seq<(nat, nat)>, rule: MatchRule,
                c: TransferCandidate, d: TransferCandidate)
    requires n < |candidates| && c == candidates[n] && d in candidates && IsolatedEdge(candidates, c, d, rule)
    requires c.index !in UsedIn(pairs) && d.index !in UsedIn(pairs)
    requires IsMatching(pairs) && OnlyIsolated(candidates, pairs, rule) && ListsIsolated(candidates, n, pairs, rule)
    ensures var more := pairs + [(c.index, d.index)];
            && IsMatching(more) && OnlyIsolated(candidates, more, rule) && ListsIsolated(candidates, n + 1, more, rule)
            && UsedIn(more) == UsedIn(pairs) + {c.index, d.index}
  {
    var p := (c.index, d.index);
    var more := pairs + [p];
    MorePairs(pairs, p);
    forall k, e | 0 <= k < n + 1 && e in candidates && IsolatedEdge(candidates, candidates[k], e, rule)
      ensures Paired(more, candidates[k].index, e.index)
    {
      if k < n {
        assert Paired(pairs, candidates[k].index, e.index);
      }
    }
  }

  lemma MorePairs(pairs: seq<(nat, nat)>, p: (nat, nat))
    requires IsMatching(pairs) && p.0 != p.1 && p.0 !in UsedIn(pairs) && p.1 !in UsedIn(pairs)
    ensures forall q :: q in pairs + [p] <==> q in pairs || q == p
    ensures IsMatching(pairs + [p])
    ensures UsedIn(pairs + [p]) == UsedIn(pairs) + {p.0, p.1}
  {
    forall a | 0 <= a < |pairs|
      ensures pairs[a].0 != p.0 && pairs[a].0 != p.1 && pairs[a].1 != p.0 && pairs[a].1 != p.1
    {
      assert pairs[a] in pairs;
      assert pairs[a].0 in UsedIn(pairs) && pairs[a].1 in UsedIn(pairs);
    }
    assert p in pairs + [p];
  }

  ghost function UsedIn(pairs: seq<(nat, nat)>): set<nat> {
    (set p | p in pairs :: p.0) + (set p | p in pairs :: p.1)
  }

  lemma SameIndexSameCandidate(candidates: seq<TransferCandidate>, c: TransferCandidate, d: TransferCandidate)
    requires DistinctIndices(candidates) && c in candidates && d in candidates && c.index == d.index
    ensures c == d
  {
  }

  /** The `used` set only ever hides candidates that are not linked to an unused one. */
  lemma UsedAreElsewhere(candidates: seq<TransferCandidate>, pairs: seq<(nat, nat)>, rule: MatchRule,
                         c: TransferCandidate)
    requires DistinctIndices(candidates) && SymmetricDays(rule) && OnlyIsolated(candidates, pairs, rule)
    requires c in candidates && c.index !in UsedIn(pairs)
    ensures forall e :: e in candidates && e.index in UsedIn(pairs) + {c.index} ==> !CouldBeLegs(c, e, rule)
  {
    forall e | e in candidates && e.index in UsedIn(pairs) ensures !CouldBeLegs(c, e, rule) {
      LegsSymmetric(c, e, rule);
      var p :| p in pairs && (p.0 == e.index || p.1 == e.index);
      var x, y :| x in candidates && y in candidates && x.index == p.0 && y.index == p.1
        && IsolatedEdge(candidates, x, y, rule);
      SameIndexSameCandidate(candidates, e, if p.0 == e.index then x else y);
      assert p.0 in UsedIn(pairs) && p.1 in UsedIn(pairs);
    }
  }

  lemma UsedIsPaired(candidates: seq<TransferCandidate>, pairs: seq<(nat, nat)>, rule: MatchRule,
                     c: TransferCandidate)
    requires DistinctIndices(candidates) && OnlyIsolated(candidates, pairs, rule)
    requires c in candidates && c.index in UsedIn(pairs)
    ensures forall d :: d in candidates && IsolatedEdge(candidates, c, d, rule) ==> Paired(pairs, c.index, d.index)
  {
    var p :| p in pairs && (p.0 == c.index || p.1 == c.index);
    var x, y :| x in candidates && y in candidates && x.index == p.0 && y.index == p.1
      && IsolatedEdge(candidates, x, y, rule);
    SameIndexSameCandidate(candidates, c, if p.0 == c.index then x else y);
  }

  /** Removing a matched pair never changes another candidate's set of partners. */
  lemma PairRemovalKeepsPartners(candidates: seq<TransferCandidate>, rule: MatchRule, c: TransferCandidate,
                                 d: TransferCandidate, e: TransferCandidate)
    requires SymmetricDays(rule) && c in candidates && IsolatedEdge(candidates, c, d, rule)
    requires e in candidates && e != c && e != d
    ensures (set f | f in candidates && CouldBeLegs(e, f, rule))
         == (set f | f in candidates && f != c && f != d && CouldBeLegs(e, f, rule))
  {
    LegsSymmetric(e, c, rule);
    LegsSymmetric(e, d, rule);
  }

  /** Two results for two orderings of the same candidates hold the same unordered pairs. */
  lemma PairsDoNotDependOnOrder(one: seq<TransferCandidate>, other: seq<TransferCandidate>, rule: MatchRule,
                                pairs1: seq<(nat, nat)>, pairs2: seq<(nat, nat)>, i: nat, j: nat)
    requires multiset(one) == multiset(other)
    requires DistinctIndices(one) && DistinctIndices(other) && SymmetricDays(rule)
    requires OnlyIsolated(one, pairs1, rule) && ListsIsolated(one, |one|, pairs1, rule)
    requires OnlyIsolated(other, pairs2, rule) && ListsIsolated(other, |other|, pairs2, rule)
    ensures Paired(pairs1, i, j) <==> Paired(pairs2, i, j)
  {
    SameMembers(one, other);
    if Paired(pairs1, i, j) { PairedElsewhere(one, other, rule, pairs1, pairs2, i, j); }
    if Paired(pairs2, i, j) { PairedElsewhere(other, one, rule, pairs2, pairs1, i, j); }
  }

  lemma SameMembers<T>(one: seq<T>, other: seq<T>)
    requires multiset(one) == multiset(other)
    ensures forall x :: x in one <==> x in other
  {
    forall x ensures x in one <==> x in other {
      assert x in one <==> x in multiset(one);
      assert x in other <==> x in multiset(other);
    }
  }

  lemma PairedElsewhere(one: seq<TransferCandidate>, other: seq<TransferCandidate>, rule: MatchRule,
                        pairs1: seq<(nat, nat)>, pairs2: seq<(nat, nat)>, i: nat, j: nat)
    requires forall x :: x in one <==> x in other
    requires OnlyIsolated(one, pairs1, rule) && ListsIsolated(other, |other|, pairs2, rule)
    requires Paired(pairs1, i, j)
    ensures Paired(pairs2, i, j)
  {
    var p := if (i, j) in pairs1 then (i, j) else (j, i);
    var c, d :| c in one && d in one && c.index == p.0 && d.index == p.1 && IsolatedEdge(one, c, d, rule);
    assert IsolatedEdge(other, c, d, rule);
    var k :| 0 <= k < |other| && other[k] == c;
    assert Paired(pairs2, other[k].index, d.index);
  }
}
