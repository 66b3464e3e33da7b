/**
 * sync/engine.py _match_transfers: of each isolated pair of creates, one leg
 * is submitted as a transfer and the other becomes its secondary.
 */
module TransferLinking {
  import opened Wrappers
  import opened SyncSpec
  import opened Transfers
  import opened Money

  /** A create without what linking changes: its payee, its transfer target and its secondary. */
  function Core(p: Create): Create {
    p.(payload := p.payload.(payee := "", transferTo := None), secondary := None)
  }

  /** A listed create and, if it has one, its secondary. */
  function Legs(p: Create): seq<Create> {
    [Core(p)] + if p.secondary.Some? then [Core(p.secondary.value)] else []
  }

  /** The legs of all creates at positions >= from that are not removed. */
  function LegsFrom(creates: seq<Create>, removed: set<nat>, from: nat): seq<Create>
    requires from <= |creates|
    decreases |creates| - from
  {
    if from == |creates| then []
    else (if from in removed then [] else Legs(creates[from])) + LegsFrom(creates, removed, from + 1)
  }

  function AllLegs(creates: seq<Create>): seq<Create> { LegsFrom(creates, {}, 0) }

  function Kept(creates: seq<Create>, removed: set<nat>, from: nat): (kept: seq<Create>)
    requires from <= |creates|
    ensures forall p :: p in kept ==> exists k :: from <= k < |creates| && k !in removed && creates[k] == p
    decreases |creates| - from
  {
    if from == |creates| then []
    else (if from in removed then [] else [creates[from]]) + Kept(creates, removed, from + 1)
  }

  function ToCandidate(p: Create, index: nat): TransferCandidate {
    TransferCandidate(index, p.provider + ":" + p.accountKey, p.payload.date, FromMilliunits(p.payload.amount),
                      p.accountNumber, p.remoteAccountNumber)
  }

  function Candidates(creates: seq<Create>): seq<TransferCandidate> {
    seq(|creates|, i requires 0 <= i < |creates| => ToCandidate(creates[i], i))
  }

  /** The outflow leg, rewritten to create both sides. */
  function LinkTo(p: Create, other: Create): Create {
    p.(payload := p.payload.(payee := "", transferTo := Some(other.payload.account)), secondary := Some(other))
  }

  ghost predicate Unlinked(creates: seq<Create>) {
    forall p :: p in creates ==> p.secondary.None?
  }

  /** A link nets to zero, its submitted leg is no inflow, and its secondary is not itself linked. */
  ghost predicate GoodLink(p: Create) {
    p.secondary.Some? ==>
      && p.secondary.value.secondary.None?
      && p.payload.amount + p.secondary.value.payload.amount == 0
      && p.payload.amount <= 0
      && p.payload.transferTo == Some(p.secondary.value.payload.account)
  }

  // --- conservation, one link at a time -------------------------------------------------------

  lemma HeadLegs(creates: seq<Create>, removed: set<nat>, from: nat)
    requires from < |creates|
    ensures multiset(LegsFrom(creates, removed, from))
         == (if from in removed then multiset{} else multiset(Legs(creates[from])))
            + multiset(LegsFrom(creates, removed, from + 1))
  {
    hide Legs;
    assert LegsFrom(creates, removed, from)
        == (if from in removed then [] else Legs(creates[from])) + LegsFrom(creates, removed, from + 1);
  }

  lemma Regroup(h: multiset<Create>, a: multiset<Create>, b: multiset<Create>, x: multiset<Create>, y: multiset<Create>)
    requires a + x == b + y
    ensures (h + a) + x == (h + b) + y
  {
    assert (h + a) + x == h + (a + x);
    assert (h + b) + y == h + (b + y);
  }

  lemma Cancel(m0: multiset<Create>, m1: multiset<Create>, m2: multiset<Create>, x: multiset<Create>,
               y: multiset<Create>)
    requires m1 + x == m0 + (x + y) && m2 + y == m1
    ensures m2 == m0
  {
    assert m2 + (x + y) == m0 + (x + y);
    forall c ensures m2[c] == m0[c] {
      assert (m2 + (x + y))[c] == m2[c] + (x + y)[c];
      assert (m0 + (x + y))[c] == m0[c] + (x + y)[c];
    }
  }

  lemma {:induction false} RewriteOne(creates: seq<Create>, removed: set<nat>, from: nat, i: nat, p: Create)
    requires from <= i < |creates| && i !in removed
    ensures multiset(LegsFrom(creates[i := p], removed, from)) + multiset(Legs(creates[i]))
         == multiset(LegsFrom(creates, removed, from)) + multiset(Legs(p))
    decreases |creates| - from
  {
    hide Legs, LegsFrom;
    HeadLegs(creates, removed, from);
    HeadLegs(creates[i := p], removed, from);
    if from < i {
      RewriteOne(creates, removed, from + 1, i, p);
      assert creates[i := p][from] == creates[from];
      Regroup(if from in removed then multiset{} else multiset(Legs(creates[from])),
              multiset(LegsFrom(creates[i := p], removed, from + 1)), multiset(LegsFrom(creates, removed, from + 1)),
              multiset(Legs(creates[i])), multiset(Legs(p)));
    } else {
      SamePositions(creates, creates[i := p], removed, from + 1);
    }
  }

  lemma {:induction false} SamePositions(creates: seq<Create>, creates': seq<Create>, removed: set<nat>, from: nat)
    requires from <= |creates| == |creates'| && forall k :: from <= k < |creates| ==> creates[k] == creates'[k]
    ensures LegsFrom(creates, removed, from) == LegsFrom(creates', removed, from)
    decreases |creates| - from
  {
    if from < |creates| {
      SamePositions(creates, creates', removed, from + 1);
    }
  }

  lemma {:induction false} RemoveOne(creates: seq<Create>, removed: set<nat>, from: nat, j: nat)
    requires from <= j < |creates| && j !in removed
    ensures multiset(LegsFrom(creates, removed + {j}, from)) + multiset(Legs(creates[j]))
         == multiset(LegsFrom(creates, removed, from))
    decreases |creates| - from
  {
    hide Legs, LegsFrom;
    HeadLegs(creates, removed, from);
    HeadLegs(creates, removed + {j}, from);
    if from < j {
      RemoveOne(creates, removed, from + 1, j);
    } else {
      RemovedBefore(creates, removed, from + 1, j);
    }
  }

  lemma {:induction false} RemovedBefore(creates: seq<Create>, removed: set<nat>, from: nat, j: nat)
    requires j < from <= |creates|
    ensures LegsFrom(creates, removed + {j}, from) == LegsFrom(creates, removed, from)
    decreases |creates| - from
  {
    if from < |creates| {
      RemovedBefore(creates, removed, from + 1, j);
    }
  }

  lemma {:induction false} KeptLegs(creates: seq<Create>, removed: set<nat>, from: nat)
    requires from <= |creates|
    ensures AllLegs(Kept(creates, removed, from)) == LegsFrom(creates, removed, from)
    decreases |creates| - from
  {
    hide Legs;
    if from < |creates| {
      KeptLegs(creates, removed, from + 1);
      var rest := Kept(creates, removed, from + 1);
      if from !in removed {
        LegsOfCons(creates[from], rest);
      } else {
        assert Kept(creates, removed, from) == rest;
      }
    }
  }

  lemma LegsOfCons(p: Create, rest: seq<Create>)
    ensures AllLegs([p] + rest) == Legs(p) + AllLegs(rest)
  {
    hide Legs;
    ShiftLegs([p] + rest, rest, 1, 0);
  }

  lemma {:induction false} ShiftLegs(longer: seq<Create>, rest: seq<Create>, from: nat, from': nat)
    requires from <= |longer| && from' <= |rest| && longer[from..] == rest[from'..]
    ensures LegsFrom(longer, {}, from) == LegsFrom(rest, {}, from')
    decreases |longer| - from
  {
    assert |longer| - from == |rest| - from';
    if from < |longer| {
      assert longer[from] == longer[from..][0] && rest[from'] == rest[from'..][0];
      assert longer[from + 1..] == longer[from..][1..] && rest[from' + 1..] == rest[from'..][1..];
      ShiftLegs(longer, rest, from + 1, from' + 1);
    }
  }

  /** Linking i to j moves the leg of j into the legs of i. */
  lemma LinkingMovesALeg(creates: seq<Create>, removed: set<nat>, i: nat, j: nat, other: Create)
    requires i < |creates| && j < |creates| && i != j && i !in removed && j !in removed
    requires creates[i].secondary.None? && creates[j].secondary.None? && Core(other) == Core(creates[j])
    ensures multiset(LegsFrom(creates[i := LinkTo(creates[i], other)], removed + {j}, 0))
         == multiset(LegsFrom(creates, removed, 0))
  {
    var linked := LinkTo(creates[i], other);
    LegsOfLink(creates[i], creates[j], other);
    hide LegsFrom, Legs, LinkTo, Core;
    RewriteOne(creates, removed, 0, i, linked);
    RemoveOne(creates[i := linked], removed, 0, j);
    assert creates[i := linked][j] == creates[j];
    Cancel(multiset(LegsFrom(creates, removed, 0)), multiset(LegsFrom(creates[i := linked], removed, 0)),
           multiset(LegsFrom(creates[i := linked], removed + {j}, 0)),
           multiset(Legs(creates[i])), multiset(Legs(creates[j])));
  }

  lemma LegsOfLink(p: Create, q: Create, other: Create)
    requires p.secondary.None? && q.secondary.None? && Core(other) == Core(q)
    ensures multiset(Legs(LinkTo(p, other))) == multiset(Legs(p)) + multiset(Legs(q))
  {
    assert Legs(p) == [Core(p)] && Legs(q) == [Core(q)];
    assert Legs(LinkTo(p, other)) == [Core(p), Core(q)];
  }

  // --- the loop ----------------------------------------------------------------------------------

  ghost predicate StillItself(before: Create, after: Create) {
    Core(after) == Core(before) && GoodLink(after)
  }

  ghost predicate EachItself(creates: seq<Create>, now: seq<Create>, seen: set<nat>) {
    && |now| == |creates|
    && (forall k :: 0 <= k < |creates| ==> StillItself(creates[k], now[k]))
    && (forall k :: 0 <= k < |creates| && k !in seen ==> now[k] == creates[k])
  }

  /** The state of the loop over `pairs` after some of them. */
  ghost predicate LinkingState(creates: seq<Create>, now: seq<Create>, removed: set<nat>, seen: set<nat>) {
    && EachItself(creates, now, seen)
    && removed <= seen
    && multiset(LegsFrom(now, removed, 0)) == multiset(AllLegs(creates))
  }

  lemma CandidateAt(creates: seq<Create>, c: TransferCandidate)
    requires c in Candidates(creates)
    ensures c.index < |creates| && Candidates(creates)[c.index] == c
  {
  }

  lemma EdgeIsTransfer(creates: seq<Create>, rule: MatchRule, i: nat, j: nat)
    requires i < |creates| && j < |creates|
    requires IsolatedEdge(Candidates(creates), Candidates(creates)[i], Candidates(creates)[j], rule)
    ensures creates[i].payload.amount == -creates[j].payload.amount
  {
    MilliunitsRoundTrip(creates[i].payload.amount);
    MilliunitsRoundTrip(creates[j].payload.amount);
    hide FromMilliunits, ToMilliunits;
    assert CouldBeLegs(Candidates(creates)[i], Candidates(creates)[j], rule);
  }

  lemma PairIsTransfer(creates: seq<Create>, rule: MatchRule, pairs: seq<(nat, nat)>, n: nat)
    requires OnlyIsolated(Candidates(creates), pairs, rule) && n < |pairs|
    ensures pairs[n].0 < |creates| && pairs[n].1 < |creates|
    ensures IsolatedEdge(Candidates(creates), Candidates(creates)[pairs[n].0], Candidates(creates)[pairs[n].1], rule)
    ensures creates[pairs[n].0].payload.amount == -creates[pairs[n].1].payload.amount
  {
    hide IsolatedEdge, Candidates;
    var candidates := Candidates(creates);
    assert pairs[n] in pairs;
    var c, d :| c in candidates && d in candidates && c.index == pairs[n].0 && d.index == pairs[n].1
      && IsolatedEdge(candidates, c, d, rule);
    CandidateAt(creates, c);
    CandidateAt(creates, d);
    EdgeIsTransfer(creates, rule, c.index, d.index);
  }

  lemma CandidatesDistinct(creates: seq<Create>)
    ensures DistinctIndices(Candidates(creates))
  {
  }

  lemma LinkStep(creates: seq<Create>, now: seq<Create>, removed: set<nat>, seen: set<nat>, i: nat, j: nat)
    requires Unlinked(creates) && LinkingState(creates, now, removed, seen)
    requires i < |creates| && j < |creates| && i != j && i !in seen && j !in seen
    requires creates[i].payload.amount + creates[j].payload.amount == 0 && creates[i].payload.amount <= 0
    ensures LinkingState(creates, now[i := LinkTo(now[i], now[j])], removed + {j}, seen + {i, j})
  {
    assert now[i] == creates[i] && now[j] == creates[j];
    assert creates[i] in creates && creates[j] in creates;
    hide LegsFrom, AllLegs, Core, GoodLink, LinkTo, EachItself, StillItself, Unlinked;
    LinkingMovesALeg(now, removed, i, j, now[j]);
    LinkedIsGood(now[i], now[j]);
    OneMoreItself(creates, now, seen, i, j, LinkTo(now[i], now[j]));
  }

  lemma OneMoreItself(creates: seq<Create>, now: seq<Create>, seen: set<nat>, i: nat, j: nat, linked: Create)
    requires EachItself(creates, now, seen) && i < |creates| && Core(linked) == Core(creates[i]) && GoodLink(linked)
    ensures EachItself(creates, now[i := linked], seen + {i, j})
  {
    hide Core, GoodLink;
    assert StillItself(creates[i], linked);
    hide StillItself;
  }

  lemma LinkedIsGood(p: Create, other: Create)
    requires p.payload.amount + other.payload.amount == 0 && p.payload.amount <= 0 && other.secondary.None?
    ensures GoodLink(LinkTo(p, other)) && Core(LinkTo(p, other)) == Core(p)
  {
  }

  lemma SkipStep(creates: seq<Create>, now: seq<Create>, removed: set<nat>, seen: set<nat>, i: nat, j: nat)
    requires LinkingState(creates, now, removed, seen)
    ensures LinkingState(creates, now, removed, seen + {i, j})
  {
  }

  function PrimaryOf(creates: seq<Create>, pair: (nat, nat)): nat
    requires pair.0 < |creates|
  {
    if creates[pair.0].payload.amount < 0 then pair.0 else pair.1
  }

  function SecondaryOf(creates: seq<Create>, pair: (nat, nat)): nat
    requires pair.0 < |creates|
  {
    if creates[pair.0].payload.amount < 0 then pair.1 else pair.0
  }

  /** What the loop has made of one pair. */
  ghost predicate PairDone(creates: seq<Create>, now: seq<Create>, removed: set<nat>, pair: (nat, nat),
                           transferAccounts: set<string>)
  {
    && pair.0 < |creates| == |now| && pair.1 < |creates|
    && var p, s := PrimaryOf(creates, pair), SecondaryOf(creates, pair);
       && p !in removed
       && if creates[s].payload.account in transferAccounts then
            s in removed && now[p] == LinkTo(creates[p], creates[s])
          else s !in removed && now[p] == creates[p] && now[s] == creates[s]
  }

  /** i and j are the two ends of an isolated edge, i is the outflow, and j's account has a transfer payee. */
  ghost predicate Linkable(creates: seq<Create>, rule: MatchRule, transferAccounts: set<string>, i: nat, j: nat) {
    && i < |creates| && j < |creates|
    && IsolatedEdge(Candidates(creates), Candidates(creates)[i], Candidates(creates)[j], rule)
    && creates[i].payload.amount < 0 && creates[j].payload.account in transferAccounts
  }

  ghost predicate NeverLinkable(creates: seq<Create>, rule: MatchRule, transferAccounts: set<string>, i: nat) {
    forall j: nat :: !Linkable(creates, rule, transferAccounts, i, j) && !Linkable(creates, rule, transferAccounts, j, i)
  }

  /** The loop after the first n pairs. */
  ghost predicate Progress(creates: seq<Create>, now: seq<Create>, removed: set<nat>, pairs: seq<(nat, nat)>, n: nat,
                           transferAccounts: set<string>)
    requires n <= |pairs|
  {
    && LinkingState(creates, now, removed, UsedIn(pairs[..n]))
    && forall a :: 0 <= a < n ==> PairDone(creates, now, removed, pairs[a], transferAccounts)
  }

  /** One pair: link it, or leave both legs as they are. */
  function Link(now: seq<Create>, removed: set<nat>, primary: nat, secondary: nat, transferAccounts: set<string>)
    : (seq<Create>, set<nat>)
    requires primary < |now| && secondary < |now|
  {
    if now[secondary].payload.account in transferAccounts then
      (now[primary := LinkTo(now[primary], now[secondary])], removed + {secondary})
    else (now, removed)
  }

  lemma AdvanceState(creates: seq<Create>, now: seq<Create>, removed: set<nat>, seen: set<nat>, pair: (nat, nat),
                     transferAccounts: set<string>)
    requires Unlinked(creates) && LinkingState(creates, now, removed, seen)
    requires pair.0 < |creates| && pair.1 < |creates| && pair.0 != pair.1 && pair.0 !in seen && pair.1 !in seen
    requires creates[pair.0].payload.amount == -creates[pair.1].payload.amount
    ensures var (now', removed') := Link(now, removed, PrimaryOf(creates, pair), SecondaryOf(creates, pair),
                                         transferAccounts);
            LinkingState(creates, now', removed', seen + {pair.0, pair.1})
  {
    hide LinkTo, LegsFrom, AllLegs, StillItself, LinkingState, Unlinked;
    var p, s := PrimaryOf(creates, pair), SecondaryOf(creates, pair);
    SamePair(p, s, pair.0, pair.1);
    LinkStep(creates, now, removed, seen, p, s);
    SkipStep(creates, now, removed, seen, p, s);
  }

  lemma PrimaryIsOne(creates: seq<Create>, pair: (nat, nat))
    requires pair.0 < |creates|
    ensures var p, s := PrimaryOf(creates, pair), SecondaryOf(creates, pair); (p, s) == pair || (s, p) == pair
  {
  }

  lemma LinkFrame(now: seq<Create>, removed: set<nat>, primary: nat, secondary: nat, transferAccounts: set<string>)
    requires primary < |now| && secondary < |now|
    ensures var (now', removed') := Link(now, removed, primary, secondary, transferAccounts);
            && |now'| == |now| && removed <= removed'
            && (forall k :: 0 <= k < |now| && k != primary ==> now'[k] == now[k])
            && (forall k :: k in removed' && k !in removed ==> k == secondary)
  {
    hide LinkTo;
  }

  lemma SamePair(p: nat, s: nat, i: nat, j: nat)
    requires (p == i && s == j) || (p == j && s == i)
    ensures {p, s} == {i, j}
  {
  }

  lemma AdvancePair(creates: seq<Create>, now: seq<Create>, removed: set<nat>, seen: set<nat>, pair: (nat, nat),
                    transferAccounts: set<string>)
    requires LinkingState(creates, now, removed, seen)
    requires pair.0 < |creates| && pair.1 < |creates| && pair.0 != pair.1 && pair.0 !in seen && pair.1 !in seen
    ensures var (now', removed') := Link(now, removed, PrimaryOf(creates, pair), SecondaryOf(creates, pair),
                                         transferAccounts);
            PairDone(creates, now', removed', pair, transferAccounts)
  {
    hide LinkTo, LegsFrom, AllLegs, StillItself;
    assert now[pair.0] == creates[pair.0] && now[pair.1] == creates[pair.1];
  }

  lemma Advance(creates: seq<Create>, now: seq<Create>, removed: set<nat>, pairs: seq<(nat, nat)>, n: nat,
                transferAccounts: set<string>)
    requires Unlinked(creates) && IsMatching(pairs) && n < |pairs|
    requires Progress(creates, now, removed, pairs, n, transferAccounts)
    requires pairs[n].0 < |creates| && pairs[n].1 < |creates|
    requires creates[pairs[n].0].payload.amount == -creates[pairs[n].1].payload.amount
    ensures var (now', removed') := Link(now, removed, PrimaryOf(creates, pairs[n]), SecondaryOf(creates, pairs[n]),
                                         transferAccounts);
            Progress(creates, now', removed', pairs, n + 1, transferAccounts)
  {
    FreshPair(pairs, n);
    var seen := UsedIn(pairs[..n]);
    assert |now| == |creates|;
    PrimaryIsOne(creates, pairs[n]);
    LinkFrame(now, removed, PrimaryOf(creates, pairs[n]), SecondaryOf(creates, pairs[n]), transferAccounts);
    hide UsedIn, Unlinked, LinkingState, IsMatching, PairDone, LinkTo, PrimaryOf, SecondaryOf, Link;
    AdvanceState(creates, now, removed, seen, pairs[n], transferAccounts);
    AdvancePair(creates, now, removed, seen, pairs[n], transferAccounts);
    var (now', removed') := Link(now, removed, PrimaryOf(creates, pairs[n]), SecondaryOf(creates, pairs[n]),
                                 transferAccounts);
    EarlierPairsStayDone(creates, now, removed, now', removed', pairs, n, transferAccounts);
  }

  /** Every create is listed or a secondary, nothing is added or lost, and exactly the linkable pairs are linked. */
  ghost predicate WellLinked(creates: seq<Create>, listed: seq<Create>, rule: MatchRule, transferAccounts: set<string>) {
    && multiset(AllLegs(listed)) == multiset(AllLegs(creates))
    && (forall p :: p in listed ==> GoodLink(p))
    && (forall i: nat, j: nat :: Linkable(creates, rule, transferAccounts, i, j) ==>
          LinkTo(creates[i], creates[j]) in listed)
    && forall i: nat ::
         i < |creates| && creates[i].payload.amount != 0 && NeverLinkable(creates, rule, transferAccounts, i) ==>
         creates[i] in listed
  }

  // --- what is linked, in the fields of the creates ---------------------------------------------------------------

  /** Other accounts, opposite amounts, close together, and one names the account number of the other. */
  ghost predicate TransferLegs(p: Create, q: Create, rule: MatchRule) {
    && p.provider + ":" + p.accountKey != q.provider + ":" + q.accountKey
    && p.payload.amount + q.payload.amount == 0
    && (match rule.unit
        case CalendarDays =>
          p.payload.date - q.payload.date <= rule.windowDays && q.payload.date - p.payload.date <= rule.windowDays
        case WorkingDays => rule.workingDays(p.payload.date, q.payload.date) <= rule.windowDays)
    && (  (p.remoteAccountNumber.Some? && q.accountNumber.Some? && p.remoteAccountNumber.value == q.accountNumber.value)
       || (q.remoteAccountNumber.Some? && p.accountNumber.Some? && q.remoteAccountNumber.value == p.accountNumber.value))
  }

  /** The creates at i and j are one transfer, and neither could be one with a third. */
  ghost predicate Isolated(creates: seq<Create>, rule: MatchRule, i: nat, j: nat) {
    && i < |creates| && j < |creates| && i != j && TransferLegs(creates[i], creates[j], rule)
    && forall k: nat :: k < |creates| && k != i && k != j ==>
         !TransferLegs(creates[i], creates[k], rule) && !TransferLegs(creates[j], creates[k], rule)
  }

  /** p is q, told to transfer to the account of s, which it has as its secondary. */
  ghost predicate Joins(p: Create, q: Create, s: Create) {
    && p.trackingKey == q.trackingKey && p.accountKey == q.accountKey && p.status == q.status
    && p.payload.account == q.payload.account && p.payload.date == q.payload.date
    && p.payload.amount == q.payload.amount && p.payload.cleared == q.payload.cleared
    && p.payload.importId == q.payload.importId
    && p.payload.payee == "" && p.payload.transferTo == Some(s.payload.account) && p.secondary == Some(s)
  }

  /** One transfer, from i to j, and YNAB has a transfer payee for the account of j. */
  ghost predicate CanJoin(creates: seq<Create>, rule: MatchRule, transferAccounts: set<string>, i: nat, j: nat) {
    && i < |creates| && j < |creates| && Isolated(creates, rule, i, j)
    && creates[i].payload.amount < 0 && creates[j].payload.account in transferAccounts
  }

  ghost predicate JoinsIsolated(creates: seq<Create>, rule: MatchRule, transferAccounts: set<string>, p: Create, i: nat,
                                j: nat) {
    && Isolated(creates, rule, i, j) && creates[i].payload.amount <= 0
    && creates[j].payload.account in transferAccounts && Joins(p, creates[i], creates[j])
  }

  /** Each isolated transfer of money is linked if it can be, and nothing else is changed. */
  ghost predicate LinksTransfers(creates: seq<Create>, listed: seq<Create>, rule: MatchRule,
                                 transferAccounts: set<string>) {
    && (forall i: nat, j: nat :: CanJoin(creates, rule, transferAccounts, i, j) ==>
          exists p :: p in listed && Joins(p, creates[i], creates[j]))
    && forall p :: p in listed ==> p in creates || IsLink(creates, rule, transferAccounts, p)
  }

  ghost predicate IsLink(creates: seq<Create>, rule: MatchRule, transferAccounts: set<string>, p: Create) {
    exists i: nat, j: nat :: JoinsIsolated(creates, rule, transferAccounts, p, i, j)
  }

  lemma CandidateLegs(p: Create, q: Create, rule: MatchRule, i: nat, j: nat)
    ensures CouldBeLegs(ToCandidate(p, i), ToCandidate(q, j), rule) <==> i != j && TransferLegs(p, q, rule)
  {
    MilliunitsRoundTrip(p.payload.amount);
    MilliunitsRoundTrip(q.payload.amount);
    hide FromMilliunits, ToMilliunits;
  }

  lemma LegsEitherWay(p: Create, q: Create, rule: MatchRule)
    requires SymmetricDays(rule)
    ensures TransferLegs(p, q, rule) <==> TransferLegs(q, p, rule)
  {
    assert rule.workingDays(p.payload.date, q.payload.date) == rule.workingDays(q.payload.date, p.payload.date);
  }

  lemma EdgeIffIsolated(creates: seq<Create>, rule: MatchRule, i: nat, j: nat)
    requires SymmetricDays(rule) && i < |creates| && j < |creates|
    ensures IsolatedEdge(Candidates(creates), Candidates(creates)[i], Candidates(creates)[j], rule)
       <==> Isolated(creates, rule, i, j)
  {
    var cs := Candidates(creates);
    forall a: nat, b: nat | a < |creates| && b < |creates|
      ensures CouldBeLegs(cs[a], cs[b], rule) <==> a != b && TransferLegs(creates[a], creates[b], rule)
    {
      CandidateLegs(creates[a], creates[b], rule, a, b);
    }
    LegsEitherWay(creates[i], creates[j], rule);
    forall a: nat, b: nat | a < |creates| && b < |creates| ensures cs[a] == cs[b] <==> a == b {
      assert cs[a].index == a && cs[b].index == b;
    }
    hide CouldBeLegs, TransferLegs, ToCandidate, SymmetricDays;
    EdgeAtPlaces(cs, rule, i, j);
  }

  /** An isolated edge, by places in the list. */
  lemma EdgeAtPlaces(cs: seq<TransferCandidate>, rule: MatchRule, i: nat, j: nat)
    requires i < |cs| && j < |cs| && forall a: nat, b: nat :: a < |cs| && b < |cs| ==> (cs[a] == cs[b] <==> a == b)
    ensures IsolatedEdge(cs, cs[i], cs[j], rule)
       <==> (&& CouldBeLegs(cs[i], cs[j], rule) && CouldBeLegs(cs[j], cs[i], rule)
             && (forall k: nat :: k < |cs| && k != j ==> !CouldBeLegs(cs[i], cs[k], rule))
             && (forall k: nat :: k < |cs| && k != i ==> !CouldBeLegs(cs[j], cs[k], rule)))
  {
    hide CouldBeLegs;
    assert forall k: nat :: k < |cs| ==> cs[k] in cs;
  }

  /** A listed create is one of the classified, or joins the two ends of an isolated edge. */
  lemma ListedIsLink(creates: seq<Create>, now: seq<Create>, removed: set<nat>, pairs: seq<(nat, nat)>,
                     rule: MatchRule, transferAccounts: set<string>, i: nat)
    requires |now| == |creates| && OnlyIsolated(Candidates(creates), pairs, rule) && SymmetricDays(rule)
    requires forall a :: 0 <= a < |pairs| ==> PairDone(creates, now, removed, pairs[a], transferAccounts)
    requires forall k :: 0 <= k < |creates| && k !in UsedIn(pairs) ==> now[k] == creates[k] && k !in removed
    requires i < |creates| && i !in removed
    ensures now[i] in creates || IsLink(creates, rule, transferAccounts, now[i])
  {
    hide IsolatedEdge, Candidates, OnlyIsolated, UsedIn, Isolated, SymmetricDays;
    if i in UsedIn(pairs) {
      var a := PairOf(creates, rule, pairs, i);
      var p, s := PrimaryOf(creates, pairs[a]), SecondaryOf(creates, pairs[a]);
      assert PairDone(creates, now, removed, pairs[a], transferAccounts);
      EdgeIffIsolated(creates, rule, p, s);
      if creates[s].payload.account in transferAccounts && i == p {
        assert JoinsIsolated(creates, rule, transferAccounts, now[i], p, s);
      }
    }
  }

  /** The creates of one budget.  `transferAccounts` are the accounts with a transfer payee. */
  method LinkTransfers(creates: seq<Create>, rule: MatchRule, transferAccounts: set<string>)
    returns (listed: seq<Create>)
    requires Unlinked(creates) && SymmetricDays(rule)
    ensures WellLinked(creates, listed, rule, transferAccounts)
    ensures LinksTransfers(creates, listed, rule, transferAccounts)
  {
    hide LinksTransfers;
    CandidatesDistinct(creates);
    var pairs := FindTransferPairs(Candidates(creates), rule);
    var now, removed := creates, {};
    StartsLinking(creates, pairs, transferAccounts);
    for n := 0 to |pairs|
      invariant |now| == |creates|
      invariant Progress(creates, now, removed, pairs, n, transferAccounts)
    {
      PairIsTransfer(creates, rule, pairs, n);
      Advance(creates, now, removed, pairs, n, transferAccounts);
      hide Progress, LinkTo;
      var primary, secondary := PrimaryOf(creates, pairs[n]), SecondaryOf(creates, pairs[n]);
      if now[secondary].payload.account in transferAccounts {
        now := now[primary := LinkTo(now[primary], now[secondary])];
        removed := removed + {secondary};
      }
    }
    listed := Kept(now, removed, 0);
    FinishLinking(creates, now, removed, pairs, rule, transferAccounts);
    LinkedAreTransfers(creates, now, removed, pairs, rule, transferAccounts);
  }

  lemma LinkedAreTransfers(creates: seq<Create>, now: seq<Create>, removed: set<nat>, pairs: seq<(nat, nat)>,
                           rule: MatchRule, transferAccounts: set<string>)
    requires Progress(creates, now, removed, pairs, |pairs|, transferAccounts) && SymmetricDays(rule)
    requires OnlyIsolated(Candidates(creates), pairs, rule)
    requires ListsIsolated(Candidates(creates), |creates|, pairs, rule)
    ensures LinksTransfers(creates, Kept(now, removed, 0), rule, transferAccounts)
  {
    hide LegsFrom, AllLegs, OnlyIsolated, ListsIsolated, GoodLink, IsolatedEdge, Candidates, Isolated, SymmetricDays;
    assert pairs[..|pairs|] == pairs;
    var listed := Kept(now, removed, 0);
    forall i: nat, j: nat | CanJoin(creates, rule, transferAccounts, i, j)
      ensures exists p :: p in listed && Joins(p, creates[i], creates[j])
    {
      EdgeIffIsolated(creates, rule, i, j);
      LinkedIsListed(creates, now, removed, pairs, rule, transferAccounts, i, j);
      assert Joins(LinkTo(creates[i], creates[j]), creates[i], creates[j]);
    }
    forall p | p in listed ensures p in creates || IsLink(creates, rule, transferAccounts, p) {
      var k :| 0 <= k < |now| && k !in removed && now[k] == p;
      ListedIsLink(creates, now, removed, pairs, rule, transferAccounts, k);
    }
  }

  lemma StartsLinking(creates: seq<Create>, pairs: seq<(nat, nat)>, transferAccounts: set<string>)
    requires Unlinked(creates)
    ensures Progress(creates, creates, {}, pairs, 0, transferAccounts)
  {
    assert forall k :: 0 <= k < |creates| ==> creates[k] in creates;
  }

  lemma FinishLinking(creates: seq<Create>, now: seq<Create>, removed: set<nat>, pairs: seq<(nat, nat)>,
                      rule: MatchRule, transferAccounts: set<string>)
    requires Progress(creates, now, removed, pairs, |pairs|, transferAccounts)
    requires OnlyIsolated(Candidates(creates), pairs, rule)
    requires ListsIsolated(Candidates(creates), |creates|, pairs, rule)
    ensures WellLinked(creates, Kept(now, removed, 0), rule, transferAccounts)
  {
    hide LegsFrom, AllLegs, LinkTo, OnlyIsolated, ListsIsolated, GoodLink, NeverLinkable, IsolatedEdge, Candidates;
    assert pairs[..|pairs|] == pairs;
    KeptLegs(now, removed, 0);
    forall i: nat, j: nat | Linkable(creates, rule, transferAccounts, i, j)
      ensures LinkTo(creates[i], creates[j]) in Kept(now, removed, 0)
    {
      LinkedIsListed(creates, now, removed, pairs, rule, transferAccounts, i, j);
    }
    forall i: nat | i < |creates| && creates[i].payload.amount != 0 && NeverLinkable(creates, rule, transferAccounts, i)
      ensures creates[i] in Kept(now, removed, 0)
    {
      UnlinkedIsListed(creates, now, removed, pairs, rule, transferAccounts, i);
    }
  }

  lemma EarlierPairsStayDone(creates: seq<Create>, now: seq<Create>, removed: set<nat>, now': seq<Create>,
                             removed': set<nat>, pairs: seq<(nat, nat)>, n: nat, transferAccounts: set<string>)
    requires IsMatching(pairs) && n < |pairs| && |now| == |now'| == |creates| && removed <= removed'
    requires forall a :: 0 <= a < n ==> PairDone(creates, now, removed, pairs[a], transferAccounts)
    requires forall k :: 0 <= k < |now| && k != pairs[n].0 && k != pairs[n].1 ==> now'[k] == now[k]
    requires forall k :: k in removed' && k !in removed ==> k == pairs[n].0 || k == pairs[n].1
    ensures forall a :: 0 <= a < n ==> PairDone(creates, now', removed', pairs[a], transferAccounts)
  {
    hide LinkTo;
    forall a | 0 <= a < n ensures PairDone(creates, now', removed', pairs[a], transferAccounts) {
      assert PairDone(creates, now, removed, pairs[a], transferAccounts);
      assert pairs[a].0 != pairs[n].0 && pairs[a].0 != pairs[n].1 && pairs[a].1 != pairs[n].0 && pairs[a].1 != pairs[n].1;
    }
  }

  lemma {:induction false} InKept(creates: seq<Create>, removed: set<nat>, from: nat, k: nat)
    requires from <= k < |creates| && k !in removed
    ensures creates[k] in Kept(creates, removed, from)
    decreases |creates| - from
  {
    if from < k {
      InKept(creates, removed, from + 1, k);
    }
  }

  lemma LinkedIsListed(creates: seq<Create>, now: seq<Create>, removed: set<nat>, pairs: seq<(nat, nat)>,
                       rule: MatchRule, transferAccounts: set<string>, i: nat, j: nat)
    requires |now| == |creates| && OnlyIsolated(Candidates(creates), pairs, rule)
    requires ListsIsolated(Candidates(creates), |creates|, pairs, rule)
    requires forall a :: 0 <= a < |pairs| ==> PairDone(creates, now, removed, pairs[a], transferAccounts)
    requires Linkable(creates, rule, transferAccounts, i, j)
    ensures LinkTo(creates[i], creates[j]) in Kept(now, removed, 0)
  {
    hide LinkTo, Kept, IsolatedEdge;
    var candidates := Candidates(creates);
    assert candidates[j] in candidates;
    assert Paired(pairs, candidates[i].index, candidates[j].index);
    var pair := if (i, j) in pairs then (i, j) else (j, i);
    var a :| 0 <= a < |pairs| && pairs[a] == pair;
    PairIsTransfer(creates, rule, pairs, a);
    assert PairDone(creates, now, removed, pairs[a], transferAccounts);
    InKept(now, removed, 0, i);
  }

  lemma EdgeIsSymmetric(candidates: seq<TransferCandidate>, c: TransferCandidate, d: TransferCandidate, rule: MatchRule)
    requires IsolatedEdge(candidates, c, d, rule)
    ensures IsolatedEdge(candidates, d, c, rule)
  {
  }

  /** The pair that holds i, with its outflow first. */
  lemma PairOf(creates: seq<Create>, rule: MatchRule, pairs: seq<(nat, nat)>, i: nat) returns (a: nat)
    requires OnlyIsolated(Candidates(creates), pairs, rule) && i in UsedIn(pairs)
    ensures a < |pairs| && pairs[a].0 < |creates| && pairs[a].1 < |creates|
    ensures creates[pairs[a].0].payload.amount == -creates[pairs[a].1].payload.amount
    ensures var p, s := PrimaryOf(creates, pairs[a]), SecondaryOf(creates, pairs[a]);
            && (i == p || i == s)
            && IsolatedEdge(Candidates(creates), Candidates(creates)[p], Candidates(creates)[s], rule)
  {
    var p :| p in pairs && (p.0 == i || p.1 == i);
    a :| 0 <= a < |pairs| && pairs[a] == p;
    hide IsolatedEdge, OnlyIsolated, UsedIn, Candidates;
    PairIsTransfer(creates, rule, pairs, a);
    EdgeIsSymmetric(Candidates(creates), Candidates(creates)[pairs[a].0], Candidates(creates)[pairs[a].1], rule);
  }

  lemma UnlinkedIsListed(creates: seq<Create>, now: seq<Create>, removed: set<nat>, pairs: seq<(nat, nat)>,
                         rule: MatchRule, transferAccounts: set<string>, i: nat)
    requires |now| == |creates| && OnlyIsolated(Candidates(creates), pairs, rule)
    requires forall a :: 0 <= a < |pairs| ==> PairDone(creates, now, removed, pairs[a], transferAccounts)
    requires forall k :: 0 <= k < |creates| && k !in UsedIn(pairs) ==> now[k] == creates[k] && k !in removed
    requires i < |creates| && creates[i].payload.amount != 0
    requires NeverLinkable(creates, rule, transferAccounts, i)
    ensures creates[i] in Kept(now, removed, 0)
  {
    hide LinkTo, Kept, IsolatedEdge, Candidates, OnlyIsolated, UsedIn;
    if i in UsedIn(pairs) {
      var a := PairOf(creates, rule, pairs, i);
      assert PairDone(creates, now, removed, pairs[a], transferAccounts);
      var p, s := PrimaryOf(creates, pairs[a]), SecondaryOf(creates, pairs[a]);
      assert !Linkable(creates, rule, transferAccounts, p, s);
    }
    InKept(now, removed, 0, i);
  }

  /** _match_transfers: budget by budget, so that no link crosses budgets. */
  method MatchTransfers(batches: seq<Batch<Create>>, rule: MatchRule, transferAccounts: string -> set<string>)
    returns (linked: seq<Batch<Create>>)
    requires SymmetricDays(rule) && forall b :: b in batches ==> Unlinked(b.items)
    ensures |linked| == |batches|
    ensures forall n :: 0 <= n < |batches| ==>
        linked[n].budget == batches[n].budget
        && WellLinked(batches[n].items, linked[n].items, rule, transferAccounts(batches[n].budget))
        && LinksTransfers(batches[n].items, linked[n].items, rule, transferAccounts(batches[n].budget))
  {
    hide WellLinked, LinksTransfers, Unlinked;
    linked := [];
    for n := 0 to |batches|
      invariant |linked| == n
      invariant forall m :: 0 <= m < n ==>
          linked[m].budget == batches[m].budget
          && WellLinked(batches[m].items, linked[m].items, rule, transferAccounts(batches[m].budget))
          && LinksTransfers(batches[m].items, linked[m].items, rule, transferAccounts(batches[m].budget))
    {
      var listed := LinkTransfers(batches[n].items, rule, transferAccounts(batches[n].budget));
      linked := linked + [Batch(batches[n].budget, listed)];
    }
  }

  // --- consequences ---------------------------------------------------------------------------------

  function Sum(legs: seq<Create>, weight: Create -> int): int {
    if legs == [] then 0 else weight(legs[0]) + Sum(legs[1..], weight)
  }

  lemma SumStep(legs: seq<Create>, weight: Create -> int)
    requires legs != []
    ensures Sum(legs, weight) == weight(legs[0]) + Sum(legs[1..], weight)
  {
  }

  lemma {:induction false} SumWithout(legs: seq<Create>, i: nat, weight: Create -> int)
    requires i < |legs|
    ensures Sum(legs, weight) == weight(legs[i]) + Sum(legs[..i] + legs[i + 1..], weight)
  {
    hide Sum;
    var rest := legs[..i] + legs[i + 1..];
    SumStep(legs, weight);
    if i > 0 {
      SumWithout(legs[1..], i - 1, weight);
      assert legs[1..][..i - 1] + legs[1..][i..] == rest[1..];
      SumStep(rest, weight);
    } else {
      assert rest == legs[1..];
    }
  }

  lemma {:induction false} SumIgnoresOrder(xs: seq<Create>, ys: seq<Create>, weight: Create -> int)
    requires multiset(xs) == multiset(ys)
    ensures Sum(xs, weight) == Sum(ys, weight)
    decreases |xs|
  {
    assert |multiset(xs)| == |xs| && |multiset(ys)| == |ys|;
    if xs == [] {
      assert ys == [];
    } else {
      var i := SameHead(xs, ys);
      SumIgnoresOrder(xs[1..], ys[..i] + ys[i + 1..], weight);
      SumWithout(ys, i, weight);
      SumStep(xs, weight);
    }
  }

  lemma SameHead(xs: seq<Create>, ys: seq<Create>) returns (i: nat)
    requires xs != [] && multiset(xs) == multiset(ys)
    ensures i < |ys| && ys[i] == xs[0] && multiset(xs[1..]) == multiset(ys[..i] + ys[i + 1..])
  {
    assert xs[0] in multiset(xs);
    assert xs[0] in ys;
    i :| 0 <= i < |ys| && ys[i] == xs[0];
    assert ys == ys[..i] + [ys[i]] + ys[i + 1..];
    assert xs == [xs[0]] + xs[1..];
    assert multiset(ys) == multiset(ys[..i] + ys[i + 1..]) + multiset{xs[0]};
    assert multiset(xs) == multiset(xs[1..]) + multiset{xs[0]};
    assert multiset(xs[1..]) == multiset(xs) - multiset{xs[0]};
  }

  function Total(creates: seq<Create>): int {
    Sum(creates, (p: Create) => p.payload.amount)
  }

  /** How many legs carry a tracking key. */
  function CountKey(legs: seq<Create>, key: string): int {
    Sum(legs, (p: Create) => if p.trackingKey == key then 1 else 0)
  }

  /**
   * Linking conserves money and creates: the total over listed creates and secondaries is unchanged, and with
   * distinct tracking keys every create is a leg exactly once, listed or as a secondary but never both.
   */
  lemma LinkingConserves(creates: seq<Create>, listed: seq<Create>, rule: MatchRule, transferAccounts: set<string>,
                         key: string)
    requires WellLinked(creates, listed, rule, transferAccounts)
    ensures Total(AllLegs(listed)) == Total(AllLegs(creates))
    ensures CountKey(AllLegs(listed), key) == CountKey(AllLegs(creates), key)
  {
    SumIgnoresOrder(AllLegs(listed), AllLegs(creates), (p: Create) => p.payload.amount);
    SumIgnoresOrder(AllLegs(listed), AllLegs(creates), (p: Create) => if p.trackingKey == key then 1 else 0);
  }

  lemma FreshPair(pairs: seq<(nat, nat)>, n: nat)
    requires IsMatching(pairs) && n < |pairs|
    ensures pairs[n].0 != pairs[n].1
    ensures pairs[n].0 !in UsedIn(pairs[..n]) && pairs[n].1 !in UsedIn(pairs[..n])
    ensures UsedIn(pairs[..n + 1]) == UsedIn(pairs[..n]) + {pairs[n].0, pairs[n].1}
  {
    assert pairs[n] in pairs;
    assert pairs[..n + 1] == pairs[..n] + [pairs[n]];
    assert forall p :: p in pairs[..n + 1] <==> p in pairs[..n] || p == pairs[n];
    forall p | p in pairs[..n] ensures p.0 != pairs[n].0 && p.0 != pairs[n].1 && p.1 != pairs[n].0 && p.1 != pairs[n].1 {
      var a :| 0 <= a < n && pairs[..n][a] == p;
      assert pairs[a] == p;
    }
  }
}
