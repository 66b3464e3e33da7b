/**
 * sync/pending_match.py: correlating a booked transaction with the pending
 * row it settles, and the tolerant match against hand-typed entries.
 */
module PendingMatch {
  import opened Wrappers
  import opened Sequences
  import opened DateWindow
  import Sanitize
  import Money

  datatype PendingCandidate = PendingCandidate(
    index: nat, trackingKey: string, txnId: nat, budget: string, accountKey: string,
    amount: real, date: int, payee: string)

  datatype BookedCandidate = BookedCandidate(accountKey: string, amount: real, date: int, payee: string)

  /** A not-yet-imported YNAB transaction offered to the manual matchers. */
  datatype ManualCandidate = ManualCandidate(id: nat, amount: int, date: int, split: bool, payee: string)

  datatype Match = Match(candidate: PendingCandidate, amountDiff: real, dateDiffDays: nat,
                         payeeMatched: bool, similarity: real)

  /** The keyword arguments of both matchers, plus payee normalisation and the working-day calendar. */
  datatype Options = Options(
    toleranceKroner: real, windowDays: int, unit: MatchWindowUnit, workingDays: WorkingDayCount,
    requirePayeeMatch: bool, minPrefixLen: nat, minSimilarity: real, minMargin: real,
    normalise: string -> string)

  predicate AmountWithinTolerance(a: real, b: real, tolerance: real) {
    (if a < b then b - a else a - b) <= tolerance
  }

  // --- ranking and refusing to guess --------------------------------------------

  /** Insert x into a list ranked by falling score, before anything of equal score. */
  function Insert<T>(x: T, ranked: seq<T>, score: T -> real): seq<T> {
    if ranked == [] || score(ranked[0]) <= score(x) then [x] + ranked
    else [ranked[0]] + Insert(x, ranked[1..], score)
  }

  /** sorted(..., key=score, reverse=True), which keeps the order of equal scores. */
  function Ranked<T>(pool: seq<T>, score: T -> real): seq<T> {
    if pool == [] then [] else Insert(pool[0], Ranked(pool[1..], score), score)
  }

  ghost predicate FallingScores<T>(ranked: seq<T>, score: T -> real) {
    forall i, j :: 0 <= i < j < |ranked| ==> score(ranked[i]) >= score(ranked[j])
  }

  lemma {:induction false} InsertKeepsRanking<T>(x: T, ranked: seq<T>, score: T -> real)
    requires FallingScores(ranked, score)
    ensures multiset(Insert(x, ranked, score)) == multiset{x} + multiset(ranked)
    ensures FallingScores(Insert(x, ranked, score), score)
  {
    if ranked != [] && score(ranked[0]) > score(x) {
      var head, rest := ranked[0], Insert(x, ranked[1..], score);
      assert Insert(x, ranked, score) == [head] + rest;
      InsertKeepsRanking(x, ranked[1..], score);
      hide Insert;
      assert ranked == [head] + ranked[1..];
      forall d | d in rest ensures score(head) >= score(d) {
        assert d in multiset(rest);
        assert d == x || d in multiset(ranked[1..]);
      }
      FallingCons(head, rest, score);
    }
  }

  lemma FallingCons<T>(head: T, rest: seq<T>, score: T -> real)
    requires FallingScores(rest, score) && forall d :: d in rest ==> score(head) >= score(d)
    ensures FallingScores([head] + rest, score)
  {
  }

  lemma {:induction false} RankedIsSorted<T>(pool: seq<T>, score: T -> real)
    ensures multiset(Ranked(pool, score)) == multiset(pool)
    ensures |Ranked(pool, score)| == |pool|
    ensures FallingScores(Ranked(pool, score), score)
  {
    if pool != [] {
      RankedIsSorted(pool[1..], score);
      InsertKeepsRanking(pool[0], Ranked(pool[1..], score), score);
      hide Insert, FallingScores;
      assert pool == [pool[0]] + pool[1..];
      SameSize(Ranked(pool, score), pool);
    }
  }

  lemma SameSize<T>(xs: seq<T>, ys: seq<T>)
    ensures multiset(xs) == multiset(ys) ==> |xs| == |ys|
  {
    assert |multiset(xs)| == |xs| && |multiset(ys)| == |ys|;
  }

  /** The common ending of both matchers: none, the only survivor, or a clear winner. */
  function Disambiguate<T>(pool: seq<T>, score: T -> real, minSimilarity: real, minMargin: real): Option<(T, real)> {
    if pool == [] then None
    else if |pool| == 1 then Some((pool[0], 1.0))
    else
      RankedIsSorted(pool, score);
      var ranked := Ranked(pool, score);
      var best, runnerUp := score(ranked[0]), score(ranked[1]);
      if best >= minSimilarity && best - runnerUp >= minMargin then Some((ranked[0], best)) else None
  }

  /** c is the only survivor, or reaches the floor and leads every other survivor by the margin. */
  ghost predicate ClearWinner<T(!new)>(pool: multiset<T>, score: T -> real, minSimilarity: real, minMargin: real,
                                       c: T, similarity: real) {
    && c in pool
    && if |pool| == 1 then similarity == 1.0
       else
         && similarity == score(c)
         && similarity >= minSimilarity
         && forall d :: d in pool - multiset{c} ==> similarity - score(d) >= minMargin
  }

  lemma RestOfRanked<T(!new)>(ranked: seq<T>, pool: multiset<T>)
    requires multiset(ranked) == pool && |ranked| >= 2
    ensures multiset(ranked[1..]) == pool - multiset{ranked[0]}
    ensures ranked[1] in pool - multiset{ranked[0]}
    ensures forall d :: d in pool - multiset{ranked[0]} ==> exists k :: 1 <= k < |ranked| && ranked[k] == d
  {
    assert ranked == [ranked[0]] + ranked[1..];
    assert ranked[1..][0] in multiset(ranked[1..]);
    forall d | d in pool - multiset{ranked[0]} ensures exists k :: 1 <= k < |ranked| && ranked[k] == d {
      assert d in multiset(ranked[1..]);
      var k :| 0 <= k < |ranked[1..]| && ranked[1..][k] == d;
      assert ranked[k + 1] == d;
    }
  }

  lemma WinnerRanksFirst<T(!new)>(ranked: seq<T>, pool: multiset<T>, score: T -> real, minSimilarity: real,
                                  minMargin: real, c: T, similarity: real)
    requires minMargin > 0.0 && multiset(ranked) == pool && |ranked| >= 2 && FallingScores(ranked, score)
    requires |pool| == |ranked|
    ensures ClearWinner(pool, score, minSimilarity, minMargin, c, similarity)
       <==> c == ranked[0] && similarity == score(c) && similarity >= minSimilarity
            && similarity - score(ranked[1]) >= minMargin
  {
    RestOfRanked(ranked, pool);
    assert ranked[0] in multiset(ranked);
    OthersRemain(pool, c, ranked[0]);
    if ClearWinner(pool, score, minSimilarity, minMargin, c, similarity) {
      assert c in multiset(ranked);
      var k :| 0 <= k < |ranked| && ranked[k] == c;
      assert score(ranked[0]) >= score(c);
    }
  }

  lemma OthersRemain<T>(pool: multiset<T>, c: T, d: T)
    ensures d in pool && c != d ==> d in pool - multiset{c}
  {
  }

  /** With a positive margin the result is the clear winner, a notion that ignores order. */
  lemma DisambiguateFindsClearWinner<T(!new)>(pool: seq<T>, score: T -> real, minSimilarity: real, minMargin: real,
                                              c: T, similarity: real)
    requires minMargin > 0.0
    ensures Disambiguate(pool, score, minSimilarity, minMargin) == Some((c, similarity))
       <==> ClearWinner(multiset(pool), score, minSimilarity, minMargin, c, similarity)
  {
    assert |multiset(pool)| == |pool|;
    if |pool| == 1 {
      assert pool == [pool[0]];
    } else if |pool| >= 2 {
      RankedIsSorted(pool, score);
      WinnerRanksFirst(Ranked(pool, score), multiset(pool), score, minSimilarity, minMargin, c, similarity);
      hide *;
      assert Disambiguate(pool, score, minSimilarity, minMargin)
        == (var ranked := Ranked(pool, score);
            var best, runnerUp := score(ranked[0]), score(ranked[1]);
            if best >= minSimilarity && best - runnerUp >= minMargin then Some((ranked[0], best)) else None) by {
        DisambiguateRanked(pool, score, minSimilarity, minMargin);
      }
    }
  }

  lemma DisambiguateRanked<T>(pool: seq<T>, score: T -> real, minSimilarity: real, minMargin: real)
    requires |pool| >= 2
    ensures |Ranked(pool, score)| == |pool|
    ensures Disambiguate(pool, score, minSimilarity, minMargin)
        == var ranked := Ranked(pool, score);
           var best, runnerUp := score(ranked[0]), score(ranked[1]);
           if best >= minSimilarity && best - runnerUp >= minMargin then Some((ranked[0], best)) else None
  {
    RankedIsSorted(pool, score);
  }

  lemma TieKeepsOrder<T>(c: T, d: T, score: T -> real)
    requires score(c) == score(d)
    ensures Ranked([c, d], score) == [c, d]
  {
    assert [d][1..] == [] && [c, d][1..] == [d];
    assert Ranked([d], score) == Insert(d, Ranked([], score), score) == [d];
    assert Ranked([c, d], score) == Insert(c, Ranked([d], score), score);
  }

  /** Without a positive margin a tie goes to whoever is listed first. */
  lemma TieGoesToFirst<T>(c: T, d: T, score: T -> real, minSimilarity: real, minMargin: real)
    requires score(c) == score(d) >= minSimilarity && minMargin <= 0.0
    ensures Disambiguate([c, d], score, minSimilarity, minMargin) == Some((c, score(c)))
  {
    TieKeepsOrder(c, d, score);
  }

  // --- find_pending_match ---------------------------------------------------------

  predicate Plausible(booked: BookedCandidate, c: PendingCandidate, o: Options) {
    Sanitize.PayeesPlausiblyMatch(o.normalise(c.payee), o.normalise(booked.payee), o.minPrefixLen)
  }

  predicate PassesFilters(booked: BookedCandidate, c: PendingCandidate, o: Options) {
    && c.accountKey == booked.accountKey
    && AmountWithinTolerance(c.amount, booked.amount, o.toleranceKroner)
    && DaysBetween(c.date, booked.date, o.unit, o.workingDays) <= o.windowDays
    && (o.requirePayeeMatch ==> Plausible(booked, c, o))
  }

  function Score(booked: BookedCandidate, o: Options): PendingCandidate -> real {
    (c: PendingCandidate) => Sanitize.PayeeSimilarity(o.normalise(c.payee), o.normalise(booked.payee))
  }

  function Survivors(booked: BookedCandidate, candidates: seq<PendingCandidate>, o: Options): seq<PendingCandidate> {
    Filter(candidates, (c: PendingCandidate) => PassesFilters(booked, c, o))
  }

  function BuildMatch(booked: BookedCandidate, c: PendingCandidate, similarity: real, o: Options): Match {
    Match(c, booked.amount - c.amount, DaysBetween(c.date, booked.date, o.unit, o.workingDays),
          Plausible(booked, c, o), similarity)
  }

  function FindPendingMatch(booked: BookedCandidate, candidates: seq<PendingCandidate>, o: Options)
    : (found: Option<Match>)
    ensures found.Some? ==> found.value.candidate in candidates && PassesFilters(booked, found.value.candidate, o)
  {
    var pool := Survivors(booked, candidates, o);
    var winner := Disambiguate(pool, Score(booked, o), o.minSimilarity, o.minMargin);
    if winner.None? then None
    else
      assert winner.value.0 in pool by { WinnerIsInPool(pool, Score(booked, o), o.minSimilarity, o.minMargin); }
      FilterMembers(candidates, (c: PendingCandidate) => PassesFilters(booked, c, o));
      Some(BuildMatch(booked, winner.value.0, winner.value.1, o))
  }

  lemma WinnerIsInPool<T(!new)>(pool: seq<T>, score: T -> real, minSimilarity: real, minMargin: real)
    requires Disambiguate(pool, score, minSimilarity, minMargin).Some?
    ensures Disambiguate(pool, score, minSimilarity, minMargin).value.0 in pool
  {
    if |pool| > 1 {
      RankedIsSorted(pool, score);
      assert Ranked(pool, score)[0] in multiset(pool);
    }
  }

  // --- what fits, in the bank's own fields ------------------------------------------------------------------------

  /** At most the window apart: in calendar days, or by the working-day calendar. */
  ghost predicate CloseEnough(date: int, other: int, o: Options) {
    match o.unit
    case CalendarDays => date - other <= o.windowDays && other - date <= o.windowDays
    case WorkingDays => o.workingDays(date, other) <= o.windowDays
  }

  /** Both normalised payees say something, and agree as far as the shorter one and the required length go. */
  ghost predicate PayeesAgree(payee: string, other: string, o: Options) {
    var a, b := o.normalise(payee), o.normalise(other);
    && |a| > 0 && |b| > 0
    && forall i :: 0 <= i < o.minPrefixLen && i < |a| && i < |b| ==> a[i] == b[i]
  }

  /** One account, amounts at most the tolerance apart, dates at most the window, and payees that agree if they must. */
  ghost predicate CouldBecome(c: PendingCandidate, booked: BookedCandidate, o: Options) {
    && c.accountKey == booked.accountKey
    && c.amount - booked.amount <= o.toleranceKroner && booked.amount - c.amount <= o.toleranceKroner
    && CloseEnough(c.date, booked.date, o)
    && (o.requirePayeeMatch ==> PayeesAgree(c.payee, booked.payee, o))
  }

  lemma PlausibleIsAgreeing(a: string, b: string, n: nat)
    ensures Sanitize.PayeesPlausiblyMatch(a, b, n)
       <==> |a| > 0 && |b| > 0 && forall i :: 0 <= i < n && i < |a| && i < |b| ==> a[i] == b[i]
  {
    Sanitize.PlausibleMatchIsSharedPrefix(a, b, n);
    hide Sanitize.PayeesPlausiblyMatch;
  }

  lemma PassesIfCouldBecome(booked: BookedCandidate, c: PendingCandidate, o: Options)
    ensures PassesFilters(booked, c, o) <==> CouldBecome(c, booked, o)
    ensures Plausible(booked, c, o) <==> PayeesAgree(c.payee, booked.payee, o)
  {
    PlausibleIsAgreeing(o.normalise(c.payee), o.normalise(booked.payee), o.minPrefixLen);
    hide Sanitize.PayeesPlausiblyMatch;
  }

  function Similar(payee: string, other: string, o: Options): real {
    Sanitize.PayeeSimilarity(o.normalise(payee), o.normalise(other))
  }

  /** The only candidate that fits, or one that reaches the floor and leads every other one by the margin. */
  ghost predicate Leads(booked: BookedCandidate, candidates: seq<PendingCandidate>, o: Options, c: PendingCandidate,
                        similarity: real) {
    var fitting := multiset(Filter(candidates, (x: PendingCandidate) => CouldBecome(x, booked, o)));
    && c in fitting
    && if |fitting| == 1 then similarity == 1.0
       else
         && similarity == Similar(c.payee, booked.payee, o) && similarity >= o.minSimilarity
         && forall d :: d in fitting - multiset{c} ==> similarity - Similar(d.payee, booked.payee, o) >= o.minMargin
  }

  lemma SurvivorsFit(booked: BookedCandidate, candidates: seq<PendingCandidate>, o: Options)
    ensures Survivors(booked, candidates, o)
         == Filter(candidates, (x: PendingCandidate) => CouldBecome(x, booked, o))
  {
    forall c ensures PassesFilters(booked, c, o) <==> CouldBecome(c, booked, o) {
      PassesIfCouldBecome(booked, c, o);
    }
    hide PassesFilters, CouldBecome, Filter;
    FilterSame(candidates, (x: PendingCandidate) => PassesFilters(booked, x, o),
               (x: PendingCandidate) => CouldBecome(x, booked, o));
  }

  /** A match is returned exactly for the clear winner among the candidates that fit. */
  lemma PendingMatchIsClearWinner(booked: BookedCandidate, candidates: seq<PendingCandidate>, o: Options,
                                  c: PendingCandidate, similarity: real)
    requires o.minMargin > 0.0
    ensures FindPendingMatch(booked, candidates, o) == Some(BuildMatch(booked, c, similarity, o))
       <==> Leads(booked, candidates, o, c, similarity)
  {
    SurvivorsFit(booked, candidates, o);
    DisambiguateFindsClearWinner(Survivors(booked, candidates, o), Score(booked, o), o.minSimilarity, o.minMargin,
                                 c, similarity);
    hide Survivors, CouldBecome, PassesFilters, Sanitize.PayeeSimilarity, Disambiguate, Filter;
  }

  /** The matched candidate fits, and the match says how far apart the two are. */
  ghost predicate SaysHowFar(found: Match, booked: BookedCandidate, o: Options) {
    && CouldBecome(found.candidate, booked, o)
    && found.amountDiff == booked.amount - found.candidate.amount
    && found.dateDiffDays == (if o.unit == WorkingDays then o.workingDays(found.candidate.date, booked.date)
                              else if found.candidate.date < booked.date then booked.date - found.candidate.date
                              else found.candidate.date - booked.date)
    && (found.payeeMatched <==> PayeesAgree(found.candidate.payee, booked.payee, o))
  }

  /** The candidate at place n fits, and the candidate at no other place does. */
  ghost predicate OnlyFits(booked: BookedCandidate, candidates: seq<PendingCandidate>, n: nat, o: Options)
    requires n < |candidates|
  {
    forall i :: 0 <= i < |candidates| ==> (CouldBecome(candidates[i], booked, o) <==> i == n)
  }

  ghost predicate MatchesSurely(found: Option<Match>, c: PendingCandidate) {
    found.Some? && found.value.candidate == c && found.value.similarity == 1.0
  }

  /**
   * A match is a listed candidate that could have become the booked transaction.  If only one place in the list holds
   * such a candidate, that one is matched; if none does, nothing is.  The match says how far apart the two are.
   */
  lemma PendingMatchFits(booked: BookedCandidate, candidates: seq<PendingCandidate>, o: Options)
    ensures var found := FindPendingMatch(booked, candidates, o);
            && (found.Some? ==> found.value.candidate in candidates && SaysHowFar(found.value, booked, o))
            && ((forall c :: c in candidates ==> !CouldBecome(c, booked, o)) ==> found == None)
    ensures forall n :: 0 <= n < |candidates| && OnlyFits(booked, candidates, n, o) ==>
              MatchesSurely(FindPendingMatch(booked, candidates, o), candidates[n])
  {
    var keep := (c: PendingCandidate) => CouldBecome(c, booked, o);
    SurvivorsFit(booked, candidates, o);
    var found := FindPendingMatch(booked, candidates, o);
    if found.Some? {
      MatchSaysHowFar(booked, found.value.candidate, found.value.similarity, o);
    }
    hide CouldBecome, SaysHowFar, BuildMatch, Survivors, PassesFilters;
    if forall c :: c in candidates ==> !CouldBecome(c, booked, o) {
      FilterNone(candidates, keep);
    }
    forall n | 0 <= n < |candidates| && OnlyFits(booked, candidates, n, o)
      ensures MatchesSurely(found, candidates[n])
    {
      FilterOne(candidates, keep, n);
      SureMatch(booked, candidates, o, candidates[n]);
    }
  }

  lemma MatchSaysHowFar(booked: BookedCandidate, c: PendingCandidate, similarity: real, o: Options)
    ensures PassesFilters(booked, c, o) ==> SaysHowFar(BuildMatch(booked, c, similarity, o), booked, o)
  {
    PassesIfCouldBecome(booked, c, o);
    hide PassesFilters, CouldBecome, Plausible, PayeesAgree;
  }

  lemma SureMatch(booked: BookedCandidate, candidates: seq<PendingCandidate>, o: Options, c: PendingCandidate)
    requires Survivors(booked, candidates, o) == [c]
    ensures MatchesSurely(FindPendingMatch(booked, candidates, o), c)
  {
    hide Survivors, PassesFilters, Plausible;
  }

  /** With no positive margin, two tied candidates that pass every filter are told apart by their order alone. */
  lemma NoMarginDependsOnOrder(booked: BookedCandidate, c: PendingCandidate, d: PendingCandidate, o: Options)
    requires c != d && PassesFilters(booked, c, o) && PassesFilters(booked, d, o) && o.minMargin <= 0.0
    requires Score(booked, o)(c) == Score(booked, o)(d) >= o.minSimilarity
    ensures FindPendingMatch(booked, [c, d], o) == Some(BuildMatch(booked, c, Score(booked, o)(c), o))
    ensures FindPendingMatch(booked, [d, c], o) == Some(BuildMatch(booked, d, Score(booked, o)(d), o))
    ensures FindPendingMatch(booked, [c, d], o) != FindPendingMatch(booked, [d, c], o)
  {
    BothSurvive(booked, c, d, o);
    BothSurvive(booked, d, c, o);
    TieGoesToFirst(c, d, Score(booked, o), o.minSimilarity, o.minMargin);
    TieGoesToFirst(d, c, Score(booked, o), o.minSimilarity, o.minMargin);
    hide Disambiguate, Survivors, PassesFilters, Score;
  }

  lemma BothSurvive(booked: BookedCandidate, c: PendingCandidate, d: PendingCandidate, o: Options)
    requires PassesFilters(booked, c, o) && PassesFilters(booked, d, o)
    ensures Survivors(booked, [c, d], o) == [c, d]
  {
    hide PassesFilters;
    var keep := (x: PendingCandidate) => PassesFilters(booked, x, o);
    assert [c, d][1..] == [d] && [d][1..] == [];
    FilterStep([c, d], keep);
    FilterStep([d], keep);
    FilterStep([], keep);
  }

  lemma DisambiguateIgnoresOrder<T(!new)>(pool: seq<T>, pool': seq<T>, score: T -> real, minSimilarity: real,
                                          minMargin: real)
    requires minMargin > 0.0 && multiset(pool) == multiset(pool')
    ensures Disambiguate(pool, score, minSimilarity, minMargin) == Disambiguate(pool', score, minSimilarity, minMargin)
  {
    var r, r' := Disambiguate(pool, score, minSimilarity, minMargin), Disambiguate(pool', score, minSimilarity, minMargin);
    if r.Some? {
      DisambiguateFindsClearWinner(pool, score, minSimilarity, minMargin, r.value.0, r.value.1);
      DisambiguateFindsClearWinner(pool', score, minSimilarity, minMargin, r.value.0, r.value.1);
    } else if r'.Some? {
      DisambiguateFindsClearWinner(pool, score, minSimilarity, minMargin, r'.value.0, r'.value.1);
      DisambiguateFindsClearWinner(pool', score, minSimilarity, minMargin, r'.value.0, r'.value.1);
    }
  }

  /** Neither the order of the candidates nor extra candidates that fail a hard filter change the result. */
  lemma PendingMatchIgnoresOrderAndNoise(booked: BookedCandidate, candidates: seq<PendingCandidate>,
                                         noise: seq<PendingCandidate>, shuffled: seq<PendingCandidate>, o: Options)
    requires o.minMargin > 0.0
    requires forall c :: c in noise ==> !PassesFilters(booked, c, o)
    requires multiset(shuffled) == multiset(candidates + noise)
    ensures FindPendingMatch(booked, shuffled, o) == FindPendingMatch(booked, candidates, o)
  {
    var keep := (c: PendingCandidate) => PassesFilters(booked, c, o);
    FilterPermutation(shuffled, candidates + noise, keep);
    FilterConcat(candidates, noise, keep);
    FilterNone(noise, keep);
    DisambiguateIgnoresOrder(Survivors(booked, shuffled, o), Survivors(booked, candidates, o), Score(booked, o),
                             o.minSimilarity, o.minMargin);
  }

  // --- find_manual_match_tolerant ---------------------------------------------------

  predicate ManualPassesFilters(amount: real, date: int, c: ManualCandidate, o: Options) {
    && !c.split
    && AmountWithinTolerance(Money.FromMilliunits(c.amount), amount, o.toleranceKroner)
    && DaysBetween(c.date, date, o.unit, o.workingDays) <= o.windowDays
  }

  function ManualScore(payee: string, o: Options): ManualCandidate -> real {
    (c: ManualCandidate) => Sanitize.PayeeSimilarity(o.normalise(c.payee), o.normalise(payee))
  }

  function ManualSurvivors(amount: real, date: int, candidates: seq<ManualCandidate>, o: Options): seq<ManualCandidate> {
    Filter(candidates, (c: ManualCandidate) => ManualPassesFilters(amount, date, c, o))
  }

  function FindManualMatchTolerant(amount: real, date: int, candidates: seq<ManualCandidate>, payee: Option<string>,
                                   o: Options): (found: Option<ManualCandidate>)
    ensures found.Some? ==> found.value in candidates && ManualPassesFilters(amount, date, found.value, o)
  {
    var pool := ManualSurvivors(amount, date, candidates, o);
    if |pool| > 1 && payee.None? then None
    else
      var score := ManualScore(if payee.Some? then payee.value else "", o);
      var winner := Disambiguate(pool, score, o.minSimilarity, o.minMargin);
      if winner.None? then None
      else
        assert winner.value.0 in pool by { WinnerIsInPool(pool, score, o.minSimilarity, o.minMargin); }
        FilterMembers(candidates, (c: ManualCandidate) => ManualPassesFilters(amount, date, c, o));
        Some(winner.value.0)
  }

  /** Not split, its milliunits at most the tolerance from the amount, its date at most the window. */
  ghost predicate CouldBeTyped(c: ManualCandidate, amount: real, date: int, o: Options) {
    && !c.split
    && c.amount as real / 1000.0 - amount <= o.toleranceKroner
    && amount - c.amount as real / 1000.0 <= o.toleranceKroner
    && CloseEnough(c.date, date, o)
  }

  lemma PassesIfCouldBeTyped(amount: real, date: int, c: ManualCandidate, o: Options)
    ensures ManualPassesFilters(amount, date, c, o) <==> CouldBeTyped(c, amount, date, o)
  {
    Money.MilliunitsRoundTrip(c.amount);
  }

  /** The candidate at place n fits, and the candidate at no other place does. */
  ghost predicate OnlyTyped(amount: real, date: int, candidates: seq<ManualCandidate>, n: nat, o: Options)
    requires n < |candidates|
  {
    forall i :: 0 <= i < |candidates| ==> (CouldBeTyped(candidates[i], amount, date, o) <==> i == n)
  }

  /** The only candidate that fits, or one whose payee reaches the floor and leads every other one by the margin. */
  ghost predicate ManualLeads(amount: real, date: int, candidates: seq<ManualCandidate>, payee: string, o: Options,
                              c: ManualCandidate) {
    var fitting := multiset(Filter(candidates, (x: ManualCandidate) => CouldBeTyped(x, amount, date, o)));
    && c in fitting
    && (|fitting| > 1 ==>
          && Similar(c.payee, payee, o) >= o.minSimilarity
          && forall d :: d in fitting - multiset{c} ==>
               Similar(c.payee, payee, o) - Similar(d.payee, payee, o) >= o.minMargin)
  }

  lemma ManualSurvivorsFit(amount: real, date: int, candidates: seq<ManualCandidate>, o: Options)
    ensures ManualSurvivors(amount, date, candidates, o)
         == Filter(candidates, (x: ManualCandidate) => CouldBeTyped(x, amount, date, o))
  {
    forall c ensures ManualPassesFilters(amount, date, c, o) <==> CouldBeTyped(c, amount, date, o) {
      PassesIfCouldBeTyped(amount, date, c, o);
    }
    hide ManualPassesFilters, CouldBeTyped, Filter;
    FilterSame(candidates, (x: ManualCandidate) => ManualPassesFilters(amount, date, x, o),
               (x: ManualCandidate) => CouldBeTyped(x, amount, date, o));
  }

  /**
   * The tolerant matcher returns a listed candidate that fits; the one that fits if there is only one place for it,
   * with or without a payee; and nothing if none fits.
   */
  lemma ManualMatchFits(amount: real, date: int, candidates: seq<ManualCandidate>, payee: Option<string>, o: Options)
    ensures var found := FindManualMatchTolerant(amount, date, candidates, payee, o);
            && (found.Some? ==> found.value in candidates && CouldBeTyped(found.value, amount, date, o))
            && ((forall c :: c in candidates ==> !CouldBeTyped(c, amount, date, o)) ==> found == None)
    ensures forall n :: 0 <= n < |candidates| && OnlyTyped(amount, date, candidates, n, o) ==>
              FindManualMatchTolerant(amount, date, candidates, payee, o) == Some(candidates[n])
  {
    var keep := (c: ManualCandidate) => ManualPassesFilters(amount, date, c, o);
    forall c ensures ManualPassesFilters(amount, date, c, o) <==> CouldBeTyped(c, amount, date, o) {
      PassesIfCouldBeTyped(amount, date, c, o);
    }
    hide ManualPassesFilters, CouldBeTyped;
    FilterMembers(candidates, keep);
    if forall c :: c in candidates ==> !CouldBeTyped(c, amount, date, o) {
      FilterNone(candidates, keep);
    }
    forall n | 0 <= n < |candidates| && OnlyTyped(amount, date, candidates, n, o)
      ensures ManualSurvivors(amount, date, candidates, o) == [candidates[n]]
    {
      FilterOne(candidates, keep, n);
    }
  }

  /** Same for the tolerant manual matcher; a given payee decides ties, a missing one refuses them. */
  lemma ManualMatchIgnoresOrderAndNoise(amount: real, date: int, candidates: seq<ManualCandidate>,
                                        noise: seq<ManualCandidate>, shuffled: seq<ManualCandidate>,
                                        payee: Option<string>, o: Options)
    requires o.minMargin > 0.0
    requires forall c :: c in noise ==> !ManualPassesFilters(amount, date, c, o)
    requires multiset(shuffled) == multiset(candidates + noise)
    ensures FindManualMatchTolerant(amount, date, shuffled, payee, o)
         == FindManualMatchTolerant(amount, date, candidates, payee, o)
    ensures payee.None? && FindManualMatchTolerant(amount, date, candidates, payee, o).Some? ==>
        ManualSurvivors(amount, date, candidates, o)
          == [FindManualMatchTolerant(amount, date, candidates, payee, o).value]
  {
    var keep := (c: ManualCandidate) => ManualPassesFilters(amount, date, c, o);
    FilterPermutation(shuffled, candidates + noise, keep);
    FilterConcat(candidates, noise, keep);
    FilterNone(noise, keep);
    var pool, pool' := ManualSurvivors(amount, date, candidates, o), ManualSurvivors(amount, date, shuffled, o);
    assert |multiset(pool)| == |pool| && |multiset(pool')| == |pool'|;
    DisambiguateIgnoresOrder(pool', pool, ManualScore(if payee.Some? then payee.value else "", o),
                             o.minSimilarity, o.minMargin);
  }

  /** With a payee, the tolerant manual matcher also returns exactly the clear winner. */
  lemma ManualMatchIsClearWinner(amount: real, date: int, candidates: seq<ManualCandidate>, payee: string, o: Options,
                                 c: ManualCandidate)
    requires o.minMargin > 0.0
    ensures FindManualMatchTolerant(amount, date, candidates, Some(payee), o) == Some(c)
       <==> ManualLeads(amount, date, candidates, payee, o, c)
  {
    ManualSurvivorsFit(amount, date, candidates, o);
    var pool, score := ManualSurvivors(amount, date, candidates, o), ManualScore(payee, o);
    var winner := Disambiguate(pool, score, o.minSimilarity, o.minMargin);
    var s := if winner.Some? then winner.value.1 else if |pool| == 1 then 1.0 else score(c);
    DisambiguateFindsClearWinner(pool, score, o.minSimilarity, o.minMargin, c, s);
    DisambiguateFindsClearWinner(pool, score, o.minSimilarity, o.minMargin, c, if |pool| == 1 then 1.0 else score(c));
    assert |multiset(pool)| == |pool|;
    hide ManualSurvivors, CouldBeTyped, ManualPassesFilters, Sanitize.PayeeSimilarity, Disambiguate, Filter;
  }
}
