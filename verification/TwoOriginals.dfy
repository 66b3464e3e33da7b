/**
 * One purchase reported twice in one fetch, over two amounts, and a
 * hand-typed transaction for each: both are claimed under one import_id.
 */
module TwoOriginals {
  import opened Wrappers
  import opened Ynab
  import opened StateDb
  import opened SyncSpec
  import opened Classification
  import opened Sequences
  import opened DateWindow
  import opened PendingMatch
  import opened CandidateCache
  import opened ManualReplacement
  import opened Creation
  import Money
  import Readd

  function Typed(amount: int): Txn { Txn("home", "checking", 10, amount, "Shop", Cleared, None, None, false, false) }

  function BothTyped(): Ledger { [Typed(5000), Typed(6000)] }

  const FIVE := ManualCandidate(0, 5000, 10, false, "Shop")
  const SIX := ManualCandidate(1, 6000, 10, false, "Shop")

  function TwoTyped(o: Options): Context { OneTyped(o).(ledger := BothTyped()) }

  function Report(amount: real): Ntx { Ntx("acct", "N", "SB1:N", 10, amount, "SHOP 1", true, None, None) }

  const AT_FIVE := NewMatch(SHOP, Report(5.0), FIVE)
  const AT_SIX := NewMatch(SHOP, Report(6.0), SIX)
  const TWO_CLAIMS := Cycle([], map[], map[], [Batch("home", [AT_FIVE, AT_SIX])])
  const TWO_REPORTS := [Fetched("bank", Report(5.0)), Fetched("bank", Report(6.0))]

  lemma ClaimShapes()
    ensures AT_FIVE == ManualMatch("N", Payload("checking", 10, 5000, "Shop", Cleared, "SB1:N", None), 0, Booked, "acct", "SHOP 1")
    ensures AT_SIX == ManualMatch("N", Payload("checking", 10, 6000, "Shop", Cleared, "SB1:N", None), 1, Booked, "acct", "SHOP 1")
  {
  }

  lemma BothListed()
    ensures ListUnimported(BothTyped(), "home", "checking", -20) == [FIVE, SIX]
  {
    var l := BothTyped();
    assert ListUnimported(l, "home", "checking", -20, 2) == [];
    assert ListUnimported(l, "home", "checking", -20, 1) == [SIX];
  }

  lemma EachFitsOne(o: Options)
    requires o.unit == CalendarDays
    ensures ManualMatchFor(OneTyped(o).rules, Report(5.0), [FIVE, SIX]) == Some(FIVE)
    ensures ManualMatchFor(OneTyped(o).rules, Report(6.0), [SIX]) == Some(SIX)
  {
    assert 5.0 * 1000.0 == 5000.0 && 6.0 * 1000.0 == 6000.0;
    var five := (c: ManualCandidate) => SameAmountInWindow(OneTyped(o).rules, Report(5.0), c);
    var six := (c: ManualCandidate) => SameAmountInWindow(OneTyped(o).rules, Report(6.0), c);
    assert [FIVE, SIX][1..] == [SIX] && [SIX][1..] == [];
    FilterStep([FIVE, SIX], five);
    FilterStep([SIX], five);
    FilterStep([], five);
    FilterStep([SIX], six);
    FilterStep([], six);
  }

  lemma ReportAccepted(o: Options, amount: real)
    ensures Accepted(TwoTyped(o), "bank", Report(amount))
  {
    assert DateOf(-10 * SECONDS_PER_DAY) == -10;
  }

  const AFTER_FIVE := Sorting(map["checking" := (-20, [SIX])], map[], Cycle([], map[], map[], [Batch("home", [AT_FIVE])]))

  lemma FirstClaim(o: Options)
    requires o.unit == CalendarDays
    ensures SortOne(TwoTyped(o), "bank", NOTHING_SORTED, Report(5.0)) == AFTER_FIVE
  {
    var ctx, ntx := TwoTyped(o), Report(5.0);
    BothListed();
    EachFitsOne(o);
    ReportAccepted(o, 5.0);
    assert ManualCandidates(ctx, map[], SHOP, 10) == (map["checking" := (-20, [FIVE, SIX])], [FIVE, SIX]);
    hide ManualCandidates, ManualMatchFor, Accepted, NewMatch, ListUnimported;
    assert Classify(ctx.table, ctx.rules, "bank", SHOP, ntx, [FIVE, SIX], []) == MatchedManual(AT_FIVE, FIVE);
    assert [FIVE, SIX][1..] == [SIX];
    assert Remove([FIVE, SIX], FIVE) == [SIX];
    var none: seq<Batch<ManualMatch>> := [];
    assert AddTo(none, "home", AT_FIVE) == [Batch("home", [AT_FIVE])];
    var cache := map["checking" := (-20, [FIVE, SIX])];
    assert cache["checking" := (-20, [SIX])] == map["checking" := (-20, [SIX])];
  }

  lemma SecondClaim(o: Options)
    requires o.unit == CalendarDays
    ensures SortOne(TwoTyped(o), "bank", AFTER_FIVE, Report(6.0)).cycle == TWO_CLAIMS
  {
    var ctx, ntx := TwoTyped(o), Report(6.0);
    EachFitsOne(o);
    ReportAccepted(o, 6.0);
    assert ManualCandidates(ctx, AFTER_FIVE.manual, SHOP, 10) == (AFTER_FIVE.manual, [SIX]);
    hide ManualCandidates, ManualMatchFor, Accepted, NewMatch;
    assert Classify(ctx.table, ctx.rules, "bank", SHOP, ntx, [SIX], []) == MatchedManual(AT_SIX, SIX);
    assert AddTo([Batch("home", [AT_FIVE])], "home", AT_SIX) == [Batch("home", [AT_FIVE, AT_SIX])] by {
      assert [Batch("home", [AT_FIVE])][1..] == [] && [AT_FIVE] + [AT_SIX] == [AT_FIVE, AT_SIX];
    }
  }

  lemma BothClaimed(o: Options)
    requires o.unit == CalendarDays
    ensures CycleOf(TwoTyped(o), TWO_REPORTS) == TWO_CLAIMS
  {
    var ctx := TwoTyped(o);
    FirstClaim(o);
    SecondClaim(o);
    hide SortOne, NewMatch;
    assert TWO_REPORTS[1..] == [Fetched("bank", Report(6.0))] && TWO_REPORTS[1..][1..] == [];
    assert SortAll(ctx, NOTHING_SORTED, TWO_REPORTS) == SortAll(ctx, AFTER_FIVE, TWO_REPORTS[1..]);
    assert SortAll(ctx, AFTER_FIVE, TWO_REPORTS[1..])
        == SortAll(ctx, SortOne(ctx, "bank", AFTER_FIVE, Report(6.0)), []);
  }

  // --- what the cycle does ------------------------------------------------------------------------------------------

  const REPLACED := NewTxn("home", AT_FIVE.payload, None)

  /** The transaction over five is there twice, the one over six is gone. */
  function FiveTwice(): Ledger { [Typed(5000), Typed(6000).(deleted := true), REPLACED] }

  const ANSWER := Reported(2, Some("SB1:N"), None, None, "Shop")

  function TwoAndOne(): Ledger { [Typed(5000), Typed(6000), REPLACED] }

  lemma FirstIsCreated(cfg: Settings)
    requires NoNativeMatching(cfg.native)
    ensures CreateOne(BothTyped(), cfg.native, "home", AT_FIVE.payload)
         == (TwoAndOne(), Response([ANSWER], []))
  {
    ClaimShapes();
    var l := BothTyped();
    assert !Burned(l, "home", "SB1:N");
    assert l + [REPLACED] == TwoAndOne();
    CreateOneOrdinary(l, cfg.native, "home", AT_FIVE.payload);
    hide NewMatch, CreateOne;
  }

  lemma SecondIsDuplicate(cfg: Settings)
    ensures CreateOne(TwoAndOne(), cfg.native, "home", AT_SIX.payload) == (TwoAndOne(), Response([], ["SB1:N"]))
  {
    ClaimShapes();
    assert Holds(TwoAndOne()[2], "home", "SB1:N");
    hide NewMatch;
  }

  /** A batch of two, of which the second is a duplicate by then. */
  lemma OneIsCreated(l: Ledger, l': Ledger, native: NativeMatcher, p: Payload, q: Payload, row: Reported)
    requires CreateOne(l, native, "home", p) == (l', Response([row], []))
    requires CreateOne(l', native, "home", q) == (l', Response([], [q.importId]))
    ensures CreateAll(l, native, "home", [p, q]) == (l', Response([row], [q.importId]))
  {
    hide CreateOne;
    assert [q][1..] == [] && [p, q][1..] == [q];
    var none: seq<string> := [];
    var no: seq<Reported> := [];
    assert [q.importId] + [] == [q.importId] && no + no == no && [row] + [] == [row]
      && none + [q.importId] == [q.importId];
    assert CreateAll(l', native, "home", []) == (l', Response([], []));
    assert CreateAll(l', native, "home", [q]) == (l', Response([], [q.importId]));
  }

  lemma LastFound()
    ensures FindMatch([AT_FIVE, AT_SIX], "SB1:N") == Some(AT_SIX)
  {
    ClaimShapes();
  }

  function Tracked(now: int): Table { Upsert(map[], "N", MatchFacts("home", AT_SIX, 2), now) }

  /** The answer is taken for the second claim, whose original is deleted. */
  lemma SixIsDeleted(cfg: Settings, w: World)
    requires w.script == [] && w.status == Running && w.table == map[]
    requires w.ledger == TwoAndOne()
    ensures MatchRows(w, "home", [AT_FIVE, AT_SIX], [ANSWER])
         == CountCreated(w.(table := Tracked(w.now), ledger := FiveTwice()))
  {
    ClaimShapes();
    LastFound();
    assert Delete(w.ledger, "home", 1) == FiveTwice();
    hide FindMatch, MatchFacts, Upsert, Delete, NewMatch, FiveTwice;
    var w1 := MatchRow(w, "home", [AT_FIVE, AT_SIX], ANSWER);
    assert w1 == FinishFallback(w, "home", AT_SIX, 2);
    assert w1 == CountCreated(w.(table := Tracked(w.now), ledger := FiveTwice()));
    hide MatchRow, FinishFallback;
    assert [ANSWER][1..] == [];
    assert MatchRows(w, "home", [AT_FIVE, AT_SIX], [ANSWER]) == MatchRows(w1, "home", [AT_FIVE, AT_SIX], []) == w1;
  }

  /** The duplicate is the second claim again, and its original is gone already. */
  lemma NothingMoreIsDeleted(cfg: Settings, w: World)
    requires w.script == [] && w.status == Running && w.table == Tracked(w.now) && w.ledger == FiveTwice()
    ensures MatchDuplicates(w, cfg, "home", [AT_FIVE, AT_SIX], ["SB1:N"]) == w
  {
    ClaimShapes();
    LastFound();
    assert Tracked(w.now)["N"].facts.txnId == 2;
    assert Delete(FiveTwice(), "home", 1) == FiveTwice();
    hide FindMatch, Delete, NewMatch, FiveTwice, Tracked, FindByImportId;
    var w1 := MatchDuplicate(w, cfg, "home", [AT_FIVE, AT_SIX], "SB1:N");
    assert w1 == DeleteOriginal(w, "home", 1) == w;
    hide MatchDuplicate;
    assert ["SB1:N"][1..] == [];
  }

  /** The same through the engine. */
  lemma OneIsPosted(w: World, cfg: Settings, m1: ManualMatch, m2: ManualMatch, l': Ledger, row: Reported)
    requires w.script == []
    requires CreateOne(w.ledger, cfg.native, "home", m1.payload) == (l', Response([row], []))
    requires CreateOne(l', cfg.native, "home", m2.payload) == (l', Response([], [m2.payload.importId]))
    ensures PostCreates(w, cfg, "home", MatchPayloads([m1, m2]))
         == (w.(ledger := l'), Response([row], [m2.payload.importId]))
  {
    var ps := MatchPayloads([m1, m2]);
    assert ps == [m1.payload, m2.payload];
    hide CreateOne, MatchPayloads;
    OneIsCreated(w.ledger, l', cfg.native, m1.payload, m2.payload, row);
    hide CreateAll;
  }

  lemma ClaimsPosted(cfg: Settings, w: World)
    requires w.script == [] && w.ledger == BothTyped() && NoNativeMatching(cfg.native)
    ensures PostCreates(w, cfg, "home", MatchPayloads([AT_FIVE, AT_SIX]))
         == (w.(ledger := TwoAndOne()), Response([ANSWER], ["SB1:N"]))
  {
    FirstIsCreated(cfg);
    SecondIsDuplicate(cfg);
    ClaimShapes();
    hide NewMatch, TwoAndOne, MatchPayloads, PostCreates, BothTyped, CreateOne;
    OneIsPosted(w, cfg, AT_FIVE, AT_SIX, TwoAndOne(), ANSWER);
  }

  lemma ClaimsSubmitted(cfg: Settings, now: int)
    requires NoNativeMatching(cfg.native)
    ensures var w := Submit(Attempt(map[], BothTyped(), [], now), cfg, TWO_CLAIMS, []);
            w.status == Running && w.ledger == FiveTwice()
  {
    hide NewMatch, FiveTwice, TwoAndOne, Tracked, FindMatch, MatchRows, MatchDuplicates, MatchPayloads, Submit,
         PostCreates, BothTyped, CreateOne;
    var w0 := Attempt(map[], BothTyped(), [], now);
    var posted := w0.(ledger := TwoAndOne());
    var recorded := CountCreated(posted.(table := Tracked(now), ledger := FiveTwice()));
    ClaimsPosted(cfg, w0);
    SixIsDeleted(cfg, posted);
    NothingMoreIsDeleted(cfg, recorded);
    assert SubmitMatches(w0, cfg, Batch("home", [AT_FIVE, AT_SIX])) == recorded;
    hide SubmitMatches;
    OnlyMatches(w0, cfg, Batch("home", [AT_FIVE, AT_SIX]));
  }

  lemma WhatIsVisible()
    ensures var l := FiveTwice();
            && Visible(l, 0) && Visible(l, 2) && l[0].amount == l[2].amount == 5000 && !Visible(l, 1)
            && !ExactlyOneVisible(l, "home", AT_FIVE) && IsMatch(TWO_CLAIMS, "home", AT_FIVE)
            && forall i: nat :: Visible(l, i) ==> l[i].amount != 6000
  {
    ClaimShapes();
    var l := FiveTwice();
    assert Replacement(l, "home", AT_FIVE, 2);
    hide NewMatch;
    assert AT_FIVE in TWO_CLAIMS.matches[0].items;
  }

  /**
   * One purchase is reported over 5.00 and again over 6.00 in one fetch, and both amounts were typed in.  Without any
   * fault, and without YNAB matching anything itself, the cycle leaves the first original beside its replacement,
   * and 6.00 nowhere.
   */
  lemma ReportedTwiceClaimsTwo(o: Options, cfg: Settings, now: int)
    requires o.unit == CalendarDays && NoNativeMatching(cfg.native)
    ensures var cycle := CycleOf(TwoTyped(o), TWO_REPORTS);
            var w := Submit(Attempt(map[], BothTyped(), [], now), cfg, cycle, []);
            && w.status == Running && IsMatch(cycle, "home", AT_FIVE) && !ExactlyOneVisible(w.ledger, "home", AT_FIVE)
            && Visible(w.ledger, 0) && Visible(w.ledger, 2) && w.ledger[0].amount == w.ledger[2].amount == 5000
            && forall i: nat :: Visible(w.ledger, i) ==> w.ledger[i].amount != 6000
  {
    BothClaimed(o);
    ClaimsSubmitted(cfg, now);
    WhatIsVisible();
    hide *;
  }
}
