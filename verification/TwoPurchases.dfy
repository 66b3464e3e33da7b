/**
 * Two purchases of the same amount, days apart, and one hand-typed
 * transaction: the second cycle deletes what the first one had matched.
 */
module TwoPurchases {
  import opened Wrappers
  import opened Ynab
  import opened StateDb
  import opened SyncSpec
  import opened Classification
  import opened CandidateCache
  import opened Sequences
  import opened DateWindow
  import opened PendingMatch
  import Money
  import ManualReplacement
  import opened RepeatedRecovery
  import RepeatedMatching
  import Readd

  /** The account of the hand-typed transaction, with other stores. */
  function Later(o: Options, t: Table, l: Ledger): Context { OneTyped(o).(table := t, ledger := l) }

  function ClaimOn(key: string, date: int): ManualMatch { NewMatch(SHOP, Purchase(key, date), TYPED_CANDIDATE) }

  function Claim(key: string): ManualMatch { ClaimOn(key, 11) }

  function ClaimCycle(key: string): Cycle { Cycle([], map[], map[], [Batch("home", [Claim(key)])]) }

  ghost predicate NothingPending(t: Table) { forall k :: k in t ==> t[k].facts.status != Pending }

  /** As long as the hand-typed transaction is listed alone, a purchase of its amount claims it. */
  lemma PurchaseClaims(o: Options, t: Table, l: Ledger, key: string)
    requires o.unit == CalendarDays && key !in t && NothingPending(t)
    requires ListUnimported(l, "home", "checking", 11 - 30) == [TYPED_CANDIDATE]
    ensures CycleOf(Later(o, t, l), [Fetched("bank", Purchase(key, 11))]) == ClaimCycle(key)
  {
    var ctx, ntx := Later(o, t, l), Purchase(key, 11);
    TypedIsMatched(o, key, 11);
    assert EarliestPending(t, "acct").None?;
    assert Accepted(ctx, "bank", ntx);
    hide Accepted, ManualMatchFor, NewMatch, ListUnimported;
    assert ManualCandidates(ctx, map[], SHOP, 11) == (map["checking" := (-19, [TYPED_CANDIDATE])], [TYPED_CANDIDATE]);
    assert Classify(t, ctx.rules, "bank", SHOP, ntx, [TYPED_CANDIDATE], []) == MatchedManual(Claim(key), TYPED_CANDIDATE);
    var none: seq<Batch<ManualMatch>> := [];
    assert AddTo(none, "home", Claim(key)) == [Batch("home", [Claim(key)])];
    hide ManualCandidates, Classify, AddTo;
    var feed := [Fetched("bank", ntx)];
    assert feed[1..] == [];
    var s1 := SortOne(ctx, "bank", NOTHING_SORTED, ntx);
    assert SortAll(ctx, NOTHING_SORTED, feed) == SortAll(ctx, s1, []);
  }

  /** YNAB's own matching, picking the hand-typed transaction whenever it can be matched. */
  function Picking(cfg: Settings): Settings { cfg.(native := (l: Ledger, b: string, p: Payload) => Some(0)) }

  const KEPT := TYPED.(matched := Some(1), cleared := Cleared)

  function ImportedOn(key: string, date: int, matched: Option<nat>): Txn {
    NewTxn("home", ClaimOn(key, date).payload, matched)
  }

  function Imported(key: string, matched: Option<nat>): Txn { ImportedOn(key, 11, matched) }

  /** After the first purchase: matched natively, and tracked as the hand-typed transaction. */
  function OneMatched(key: string): Ledger { [KEPT, Imported(key, Some(0))] }

  function Tracked(t: Table, key: string, txnId: nat, now: int): Table {
    Upsert(t, key, MatchFacts("home", Claim(key), txnId), now)
  }

  lemma ClaimShape(key: string, date: int := 11)
    ensures ClaimOn(key, date) == ManualMatch(key, Payload("checking", date, 5000, "Shop", Cleared, "SB1:" + key, None),
                                              0, Booked, "acct", "SHOP 1")
  {
  }

  lemma FirstCreate(cfg: Settings, key: string)
    ensures CreateOne([TYPED], Picking(cfg).native, "home", Claim(key).payload)
         == (OneMatched(key), Response([Reported(1, Some("SB1:" + key), Some(0), None, "Shop"),
                                        Reported(0, None, Some(1), None, "Shop")], []))
  {
    ClaimShape(key);
    var l: Ledger := [TYPED];
    assert !Burned(l, "home", "SB1:" + key);
    assert l[0 := KEPT] + [Imported(key, Some(0))] == OneMatched(key);
  }

  lemma FirstSubmission(cfg: Settings, key: string, now: int)
    ensures var w := Submit(Attempt(map[], [TYPED], [], now), Picking(cfg), ClaimCycle(key), []);
            w.status == Running && w.ledger == OneMatched(key) && w.table == Tracked(map[], key, 0, now)
  {
    var w0 := Attempt(map[], [TYPED], [], now);
    var m := Claim(key);
    var posted := w0.(ledger := OneMatched(key));
    var rows := [Reported(1, Some("SB1:" + key), Some(0), None, "Shop"), Reported(0, None, Some(1), None, "Shop")];
    ClaimShape(key);
    FirstCreate(cfg, key);
    hide CreateOne, Picking, MatchFacts, Upsert, Claim, MatchRows, OneMatched, SubmitMatches, FinishNative;
    MatchPosted(w0, Picking(cfg), "home", m);
    BookedNative(posted, m);
    var w1 := FinishNative(posted, "home", m);
    FindsOnly(m);
    assert MatchRow(posted, "home", [m], rows[0]) == w1 && MatchRow(w1, "home", [m], rows[1]) == w1;
    TwoRows(posted, w1, m, rows);
    OnlyMatches(w0, Picking(cfg), Batch("home", [m]));
  }

  /** A booked import leaves the flag alone that YNAB gave its original. */
  lemma BookedNative(w: World, m: ManualMatch)
    requires m.status == Booked
    ensures FinishNative(w, "home", m)
         == CountUpdated(w.(table := Upsert(w.table, m.trackingKey, MatchFacts("home", m, m.originalId), w.now)))
  {
    hide Upsert, Money.FromMilliunits;
  }

  lemma TwoRows(posted: World, w1: World, m: ManualMatch, rows: seq<Reported>)
    requires |rows| == 2 && posted.status == w1.status == Running
    requires MatchRow(posted, "home", [m], rows[0]) == w1 && MatchRow(w1, "home", [m], rows[1]) == w1
    ensures MatchRows(posted, "home", [m], rows) == w1
  {
    hide MatchRow;
    assert rows[1..][0] == rows[1] && rows[1..][1..] == [];
    assert MatchRows(w1, "home", [m], rows[1..]) == MatchRows(w1, "home", [m], []);
  }

  // --- the second cycle -----------------------------------------------------------------------------------

  /** The matched transaction is gone; of the two purchases only the second one shows. */
  function OneLeft(key1: string, key2: string, date: int := 11): Ledger {
    [KEPT.(deleted := true), Imported(key1, Some(0)), ImportedOn(key2, date, None)]
  }

  lemma ListedAgain(key: string)
    ensures ListUnimported(OneMatched(key), "home", "checking", 11 - 30) == [TYPED_CANDIDATE]
  {
    assert ListUnimported(OneMatched(key), "home", "checking", 11 - 30, 2) == [];
    assert ListUnimported(OneMatched(key), "home", "checking", 11 - 30, 1) == [];
  }

  lemma SecondCreate(cfg: Settings, key1: string, key2: string, date: int := 11)
    requires key1 != key2
    ensures CreateOne(OneMatched(key1), Picking(cfg).native, "home", ClaimOn(key2, date).payload)
         == (OneMatched(key1) + [ImportedOn(key2, date, None)],
             Response([Reported(2, Some("SB1:" + key2), None, None, "Shop")], []))
  {
    ClaimShape(key1);
    ClaimShape(key2, date);
    var l := OneMatched(key1);
    assert ("SB1:" + key1)[4..] == key1 && ("SB1:" + key2)[4..] == key2;
    assert !Holds(l[0], "home", "SB1:" + key2) && !Holds(l[1], "home", "SB1:" + key2);
    assert !Burned(l, "home", "SB1:" + key2);
  }

  lemma SecondSubmission(cfg: Settings, t: Table, key1: string, key2: string, now: int)
    requires key1 != key2
    ensures var w := Submit(Attempt(t, OneMatched(key1), [], now), Picking(cfg), ClaimCycle(key2), []);
            w.status == Running && w.ledger == OneLeft(key1, key2) && w.table == Tracked(t, key2, 2, now)
  {
    var w0 := Attempt(t, OneMatched(key1), [], now);
    var m := Claim(key2);
    var l1 := OneMatched(key1) + [Imported(key2, None)];
    var posted := w0.(ledger := l1);
    var row := Reported(2, Some("SB1:" + key2), None, None, "Shop");
    ClaimShape(key2);
    SecondCreate(cfg, key1, key2);
    assert l1[0 := l1[0].(deleted := true)] == OneLeft(key1, key2);
    assert TypedIn(l1, "home", 0);
    hide CreateOne, Picking, MatchFacts, Upsert, Claim, MatchRows, OneLeft, OneMatched, SubmitMatches, TypedIn;
    MatchPosted(w0, Picking(cfg), "home", m);
    FallbackEnding(posted, "home", m, [row]);
    OnlyMatches(w0, Picking(cfg), Batch("home", [m]));
  }

  /**
   * The first purchase is matched to the hand-typed transaction and tracked as it.  The second one, of the same
   * amount, claims it again, and as YNAB cannot match it twice it is deleted: the first purchase does not show
   * anywhere, though its row still points at it.
   */
  lemma SecondPurchaseHidesFirst(o: Options, cfg: Settings, key1: string, key2: string, now: int)
    requires o.unit == CalendarDays && key1 != key2
    ensures var first := CycleOf(Later(o, map[], [TYPED]), [Fetched("bank", Purchase(key1, 11))]);
            var w1 := Submit(Attempt(map[], [TYPED], [], now), Picking(cfg), first, []);
            var second := CycleOf(Later(o, w1.table, w1.ledger), [Fetched("bank", Purchase(key2, 11))]);
            var w2 := Submit(Attempt(w1.table, w1.ledger, [], now), Picking(cfg), second, []);
            && w1.status == w2.status == Running
            && RepeatedMatching.NativelyMatched(w1.ledger, 0) && w1.ledger[0].amount == 5000
            && w2.ledger == OneLeft(key1, key2) && !Visible(w2.ledger, 0) && !Visible(w2.ledger, 1)
            && key1 in w2.table && w2.table[key1].facts.txnId == 0
  {
    var t1 := Tracked(map[], key1, 0, now);
    FirstListing();
    ListedAgain(key1);
    RowsAfter(key1, key2, now);
    LedgersAfter(key1, key2);
    hide Tracked, OneMatched, OneLeft, CycleOf, Submit, ClaimCycle, Picking, Later, ListUnimported, NothingPending;
    PurchaseClaims(o, map[], [TYPED], key1);
    FirstSubmission(cfg, key1, now);
    PurchaseClaims(o, t1, OneMatched(key1), key2);
    SecondSubmission(cfg, t1, key1, key2, now);
  }

  lemma RowsAfter(key1: string, key2: string, now: int)
    requires key1 != key2
    ensures var t1 := Tracked(map[], key1, 0, now);
            var t2 := Tracked(t1, key2, 2, now);
            && NothingPending(map[]) && NothingPending(t1) && key2 !in t1
            && key1 in t2 && t2[key1].facts.txnId == 0
  {
    ClaimShape(key1);
    hide Money.ToMilliunits, Money.FromMilliunits;
  }

  lemma LedgersAfter(key1: string, key2: string)
    ensures var l1, l2 := OneMatched(key1), OneLeft(key1, key2);
            && RepeatedMatching.NativelyMatched(l1, 0) && l1[0].amount == 5000
            && !Visible(l2, 0) && !Visible(l2, 1)
  {
    ClaimShape(key1);
  }

  lemma FirstListing()
    ensures ListUnimported([TYPED], "home", "checking", 11 - 30) == [TYPED_CANDIDATE]
  {
    assert ListUnimported([TYPED], "home", "checking", 11 - 30, 1) == [];
  }

  // --- both in one cycle ------------------------------------------------------------------------------------

  /** The three rows that YNAB reports when both replacements are created in one call. */
  function BothRows(key1: string, key2: string): seq<Reported> {
    [Reported(1, Some("SB1:" + key1), Some(0), None, "Shop"), Reported(0, None, Some(1), None, "Shop"),
     Reported(2, Some("SB1:" + key2), None, None, "Shop")]
  }

  lemma BothCreated(cfg: Settings, key1: string, key2: string)
    requires key1 != key2
    ensures CreateAll([TYPED], Picking(cfg).native, "home", [Claim(key1).payload, ClaimOn(key2, 10).payload])
         == (OneMatched(key1) + [ImportedOn(key2, 10, None)], Response(BothRows(key1, key2), []))
  {
    var native := Picking(cfg).native;
    var p1, p2 := Claim(key1).payload, ClaimOn(key2, 10).payload;
    FirstCreate(cfg, key1);
    SecondCreate(cfg, key1, key2, 10);
    Readd.OneCreateAnswers(OneMatched(key1), native, "home", p2);
    assert [p1, p2][1..] == [p2];
    hide CreateOne, Claim, ClaimOn, Picking;
    var (l1, r1) := CreateOne([TYPED], native, "home", p1);
    var (l2, r2) := CreateAll(l1, native, "home", [p2]);
    assert CreateAll([TYPED], native, "home", [p1, p2]) == (l2, Response(r1.rows + r2.rows, r1.duplicates + r2.duplicates));
    assert r1.rows + r2.rows == BothRows(key1, key2);
  }

  lemma FindsBoth(m1: ManualMatch, m2: ManualMatch)
    requires m1.payload.importId != m2.payload.importId
    ensures FindMatch([m1, m2], m1.payload.importId) == Some(m1) && FindMatch([m1, m2], m2.payload.importId) == Some(m2)
  {
    assert [m1, m2][..1] == [m1];
    FindsOnly(m1);
  }

  /** The first match ends natively, and the second one deletes what it matched. */
  lemma BothRecorded(cfg: Settings, posted: World, key1: string, key2: string)
    requires key1 != key2 && posted.script == [] && posted.status == Running
    requires posted.ledger == OneMatched(key1) + [ImportedOn(key2, 10, None)]
    ensures var w := MatchRows(posted, "home", [Claim(key1), ClaimOn(key2, 10)], BothRows(key1, key2));
            w.status == Running && w.ledger == OneLeft(key1, key2, 10)
  {
    var m1, m2 := Claim(key1), ClaimOn(key2, 10);
    var rows := BothRows(key1, key2);
    ClaimShape(key1);
    ClaimShape(key2, 10);
    assert ("SB1:" + key1)[4..] == key1 && ("SB1:" + key2)[4..] == key2;
    FindsBoth(m1, m2);
    assert Delete(posted.ledger, "home", 0) == OneLeft(key1, key2, 10);
    hide FindMatch, MatchFacts, Upsert, Delete, OneLeft, OneMatched, Claim, ClaimOn, FinishNative;
    BookedNative(posted, m1);
    var w1 := FinishNative(posted, "home", m1);
    var w2 := FinishFallback(w1, "home", m2, 2);
    SmoothFallback(w1, m2, 2);
    hide FinishFallback;
    ThreeRows(posted, w1, w2, [m1, m2], rows);
  }

  lemma SmoothFallback(w: World, m: ManualMatch, shadowId: nat)
    requires w.script == [] && w.status == Running
    ensures FinishFallback(w, "home", m, shadowId).status == Running
    ensures FinishFallback(w, "home", m, shadowId).ledger == Delete(w.ledger, "home", m.originalId)
  {
    hide Upsert, MatchFacts, Delete;
  }

  lemma ThreeRows(posted: World, w1: World, w2: World, ms: seq<ManualMatch>, rows: seq<Reported>)
    requires |rows| == 3 && posted.status == w1.status == w2.status == Running
    requires MatchRow(posted, "home", ms, rows[0]) == w1 && MatchRow(w1, "home", ms, rows[1]) == w1
    requires MatchRow(w1, "home", ms, rows[2]) == w2
    ensures MatchRows(posted, "home", ms, rows) == w2
  {
    hide MatchRow;
    assert rows[1..][0] == rows[1] && rows[1..][1..] == rows[2..] && rows[2..][0] == rows[2] && rows[2..][1..] == [];
    assert MatchRows(w2, "home", ms, []) == w2;
    assert MatchRows(w1, "home", ms, rows[2..]) == w2;
    assert MatchRows(w1, "home", ms, rows[1..]) == w2;
  }

  lemma BothSubmitted(cfg: Settings, key1: string, key2: string, cycle: Cycle, now: int)
    requires key1 != key2
    requires cycle == Cycle([], map[], map[], [Batch("home", [Claim(key1), ClaimOn(key2, 10)])])
    ensures var w := Submit(Attempt(map[], [TYPED], [], now), Picking(cfg), cycle, []);
            w.status == Running && w.ledger == OneLeft(key1, key2, 10)
  {
    var w0 := Attempt(map[], [TYPED], [], now);
    var ms := [Claim(key1), ClaimOn(key2, 10)];
    assert MatchPayloads(ms) == [Claim(key1).payload, ClaimOn(key2, 10).payload];
    BothCreated(cfg, key1, key2);
    hide CreateAll, Claim, ClaimOn, Picking, OneLeft, OneMatched;
    var posted := w0.(ledger := OneMatched(key1) + [ImportedOn(key2, 10, None)]);
    assert PostCreates(w0, Picking(cfg), "home", MatchPayloads(ms)) == (posted, Response(BothRows(key1, key2), []));
    BothRecorded(cfg, posted, key1, key2);
    hide PostCreates, MatchPayloads, MatchRows, BothRows;
    var w1 := SubmitMatches(w0, Picking(cfg), Batch("home", ms));
    assert w1.status == Running && w1.ledger == OneLeft(key1, key2, 10);
    hide SubmitMatches;
    OnlyMatches(w0, Picking(cfg), Batch("home", ms));
  }

  /**
   * The double claim of a late widening, submitted without any fault: the first purchase is neither visible as the
   * hand-typed transaction it was matched to, which the second one deletes, nor under its own import_id.
   */
  lemma LateWideningLosesMoney(o: Options, cfg: Settings, key1: string, key2: string, now: int)
    requires o.unit == CalendarDays && key1 != key2
    ensures var cycle := CycleOf(OneTyped(o), [Fetched("bank", Purchase(key1, 11)), Fetched("bank", Purchase(key2, 10))]);
            var w := Submit(Attempt(map[], [TYPED], [], now), Picking(cfg), cycle, []);
            && w.status == Running && ManualReplacement.IsMatch(cycle, "home", Claim(key1))
            && !Visible(w.ledger, Claim(key1).originalId)
            && !ManualReplacement.Replaced(w.ledger, "home", Claim(key1))
  {
    var cycle := CycleOf(OneTyped(o), [Fetched("bank", Purchase(key1, 11)), Fetched("bank", Purchase(key2, 10))]);
    LateWideningClaimsTwice(o, key1, key2);
    assert cycle == Cycle([], map[], map[], [Batch("home", [Claim(key1), ClaimOn(key2, 10)])]);
    BothSubmitted(cfg, key1, key2, cycle, now);
    NotReplaced(key1, key2);
    hide CycleOf, Submit, Claim, ClaimOn, Picking, OneLeft;
    assert Claim(key1) in cycle.matches[0].items;
  }

  lemma NotReplaced(key1: string, key2: string)
    requires key1 != key2
    ensures !ManualReplacement.Replaced(OneLeft(key1, key2, 10), "home", Claim(key1))
    ensures !Visible(OneLeft(key1, key2, 10), 0) && Claim(key1).originalId == 0
  {
    ClaimShape(key1);
    ClaimShape(key2, 10);
    assert ("SB1:" + key1)[4..] == key1 && ("SB1:" + key2)[4..] == key2;
  }
}
