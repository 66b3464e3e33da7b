/**
 * What a recovery does when every call works, and what it does when the same
 * correction is submitted once more.
 */
module RepeatedRecovery {
  import opened Wrappers
  import opened Ynab
  import opened StateDb
  import opened SyncSpec
  import opened Sequences
  import opened ImportIds
  import opened Recovery
  import opened Readd
  import DateWindow
  import Money
  import PendingMatch

  // --- one replacement, every call working --------------------------------------------------------------

  /** A fresh match on a visible, unimported transaction; YNAB's native matching, if it fires, picks that one. */
  ghost predicate FreshMatch(w: World, cfg: Settings, b: string, m: ManualMatch) {
    && w.script == [] && w.status == Running && TypedIn(w.ledger, b, m.originalId)
    && m.payload.transferTo.None? && !Burned(w.ledger, b, m.payload.importId)
    && var native := cfg.native(w.ledger, b, m.payload); native.Some? ==> native.value == m.originalId
  }

  /** A visible transaction of this budget that no source imported. */
  ghost predicate TypedIn(l: Ledger, b: string, id: nat) {
    id < |l| && IsVisible(l[id]) && l[id].importId.None? && l[id].budget == b
  }

  /** YNAB matches the replacement natively. */
  predicate FiresFor(w: World, cfg: Settings, b: string, m: ManualMatch) {
    cfg.native(w.ledger, b, m.payload).Some? && CanMatch(w.ledger, m.originalId, b, m.payload)
  }

  lemma CreateForMatch(w: World, cfg: Settings, b: string, m: ManualMatch)
    requires FreshMatch(w, cfg, b, m)
    ensures var (l', r) := CreateOne(w.ledger, cfg.native, b, m.payload);
            var id := |w.ledger|;
            && r.duplicates == [] && |l'| == id + 1
            && (forall i :: 0 <= i < id && i != m.originalId ==> l'[i] == w.ledger[i])
            && l'[m.originalId] == w.ledger[m.originalId].(
                 matched := l'[m.originalId].matched, cleared := l'[m.originalId].cleared)
            && l'[id] == NewTxn(b, m.payload, if FiresFor(w, cfg, b, m) then Some(m.originalId) else None)
            && if FiresFor(w, cfg, b, m) then
                 r.rows == [Reported(id, Some(m.payload.importId), Some(m.originalId), None, m.payload.payee),
                            Reported(m.originalId, None, Some(id), None, w.ledger[m.originalId].payee)]
               else r.rows == [Reported(id, Some(m.payload.importId), None, None, m.payload.payee)]
  {
  }

  lemma FindsOnly(m: ManualMatch)
    ensures FindMatch([m], m.payload.importId) == Some(m)
  {
  }

  /** Which transaction the row ends up with. */
  function TrackedId(w: World, cfg: Settings, b: string, m: ManualMatch): nat {
    if FiresFor(w, cfg, b, m) then m.originalId else |w.ledger|
  }

  /** The original is left as it was but for its match and its flag; or it is deleted, and the import shows instead. */
  ghost predicate ShowsOnce(l: Ledger, l': Ledger, b: string, m: ManualMatch, native: bool)
    requires m.originalId < |l|
  {
    && |l'| == |l| + 1 && (forall i :: 0 <= i < |l| && i != m.originalId ==> l'[i] == l[i])
    && l'[|l|] == NewTxn(b, m.payload, l'[|l|].matched) && (IsVisible(l'[|l|]) <==> !native)
    && l'[m.originalId] == l[m.originalId].(matched := l'[m.originalId].matched, cleared := l'[m.originalId].cleared,
                                            deleted := !native)
  }

  /**
   * A replacement in which every call works: exactly one of the original and its import is visible afterwards, the
   * row points at that one, and no other transaction or row has changed.
   */
  lemma ReplacementEffect(w: World, cfg: Settings, b: string, m: ManualMatch)
    requires FreshMatch(w, cfg, b, m)
    ensures var w' := SubmitMatches(w, cfg, Batch(b, [m]));
            && w'.status == Running && w'.script == [] && w'.now == w.now
            && w'.table == Upsert(w.table, m.trackingKey, MatchFacts(b, m, TrackedId(w, cfg, b, m)), w.now)
            && ShowsOnce(w.ledger, w'.ledger, b, m, FiresFor(w, cfg, b, m))
  {
    var (l', r) := CreateOne(w.ledger, cfg.native, b, m.payload);
    var posted := w.(ledger := l');
    CreateForMatch(w, cfg, b, m);
    MatchPosted(w, cfg, b, m);
    hide CreateOne, MatchFacts, Upsert, FiresFor, SubmitMatches, MatchRows, ShowsOnce;
    assert TypedIn(posted.ledger, b, m.originalId);
    if FiresFor(w, cfg, b, m) {
      NativeEnding(posted, b, m, r.rows);
    } else {
      FallbackEnding(posted, b, m, r.rows);
    }
    hide TypedIn, CanMatch;
    EndingShowsOnce(w, cfg, b, m, l', MatchRows(posted, b, [m], r.rows).ledger);
  }

  /** The create and one of the two endings, put together. */
  lemma EndingShowsOnce(w: World, cfg: Settings, b: string, m: ManualMatch, l': Ledger, l'': Ledger)
    requires m.originalId < |w.ledger| && |l'| == |w.ledger| + 1 && |l''| == |l'| && !w.ledger[m.originalId].deleted
    requires forall i :: 0 <= i < |w.ledger| && i != m.originalId ==> l'[i] == w.ledger[i]
    requires l'[m.originalId] == w.ledger[m.originalId].(
               matched := l'[m.originalId].matched, cleared := l'[m.originalId].cleared)
    requires l'[|w.ledger|] == NewTxn(b, m.payload, if FiresFor(w, cfg, b, m) then Some(m.originalId) else None)
    requires forall i :: 0 <= i < |l'| && i != m.originalId ==> l''[i] == l'[i]
    requires if FiresFor(w, cfg, b, m) then l''[m.originalId] == l'[m.originalId].(cleared := l''[m.originalId].cleared)
             else l''[m.originalId] == l'[m.originalId].(deleted := true)
    ensures ShowsOnce(w.ledger, l'', b, m, FiresFor(w, cfg, b, m))
  {
    hide FiresFor;
  }

  /** One create, no duplicates: the response is all there is to record. */
  lemma MatchPosted(w: World, cfg: Settings, b: string, m: ManualMatch)
    requires w.script == [] && w.status == Running
    requires CreateOne(w.ledger, cfg.native, b, m.payload).1.duplicates == []
    ensures var (l', r) := CreateOne(w.ledger, cfg.native, b, m.payload);
            SubmitMatches(w, cfg, Batch(b, [m])) == MatchRows(w.(ledger := l'), b, [m], r.rows)
  {
    assert MatchPayloads([m]) == [m.payload];
    OneCreateAnswers(w.ledger, cfg.native, b, m.payload);
    hide CreateAll, CreateOne, MatchRows;
    var (l', r) := CreateOne(w.ledger, cfg.native, b, m.payload);
    assert PostCreates(w, cfg, b, [m.payload]) == (w.(ledger := l'), r);
  }

  lemma NativeEnding(w: World, b: string, m: ManualMatch, rows: seq<Reported>)
    requires w.script == [] && w.status == Running && TypedIn(w.ledger, b, m.originalId)
    requires |rows| == 2 && rows[0].importId == Some(m.payload.importId) && rows[0].matched.Some? && rows[1].importId.None?
    ensures var w' := MatchRows(w, b, [m], rows);
            && w'.status == Running && w'.script == [] && w'.now == w.now && |w'.ledger| == |w.ledger|
            && w'.table == Upsert(w.table, m.trackingKey, MatchFacts(b, m, m.originalId), w.now)
            && (forall i :: 0 <= i < |w.ledger| && i != m.originalId ==> w'.ledger[i] == w.ledger[i])
            && w'.ledger[m.originalId] == w.ledger[m.originalId].(cleared := w'.ledger[m.originalId].cleared)
  {
    hide MatchFacts, Upsert, FindMatch;
    FindsOnly(m);
    var w1 := FinishNative(w, b, m);
    NativeStep(w, b, m);
    assert MatchRow(w, b, [m], rows[0]) == w1;
    assert MatchRow(w1, b, [m], rows[1]) == w1;
    hide FinishNative, MatchRow;
    assert MatchRows(w, b, [m], rows) == MatchRows(w1, b, [m], rows[1..]);
    assert MatchRows(w1, b, [m], rows[1..]) == MatchRows(w1, b, [m], rows[1..][1..]);
  }

  lemma NativeStep(w: World, b: string, m: ManualMatch)
    requires w.script == [] && w.status == Running && TypedIn(w.ledger, b, m.originalId)
    ensures var w' := FinishNative(w, b, m);
            && w'.status == Running && w'.script == [] && w'.now == w.now && |w'.ledger| == |w.ledger|
            && w'.table == Upsert(w.table, m.trackingKey, MatchFacts(b, m, m.originalId), w.now)
            && (forall i :: 0 <= i < |w.ledger| && i != m.originalId ==> w'.ledger[i] == w.ledger[i])
            && w'.ledger[m.originalId] == w.ledger[m.originalId].(cleared := w'.ledger[m.originalId].cleared)
  {
    hide Money.FromMilliunits, Money.ToMilliunits, Upsert;
  }

  lemma FallbackEnding(w: World, b: string, m: ManualMatch, rows: seq<Reported>)
    requires w.script == [] && w.status == Running && TypedIn(w.ledger, b, m.originalId)
    requires |rows| == 1 && rows[0].importId == Some(m.payload.importId) && rows[0].matched.None?
    ensures var w' := MatchRows(w, b, [m], rows);
            && w'.status == Running && w'.script == [] && w'.now == w.now
            && w'.table == Upsert(w.table, m.trackingKey, MatchFacts(b, m, rows[0].id), w.now)
            && w'.ledger == w.ledger[m.originalId := w.ledger[m.originalId].(deleted := true)]
  {
    hide MatchFacts, FindMatch, Upsert;
    FindsOnly(m);
    var w1 := FinishFallback(w, b, m, rows[0].id);
    assert MatchRow(w, b, [m], rows[0]) == w1;
    assert w1.ledger == w.ledger[m.originalId := w.ledger[m.originalId].(deleted := true)];
    hide FinishFallback, MatchRow;
    assert MatchRows(w, b, [m], rows) == MatchRows(w1, b, [m], rows[1..]);
  }

  // --- one recovery ---------------------------------------------------------------------------------------

  lemma {:induction false} ListedShape(l: Ledger, b: string, account: string, since: int, from: nat)
    requires from <= |l|
    ensures forall c :: c in ListUnimported(l, b, account, since, from) ==>
        TypedIn(l, b, c.id) && l[c.id].account == account && l[c.id].date >= since
        && l[c.id].amount == c.amount && l[c.id].date == c.date && l[c.id].payee == c.payee && l[c.id].split == c.split
    decreases |l| - from
  {
    if from < |l| {
      ListedShape(l, b, account, since, from + 1);
    }
  }

  /** A whole transaction of the row's account and the new amount, within the window and the lookback of its date. */
  ghost predicate StandsIn(t: Txn, cfg: Settings, r: Row, newAmount: real) {
    && t.account == r.facts.ynabAccount && t.amount == Money.ToMilliunits(newAmount) && !t.split
    && t.date >= r.facts.date - cfg.backfillDays
    && (match cfg.unit
        case CalendarDays =>
          t.date - r.facts.date <= cfg.pendingWindowDays && r.facts.date - t.date <= cfg.pendingWindowDays
        case WorkingDays => cfg.workingDays(t.date, r.facts.date) <= cfg.pendingWindowDays)
  }

  /** What may stand for a row is a manual transaction that fits, as it is in YNAB. */
  lemma ReplacementIsTyped(l: Ledger, cfg: Settings, b: string, r: Row, newAmount: real, x: PendingMatch.ManualCandidate)
    requires x in Replacements(l, cfg, b, r, newAmount)
    ensures TypedIn(l, b, x.id) && StandsIn(l[x.id], cfg, r, newAmount)
    ensures l[x.id].date == x.date && l[x.id].payee == x.payee && l[x.id].amount == x.amount
  {
    var since := DateWindow.SinceDateBound(r.facts.date, cfg.backfillDays);
    ListedShape(l, b, r.facts.ynabAccount, since, 0);
    FilterMembers(ListUnimported(l, b, r.facts.ynabAccount, since),
                  (c: PendingMatch.ManualCandidate) => FitsRow(cfg, r, Money.ToMilliunits(newAmount), c));
    hide ListUnimported, Money.ToMilliunits;
  }

  /** And every such transaction may. */
  lemma {:induction false} TypedIsListed(l: Ledger, b: string, account: string, since: int, from: nat, id: nat)
    requires from <= id && TypedIn(l, b, id) && l[id].account == account && l[id].date >= since
    ensures PendingMatch.ManualCandidate(id, l[id].amount, l[id].date, l[id].split, l[id].payee)
         in ListUnimported(l, b, account, since, from)
    decreases |l| - from
  {
    if from < id {
      TypedIsListed(l, b, account, since, from + 1, id);
    }
  }

  lemma StandInIsFound(l: Ledger, cfg: Settings, b: string, r: Row, newAmount: real, id: nat)
    requires TypedIn(l, b, id) && StandsIn(l[id], cfg, r, newAmount)
    ensures exists x :: x in Replacements(l, cfg, b, r, newAmount) && x.id == id
  {
    var since := DateWindow.SinceDateBound(r.facts.date, cfg.backfillDays);
    TypedIsListed(l, b, r.facts.ynabAccount, since, 0, id);
    FilterMembers(ListUnimported(l, b, r.facts.ynabAccount, since),
                  (c: PendingMatch.ManualCandidate) => FitsRow(cfg, r, Money.ToMilliunits(newAmount), c));
    hide ListUnimported, Money.ToMilliunits;
    var x := PendingMatch.ManualCandidate(id, l[id].amount, l[id].date, l[id].split, l[id].payee);
    assert FitsRow(cfg, r, Money.ToMilliunits(newAmount), x);
  }

  /** The target of c is gone and x alone may stand for it; its replacement was not imported before. */
  ghost predicate SoleReplacement(w: World, cfg: Settings, b: string, c: Correction, x: PendingMatch.ManualCandidate) {
    && w.script == [] && w.status == Running && c.oldKey in w.table
    && Replacements(w.ledger, cfg, b, w.table[c.oldKey], c.newAmount) == [x]
    && var m := ReplacementMatch(cfg.hash, w.table[c.oldKey], c, x);
       && !Burned(w.ledger, b, m.payload.importId)
       && var native := cfg.native(w.ledger, b, m.payload); native.Some? ==> native.value == x.id
  }

  /** The import of a recovery: what it replaces, filed in the account of the row under an import_id of its own. */
  ghost predicate ReplacesIn(t: Txn, o: Txn, cfg: Settings, b: string, r: Row, c: Correction) {
    && t.budget == b && t.account == r.facts.ynabAccount && t.amount == Money.ToMilliunits(c.newAmount)
    && t.date == o.date && t.payee == o.payee && t.cleared == Cleared && !t.deleted && !t.split
    && t.importId == Some(PrefixOf(r.facts.importId)
                          + cfg.hash(FinalKey(c) + ":reeval:" + Decimal(c.txnId))[..IMPORT_ID_HASH_LEN])
  }

  /** The row of a recovery: the account and the payee of the row before, BOOKED on the day of what replaces it. */
  ghost predicate RecoversRow(r': Row, o: Txn, b: string, r: Row, c: Correction) {
    && r'.facts.accountKey == r.facts.accountKey && r'.facts.ynabAccount == r.facts.ynabAccount
    && r'.facts.payee == r.facts.payee && r'.facts.budget == b && r'.facts.date == o.date
    && r'.facts.status == Booked && r'.facts.cleared == Cleared
    && r'.amountMilliunits == Money.ToMilliunits(c.newAmount)
  }

  /**
   * A recovery that finds one replacement: of it and its import exactly one is visible, over the new amount; the row
   * under the final key points at that one, and no other row or transaction has changed.  So a fuzzy update leaves
   * the row it came from PENDING, with a transaction that is gone.
   */
  lemma RecoveryEffect(w: World, cfg: Settings, b: string, c: Correction, x: PendingMatch.ManualCandidate)
    requires SoleReplacement(w, cfg, b, c, x)
    ensures var m := ReplacementMatch(cfg.hash, w.table[c.oldKey], c, x);
            var w' := RecoverMissing(w, cfg, b, c);
            && w'.status == Running && w'.script == []
            && TypedIn(w.ledger, b, x.id) && StandsIn(w.ledger[x.id], cfg, w.table[c.oldKey], c.newAmount)
            && ShowsOnce(w.ledger, w'.ledger, b, m, FiresFor(w, cfg, b, m))
            && w'.table == Upsert(w.table, FinalKey(c), MatchFacts(b, m, TrackedId(w, cfg, b, m)), w.now)
    ensures FinalKey(c) != c.oldKey ==>
        var t' := RecoverMissing(w, cfg, b, c).table; c.oldKey in t' && t'[c.oldKey] == w.table[c.oldKey]
  {
    var r := w.table[c.oldKey];
    var m := ReplacementMatch(cfg.hash, r, c, x);
    assert x in Replacements(w.ledger, cfg, b, r, c.newAmount);
    ReplacementIsTyped(w.ledger, cfg, b, r, c.newAmount, x);
    ReplacementEffect(w, cfg, b, m);
    assert Read(w) == w;
    hide SubmitMatches, Replacements, ReevalId, MatchFacts, Money.ToMilliunits, FiresFor;
  }

  /** The import and the row of a recovery, field by field. */
  lemma RecoveryFields(w: World, cfg: Settings, b: string, c: Correction, x: PendingMatch.ManualCandidate)
    requires SoleReplacement(w, cfg, b, c, x)
    ensures var w' := RecoverMissing(w, cfg, b, c);
            var r := w.table[c.oldKey];
            && x.id < |w.ledger| < |w'.ledger| && FinalKey(c) in w'.table
            && ReplacesIn(w'.ledger[|w.ledger|], w.ledger[x.id], cfg, b, r, c)
            && RecoversRow(w'.table[FinalKey(c)], w.ledger[x.id], b, r, c)
  {
    var r := w.table[c.oldKey];
    RecoveryEffect(w, cfg, b, c, x);
    assert x in Replacements(w.ledger, cfg, b, r, c.newAmount);
    ReplacementIsTyped(w.ledger, cfg, b, r, c.newAmount, x);
    Money.MilliunitsRoundTrip(x.amount);
    hide RecoverMissing, FiresFor, Replacements, Money.ToMilliunits, Money.FromMilliunits, SoleReplacement;
  }

  // --- and the same again ------------------------------------------------------------------------------------

  lemma SameReevalId(hash: Hasher, r: Row, r': Row, key: string, txnId: nat)
    requires r'.facts.importId == ReevalId(hash, r, key, txnId)
    ensures ReevalId(hash, r', key, txnId) == ReevalId(hash, r, key, txnId)
  {
    PrefixEndsInOnlyColon(r.facts.importId);
    PrefixRoundTrip(hash, PrefixOf(r.facts.importId), ReevalSeed(key, txnId));
    hide PrefixOf, DeriveImportId;
  }

  /** A match whose import_id is burned and whose row is there: its original is deleted unless the row is about it. */
  lemma BurnedMatch(w: World, cfg: Settings, b: string, m: ManualMatch)
    requires w.script == [] && w.status == Running && Burned(w.ledger, b, m.payload.importId) && m.trackingKey in w.table
    requires TypedIn(w.ledger, b, m.originalId)
    ensures var w' := SubmitMatches(w, cfg, Batch(b, [m]));
            && w'.table == w.table
            && w'.ledger == if w.table[m.trackingKey].facts.txnId == m.originalId then w.ledger
                            else w.ledger[m.originalId := w.ledger[m.originalId].(deleted := true)]
  {
    var id := m.payload.importId;
    assert MatchPayloads([m]) == [m.payload];
    OneCreateAnswers(w.ledger, cfg.native, b, m.payload);
    FindsOnly(m);
    hide CreateAll, FindMatch;
    assert PostCreates(w, cfg, b, [m.payload]) == (w, Response([], [id]));
    hide PostCreates;
    var w' := MatchDuplicate(w, cfg, b, [m], id);
    assert [id][1..] == [];
    assert MatchDuplicates(w, cfg, b, [m], [id]) == MatchDuplicates(w', cfg, b, [m], []);
  }

  /** Another transaction that shows before and not after. */
  ghost predicate Hides(l: Ledger, l': Ledger, id: nat) { Visible(l, id) && !Visible(l', id) }

  lemma SecondRecovery(w: World, cfg: Settings, b: string, c: Correction)
    requires w.script == [] && w.status == Running && c.oldKey in w.table && !c.FuzzyUpdate?
    requires w.table[c.oldKey].facts.status == Booked
    requires Burned(w.ledger, b, ReevalId(cfg.hash, w.table[c.oldKey], c.oldKey, c.txnId))
    ensures var w' := RecoverMissing(w, cfg, b, c);
            var found := Replacements(w.ledger, cfg, b, w.table[c.oldKey], c.newAmount);
            var txnId := w.table[c.oldKey].facts.txnId;
            && ((w'.table == w.table && w'.ledger == w.ledger) <==> |found| == 1 && found[0].id == txnId)
            && (|found| == 1 && found[0].id != txnId ==> w'.table == w.table && Hides(w.ledger, w'.ledger, found[0].id))
            && (|found| != 1 ==> w'.ledger == w.ledger && w'.table[c.oldKey].facts.status == Deleted)
  {
    var r := w.table[c.oldKey];
    var found := Replacements(w.ledger, cfg, b, r, c.newAmount);
    assert Read(w) == w;
    hide SubmitMatches, Replacements, ReevalId, Burned, Money.ToMilliunits;
    if |found| == 1 {
      var m := ReplacementMatch(cfg.hash, r, c, found[0]);
      ReplacementIsTyped(w.ledger, cfg, b, r, c.newAmount, found[0]);
      BurnedMatch(w, cfg, b, m);
    }
  }

  /**
   * A cycle whose recovery found the one replacement of a plain update is submitted again, as after any later
   * failure, and again every call works.  The row and YNAB stay as they are if and only if YNAB had matched the
   * replacement natively and nothing else fits around that one's own date.  Otherwise the row is given up as
   * DELETED although its transaction is visible, or another manual transaction is deleted.
   */
  lemma ResubmittedRecovery(w: World, cfg: Settings, b: string, c: Correction, x: PendingMatch.ManualCandidate, now: int)
    requires SoleReplacement(w, cfg, b, c, x) && c.Update?
    ensures var m := ReplacementMatch(cfg.hash, w.table[c.oldKey], c, x);
            var w1 := RecoverMissing(w, cfg, b, c);
            var w2 := RecoverMissing(Attempt(w1.table, w1.ledger, [], now), cfg, b, c);
            && c.oldKey in w1.table && c.oldKey in w2.table && Visible(w1.ledger, w1.table[c.oldKey].facts.txnId)
            && var found := Replacements(w1.ledger, cfg, b, w1.table[c.oldKey], c.newAmount);
               && ((w2.table == w1.table && w2.ledger == w1.ledger) <==> FiresFor(w, cfg, b, m) && |found| == 1
                                                                          && found[0].id == x.id)
               && (|found| == 0 || |found| > 1 ==> w2.table[c.oldKey].facts.status == Deleted
                                                   && Visible(w2.ledger, w1.table[c.oldKey].facts.txnId))
               && (|found| == 1 && found[0].id != w1.table[c.oldKey].facts.txnId ==>
                     Hides(w1.ledger, w2.ledger, found[0].id))
  {
    var r := w.table[c.oldKey];
    var m := ReplacementMatch(cfg.hash, r, c, x);
    var w1 := RecoverMissing(w, cfg, b, c);
    RecoveryEffect(w, cfg, b, c, x);
    RecoveredRow(w, cfg, b, c, x);
    var w1' := Attempt(w1.table, w1.ledger, [], now);
    SameReevalId(cfg.hash, r, w1.table[c.oldKey], c.oldKey, c.txnId);
    hide RecoverMissing, ReevalId, FiresFor, MatchFacts, SoleReplacement, Upsert;
    SecondRecovery(w1', cfg, b, c);
    var found := Replacements(w1.ledger, cfg, b, w1.table[c.oldKey], c.newAmount);
    if |found| == 1 {
      ReplacementIsTyped(w1.ledger, cfg, b, w1.table[c.oldKey], c.newAmount, found[0]);
    }
    hide Replacements;
  }

  /** The row after a first recovery. */
  lemma RecoveredRow(w: World, cfg: Settings, b: string, c: Correction, x: PendingMatch.ManualCandidate)
    requires SoleReplacement(w, cfg, b, c, x) && c.Update?
    ensures var m := ReplacementMatch(cfg.hash, w.table[c.oldKey], c, x);
            var w1 := RecoverMissing(w, cfg, b, c);
            && c.oldKey in w1.table && w1.table[c.oldKey].facts.status == Booked
            && w1.table[c.oldKey].facts.importId == ReevalId(cfg.hash, w.table[c.oldKey], c.oldKey, c.txnId)
            && Burned(w1.ledger, b, w1.table[c.oldKey].facts.importId)
            && w1.table[c.oldKey].facts.txnId == TrackedId(w, cfg, b, m)
            && Visible(w1.ledger, w1.table[c.oldKey].facts.txnId)
            && (!FiresFor(w, cfg, b, m) ==> w1.ledger[w1.table[c.oldKey].facts.txnId].importId.Some?)
  {
    RecoveryEffect(w, cfg, b, c, x);
    hide RecoverMissing, ReevalId, FiresFor, Replacements, Money.ToMilliunits, Money.FromMilliunits;
    var w1 := RecoverMissing(w, cfg, b, c);
    assert Holds(w1.ledger[|w.ledger|], b, ReevalId(cfg.hash, w.table[c.oldKey], c.oldKey, c.txnId));
  }

  // --- a lost answer ---------------------------------------------------------------------------------------

  /** What a listing of manual transactions looks at. */
  predicate SameListing(t: Txn, t': Txn) {
    && t'.budget == t.budget && t'.account == t.account && t'.date == t.date && t'.amount == t.amount
    && t'.payee == t.payee && t'.split == t.split && t'.importId == t.importId && t'.deleted == t.deleted
  }

  /** Matching a transaction natively, and importing others, does not change the listing. */
  lemma {:induction false} ListingIgnoresMatches(l: Ledger, l': Ledger, b: string, account: string, since: int, from: nat)
    requires from <= |l| <= |l'|
    requires forall i :: 0 <= i < |l| ==> SameListing(l[i], l'[i]) && (l[i].importId.Some? ==> l'[i] == l[i])
    requires forall i :: |l| <= i < |l'| ==> l'[i].importId.Some?
    ensures ListUnimported(l', b, account, since, from) == ListUnimported(l, b, account, since, from)
    decreases |l| - from
  {
    if from < |l| {
      ListingIgnoresMatches(l, l', b, account, since, from + 1);
      assert SameListing(l[from], l'[from]);
    } else {
      ImportsAreNotListed(l', b, account, since, from);
    }
  }

  lemma {:induction false} ImportsAreNotListed(l: Ledger, b: string, account: string, since: int, from: nat)
    requires from <= |l| && forall i :: from <= i < |l| ==> l[i].importId.Some?
    ensures ListUnimported(l, b, account, since, from) == []
    decreases |l| - from
  {
    if from < |l| {
      ImportsAreNotListed(l, b, account, since, from + 1);
    }
  }

  /** The create of a recovery, its answer lost: nothing is recorded. */
  lemma LostCreate(w: World, cfg: Settings, b: string, c: Correction, x: PendingMatch.ManualCandidate)
    requires SoleReplacement(w, cfg, b, c, x)
    ensures var m := ReplacementMatch(cfg.hash, w.table[c.oldKey], c, x);
            var w1 := RecoverMissing(w.(script := [Works, LostAfter]), cfg, b, c);
            w1.table == w.table && w1.ledger == CreateOne(w.ledger, cfg.native, b, m.payload).0
  {
    var m := ReplacementMatch(cfg.hash, w.table[c.oldKey], c, x);
    var read := w.(script := [LostAfter]);
    assert Read(w.(script := [Works, LostAfter])) == read;
    assert MatchPayloads([m]) == [m.payload];
    OneCreateAnswers(w.ledger, cfg.native, b, m.payload);
    hide CreateAll, CreateOne, Replacements, ReevalId;
    var posted := PostCreates(read, cfg, b, [m.payload]).0;
    assert posted.table == w.table && posted.status == CallFailed;
    assert SubmitMatches(read, cfg, Batch(b, [m])) == posted;
  }

  /**
   * The answer to a recovery's create is lost.  The retry, in which every call works, takes the row for one that was
   * recorded with another transaction: it deletes the replacement and records nothing.  So the money shows if and
   * only if YNAB had not matched the replacement natively.
   */
  lemma LostRecoveryLosesMatched(w: World, cfg: Settings, b: string, c: Correction, x: PendingMatch.ManualCandidate,
                                 now: int)
    requires SoleReplacement(w, cfg, b, c, x) && c.Update? && w.table[c.oldKey].facts.txnId != x.id
    ensures var m := ReplacementMatch(cfg.hash, w.table[c.oldKey], c, x);
            var w1 := RecoverMissing(w.(script := [Works, LostAfter]), cfg, b, c);
            var w2 := RecoverMissing(Attempt(w1.table, w1.ledger, [], now), cfg, b, c);
            && w2.table == w.table && Visible(w.ledger, x.id) && !Visible(w2.ledger, x.id)
            && ((exists s: nat :: Visible(w2.ledger, s) && Holds(w2.ledger[s], b, m.payload.importId))
                <==> !FiresFor(w, cfg, b, m))
  {
    var r := w.table[c.oldKey];
    var m := ReplacementMatch(cfg.hash, r, c, x);
    var (l1, _) := CreateOne(w.ledger, cfg.native, b, m.payload);
    var w1 := Attempt(w.table, l1, [], now);
    LostCreate(w, cfg, b, c, x);
    assert x in Replacements(w.ledger, cfg, b, r, c.newAmount);
    ReplacementIsTyped(w.ledger, cfg, b, r, c.newAmount, x);
    CreateForMatch(w, cfg, b, m);
    StillFound(w, cfg, b, r, c, x, m);
    BurnedMatch(w1, cfg, b, m);
    RetryMatches(w1, cfg, b, c, x);
    hide CreateOne, Replacements, RecoverMissing, SubmitMatches, ReevalId, SoleReplacement, Burned, FiresFor;
    OnlyNewHolder(w, l1, b, m);
  }

  lemma StillFound(w: World, cfg: Settings, b: string, r: Row, c: Correction, x: PendingMatch.ManualCandidate,
                   m: ManualMatch)
    requires FreshMatch(w, cfg, b, m) && m.originalId == x.id
    requires Replacements(w.ledger, cfg, b, r, c.newAmount) == [x]
    ensures var l1 := CreateOne(w.ledger, cfg.native, b, m.payload).0;
            Replacements(l1, cfg, b, r, c.newAmount) == [x] && Burned(l1, b, m.payload.importId) && TypedIn(l1, b, x.id)
  {
    var l1 := CreateOne(w.ledger, cfg.native, b, m.payload).0;
    CreateForMatch(w, cfg, b, m);
    assert Holds(l1[|w.ledger|], b, m.payload.importId);
    hide CreateOne, FiresFor;
    ListingIgnoresMatches(w.ledger, l1, b, r.facts.ynabAccount,
                          DateWindow.SinceDateBound(r.facts.date, cfg.backfillDays), 0);
    hide ListUnimported, Filter, Money.ToMilliunits;
  }

  lemma RetryMatches(w: World, cfg: Settings, b: string, c: Correction, x: PendingMatch.ManualCandidate)
    requires w.script == [] && w.status == Running && c.oldKey in w.table
    requires Replacements(w.ledger, cfg, b, w.table[c.oldKey], c.newAmount) == [x]
    ensures RecoverMissing(w, cfg, b, c)
         == SubmitMatches(w, cfg, Batch(b, [ReplacementMatch(cfg.hash, w.table[c.oldKey], c, x)]))
  {
    assert Read(w) == w;
    hide SubmitMatches, Replacements, ReevalId;
  }

  /** The transaction of the lost create is the only one under its import_id, and shows unless it was matched. */
  lemma OnlyNewHolder(w: World, l1: Ledger, b: string, m: ManualMatch)
    requires m.originalId < |w.ledger| && |l1| == |w.ledger| + 1 && !Burned(w.ledger, b, m.payload.importId)
    requires forall i :: 0 <= i < |w.ledger| && i != m.originalId ==> l1[i] == w.ledger[i]
    requires l1[m.originalId].budget == w.ledger[m.originalId].budget
    requires l1[m.originalId].importId == w.ledger[m.originalId].importId
    requires Holds(l1[|w.ledger|], b, m.payload.importId) && !l1[|w.ledger|].deleted
    ensures var l2 := l1[m.originalId := l1[m.originalId].(deleted := true)];
            (exists s: nat :: Visible(l2, s) && Holds(l2[s], b, m.payload.importId)) <==> IsVisible(l1[|w.ledger|])
  {
    var l2 := l1[m.originalId := l1[m.originalId].(deleted := true)];
    forall i | 0 <= i < |w.ledger| ensures !Holds(l2[i], b, m.payload.importId) {
      assert !Holds(w.ledger[i], b, m.payload.importId);
    }
    assert l2[|w.ledger|] == l1[|w.ledger|];
    if IsVisible(l1[|w.ledger|]) {
      assert Visible(l2, |w.ledger|) && Holds(l2[|w.ledger|], b, m.payload.importId);
    }
  }
}
