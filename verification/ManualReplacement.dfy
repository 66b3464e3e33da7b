/**
 * Replacing a manual transaction never makes its money vanish: across any
 * aborted attempts and retries the original or its replacement is visible,
 * and once an attempt completes exactly one of them is.
 */
module ManualReplacement {
  import opened Wrappers
  import opened Ynab
  import opened StateDb
  import opened SyncSpec
  import opened Creation
  import opened Frames
  import DateWindow

  ghost predicate IsMatch(cycle: Cycle, b: string, m: ManualMatch) {
    exists k :: 0 <= k < |cycle.matches| && cycle.matches[k].budget == b && m in cycle.matches[k].items
  }

  /** Transaction s is visible and carries the import_id submitted for m. */
  ghost predicate Replacement(l: Ledger, b: string, m: ManualMatch, s: nat) {
    s < |l| && Holds(l[s], b, m.payload.importId) && IsVisible(l[s])
  }

  ghost predicate Replaced(l: Ledger, b: string, m: ManualMatch) {
    exists s: nat :: Replacement(l, b, m, s)
  }

  /** A visible replacement is where a later lookup will search: same account, not too old. */
  ghost predicate Findable(cfg: Settings, l: Ledger, b: string, m: ManualMatch) {
    forall s: nat :: Replacement(l, b, m, s) ==>
      l[s].account == m.payload.account
      && l[s].date >= DateWindow.SinceDateBound(m.payload.date, cfg.backfillDays)
  }

  /** The manual original is there, in this budget and never imported. */
  ghost predicate IsManual(l: Ledger, b: string, m: ManualMatch) {
    m.originalId < |l| && l[m.originalId].importId.None? && l[m.originalId].budget == b
  }

  /** What the tracked row says about the ending that was chosen. */
  ghost predicate RowAgrees(t: Table, l: Ledger, b: string, m: ManualMatch) {
    m.trackingKey in t ==>
      && Burned(l, b, m.payload.importId)
      && var txnId := t[m.trackingKey].facts.txnId;
         if txnId == m.originalId then !Replaced(l, b, m) else Replacement(l, b, m, txnId)
  }

  /** The invariant of one replacement. */
  ghost predicate Kept(cfg: Settings, t: Table, l: Ledger, b: string, m: ManualMatch) {
    && IsManual(l, b, m) && Findable(cfg, l, b, m) && RowAgrees(t, l, b, m)
    && (l[m.originalId].deleted ==> Replaced(l, b, m))
  }

  ghost predicate AllKept(cfg: Settings, cycle: Cycle, t: Table, l: Ledger) {
    UniqueIds(l) && forall b, m :: IsMatch(cycle, b, m) ==> Kept(cfg, t, l, b, m)
  }

  ghost predicate DistinctMatches(cycle: Cycle) {
    forall b, m, b', m' :: IsMatch(cycle, b, m) && IsMatch(cycle, b', m') && (b != b' || m != m') ==>
      m.trackingKey != m'.trackingKey && m.originalId != m'.originalId
      && m.payload.importId != m'.payload.importId
  }

  /** Exactly one of the original and its replacement is visible. */
  ghost predicate ExactlyOneVisible(l: Ledger, b: string, m: ManualMatch) {
    Visible(l, m.originalId) <==> !Replaced(l, b, m)
  }

  // --- one step seen from one match -----------------------------------------------------------

  /** No transaction newly carries m's import_id. */
  ghost predicate NoNewHolder(l: Ledger, l': Ledger, b: string, m: ManualMatch) {
    forall s: nat :: |l| <= s < |l'| ==> !Holds(l'[s], b, m.payload.importId)
  }

  lemma ReplacementStable(l: Ledger, l': Ledger, b: string, m: ManualMatch)
    requires ImportsStable(l, l') && NoNewHolder(l, l', b, m)
    ensures forall s: nat :: Replacement(l', b, m, s) <==> Replacement(l, b, m, s)
    ensures Replaced(l', b, m) <==> Replaced(l, b, m)
  {
    forall s: nat ensures Replacement(l', b, m, s) <==> Replacement(l, b, m, s) {
      if s < |l| { assert SameIdentity(l[s], l'[s]); }
    }
  }

  /** A step that neither imports for m, nor deletes its original, nor writes its row, keeps m. */
  lemma Unconcerned(cfg: Settings, t: Table, l: Ledger, t': Table, l': Ledger, b: string, m: ManualMatch)
    requires Kept(cfg, t, l, b, m) && ImportsStable(l, l') && NoNewHolder(l, l', b, m)
    requires l'[m.originalId].deleted == l[m.originalId].deleted && SameRowAt(t, t', m.trackingKey)
    ensures Kept(cfg, t', l', b, m)
    ensures ExactlyOneVisible(l', b, m) <==> ExactlyOneVisible(l, b, m)
  {
    ReplacementStable(l, l', b, m);
    assert SameIdentity(l[m.originalId], l'[m.originalId]);
    if m.trackingKey in t { BurnedForever(l, l', b, m.payload.importId); }
    hide Burned;
    forall s: nat | Replacement(l', b, m, s) ensures Replacement(l, b, m, s) && SameIdentity(l[s], l'[s]) {
    }
  }

  lemma QuietKeepsAll(cfg: Settings, cycle: Cycle, w: World, w': World, keys: iset<string>, ids: iset<string>)
    requires Quiet(w, w', keys, ids) && AllKept(cfg, cycle, w.table, w.ledger)
    requires forall b, m :: IsMatch(cycle, b, m) ==> m.trackingKey !in keys && m.payload.importId !in ids
    ensures AllKept(cfg, cycle, w'.table, w'.ledger)
  {
    forall b, m | IsMatch(cycle, b, m) ensures Kept(cfg, w'.table, w'.ledger, b, m) {
      assert Kept(cfg, w.table, w.ledger, b, m);
      Unconcerned(cfg, w.table, w.ledger, w'.table, w'.ledger, b, m);
    }
  }

  // --- creating the replacements -----------------------------------------------------------------

  lemma OtherCreateKeeps(cfg: Settings, t: Table, l: Ledger, b: string, m: ManualMatch, b': string, p: Payload)
    requires Kept(cfg, t, l, b, m) && m.payload.importId != p.importId
    ensures Kept(cfg, t, CreateOne(l, cfg.native, b', p).0, b, m)
  {
    var l' := CreateOne(l, cfg.native, b', p).0;
    CreateOneIsCalm(l, cfg.native, b', p, iset{p.importId});
    hide CreateOne, Findable, RowAgrees, UniqueIds, Kept;
    OthersHoldNothing(l, l', b, m, p.importId);
    Unconcerned(cfg, t, l, t, l', b, m);
  }

  lemma OthersHoldNothing(l: Ledger, l': Ledger, b: string, m: ManualMatch, importId: string)
    requires Calm(l, l', iset{importId}) && m.payload.importId != importId
    ensures NoNewHolder(l, l', b, m)
  {
    hide UniqueIds;
  }

  lemma CreatedShape(l: Ledger, native: NativeMatcher, b: string, p: Payload)
    requires !Burned(l, b, p.importId)
    ensures var l' := CreateOne(l, native, b, p).0;
            && |l| < |l'| && l'[|l|] == NewTxn(b, p, l'[|l|].matched)
            && (forall s :: |l| < s < |l'| ==> l'[s].importId.None?)
  {
  }

  /** The import_id of m is burned for the first time: its new transaction is the only holder. */
  lemma OwnCreateKeeps(cfg: Settings, t: Table, l: Ledger, b: string, m: ManualMatch)
    requires Kept(cfg, t, l, b, m)
    ensures Kept(cfg, t, CreateOne(l, cfg.native, b, m.payload).0, b, m)
  {
    if !Burned(l, b, m.payload.importId) {
      var l' := CreateOne(l, cfg.native, b, m.payload).0;
      CreateOneIsCalm(l, cfg.native, b, m.payload, iset{m.payload.importId});
      CreatedShape(l, cfg.native, b, m.payload);
      hide CreateOne, UniqueIds;
      NotReplacedYet(l, b, m);
      OnlyNewReplacement(l, l', b, m);
      hide Burned, Replacement;
      assert SameIdentity(l[m.originalId], l'[m.originalId]);
    }
  }

  lemma NotReplacedYet(l: Ledger, b: string, m: ManualMatch)
    requires !Burned(l, b, m.payload.importId)
    ensures !Replaced(l, b, m)
  {
    forall s: nat ensures !Replacement(l, b, m, s) {
    }
  }

  lemma OnlyNewReplacement(l: Ledger, l': Ledger, b: string, m: ManualMatch)
    requires Extends(l, l') && !Burned(l, b, m.payload.importId)
    requires forall s :: |l| < s < |l'| ==> l'[s].importId.None?
    ensures forall s: nat :: Replacement(l', b, m, s) ==> s == |l|
  {
    forall s: nat | Replacement(l', b, m, s) ensures s == |l| {
      assert s < |l| ==> SameIdentity(l[s], l'[s]) && !Holds(l[s], b, m.payload.importId);
    }
  }

  lemma {:induction false} CreateAllKeeps(cfg: Settings, cycle: Cycle, t: Table, l: Ledger, b: string, ps: seq<Payload>)
    requires AllKept(cfg, cycle, t, l) && DistinctMatches(cycle)
    requires forall p :: p in ps ==> exists m :: IsMatch(cycle, b, m) && m.payload == p
    ensures AllKept(cfg, cycle, t, CreateAll(l, cfg.native, b, ps).0)
    decreases |ps|
  {
    if ps != [] {
      assert ps[0] in ps;
      var m' :| IsMatch(cycle, b, m') && m'.payload == ps[0];
      var l1 := CreateOne(l, cfg.native, b, ps[0]).0;
      CreateOneKeepsUnique(l, cfg.native, b, ps[0]);
      hide Kept, CreateOne, UniqueIds;
      forall b0, m | IsMatch(cycle, b0, m) ensures Kept(cfg, t, l1, b0, m) {
        if (b0, m) == (b, m') {
          OwnCreateKeeps(cfg, t, l, b, m);
        } else {
          OtherCreateKeeps(cfg, t, l, b0, m, b, m'.payload);
        }
      }
      assert AllKept(cfg, cycle, t, l1);
      assert forall p :: p in ps[1..] ==> p in ps;
      hide AllKept, IsMatch, DistinctMatches;
      CreateAllKeeps(cfg, cycle, t, l1, b, ps[1..]);
    }
  }

  /** A response row that carries an import_id names its live holder and says whether it is a shadow. */
  ghost predicate RowOk(l: Ledger, b: string, row: Reported) {
    row.importId.Some? ==>
      && row.id < |l| && Holds(l[row.id], b, row.importId.value) && !l[row.id].deleted
      && (row.matched.Some? <==> l[row.id].matched.Some?)
  }

  ghost predicate RowsOk(l: Ledger, b: string, rows: seq<Reported>) {
    forall row :: row in rows ==> RowOk(l, b, row)
  }

  lemma RowsStayOk(l: Ledger, l': Ledger, b: string, rows: seq<Reported>)
    requires RowsOk(l, b, rows) && ImportsStable(l, l')
    ensures RowsOk(l', b, rows)
  {
    forall row | row in rows && row.importId.Some? ensures RowOk(l', b, row) {
      assert RowOk(l, b, row);
      assert SameIdentity(l[row.id], l'[row.id]);
    }
  }

  lemma {:induction false} CreateAllAnswers(l: Ledger, native: NativeMatcher, b: string, ps: seq<Payload>)
    ensures var (l', r) := CreateAll(l, native, b, ps);
            RowsOk(l', b, r.rows) && forall p :: p in ps ==> Answers(r, p.importId)
    decreases |ps|
  {
    if ps != [] {
      var (l1, r1) := CreateOne(l, native, b, ps[0]);
      var (l2, r2) := CreateAll(l1, native, b, ps[1..]);
      CreateAllAnswers(l1, native, b, ps[1..]);
      CreateOneAnswers(l, native, b, ps[0]);
      CreateAllIsCalm(l1, native, b, ps[1..], iset p | p in ps[1..] :: p.importId);
      RowsStayOk(l1, l2, b, r1.rows);
      hide CreateOne, CreateAll, RowOk;
      AnswersConcat(r1, r2, ps);
    }
  }

  lemma CreateOneAnswers(l: Ledger, native: NativeMatcher, b: string, p: Payload)
    ensures var (l', r) := CreateOne(l, native, b, p); RowsOk(l', b, r.rows) && Answers(r, p.importId)
  {
    var (l', r) := CreateOne(l, native, b, p);
    if r.rows != [] {
      assert r.rows[0] in r.rows && r.rows[0].importId == Some(p.importId);
    }
  }

  lemma AnswersConcat(r1: Response, r2: Response, ps: seq<Payload>)
    requires ps != [] && Answers(r1, ps[0].importId) && forall p :: p in ps[1..] ==> Answers(r2, p.importId)
    ensures var r := Response(r1.rows + r2.rows, r1.duplicates + r2.duplicates);
            forall p :: p in ps ==> Answers(r, p.importId)
  {
    var r := Response(r1.rows + r2.rows, r1.duplicates + r2.duplicates);
    forall p | p in ps ensures Answers(r, p.importId) {
      var part := if p in ps[1..] then r2 else r1;
      assert Answers(part, p.importId);
      if p.importId !in part.duplicates {
        var row :| row in part.rows && row.importId == Some(p.importId);
        assert row in r.rows;
      }
    }
  }

  // --- finishing a match -----------------------------------------------------------------------

  /** A step of the third phase: the invariant is kept, imports are stable, and what is resolved stays so. */
  ghost predicate GoodStep(cfg: Settings, cycle: Cycle, w: World, w': World) {
    && AllKept(cfg, cycle, w'.table, w'.ledger) && ImportsStable(w.ledger, w'.ledger)
    && (forall b, m :: IsMatch(cycle, b, m) && ExactlyOneVisible(w.ledger, b, m) ==> ExactlyOneVisible(w'.ledger, b, m))
    && (NoRefusal(w.script) ==> NoRefusal(w'.script))
  }

  ghost predicate NoRefusal(script: seq<Fault>) { forall fault :: fault in script ==> !IsRejected(fault) }

  lemma GoodStepTransitive(cfg: Settings, cycle: Cycle, w: World, w1: World, w2: World)
    requires GoodStep(cfg, cycle, w, w1) && GoodStep(cfg, cycle, w1, w2)
    ensures GoodStep(cfg, cycle, w, w2)
  {
    hide AllKept, ExactlyOneVisible;
    forall i | 0 <= i < |w.ledger|
      ensures SameIdentity(w.ledger[i], w2.ledger[i])
      ensures w.ledger[i].importId.Some? ==>
          w2.ledger[i].matched == w.ledger[i].matched && w2.ledger[i].deleted == w.ledger[i].deleted
      ensures w.ledger[i].matched.Some? ==> w2.ledger[i].matched == w.ledger[i].matched
    {
      assert SameIdentity(w.ledger[i], w1.ledger[i]) && SameIdentity(w1.ledger[i], w2.ledger[i]);
    }
  }

  lemma ConsumeKeepsNoRefusal(w: World, l: Ledger)
    ensures NoRefusal(w.script) ==> NoRefusal(Consume(w).script) && !IsRejected(NextFault(w))
    ensures NoRefusal(w.script) ==> NoRefusal(Write(w, l).script) && NoRefusal(WriteUnless400(w, l).script)
    ensures NoRefusal(w.script) ==> NoRefusal(Read(w).script)
  {
    if w.script != [] {
      assert w.script[0] in w.script && forall fault :: fault in w.script[1..] ==> fault in w.script;
    }
  }

  /** Writing m's row, when it agrees with the ledger. */
  lemma RecordMatch(cfg: Settings, cycle: Cycle, w: World, b: string, m: ManualMatch, facts: Facts)
    requires AllKept(cfg, cycle, w.table, w.ledger) && DistinctMatches(cycle) && IsMatch(cycle, b, m)
    requires Burned(w.ledger, b, m.payload.importId)
    requires if facts.txnId == m.originalId then !Replaced(w.ledger, b, m) else Replacement(w.ledger, b, m, facts.txnId)
    ensures GoodStep(cfg, cycle, w, Record(w, m.trackingKey, facts))
  {
    var w' := Record(w, m.trackingKey, facts);
    RecordLeavesLedger(w, m.trackingKey, facts);
    assert Kept(cfg, w.table, w.ledger, b, m);
    RecordedIsKept(cfg, w.table, w'.table, w.ledger, b, m);
    hide Record, Burned, UniqueIds, Replaced, Kept, IsMatch;
    forall b', m' | IsMatch(cycle, b', m') ensures Kept(cfg, w'.table, w'.ledger, b', m') {
      if (b', m') != (b, m) {
        KeysDiffer(cycle, b, m, b', m');
        assert SameRowAt(w.table, w'.table, m'.trackingKey);
        KeptUnderSameRow(cfg, w.table, w'.table, w.ledger, b', m');
      }
    }
    SameLedgerIsGood(cfg, cycle, w, w');
  }

  lemma SameLedgerIsGood(cfg: Settings, cycle: Cycle, w: World, w': World)
    requires AllKept(cfg, cycle, w'.table, w'.ledger) && w'.ledger == w.ledger && w'.script == w.script
    ensures GoodStep(cfg, cycle, w, w')
  {
    hide AllKept, ExactlyOneVisible, NoRefusal, IsMatch;
  }

  lemma KeysDiffer(cycle: Cycle, b: string, m: ManualMatch, b': string, m': ManualMatch)
    requires DistinctMatches(cycle) && IsMatch(cycle, b, m) && IsMatch(cycle, b', m') && (b', m') != (b, m)
    ensures m'.trackingKey != m.trackingKey
  {
  }

  lemma RecordedIsKept(cfg: Settings, t: Table, t': Table, l: Ledger, b: string, m: ManualMatch)
    requires Kept(cfg, t, l, b, m) && Burned(l, b, m.payload.importId) && m.trackingKey in t'
    requires var id := t'[m.trackingKey].facts.txnId;
             if id == m.originalId then !Replaced(l, b, m) else Replacement(l, b, m, id)
    ensures Kept(cfg, t', l, b, m)
  {
    hide Burned, Replaced, Findable, Replacement;
  }

  lemma KeptUnderSameRow(cfg: Settings, t: Table, t': Table, l: Ledger, b: string, m: ManualMatch)
    requires Kept(cfg, t, l, b, m) && SameRowAt(t, t', m.trackingKey)
    ensures Kept(cfg, t', l, b, m)
  {
    hide Burned, Replaced, Findable, Replacement;
  }

  /** Deleting m's original, once a replacement is visible. */
  lemma DeleteKeeps(cfg: Settings, cycle: Cycle, w: World, b: string, m: ManualMatch)
    requires AllKept(cfg, cycle, w.table, w.ledger) && DistinctMatches(cycle) && IsMatch(cycle, b, m)
    requires Replaced(w.ledger, b, m)
    ensures var w' := DeleteOriginal(w, b, m.originalId);
            && GoodStep(cfg, cycle, w, w')
            && (w.status == Running && w'.status == Running && NoRefusal(w.script) ==> ExactlyOneVisible(w'.ledger, b, m))
  {
    var w' := DeleteOriginal(w, b, m.originalId);
    ConsumeKeepsNoRefusal(w, Delete(w.ledger, b, m.originalId));
    assert Kept(cfg, w.table, w.ledger, b, m);
    DeletedLedger(w.ledger, b, m);
    var gone := Delete(w.ledger, b, m.originalId);
    DeleteShape(w, b, m.originalId);
    if UniqueIds(w.ledger) { SameIdsUnique(w.ledger, gone); }
    hide UniqueIds, DeleteOriginal, Delete, Replacement, NoRefusal;
    if w'.ledger == gone {
      forall b', m' | IsMatch(cycle, b', m')
        ensures Kept(cfg, w'.table, w'.ledger, b', m')
        ensures ExactlyOneVisible(w.ledger, b', m') ==> ExactlyOneVisible(gone, b', m')
      {
        assert Kept(cfg, w.table, w.ledger, b', m');
        if (b', m') != (b, m) {
          Unconcerned(cfg, w.table, w.ledger, w'.table, gone, b', m');
        } else {
          KeptAfterDelete(cfg, w.table, w.ledger, gone, b, m);
        }
      }
    }
  }

  lemma DeleteShape(w: World, b: string, id: nat)
    ensures var w', gone := DeleteOriginal(w, b, id), Delete(w.ledger, b, id);
            && w'.table == w.table && (w'.ledger == w.ledger || w'.ledger == gone)
            && (w.status == Running && w'.status == Running && !IsRejected(NextFault(w)) ==> w'.ledger == gone)
            && (NoRefusal(w.script) ==> NoRefusal(w'.script))
  {
    ConsumeKeepsNoRefusal(w, Delete(w.ledger, b, id));
    hide NoRefusal, Delete;
  }

  lemma DeletedLedger(l: Ledger, b: string, m: ManualMatch)
    requires IsManual(l, b, m)
    ensures var gone := Delete(l, b, m.originalId);
            && |gone| == |l| && ImportsStable(l, gone) && gone[m.originalId].deleted
            && forall i :: 0 <= i < |l| && i != m.originalId ==> gone[i] == l[i]
  {
  }

  lemma KeptAfterDelete(cfg: Settings, t: Table, l: Ledger, gone: Ledger, b: string, m: ManualMatch)
    requires Kept(cfg, t, l, b, m) && Replaced(l, b, m)
    requires |gone| == |l| && ImportsStable(l, gone) && gone[m.originalId].deleted
    ensures Kept(cfg, t, gone, b, m) && ExactlyOneVisible(gone, b, m)
  {
    ReplacementStable(l, gone, b, m);
    assert SameIdentity(l[m.originalId], gone[m.originalId]);
    if m.trackingKey in t { BurnedForever(l, gone, b, m.payload.importId); }
    hide Burned;
    forall s: nat | Replacement(gone, b, m, s) ensures Replacement(l, b, m, s) && SameIdentity(l[s], gone[s]) {
    }
  }

  /** If the import is a shadow, its original is the one that shows. */
  lemma ShadowMeansNotReplaced(l: Ledger, b: string, m: ManualMatch, s: nat)
    requires UniqueIds(l) && s < |l| && Holds(l[s], b, m.payload.importId) && IsShadow(l[s])
    ensures !Replaced(l, b, m)
  {
    forall s': nat | Replacement(l, b, m, s') ensures s' == s {
      assert Holds(l[s'], l[s].budget, m.payload.importId);
    }
  }

  lemma ShadowIsResolved(cfg: Settings, t: Table, l: Ledger, b: string, m: ManualMatch)
    requires Kept(cfg, t, l, b, m) && !Replaced(l, b, m)
    ensures ExactlyOneVisible(l, b, m)
  {
  }

  lemma PatchIsGoodStep(cfg: Settings, cycle: Cycle, w: World, l: Ledger)
    requires AllKept(cfg, cycle, w.table, w.ledger) && Calm(w.ledger, l, iset{}) && |l| == |w.ledger|
    ensures GoodStep(cfg, cycle, w, Write(w, l)) && GoodStep(cfg, cycle, w, Read(w))
  {
    ConsumeKeepsNoRefusal(w, l);
    hide NoRefusal, UniqueIds, Kept, ExactlyOneVisible;
    forall b, m | IsMatch(cycle, b, m)
      ensures Kept(cfg, w.table, l, b, m) && (ExactlyOneVisible(l, b, m) <==> ExactlyOneVisible(w.ledger, b, m))
    {
      KeptIsManual(cfg, w.table, w.ledger, b, m);
      Unconcerned(cfg, w.table, w.ledger, w.table, l, b, m);
    }
  }

  lemma KeptIsManual(cfg: Settings, t: Table, l: Ledger, b: string, m: ManualMatch)
    requires Kept(cfg, t, l, b, m)
    ensures m.originalId < |l|
  {
  }

  lemma NativeKeeps(cfg: Settings, cycle: Cycle, w: World, b: string, m: ManualMatch)
    requires AllKept(cfg, cycle, w.table, w.ledger) && DistinctMatches(cycle) && IsMatch(cycle, b, m)
    requires Burned(w.ledger, b, m.payload.importId) && !Replaced(w.ledger, b, m)
    ensures var w' := FinishNative(w, b, m); GoodStep(cfg, cycle, w, w') && ExactlyOneVisible(w'.ledger, b, m)
  {
    var facts := MatchFacts(b, m, m.originalId);
    RecordMatch(cfg, cycle, CountUpdated(w), b, m, facts);
    assert Kept(cfg, w.table, w.ledger, b, m);
    ShadowIsResolved(cfg, w.table, w.ledger, b, m);
    var recorded := Record(CountUpdated(w), m.trackingKey, facts);
    RecordLeavesLedger(CountUpdated(w), m.trackingKey, facts);
    var l' := Patch(w.ledger, facts.budget, facts.txnId, None, Uncleared);
    PatchIsCalm(w.ledger, facts.budget, facts.txnId, None, Uncleared, iset{});
    PatchIsGoodStep(cfg, cycle, recorded, l');
    GoodStepTransitive(cfg, cycle, w, recorded, Write(recorded, l'));
    hide GoodStep, ExactlyOneVisible, Record, Patch, Write, AllKept;
    assert GoodStep(cfg, cycle, w, FinishNative(w, b, m));
    StaysResolved(cfg, cycle, w, FinishNative(w, b, m), b, m);
  }

  lemma StaysResolved(cfg: Settings, cycle: Cycle, w: World, w': World, b: string, m: ManualMatch)
    requires GoodStep(cfg, cycle, w, w') && IsMatch(cycle, b, m) && ExactlyOneVisible(w.ledger, b, m)
    ensures ExactlyOneVisible(w'.ledger, b, m)
  {
  }

  lemma FallbackKeeps(cfg: Settings, cycle: Cycle, w: World, b: string, m: ManualMatch, s: nat)
    requires AllKept(cfg, cycle, w.table, w.ledger) && DistinctMatches(cycle) && IsMatch(cycle, b, m)
    requires Replacement(w.ledger, b, m, s) && w.status == Running
    ensures var w' := FinishFallback(w, b, m, s);
            && GoodStep(cfg, cycle, w, w')
            && (w'.status == Running && NoRefusal(w.script) ==> ExactlyOneVisible(w'.ledger, b, m))
  {
    var facts := MatchFacts(b, m, s);
    assert Kept(cfg, w.table, w.ledger, b, m);
    assert Burned(w.ledger, b, m.payload.importId);
    RecordMatch(cfg, cycle, w, b, m, facts);
    RecordLeavesLedger(w, m.trackingKey, facts);
    var recorded := CountCreated(Record(w, m.trackingKey, facts));
    DeleteKeeps(cfg, cycle, recorded, b, m);
    hide GoodStep, ExactlyOneVisible, Record, DeleteOriginal, AllKept, NoRefusal;
    assert GoodStep(cfg, cycle, w, recorded) by { CountingIsGood(cfg, cycle, w, Record(w, m.trackingKey, facts)); }
    GoodStepTransitive(cfg, cycle, w, recorded, DeleteOriginal(recorded, b, m.originalId));
  }

  lemma CountingIsGood(cfg: Settings, cycle: Cycle, w: World, w': World)
    requires GoodStep(cfg, cycle, w, w')
    ensures GoodStep(cfg, cycle, w, CountCreated(w'))
  {
    hide AllKept, ExactlyOneVisible, NoRefusal;
  }

  lemma IsMatchOf(cycle: Cycle, k: nat, m: ManualMatch)
    requires k < |cycle.matches| && m in cycle.matches[k].items
    ensures IsMatch(cycle, cycle.matches[k].budget, m)
  {
  }

  lemma SameImportSameMatch(cycle: Cycle, k: nat, m: ManualMatch, p: ManualMatch)
    requires DistinctMatches(cycle) && k < |cycle.matches|
    requires m in cycle.matches[k].items && p in cycle.matches[k].items && m.payload.importId == p.payload.importId
    ensures m == p
  {
    IsMatchOf(cycle, k, m);
    IsMatchOf(cycle, k, p);
  }

  lemma StandingStill(cfg: Settings, cycle: Cycle, w: World)
    requires AllKept(cfg, cycle, w.table, w.ledger)
    ensures GoodStep(cfg, cycle, w, w)
  {
  }

  /** Every match of batch k that was submitted under `id` has exactly one visible transaction. */
  ghost predicate Resolved(cycle: Cycle, k: nat, l: Ledger, id: string)
    requires k < |cycle.matches|
  {
    forall m :: m in cycle.matches[k].items && m.payload.importId == id ==> ExactlyOneVisible(l, cycle.matches[k].budget, m)
  }

  lemma MatchRowKeeps(cfg: Settings, cycle: Cycle, w: World, k: nat, row: Reported)
    requires AllKept(cfg, cycle, w.table, w.ledger) && DistinctMatches(cycle) && k < |cycle.matches|
    requires RowOk(w.ledger, cycle.matches[k].budget, row) && w.status == Running
    ensures var w' := MatchRow(w, cycle.matches[k].budget, cycle.matches[k].items, row);
            && GoodStep(cfg, cycle, w, w')
            && (w'.status == Running && NoRefusal(w.script) && row.importId.Some? ==>
                Resolved(cycle, k, w'.ledger, row.importId.value))
  {
    var b, items := cycle.matches[k].budget, cycle.matches[k].items;
    StandingStill(cfg, cycle, w);
    if row.importId.Some? && FindMatch(items, row.importId.value).Some? {
      var p := FindMatch(items, row.importId.value).value;
      IsMatchOf(cycle, k, p);
      if row.matched.Some? {
        ShadowMeansNotReplaced(w.ledger, b, p, row.id);
        assert Burned(w.ledger, b, p.payload.importId);
        NativeKeeps(cfg, cycle, w, b, p);
      } else {
        assert Replacement(w.ledger, b, p, row.id);
        FallbackKeeps(cfg, cycle, w, b, p, row.id);
      }
      hide FinishNative, FinishFallback, GoodStep, ExactlyOneVisible, AllKept, RowOk, NoRefusal, FindMatch;
      forall m | m in items && m.payload.importId == row.importId.value ensures m == p {
        SameImportSameMatch(cycle, k, m, p);
      }
    }
  }

  lemma {:induction false} MatchRowsKeep(cfg: Settings, cycle: Cycle, w: World, k: nat, rows: seq<Reported>)
    requires AllKept(cfg, cycle, w.table, w.ledger) && DistinctMatches(cycle) && k < |cycle.matches|
    requires RowsOk(w.ledger, cycle.matches[k].budget, rows)
    ensures var w' := MatchRows(w, cycle.matches[k].budget, cycle.matches[k].items, rows);
            && GoodStep(cfg, cycle, w, w')
            && (w'.status == Running && NoRefusal(w.script) ==>
                forall row :: row in rows && row.importId.Some? ==> Resolved(cycle, k, w'.ledger, row.importId.value))
    decreases |rows|
  {
    var b, items := cycle.matches[k].budget, cycle.matches[k].items;
    StandingStill(cfg, cycle, w);
    if rows != [] && w.status == Running {
      assert rows[0] in rows;
      MatchRowKeeps(cfg, cycle, w, k, rows[0]);
      var w1 := MatchRow(w, b, items, rows[0]);
      assert forall row :: row in rows[1..] ==> row in rows;
      RowsStayOk(w.ledger, w1.ledger, b, rows[1..]);
      MatchRowsKeep(cfg, cycle, w1, k, rows[1..]);
      var w' := MatchRows(w1, b, items, rows[1..]);
      GoodStepTransitive(cfg, cycle, w, w1, w');
      HaltedMatchRows(w1, b, items, rows[1..]);
      if w'.status == Running && NoRefusal(w.script) {
        if rows[0].importId.Some? {
          ResolvedStays(cfg, cycle, w1, w', k, rows[0].importId.value);
        }
        assert forall row :: row in rows ==> row == rows[0] || row in rows[1..];
      }
    }
  }

  lemma HaltedMatchRows(w: World, b: string, items: seq<ManualMatch>, rows: seq<Reported>)
    ensures w.status != Running ==> MatchRows(w, b, items, rows) == w
  {
  }

  lemma ResolvedStays(cfg: Settings, cycle: Cycle, w: World, w': World, k: nat, id: string)
    requires k < |cycle.matches| && GoodStep(cfg, cycle, w, w') && Resolved(cycle, k, w.ledger, id)
    ensures Resolved(cycle, k, w'.ledger, id)
  {
    forall m | m in cycle.matches[k].items && m.payload.importId == id
      ensures ExactlyOneVisible(w'.ledger, cycle.matches[k].budget, m)
    {
      IsMatchOf(cycle, k, m);
      StaysResolved(cfg, cycle, w, w', cycle.matches[k].budget, m);
    }
  }

  lemma NotListedMeansNotReplaced(cfg: Settings, l: Ledger, b: string, m: ManualMatch)
    requires Findable(cfg, l, b, m)
    requires FindByImportId(l, b, m.payload.account, m.payload.importId,
                            DateWindow.SinceDateBound(m.payload.date, cfg.backfillDays), cfg.shadowsListed).None?
    ensures !Replaced(l, b, m)
  {
    var since := DateWindow.SinceDateBound(m.payload.date, cfg.backfillDays);
    var listed := ListedUnder(b, m.payload.account, m.payload.importId, since, cfg.shadowsListed);
    forall s: nat ensures !Replacement(l, b, m, s) {
      assert s < |l| ==> !listed(l[s]);
    }
  }

  lemma MatchDuplicateKeeps(cfg: Settings, cycle: Cycle, w: World, k: nat, id: string)
    requires AllKept(cfg, cycle, w.table, w.ledger) && DistinctMatches(cycle) && k < |cycle.matches|
    requires w.status == Running
    ensures var w' := MatchDuplicate(w, cfg, cycle.matches[k].budget, cycle.matches[k].items, id);
            && GoodStep(cfg, cycle, w, w')
            && (w'.status == Running && NoRefusal(w.script) ==> Resolved(cycle, k, w'.ledger, id))
  {
    var b, items := cycle.matches[k].budget, cycle.matches[k].items;
    StandingStill(cfg, cycle, w);
    var found := FindMatch(items, id);
    if found.Some? {
      var p := found.value;
      IsMatchOf(cycle, k, p);
      forall m | m in items && m.payload.importId == id ensures m == p {
        SameImportSameMatch(cycle, k, m, p);
      }
      DuplicateOf(cfg, cycle, w, b, items, p);
      hide MatchDuplicate, GoodStep, ExactlyOneVisible, AllKept, NoRefusal, FindMatch;
    }
  }

  lemma DuplicateOf(cfg: Settings, cycle: Cycle, w: World, b: string, items: seq<ManualMatch>, p: ManualMatch)
    requires AllKept(cfg, cycle, w.table, w.ledger) && DistinctMatches(cycle) && IsMatch(cycle, b, p)
    requires w.status == Running && FindMatch(items, p.payload.importId) == Some(p)
    ensures var w' := MatchDuplicate(w, cfg, b, items, p.payload.importId);
            && GoodStep(cfg, cycle, w, w')
            && (w'.status == Running && NoRefusal(w.script) ==> ExactlyOneVisible(w'.ledger, b, p))
  {
    StandingStill(cfg, cycle, w);
    assert Kept(cfg, w.table, w.ledger, b, p);
    if p.trackingKey in w.table {
      if w.table[p.trackingKey].facts.txnId == p.originalId {
        ShadowIsResolved(cfg, w.table, w.ledger, b, p);
      } else {
        assert Replacement(w.ledger, b, p, w.table[p.trackingKey].facts.txnId);
        DeleteKeeps(cfg, cycle, w, b, p);
      }
    } else {
      CalmRefl(w.ledger, iset{});
      PatchIsGoodStep(cfg, cycle, w, w.ledger);
      ReadLeaves(w);
      hide GoodStep, AllKept, NoRefusal, Read, FinishNative, FinishFallback, DeleteOriginal, Calm, FindMatch;
      UntrackedDuplicate(cfg, cycle, w, Read(w), b, items, p);
    }
  }

  lemma ReadLeaves(w: World)
    ensures Read(w).table == w.table && Read(w).ledger == w.ledger
    ensures NoRefusal(w.script) ==> NoRefusal(Read(w).script)
  {
  }

  lemma UntrackedDuplicate(cfg: Settings, cycle: Cycle, w: World, read: World, b: string, items: seq<ManualMatch>,
                           p: ManualMatch)
    requires AllKept(cfg, cycle, w.table, w.ledger) && DistinctMatches(cycle) && IsMatch(cycle, b, p)
    requires w.status == Running && FindMatch(items, p.payload.importId) == Some(p) && p.trackingKey !in w.table
    requires read == Read(w) && read.table == w.table && read.ledger == w.ledger && GoodStep(cfg, cycle, w, read)
    requires NoRefusal(w.script) ==> NoRefusal(read.script)
    ensures var w' := MatchDuplicate(w, cfg, b, items, p.payload.importId);
            && GoodStep(cfg, cycle, w, w')
            && (w'.status == Running && NoRefusal(w.script) ==> ExactlyOneVisible(w'.ledger, b, p))
  {
    assert Kept(cfg, w.table, w.ledger, b, p);
    var since := DateWindow.SinceDateBound(p.payload.date, cfg.backfillDays);
    var shadow := FindByImportId(w.ledger, b, p.payload.account, p.payload.importId, since, cfg.shadowsListed);
    if shadow.None? {
      NotListedMeansNotReplaced(cfg, w.ledger, b, p);
      ShadowIsResolved(cfg, w.table, w.ledger, b, p);
    } else {
      var s := shadow.value;
      assert Burned(w.ledger, b, p.payload.importId);
      if w.ledger[s].matched.Some? {
        ShadowMeansNotReplaced(w.ledger, b, p, s);
        NativeKeeps(cfg, cycle, read, b, p);
        GoodStepTransitive(cfg, cycle, w, read, FinishNative(read, b, p));
      } else if read.status == Running {
        assert Replacement(w.ledger, b, p, s);
        FallbackKeeps(cfg, cycle, read, b, p, s);
        GoodStepTransitive(cfg, cycle, w, read, FinishFallback(read, b, p, s));
      }
    }
    hide GoodStep, AllKept, NoRefusal, Read, FinishNative, FinishFallback, DeleteOriginal, FindMatch,
         ExactlyOneVisible, FindByImportId, Kept;
  }

  lemma {:induction false} MatchDuplicatesKeep(cfg: Settings, cycle: Cycle, w: World, k: nat, ids: seq<string>)
    requires AllKept(cfg, cycle, w.table, w.ledger) && DistinctMatches(cycle) && k < |cycle.matches|
    ensures var w' := MatchDuplicates(w, cfg, cycle.matches[k].budget, cycle.matches[k].items, ids);
            && GoodStep(cfg, cycle, w, w')
            && (w'.status == Running && NoRefusal(w.script) ==> forall id :: id in ids ==> Resolved(cycle, k, w'.ledger, id))
    decreases |ids|
  {
    var b, items := cycle.matches[k].budget, cycle.matches[k].items;
    StandingStill(cfg, cycle, w);
    if ids != [] && w.status == Running {
      MatchDuplicateKeeps(cfg, cycle, w, k, ids[0]);
      var w1 := MatchDuplicate(w, cfg, b, items, ids[0]);
      MatchDuplicatesKeep(cfg, cycle, w1, k, ids[1..]);
      var w' := MatchDuplicates(w1, cfg, b, items, ids[1..]);
      GoodStepTransitive(cfg, cycle, w, w1, w');
      HaltedDuplicates(w1, cfg, b, items, ids[1..]);
      if w'.status == Running && NoRefusal(w.script) {
        ResolvedStays(cfg, cycle, w1, w', k, ids[0]);
        assert forall id :: id in ids ==> id == ids[0] || id in ids[1..];
      }
    }
  }

  lemma HaltedDuplicates(w: World, cfg: Settings, b: string, items: seq<ManualMatch>, ids: seq<string>)
    ensures w.status != Running ==> MatchDuplicates(w, cfg, b, items, ids) == w
  {
  }

  // --- whole batches, whole attempts -------------------------------------------------------------

  /** Burned and resolved: neither a later batch nor a later attempt can disturb it. */
  ghost predicate Final(l: Ledger, b: string, m: ManualMatch) {
    Burned(l, b, m.payload.importId) && ExactlyOneVisible(l, b, m)
  }

  ghost predicate PhaseStep(cfg: Settings, cycle: Cycle, w: World, w': World) {
    && AllKept(cfg, cycle, w'.table, w'.ledger)
    && (forall b, m :: IsMatch(cycle, b, m) && Final(w.ledger, b, m) ==> Final(w'.ledger, b, m))
    && (NoRefusal(w.script) ==> NoRefusal(w'.script))
  }

  lemma GoodStepIsPhaseStep(cfg: Settings, cycle: Cycle, w: World, w': World)
    requires GoodStep(cfg, cycle, w, w')
    ensures PhaseStep(cfg, cycle, w, w')
  {
    hide AllKept, ExactlyOneVisible, Burned, NoRefusal;
    forall b, m | IsMatch(cycle, b, m) && Final(w.ledger, b, m) ensures Final(w'.ledger, b, m) {
      BurnedForever(w.ledger, w'.ledger, b, m.payload.importId);
    }
  }

  lemma PayloadsOfMatches(cycle: Cycle, k: nat)
    requires k < |cycle.matches|
    ensures var ps := MatchPayloads(cycle.matches[k].items);
            && (forall p :: p in ps ==> exists m :: IsMatch(cycle, cycle.matches[k].budget, m) && m.payload == p)
            && (forall m :: m in cycle.matches[k].items ==> m.payload in ps)
  {
    var items := cycle.matches[k].items;
    var ps := MatchPayloads(items);
    forall p | p in ps ensures exists m :: IsMatch(cycle, cycle.matches[k].budget, m) && m.payload == p {
      var i :| 0 <= i < |ps| && ps[i] == p;
      IsMatchOf(cycle, k, items[i]);
    }
    forall m | m in items ensures m.payload in ps {
      var i :| 0 <= i < |items| && items[i] == m;
      assert ps[i] == m.payload;
    }
  }

  lemma BurnedHasNoNewHolder(l: Ledger, l': Ledger, b: string, m: ManualMatch)
    requires Extends(l, l') && UniqueIds(l') && Burned(l, b, m.payload.importId)
    ensures NoNewHolder(l, l', b, m)
  {
    var i :| 0 <= i < |l| && Holds(l[i], b, m.payload.importId);
    assert SameIdentity(l[i], l'[i]);
    forall s: nat | |l| <= s < |l'| ensures !Holds(l'[s], b, m.payload.importId) {
      assert Holds(l'[s], l'[i].budget, m.payload.importId) ==> s == i;
    }
  }

  lemma FinalSurvivesCreate(cfg: Settings, t: Table, l: Ledger, l': Ledger, ids: iset<string>, b: string, m: ManualMatch)
    requires Kept(cfg, t, l, b, m) && Final(l, b, m) && Calm(l, l', ids) && UniqueIds(l')
    ensures Final(l', b, m)
  {
    BurnedHasNoNewHolder(l, l', b, m);
    BurnedForever(l, l', b, m.payload.importId);
    hide UniqueIds, Burned, Findable, RowAgrees;
    Unconcerned(cfg, t, l, t, l', b, m);
  }

  lemma CreatedLedgerKeeps(cfg: Settings, cycle: Cycle, t: Table, l: Ledger, k: nat)
    requires AllKept(cfg, cycle, t, l) && DistinctMatches(cycle) && k < |cycle.matches|
    ensures var b := cycle.matches[k].budget;
            var (l', r) := CreateAll(l, cfg.native, b, MatchPayloads(cycle.matches[k].items));
            && AllKept(cfg, cycle, t, l') && RowsOk(l', b, r.rows)
            && (forall b', m :: IsMatch(cycle, b', m) && Final(l, b', m) ==> Final(l', b', m))
            && forall m :: m in cycle.matches[k].items ==>
                 Answers(r, m.payload.importId) && Burned(l', b, m.payload.importId)
  {
    var b, ps := cycle.matches[k].budget, MatchPayloads(cycle.matches[k].items);
    var ids := iset p | p in ps :: p.importId;
    PayloadsOfMatches(cycle, k);
    CreateAllKeeps(cfg, cycle, t, l, b, ps);
    CreateAllAnswers(l, cfg.native, b, ps);
    CreateAllKeepsUnique(l, cfg.native, b, ps);
    CreateAllIsCalm(l, cfg.native, b, ps, ids);
    hide CreateAll, UniqueIds, Burned, MatchPayloads, Kept, RowsOk, Answers, Calm, Final, DistinctMatches;
    var l' := CreateAll(l, cfg.native, b, ps).0;
    forall b', m | IsMatch(cycle, b', m) && Final(l, b', m) ensures Final(l', b', m) {
      FinalSurvivesCreate(cfg, t, l, l', ids, b', m);
    }
  }

  lemma PostKeeps(cfg: Settings, cycle: Cycle, w: World, k: nat)
    requires AllKept(cfg, cycle, w.table, w.ledger) && DistinctMatches(cycle) && k < |cycle.matches|
    ensures var (posted, r) := PostCreates(w, cfg, cycle.matches[k].budget, MatchPayloads(cycle.matches[k].items));
            && PhaseStep(cfg, cycle, w, posted)
            && (posted.status == Running && w.status == Running ==>
                && RowsOk(posted.ledger, cycle.matches[k].budget, r.rows)
                && forall m :: m in cycle.matches[k].items ==>
                     Answers(r, m.payload.importId) && Burned(posted.ledger, cycle.matches[k].budget, m.payload.importId))
  {
    hide CreateAll, PostCreates, UniqueIds, Burned, MatchPayloads, AllKept, RowsOk, Answers, Final, DistinctMatches,
         NoRefusal;
    CreatedLedgerKeeps(cfg, cycle, w.table, w.ledger, k);
    PostShape(w, cfg, cycle.matches[k].budget, MatchPayloads(cycle.matches[k].items));
  }

  lemma PostShape(w: World, cfg: Settings, b: string, ps: seq<Payload>)
    ensures var (posted, r) := PostCreates(w, cfg, b, ps);
            var (l', r') := CreateAll(w.ledger, cfg.native, b, ps);
            && posted.table == w.table && r == r'
            && (posted.ledger == w.ledger || posted.ledger == l')
            && (posted.status == Running ==> posted.ledger == l')
            && (NoRefusal(w.script) ==> NoRefusal(posted.script))
  {
    hide CreateOne;
    assert ps == [] ==> CreateAll(w.ledger, cfg.native, b, ps) == (w.ledger, Response([], []));
    hide CreateAll;
  }

  lemma PhaseStepTransitive(cfg: Settings, cycle: Cycle, w: World, w1: World, w2: World)
    requires PhaseStep(cfg, cycle, w, w1) && PhaseStep(cfg, cycle, w1, w2)
    ensures PhaseStep(cfg, cycle, w, w2)
  {
    hide AllKept, Final, NoRefusal;
  }

  ghost predicate BatchFinal(cycle: Cycle, k: nat, l: Ledger)
    requires k < |cycle.matches|
  {
    forall m :: m in cycle.matches[k].items ==> Final(l, cycle.matches[k].budget, m)
  }

  lemma SubmitMatchesKeeps(cfg: Settings, cycle: Cycle, w: World, k: nat)
    requires AllKept(cfg, cycle, w.table, w.ledger) && DistinctMatches(cycle) && k < |cycle.matches|
    requires w.status == Running
    ensures var w' := SubmitMatches(w, cfg, cycle.matches[k]);
            && PhaseStep(cfg, cycle, w, w')
            && (w'.status == Running && NoRefusal(w.script) ==> BatchFinal(cycle, k, w'.ledger))
  {
    var batch := cycle.matches[k];
    var (posted, r) := PostCreates(w, cfg, batch.budget, MatchPayloads(batch.items));
    PostKeeps(cfg, cycle, w, k);
    hide PostCreates, MatchPayloads, AllKept, NoRefusal, MatchRows, MatchDuplicates, UniqueIds, Burned;
    if posted.status == Running {
      assert AllKept(cfg, cycle, posted.table, posted.ledger);
      MatchRowsKeep(cfg, cycle, posted, k, r.rows);
      var recorded := MatchRows(posted, batch.budget, batch.items, r.rows);
      GoodStepIsPhaseStep(cfg, cycle, posted, recorded);
      MatchDuplicatesKeep(cfg, cycle, recorded, k, r.duplicates);
      var w' := MatchDuplicates(recorded, cfg, batch.budget, batch.items, r.duplicates);
      GoodStepIsPhaseStep(cfg, cycle, recorded, w');
      PhaseStepTransitive(cfg, cycle, w, posted, recorded);
      PhaseStepTransitive(cfg, cycle, w, recorded, w');
      if recorded.status == Running && w'.status == Running && NoRefusal(w.script) {
        assert NoRefusal(recorded.script);
        AllAnswered(cfg, cycle, k, posted, recorded, w', r);
      }
    }
  }

  lemma AllAnswered(cfg: Settings, cycle: Cycle, k: nat, posted: World, recorded: World, w': World, r: Response)
    requires k < |cycle.matches| && GoodStep(cfg, cycle, posted, recorded) && GoodStep(cfg, cycle, recorded, w')
    requires forall row :: row in r.rows && row.importId.Some? ==> Resolved(cycle, k, recorded.ledger, row.importId.value)
    requires forall id :: id in r.duplicates ==> Resolved(cycle, k, w'.ledger, id)
    requires forall m :: m in cycle.matches[k].items ==>
      Answers(r, m.payload.importId) && Burned(posted.ledger, cycle.matches[k].budget, m.payload.importId)
    ensures BatchFinal(cycle, k, w'.ledger)
  {
    var b := cycle.matches[k].budget;
    forall m | m in cycle.matches[k].items ensures Final(w'.ledger, b, m) {
      var id := m.payload.importId;
      assert Answers(r, id);
      BurnedForever(posted.ledger, recorded.ledger, b, id);
      BurnedForever(recorded.ledger, w'.ledger, b, id);
      if id in r.duplicates {
        assert Resolved(cycle, k, w'.ledger, id);
      } else {
        var row :| row in r.rows && row.importId == Some(id);
        ResolvedStays(cfg, cycle, recorded, w', k, id);
      }
    }
  }

  lemma {:induction false} MatchesPhaseKeeps(cfg: Settings, cycle: Cycle, w: World, k: nat)
    requires AllKept(cfg, cycle, w.table, w.ledger) && DistinctMatches(cycle) && k <= |cycle.matches|
    ensures var w' := MatchesPhase(w, cfg, cycle.matches[k..]);
            && PhaseStep(cfg, cycle, w, w')
            && (w'.status == Running && NoRefusal(w.script) ==>
                forall j :: k <= j < |cycle.matches| ==> BatchFinal(cycle, j, w'.ledger))
    decreases |cycle.matches| - k
  {
    var rest := cycle.matches[k..];
    StandingStill(cfg, cycle, w);
    GoodStepIsPhaseStep(cfg, cycle, w, w);
    if rest != [] && w.status == Running {
      assert rest[0] == cycle.matches[k] && rest[1..] == cycle.matches[k + 1..];
      SubmitMatchesKeeps(cfg, cycle, w, k);
      var w1 := SubmitMatches(w, cfg, cycle.matches[k]);
      MatchesPhaseKeeps(cfg, cycle, w1, k + 1);
      var w' := MatchesPhase(w1, cfg, cycle.matches[k + 1..]);
      PhaseStepTransitive(cfg, cycle, w, w1, w');
      HaltedMatches(w1, cfg, cycle.matches[k + 1..]);
      hide SubmitMatches, AllKept, Final, NoRefusal;
      if w'.status == Running && NoRefusal(w.script) {
        forall j | k <= j < |cycle.matches| ensures BatchFinal(cycle, j, w'.ledger) {
          if j == k {
            forall m | m in cycle.matches[k].items ensures Final(w'.ledger, cycle.matches[k].budget, m) {
              IsMatchOf(cycle, k, m);
            }
          }
        }
      }
    }
  }

  lemma HaltedMatches(w: World, cfg: Settings, batches: seq<Batch<ManualMatch>>)
    ensures w.status != Running ==> MatchesPhase(w, cfg, batches) == w
  {
  }

  /** The rest of the cycle keeps to keys and import_ids of its own. */
  ghost predicate Separate(cycle: Cycle, keys: iset<string>, ids: iset<string>) {
    && (forall batch :: batch in cycle.creates ==> BatchWithin(batch, keys, ids))
    && CorrectionsWithin(cycle, keys)
    && (forall b, m :: IsMatch(cycle, b, m) ==> m.trackingKey !in keys && m.payload.importId !in ids)
    && DistinctMatches(cycle)
  }

  lemma AttemptKeeps(cfg: Settings, cycle: Cycle, w: World, budgets: seq<string>, keys: iset<string>, ids: iset<string>)
    requires Separate(cycle, keys, ids) && AllKept(cfg, cycle, w.table, w.ledger)
    ensures var w' := Submit(w, cfg, cycle, budgets);
            && AllKept(cfg, cycle, w'.table, w'.ledger)
            && (w'.status == Running && NoRefusal(w.script) ==>
                forall b, m :: IsMatch(cycle, b, m) ==> Final(w'.ledger, b, m))
  {
    var w1 := CreatesPhase(w, cfg, cycle.creates);
    CreatesPhaseIsQuiet(w, cfg, cycle.creates, keys, ids);
    QuietKeepsAll(cfg, cycle, w, w1, keys, ids);
    var w2 := CorrectionsPhase(w1, cfg, cycle, budgets);
    CorrectionsPhaseIsQuiet(w1, cfg, cycle, budgets, keys, ids);
    QuietKeepsAll(cfg, cycle, w1, w2, keys, ids);
    assert cycle.matches[0..] == cycle.matches;
    MatchesPhaseKeeps(cfg, cycle, w2, 0);
    hide CreatesPhase, CorrectionsPhase, MatchesPhase, AllKept, Calm, Final, DistinctMatches;
    var w' := Submit(w, cfg, cycle, budgets);
    if w'.status == Running && NoRefusal(w.script) {
      forall b, m | IsMatch(cycle, b, m) ensures Final(w'.ledger, b, m) {
        var k :| 0 <= k < |cycle.matches| && cycle.matches[k].budget == b && m in cycle.matches[k].items;
        assert BatchFinal(cycle, k, w'.ledger);
      }
    }
  }

  lemma KeptMeansNotVanished(cfg: Settings, t: Table, l: Ledger, b: string, m: ManualMatch)
    requires Kept(cfg, t, l, b, m)
    ensures Visible(l, m.originalId) || Replaced(l, b, m)
  {
  }

  /** A fresh cycle: live manual originals, untracked keys, and no visible replacement out of a lookup's reach. */
  ghost predicate FreshMatches(cfg: Settings, cycle: Cycle, t: Table, l: Ledger) {
    && UniqueIds(l)
    && forall b, m :: IsMatch(cycle, b, m) ==>
         IsManual(l, b, m) && !l[m.originalId].deleted && m.trackingKey !in t && Findable(cfg, l, b, m)
  }

  lemma {:induction false} TriesKeep(cfg: Settings, cycle: Cycle, w: World, tries: seq<Try>, keys: iset<string>,
                                     ids: iset<string>)
    requires Separate(cycle, keys, ids) && AllKept(cfg, cycle, w.table, w.ledger)
    ensures var w' := AfterTries(cfg, cycle, w, tries);
            && AllKept(cfg, cycle, w'.table, w'.ledger)
            && (tries != [] && w'.status == Running && NoRefusal(tries[|tries| - 1].script) ==>
                forall b, m :: IsMatch(cycle, b, m) ==> Final(w'.ledger, b, m))
    decreases |tries|
  {
    if tries != [] {
      var t := tries[0];
      var start := Attempt(w.table, w.ledger, t.script, t.now);
      AttemptKeeps(cfg, cycle, start, t.budgets, keys, ids);
      var w1 := Submit(start, cfg, cycle, t.budgets);
      hide Submit, AllKept, Separate, Final, NoRefusal;
      TriesKeep(cfg, cycle, w1, tries[1..], keys, ids);
      if |tries| > 1 {
        assert tries[1..][|tries[1..]| - 1] == tries[|tries| - 1];
      }
    }
  }

  /**
   * After any attempts, aborted anywhere, no matched money has vanished; once an attempt completes in which no
   * delete was refused, exactly one of each original and its replacement is visible, whichever ending applied.
   */
  lemma MatchedMoneyNeverVanishes(cfg: Settings, cycle: Cycle, table: Table, ledger: Ledger, tries: seq<Try>,
                                  keys: iset<string>, ids: iset<string>)
    requires Separate(cycle, keys, ids) && FreshMatches(cfg, cycle, table, ledger)
    ensures var w := AfterTries(cfg, cycle, Attempt(table, ledger, [], 0), tries);
            && (forall b, m :: IsMatch(cycle, b, m) ==> Visible(w.ledger, m.originalId) || Replaced(w.ledger, b, m))
            && (tries != [] && w.status == Running && NoRefusal(tries[|tries| - 1].script) ==>
                forall b, m :: IsMatch(cycle, b, m) ==> ExactlyOneVisible(w.ledger, b, m))
  {
    var start := Attempt(table, ledger, [], 0);
    assert AllKept(cfg, cycle, table, ledger);
    TriesKeep(cfg, cycle, start, tries, keys, ids);
    var w := AfterTries(cfg, cycle, start, tries);
    hide AfterTries, Kept, Separate, UniqueIds, ExactlyOneVisible, Visible, Replaced, NoRefusal;
    forall b, m | IsMatch(cycle, b, m) ensures Visible(w.ledger, m.originalId) || Replaced(w.ledger, b, m) {
      KeptMeansNotVanished(cfg, w.table, w.ledger, b, m);
    }
  }
}
