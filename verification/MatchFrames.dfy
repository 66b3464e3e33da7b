/**
 * What the third phase of submit() leaves alone, on any script: it deletes
 * nothing but the originals of its matches and writes only their rows.
 */
module MatchFrames {
  import opened Wrappers
  import opened Ynab
  import opened StateDb
  import opened SyncSpec
  import opened Creation
  import opened Frames
  import opened ManualReplacement
  import DateWindow

  ghost predicate IsOriginal(cycle: Cycle, i: nat) { exists b, m :: IsMatch(cycle, b, m) && m.originalId == i }

  ghost predicate IsMatchKey(cycle: Cycle, k: string) { exists b, m :: IsMatch(cycle, b, m) && m.trackingKey == k }

  /** YNAB's native matching, if it fires for a match of this cycle, picks the chosen original. */
  ghost predicate Focused(cfg: Settings, cycle: Cycle) {
    forall l, b, m :: IsMatch(cycle, b, m) ==>
      cfg.native(l, b, m.payload).None? || cfg.native(l, b, m.payload).value == m.originalId
  }

  /** The original of m is matched already, so whatever is imported for m shows. */
  ghost predicate Rematching(l: Ledger, b: string, m: ManualMatch) {
    && m.originalId < |l| && l[m.originalId].matched.Some?
    && forall s: nat :: s < |l| && Holds(l[s], b, m.payload.importId) ==> IsVisible(l[s])
  }

  /** No original was imported. */
  ghost predicate AllManual(cycle: Cycle, l: Ledger) {
    forall i: nat :: IsOriginal(cycle, i) ==> i < |l| && l[i].importId.None?
  }

  ghost predicate LedgerSpares(cfg: Settings, cycle: Cycle, l: Ledger, l': Ledger) {
    AllManual(cycle, l) ==> Edits(cfg, cycle, l, l')
  }

  ghost predicate Edits(cfg: Settings, cycle: Cycle, l: Ledger, l': Ledger) {
    && ImportsStable(l, l')
    && (forall i: nat :: i < |l| && !IsOriginal(cycle, i) ==> l'[i].deleted == l[i].deleted)
    && (Focused(cfg, cycle) && DistinctMatches(cycle) ==>
          forall b, m :: IsMatch(cycle, b, m) && Rematching(l, b, m) ==> Rematching(l', b, m))
  }

  /** A step that never fails where no call does. */
  ghost predicate Spares(cfg: Settings, cycle: Cycle, w: World, w': World) {
    && LedgerSpares(cfg, cycle, w.ledger, w'.ledger)
    && (forall k :: !IsMatchKey(cycle, k) ==> SameRowAt(w.table, w'.table, k))
    && (w.script == [] && w.status == Running ==> w'.script == [] && w'.status == Running)
  }

  lemma EditsTransitive(cfg: Settings, cycle: Cycle, l: Ledger, l1: Ledger, l2: Ledger)
    requires Edits(cfg, cycle, l, l1) && Edits(cfg, cycle, l1, l2)
    ensures Edits(cfg, cycle, l, l2)
  {
    hide Rematching, Focused, DistinctMatches, IsOriginal, IsMatch;
    forall i | 0 <= i < |l|
      ensures SameIdentity(l[i], l2[i]) && (!IsOriginal(cycle, i) ==> l2[i].deleted == l[i].deleted)
      ensures l[i].importId.Some? ==> l2[i].matched == l[i].matched && l2[i].deleted == l[i].deleted
      ensures l[i].matched.Some? ==> l2[i].matched == l[i].matched
    {
      assert SameIdentity(l[i], l1[i]) && SameIdentity(l1[i], l2[i]);
    }
  }

  lemma StaysManual(cfg: Settings, cycle: Cycle, l: Ledger, l': Ledger)
    requires AllManual(cycle, l) && Extends(l, l')
    ensures AllManual(cycle, l')
  {
    hide IsOriginal;
    forall i: nat | IsOriginal(cycle, i) ensures i < |l'| && l'[i].importId.None? {
      assert SameIdentity(l[i], l'[i]);
    }
  }

  lemma LedgerSparesTransitive(cfg: Settings, cycle: Cycle, l: Ledger, l1: Ledger, l2: Ledger)
    requires LedgerSpares(cfg, cycle, l, l1) && LedgerSpares(cfg, cycle, l1, l2)
    ensures LedgerSpares(cfg, cycle, l, l2)
  {
    hide AllManual;
    if AllManual(cycle, l) {
      StaysManual(cfg, cycle, l, l1);
      EditsTransitive(cfg, cycle, l, l1, l2);
    }
  }

  lemma SparesTransitive(cfg: Settings, cycle: Cycle, w: World, w1: World, w2: World)
    requires Spares(cfg, cycle, w, w1) && Spares(cfg, cycle, w1, w2)
    ensures Spares(cfg, cycle, w, w2)
  {
    LedgerSparesTransitive(cfg, cycle, w.ledger, w1.ledger, w2.ledger);
    hide LedgerSpares, IsMatchKey;
    forall k | !IsMatchKey(cycle, k) ensures SameRowAt(w.table, w2.table, k) {
      assert SameRowAt(w.table, w1.table, k) && SameRowAt(w1.table, w2.table, k);
    }
  }

  lemma SparesRefl(cfg: Settings, cycle: Cycle, w: World)
    ensures Spares(cfg, cycle, w, w)
  {
  }

  /** Without a new holder of its import_id, a rematching stays one. */
  lemma RematchingStays(l: Ledger, l': Ledger, b: string, m: ManualMatch)
    requires ImportsStable(l, l') && NoNewHolder(l, l', b, m) && Rematching(l, b, m)
    ensures Rematching(l', b, m)
  {
    forall s: nat | s < |l'| && Holds(l'[s], b, m.payload.importId) ensures IsVisible(l'[s]) {
      assert s < |l|;
      assert SameIdentity(l[s], l'[s]);
      assert Holds(l[s], b, m.payload.importId);
    }
  }

  /** Editing transactions, and deleting no other than an original. */
  lemma EditSpares(cfg: Settings, cycle: Cycle, l: Ledger, l': Ledger)
    requires ImportsStable(l, l') && |l'| == |l|
    requires forall i: nat :: i < |l| && !IsOriginal(cycle, i) ==> l'[i].deleted == l[i].deleted
    ensures Edits(cfg, cycle, l, l')
  {
    hide Rematching, Focused, DistinctMatches, IsOriginal, ImportsStable;
    forall b, m | IsMatch(cycle, b, m) && Rematching(l, b, m) ensures Rematching(l', b, m) {
      RematchingStays(l, l', b, m);
    }
  }

  lemma PatchSpares(cfg: Settings, cycle: Cycle, l: Ledger, b: string, id: nat, amount: Option<int>, c: ClearedFlag)
    ensures LedgerSpares(cfg, cycle, l, Patch(l, b, id, amount, c))
  {
    PatchIsCalm(l, b, id, amount, c, iset{});
    assert |Patch(l, b, id, amount, c)| == |l|;
    hide Patch, UniqueIds, IsOriginal, ImportsStable;
    EditSpares(cfg, cycle, l, Patch(l, b, id, amount, c));
  }

  lemma DeleteSpares(cfg: Settings, cycle: Cycle, l: Ledger, b: string, m: ManualMatch)
    requires IsMatch(cycle, b, m)
    ensures LedgerSpares(cfg, cycle, l, Delete(l, b, m.originalId))
  {
    var l' := Delete(l, b, m.originalId);
    assert IsOriginal(cycle, m.originalId);
    if AllManual(cycle, l) {
      assert m.originalId < |l| && l[m.originalId].importId.None?;
      assert ImportsStable(l, l');
      hide IsOriginal, ImportsStable, AllManual;
      EditSpares(cfg, cycle, l, l');
    }
  }

  lemma WriteSpares(cfg: Settings, cycle: Cycle, w: World, l: Ledger)
    requires LedgerSpares(cfg, cycle, w.ledger, l)
    ensures Spares(cfg, cycle, w, Write(w, l)) && Spares(cfg, cycle, w, WriteUnless400(w, l))
    ensures Spares(cfg, cycle, w, Read(w)) && Spares(cfg, cycle, w, Consume(w))
  {
    SparesRefl(cfg, cycle, w);
    hide LedgerSpares, IsMatchKey;
  }

  lemma RecordSpares(cfg: Settings, cycle: Cycle, w: World, b: string, m: ManualMatch, facts: Facts)
    requires IsMatch(cycle, b, m)
    ensures Spares(cfg, cycle, w, Record(w, m.trackingKey, facts))
  {
    SparesRefl(cfg, cycle, w);
    assert IsMatchKey(cycle, m.trackingKey);
    hide LedgerSpares, IsMatchKey;
  }

  lemma CountsSpare(cfg: Settings, cycle: Cycle, w: World, w': World)
    requires Spares(cfg, cycle, w, w')
    ensures Spares(cfg, cycle, w, CountCreated(w')) && Spares(cfg, cycle, w, CountUpdated(w'))
  {
    hide LedgerSpares, IsMatchKey;
  }

  lemma FinishSpares(cfg: Settings, cycle: Cycle, w: World, b: string, m: ManualMatch, shadowId: nat)
    requires IsMatch(cycle, b, m)
    ensures Spares(cfg, cycle, w, FinishNative(w, b, m)) && Spares(cfg, cycle, w, FinishFallback(w, b, m, shadowId))
  {
    hide Spares, Record, Patch, MatchFacts, DeleteOriginal, IsMatch, WriteUnless400;
    SparesRefl(cfg, cycle, w);
    CountsSpare(cfg, cycle, w, w);
    var facts := MatchFacts(b, m, m.originalId);
    var native := Record(CountUpdated(w), m.trackingKey, facts);
    RecordSpares(cfg, cycle, CountUpdated(w), b, m, facts);
    RecordLeavesLedger(CountUpdated(w), m.trackingKey, facts);
    PatchSpares(cfg, cycle, w.ledger, facts.budget, facts.txnId, None, Uncleared);
    var patch := Patch(w.ledger, facts.budget, facts.txnId, None, Uncleared);
    WriteSpares(cfg, cycle, native, patch);
    SparesTransitive(cfg, cycle, w, CountUpdated(w), native);
    SparesTransitive(cfg, cycle, w, native, WriteUnless400(native, patch));
    var tracked := Record(w, m.trackingKey, MatchFacts(b, m, shadowId));
    RecordSpares(cfg, cycle, w, b, m, MatchFacts(b, m, shadowId));
    CountsSpare(cfg, cycle, w, tracked);
    DeleteOriginalSpares(cfg, cycle, CountCreated(tracked), b, m);
    SparesTransitive(cfg, cycle, w, CountCreated(tracked), DeleteOriginal(CountCreated(tracked), b, m.originalId));
  }

  lemma DeleteOriginalSpares(cfg: Settings, cycle: Cycle, w: World, b: string, m: ManualMatch)
    requires IsMatch(cycle, b, m)
    ensures Spares(cfg, cycle, w, DeleteOriginal(w, b, m.originalId))
  {
    DeleteSpares(cfg, cycle, w.ledger, b, m);
    WriteSpares(cfg, cycle, w, Delete(w.ledger, b, m.originalId));
    hide Spares, Delete;
  }

  lemma MatchRowSpares(cfg: Settings, cycle: Cycle, w: World, k: nat, row: Reported)
    requires k < |cycle.matches|
    ensures Spares(cfg, cycle, w, MatchRow(w, cycle.matches[k].budget, cycle.matches[k].items, row))
  {
    var b, items := cycle.matches[k].budget, cycle.matches[k].items;
    hide Spares, FindMatch, IsMatch, FinishNative, FinishFallback;
    if row.importId.Some? && FindMatch(items, row.importId.value).Some? {
      IsMatchOf(cycle, k, FindMatch(items, row.importId.value).value);
      FoundRowSpares(cfg, cycle, w, b, items, row);
    } else {
      SparesRefl(cfg, cycle, w);
    }
  }

  lemma FoundRowSpares(cfg: Settings, cycle: Cycle, w: World, b: string, items: seq<ManualMatch>, row: Reported)
    requires row.importId.Some? && FindMatch(items, row.importId.value).Some?
    requires IsMatch(cycle, b, FindMatch(items, row.importId.value).value)
    ensures Spares(cfg, cycle, w, MatchRow(w, b, items, row))
  {
    hide Spares, FindMatch, IsMatch, FinishNative, FinishFallback;
    FinishSpares(cfg, cycle, w, b, FindMatch(items, row.importId.value).value, row.id);
  }

  lemma {:induction false} MatchRowsSpare(cfg: Settings, cycle: Cycle, w: World, k: nat, rows: seq<Reported>)
    requires k < |cycle.matches|
    ensures Spares(cfg, cycle, w, MatchRows(w, cycle.matches[k].budget, cycle.matches[k].items, rows))
    decreases |rows|
  {
    var b, items := cycle.matches[k].budget, cycle.matches[k].items;
    hide Spares, MatchRow;
    SparesRefl(cfg, cycle, w);
    if rows != [] && w.status == Running {
      var w1 := MatchRow(w, b, items, rows[0]);
      MatchRowSpares(cfg, cycle, w, k, rows[0]);
      MatchRowsSpare(cfg, cycle, w1, k, rows[1..]);
      SparesTransitive(cfg, cycle, w, w1, MatchRows(w1, b, items, rows[1..]));
    }
  }

  lemma MatchDuplicateSpares(cfg: Settings, cycle: Cycle, w: World, k: nat, id: string)
    requires k < |cycle.matches|
    ensures Spares(cfg, cycle, w, MatchDuplicate(w, cfg, cycle.matches[k].budget, cycle.matches[k].items, id))
  {
    var b, items := cycle.matches[k].budget, cycle.matches[k].items;
    SparesRefl(cfg, cycle, w);
    LedgerSparesRefl(cfg, cycle, w.ledger);
    WriteSpares(cfg, cycle, w, w.ledger);
    hide Spares, LedgerSpares, FindMatch, IsMatch;
    if FindMatch(items, id).Some? {
      IsMatchOf(cycle, k, FindMatch(items, id).value);
      FoundDuplicateSpares(cfg, cycle, w, b, items, id);
    }
  }

  lemma FoundDuplicateSpares(cfg: Settings, cycle: Cycle, w: World, b: string, items: seq<ManualMatch>, id: string)
    requires FindMatch(items, id).Some? && IsMatch(cycle, b, FindMatch(items, id).value)
    requires Spares(cfg, cycle, w, w) && Spares(cfg, cycle, w, Read(w))
    ensures Spares(cfg, cycle, w, MatchDuplicate(w, cfg, b, items, id))
  {
    hide Spares, FinishNative, FinishFallback, FindMatch, DeleteOriginal, Read, FindByImportId, IsMatch;
    var m := FindMatch(items, id).value;
    var shadow := FindByImportId(w.ledger, b, m.payload.account, id,
                                 DateWindow.SinceDateBound(m.payload.date, cfg.backfillDays), cfg.shadowsListed);
    var s := if shadow.Some? then shadow.value else 0;
    DeleteOriginalSpares(cfg, cycle, w, b, m);
    FinishSpares(cfg, cycle, Read(w), b, m, s);
    SparesTransitive(cfg, cycle, w, Read(w), FinishNative(Read(w), b, m));
    SparesTransitive(cfg, cycle, w, Read(w), FinishFallback(Read(w), b, m, s));
  }

  lemma LedgerSparesRefl(cfg: Settings, cycle: Cycle, l: Ledger)
    ensures LedgerSpares(cfg, cycle, l, l)
  {
  }

  lemma {:induction false} MatchDuplicatesSpare(cfg: Settings, cycle: Cycle, w: World, k: nat, ids: seq<string>)
    requires k < |cycle.matches|
    ensures Spares(cfg, cycle, w, MatchDuplicates(w, cfg, cycle.matches[k].budget, cycle.matches[k].items, ids))
    decreases |ids|
  {
    var b, items := cycle.matches[k].budget, cycle.matches[k].items;
    hide Spares, MatchDuplicate;
    SparesRefl(cfg, cycle, w);
    if ids != [] && w.status == Running {
      var w1 := MatchDuplicate(w, cfg, b, items, ids[0]);
      MatchDuplicateSpares(cfg, cycle, w, k, ids[0]);
      MatchDuplicatesSpare(cfg, cycle, w1, k, ids[1..]);
      SparesTransitive(cfg, cycle, w, w1, MatchDuplicates(w1, cfg, b, items, ids[1..]));
    }
  }

  // --- the creates --------------------------------------------------------------------------------------

  lemma CreateOneSpares(cfg: Settings, cycle: Cycle, l: Ledger, b: string, m: ManualMatch)
    requires IsMatch(cycle, b, m)
    ensures LedgerSpares(cfg, cycle, l, CreateOne(l, cfg.native, b, m.payload).0)
  {
    var l' := CreateOne(l, cfg.native, b, m.payload).0;
    CreateOneIsCalm(l, cfg.native, b, m.payload, iset{m.payload.importId});
    hide CreateOne, UniqueIds, IsOriginal, ImportsStable, Focused, DistinctMatches, Rematching;
    if Focused(cfg, cycle) && DistinctMatches(cycle) {
      forall b', m' | IsMatch(cycle, b', m') && Rematching(l, b', m') ensures Rematching(l', b', m') {
        if (b', m') == (b, m) {
          OwnRematching(cfg, cycle, l, b, m);
        } else {
          OthersDiffer(cycle, b, m, b', m');
          OthersHoldNothing(l, l', b', m', m.payload.importId);
          RematchingStays(l, l', b', m');
        }
      }
    }
  }

  lemma OthersDiffer(cycle: Cycle, b: string, m: ManualMatch, b': string, m': ManualMatch)
    requires DistinctMatches(cycle) && IsMatch(cycle, b, m) && IsMatch(cycle, b', m') && (b', m') != (b, m)
    ensures m'.payload.importId != m.payload.importId
  {
  }

  /** What is created for a matched original is not matched, as YNAB would have to match the original again. */
  lemma OwnRematching(cfg: Settings, cycle: Cycle, l: Ledger, b: string, m: ManualMatch)
    requires Focused(cfg, cycle) && IsMatch(cycle, b, m) && Rematching(l, b, m)
    ensures Rematching(CreateOne(l, cfg.native, b, m.payload).0, b, m)
  {
    var native := cfg.native(l, b, m.payload);
    assert native.Some? ==> !CanMatch(l, native.value, b, m.payload);
    hide Focused, IsMatch;
    Unmatched(l, cfg.native, b, m.payload);
    var l' := CreateOne(l, cfg.native, b, m.payload).0;
    hide CreateOne;
    forall s: nat | s < |l'| && Holds(l'[s], b, m.payload.importId) ensures IsVisible(l'[s]) {
      assert s < |l| ==> l'[s] == l[s];
    }
  }

  lemma Unmatched(l: Ledger, native: NativeMatcher, b: string, p: Payload)
    requires native(l, b, p).Some? ==> !CanMatch(l, native(l, b, p).value, b, p)
    ensures var l' := CreateOne(l, native, b, p).0;
            && |l| <= |l'| && (forall i :: 0 <= i < |l| ==> l'[i] == l[i])
            && forall i :: |l| <= i < |l'| ==> IsVisible(l'[i])
  {
    hide Burned, CanMatch;
  }

  lemma {:induction false} CreateAllSpares(cfg: Settings, cycle: Cycle, l: Ledger, b: string, ps: seq<Payload>)
    requires forall p :: p in ps ==> exists m :: IsMatch(cycle, b, m) && m.payload == p
    ensures LedgerSpares(cfg, cycle, l, CreateAll(l, cfg.native, b, ps).0)
    decreases |ps|
  {
    hide LedgerSpares, IsMatch, CreateOne;
    if ps == [] {
      LedgerSparesRefl(cfg, cycle, l);
    } else {
      assert ps[0] in ps && forall p :: p in ps[1..] ==> p in ps;
      var m :| IsMatch(cycle, b, m) && m.payload == ps[0];
      var l1 := CreateOne(l, cfg.native, b, ps[0]).0;
      CreateOneSpares(cfg, cycle, l, b, m);
      CreateAllSpares(cfg, cycle, l1, b, ps[1..]);
      LedgerSparesTransitive(cfg, cycle, l, l1, CreateAll(l1, cfg.native, b, ps[1..]).0);
    }
  }

  // --- the phase ----------------------------------------------------------------------------------------

  lemma SubmitMatchesSpares(cfg: Settings, cycle: Cycle, w: World, k: nat)
    requires k < |cycle.matches|
    ensures Spares(cfg, cycle, w, SubmitMatches(w, cfg, cycle.matches[k]))
  {
    var batch := cycle.matches[k];
    var ps := MatchPayloads(batch.items);
    var (posted, r) := PostCreates(w, cfg, batch.budget, ps);
    PayloadsOfMatches(cycle, k);
    CreateAllSpares(cfg, cycle, w.ledger, batch.budget, ps);
    SparesRefl(cfg, cycle, w);
    WriteSpares(cfg, cycle, w, CreateAll(w.ledger, cfg.native, batch.budget, ps).0);
    hide Spares, MatchPayloads, CreateAll, Write, MatchRows, MatchDuplicates, IsMatch;
    assert Spares(cfg, cycle, w, posted);
    var recorded := MatchRows(posted, batch.budget, batch.items, r.rows);
    MatchRowsSpare(cfg, cycle, posted, k, r.rows);
    SparesTransitive(cfg, cycle, w, posted, recorded);
    MatchDuplicatesSpare(cfg, cycle, recorded, k, r.duplicates);
    SparesTransitive(cfg, cycle, w, recorded, MatchDuplicates(recorded, cfg, batch.budget, batch.items, r.duplicates));
  }

  lemma {:induction false} MatchesPhaseSpares(cfg: Settings, cycle: Cycle, w: World, k: nat)
    requires k <= |cycle.matches|
    ensures Spares(cfg, cycle, w, MatchesPhase(w, cfg, cycle.matches[k..]))
    decreases |cycle.matches| - k
  {
    hide Spares, SubmitMatches;
    SparesRefl(cfg, cycle, w);
    var rest := cycle.matches[k..];
    if rest != [] && w.status == Running {
      assert rest[0] == cycle.matches[k] && rest[1..] == cycle.matches[k + 1..];
      var w1 := SubmitMatches(w, cfg, cycle.matches[k]);
      SubmitMatchesSpares(cfg, cycle, w, k);
      MatchesPhaseSpares(cfg, cycle, w1, k + 1);
      SparesTransitive(cfg, cycle, w, w1, MatchesPhase(w1, cfg, cycle.matches[k + 1..]));
    }
  }
}
