/**
 * Which cycles an attempt in which every call works completes: at first, and
 * again after its corrections went through.
 */
module Resubmission {
  import opened Wrappers
  import opened Ynab
  import opened StateDb
  import opened SyncSpec
  import opened Creation
  import opened Frames
  import opened ManualReplacement
  import opened MatchFrames
  import opened RowFacts
  import opened RecoveryFacts
  import opened Settlement
  import opened TrackedKeys
  import DateWindow
  import Money

  ghost predicate Plain(cycle: Cycle, b: string, c: Correction) { c in Lookup(cycle.updates, b) }

  ghost predicate Fuzzy(cycle: Cycle, b: string, c: Correction) { c in Lookup(cycle.fuzzyUpdates, b) }

  /** A pending row that gets a plain and a fuzzy update. */
  ghost predicate SharedRow(cycle: Cycle) {
    exists b, c, b', d :: Plain(cycle, b, c) && Fuzzy(cycle, b', d) && c.oldKey == d.oldKey
  }

  /** A key that two rows are moved to. */
  ghost predicate SharedKey(cycle: Cycle) {
    exists b, d, b', d' :: Fuzzy(cycle, b, d) && Fuzzy(cycle, b', d') && d != d' && d.FuzzyUpdate? && d'.FuzzyUpdate?
      && d.newKey == d'.newKey
  }

  /** A row that is to be moved to a key that has one. */
  ghost predicate NewKeyTaken(cycle: Cycle, t: Table) { exists b, d :: Fuzzy(cycle, b, d) && d.FuzzyUpdate? && d.newKey in t }

  /** A key that a create or a match of the cycle records. */
  ghost predicate RecordedKey(cycle: Cycle, k: string) { CreateKey(cycle, k) || IsMatchKey(cycle, k) }

  ghost predicate CreateKey(cycle: Cycle, k: string) {
    exists b, p :: b in cycle.creates && p in b.items && HasKey(p, k)
  }

  predicate HasKey(p: Create, k: string) {
    p.trackingKey == k || (p.secondary.Some? && p.secondary.value.trackingKey == k)
  }

  /**
   * Corrections are of rows that nothing else in the cycle records, in one budget each; a fuzzy update moves a row of
   * its own, and to a key that is no correction's row.
   */
  ghost predicate RowsApart(cycle: Cycle) {
    && (forall b, c :: Plain(cycle, b, c) ==> c.Update? && !RecordedKey(cycle, c.oldKey))
    && (forall b, d :: Fuzzy(cycle, b, d) ==> d.FuzzyUpdate? && !RecordedKey(cycle, d.oldKey))
    && (forall b, d, b', c :: Fuzzy(cycle, b, d) && d.FuzzyUpdate? && c in CorrectionsOf(cycle, b') ==>
          d.newKey != c.oldKey)
    && (forall b, d, b', d' :: Fuzzy(cycle, b, d) && Fuzzy(cycle, b', d') && d != d' ==> d.oldKey != d'.oldKey)
    && (forall b, c, b', d :: Plain(cycle, b, c) && Fuzzy(cycle, b', d) && c.oldKey == d.oldKey ==> b == b')
  }

  lemma PlainOrFuzzy(cycle: Cycle, b: string, c: Correction)
    ensures c in CorrectionsOf(cycle, b) <==> Plain(cycle, b, c) || Fuzzy(cycle, b, c)
  {
  }

  // --- the corrections of a cycle in one list -------------------------------------------------------------------

  function AllCorrections(cycle: Cycle, budgets: seq<string>): seq<Correction> {
    if budgets == [] then [] else CorrectionsOf(cycle, budgets[0]) + AllCorrections(cycle, budgets[1..])
  }

  lemma {:induction false} AllMembers(cycle: Cycle, budgets: seq<string>, c: Correction)
    ensures c in AllCorrections(cycle, budgets) <==> exists b :: b in budgets && c in CorrectionsOf(cycle, b)
  {
    hide CorrectionsOf;
    if budgets != [] {
      AllMembers(cycle, budgets[1..], c);
      assert forall b :: b in budgets <==> b == budgets[0] || b in budgets[1..];
    }
  }

  lemma OrderlyConcat(cs: seq<Correction>, ds: seq<Correction>)
    requires Orderly(cs) && Orderly(ds)
    requires forall c, d :: c in cs && d in ds && c.FuzzyUpdate? ==>
        c.newKey != d.oldKey && (d.FuzzyUpdate? && c != d ==> c.oldKey != d.oldKey) && (d.Update? ==> c.oldKey != d.oldKey)
    requires forall c, d :: c in cs && d in ds && d.FuzzyUpdate? ==> d.newKey != c.oldKey
    ensures Orderly(cs + ds)
  {
    var es := cs + ds;
    assert forall e :: e in es <==> e in cs || e in ds;
    forall i, j | 0 <= i < j < |es| && es[i].FuzzyUpdate? && es[j].Update? ensures es[i].oldKey != es[j].oldKey {
      assert i < |cs| ==> cs[i] in cs;
      assert j >= |cs| ==> ds[j - |cs|] in ds;
    }
  }

  lemma OwnOrderly(cycle: Cycle, b: string)
    requires RowsApart(cycle)
    ensures Orderly(CorrectionsOf(cycle, b))
  {
    var plain, fuzzy := Lookup(cycle.updates, b), Lookup(cycle.fuzzyUpdates, b);
    assert forall c :: c in plain ==> Plain(cycle, b, c) && c in CorrectionsOf(cycle, b);
    assert forall d :: d in fuzzy ==> Fuzzy(cycle, b, d) && d in CorrectionsOf(cycle, b);
    hide Lookup, RecordedKey, Plain, Fuzzy, CorrectionsOf;
    assert forall c :: c in plain ==> c.Update?;
    assert forall d :: d in fuzzy ==> d.FuzzyUpdate?;
    assert Orderly(plain) by {
      assert forall i :: 0 <= i < |plain| ==> plain[i] in plain;
    }
    assert Orderly(fuzzy) by {
      assert forall i :: 0 <= i < |fuzzy| ==> fuzzy[i] in fuzzy;
    }
    forall c, d | c in plain && d in fuzzy ensures c.Update? && d.newKey != c.oldKey {
    }
    hide Orderly, RowsApart;
    OrderlyConcat(plain, fuzzy);
  }

  /** In whatever order the budgets are visited, the list of all corrections is orderly. */
  lemma {:induction false} AllOrderly(cycle: Cycle, budgets: seq<string>)
    requires RowsApart(cycle) && forall a, b :: 0 <= a < b < |budgets| ==> budgets[a] != budgets[b]
    ensures Orderly(AllCorrections(cycle, budgets))
    decreases |budgets|
  {
    if budgets != [] {
      var own, rest := CorrectionsOf(cycle, budgets[0]), AllCorrections(cycle, budgets[1..]);
      AllOrderly(cycle, budgets[1..]);
      OwnOrderly(cycle, budgets[0]);
      forall c, d | c in own && d in rest
        ensures c.FuzzyUpdate? ==> c.newKey != d.oldKey
        ensures c.FuzzyUpdate? && d.FuzzyUpdate? && c != d ==> c.oldKey != d.oldKey
        ensures c.FuzzyUpdate? && d.Update? ==> c.oldKey != d.oldKey
        ensures d.FuzzyUpdate? ==> d.newKey != c.oldKey
      {
        AllMembers(cycle, budgets[1..], d);
        var b :| b in budgets[1..] && d in CorrectionsOf(cycle, b);
        TwoBudgets(cycle, budgets[0], c, b, d);
      }
      hide CorrectionsOf, AllCorrections, RowsApart;
      OrderlyConcat(own, rest);
    }
  }

  lemma TwoBudgets(cycle: Cycle, b: string, c: Correction, b': string, d: Correction)
    requires RowsApart(cycle) && b != b' && c in CorrectionsOf(cycle, b) && d in CorrectionsOf(cycle, b')
    ensures c.FuzzyUpdate? ==> c.newKey != d.oldKey
    ensures c.FuzzyUpdate? && d.FuzzyUpdate? && c != d ==> c.oldKey != d.oldKey
    ensures c.FuzzyUpdate? && d.Update? ==> c.oldKey != d.oldKey
    ensures d.FuzzyUpdate? ==> d.newKey != c.oldKey
  {
    PlainOrFuzzy(cycle, b, c);
    PlainOrFuzzy(cycle, b', d);
    hide CorrectionsOf, RecordedKey, Plain, Fuzzy;
  }

  /** Every row is where its corrections look for it, and no free key is wanted for two of them. */
  ghost predicate ClearFor(cycle: Cycle, t: Table) {
    && (forall b, c :: Plain(cycle, b, c) ==> c.oldKey in t)
    && (forall b, d :: Fuzzy(cycle, b, d) ==> Unmoved(t, d) || IsMoved(t, d))
    && (forall b, d, b', d' :: Fuzzy(cycle, b, d) && Fuzzy(cycle, b', d') && d != d' && Unmoved(t, d) && Unmoved(t, d') ==>
          d.newKey != d'.newKey)
  }

  lemma ClearForAll(cycle: Cycle, t: Table, budgets: seq<string>)
    requires RowsApart(cycle) && VisitsCorrected(cycle, budgets)
    ensures Clear(t, AllCorrections(cycle, budgets)) <==> ClearFor(cycle, t)
  {
    var cs := AllCorrections(cycle, budgets);
    forall b, c ensures c in CorrectionsOf(cycle, b) <==> Plain(cycle, b, c) || Fuzzy(cycle, b, c) {
      PlainOrFuzzy(cycle, b, c);
    }
    assert forall b, c :: Plain(cycle, b, c) || Fuzzy(cycle, b, c) ==> b in budgets;
    forall c ensures c in cs <==> exists b :: b in budgets && c in CorrectionsOf(cycle, b) {
      AllMembers(cycle, budgets, c);
    }
    hide CorrectionsOf, AllCorrections, RecordedKey, Plain, Fuzzy, Unmoved, IsMoved, VisitsCorrected;
    assert forall c :: c in cs && c.Update? ==> exists b :: Plain(cycle, b, c);
    assert forall d :: d in cs && d.FuzzyUpdate? ==> exists b :: Fuzzy(cycle, b, d);
    assert forall b, c :: Plain(cycle, b, c) ==> c in cs && c.Update?;
    assert forall b, d :: Fuzzy(cycle, b, d) ==> d in cs && d.FuzzyUpdate?;
    SameClear(cycle, t, cs);
  }

  lemma SameClear(cycle: Cycle, t: Table, cs: seq<Correction>)
    requires forall c :: c in cs && c.Update? ==> exists b :: Plain(cycle, b, c)
    requires forall d :: d in cs && d.FuzzyUpdate? ==> exists b :: Fuzzy(cycle, b, d)
    requires forall b, c :: Plain(cycle, b, c) ==> c in cs && c.Update?
    requires forall b, d :: Fuzzy(cycle, b, d) ==> d in cs && d.FuzzyUpdate?
    ensures Clear(t, cs) <==> ClearFor(cycle, t)
  {
    hide Plain, Fuzzy;
  }

  // --- the creates ---------------------------------------------------------------------------------------------------

  ghost function CreateKeys(cycle: Cycle): iset<string> { iset k | CreateKey(cycle, k) }

  ghost function CreateIds(cycle: Cycle): iset<string> {
    iset b, p | b in cycle.creates && p in b.items :: p.payload.importId
  }

  lemma CreatesAreQuiet(cfg: Settings, cycle: Cycle, w: World)
    ensures Quiet(w, CreatesPhase(w, cfg, cycle.creates), CreateKeys(cycle), CreateIds(cycle))
  {
    hide BatchWithin, CreatesPhase, Quiet;
    forall b | b in cycle.creates ensures BatchWithin(b, CreateKeys(cycle), CreateIds(cycle)) {
      OwnBatch(cycle, b);
    }
    CreatesPhaseIsQuiet(w, cfg, cycle.creates, CreateKeys(cycle), CreateIds(cycle));
  }

  lemma OwnBatch(cycle: Cycle, b: Batch<Create>)
    requires b in cycle.creates
    ensures BatchWithin(b, CreateKeys(cycle), CreateIds(cycle))
  {
    forall p | p in b.items
      ensures p.trackingKey in CreateKeys(cycle) && p.payload.importId in CreateIds(cycle)
      ensures p.secondary.Some? ==> p.secondary.value.trackingKey in CreateKeys(cycle)
    {
      assert HasKey(p, p.trackingKey);
      assert p.secondary.Some? ==> HasKey(p, p.secondary.value.trackingKey);
    }
  }

  // --- an attempt in which every call works ---------------------------------------------------------------------

  ghost predicate Smooth(w: World) { w.script == [] && w.status == Running }

  lemma SmoothCalls(w: World, l: Ledger)
    requires Smooth(w)
    ensures Write(w, l) == w.(ledger := l) && WriteUnless400(w, l) == w.(ledger := l) && Read(w) == w
  {
  }

  lemma SmoothRow(w: World, cfg: Settings, b: string, creates: seq<Create>, row: Reported)
    requires Smooth(w)
    ensures Smooth(RecordRow(w, cfg, b, creates, row))
  {
    hide Upsert, FindCreate, CreateFacts, SecondaryFacts, Patch;
  }

  lemma {:induction false} SmoothRows(w: World, cfg: Settings, b: string, creates: seq<Create>, rows: seq<Reported>)
    requires Smooth(w)
    ensures Smooth(RecordCreated(w, cfg, b, creates, rows))
    decreases |rows|
  {
    hide RecordRow;
    if rows != [] {
      SmoothRow(w, cfg, b, creates, rows[0]);
      SmoothRows(RecordRow(w, cfg, b, creates, rows[0]), cfg, b, creates, rows[1..]);
    }
  }

  lemma SmoothRecover(w: World, cfg: Settings, b: string, p: Create)
    requires Smooth(w)
    ensures Smooth(Recover(w, cfg, b, p))
  {
    hide Upsert, LookUp, LookUpGone, RecoveredFacts, DeletedFacts;
  }

  lemma {:induction false} SmoothBackfill(w: World, cfg: Settings, b: string, creates: seq<Create>, ids: seq<string>)
    requires Smooth(w)
    ensures Smooth(Backfill(w, cfg, b, creates, ids))
    decreases |ids|
  {
    hide Recover, FindCreate;
    if ids != [] {
      var found := FindCreate(creates, ids[0]);
      if found.Some? {
        SmoothRecover(w, cfg, b, found.value);
      }
      SmoothBackfill(BackfillOne(w, cfg, b, creates, ids[0]), cfg, b, creates, ids[1..]);
    }
  }

  lemma SmoothBatch(w: World, cfg: Settings, batch: Batch<Create>)
    requires Smooth(w)
    ensures Smooth(SubmitCreates(w, cfg, batch))
  {
    var (l, r) := CreateAll(w.ledger, cfg.native, batch.budget, Payloads(batch.items));
    SmoothCalls(w, l);
    hide CreateAll, Payloads, RecordCreated, Backfill, Write;
    var (posted, response) := PostCreates(w, cfg, batch.budget, Payloads(batch.items));
    SmoothRows(posted, cfg, batch.budget, batch.items, response.rows);
    var recorded := RecordCreated(posted, cfg, batch.budget, batch.items, response.rows);
    SmoothBackfill(CountDuplicates(recorded, |response.duplicates|), cfg, batch.budget, batch.items, response.duplicates);
  }

  lemma {:induction false} SmoothCreates(w: World, cfg: Settings, batches: seq<Batch<Create>>)
    requires Smooth(w)
    ensures Smooth(CreatesPhase(w, cfg, batches))
    decreases |batches|
  {
    hide SubmitCreates;
    if batches != [] {
      SmoothBatch(w, cfg, batches[0]);
      SmoothCreates(SubmitCreates(w, cfg, batches[0]), cfg, batches[1..]);
    }
  }

  /** The pre-check of every budget lists all its targets alive. */
  ghost predicate TargetsListed(cfg: Settings, cycle: Cycle, l: Ledger) {
    forall b, c :: c in CorrectionsOf(cycle, b) ==> ListedAlive(l, b, c.txnId, SinceOf(cfg, CorrectionsOf(cycle, b)))
  }

  lemma StillListed(cfg: Settings, cycle: Cycle, l: Ledger, l': Ledger)
    requires TargetsListed(cfg, cycle, l) && Extends(l, l') && NothingDeleted(l, l')
    ensures TargetsListed(cfg, cycle, l')
  {
    hide CorrectionsOf, SinceOf;
    forall b, c | c in CorrectionsOf(cycle, b)
      ensures ListedAlive(l', b, c.txnId, SinceOf(cfg, CorrectionsOf(cycle, b)))
    {
      assert SameIdentity(l[c.txnId], l'[c.txnId]);
    }
  }

  // --- what an attempt leaves of rows and keys, on any script -----------------------------------------------------

  /** The rows that the corrections may write. */
  ghost function CorrectedKeys(cycle: Cycle): iset<string> {
    iset b, c | c in CorrectionsOf(cycle, b) :: c.oldKey
  }

  ghost function MovedKeys(cycle: Cycle): iset<string> {
    iset b, c | c in CorrectionsOf(cycle, b) && c.FuzzyUpdate? :: c.newKey
  }

  lemma CorrectionsExtend(w: World, cfg: Settings, cycle: Cycle, budgets: seq<string>)
    ensures Extends(w.ledger, CorrectionsPhase(w, cfg, cycle, budgets).ledger)
    ensures NothingDeleted(w.ledger, CorrectionsPhase(w, cfg, cycle, budgets).ledger)
  {
    hide CorrectionsPhase, CorrectionsOf, Extends, NothingDeleted;
    forall b, c | c in CorrectionsOf(cycle, b) ensures CorrectionWithin(c, CorrectedKeys(cycle) + MovedKeys(cycle)) {
    }
    CorrectionsPhaseIsQuiet(w, cfg, cycle, budgets, CorrectedKeys(cycle) + MovedKeys(cycle), iset{});
  }

  lemma MatchesExtend(w: World, cfg: Settings, batch: Batch<ManualMatch>)
    ensures Extends(w.ledger, SubmitMatches(w, cfg, batch).ledger)
  {
    hide PostCreates, SubmitMatches, MatchPayloads, Extends, SameIds;
    var ps := MatchPayloads(batch.items);
    var posted := PostCreates(w, cfg, batch.budget, ps).0;
    PostExtends(w, cfg, batch.budget, ps);
    SubmitMatchesKeepsIds(w, cfg, batch);
    SameIdsExtend(posted.ledger, SubmitMatches(w, cfg, batch).ledger);
    ExtendsOn(w.ledger, posted.ledger, SubmitMatches(w, cfg, batch).ledger);
  }

  lemma PostExtends(w: World, cfg: Settings, b: string, ps: seq<Payload>)
    ensures Extends(w.ledger, PostCreates(w, cfg, b, ps).0.ledger)
  {
    hide PostCreates, Extends;
    PostIsQuiet(w, cfg, b, ps, iset{}, iset p | p in ps :: p.importId);
  }

  lemma SameIdsExtend(l: Ledger, l': Ledger)
    requires SameIds(l, l')
    ensures Extends(l, l')
  {
  }

  lemma {:induction false} MatchesPhaseExtends(w: World, cfg: Settings, batches: seq<Batch<ManualMatch>>)
    ensures Extends(w.ledger, MatchesPhase(w, cfg, batches).ledger)
    decreases |batches|
  {
    hide SubmitMatches, Extends;
    ExtendsSelf(w.ledger);
    if batches != [] && w.status == Running {
      var w1 := SubmitMatches(w, cfg, batches[0]);
      MatchesExtend(w, cfg, batches[0]);
      MatchesPhaseExtends(w1, cfg, batches[1..]);
      ExtendsOn(w.ledger, w1.ledger, MatchesPhase(w1, cfg, batches[1..]).ledger);
    }
  }

  lemma ExtendsSelf(l: Ledger)
    ensures Extends(l, l)
  {
  }

  lemma ExtendsOn(l: Ledger, l1: Ledger, l2: Ledger)
    requires Extends(l, l1) && Extends(l1, l2)
    ensures Extends(l, l2)
  {
    forall i | 0 <= i < |l| ensures SameIdentity(l[i], l2[i]) {
      assert SameIdentity(l[i], l1[i]) && SameIdentity(l1[i], l2[i]);
    }
  }

  /** Rows that neither a create nor a match records stay as they are, but for the corrections. */
  lemma CreatesLeaveRows(cfg: Settings, cycle: Cycle, w: World, k: string)
    requires !RecordedKey(cycle, k)
    ensures SameRowAt(w.table, CreatesPhase(w, cfg, cycle.creates).table, k)
  {
    hide CreatesPhase, Calm, CreateKey, IsMatchKey;
    CreatesAreQuiet(cfg, cycle, w);
  }

  lemma MatchesLeaveRows(cfg: Settings, cycle: Cycle, w: World, k: string)
    requires !IsMatchKey(cycle, k)
    ensures SameRowAt(w.table, MatchesPhase(w, cfg, cycle.matches).table, k)
  {
    hide MatchesPhase, LedgerSpares, IsMatchKey;
    assert cycle.matches[0..] == cycle.matches;
    MatchesPhaseSpares(cfg, cycle, w, 0);
  }

  lemma SmoothMatches(cfg: Settings, cycle: Cycle, w: World)
    requires Smooth(w)
    ensures MatchesPhase(w, cfg, cycle.matches).status == Running
  {
    hide MatchesPhase, LedgerSpares, IsMatchKey;
    assert cycle.matches[0..] == cycle.matches;
    MatchesPhaseSpares(cfg, cycle, w, 0);
  }

  // --- the corrections of an attempt in which every call works ----------------------------------------------------

  /** With its target alive, a correction does its local part, or raises where that does. */
  lemma SmoothCorrect(w: World, b: string, snapshot: Ledger, since: Option<int>, c: Correction)
    requires Smooth(w) && ListedAlive(snapshot, b, c.txnId, since) && CanPatch(w.ledger, b, c.txnId)
    ensures var w' := Correct(w, b, snapshot, since, c);
            && w'.script == [] && w'.status == (if SettleOne(w.table, c).Some? then Running else DbFailed)
            && (SettleOne(w.table, c).Some? ==> w'.table == SettleOne(w.table, c).value)
            && Calm(w.ledger, w'.ledger, iset{})
  {
    var l := Patch(w.ledger, b, c.txnId, Some(Money.ToMilliunits(c.newAmount)), Cleared);
    SmoothCalls(w, l);
    PatchIsCalm(w.ledger, b, c.txnId, Some(Money.ToMilliunits(c.newAmount)), Cleared, iset{});
    hide Patch, Calm, Write, Money.ToMilliunits, MarkBooked, Rekey;
    assert NextFault(w) == Works;
  }

  /** The same of a list. */
  ghost predicate Settles(w: World, w': World, cs: seq<Correction>) {
    && w'.script == [] && w'.status == (if SettleAll(w.table, cs).Some? then Running else DbFailed)
    && (SettleAll(w.table, cs).Some? ==> w'.table == SettleAll(w.table, cs).value)
    && Calm(w.ledger, w'.ledger, iset{})
  }

  lemma StillPatchable(l: Ledger, l': Ledger, b: string, id: nat)
    requires CanPatch(l, b, id) && Calm(l, l', iset{})
    ensures CanPatch(l', b, id)
  {
    assert SameIdentity(l[id], l'[id]);
  }

  lemma {:induction false} SmoothCorrectAll(w: World, b: string, snapshot: Ledger, since: Option<int>, cs: seq<Correction>)
    requires Smooth(w)
    requires forall c :: c in cs ==> ListedAlive(snapshot, b, c.txnId, since) && CanPatch(w.ledger, b, c.txnId)
    ensures Settles(w, CorrectAll(w, b, snapshot, since, cs), cs)
    decreases |cs|
  {
    CalmRefl(w.ledger, iset{});
    if cs != [] {
      var w1 := Correct(w, b, snapshot, since, cs[0]);
      assert cs[0] in cs;
      SmoothCorrect(w, b, snapshot, since, cs[0]);
      hide Correct, Calm, ListedAlive, SettleOne, CanPatch;
      HaltedCorrectAll(w1, b, snapshot, since, cs[1..]);
      if w1.status == Running {
        forall c | c in cs[1..] ensures CanPatch(w1.ledger, b, c.txnId) {
          StillPatchable(w.ledger, w1.ledger, b, c.txnId);
        }
        SmoothCorrectAll(w1, b, snapshot, since, cs[1..]);
        CalmTransitive(w.ledger, w1.ledger, CorrectAll(w1, b, snapshot, since, cs[1..]).ledger, iset{});
      }
    }
  }

  lemma HaltedCorrectAll(w: World, b: string, snapshot: Ledger, since: Option<int>, cs: seq<Correction>)
    ensures w.status != Running ==> CorrectAll(w, b, snapshot, since, cs) == w
  {
  }

  lemma HaltedCorrections(w: World, cfg: Settings, cycle: Cycle, budgets: seq<string>)
    ensures w.status != Running ==> CorrectionsPhase(w, cfg, cycle, budgets) == w
  {
  }

  lemma SmoothBudget(cfg: Settings, cycle: Cycle, w: World, b: string)
    requires Smooth(w) && TargetsListed(cfg, cycle, w.ledger)
    ensures Settles(w, CorrectBudget(w, cfg, cycle, b), CorrectionsOf(cycle, b))
  {
    var cs := CorrectionsOf(cycle, b);
    SmoothCalls(w, w.ledger);
    forall c | c in cs ensures CanPatch(w.ledger, b, c.txnId) {
      assert ListedAlive(w.ledger, b, c.txnId, SinceOf(cfg, cs));
    }
    hide CorrectionsOf, SinceOf, Read, CorrectAll, Settles;
    SmoothCorrectAll(w, b, w.ledger, SinceOf(cfg, cs), cs);
  }

  /** Budget after budget, the corrections do what they do as one list. */
  lemma {:induction false} SmoothCorrections(cfg: Settings, cycle: Cycle, w: World, budgets: seq<string>)
    requires Smooth(w) && TargetsListed(cfg, cycle, w.ledger)
    ensures Settles(w, CorrectionsPhase(w, cfg, cycle, budgets), AllCorrections(cycle, budgets))
    decreases |budgets|
  {
    CalmRefl(w.ledger, iset{});
    if budgets != [] {
      var b, own := budgets[0], CorrectionsOf(cycle, budgets[0]);
      var w1 := CorrectBudget(w, cfg, cycle, b);
      SmoothBudget(cfg, cycle, w, b);
      SettleConcat(w.table, own, AllCorrections(cycle, budgets[1..]));
      hide CorrectBudget, Calm, CorrectionsOf, TargetsListed, SettleAll;
      HaltedCorrections(w1, cfg, cycle, budgets[1..]);
      if w1.status == Running {
        StillListedCalm(cfg, cycle, w.ledger, w1.ledger);
        SmoothCorrections(cfg, cycle, w1, budgets[1..]);
        CalmTransitive(w.ledger, w1.ledger, CorrectionsPhase(w1, cfg, cycle, budgets[1..]).ledger, iset{});
      }
    }
  }

  lemma StillListedCalm(cfg: Settings, cycle: Cycle, l: Ledger, l': Ledger)
    requires TargetsListed(cfg, cycle, l) && Calm(l, l', iset{})
    ensures TargetsListed(cfg, cycle, l')
  {
    hide TargetsListed, UniqueIds;
    StillListed(cfg, cycle, l, l');
  }

  // --- the attempt --------------------------------------------------------------------------------------------------

  /** No row of a fuzzy update is lost. */
  ghost predicate RowsThere(cycle: Cycle, t: Table) {
    forall b, d :: Fuzzy(cycle, b, d) ==> d.FuzzyUpdate? && (d.oldKey in t || d.newKey in t)
  }

  lemma AllThere(cycle: Cycle, t: Table, budgets: seq<string>)
    requires RowsApart(cycle) && RowsThere(cycle, t)
    ensures NoneLost(t, AllCorrections(cycle, budgets))
  {
    forall d | d in AllCorrections(cycle, budgets) && d.FuzzyUpdate? ensures d.oldKey in t || d.newKey in t {
      AllMembers(cycle, budgets, d);
      var b :| b in budgets && d in CorrectionsOf(cycle, b);
      PlainOrFuzzy(cycle, b, d);
    }
  }

  /**
   * An attempt in which every call works and every target is alive completes if and only if, once its creates are
   * recorded, every row is where its corrections look for it and no free key is wanted twice; otherwise it ends in a
   * database error.
   */
  lemma SmoothAttempt(cfg: Settings, cycle: Cycle, w: World, budgets: seq<string>)
    requires Smooth(w) && RowsApart(cycle) && VisitsCorrected(cycle, budgets) && TargetsListed(cfg, cycle, w.ledger)
    requires RowsThere(cycle, CreatesPhase(w, cfg, cycle.creates).table)
    ensures var w1 := CreatesPhase(w, cfg, cycle.creates);
            var w2 := CorrectionsPhase(w1, cfg, cycle, budgets);
            var w' := Submit(w, cfg, cycle, budgets);
            && w1.status == Running
            && (w'.status == DbFailed <==> !ClearFor(cycle, w1.table))
            && (w'.status == Running <==> ClearFor(cycle, w1.table))
            && Settles(w1, w2, AllCorrections(cycle, budgets))
            && (w2.status == Running <==> ClearFor(cycle, w1.table))
  {
    var w1 := CreatesPhase(w, cfg, cycle.creates);
    var w2 := CorrectionsPhase(w1, cfg, cycle, budgets);
    var cs := AllCorrections(cycle, budgets);
    hide CreatesPhase, CorrectionsPhase, MatchesPhase, RowsApart, ClearFor, TargetsListed, RowsThere, VisitsCorrected,
         Orderly, NoneLost, SettleAll, AllCorrections;
    SmoothCreates(w, cfg, cycle.creates);
    CreatesAreQuiet(cfg, cycle, w);
    TargetsStay(cfg, cycle, w.ledger, w1.ledger);
    SmoothCorrections(cfg, cycle, w1, budgets);
    assert Orderly(cs) by { VisitedOrderly(cycle, budgets); }
    AllThere(cycle, w1.table, budgets);
    SettlesIffClear(w1.table, cs);
    ClearForAll(cycle, w1.table, budgets);
    hide Calm;
    if w2.status == Running {
      SmoothMatches(cfg, cycle, w2);
    } else {
      HaltedMatches(w2, cfg, cycle.matches);
    }
  }

  lemma VisitedOrderly(cycle: Cycle, budgets: seq<string>)
    requires RowsApart(cycle) && VisitsCorrected(cycle, budgets)
    ensures Orderly(AllCorrections(cycle, budgets))
  {
    hide RowsApart;
    AllOrderly(cycle, budgets);
  }

  lemma TargetsStay(cfg: Settings, cycle: Cycle, l: Ledger, l': Ledger)
    requires TargetsListed(cfg, cycle, l) && Calm(l, l', CreateIds(cycle))
    ensures TargetsListed(cfg, cycle, l')
  {
    hide TargetsListed, UniqueIds;
    StillListed(cfg, cycle, l, l');
  }

  // --- after an attempt that got through its corrections -----------------------------------------------------------

  /** What a correction does to the table, if it changes it at all. */
  ghost predicate SettledTo(t: Table, t': Table, c: Correction) {
    match c
    case Update(key, _, amount, _, _) => key in t && t' == t[key := Settled(t[key], amount)]
    case FuzzyUpdate(oldKey, newKey, _, amount, _, _) =>
      if oldKey in t then t' == (t - {oldKey})[newKey := Settled(t[oldKey], amount)] && (newKey == oldKey || newKey !in t)
      else t' == t && newKey in t && t[newKey].facts.status == Booked
  }

  lemma CorrectTable(w: World, budget: string, snapshot: Ledger, since: Option<int>, c: Correction)
    ensures var w' := Correct(w, budget, snapshot, since, c);
            && (w'.table == w.table || SettledTo(w.table, w'.table, c))
            && (w'.status == Running ==> SettledTo(w.table, w'.table, c))
  {
    hide Settled, Money.ToMilliunits, Patch;
    WriteTable(w, Patch(w.ledger, budget, c.txnId, Some(Money.ToMilliunits(c.newAmount)), Cleared));
    hide Write, Read;
    SettleTable(Write(w, Patch(w.ledger, budget, c.txnId, Some(Money.ToMilliunits(c.newAmount)), Cleared)), c);
    hide Settle;
  }

  lemma WriteTable(w: World, l: Ledger)
    ensures Write(w, l).table == Read(w).table == w.table
    ensures w.status != Running ==> Write(w, l).status != Running && Read(w).status != Running
  {
  }

  lemma SettleTable(w: World, c: Correction)
    ensures var w' := Settle(w, c);
            && (w'.table == w.table || SettledTo(w.table, w'.table, c))
            && (w'.status == Running ==> SettledTo(w.table, w'.table, c))
  {
    hide Settled;
  }

  /** What is moved stays moved, and a fuzzy update that went through has moved its row. */
  lemma SettlingMoves(cycle: Cycle, t: Table, t': Table, b: string, c: Correction)
    requires RowsApart(cycle) && c in CorrectionsOf(cycle, b) && SettledTo(t, t', c)
    ensures Fuzzy(cycle, b, c) ==> IsMoved(t', c)
    ensures forall b', d :: Fuzzy(cycle, b', d) && IsMoved(t, d) ==> IsMoved(t', d)
    ensures forall b', d :: Fuzzy(cycle, b', d) && Blocked(t, d) ==> Blocked(t', d)
    ensures forall k :: k in t && k !in t' ==> Fuzzy(cycle, b, c) && c.oldKey == k
  {
    PlainOrFuzzy(cycle, b, c);
    SettledIsBooked(t, t', c);
    hide RecordedKey, Plain, Fuzzy, Settled;
    forall b', d | Fuzzy(cycle, b', d) && IsMoved(t, d) ensures IsMoved(t', d) {
      PlainOrFuzzy(cycle, b', d);
      hide CorrectionsOf;
    }
    forall b', d | Fuzzy(cycle, b', d) && Blocked(t, d) ensures Blocked(t', d) {
      PlainOrFuzzy(cycle, b', d);
      hide CorrectionsOf;
    }
  }

  lemma SettledIsBooked(t: Table, t': Table, c: Correction)
    requires SettledTo(t, t', c)
    ensures c.Update? ==> c.oldKey in t' && t'.Keys == t.Keys && t'[c.oldKey].facts.status == Booked
    ensures c.FuzzyUpdate? ==> c.newKey in t' && t'[c.newKey].facts.status == Booked
  {
  }

  /** What a stretch of corrections leaves: moved and blocked rows as they are; a key goes only if its row was to move. */
  ghost predicate Keeps(cycle: Cycle, t: Table, t': Table) {
    && (forall b, d :: Fuzzy(cycle, b, d) && IsMoved(t, d) ==> IsMoved(t', d))
    && (forall b, d :: Fuzzy(cycle, b, d) && Blocked(t, d) ==> Blocked(t', d))
    && forall k :: k in t && k !in t' ==> exists b, d :: Fuzzy(cycle, b, d) && d.oldKey == k
  }

  lemma CorrectMoves(cycle: Cycle, w: World, b: string, snapshot: Ledger, since: Option<int>, c: Correction)
    requires RowsApart(cycle) && c in CorrectionsOf(cycle, b)
    ensures var w' := Correct(w, b, snapshot, since, c);
            Keeps(cycle, w.table, w'.table) && (w'.status == Running && Fuzzy(cycle, b, c) ==> IsMoved(w'.table, c))
  {
    var w' := Correct(w, b, snapshot, since, c);
    CorrectTable(w, b, snapshot, since, c);
    hide Correct, RowsApart, SettledTo, IsMoved, Fuzzy, CorrectionsOf;
    if SettledTo(w.table, w'.table, c) {
      SettlingMoves(cycle, w.table, w'.table, b, c);
    }
  }

  lemma {:induction false} CorrectAllMoves(cycle: Cycle, w: World, b: string, snapshot: Ledger, since: Option<int>,
                                           cs: seq<Correction>)
    requires RowsApart(cycle) && forall c :: c in cs ==> c in CorrectionsOf(cycle, b)
    ensures var w' := CorrectAll(w, b, snapshot, since, cs);
            && Keeps(cycle, w.table, w'.table)
            && (w'.status == Running ==> forall c :: c in cs && Fuzzy(cycle, b, c) ==> IsMoved(w'.table, c))
    decreases |cs|
  {
    hide RowsApart, Correct, IsMoved, CorrectionsOf, Fuzzy;
    if cs != [] && w.status == Running {
      var w1 := Correct(w, b, snapshot, since, cs[0]);
      CorrectMoves(cycle, w, b, snapshot, since, cs[0]);
      CorrectAllMoves(cycle, w1, b, snapshot, since, cs[1..]);
      HaltedCorrectAll(w1, b, snapshot, since, cs[1..]);
    }
  }

  lemma BudgetMoves(cfg: Settings, cycle: Cycle, w: World, b: string)
    requires RowsApart(cycle)
    ensures var w' := CorrectBudget(w, cfg, cycle, b);
            && Keeps(cycle, w.table, w'.table)
            && (w'.status == Running ==> forall d :: Fuzzy(cycle, b, d) ==> IsMoved(w'.table, d))
  {
    var cs := CorrectionsOf(cycle, b);
    forall d | Fuzzy(cycle, b, d) ensures d in cs {
      PlainOrFuzzy(cycle, b, d);
    }
    hide RowsApart, IsMoved, Blocked, Read, CorrectAll, CorrectionsOf, Fuzzy;
    WriteTable(w, w.ledger);
    CorrectAllMoves(cycle, Read(w), b, w.ledger, SinceOf(cfg, cs), cs);
  }

  lemma {:induction false} CorrectionsMove(cfg: Settings, cycle: Cycle, w: World, budgets: seq<string>)
    requires RowsApart(cycle)
    ensures var w' := CorrectionsPhase(w, cfg, cycle, budgets);
            && Keeps(cycle, w.table, w'.table)
            && (w'.status == Running ==> forall b, d :: b in budgets && Fuzzy(cycle, b, d) ==> IsMoved(w'.table, d))
    decreases |budgets|
  {
    hide RowsApart, IsMoved, Blocked, CorrectBudget, Fuzzy;
    if budgets != [] && w.status == Running {
      var w1 := CorrectBudget(w, cfg, cycle, budgets[0]);
      BudgetMoves(cfg, cycle, w, budgets[0]);
      CorrectionsMove(cfg, cycle, w1, budgets[1..]);
      HaltedCorrections(w1, cfg, cycle, budgets[1..]);
    }
  }

  /** The row of every plain update is there, unless a fuzzy update of the same row has moved it. */
  ghost predicate Accounted(cycle: Cycle, t: Table) {
    forall b, c :: Plain(cycle, b, c) && c.oldKey !in t ==> exists b', d :: Fuzzy(cycle, b', d) && d.oldKey == c.oldKey
  }

  /** An attempt gets through its corrections. */
  predicate CorrectionsGoThrough(w: World, cfg: Settings, cycle: Cycle, budgets: seq<string>) {
    CorrectionsPhase(CreatesPhase(w, cfg, cycle.creates), cfg, cycle, budgets).status == Running
  }

  /** All rows of fuzzy updates have left their old keys. */
  ghost predicate RowsGone(cycle: Cycle, t: Table) {
    forall b, d :: Fuzzy(cycle, b, d) ==> d.FuzzyUpdate? && d.oldKey !in t && d.newKey in t
  }

  /** And all creates are burned. */
  ghost predicate PastCorrections(cycle: Cycle, t: Table, l: Ledger) {
    RowsGone(cycle, t) && forall batch :: batch in cycle.creates ==> BatchBurned(l, batch)
  }

  lemma AttemptStaysAccounted(cfg: Settings, cycle: Cycle, w: World, budgets: seq<string>)
    requires RowsApart(cycle) && Accounted(cycle, w.table)
    ensures Accounted(cycle, Submit(w, cfg, cycle, budgets).table)
  {
    var w1 := CreatesPhase(w, cfg, cycle.creates);
    var w2 := CorrectionsPhase(w1, cfg, cycle, budgets);
    CorrectionsMove(cfg, cycle, w1, budgets);
    hide CreatesPhase, CorrectionsPhase, MatchesPhase, Plain, Fuzzy, CreateKey, IsMatchKey, IsMoved;
    forall b, c | Plain(cycle, b, c) && c.oldKey !in Submit(w, cfg, cycle, budgets).table
      ensures exists b', d :: Fuzzy(cycle, b', d) && d.oldKey == c.oldKey
    {
      CreatesLeaveRows(cfg, cycle, w, c.oldKey);
      MatchesLeaveRows(cfg, cycle, w2, c.oldKey);
    }
  }

  lemma {:induction false} TriesStayAccounted(cfg: Settings, cycle: Cycle, w: World, tries: seq<Try>)
    requires RowsApart(cycle) && Accounted(cycle, w.table)
    ensures Accounted(cycle, AfterTries(cfg, cycle, w, tries).table)
    decreases |tries|
  {
    hide RowsApart, Accounted, Submit;
    if tries != [] {
      var start := Attempt(w.table, w.ledger, tries[0].script, tries[0].now);
      AttemptStaysAccounted(cfg, cycle, start, tries[0].budgets);
      TriesStayAccounted(cfg, cycle, Submit(start, cfg, cycle, tries[0].budgets), tries[1..]);
    }
  }

  /** Such an attempt leaves every claimed row under its new key, BOOKED unless a match has the same key. */
  lemma AttemptMoves(cfg: Settings, cycle: Cycle, w: World, budgets: seq<string>)
    requires RowsApart(cycle) && CorrectionsGoThrough(w, cfg, cycle, budgets) && VisitsCorrected(cycle, budgets)
    ensures var w' := Submit(w, cfg, cycle, budgets);
            && PastCorrections(cycle, w'.table, w'.ledger)
            && forall b, d :: Fuzzy(cycle, b, d) && !IsMatchKey(cycle, d.newKey) ==> IsMoved(w'.table, d)
  {
    var w1 := CreatesPhase(w, cfg, cycle.creates);
    var w2 := CorrectionsPhase(w1, cfg, cycle, budgets);
    var w' := Submit(w, cfg, cycle, budgets);
    CorrectionsMove(cfg, cycle, w1, budgets);
    RunningCreates(w1, cfg, cycle, budgets);
    CreatesBurn(w, cfg, cycle.creates);
    CorrectionsExtend(w1, cfg, cycle, budgets);
    MatchesPhaseExtends(w2, cfg, cycle.matches);
    MatchesGrow(w2, cfg, cycle.matches);
    hide CreatesPhase, CorrectionsPhase, MatchesPhase, CreateKey, IsMatchKey, BatchBurned, Extends, NothingDeleted;
    ExtendsOn(w1.ledger, w2.ledger, w'.ledger);
    forall batch | batch in cycle.creates ensures BatchBurned(w'.ledger, batch) {
      BatchStaysBurned(w1.ledger, w'.ledger, batch);
    }
    forall b, d | Fuzzy(cycle, b, d)
      ensures d.FuzzyUpdate? && d.oldKey !in w'.table && d.newKey in w'.table
      ensures !IsMatchKey(cycle, d.newKey) ==> IsMoved(w'.table, d)
    {
      assert b in budgets && IsMoved(w2.table, d);
      MatchesLeaveRows(cfg, cycle, w2, d.oldKey);
      if !IsMatchKey(cycle, d.newKey) {
        MatchesLeaveRows(cfg, cycle, w2, d.newKey);
      }
    }
  }

  lemma RunningCreates(w: World, cfg: Settings, cycle: Cycle, budgets: seq<string>)
    ensures CorrectionsPhase(w, cfg, cycle, budgets).status == Running ==> w.status == Running
  {
  }

  // --- no phase but the second takes a key away --------------------------------------------------------------------

  ghost predicate Grows(t: Table, t': Table) { forall k :: k in t ==> k in t' }

  lemma FinishGrows(w: World, budget: string, m: ManualMatch, shadowId: nat)
    ensures Grows(w.table, FinishNative(w, budget, m).table)
    ensures Grows(w.table, FinishFallback(w, budget, m, shadowId).table)
    ensures DeleteOriginal(w, budget, m.originalId).table == w.table
  {
    hide MatchFacts, Patch, Delete;
  }

  lemma {:induction false} MatchRowsGrow(w: World, budget: string, matches: seq<ManualMatch>, rows: seq<Reported>)
    ensures Grows(w.table, MatchRows(w, budget, matches, rows).table)
    decreases |rows|
  {
    hide FinishNative, FinishFallback, FindMatch;
    if rows != [] && w.status == Running {
      var row := rows[0];
      if row.importId.Some? && FindMatch(matches, row.importId.value).Some? {
        FinishGrows(w, budget, FindMatch(matches, row.importId.value).value, row.id);
      }
      MatchRowsGrow(MatchRow(w, budget, matches, row), budget, matches, rows[1..]);
    }
  }

  lemma MatchDuplicateGrows(w: World, cfg: Settings, budget: string, matches: seq<ManualMatch>, id: string)
    ensures Grows(w.table, MatchDuplicate(w, cfg, budget, matches, id).table)
  {
    hide FinishNative, FinishFallback, FindMatch, DeleteOriginal, Read, FindByImportId, Grows;
    WriteTable(w, w.ledger);
    GrowsSelf(w.table);
    if FindMatch(matches, id).Some? {
      var p := FindMatch(matches, id).value;
      var since := DateWindow.SinceDateBound(p.payload.date, cfg.backfillDays);
      var shadow := FindByImportId(w.ledger, budget, p.payload.account, id, since, cfg.shadowsListed);
      FinishGrows(w, budget, p, 0);
      FinishGrows(Read(w), budget, p, if shadow.Some? then shadow.value else 0);
    }
  }

  lemma GrowsSelf(t: Table)
    ensures Grows(t, t)
  {
  }

  lemma {:induction false} MatchDuplicatesGrow(w: World, cfg: Settings, budget: string, matches: seq<ManualMatch>,
                                               ids: seq<string>)
    ensures Grows(w.table, MatchDuplicates(w, cfg, budget, matches, ids).table)
    decreases |ids|
  {
    hide MatchDuplicate;
    if ids != [] && w.status == Running {
      MatchDuplicateGrows(w, cfg, budget, matches, ids[0]);
      MatchDuplicatesGrow(MatchDuplicate(w, cfg, budget, matches, ids[0]), cfg, budget, matches, ids[1..]);
    }
  }

  lemma {:induction false} MatchesGrow(w: World, cfg: Settings, batches: seq<Batch<ManualMatch>>)
    ensures Grows(w.table, MatchesPhase(w, cfg, batches).table)
    decreases |batches|
  {
    hide PostCreates, MatchRows, MatchDuplicates, MatchPayloads;
    if batches != [] && w.status == Running {
      var b := batches[0];
      var (posted, r) := PostCreates(w, cfg, b.budget, MatchPayloads(b.items));
      PostKeepsTable(w, cfg, b.budget, MatchPayloads(b.items));
      MatchRowsGrow(posted, b.budget, b.items, r.rows);
      MatchDuplicatesGrow(MatchRows(posted, b.budget, b.items, r.rows), cfg, b.budget, b.items, r.duplicates);
      MatchesGrow(SubmitMatches(w, cfg, b), cfg, batches[1..]);
    }
  }

  lemma {:induction false} RowsGrow(w: World, cfg: Settings, budget: string, creates: seq<Create>, rows: seq<Reported>)
    ensures Grows(w.table, RecordCreated(w, cfg, budget, creates, rows).table)
    decreases |rows|
  {
    hide RecordRow, RowTracks;
    if rows != [] && w.status == Running {
      forall k ensures k in w.table ==> k in RecordRow(w, cfg, budget, creates, rows[0]).table {
        RecordRowTracks(w, cfg, budget, creates, rows[0], k);
      }
      RowsGrow(RecordRow(w, cfg, budget, creates, rows[0]), cfg, budget, creates, rows[1..]);
    }
  }

  lemma BatchGrows(w: World, cfg: Settings, batch: Batch<Create>)
    ensures Grows(w.table, SubmitCreates(w, cfg, batch).table)
  {
    hide PostCreates, RecordCreated, Backfill, Payloads;
    var (posted, r) := PostCreates(w, cfg, batch.budget, Payloads(batch.items));
    PostKeepsTable(w, cfg, batch.budget, Payloads(batch.items));
    RowsGrow(posted, cfg, batch.budget, batch.items, r.rows);
    var recorded := RecordCreated(posted, cfg, batch.budget, batch.items, r.rows);
    BackfillKeepsRows(CountDuplicates(recorded, |r.duplicates|), cfg, batch.budget, batch.items, r.duplicates);
  }

  lemma {:induction false} CreatesGrow(w: World, cfg: Settings, batches: seq<Batch<Create>>)
    ensures Grows(w.table, CreatesPhase(w, cfg, batches).table)
    decreases |batches|
  {
    hide SubmitCreates;
    if batches != [] && w.status == Running {
      BatchGrows(w, cfg, batches[0]);
      CreatesGrow(SubmitCreates(w, cfg, batches[0]), cfg, batches[1..]);
    }
  }

  /** A row that cannot move to its key stops every attempt, whatever calls fail, and stays where it is. */
  lemma BlockedStops(cfg: Settings, cycle: Cycle, w: World, budgets: seq<string>, b: string, d: Correction)
    requires RowsApart(cycle) && Fuzzy(cycle, b, d) && Blocked(w.table, d) && VisitsCorrected(cycle, budgets)
    ensures Blocked(Submit(w, cfg, cycle, budgets).table, d) && Submit(w, cfg, cycle, budgets).status != Running
  {
    var w1 := CreatesPhase(w, cfg, cycle.creates);
    var w2 := CorrectionsPhase(w1, cfg, cycle, budgets);
    CreatesGrow(w, cfg, cycle.creates);
    CorrectionsMove(cfg, cycle, w1, budgets);
    MatchesGrow(w2, cfg, cycle.matches);
    assert b in budgets;
    hide CreatesPhase, CorrectionsPhase, MatchesPhase, RowsApart, Fuzzy;
    HaltedMatches(w2, cfg, cycle.matches);
  }

  lemma {:induction false} BlockedNeverCompletes(cfg: Settings, cycle: Cycle, w: World, tries: seq<Try>, b: string,
                                                 d: Correction)
    requires RowsApart(cycle) && Fuzzy(cycle, b, d) && Blocked(w.table, d)
    requires tries != [] && forall t :: t in tries ==> VisitsCorrected(cycle, t.budgets)
    ensures AfterTries(cfg, cycle, w, tries).status != Running && Blocked(AfterTries(cfg, cycle, w, tries).table, d)
    decreases |tries|
  {
    hide RowsApart, Submit, VisitsCorrected, Fuzzy;
    var t := tries[0];
    var start := Attempt(w.table, w.ledger, t.script, t.now);
    assert t in tries;
    BlockedStops(cfg, cycle, start, t.budgets, b, d);
    if |tries| > 1 {
      BlockedNeverCompletes(cfg, cycle, Submit(start, cfg, cycle, t.budgets), tries[1..], b, d);
    } else {
      assert tries[1..] == [];
    }
  }

  // --- the retry ----------------------------------------------------------------------------------------------------

  /** The row of a fuzzy update was recorded anew, and not as BOOKED. */
  ghost predicate Unsettled(cycle: Cycle, t: Table) {
    exists b, d :: Fuzzy(cycle, b, d) && d.FuzzyUpdate? && d.newKey in t && t[d.newKey].facts.status != Booked
  }

  /** The creates of this attempt leave the moved rows alone. */
  ghost predicate CreatesKeepMoved(cfg: Settings, cycle: Cycle, w: World) {
    var t1 := CreatesPhase(w, cfg, cycle.creates).table;
    forall b, d :: Fuzzy(cycle, b, d) && d.FuzzyUpdate? ==> SameRowAt(w.table, t1, d.newKey)
  }

  lemma BurnedKeepMoved(cfg: Settings, cycle: Cycle, w: World)
    requires PastCorrections(cycle, w.table, w.ledger)
    ensures CreatesKeepMoved(cfg, cycle, w)
  {
    BurnedCreatesKeepRows(w, cfg, cycle.creates);
    hide CreatesPhase, BatchBurned;
  }

  /** No create or match records a key that a row is moved to. */
  ghost predicate MovedKeysFree(cycle: Cycle) {
    forall b, d :: Fuzzy(cycle, b, d) && d.FuzzyUpdate? ==> !RecordedKey(cycle, d.newKey)
  }

  lemma FreeKeepMoved(cfg: Settings, cycle: Cycle, w: World)
    requires MovedKeysFree(cycle)
    ensures CreatesKeepMoved(cfg, cycle, w)
  {
    hide RecordedKey, CreatesPhase;
    forall b, d | Fuzzy(cycle, b, d) && d.FuzzyUpdate?
      ensures SameRowAt(w.table, CreatesPhase(w, cfg, cycle.creates).table, d.newKey)
    {
      CreatesLeaveRows(cfg, cycle, w, d.newKey);
    }
  }

  lemma RetryAfterMoving(cfg: Settings, cycle: Cycle, w: World, budgets: seq<string>)
    requires Smooth(w) && RowsApart(cycle) && Accounted(cycle, w.table) && RowsGone(cycle, w.table)
    requires CreatesKeepMoved(cfg, cycle, w) && TargetsListed(cfg, cycle, w.ledger) && VisitsCorrected(cycle, budgets)
    ensures var w' := Submit(w, cfg, cycle, budgets);
            && (w'.status == DbFailed <==> SharedRow(cycle) || Unsettled(cycle, w.table))
            && (w'.status == Running <==> !SharedRow(cycle) && !Unsettled(cycle, w.table))
            && (w'.status == Running ==> MovedStay(cycle, w.table, w'.table))
  {
    var w1 := CreatesPhase(w, cfg, cycle.creates);
    var w2 := CorrectionsPhase(w1, cfg, cycle, budgets);
    forall b, c | Plain(cycle, b, c) || Fuzzy(cycle, b, c) ensures SameRowAt(w.table, w1.table, c.oldKey) {
      CreatesLeaveRows(cfg, cycle, w, c.oldKey);
    }
    hide CreatesPhase, CorrectionsPhase, MatchesPhase, RecordedKey, TargetsListed;
    ClearIffUnshared(cycle, w.table, w1.table);
    hide RowsApart, ClearFor, SharedRow, Unsettled, Accounted, SettleAll, AllCorrections, Calm;
    SmoothAttempt(cfg, cycle, w, budgets);
    if w2.status == Running {
      AllThere(cycle, w1.table, budgets);
      VisitedOrderly(cycle, budgets);
      SettledMoves(w1.table, AllCorrections(cycle, budgets));
      hide Orderly, NoneLost, Conserved, Written, IsMatchKey;
      forall b, d | Fuzzy(cycle, b, d) && !IsMatchKey(cycle, d.newKey)
        ensures SameRow(w.table, MatchesPhase(w2, cfg, cycle.matches).table, d.newKey)
      {
        MovedStaysPut(cfg, cycle, w, w1, w2, budgets, b, d);
      }
    }
  }

  /** Rows under moved keys, unless a match has the key, are not written by a repeat. */
  ghost predicate MovedStay(cycle: Cycle, t: Table, t': Table) {
    forall b, d :: Fuzzy(cycle, b, d) && d.FuzzyUpdate? && !IsMatchKey(cycle, d.newKey) ==> SameRow(t, t', d.newKey)
  }

  lemma MovedStaysPut(cfg: Settings, cycle: Cycle, w: World, w1: World, w2: World, budgets: seq<string>, b: string,
                      d: Correction)
    requires Fuzzy(cycle, b, d) && d.FuzzyUpdate? && !IsMatchKey(cycle, d.newKey) && VisitsCorrected(cycle, budgets)
    requires RowsGone(cycle, w.table) && SameRowAt(w.table, w1.table, d.newKey) && SameRowAt(w.table, w1.table, d.oldKey)
    requires forall d :: d in AllCorrections(cycle, budgets) && d.FuzzyUpdate? ==> RowMoved(w1.table, w2.table, d)
    requires ClearFor(cycle, w1.table)
    ensures SameRow(w.table, MatchesPhase(w2, cfg, cycle.matches).table, d.newKey)
  {
    assert b in budgets;
    PlainOrFuzzy(cycle, b, d);
    AllMembers(cycle, budgets, d);
    hide AllCorrections, MatchesPhase, IsMatchKey, CorrectionsOf, VisitsCorrected;
    assert IsMoved(w1.table, d);
    MatchesLeaveRows(cfg, cycle, w2, d.newKey);
  }

  lemma ClearIffUnshared(cycle: Cycle, t: Table, t1: Table)
    requires RowsApart(cycle) && Accounted(cycle, t)
    requires RowsGone(cycle, t)
    requires forall b, d :: Fuzzy(cycle, b, d) && d.FuzzyUpdate? ==> SameRowAt(t, t1, d.newKey)
    requires forall b, c :: Plain(cycle, b, c) || Fuzzy(cycle, b, c) ==> SameRowAt(t, t1, c.oldKey)
    ensures RowsThere(cycle, t1) && (ClearFor(cycle, t1) <==> !SharedRow(cycle) && !Unsettled(cycle, t))
  {
    hide RecordedKey, Plain, Fuzzy;
    if SharedRow(cycle) {
      var b, c, b', d :| Plain(cycle, b, c) && Fuzzy(cycle, b', d) && c.oldKey == d.oldKey;
      assert c.oldKey !in t1;
    }
    if Unsettled(cycle, t) {
      var b, d :| Fuzzy(cycle, b, d) && d.FuzzyUpdate? && d.newKey in t && t[d.newKey].facts.status != Booked;
      assert !Unmoved(t1, d) && !IsMoved(t1, d);
    }
  }

  /**
   * Once some attempt got through its corrections, after whatever attempts, a retry in which every call works and
   * every target is alive completes if and only if no pending row has both a plain and a fuzzy update, and no row
   * that was moved is now other than BOOKED, which takes a match under the same key.  Otherwise it ends in a
   * database error.  When it completes, the moved rows are as they were.
   */
  lemma RetryEndsInDbFailedIffRowShared(cfg: Settings, cycle: Cycle, table: Table, ledger: Ledger, before: seq<Try>,
                                        t: Try, later: Ledger, now: int, budgets: seq<string>)
    requires RowsApart(cycle) && Accounted(cycle, table)
    requires VisitsCorrected(cycle, t.budgets) && VisitsCorrected(cycle, budgets)
    requires var w := AfterTries(cfg, cycle, Attempt(table, ledger, [], 0), before);
             var start := Attempt(w.table, w.ledger, t.script, t.now);
             && CorrectionsGoThrough(start, cfg, cycle, t.budgets)
             && (Extends(Submit(start, cfg, cycle, t.budgets).ledger, later) || MovedKeysFree(cycle))
    requires TargetsListed(cfg, cycle, later)
    ensures var w := AfterTries(cfg, cycle, Attempt(table, ledger, [], 0), before);
            var w1 := Submit(Attempt(w.table, w.ledger, t.script, t.now), cfg, cycle, t.budgets);
            var w2 := Submit(Attempt(w1.table, later, [], now), cfg, cycle, budgets);
            && (w2.status == DbFailed <==> SharedRow(cycle) || Unsettled(cycle, w1.table))
            && (w2.status == Running <==> !SharedRow(cycle) && !Unsettled(cycle, w1.table))
            && (Unsettled(cycle, w1.table) ==> exists b, d :: Fuzzy(cycle, b, d) && d.FuzzyUpdate? && IsMatchKey(cycle, d.newKey))
            && (w2.status == Running ==> MovedStay(cycle, w1.table, w2.table))
  {
    var w := AfterTries(cfg, cycle, Attempt(table, ledger, [], 0), before);
    var start := Attempt(w.table, w.ledger, t.script, t.now);
    var w1 := Submit(start, cfg, cycle, t.budgets);
    hide AfterTries, Submit, RowsApart, Accounted, TargetsListed, CorrectionsGoThrough, SharedRow, Extends, VisitsCorrected,
         BatchBurned, IsMatchKey, Fuzzy;
    TriesStayAccounted(cfg, cycle, Attempt(table, ledger, [], 0), before);
    AttemptStaysAccounted(cfg, cycle, start, t.budgets);
    AttemptMoves(cfg, cycle, start, t.budgets);
    var again := Attempt(w1.table, later, [], now);
    if MovedKeysFree(cycle) {
      FreeKeepMoved(cfg, cycle, again);
    } else {
      forall batch | batch in cycle.creates ensures BatchBurned(later, batch) {
        BatchStaysBurned(w1.ledger, later, batch);
      }
      BurnedKeepMoved(cfg, cycle, again);
    }
    assert RowsGone(cycle, w1.table);
    hide PastCorrections, CreatesKeepMoved, RowsGone;
    RetryAfterMoving(cfg, cycle, again, budgets);
  }
}
