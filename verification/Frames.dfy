/**
 * What the first two phases of submit() leave alone, on any script: they
 * delete nothing, import nothing but the submitted ids, and write only rows
 * under the cycle's own keys.
 */
module Frames {
  import opened Wrappers
  import opened Ynab
  import opened StateDb
  import opened SyncSpec
  import opened Creation
  import opened Money

  // --- what every step of the engine keeps of the ledger --------------------------------------

  /** An import keeps its match and its liveness, and nothing that is matched is matched again or unmatched. */
  ghost predicate ImportsStable(l: Ledger, l': Ledger) {
    && Extends(l, l')
    && (forall i :: 0 <= i < |l| && l[i].importId.Some? ==>
          l'[i].matched == l[i].matched && l'[i].deleted == l[i].deleted)
    && (forall i :: 0 <= i < |l| && l[i].matched.Some? ==> l'[i].matched == l[i].matched)
  }

  ghost predicate NothingDeleted(l: Ledger, l': Ledger) {
    |l| <= |l'| && forall i :: 0 <= i < |l| ==> l'[i].deleted == l[i].deleted
  }

  /** New transactions carry no import_id outside `ids`. */
  ghost predicate OnlyImports(l: Ledger, l': Ledger, ids: iset<string>) {
    forall i :: |l| <= i < |l'| && l'[i].importId.Some? ==> l'[i].importId.value in ids
  }

  /** A stretch of the first two phases: nothing deleted, no foreign import, unique ids kept. */
  ghost predicate Calm(l: Ledger, l': Ledger, ids: iset<string>) {
    && ImportsStable(l, l') && NothingDeleted(l, l') && OnlyImports(l, l', ids)
    && (UniqueIds(l) ==> UniqueIds(l'))
  }

  lemma CalmTransitive(l: Ledger, l1: Ledger, l2: Ledger, ids: iset<string>)
    requires Calm(l, l1, ids) && Calm(l1, l2, ids)
    ensures Calm(l, l2, ids)
  {
    hide UniqueIds;
    forall i | 0 <= i < |l|
      ensures SameIdentity(l[i], l2[i]) && l2[i].deleted == l[i].deleted
      ensures l[i].importId.Some? || l[i].matched.Some? ==> l2[i].matched == l[i].matched
    {
      assert SameIdentity(l[i], l1[i]) && SameIdentity(l1[i], l2[i]);
    }
    forall i | |l| <= i < |l2| && l2[i].importId.Some? ensures l2[i].importId.value in ids {
      assert i < |l1| ==> SameIdentity(l1[i], l2[i]);
    }
  }

  lemma PatchIsCalm(l: Ledger, budget: string, id: nat, amount: Option<int>, cleared: ClearedFlag, ids: iset<string>)
    ensures Calm(l, Patch(l, budget, id, amount, cleared), ids)
  {
    var l' := Patch(l, budget, id, amount, cleared);
    assert forall i :: 0 <= i < |l| ==> SameIdentity(l[i], l'[i]);
    if UniqueIds(l) { SameIdsUnique(l, l'); }
  }

  lemma SameIdsUnique(l: Ledger, l': Ledger)
    requires UniqueIds(l) && |l| == |l'| && forall i :: 0 <= i < |l| ==> SameIdentity(l[i], l'[i])
    ensures UniqueIds(l')
  {
    forall i, j, id | 0 <= i < |l'| && 0 <= j < |l'| && Holds(l'[i], l'[j].budget, id) && l'[j].importId == Some(id)
      ensures i == j
    {
      assert SameIdentity(l[i], l'[i]) && SameIdentity(l[j], l'[j]);
      assert Holds(l[i], l[j].budget, id);
    }
  }

  lemma CreateOneIsCalm(l: Ledger, native: NativeMatcher, budget: string, p: Payload, ids: iset<string>)
    requires p.importId in ids
    ensures Calm(l, CreateOne(l, native, budget, p).0, ids)
  {
    var l' := CreateOne(l, native, budget, p).0;
    assert forall i :: 0 <= i < |l| ==> SameIdentity(l[i], l'[i]);
    if UniqueIds(l) { CreateOneKeepsUnique(l, native, budget, p); }
  }

  lemma {:induction false} CreateAllIsCalm(l: Ledger, native: NativeMatcher, budget: string, ps: seq<Payload>,
                                           ids: iset<string>)
    requires forall p :: p in ps ==> p.importId in ids
    ensures Calm(l, CreateAll(l, native, budget, ps).0, ids)
    decreases |ps|
  {
    if ps != [] {
      var l1 := CreateOne(l, native, budget, ps[0]).0;
      CreateOneIsCalm(l, native, budget, ps[0], ids);
      CreateAllIsCalm(l1, native, budget, ps[1..], ids);
      CalmTransitive(l, l1, CreateAll(l1, native, budget, ps[1..]).0, ids);
    } else {
      CalmRefl(l, ids);
    }
  }

  lemma CalmRefl(l: Ledger, ids: iset<string>)
    ensures Calm(l, l, ids)
  {
  }

  // --- the first two phases --------------------------------------------------------------------

  /** A stretch of a run that writes only rows under `keys` and imports only `ids`. */
  ghost predicate Quiet(w: World, w': World, keys: iset<string>, ids: iset<string>) {
    && Calm(w.ledger, w'.ledger, ids)
    && (forall k :: k !in keys ==> SameRowAt(w.table, w'.table, k))
    && forall fault :: fault in w'.script ==> fault in w.script
  }

  ghost predicate SameRowAt(t: Table, t': Table, k: string) {
    (k in t <==> k in t') && (k in t ==> t[k] == t'[k])
  }

  lemma QuietTransitive(w: World, w1: World, w2: World, keys: iset<string>, ids: iset<string>)
    requires Quiet(w, w1, keys, ids) && Quiet(w1, w2, keys, ids)
    ensures Quiet(w, w2, keys, ids)
  {
    hide Calm;
    CalmTransitive(w.ledger, w1.ledger, w2.ledger, ids);
    forall k | k !in keys ensures SameRowAt(w.table, w2.table, k) {
      assert SameRowAt(w.table, w1.table, k) && SameRowAt(w1.table, w2.table, k);
    }
  }

  lemma SendIsQuiet(w: World, l: Ledger, keys: iset<string>, ids: iset<string>)
    requires Calm(w.ledger, l, ids)
    ensures Quiet(w, Write(w, l), keys, ids) && Quiet(w, WriteUnless400(w, l), keys, ids)
    ensures Quiet(w, Read(w), keys, ids) && Quiet(w, Halt(Consume(w), NeedsRecovery), keys, ids)
  {
    CalmRefl(w.ledger, ids);
    hide Calm;
  }

  lemma RecordIsQuiet(w: World, key: string, facts: Facts, keys: iset<string>, ids: iset<string>)
    requires key in keys
    ensures Quiet(w, Record(w, key, facts), keys, ids)
  {
    CalmRefl(w.ledger, ids);
    hide Calm;
  }

  ghost predicate CreateKeysIn(creates: seq<Create>, keys: iset<string>) {
    forall p :: p in creates ==> p.trackingKey in keys && (p.secondary.Some? ==> p.secondary.value.trackingKey in keys)
  }

  lemma RecordRowIsQuiet(w: World, cfg: Settings, budget: string, creates: seq<Create>, row: Reported,
                         keys: iset<string>, ids: iset<string>)
    requires CreateKeysIn(creates, keys)
    ensures Quiet(w, RecordRow(w, cfg, budget, creates, row), keys, ids)
  {
    hide Quiet, FindCreate, CreateFacts, RecordSecondary, TrackNativeMatch, Record;
    CountingIsQuiet(w, 0, keys, ids);
    if row.importId.Some? && FindCreate(creates, row.importId.value).Some? {
      var p := FindCreate(creates, row.importId.value).value;
      var payee := PayeeOr(p.payload.payee, row.payee);
      if p.secondary.None? && row.matched.Some? {
        var facts := CreateFacts(budget, p, row.matched.value, p.status, p.payload.amount, payee);
        TrackNativeIsQuiet(CountUpdated(w), p.trackingKey, facts, keys, ids);
        CountsAreNeutral(w, TrackNativeMatch(CountUpdated(w), p.trackingKey, facts), keys, ids);
      } else {
        var facts := CreateFacts(budget, p, row.id, p.status, p.payload.amount, payee);
        RecordIsQuiet(w, p.trackingKey, facts, keys, ids);
        var w1 := CountCreated(Record(w, p.trackingKey, facts));
        CountsAreNeutral(w, Record(w, p.trackingKey, facts), keys, ids);
        if p.secondary.Some? {
          SecondaryIsQuiet(w1, cfg, budget, p.secondary.value, row, keys, ids);
          QuietTransitive(w, w1, RecordSecondary(w1, cfg, budget, p.secondary.value, row), keys, ids);
        }
      }
    }
  }

  lemma CountsAreNeutral(w: World, w': World, keys: iset<string>, ids: iset<string>)
    ensures Quiet(CountUpdated(w), w', keys, ids) ==> Quiet(w, w', keys, ids)
    ensures Quiet(w, w', keys, ids) ==> Quiet(w, CountCreated(w'), keys, ids)
  {
    hide Calm;
  }

  lemma TrackNativeIsQuiet(w: World, key: string, facts: Facts, keys: iset<string>, ids: iset<string>)
    requires key in keys
    ensures Quiet(w, TrackNativeMatch(w, key, facts), keys, ids)
  {
    hide Calm, Patch, WriteUnless400, Record;
    RecordIsQuiet(w, key, facts, keys, ids);
    RecordLeavesLedger(w, key, facts);
    var l' := Patch(w.ledger, facts.budget, facts.txnId, None, Uncleared);
    PatchIsCalm(w.ledger, facts.budget, facts.txnId, None, Uncleared, ids);
    SendIsQuiet(Record(w, key, facts), l', keys, ids);
    QuietTransitive(w, Record(w, key, facts), WriteUnless400(Record(w, key, facts), l'), keys, ids);
  }

  lemma RecordLeavesLedger(w: World, key: string, facts: Facts)
    ensures Record(w, key, facts).ledger == w.ledger && Record(w, key, facts).status == w.status
    ensures Record(w, key, facts).script == w.script && key in Record(w, key, facts).table
    ensures Record(w, key, facts).table[key].facts == facts
    ensures forall k :: k != key ==> SameRowAt(w.table, Record(w, key, facts).table, k)
  {
  }

  lemma SecondaryIsQuiet(w: World, cfg: Settings, budget: string, secondary: Create, row: Reported,
                         keys: iset<string>, ids: iset<string>)
    requires secondary.trackingKey in keys
    ensures Quiet(w, RecordSecondary(w, cfg, budget, secondary, row), keys, ids)
  {
    hide Quiet, Patch, WriteUnless400, CreateFacts, SecondaryFacts, Record;
    CountingIsQuiet(w, 0, keys, ids);
    if row.transferId.Some? {
      var facts := SecondaryFacts(cfg, budget, secondary, row.transferId.value, row.payee);
      RecordIsQuiet(w, secondary.trackingKey, facts, keys, ids);
      RecordLeavesLedger(w, secondary.trackingKey, facts);
      var w1 := CountCreated(Record(w, secondary.trackingKey, facts));
      CountsAreNeutral(w, Record(w, secondary.trackingKey, facts), keys, ids);
      var l' := Patch(w.ledger, budget, row.transferId.value, Some(secondary.payload.amount), Cleared);
      PatchIsCalm(w.ledger, budget, row.transferId.value, Some(secondary.payload.amount), Cleared, ids);
      SendIsQuiet(w1, l', keys, ids);
      QuietTransitive(w, w1, WriteUnless400(w1, l'), keys, ids);
    }
  }

  lemma {:induction false} RecordCreatedIsQuiet(w: World, cfg: Settings, budget: string, creates: seq<Create>,
                                                rows: seq<Reported>, keys: iset<string>, ids: iset<string>)
    requires CreateKeysIn(creates, keys)
    ensures Quiet(w, RecordCreated(w, cfg, budget, creates, rows), keys, ids)
    decreases |rows|
  {
    hide Calm, RecordRow;
    CalmRefl(w.ledger, ids);
    if rows != [] && w.status == Running {
      var w1 := RecordRow(w, cfg, budget, creates, rows[0]);
      RecordRowIsQuiet(w, cfg, budget, creates, rows[0], keys, ids);
      RecordCreatedIsQuiet(w1, cfg, budget, creates, rows[1..], keys, ids);
      QuietTransitive(w, w1, RecordCreated(w1, cfg, budget, creates, rows[1..]), keys, ids);
    }
  }

  lemma RecoverIsQuiet(w: World, cfg: Settings, budget: string, p: Create, keys: iset<string>, ids: iset<string>)
    requires p.trackingKey in keys
    ensures Quiet(w, Recover(w, cfg, budget, p), keys, ids)
  {
    hide Calm, LookUp, LookUpGone, RecoveredFacts, DeletedFacts, Record, Read;
    CalmRefl(w.ledger, ids);
    CountingIsQuiet(w, 0, keys, ids);
    SendIsQuiet(w, w.ledger, keys, ids);
    var read := Read(w);
    CalmRefl(read.ledger, ids);
    SendIsQuiet(read, read.ledger, keys, ids);
    QuietTransitive(w, read, Read(read), keys, ids);
    var existing, gone := LookUp(w.ledger, cfg, budget, p), LookUpGone(w.ledger, cfg, budget, p);
    if existing.Some? {
      var facts := RecoveredFacts(w.ledger, budget, p, existing.value);
      RecordIsQuiet(read, p.trackingKey, facts, keys, ids);
      QuietTransitive(w, read, Record(read, p.trackingKey, facts), keys, ids);
    } else if gone.Some? {
      var facts := DeletedFacts(budget, p, gone.value);
      RecordIsQuiet(Read(read), p.trackingKey, facts, keys, ids);
      QuietTransitive(w, Read(read), Record(Read(read), p.trackingKey, facts), keys, ids);
    }
  }

  lemma {:induction false} BackfillIsQuiet(w: World, cfg: Settings, budget: string, creates: seq<Create>,
                                           importIds: seq<string>, keys: iset<string>, ids: iset<string>)
    requires CreateKeysIn(creates, keys)
    ensures Quiet(w, Backfill(w, cfg, budget, creates, importIds), keys, ids)
    decreases |importIds|
  {
    hide Calm, Recover;
    CalmRefl(w.ledger, ids);
    if importIds != [] && w.status == Running {
      var w1 := BackfillOne(w, cfg, budget, creates, importIds[0]);
      var found := FindCreate(creates, importIds[0]);
      if found.Some? {
        RecoverIsQuiet(w, cfg, budget, found.value, keys, ids);
      }
      BackfillIsQuiet(w1, cfg, budget, creates, importIds[1..], keys, ids);
      QuietTransitive(w, w1, Backfill(w1, cfg, budget, creates, importIds[1..]), keys, ids);
    }
  }

  ghost predicate BatchWithin(batch: Batch<Create>, keys: iset<string>, ids: iset<string>) {
    CreateKeysIn(batch.items, keys) && forall p :: p in batch.items ==> p.payload.importId in ids
  }

  lemma PostIsQuiet(w: World, cfg: Settings, budget: string, ps: seq<Payload>, keys: iset<string>, ids: iset<string>)
    requires forall p :: p in ps ==> p.importId in ids
    ensures Quiet(w, PostCreates(w, cfg, budget, ps).0, keys, ids)
  {
    CreateAllIsCalm(w.ledger, cfg.native, budget, ps, ids);
    CalmRefl(w.ledger, ids);
    hide Calm, Write, CreateAll;
    SendIsQuiet(w, CreateAll(w.ledger, cfg.native, budget, ps).0, keys, ids);
  }

  lemma SubmitCreatesIsQuiet(w: World, cfg: Settings, batch: Batch<Create>, keys: iset<string>, ids: iset<string>)
    requires BatchWithin(batch, keys, ids)
    ensures Quiet(w, SubmitCreates(w, cfg, batch), keys, ids)
  {
    hide Quiet, PostCreates, RecordCreated, Backfill;
    var (posted, response) := PostCreates(w, cfg, batch.budget, Payloads(batch.items));
    PostIsQuiet(w, cfg, batch.budget, Payloads(batch.items), keys, ids);
    var recorded := RecordCreated(posted, cfg, batch.budget, batch.items, response.rows);
    RecordCreatedIsQuiet(posted, cfg, batch.budget, batch.items, response.rows, keys, ids);
    QuietTransitive(w, posted, recorded, keys, ids);
    var counted := CountDuplicates(recorded, |response.duplicates|);
    CountingIsQuiet(recorded, |response.duplicates|, keys, ids);
    QuietTransitive(w, recorded, counted, keys, ids);
    BackfillIsQuiet(counted, cfg, batch.budget, batch.items, response.duplicates, keys, ids);
    QuietTransitive(w, counted, Backfill(counted, cfg, batch.budget, batch.items, response.duplicates), keys, ids);
  }

  lemma CountingIsQuiet(w: World, n: nat, keys: iset<string>, ids: iset<string>)
    ensures Quiet(w, CountDuplicates(w, n), keys, ids) && Quiet(w, w, keys, ids)
  {
    CalmRefl(w.ledger, ids);
  }

  lemma {:induction false} CreatesPhaseIsQuiet(w: World, cfg: Settings, batches: seq<Batch<Create>>,
                                               keys: iset<string>, ids: iset<string>)
    requires forall b :: b in batches ==> BatchWithin(b, keys, ids)
    ensures Quiet(w, CreatesPhase(w, cfg, batches), keys, ids)
    decreases |batches|
  {
    hide Quiet, SubmitCreates, BatchWithin;
    CountingIsQuiet(w, 0, keys, ids);
    if batches != [] && w.status == Running {
      var w1 := SubmitCreates(w, cfg, batches[0]);
      assert batches[0] in batches;
      SubmitCreatesIsQuiet(w, cfg, batches[0], keys, ids);
      assert forall b :: b in batches[1..] ==> b in batches;
      CreatesPhaseIsQuiet(w1, cfg, batches[1..], keys, ids);
      QuietTransitive(w, w1, CreatesPhase(w1, cfg, batches[1..]), keys, ids);
    }
  }

  ghost predicate CorrectionWithin(c: Correction, keys: iset<string>) {
    c.oldKey in keys && (c.FuzzyUpdate? ==> c.newKey in keys)
  }

  lemma SettleIsQuiet(w: World, c: Correction, keys: iset<string>, ids: iset<string>)
    requires CorrectionWithin(c, keys)
    ensures Quiet(w, Settle(w, c), keys, ids)
  {
    CalmRefl(w.ledger, ids);
    hide Calm, Settled;
  }

  lemma CorrectIsQuiet(w: World, budget: string, snapshot: Ledger, since: Option<int>, c: Correction,
                       keys: iset<string>, ids: iset<string>)
    requires CorrectionWithin(c, keys)
    ensures Quiet(w, Correct(w, budget, snapshot, since, c), keys, ids)
  {
    hide Calm, Patch, Write, Settle, ToMilliunits, SameRowAt;
    CountingIsQuiet(w, 0, keys, ids);
    var l' := Patch(w.ledger, budget, c.txnId, Some(ToMilliunits(c.newAmount)), Cleared);
    PatchIsCalm(w.ledger, budget, c.txnId, Some(ToMilliunits(c.newAmount)), Cleared, ids);
    SendIsQuiet(w, l', keys, ids);
    SettleIsQuiet(Write(w, l'), c, keys, ids);
    QuietTransitive(w, Write(w, l'), Settle(Write(w, l'), c), keys, ids);
  }

  lemma {:induction false} CorrectAllIsQuiet(w: World, budget: string, snapshot: Ledger, since: Option<int>,
                                             cs: seq<Correction>, keys: iset<string>, ids: iset<string>)
    requires forall c :: c in cs ==> CorrectionWithin(c, keys)
    ensures Quiet(w, CorrectAll(w, budget, snapshot, since, cs), keys, ids)
    decreases |cs|
  {
    hide Quiet, Correct, CorrectionWithin;
    CountingIsQuiet(w, 0, keys, ids);
    if cs != [] && w.status == Running {
      var w1 := Correct(w, budget, snapshot, since, cs[0]);
      CorrectIsQuiet(w, budget, snapshot, since, cs[0], keys, ids);
      CorrectAllIsQuiet(w1, budget, snapshot, since, cs[1..], keys, ids);
      QuietTransitive(w, w1, CorrectAll(w1, budget, snapshot, since, cs[1..]), keys, ids);
    }
  }

  ghost predicate CorrectionsWithin(cycle: Cycle, keys: iset<string>) {
    forall b, c :: c in CorrectionsOf(cycle, b) ==> CorrectionWithin(c, keys)
  }

  lemma {:induction false} CorrectionsPhaseIsQuiet(w: World, cfg: Settings, cycle: Cycle, budgets: seq<string>,
                                                   keys: iset<string>, ids: iset<string>)
    requires CorrectionsWithin(cycle, keys)
    ensures Quiet(w, CorrectionsPhase(w, cfg, cycle, budgets), keys, ids)
    decreases |budgets|
  {
    hide Quiet, CorrectAll, CorrectionWithin, Read;
    CountingIsQuiet(w, 0, keys, ids);
    if budgets != [] && w.status == Running {
      var w1 := CorrectBudget(w, cfg, cycle, budgets[0]);
      var cs := CorrectionsOf(cycle, budgets[0]);
      CalmRefl(w.ledger, ids);
      SendIsQuiet(w, w.ledger, keys, ids);
      CorrectAllIsQuiet(Read(w), budgets[0], w.ledger, SinceOf(cfg, cs), cs, keys, ids);
      QuietTransitive(w, Read(w), CorrectAll(Read(w), budgets[0], w.ledger, SinceOf(cfg, cs), cs), keys, ids);
      CorrectionsPhaseIsQuiet(w1, cfg, cycle, budgets[1..], keys, ids);
      QuietTransitive(w, w1, CorrectionsPhase(w1, cfg, cycle, budgets[1..]), keys, ids);
    }
  }
}
