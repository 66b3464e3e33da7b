/**
 * Retry convergence: however often submit() is aborted, once an attempt
 * completes the ledger and the table are those of one uninterrupted run.
 */
module Convergence {
  import opened Wrappers
  import opened Ynab
  import opened StateDb
  import opened SyncSpec
  import opened Creation
  import Money
  import DateWindow

  /** One classified cycle and the stores it was classified against. */
  datatype Setup = Setup(cfg: Settings, cycle: Cycle, table0: Table, ledger0: Ledger)

  ghost predicate IsCreate(s: Setup, i: nat, p: Create) {
    i < |s.cycle.creates| && p in s.cycle.creates[i].items
  }

  ghost predicate CreateKey(s: Setup, k: string) {
    exists i: nat, p :: IsCreate(s, i, p) && p.trackingKey == k
  }

  ghost predicate IsCorrection(s: Setup, c: Correction) {
    c in CorrectionsOf(s.cycle, c.budget)
  }

  /** The creates of the cycle: ordinary, new, and with keys and import_ids of their own. */
  ghost predicate OrdinaryCreates(s: Setup) {
    && (forall i: nat, p :: IsCreate(s, i, p) ==>
          p.secondary.None? && p.payload.transferTo.None? && p.trackingKey !in s.table0)
    && (forall i: nat, p, j: nat, q :: IsCreate(s, i, p) && IsCreate(s, j, q) && (i != j || p != q) ==>
          p.trackingKey != q.trackingKey && p.payload.importId != q.payload.importId)
  }

  /** The corrections: of distinct rows that are live in YNAB and inside the listing's window. */
  ghost predicate LiveCorrections(s: Setup) {
    && (forall b, c :: c in CorrectionsOf(s.cycle, b) ==> c.budget == b)
    && (forall c :: IsCorrection(s, c) ==>
          && c.oldKey in s.table0
          && ListedAlive(s.ledger0, c.budget, c.txnId, Some(c.date - s.cfg.backfillDays))
          && (c.FuzzyUpdate? ==> c.newKey !in s.table0 && !CreateKey(s, c.newKey)))
    && (forall c, d :: IsCorrection(s, c) && IsCorrection(s, d) && c != d ==>
          && c.oldKey != d.oldKey && c.txnId != d.txnId
          && (c.FuzzyUpdate? && d.FuzzyUpdate? ==> c.newKey != d.newKey))
  }

  ghost predicate Retryable(s: Setup) {
    && NoNativeMatching(s.cfg.native) && UniqueIds(s.ledger0)
    && s.cycle.matches == [] && OrdinaryCreates(s) && LiveCorrections(s)
  }

  // --- the ledger after some of the create batches ------------------------------------------

  ghost function LedgerAfter(s: Setup, n: nat): Ledger
    requires n <= |s.cycle.creates|
  {
    if n == 0 then s.ledger0
    else
      var batch := s.cycle.creates[n - 1];
      CreateAll(LedgerAfter(s, n - 1), s.cfg.native, batch.budget, Payloads(batch.items)).0
  }

  ghost function Full(s: Setup): Ledger { LedgerAfter(s, |s.cycle.creates|) }

  lemma BatchIsOrdinary(s: Setup, i: nat)
    requires OrdinaryCreates(s) && i < |s.cycle.creates|
    ensures var ps := Payloads(s.cycle.creates[i].items);
            && OrdinaryPayloads(ps)
            && (forall q :: q in ps ==> exists p :: IsCreate(s, i, p) && p.payload == q)
            && (forall p :: IsCreate(s, i, p) ==> p.payload in ps)
  {
    var items := s.cycle.creates[i].items;
    var ps := Payloads(items);
    forall q | q in ps ensures exists p :: IsCreate(s, i, p) && p.payload == q {
      var k :| 0 <= k < |ps| && ps[k] == q;
      assert IsCreate(s, i, items[k]);
    }
    forall p | IsCreate(s, i, p) ensures p.payload in ps {
      var k :| 0 <= k < |items| && items[k] == p;
      assert ps[k] == p.payload;
    }
  }

  lemma NextBatch(s: Setup, n: nat)
    requires Retryable(s) && n < |s.cycle.creates| && UniqueIds(LedgerAfter(s, n))
    ensures LedgerAfter(s, n) <= LedgerAfter(s, n + 1)
    ensures UniqueIds(LedgerAfter(s, n + 1)) && Extends(LedgerAfter(s, n), LedgerAfter(s, n + 1))
    ensures forall p :: IsCreate(s, n, p) ==>
        Burned(LedgerAfter(s, n + 1), s.cycle.creates[n].budget, p.payload.importId)
  {
    var batch := s.cycle.creates[n];
    BatchIsOrdinary(s, n);
    CreateAllOrdinary(LedgerAfter(s, n), s.cfg.native, batch.budget, Payloads(batch.items));
    CreateAllKeepsUnique(LedgerAfter(s, n), s.cfg.native, batch.budget, Payloads(batch.items));
  }

  ghost predicate BurnedUpTo(s: Setup, n: nat, l: Ledger) {
    forall i: nat, p :: IsCreate(s, i, p) && i < n ==> Burned(l, s.cycle.creates[i].budget, p.payload.importId)
  }

  lemma {:induction false} LedgerGrows(s: Setup, n: nat, m: nat)
    requires Retryable(s) && n <= m <= |s.cycle.creates|
    ensures LedgerAfter(s, n) <= LedgerAfter(s, m)
    ensures UniqueIds(LedgerAfter(s, m)) && BurnedUpTo(s, m, LedgerAfter(s, m))
    decreases m
  {
    hide Retryable, Burned, UniqueIds, Extends, LedgerAfter;
    BeforeAnyBatch(s);
    if m > 0 {
      var l, l' := LedgerAfter(s, m - 1), LedgerAfter(s, m);
      LedgerGrows(s, if n < m then n else m - 1, m - 1);
      NextBatch(s, m - 1);
      BurnedStep(s, m - 1, l, l');
    }
  }

  lemma BeforeAnyBatch(s: Setup)
    requires Retryable(s)
    ensures UniqueIds(LedgerAfter(s, 0)) && BurnedUpTo(s, 0, LedgerAfter(s, 0))
  {
  }

  lemma BurnedStep(s: Setup, n: nat, l: Ledger, l': Ledger)
    requires n < |s.cycle.creates| && BurnedUpTo(s, n, l) && Extends(l, l')
    requires forall p :: IsCreate(s, n, p) ==> Burned(l', s.cycle.creates[n].budget, p.payload.importId)
    ensures BurnedUpTo(s, n + 1, l')
  {
    forall i: nat, p | IsCreate(s, i, p) && i < n + 1
      ensures Burned(l', s.cycle.creates[i].budget, p.payload.importId)
    {
      if i < n {
        BurnedForever(l, l', s.cycle.creates[i].budget, p.payload.importId);
      }
    }
  }

  // --- the row every create ends up with ------------------------------------------------------

  /** What _backfill_duplicates would record for p on ledger l. */
  ghost function RecoveredAt(cfg: Settings, l: Ledger, budget: string, p: Create): Option<Facts> {
    var existing, gone := LookUp(l, cfg, budget, p), LookUpGone(l, cfg, budget, p);
    if existing.Some? then Some(RecoveredFacts(l, budget, p, existing.value))
    else if gone.Some? then Some(DeletedFacts(budget, p, gone.value))
    else None
  }

  ghost function NoPayee(f: Facts): Facts { f.(payee := "") }

  ghost function Expected(s: Setup, i: nat, p: Create): Option<Facts>
    requires i < |s.cycle.creates|
  {
    RecoveredAt(s.cfg, Full(s), s.cycle.creates[i].budget, p)
  }

  ghost predicate RowIs(r: Row, f: Facts) {
    NoPayee(r.facts) == NoPayee(f) && AmountsAgree(r) && r.readdCount == 0
  }

  lemma OnlyHolder(l: Ledger, budget: string, importId: string, i: nat)
    requires UniqueIds(l) && i < |l| && Holds(l[i], budget, importId)
    ensures forall j :: 0 <= j < |l| && Holds(l[j], budget, importId) ==> j == i
  {
    forall j | 0 <= j < |l| && Holds(l[j], budget, importId) ensures j == i {
      assert Holds(l[j], l[i].budget, importId);
    }
  }

  lemma LookupExtends(l: Ledger, l': Ledger, keep: Txn -> bool, budget: string, importId: string)
    requires l <= l' && UniqueIds(l') && Burned(l, budget, importId)
    requires forall t :: keep(t) ==> Holds(t, budget, importId)
    ensures FirstIndex(l', keep) == FirstIndex(l, keep)
  {
    var i :| 0 <= i < |l| && Holds(l[i], budget, importId);
    assert Holds(l'[i], budget, importId);
    OnlyHolder(l', budget, importId, i);
    assert forall j :: |l| <= j < |l'| ==> !Holds(l'[j], budget, importId);
    var found := FirstIndex(l, keep);
    if found.Some? {
      FirstIndexIs(l', keep, found.value);
    } else {
      FirstIndexNone(l', keep);
    }
  }

  /** Later batches do not change what an earlier create looks up. */
  lemma ExpectedStable(s: Setup, i: nat, p: Create, n: nat)
    requires Retryable(s) && IsCreate(s, i, p) && i < n <= |s.cycle.creates|
    ensures RecoveredAt(s.cfg, LedgerAfter(s, n), s.cycle.creates[i].budget, p) == Expected(s, i, p)
  {
    hide Retryable, UniqueIds, Burned, LedgerAfter;
    var budget, id := s.cycle.creates[i].budget, p.payload.importId;
    var since := DateWindow.SinceDateBound(p.payload.date, s.cfg.backfillDays);
    LedgerGrows(s, n, |s.cycle.creates|);
    LedgerGrows(s, n, n);
    LookupExtends(LedgerAfter(s, n), Full(s), ListedUnder(budget, p.payload.account, id, since, s.cfg.shadowsListed), budget, id);
    LookupExtends(LedgerAfter(s, n), Full(s), HeldSince(budget, id, since), budget, id);
  }

  /** A freshly created transaction is exactly what a later lookup would find. */
  lemma FreshIsExpected(s: Setup, i: nat, p: Create, id: nat)
    requires Retryable(s) && IsCreate(s, i, p)
    requires id < |LedgerAfter(s, i + 1)|
    requires LedgerAfter(s, i + 1)[id] == NewTxn(s.cycle.creates[i].budget, p.payload, None)
    ensures Expected(s, i, p)
         == Some(CreateFacts(s.cycle.creates[i].budget, p, id, p.status, p.payload.amount, p.payload.payee))
  {
    hide Retryable, UniqueIds, Burned, LedgerAfter;
    var l, budget := LedgerAfter(s, i + 1), s.cycle.creates[i].budget;
    var since := DateWindow.SinceDateBound(p.payload.date, s.cfg.backfillDays);
    LedgerGrows(s, i + 1, i + 1);
    OnlyHolder(l, budget, p.payload.importId, id);
    FirstIndexIs(l, ListedUnder(budget, p.payload.account, p.payload.importId, since, s.cfg.shadowsListed), id);
    ExpectedStable(s, i, p, i + 1);
  }

  // --- the creates phase ------------------------------------------------------------------------

  ghost predicate SameAt(t: Table, t': Table, k: string) {
    (k in t <==> k in t') && (k in t ==> t[k] == t'[k])
  }

  /** Only the cycle's own create keys differ, and none of them is lost. */
  ghost predicate OnlyCreatesAdded(s: Setup, t: Table, t': Table) {
    && (forall k :: !CreateKey(s, k) ==> SameAt(t, t', k))
    && forall k :: k in t ==> k in t'
  }

  /** Recorded creates are among the first n batches and carry the expected row. */
  ghost predicate CreatesOk(s: Setup, t: Table, n: nat) {
    forall i: nat, p :: IsCreate(s, i, p) && p.trackingKey in t ==>
      i < n && Expected(s, i, p).Some? && RowIs(t[p.trackingKey], Expected(s, i, p).value)
  }

  ghost predicate Recorded(s: Setup, t: Table, i: nat, p: Create)
    requires i < |s.cycle.creates|
  {
    p.trackingKey in t || Expected(s, i, p).None?
  }

  ghost predicate BatchRecorded(s: Setup, t: Table, i: nat) {
    forall p :: IsCreate(s, i, p) ==> Recorded(s, t, i, p)
  }

  ghost predicate AllRecorded(s: Setup, t: Table) {
    forall i: nat, p :: IsCreate(s, i, p) ==> Recorded(s, t, i, p)
  }

  lemma CreatesAreDistinct(s: Setup, i: nat, p: Create, j: nat, q: Create)
    requires Retryable(s) && IsCreate(s, i, p) && IsCreate(s, j, q) && (i != j || p != q)
    ensures p.trackingKey != q.trackingKey && p.payload.importId != q.payload.importId
  {
  }

  /** Writing the expected row of p keeps every recorded create as expected. */
  lemma UpsertExpected(s: Setup, i: nat, p: Create, t: Table, facts: Facts, now: int, n: nat)
    requires Retryable(s) && IsCreate(s, i, p) && i < n && CreatesOk(s, t, n)
    requires Expected(s, i, p).Some? && NoPayee(Expected(s, i, p).value) == NoPayee(facts)
    ensures var t' := Upsert(t, p.trackingKey, facts, now); CreatesOk(s, t', n) && OnlyCreatesAdded(s, t, t')
  {
    hide Retryable, Expected;
    var t' := Upsert(t, p.trackingKey, facts, now);
    assert CreateKey(s, p.trackingKey);
    assert p.trackingKey in t ==> RowIs(t[p.trackingKey], Expected(s, i, p).value);
    forall j: nat, q | IsCreate(s, j, q) && q.trackingKey in t'
      ensures j < n && Expected(s, j, q).Some? && RowIs(t'[q.trackingKey], Expected(s, j, q).value)
    {
      if i != j || p != q {
        CreatesAreDistinct(s, i, p, j, q);
        assert q.trackingKey in t;
      }
    }
  }

  ghost predicate GoodRow(s: Setup, i: nat, row: Reported)
    requires i < |s.cycle.creates|
  {
    && row.importId.Some? && row.matched.None?
    && forall p :: IsCreate(s, i, p) && row.importId == Some(p.payload.importId) ==>
         Expected(s, i, p)
           == Some(CreateFacts(s.cycle.creates[i].budget, p, row.id, p.status, p.payload.amount, p.payload.payee))
  }

  ghost predicate RowRecorded(s: Setup, i: nat, row: Reported, t: Table)
  {
    forall p :: IsCreate(s, i, p) && row.importId == Some(p.payload.importId) ==> p.trackingKey in t
  }

  /** A step that only touches the table and the counters. */
  ghost predicate LocalStep(w: World, w': World) {
    w'.ledger == w.ledger && w'.script == w.script && w'.status == w.status && w'.now == w.now
  }

  lemma RecordRowKeeps(s: Setup, n: nat, i: nat, w: World, row: Reported)
    requires Retryable(s) && i < n && i < |s.cycle.creates| && CreatesOk(s, w.table, n) && GoodRow(s, i, row)
    ensures var batch := s.cycle.creates[i];
            var w' := RecordRow(w, s.cfg, batch.budget, batch.items, row);
            && LocalStep(w, w') && CreatesOk(s, w'.table, n) && OnlyCreatesAdded(s, w.table, w'.table)
            && RowRecorded(s, i, row, w'.table)
  {
    var batch := s.cycle.creates[i];
    var found := FindCreate(batch.items, row.importId.value);
    OrdinaryRowShape(w, s.cfg, batch.budget, batch.items, row);
    if found.Some? {
      var p := found.value;
      assert IsCreate(s, i, p) && p.secondary.None?;
      var facts := CreateFacts(batch.budget, p, row.id, p.status, p.payload.amount, PayeeOr(p.payload.payee, row.payee));
      assert NoPayee(Expected(s, i, p).value) == NoPayee(facts);
      hide Retryable, Expected, FindCreate, CreateFacts, CreatesOk, OnlyCreatesAdded, GoodRow, RecordRow, Upsert, NoPayee;
      UpsertExpected(s, i, p, w.table, facts, w.now, n);
      UpsertHas(w.table, p.trackingKey, facts, w.now);
      FoundIsRecorded(s, i, row, p, Upsert(w.table, p.trackingKey, facts, w.now));
    } else {
      hide Retryable, Expected, CreatesOk, GoodRow, RecordRow;
    }
  }

  lemma UpsertHas(t: Table, key: string, facts: Facts, now: int)
    ensures key in Upsert(t, key, facts, now)
  {
  }

  function OrdinaryRecord(w: World, budget: string, p: Create, row: Reported): World {
    CountCreated(Record(w, p.trackingKey, CreateFacts(budget, p, row.id, p.status, p.payload.amount,
                                                      PayeeOr(p.payload.payee, row.payee))))
  }

  lemma OrdinaryRowShape(w: World, cfg: Settings, budget: string, creates: seq<Create>, row: Reported)
    requires row.importId.Some? && row.matched.None?
    ensures var found := FindCreate(creates, row.importId.value);
            && (found.None? ==> RecordRow(w, cfg, budget, creates, row) == w)
            && (found.Some? && found.value.secondary.None? ==>
                  RecordRow(w, cfg, budget, creates, row) == OrdinaryRecord(w, budget, found.value, row))
  {
    hide FindCreate, CreateFacts, Upsert;
  }

  lemma FoundIsRecorded(s: Setup, i: nat, row: Reported, p: Create, t: Table)
    requires Retryable(s) && IsCreate(s, i, p) && row.importId == Some(p.payload.importId) && p.trackingKey in t
    ensures RowRecorded(s, i, row, t)
  {
    forall q | IsCreate(s, i, q) && row.importId == Some(q.payload.importId) ensures q.trackingKey in t {
      if q != p {
        CreatesAreDistinct(s, i, p, i, q);
      }
    }
  }

  lemma {:induction false} RecordCreatedKeeps(s: Setup, n: nat, i: nat, w: World, rows: seq<Reported>)
    requires Retryable(s) && i < n && i < |s.cycle.creates| && CreatesOk(s, w.table, n) && w.status == Running
    requires forall row :: row in rows ==> GoodRow(s, i, row)
    ensures var batch := s.cycle.creates[i];
            var w' := RecordCreated(w, s.cfg, batch.budget, batch.items, rows);
            && LocalStep(w, w') && CreatesOk(s, w'.table, n) && OnlyCreatesAdded(s, w.table, w'.table)
            && forall row :: row in rows ==> RowRecorded(s, i, row, w'.table)
    decreases |rows|
  {
    hide Retryable, CreatesOk, GoodRow, RecordRow, RowRecorded;
    if rows != [] {
      var batch := s.cycle.creates[i];
      assert rows[0] in rows;
      RecordRowKeeps(s, n, i, w, rows[0]);
      var w1 := RecordRow(w, s.cfg, batch.budget, batch.items, rows[0]);
      assert forall row :: row in rows[1..] ==> row in rows;
      RecordCreatedKeeps(s, n, i, w1, rows[1..]);
      var w' := RecordCreated(w1, s.cfg, batch.budget, batch.items, rows[1..]);
      AddedIsTransitive(s, w.table, w1.table, w'.table);
      RowStaysRecorded(s, i, rows[0], w1.table, w'.table);
      assert forall row :: row in rows ==> row == rows[0] || row in rows[1..];
    }
  }

  lemma RowStaysRecorded(s: Setup, i: nat, row: Reported, t: Table, t': Table)
    requires i < |s.cycle.creates| && OnlyCreatesAdded(s, t, t')
    ensures RowRecorded(s, i, row, t) ==> RowRecorded(s, i, row, t')
  {
  }

  /** The ledger shows every untracked create of batch i what it is expected to find. */
  ghost predicate Sees(s: Setup, t: Table, l: Ledger, i: nat)
    requires i < |s.cycle.creates|
  {
    forall p :: IsCreate(s, i, p) && p.trackingKey !in t ==>
      RecoveredAt(s.cfg, l, s.cycle.creates[i].budget, p) == Expected(s, i, p)
  }

  ghost predicate IdRecorded(s: Setup, i: nat, id: string, t: Table)
    requires i < |s.cycle.creates|
  {
    forall p :: IsCreate(s, i, p) && p.payload.importId == id ==> Recorded(s, t, i, p)
  }

  lemma ReadOnly(w: World)
    ensures Read(w).table == w.table && Read(w).ledger == w.ledger && Read(w).now == w.now
    ensures w.script == [] ==> Read(w).script == [] && Read(w).status == w.status
  {
  }

  /** What recovering a duplicate does, whatever the script. */
  lemma RecoverShape(w: World, cfg: Settings, budget: string, p: Create)
    requires w.status == Running
    ensures var w' := Recover(w, cfg, budget, p);
            var facts := RecoveredAt(cfg, w.ledger, budget, p);
            && w'.ledger == w.ledger
            && (w'.table == w.table || (facts.Some? && w'.table == Upsert(w.table, p.trackingKey, facts.value, w.now)))
            && (w'.status == Running && facts.Some? ==>
                w'.table == Upsert(w.table, p.trackingKey, facts.value, w.now))
            && (w.script == [] ==> w'.script == [] && w'.status == Running)
  {
    hide LookUp, LookUpGone, RecoveredFacts, DeletedFacts, Upsert, Read;
    ReadOnly(w);
    ReadOnly(Read(w));
  }

  lemma BackfillOneKeeps(s: Setup, n: nat, i: nat, w: World, id: string)
    requires Retryable(s) && i < n && i < |s.cycle.creates| && CreatesOk(s, w.table, n) && Sees(s, w.table, w.ledger, i)
    requires w.status == Running
    ensures var batch := s.cycle.creates[i];
            var w' := BackfillOne(w, s.cfg, batch.budget, batch.items, id);
            && w'.ledger == w.ledger && CreatesOk(s, w'.table, n) && OnlyCreatesAdded(s, w.table, w'.table)
            && (w'.status == Running ==> IdRecorded(s, i, id, w'.table))
            && (w.script == [] ==> w'.script == [] && w'.status == Running)
  {
    var batch := s.cycle.creates[i];
    var found := FindCreate(batch.items, id);
    if found.Some? {
      var p := found.value;
      assert IsCreate(s, i, p);
      forall q | IsCreate(s, i, q) && q.payload.importId == id ensures q == p {
        if q != p { CreatesAreDistinct(s, i, p, i, q); }
      }
      if p.trackingKey !in w.table {
        RecoverShape(w, s.cfg, batch.budget, p);
        hide Recover, Retryable, RecoveredAt;
        if Expected(s, i, p).Some? {
          UpsertExpected(s, i, p, w.table, Expected(s, i, p).value, w.now, n);
        }
      }
    }
  }

  lemma {:induction false} BackfillKeeps(s: Setup, n: nat, i: nat, w: World, ids: seq<string>)
    requires Retryable(s) && i < n && i < |s.cycle.creates| && CreatesOk(s, w.table, n) && Sees(s, w.table, w.ledger, i)
    ensures var batch := s.cycle.creates[i];
            var w' := Backfill(w, s.cfg, batch.budget, batch.items, ids);
            && w'.ledger == w.ledger && CreatesOk(s, w'.table, n) && OnlyCreatesAdded(s, w.table, w'.table)
            && (w'.status == Running ==> forall id :: id in ids ==> IdRecorded(s, i, id, w'.table))
            && (w.script == [] && w.status == Running ==> w'.script == [] && w'.status == Running)
    decreases |ids|
  {
    if ids != [] && w.status == Running {
      var batch := s.cycle.creates[i];
      BackfillOneKeeps(s, n, i, w, ids[0]);
      var w1 := BackfillOne(w, s.cfg, batch.budget, batch.items, ids[0]);
      BackfillKeeps(s, n, i, w1, ids[1..]);
      assert forall id :: id in ids ==> id == ids[0] || id in ids[1..];
    }
  }

  lemma AddedIsTransitive(s: Setup, t0: Table, t1: Table, t2: Table)
    requires OnlyCreatesAdded(s, t0, t1) && OnlyCreatesAdded(s, t1, t2)
    ensures OnlyCreatesAdded(s, t0, t2)
  {
    forall k | !CreateKey(s, k) ensures SameAt(t0, t2, k) {
      assert SameAt(t0, t1, k) && SameAt(t1, t2, k);
    }
  }

  /** Recording a response, then backfilling its duplicates. */
  ghost function Digest(s: Setup, i: nat, w: World, r: Response): World
    requires i < |s.cycle.creates|
  {
    var batch := s.cycle.creates[i];
    var recorded := RecordCreated(w, s.cfg, batch.budget, batch.items, r.rows);
    if recorded.status != Running then recorded
    else Backfill(CountDuplicates(recorded, |r.duplicates|), s.cfg, batch.budget, batch.items, r.duplicates)
  }

  lemma DigestKeeps(s: Setup, n: nat, i: nat, w: World, r: Response)
    requires Retryable(s) && i < n && i < |s.cycle.creates| && w.status == Running
    requires CreatesOk(s, w.table, n) && Sees(s, w.table, w.ledger, i)
    requires forall row :: row in r.rows ==> GoodRow(s, i, row)
    requires forall p :: IsCreate(s, i, p) ==> Answers(r, p.payload.importId)
    ensures var w' := Digest(s, i, w, r);
            && w'.ledger == w.ledger && CreatesOk(s, w'.table, n) && OnlyCreatesAdded(s, w.table, w'.table)
            && (w'.status == Running ==> BatchRecorded(s, w'.table, i))
            && (w.script == [] ==> w'.script == [] && w'.status == Running)
  {
    var batch := s.cycle.creates[i];
    RecordCreatedKeeps(s, n, i, w, r.rows);
    var w1 := RecordCreated(w, s.cfg, batch.budget, batch.items, r.rows);
    var w2 := CountDuplicates(w1, |r.duplicates|);
    BackfillKeeps(s, n, i, w2, r.duplicates);
    var w' := Backfill(w2, s.cfg, batch.budget, batch.items, r.duplicates);
    hide Retryable, CreatesOk, RecordCreated, Backfill, Expected, Sees;
    AddedIsTransitive(s, w.table, w1.table, w'.table);
    if w'.status == Running {
      forall p | IsCreate(s, i, p) ensures Recorded(s, w'.table, i, p) {
        assert Answers(r, p.payload.importId);
        if p.payload.importId in r.duplicates {
          assert IdRecorded(s, i, p.payload.importId, w'.table);
        } else {
          var row :| row in r.rows && row.importId == Some(p.payload.importId);
          assert RowRecorded(s, i, row, w1.table);
        }
      }
    }
  }

  lemma WriteShape(w: World, l: Ledger)
    ensures Write(w, l).table == w.table && Write(w, l).now == w.now
    ensures Write(w, l).ledger == l || (Write(w, l).ledger == w.ledger && Write(w, l).status == CallFailed)
    ensures Write(w, l).status == w.status || Write(w, l).status == CallFailed
    ensures w.script == [] ==> Write(w, l).script == [] && Write(w, l).status == w.status
  {
  }

  /** What the rows of a freshly created batch stand for. */
  lemma FreshRowsAreGood(s: Setup, i: nat, r: Response)
    requires Retryable(s) && i < |s.cycle.creates|
    requires var batch := s.cycle.creates[i];
             OrdinaryCreation(LedgerAfter(s, i), batch.budget, Payloads(batch.items), LedgerAfter(s, i + 1), r)
    ensures forall row :: row in r.rows ==> GoodRow(s, i, row)
    ensures forall p :: IsCreate(s, i, p) ==> Answers(r, p.payload.importId)
  {
    var batch := s.cycle.creates[i];
    var l, l', ps := LedgerAfter(s, i), LedgerAfter(s, i + 1), Payloads(batch.items);
    BatchIsOrdinary(s, i);
    hide LedgerAfter, Retryable, Expected, Payloads;
    forall row | row in r.rows ensures GoodRow(s, i, row) {
      assert OrdinaryRow(l, l', batch.budget, ps, row);
      var q :| q in ps && row.importId == Some(q.importId) && l'[row.id] == NewTxn(batch.budget, q, None);
      var p :| IsCreate(s, i, p) && p.payload == q;
      FreshIsExpected(s, i, p, row.id);
      forall p' | IsCreate(s, i, p') && row.importId == Some(p'.payload.importId)
        ensures p' == p
      {
        if p' != p { CreatesAreDistinct(s, i, p, i, p'); }
      }
    }
  }

  /** A stage of the creates: n batches are in the ledger; if corrections have begun, all of them are recorded. */
  ghost predicate Stage(s: Setup, t: Table, l: Ledger, n: nat) {
    && n <= |s.cycle.creates| && CreatesOk(s, t, n)
    && (l == LedgerAfter(s, n) || (n == |s.cycle.creates| && Corrected(l, Full(s)) && AllRecorded(s, t)))
  }

  /** The same transactions, up to the two fields that a correction edits. */
  ghost predicate Corrected(l: Ledger, l0: Ledger) {
    |l| == |l0| && forall id :: 0 <= id < |l| ==> SameButCorrection(l[id], l0[id])
  }

  ghost predicate SameButCorrection(t: Txn, t': Txn) {
    t.(amount := 0, cleared := Cleared) == t'.(amount := 0, cleared := Cleared)
  }

  lemma CorrectedLookup(l: Ledger, l0: Ledger, keep: Txn -> bool)
    requires Corrected(l, l0)
    requires forall t, t' :: SameButCorrection(t, t') ==> keep(t) == keep(t')
    ensures FirstIndex(l, keep) == FirstIndex(l0, keep)
  {
    assert forall id :: 0 <= id < |l| ==> SameButCorrection(l[id], l0[id]);
    var found := FirstIndex(l0, keep);
    if found.Some? {
      FirstIndexIs(l, keep, found.value);
    } else {
      FirstIndexNone(l, keep);
    }
  }

  /** Corrections change neither whether a create can be found nor whether it is deleted. */
  lemma CorrectedRecovery(cfg: Settings, l: Ledger, l0: Ledger, budget: string, p: Create)
    requires Corrected(l, l0)
    ensures RecoveredAt(cfg, l, budget, p).None? <==> RecoveredAt(cfg, l0, budget, p).None?
  {
    CorrectedLookUp(cfg, l, l0, budget, p);
    CorrectedLookUpGone(cfg, l, l0, budget, p);
    hide LookUp, LookUpGone, Corrected, RecoveredFacts, DeletedFacts;
  }

  lemma CorrectedLookUp(cfg: Settings, l: Ledger, l0: Ledger, budget: string, p: Create)
    requires Corrected(l, l0)
    ensures LookUp(l, cfg, budget, p) == LookUp(l0, cfg, budget, p)
  {
    var since := DateWindow.SinceDateBound(p.payload.date, cfg.backfillDays);
    CorrectedLookup(l, l0, ListedUnder(budget, p.payload.account, p.payload.importId, since, cfg.shadowsListed));
    hide FirstIndex, Corrected;
  }

  lemma CorrectedLookUpGone(cfg: Settings, l: Ledger, l0: Ledger, budget: string, p: Create)
    requires Corrected(l, l0)
    ensures LookUpGone(l, cfg, budget, p) == LookUpGone(l0, cfg, budget, p)
  {
    var since := DateWindow.SinceDateBound(p.payload.date, cfg.backfillDays);
    CorrectedLookup(l, l0, HeldSince(budget, p.payload.importId, since));
    var gone := FindIncludingDeleted(l0, budget, p.payload.importId, since);
    assert gone.Some? ==> SameButCorrection(l[gone.value], l0[gone.value]);
    hide FirstIndex, HeldSince;
  }

  lemma CorrectedBurned(l: Ledger, l0: Ledger, budget: string, id: string)
    requires Corrected(l, l0) && Burned(l0, budget, id)
    ensures Burned(l, budget, id)
  {
    var i :| 0 <= i < |l0| && Holds(l0[i], budget, id);
    assert SameButCorrection(l[i], l0[i]);
    assert Holds(l[i], budget, id);
  }

  /** At a stage past batch i, that batch is already in the ledger and its untracked creates look up as expected. */
  lemma PastBatch(s: Setup, t: Table, l: Ledger, n: nat, i: nat)
    requires Retryable(s) && Stage(s, t, l, n) && i < n
    ensures Sees(s, t, l, i)
    ensures forall p :: p in Payloads(s.cycle.creates[i].items) ==>
        Burned(l, s.cycle.creates[i].budget, p.importId)
  {
    var budget := s.cycle.creates[i].budget;
    BatchIsOrdinary(s, i);
    LedgerGrows(s, n, n);
    hide Retryable, LedgerAfter, RecoveredAt, Burned, CreatesOk, UniqueIds, Payloads, Corrected;
    forall p | IsCreate(s, i, p)
      ensures Burned(l, budget, p.payload.importId)
      ensures p.trackingKey !in t ==> RecoveredAt(s.cfg, l, budget, p) == Expected(s, i, p)
    {
      assert Burned(LedgerAfter(s, n), budget, p.payload.importId);
      ExpectedStable(s, i, p, n);
      if l != LedgerAfter(s, n) {
        CorrectedRecovery(s.cfg, l, Full(s), budget, p);
        CorrectedBurned(l, Full(s), budget, p.payload.importId);
        assert Recorded(s, t, i, p);
      }
    }
  }

  lemma AddingKeepsStage(s: Setup, t: Table, t': Table, l: Ledger, n: nat)
    requires Stage(s, t, l, n) && CreatesOk(s, t', n) && OnlyCreatesAdded(s, t, t')
    ensures Stage(s, t', l, n)
  {
    if AllRecorded(s, t) {
      forall i: nat, p | IsCreate(s, i, p) ensures Recorded(s, t', i, p) {
        assert Recorded(s, t, i, p);
      }
    }
  }

  lemma ReturnedBatch(s: Setup, w: World, n: nat, i: nat)
    requires Retryable(s) && w.status == Running && Stage(s, w.table, w.ledger, n) && i < n
    ensures var w' := SubmitCreates(w, s.cfg, s.cycle.creates[i]);
            && w'.ledger == w.ledger && Stage(s, w'.table, w.ledger, n) && OnlyCreatesAdded(s, w.table, w'.table)
            && (w'.status == Running ==> BatchRecorded(s, w'.table, i))
            && (w.script == [] ==> w'.script == [] && w'.status == Running)
  {
    var batch := s.cycle.creates[i];
    var ps := Payloads(batch.items);
    PastBatch(s, w.table, w.ledger, n, i);
    ResubmittedBatch(w.ledger, s.cfg.native, batch.budget, ps);
    var r := Response([], SubmittedIds(ps));
    var (posted, response) := PostCreates(w, s.cfg, batch.budget, ps);
    assert ps == [] ==> SubmittedIds(ps) == [];
    assert response == r;
    WriteShape(w, w.ledger);
    BatchIsOrdinary(s, i);
    forall p | IsCreate(s, i, p) ensures Answers(r, p.payload.importId) {
      var k :| 0 <= k < |ps| && ps[k] == p.payload;
      assert SubmittedIds(ps)[k] == p.payload.importId;
    }
    hide Retryable, Write, CreatesOk, Sees, CreateAll;
    if posted.status == Running {
      DigestKeeps(s, n, i, posted, r);
      AddingKeepsStage(s, w.table, Digest(s, i, posted, r).table, w.ledger, n);
    }
  }

  /** YNAB's answer to the next batch, which no earlier attempt has delivered. */
  lemma NextResponse(s: Setup, i: nat) returns (r: Response)
    requires Retryable(s) && i < |s.cycle.creates|
    ensures var batch := s.cycle.creates[i];
            CreateAll(LedgerAfter(s, i), s.cfg.native, batch.budget, Payloads(batch.items)) == (LedgerAfter(s, i + 1), r)
    ensures Payloads(s.cycle.creates[i].items) == [] ==> r == Response([], [])
    ensures forall row :: row in r.rows ==> GoodRow(s, i, row)
    ensures forall p :: IsCreate(s, i, p) ==> Answers(r, p.payload.importId)
  {
    var batch := s.cycle.creates[i];
    BatchIsOrdinary(s, i);
    CreateAllOrdinary(LedgerAfter(s, i), s.cfg.native, batch.budget, Payloads(batch.items));
    r := CreateAll(LedgerAfter(s, i), s.cfg.native, batch.budget, Payloads(batch.items)).1;
    FreshRowsAreGood(s, i, r);
  }

  lemma SeesOwnBatch(s: Setup, t: Table, i: nat)
    requires Retryable(s) && i < |s.cycle.creates|
    ensures Sees(s, t, LedgerAfter(s, i + 1), i)
  {
    hide Retryable, RecoveredAt, LedgerAfter;
    forall p | IsCreate(s, i, p) { ExpectedStable(s, i, p, i + 1); }
  }

  lemma NextBatchStep(s: Setup, w: World, i: nat) returns (n: nat)
    requires Retryable(s) && w.status == Running && i < |s.cycle.creates| && Stage(s, w.table, w.ledger, i)
    ensures var w' := SubmitCreates(w, s.cfg, s.cycle.creates[i]);
            && i <= n && Stage(s, w'.table, w'.ledger, n) && OnlyCreatesAdded(s, w.table, w'.table)
            && w'.ledger == LedgerAfter(s, n)
            && (w'.status == Running ==> n == i + 1 && BatchRecorded(s, w'.table, i))
            && (w.script == [] ==> w'.script == [] && w'.status == Running)
  {
    var batch, l' := s.cycle.creates[i], LedgerAfter(s, i + 1);
    var r := NextResponse(s, i);
    LaterStage(s, w.table, i);
    SeesOwnBatch(s, w.table, i);
    WriteShape(w, l');
    hide Retryable, Write, CreatesOk, CreateAll, LedgerAfter, RecoveredAt, GoodRow, Sees, Payloads, Digest;
    var (posted, response) := PostCreates(w, s.cfg, batch.budget, Payloads(batch.items));
    assert response == r;
    n := if posted.ledger == l' then i + 1 else i;
    if posted.status == Running {
      assert posted.ledger == l';
      DigestKeeps(s, i + 1, i, posted, r);
      DigestIsRest(s, i, w, posted, r);
    }
  }

  lemma DigestIsRest(s: Setup, i: nat, w: World, posted: World, r: Response)
    requires i < |s.cycle.creates| && posted.status == Running
    requires var batch := s.cycle.creates[i];
             PostCreates(w, s.cfg, batch.budget, Payloads(batch.items)) == (posted, r)
    ensures SubmitCreates(w, s.cfg, s.cycle.creates[i]) == Digest(s, i, posted, r)
  {
    hide PostCreates, RecordCreated, Backfill;
  }

  lemma LaterStage(s: Setup, t: Table, n: nat)
    requires CreatesOk(s, t, n)
    ensures CreatesOk(s, t, n + 1)
  {
  }

  ghost predicate RecordedFrom(s: Setup, t: Table, n: nat) {
    forall i: nat, p :: IsCreate(s, i, p) && n <= i ==> Recorded(s, t, i, p)
  }

  lemma {:induction false} CreatesPhaseKeeps(s: Setup, w: World, n: nat, i: nat) returns (n': nat)
    requires Retryable(s) && Stage(s, w.table, w.ledger, n) && i <= |s.cycle.creates|
    requires w.status == Running ==> i <= n
    ensures var w' := CreatesPhase(w, s.cfg, s.cycle.creates[i..]);
            && n <= n' && Stage(s, w'.table, w'.ledger, n') && OnlyCreatesAdded(s, w.table, w'.table)
            && (n == |s.cycle.creates| ==> n' == n && w'.ledger == w.ledger)
            && (w.ledger == LedgerAfter(s, n) ==> w'.ledger == LedgerAfter(s, n'))
            && (w'.status == Running ==> n' == |s.cycle.creates| && RecordedFrom(s, w'.table, i))
            && (w.script == [] && w.status == Running ==> w'.script == [] && w'.status == Running)
    decreases |s.cycle.creates| - i
  {
    var rest := s.cycle.creates[i..];
    if rest == [] || w.status != Running {
      n' := n;
    } else {
      assert rest[0] == s.cycle.creates[i] && rest[1..] == s.cycle.creates[i + 1..];
      var w1 := SubmitCreates(w, s.cfg, s.cycle.creates[i]);
      var n1 := n;
      if i < n {
        ReturnedBatch(s, w, n, i);
      } else {
        n1 := NextBatchStep(s, w, i);
      }
      n' := CreatesPhaseKeeps(s, w1, n1, i + 1);
      hide Retryable, Stage, SubmitCreates, LedgerAfter;
      var w' := CreatesPhase(w1, s.cfg, s.cycle.creates[i + 1..]);
      AddedIsTransitive(s, w.table, w1.table, w'.table);
      if w'.status == Running {
        HaltedStays(w1, s.cfg, s.cycle.creates[i + 1..]);
        RecordedBatches(s, w1.table, w'.table, i);
      }
    }
  }

  lemma HaltedStays(w: World, cfg: Settings, batches: seq<Batch<Create>>)
    ensures w.status != Running ==> CreatesPhase(w, cfg, batches) == w
  {
  }

  lemma RecordedBatches(s: Setup, t: Table, t': Table, i: nat)
    requires BatchRecorded(s, t, i) && OnlyCreatesAdded(s, t, t') && RecordedFrom(s, t', i + 1)
    ensures RecordedFrom(s, t', i)
  {
    forall j: nat, p | IsCreate(s, j, p) && i <= j ensures Recorded(s, t', j, p) {
      if i == j { assert Recorded(s, t, i, p); }
    }
  }

  // --- the corrections phase ---------------------------------------------------------------------

  ghost function PatchedTxn(t: Txn, c: Correction): Txn {
    t.(amount := Money.ToMilliunits(c.newAmount), cleared := Cleared)
  }

  ghost predicate Untouched(s: Setup, t: Table, c: Correction) {
    && c.oldKey in s.table0 && c.oldKey in t && t[c.oldKey] == s.table0[c.oldKey]
    && (c.FuzzyUpdate? ==> c.newKey !in t)
  }

  /** The corrected row, under its own key or its new one. */
  ghost predicate RowDone(s: Setup, t: Table, c: Correction) {
    && c.oldKey in s.table0
    && var key := if c.FuzzyUpdate? then c.newKey else c.oldKey;
       && key in t && t[key] == Settled(s.table0[c.oldKey], c.newAmount)
       && (c.FuzzyUpdate? ==> c.oldKey !in t)
  }

  ghost predicate TxnDone(s: Setup, l: Ledger, c: Correction) {
    c.txnId < |l| && c.txnId < |Full(s)| && l[c.txnId] == PatchedTxn(Full(s)[c.txnId], c)
  }

  ghost predicate Done(s: Setup, t: Table, l: Ledger, c: Correction) {
    RowDone(s, t, c) && TxnDone(s, l, c)
  }

  ghost predicate CorrectionKey(s: Setup, k: string) {
    exists c :: IsCorrection(s, c) && (c.oldKey == k || (c.FuzzyUpdate? && c.newKey == k))
  }

  ghost predicate OthersSame(s: Setup, t: Table) {
    forall k :: !CreateKey(s, k) && !CorrectionKey(s, k) ==> SameAt(s.table0, t, k)
  }

  /** The full ledger, some of its transactions corrected. */
  ghost predicate PartlyPatched(s: Setup, l: Ledger) {
    && |l| == |Full(s)|
    && forall id :: 0 <= id < |l| ==> l[id] == Full(s)[id] || exists c :: IsCorrection(s, c) && c.txnId == id && TxnDone(s, l, c)
  }

  ghost predicate NoneTouched(s: Setup, t: Table) {
    forall c :: IsCorrection(s, c) ==> Untouched(s, t, c)
  }

  ghost predicate EachTouchedOrDone(s: Setup, t: Table, l: Ledger) {
    forall c :: IsCorrection(s, c) ==> Untouched(s, t, c) || Done(s, t, l, c)
  }

  /** All creates are in and recorded; each correction is untouched or done. */
  ghost predicate Correcting(s: Setup, t: Table, l: Ledger) {
    && CreatesOk(s, t, |s.cycle.creates|) && AllRecorded(s, t) && OthersSame(s, t)
    && PartlyPatched(s, l) && EachTouchedOrDone(s, t, l)
  }

  /** What any number of aborted attempts can leave behind. */
  ghost predicate Reachable(s: Setup, t: Table, l: Ledger) {
    || (exists n: nat :: n <= |s.cycle.creates| && l == LedgerAfter(s, n) && CreatesOk(s, t, n) && OthersSame(s, t)
                         && NoneTouched(s, t))
    || Correcting(s, t, l)
  }

  lemma CorrectionKeysAreOld(s: Setup, c: Correction)
    requires Retryable(s) && IsCorrection(s, c)
    ensures c.oldKey in s.table0 && !CreateKey(s, c.oldKey)
    ensures c.FuzzyUpdate? ==> c.newKey !in s.table0 && !CreateKey(s, c.newKey)
  {
  }

  lemma AddingKeepsCorrections(s: Setup, t: Table, t': Table, l: Ledger)
    requires Retryable(s) && OnlyCreatesAdded(s, t, t')
    ensures OthersSame(s, t) ==> OthersSame(s, t')
    ensures NoneTouched(s, t) ==> NoneTouched(s, t')
    ensures EachTouchedOrDone(s, t, l) ==> EachTouchedOrDone(s, t', l)
  {
    hide Retryable, CreateKey, TxnDone;
    if OthersSame(s, t) {
      forall k | !CreateKey(s, k) && !CorrectionKey(s, k) ensures SameAt(s.table0, t', k) {
        assert SameAt(t, t', k);
      }
    }
    forall c | IsCorrection(s, c)
      ensures Untouched(s, t, c) ==> Untouched(s, t', c)
      ensures RowDone(s, t, c) ==> RowDone(s, t', c)
    {
      CorrectionKeysAreOld(s, c);
      assert SameAt(t, t', c.oldKey);
      if c.FuzzyUpdate? {
        assert SameAt(t, t', c.newKey);
      }
    }
  }

  lemma PartlyPatchedIsCorrected(s: Setup, l: Ledger)
    requires PartlyPatched(s, l)
    ensures Corrected(l, Full(s))
  {
    forall id | 0 <= id < |l| ensures SameButCorrection(l[id], Full(s)[id]) {
      if l[id] != Full(s)[id] {
        var c :| IsCorrection(s, c) && c.txnId == id && TxnDone(s, l, c);
      }
    }
  }

  lemma CreatesPhaseReaches(s: Setup, w: World)
    requires Retryable(s) && w.status == Running && Reachable(s, w.table, w.ledger)
    ensures var w' := CreatesPhase(w, s.cfg, s.cycle.creates);
            && Reachable(s, w'.table, w'.ledger) && (w'.status == Running ==> Correcting(s, w'.table, w'.ledger))
            && (w.script == [] ==> w'.script == [] && w'.status == Running)
  {
    var all := |s.cycle.creates|;
    assert s.cycle.creates[0..] == s.cycle.creates;
    var w' := CreatesPhase(w, s.cfg, s.cycle.creates);
    if Correcting(s, w.table, w.ledger) {
      PartlyPatchedIsCorrected(s, w.ledger);
      var n' := CreatesPhaseKeeps(s, w, all, 0);
      AddingKeepsCorrections(s, w.table, w'.table, w.ledger);
      hide Retryable, CreatesPhase;
      AddingKeepsStage(s, w.table, w'.table, w.ledger, all);
      AddingKeepsRecorded(s, w.table, w'.table);
    } else {
      var n: nat :| n <= all && w.ledger == LedgerAfter(s, n) && CreatesOk(s, w.table, n) && OthersSame(s, w.table)
        && NoneTouched(s, w.table);
      var n' := CreatesPhaseKeeps(s, w, n, 0);
      AddingKeepsCorrections(s, w.table, w'.table, w.ledger);
      hide Retryable, CreatesPhase;
      if w'.status == Running {
        assert EachTouchedOrDone(s, w'.table, w'.ledger);
        FromZeroIsAll(s, w'.table);
      }
    }
  }

  lemma AddingKeepsRecorded(s: Setup, t: Table, t': Table)
    requires AllRecorded(s, t) && OnlyCreatesAdded(s, t, t')
    ensures AllRecorded(s, t')
  {
    forall i: nat, p | IsCreate(s, i, p) ensures Recorded(s, t', i, p) {
      assert Recorded(s, t, i, p);
    }
  }

  lemma FromZeroIsAll(s: Setup, t: Table)
    requires RecordedFrom(s, t, 0)
    ensures AllRecorded(s, t)
  {
  }

  /** A correction's target stays alive and inside the listing's window. */
  lemma TargetStaysAlive(s: Setup, l: Ledger, c: Correction)
    requires Retryable(s) && PartlyPatched(s, l) && IsCorrection(s, c)
    ensures ListedAlive(l, c.budget, c.txnId, Some(c.date - s.cfg.backfillDays))
  {
    LedgerGrows(s, 0, |s.cycle.creates|);
    PartlyPatchedIsCorrected(s, l);
    assert ListedAlive(s.ledger0, c.budget, c.txnId, Some(c.date - s.cfg.backfillDays));
    assert Full(s)[c.txnId] == s.ledger0[c.txnId];
    assert SameButCorrection(l[c.txnId], Full(s)[c.txnId]);
  }

  lemma CorrectionsAreDistinct(s: Setup, c: Correction, d: Correction)
    requires Retryable(s) && IsCorrection(s, c) && IsCorrection(s, d) && c != d
    ensures c.oldKey != d.oldKey && c.txnId != d.txnId
    ensures c.FuzzyUpdate? && d.FuzzyUpdate? ==> c.newKey != d.newKey
  {
  }

  ghost predicate DoneStays(s: Setup, t: Table, l: Ledger, t': Table, l': Ledger) {
    forall d :: IsCorrection(s, d) && Done(s, t, l, d) ==> Done(s, t', l', d)
  }

  ghost function PatchFor(l: Ledger, c: Correction): Ledger {
    Patch(l, c.budget, c.txnId, Some(Money.ToMilliunits(c.newAmount)), Cleared)
  }

  lemma PatchShape(s: Setup, l: Ledger, c: Correction)
    requires Corrected(l, Full(s)) && CanPatch(l, c.budget, c.txnId)
    ensures var l' := PatchFor(l, c);
            && |l'| == |l| && TxnDone(s, l', c)
            && forall id :: 0 <= id < |l| && id != c.txnId ==> l'[id] == l[id]
  {
    hide Money.ToMilliunits, LedgerAfter;
    assert SameButCorrection(l[c.txnId], Full(s)[c.txnId]);
  }

  lemma PatchKeepsOthers(s: Setup, l: Ledger, l': Ledger, c: Correction)
    requires Retryable(s) && PartlyPatched(s, l) && IsCorrection(s, c) && TxnDone(s, l', c) && |l'| == |l|
    requires forall id :: 0 <= id < |l| && id != c.txnId ==> l'[id] == l[id]
    ensures PartlyPatched(s, l')
    ensures forall d :: IsCorrection(s, d) && TxnDone(s, l, d) ==> TxnDone(s, l', d)
  {
    hide Retryable, PatchedTxn, LedgerAfter;
    forall d | IsCorrection(s, d) && TxnDone(s, l, d) ensures TxnDone(s, l', d) {
      if d != c { CorrectionsAreDistinct(s, c, d); }
    }
    forall id | 0 <= id < |l'|
      ensures l'[id] == Full(s)[id] || exists d :: IsCorrection(s, d) && d.txnId == id && TxnDone(s, l', d)
    {
      if id != c.txnId && l[id] != Full(s)[id] {
        var d :| IsCorrection(s, d) && d.txnId == id && TxnDone(s, l, d);
        assert TxnDone(s, l', d);
      }
    }
  }

  /** The PATCH of one correction, whether or not its answer arrives. */
  lemma PatchKeeps(s: Setup, t: Table, l: Ledger, c: Correction)
    requires Retryable(s) && Correcting(s, t, l) && IsCorrection(s, c)
    ensures var l' := PatchFor(l, c); Correcting(s, t, l') && TxnDone(s, l', c) && DoneStays(s, t, l, t, l')
  {
    TargetStaysAlive(s, l, c);
    PartlyPatchedIsCorrected(s, l);
    PatchShape(s, l, c);
    PatchKeepsOthers(s, l, PatchFor(l, c), c);
    hide Retryable, PatchFor, TxnDone, PartlyPatched, CreatesOk, AllRecorded, OthersSame, RowDone, Untouched;
  }

  /** Settling one correction's row, first time or again. */
  lemma SettleKeeps(s: Setup, w: World, c: Correction)
    requires Retryable(s) && Correcting(s, w.table, w.ledger) && IsCorrection(s, c) && TxnDone(s, w.ledger, c)
    requires w.status == Running
    ensures var w' := Settle(w, c);
            && w'.status == Running && w'.ledger == w.ledger && w'.script == w.script
            && RowDone(s, w'.table, c)
            && (forall k :: k != c.oldKey && (c.FuzzyUpdate? ==> k != c.newKey) ==> SameAt(w.table, w'.table, k))
  {
    hide Retryable, Money.ToMilliunits, CreatesOk, AllRecorded, OthersSame, LedgerAfter, PartlyPatched;
    CorrectionKeysAreOld(s, c);
    assert Untouched(s, w.table, c) || Done(s, w.table, w.ledger, c);
  }

  lemma SettledKeepsCorrecting(s: Setup, t: Table, t': Table, l: Ledger, c: Correction)
    requires Retryable(s) && Correcting(s, t, l) && IsCorrection(s, c) && RowDone(s, t', c) && TxnDone(s, l, c)
    requires forall k :: k != c.oldKey && (c.FuzzyUpdate? ==> k != c.newKey) ==> SameAt(t, t', k)
    ensures Correcting(s, t', l) && Done(s, t', l, c) && DoneStays(s, t, l, t', l)
  {
    hide Retryable, Settled, Expected, RowIs, TxnDone, PartlyPatched, CreateKey;
    CorrectionKeysAreOld(s, c);
    forall d | IsCorrection(s, d) && d != c
      ensures Untouched(s, t, d) ==> Untouched(s, t', d)
      ensures RowDone(s, t, d) ==> RowDone(s, t', d)
    {
      CorrectionsAreDistinct(s, c, d);
      CorrectionKeysAreOld(s, d);
      assert SameAt(t, t', d.oldKey);
      if d.FuzzyUpdate? { assert SameAt(t, t', d.newKey); }
    }
    assert CorrectionKey(s, c.oldKey) && (c.FuzzyUpdate? ==> CorrectionKey(s, c.newKey));
    forall k | !CreateKey(s, k) && !CorrectionKey(s, k) ensures SameAt(s.table0, t', k) {
      assert SameAt(t, t', k);
    }
    forall i: nat, p | IsCreate(s, i, p) ensures SameAt(t, t', p.trackingKey) {
      IsCreateKey(s, i, p);
    }
    CreatesUnaffected(s, t, t');
  }

  lemma IsCreateKey(s: Setup, i: nat, p: Create)
    requires IsCreate(s, i, p)
    ensures CreateKey(s, p.trackingKey)
  {
  }

  lemma CreatesUnaffected(s: Setup, t: Table, t': Table)
    requires forall i: nat, p :: IsCreate(s, i, p) ==> SameAt(t, t', p.trackingKey)
    requires CreatesOk(s, t, |s.cycle.creates|) && AllRecorded(s, t)
    ensures CreatesOk(s, t', |s.cycle.creates|) && AllRecorded(s, t')
  {
    forall i: nat, p | IsCreate(s, i, p) ensures Recorded(s, t', i, p) {
      assert Recorded(s, t, i, p);
    }
  }

  lemma CorrectKeeps(s: Setup, w: World, snapshot: Ledger, since: Option<int>, c: Correction)
    requires Retryable(s) && Correcting(s, w.table, w.ledger) && w.status == Running && IsCorrection(s, c)
    requires ListedAlive(snapshot, c.budget, c.txnId, since)
    ensures var w' := Correct(w, c.budget, snapshot, since, c);
            && Correcting(s, w'.table, w'.ledger) && DoneStays(s, w.table, w.ledger, w'.table, w'.ledger)
            && (w'.status == Running ==> Done(s, w'.table, w'.ledger, c))
            && (w.script == [] ==> w'.script == [] && w'.status == Running)
  {
    var l' := PatchFor(w.ledger, c);
    TargetStaysAlive(s, w.ledger, c);
    CorrectShape(w, snapshot, since, c);
    PatchKeeps(s, w.table, w.ledger, c);
    WriteShape(w, l');
    var patched := Write(w, l');
    hide Retryable, Correcting, Correct, Write, Patch, Settle, Done, Money.ToMilliunits;
    if patched.status == Running {
      SettleKeeps(s, patched, c);
      var w' := Settle(patched, c);
      SettledKeepsCorrecting(s, w.table, w'.table, l', c);
    }
  }

  /** A correction of a live target patches and settles, unless the PATCH is answered with a 400. */
  lemma CorrectShape(w: World, snapshot: Ledger, since: Option<int>, c: Correction)
    requires ListedAlive(snapshot, c.budget, c.txnId, since) && CanPatch(w.ledger, c.budget, c.txnId)
    ensures var patched := Write(w, PatchFor(w.ledger, c));
            Correct(w, c.budget, snapshot, since, c)
            == if NextFault(w) == BadRequest then Halt(Consume(w), NeedsRecovery)
               else if patched.status != Running then patched else Settle(patched, c)
  {
    hide Write, Patch, Settle, Money.ToMilliunits;
  }

  lemma {:induction false} CorrectAllKeeps(s: Setup, w: World, budget: string, snapshot: Ledger, since: Option<int>,
                                           cs: seq<Correction>)
    requires Retryable(s) && Correcting(s, w.table, w.ledger)
    requires forall c :: c in cs ==> IsCorrection(s, c) && c.budget == budget && ListedAlive(snapshot, budget, c.txnId, since)
    ensures var w' := CorrectAll(w, budget, snapshot, since, cs);
            && Correcting(s, w'.table, w'.ledger) && DoneStays(s, w.table, w.ledger, w'.table, w'.ledger)
            && (w'.status == Running ==> forall c :: c in cs ==> Done(s, w'.table, w'.ledger, c))
            && (w.script == [] && w.status == Running ==> w'.script == [] && w'.status == Running)
    decreases |cs|
  {
    hide Retryable, Correcting, Correct, Done;
    if cs != [] && w.status == Running {
      assert cs[0] in cs;
      CorrectKeeps(s, w, snapshot, since, cs[0]);
      var w1 := Correct(w, budget, snapshot, since, cs[0]);
      CorrectAllKeeps(s, w1, budget, snapshot, since, cs[1..]);
      HaltedCorrections(w1, budget, snapshot, since, cs[1..]);
      assert forall c :: c in cs ==> c == cs[0] || c in cs[1..];
    }
  }

  lemma HaltedCorrections(w: World, budget: string, snapshot: Ledger, since: Option<int>, cs: seq<Correction>)
    ensures w.status != Running ==> CorrectAll(w, budget, snapshot, since, cs) == w
  {
  }

  lemma CorrectBudgetKeeps(s: Setup, w: World, budget: string)
    requires Retryable(s) && Correcting(s, w.table, w.ledger) && w.status == Running
    ensures var w' := CorrectBudget(w, s.cfg, s.cycle, budget);
            && Correcting(s, w'.table, w'.ledger) && DoneStays(s, w.table, w.ledger, w'.table, w'.ledger)
            && (w'.status == Running ==>
                forall c :: c in CorrectionsOf(s.cycle, budget) ==> Done(s, w'.table, w'.ledger, c))
            && (w.script == [] ==> w'.script == [] && w'.status == Running)
  {
    var cs := CorrectionsOf(s.cycle, budget);
    var since := SinceOf(s.cfg, cs);
    ReadOnly(w);
    CorrectionsBelong(s, budget);
    forall c | c in cs ensures ListedAlive(w.ledger, budget, c.txnId, since) {
      TargetStaysAlive(s, w.ledger, c);
    }
    hide Retryable, Correcting, Done, CorrectionsOf, Read;
    CorrectAllKeeps(s, Read(w), budget, w.ledger, since, cs);
  }

  lemma CorrectionsBelong(s: Setup, budget: string)
    requires Retryable(s)
    ensures forall c :: c in CorrectionsOf(s.cycle, budget) ==> IsCorrection(s, c) && c.budget == budget
  {
  }

  lemma {:induction false} CorrectionsPhaseKeeps(s: Setup, w: World, budgets: seq<string>)
    requires Retryable(s) && Correcting(s, w.table, w.ledger)
    ensures var w' := CorrectionsPhase(w, s.cfg, s.cycle, budgets);
            && Correcting(s, w'.table, w'.ledger) && DoneStays(s, w.table, w.ledger, w'.table, w'.ledger)
            && (w'.status == Running ==> forall b, c :: b in budgets && c in CorrectionsOf(s.cycle, b) ==>
                  Done(s, w'.table, w'.ledger, c))
            && (w.script == [] && w.status == Running ==> w'.script == [] && w'.status == Running)
    decreases |budgets|
  {
    hide Retryable, Correcting, Done, CorrectionsOf, CorrectBudget;
    if budgets != [] && w.status == Running {
      CorrectBudgetKeeps(s, w, budgets[0]);
      CorrectionsBelong(s, budgets[0]);
      var w1 := CorrectBudget(w, s.cfg, s.cycle, budgets[0]);
      CorrectionsPhaseKeeps(s, w1, budgets[1..]);
      HaltedBudgets(w1, s.cfg, s.cycle, budgets[1..]);
      assert forall b :: b in budgets ==> b == budgets[0] || b in budgets[1..];
    }
  }

  lemma HaltedBudgets(w: World, cfg: Settings, cycle: Cycle, budgets: seq<string>)
    ensures w.status != Running ==> CorrectionsPhase(w, cfg, cycle, budgets) == w
  {
  }

  // --- the theorem ---------------------------------------------------------------------------------

  /** Every create is recorded as expected and every correction is done. */
  ghost predicate Finished(s: Setup, t: Table, l: Ledger) {
    Correcting(s, t, l) && forall c :: IsCorrection(s, c) ==> Done(s, t, l, c)
  }

  lemma AttemptReaches(s: Setup, t: Table, l: Ledger, script: seq<Fault>, now: int, budgets: seq<string>)
    requires Retryable(s) && Reachable(s, t, l) && VisitsCorrected(s.cycle, budgets)
    ensures var w := Submit(Attempt(t, l, script, now), s.cfg, s.cycle, budgets);
            && Reachable(s, w.table, w.ledger) && (w.status == Running ==> Finished(s, w.table, w.ledger))
            && (script == [] ==> w.status == Running)
  {
    var w := Attempt(t, l, script, now);
    CreatesPhaseReaches(s, w);
    var w1 := CreatesPhase(w, s.cfg, s.cycle.creates);
    hide Correcting, Done, CreatesPhase, CorrectionsPhase, LiveCorrections, OrdinaryCreates, UniqueIds;
    HaltedBudgets(w1, s.cfg, s.cycle, budgets);
    if w1.status == Running {
      CorrectionsPhaseKeeps(s, w1, budgets);
      forall c | IsCorrection(s, c) ensures c.budget in budgets && c in CorrectionsOf(s.cycle, c.budget) {
        CorrectionIsVisited(s, c, budgets);
      }
    }
  }

  lemma CorrectionIsVisited(s: Setup, c: Correction, budgets: seq<string>)
    requires IsCorrection(s, c) && VisitsCorrected(s.cycle, budgets)
    ensures c.budget in budgets && c in CorrectionsOf(s.cycle, c.budget)
  {
  }

  ghost predicate SameRow(r: Row, r': Row) {
    NoPayee(r.facts) == NoPayee(r'.facts) && r.amountMilliunits == r'.amountMilliunits && r.readdCount == r'.readdCount
  }

  /** The same rows, up to payee text and timestamps. */
  ghost predicate SameTables(t: Table, t': Table) {
    t.Keys == t'.Keys && forall k :: k in t ==> SameRow(t[k], t'[k])
  }

  lemma FinishedLedger(s: Setup, t: Table, l: Ledger, t': Table, l': Ledger)
    requires Finished(s, t, l) && Finished(s, t', l')
    ensures l == l'
  {
    hide Money.ToMilliunits, CreatesOk, AllRecorded, OthersSame, LedgerAfter, RowDone;
    forall id | 0 <= id < |l| ensures l[id] == l'[id] {
      if c :| IsCorrection(s, c) && c.txnId == id {
        assert Done(s, t, l, c) && Done(s, t', l', c);
      }
    }
  }

  lemma FinishedKey(s: Setup, t: Table, l: Ledger, t': Table, l': Ledger, k: string)
    requires Retryable(s) && Finished(s, t, l) && Finished(s, t', l')
    ensures k in t <==> k in t'
    ensures k in t ==> SameRow(t[k], t'[k])
  {
    hide Retryable, Money.ToMilliunits, LedgerAfter, PartlyPatched, Expected, EachTouchedOrDone;
    if CreateKey(s, k) {
      var i: nat, p :| IsCreate(s, i, p) && p.trackingKey == k;
      assert Recorded(s, t, i, p) && Recorded(s, t', i, p);
    } else if CorrectionKey(s, k) {
      var c :| IsCorrection(s, c) && (c.oldKey == k || (c.FuzzyUpdate? && c.newKey == k));
      assert Done(s, t, l, c) && Done(s, t', l', c);
    } else {
      assert SameAt(s.table0, t, k) && SameAt(s.table0, t', k);
    }
  }

  lemma {:induction false} TriesReach(s: Setup, w: World, tries: seq<Try>)
    requires Retryable(s) && Reachable(s, w.table, w.ledger)
    requires forall t :: t in tries ==> VisitsCorrected(s.cycle, t.budgets)
    requires tries == [] && w.status == Running ==> Finished(s, w.table, w.ledger)
    ensures var w' := AfterTries(s.cfg, s.cycle, w, tries);
            Reachable(s, w'.table, w'.ledger) && (w'.status == Running ==> Finished(s, w'.table, w'.ledger))
    decreases |tries|
  {
    if tries != [] {
      var t := tries[0];
      assert t in tries;
      AttemptReaches(s, w.table, w.ledger, t.script, t.now, t.budgets);
      var w1 := Submit(Attempt(w.table, w.ledger, t.script, t.now), s.cfg, s.cycle, t.budgets);
      hide Retryable, Reachable, Finished, Submit;
      assert forall u :: u in tries[1..] ==> u in tries;
      TriesReach(s, w1, tries[1..]);
    }
  }

  lemma StartIsReachable(s: Setup)
    requires Retryable(s)
    ensures Reachable(s, s.table0, s.ledger0)
  {
    assert LedgerAfter(s, 0) == s.ledger0;
    forall c | IsCorrection(s, c) ensures Untouched(s, s.table0, c) {
      CorrectionKeysAreOld(s, c);
    }
    assert CreatesOk(s, s.table0, 0);
  }

  /**
   * However the attempts fail, and in whatever order each visits the budgets, once one completes the stores
   * equal those of a single attempt in which every call works; and such an attempt does complete.
   */
  lemma RetryConvergence(s: Setup, tries: seq<Try>, calm: Try)
    requires Retryable(s) && tries != []
    requires forall t :: t in tries ==> VisitsCorrected(s.cycle, t.budgets)
    requires calm.script == [] && VisitsCorrected(s.cycle, calm.budgets)
    ensures var w := AfterTries(s.cfg, s.cycle, Attempt(s.table0, s.ledger0, [], 0), tries);
            var once := Submit(Attempt(s.table0, s.ledger0, [], calm.now), s.cfg, s.cycle, calm.budgets);
            && once.status == Running
            && (w.status == Running ==> w.ledger == once.ledger && SameTables(w.table, once.table))
  {
    hide Retryable, Finished, Submit, AfterTries, VisitsCorrected, SameRow, Reachable;
    var start := Attempt(s.table0, s.ledger0, [], 0);
    var w := AfterTries(s.cfg, s.cycle, start, tries);
    var once := Submit(Attempt(s.table0, s.ledger0, [], calm.now), s.cfg, s.cycle, calm.budgets);
    StartIsReachable(s);
    AttemptReaches(s, s.table0, s.ledger0, [], calm.now, calm.budgets);
    TriesReach(s, start, tries);
    if w.status == Running {
      FinishedLedger(s, w.table, w.ledger, once.table, once.ledger);
      forall k ensures (k in w.table <==> k in once.table) && (k in w.table ==> SameRow(w.table[k], once.table[k])) {
        FinishedKey(s, w.table, w.ledger, once.table, once.ledger, k);
      }
    }
  }
}
