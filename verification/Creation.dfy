/**
 * What a batch create does to the ledger, and what its response says.
 */
module Creation {
  import opened Wrappers
  import opened Ynab

  /** No import_id is ever held twice in one budget. */
  ghost predicate UniqueIds(l: Ledger) {
    forall i, j, id :: 0 <= i < |l| && 0 <= j < |l| && Holds(l[i], l[j].budget, id) && l[j].importId == Some(id) ==> i == j
  }

  /** Rows keep everything the engine never edits: budget, account, date and import_id; and none disappears. */
  ghost predicate Extends(l: Ledger, l': Ledger) {
    && |l| <= |l'|
    && forall i :: 0 <= i < |l| ==> SameIdentity(l[i], l'[i])
  }

  ghost predicate SameIdentity(t: Txn, t': Txn) {
    t.budget == t'.budget && t.account == t'.account && t.date == t'.date && t.importId == t'.importId
  }

  lemma BurnedForever(l: Ledger, l': Ledger, budget: string, importId: string)
    requires Extends(l, l') && Burned(l, budget, importId)
    ensures Burned(l', budget, importId)
  {
    var i :| 0 <= i < |l| && Holds(l[i], budget, importId);
    assert Holds(l'[i], budget, importId);
  }

  /** A create never reuses an import_id, whatever native matching and transfers do. */
  lemma CreateOneKeepsUnique(l: Ledger, native: NativeMatcher, budget: string, p: Payload)
    requires UniqueIds(l)
    ensures var l' := CreateOne(l, native, budget, p).0;
            UniqueIds(l') && Extends(l, l') && Burned(l', budget, p.importId)
  {
    var l' := CreateOne(l, native, budget, p).0;
    if !Burned(l, budget, p.importId) {
      assert Holds(l'[|l|], budget, p.importId);
      forall i, j, id | 0 <= i < |l'| && 0 <= j < |l'| && Holds(l'[i], l'[j].budget, id) && l'[j].importId == Some(id)
        ensures i == j
      {
        assert i < |l| && j < |l| ==> Holds(l[i], l[j].budget, id);
        assert i < |l| ==> Holds(l[i], l'[j].budget, id);
        assert j < |l| ==> Holds(l[j], l'[i].budget, id);
      }
    }
  }

  lemma {:induction false} CreateAllKeepsUnique(l: Ledger, native: NativeMatcher, budget: string, ps: seq<Payload>)
    requires UniqueIds(l)
    ensures var l' := CreateAll(l, native, budget, ps).0;
            UniqueIds(l') && Extends(l, l') && forall p :: p in ps ==> Burned(l', budget, p.importId)
    decreases |ps|
  {
    if ps != [] {
      var l1 := CreateOne(l, native, budget, ps[0]).0;
      CreateOneKeepsUnique(l, native, budget, ps[0]);
      CreateAllKeepsUnique(l1, native, budget, ps[1..]);
      BurnedForever(l1, CreateAll(l1, native, budget, ps[1..]).0, budget, ps[0].importId);
    }
  }

  function SubmittedIds(ps: seq<Payload>): seq<string> {
    seq(|ps|, i requires 0 <= i < |ps| => ps[i].importId)
  }

  /** Resubmitting a batch that is already there changes nothing and reports only duplicates. */
  lemma {:induction false} ResubmittedBatch(l: Ledger, native: NativeMatcher, budget: string, ps: seq<Payload>)
    requires forall p :: p in ps ==> Burned(l, budget, p.importId)
    ensures CreateAll(l, native, budget, ps) == (l, Response([], SubmittedIds(ps)))
    decreases |ps|
  {
    if ps != [] {
      ResubmittedBatch(l, native, budget, ps[1..]);
      assert CreateOne(l, native, budget, ps[0]) == (l, Response([], [ps[0].importId]));
      assert CreateAll(l, native, budget, ps[1..]) == (l, Response([], SubmittedIds(ps[1..])));
      assert SubmittedIds(ps) == [ps[0].importId] + SubmittedIds(ps[1..]);
      var none: seq<Reported> := [];
      assert none + none == none;
    } else {
      assert SubmittedIds(ps) == [];
    }
  }

  // --- ordinary creates: no transfer, no native match -----------------------------------

  ghost predicate NoNativeMatching(native: NativeMatcher) {
    forall l, b, p :: native(l, b, p).None?
  }

  ghost predicate OrdinaryPayloads(ps: seq<Payload>) {
    forall p :: p in ps ==> p.transferTo.None?
  }

  lemma CreateOneOrdinary(l: Ledger, native: NativeMatcher, budget: string, p: Payload)
    requires NoNativeMatching(native) && p.transferTo.None?
    ensures CreateOne(l, native, budget, p)
         == if Burned(l, budget, p.importId) then (l, Response([], [p.importId]))
            else (l + [NewTxn(budget, p, None)], Response([Reported(|l|, Some(p.importId), None, None, p.payee)], []))
  {
    assert native(l, budget, p).None?;
  }

  /** An ordinary response row names a transaction that was just appended for one of the payloads. */
  ghost predicate OrdinaryRow(l: Ledger, l': Ledger, budget: string, ps: seq<Payload>, r: Reported) {
    && r.matched.None? && r.importId.Some? && |l| <= r.id < |l'|
    && exists p :: p in ps && r.importId == Some(p.importId) && l'[r.id] == NewTxn(budget, p, None)
  }

  ghost predicate Answers(r: Response, importId: string) {
    importId in r.duplicates || exists row :: row in r.rows && row.importId == Some(importId)
  }

  ghost predicate OrdinaryCreation(l: Ledger, budget: string, ps: seq<Payload>, l': Ledger, r: Response) {
    && l <= l'
    && (forall i :: |l| <= i < |l'| ==> l'[i].budget == budget && exists p :: p in ps && l'[i].importId == Some(p.importId))
    && (forall row :: row in r.rows ==> OrdinaryRow(l, l', budget, ps, row))
    && (forall p :: p in ps ==> Answers(r, p.importId))
  }

  lemma {:induction false} CreateAllOrdinary(l: Ledger, native: NativeMatcher, budget: string, ps: seq<Payload>)
    requires NoNativeMatching(native) && OrdinaryPayloads(ps)
    ensures var (l', r) := CreateAll(l, native, budget, ps); OrdinaryCreation(l, budget, ps, l', r)
    decreases |ps|
  {
    if ps != [] {
      var p := ps[0];
      assert p in ps;
      CreateOneOrdinary(l, native, budget, p);
      var (l1, r1) := CreateOne(l, native, budget, p);
      assert OrdinaryPayloads(ps[1..]);
      CreateAllOrdinary(l1, native, budget, ps[1..]);
      var (l2, r2) := CreateAll(l1, native, budget, ps[1..]);
      OrdinaryConcat(l, budget, ps, l1, r1, l2, r2);
    }
  }

  lemma OrdinaryConcat(l: Ledger, budget: string, ps: seq<Payload>, l1: Ledger, r1: Response, l2: Ledger, r2: Response)
    requires ps != [] && OrdinaryCreation(l1, budget, ps[1..], l2, r2)
    requires (l1, r1) == (l, Response([], [ps[0].importId]))
          || (l1, r1) == (l + [NewTxn(budget, ps[0], None)],
                          Response([Reported(|l|, Some(ps[0].importId), None, None, ps[0].payee)], []))
    ensures OrdinaryCreation(l, budget, ps, l2, Response(r1.rows + r2.rows, r1.duplicates + r2.duplicates))
  {
    var r := Response(r1.rows + r2.rows, r1.duplicates + r2.duplicates);
    assert forall p :: p in ps <==> p == ps[0] || p in ps[1..];
    forall i | |l| <= i < |l2|
      ensures l2[i].budget == budget && exists p :: p in ps && l2[i].importId == Some(p.importId)
    {
      if i < |l1| {
        assert l2[i] == l1[i];
        assert ps[0] in ps;
      }
    }
    forall row | row in r.rows ensures OrdinaryRow(l, l2, budget, ps, row) {
      if row in r2.rows {
        assert OrdinaryRow(l1, l2, budget, ps[1..], row);
      } else {
        assert l2[|l|] == l1[|l|];
        assert ps[0] in ps;
      }
    }
    forall p | p in ps ensures Answers(r, p.importId) {
      if p in ps[1..] {
        assert Answers(r2, p.importId);
        if p.importId !in r2.duplicates {
          var row :| row in r2.rows && row.importId == Some(p.importId);
          assert row in r.rows;
        }
      } else if r1.rows != [] {
        assert r1.rows[0] in r.rows;
      }
    }
  }

  // --- lookups ---------------------------------------------------------------------------

  lemma FirstIndexIs(l: Ledger, keep: Txn -> bool, i: nat)
    requires i < |l| && keep(l[i]) && forall j :: 0 <= j < i ==> !keep(l[j])
    ensures FirstIndex(l, keep) == Some(i)
  {
  }

  lemma FirstIndexNone(l: Ledger, keep: Txn -> bool)
    requires forall j :: 0 <= j < |l| ==> !keep(l[j])
    ensures FirstIndex(l, keep) == None
  {
  }
}
