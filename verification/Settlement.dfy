/**
 * The local side of the corrections: mark_booked and rekey_pending_to_booked,
 * one correction after another, and exactly when none of them raises.
 */
module Settlement {
  import opened Wrappers
  import opened StateDb
  import opened SyncSpec
  import opened FuzzyClaims
  import Money

  /** One correction's write; None when it raises. */
  function SettleOne(t: Table, c: Correction): Option<Table> {
    match c
    case Update(key, _, amount, _, _) => MarkBooked(t, key, amount)
    case FuzzyUpdate(oldKey, newKey, _, amount, _, _) =>
      match Rekey(t, oldKey, newKey, amount) {
        case Rekeyed(t1, _) => Some(t1)
        case AlreadyRekeyed => Some(t)
        case _ => None
      }
  }

  function SettleAll(t: Table, cs: seq<Correction>): Option<Table>
    decreases |cs|
  {
    if cs == [] then Some(t)
    else
      var t1 := SettleOne(t, cs[0]);
      if t1.None? then None else SettleAll(t1.value, cs[1..])
  }

  lemma {:induction false} SettleConcat(t: Table, cs: seq<Correction>, ds: seq<Correction>)
    ensures SettleAll(t, cs + ds) == (if SettleAll(t, cs).None? then None else SettleAll(SettleAll(t, cs).value, ds))
    decreases |cs|
  {
    hide SettleOne;
    if cs == [] {
      assert cs + ds == ds;
    } else {
      assert (cs + ds)[0] == cs[0] && (cs + ds)[1..] == cs[1..] + ds;
      if SettleOne(t, cs[0]).Some? {
        SettleConcat(SettleOne(t, cs[0]).value, cs[1..], ds);
      }
    }
  }

  // --- exactly when nothing raises ------------------------------------------------------------------------------

  /** The row is still under its old key, and the new one is free. */
  predicate Unmoved(t: Table, d: Correction) { d.FuzzyUpdate? && d.oldKey in t && d.newKey !in t }

  predicate IsMoved(t: Table, d: Correction) {
    d.FuzzyUpdate? && d.oldKey !in t && d.newKey in t && t[d.newKey].facts.status == Booked
  }

  /** The row is there, but so is another one under the new key: the rekey raises. */
  predicate Blocked(t: Table, d: Correction) { d.FuzzyUpdate? && d.oldKey in t && d.newKey in t }

  /** Rows are moved to keys that are no correction's row, each from its own, and after its plain updates. */
  ghost predicate Orderly(cs: seq<Correction>) {
    && (forall c, d :: c in cs && d in cs && c.FuzzyUpdate? ==> c.newKey != d.oldKey)
    && (forall c, d :: c in cs && d in cs && c.FuzzyUpdate? && d.FuzzyUpdate? && c != d ==> c.oldKey != d.oldKey)
    && (forall i, j :: 0 <= i < j < |cs| && cs[i].FuzzyUpdate? && cs[j].Update? ==> cs[i].oldKey != cs[j].oldKey)
  }

  /** No row of a fuzzy update is lost. */
  ghost predicate NoneLost(t: Table, cs: seq<Correction>) {
    forall d :: d in cs && d.FuzzyUpdate? ==> d.oldKey in t || d.newKey in t
  }

  /** Every row is where its corrections look for it, and no free key is wanted for two of them. */
  ghost predicate Clear(t: Table, cs: seq<Correction>) {
    && (forall c :: c in cs && c.Update? ==> c.oldKey in t)
    && (forall d :: d in cs && d.FuzzyUpdate? ==> Unmoved(t, d) || IsMoved(t, d))
    && (forall c, d :: c in cs && d in cs && c != d && Unmoved(t, c) && Unmoved(t, d) ==> c.newKey != d.newKey)
  }

  lemma OrderlyRest(cs: seq<Correction>)
    requires cs != [] && Orderly(cs)
    ensures Orderly(cs[1..])
    ensures forall c :: c in cs <==> c == cs[0] || c in cs[1..]
    ensures cs[0].FuzzyUpdate? ==> forall c :: c in cs[1..] && c.Update? ==> c.oldKey != cs[0].oldKey
  {
    forall c | c in cs[1..] && c.Update? && cs[0].FuzzyUpdate? ensures c.oldKey != cs[0].oldKey {
      var j :| 0 <= j < |cs[1..]| && cs[1..][j] == c;
      assert cs[j + 1] == c;
    }
  }

  /** What one correction does to the keys, if it does not raise. */
  lemma SettleStep(t: Table, c: Correction)
    requires c.FuzzyUpdate? ==> c.newKey != c.oldKey && (c.oldKey in t || c.newKey in t)
    ensures c.Update? ==> (SettleOne(t, c).Some? <==> c.oldKey in t)
    ensures c.Update? && c.oldKey in t ==> SettleOne(t, c).value == t[c.oldKey := Settled(t[c.oldKey], c.newAmount)]
    ensures c.FuzzyUpdate? ==> (SettleOne(t, c).Some? <==> Unmoved(t, c) || IsMoved(t, c))
    ensures IsMoved(t, c) ==> SettleOne(t, c).value == t
    ensures Unmoved(t, c) ==>
        SettleOne(t, c).value == (t - {c.oldKey})[c.newKey := Settled(t[c.oldKey], c.newAmount)]
  {
    hide Settled;
  }

  /** After the first correction the rest is clear if and only if all was. */
  lemma ClearStep(t: Table, cs: seq<Correction>)
    requires cs != [] && Orderly(cs) && NoneLost(t, cs) && SettleOne(t, cs[0]).Some?
    ensures var t1 := SettleOne(t, cs[0]).value;
            NoneLost(t1, cs[1..]) && (Clear(t1, cs[1..]) <==> Clear(t, cs))
  {
    var c := cs[0];
    assert c in cs;
    SettleStep(t, c);
    OrderlyRest(cs);
    var t1 := SettleOne(t, c).value;
    hide SettleOne, Settled;
    if c.Update? {
      SettledStatus(t[c.oldKey], c.newAmount);
      assert forall d :: d in cs[1..] ==> (Unmoved(t1, d) <==> Unmoved(t, d)) && (IsMoved(t1, d) <==> IsMoved(t, d));
    } else if Unmoved(t, c) {
      ClearMove(t, t1, cs);
    }
  }

  lemma SettledStatus(r: Row, amount: real)
    ensures Settled(r, amount).facts.status == Booked && Settled(r, amount).facts.txnId == r.facts.txnId
  {
  }

  lemma ClearMove(t: Table, t1: Table, cs: seq<Correction>)
    requires cs != [] && Orderly(cs) && NoneLost(t, cs) && Unmoved(t, cs[0])
    requires t1 == (t - {cs[0].oldKey})[cs[0].newKey := Settled(t[cs[0].oldKey], cs[0].newAmount)]
    ensures NoneLost(t1, cs[1..]) && (Clear(t1, cs[1..]) <==> Clear(t, cs))
  {
    var c := cs[0];
    assert c in cs;
    OrderlyRest(cs);
    SettledStatus(t[c.oldKey], c.newAmount);
    hide Settled, Orderly;
    forall d | d in cs[1..] && d.Update? ensures d.oldKey in t1 <==> d.oldKey in t {
      assert d in cs;
      KeysApart(cs, c, d);
    }
    forall d | d in cs[1..] && d.FuzzyUpdate?
      ensures d.oldKey in t1 || d.newKey in t1
      ensures Unmoved(t1, d) || IsMoved(t1, d) <==>
              (Unmoved(t, d) || IsMoved(t, d)) && (d != c && Unmoved(t, d) ==> d.newKey != c.newKey)
      ensures Unmoved(t1, d) ==> Unmoved(t, d)
      ensures Unmoved(t, d) && d.newKey != c.newKey ==> Unmoved(t1, d)
    {
      assert d in cs;
      KeysApart(cs, c, d);
    }
    if Clear(t1, cs[1..]) {
      forall d, e | d in cs && e in cs && d != e && Unmoved(t, d) && Unmoved(t, e) ensures d.newKey != e.newKey {
        assert d != c && e != c ==> Unmoved(t1, d) && Unmoved(t1, e);
      }
    }
  }

  lemma KeysApart(cs: seq<Correction>, c: Correction, d: Correction)
    requires Orderly(cs) && c in cs && d in cs && c.FuzzyUpdate?
    ensures c.newKey != d.oldKey && c.newKey != c.oldKey
    ensures d.FuzzyUpdate? ==> d.newKey != c.oldKey && (c != d ==> c.oldKey != d.oldKey)
  {
  }

  /** The corrections go through if and only if every one finds its row and its new key free. */
  lemma {:induction false} SettlesIffClear(t: Table, cs: seq<Correction>)
    requires Orderly(cs) && NoneLost(t, cs)
    ensures SettleAll(t, cs).Some? <==> Clear(t, cs)
    decreases |cs|
  {
    if cs != [] {
      var c := cs[0];
      assert c in cs;
      SettleStep(t, c);
      if SettleOne(t, c).Some? {
        ClearStep(t, cs);
        OrderlyRest(cs);
        hide SettleOne, Orderly, NoneLost, Clear;
        SettlesIffClear(SettleOne(t, c).value, cs[1..]);
      }
    }
  }

  // --- and what is left when nothing raises -----------------------------------------------------------------------

  /** A correction that has something to do for this key. */
  predicate Writes(t: Table, c: Correction, k: string) {
    (c.Update? && c.oldKey == k) || (Unmoved(t, c) && (c.oldKey == k || c.newKey == k))
  }

  ghost predicate Written(t: Table, cs: seq<Correction>, k: string) { exists c :: c in cs && Writes(t, c, k) }

  ghost predicate SameRow(t: Table, t': Table, k: string) { (k in t <==> k in t') && (k in t ==> t'[k] == t[k]) }

  /** The row of d stands under its new key, settled at its amount, whatever plain updates it also got. */
  ghost predicate RowMoved(t: Table, t': Table, d: Correction) {
    && d.FuzzyUpdate? && d.oldKey !in t' && d.newKey in t'
    && (Unmoved(t, d) ==> t'[d.newKey] == Settled(t[d.oldKey], d.newAmount))
    && (IsMoved(t, d) ==> SameRow(t, t', d.newKey))
  }

  /** As many rows, for the same YNAB transactions. */
  ghost predicate Conserved(t: Table, t': Table) { |t'| == |t| && TxnIds(t') == TxnIds(t) }

  lemma BookingConserves(t: Table, key: string, amount: real)
    requires key in t
    ensures Conserved(t, t[key := Settled(t[key], amount)])
  {
    var t1 := t[key := Settled(t[key], amount)];
    SettledStatus(t[key], amount);
    assert t1.Keys == t.Keys && t1 - {key} == t - {key};
    TxnIdsWithout(t, key);
    TxnIdsWithout(t1, key);
  }

  lemma StepConserves(t: Table, c: Correction)
    requires c.FuzzyUpdate? ==> c.newKey != c.oldKey && (c.oldKey in t || c.newKey in t)
    requires SettleOne(t, c).Some?
    ensures Conserved(t, SettleOne(t, c).value)
  {
    SettleStep(t, c);
    match c
    case Update(key, _, amount, _, _) => BookingConserves(t, key, amount);
    case FuzzyUpdate(oldKey, newKey, _, amount, _, _) =>
      if Rekey(t, oldKey, newKey, amount).Rekeyed? { RekeyConserves(t, oldKey, newKey, amount); }
  }

  /** Nothing of what the first correction wrote is written again by the rest, but for a plain update's row. */
  lemma FirstStays(t: Table, cs: seq<Correction>)
    requires cs != [] && Orderly(cs) && NoneLost(t, cs) && SettleOne(t, cs[0]).Some? && cs[0].FuzzyUpdate?
    ensures var t1 := SettleOne(t, cs[0]).value;
            && !Written(t1, cs[1..], cs[0].oldKey) && !Written(t1, cs[1..], cs[0].newKey) && RowMoved(t, t1, cs[0])
  {
    var c := cs[0];
    assert c in cs;
    SettleStep(t, c);
    OrderlyRest(cs);
    var t1 := SettleOne(t, c).value;
    hide SettleOne, Settled, Orderly;
    forall e | e in cs[1..] ensures !Writes(t1, e, c.oldKey) && !Writes(t1, e, c.newKey) {
      assert e in cs;
      KeysApart(cs, c, e);
    }
  }

  /** What the first correction leaves of the rows that the others move. */
  lemma OthersStay(t: Table, cs: seq<Correction>, d: Correction)
    requires cs != [] && Orderly(cs) && NoneLost(t, cs) && Clear(t, cs) && d in cs[1..] && d.FuzzyUpdate? && d != cs[0]
    requires SettleOne(t, cs[0]).Some?
    ensures var t1 := SettleOne(t, cs[0]).value;
            && (Unmoved(t, d) ==> Unmoved(t1, d) && Settled(t1[d.oldKey], d.newAmount) == Settled(t[d.oldKey], d.newAmount))
            && (IsMoved(t, d) ==> IsMoved(t1, d) && SameRow(t, t1, d.newKey))
  {
    var c := cs[0];
    OrderlyRest(cs);
    SettleStep(t, c);
    hide SettleOne, Orderly;
    KeysApart(cs, d, c);
    if c.Update? && c.oldKey == d.oldKey {
      SettledTwice(t[c.oldKey], c.newAmount, d.newAmount);
    }
  }

  lemma SettledTwice(r: Row, a: real, b: real)
    ensures Settled(Settled(r, a), b) == Settled(r, b)
  {
  }

  /** After all of them every fuzzy update has moved its row, no other row changed, and none is gone. */
  lemma {:induction false} SettledMoves(t: Table, cs: seq<Correction>)
    requires Orderly(cs) && NoneLost(t, cs) && SettleAll(t, cs).Some?
    ensures var t' := SettleAll(t, cs).value;
            && (forall d :: d in cs && d.FuzzyUpdate? ==> RowMoved(t, t', d))
            && (forall k :: !Written(t, cs, k) ==> SameRow(t, t', k))
            && Conserved(t, t')
    decreases |cs|
  {
    if cs != [] {
      var c := cs[0];
      var t1 := SettleOne(t, c).value;
      var t' := SettleAll(t, cs).value;
      assert c in cs;
      SettlesIffClear(t, cs);
      ClearStep(t, cs);
      OrderlyRest(cs);
      hide SettleOne;
      SettledMoves(t1, cs[1..]);
      StepConserves(t, c);
      forall d | d in cs && d.FuzzyUpdate? ensures RowMoved(t, t', d) {
        if d == c {
          FirstStays(t, cs);
        } else {
          OthersStay(t, cs, d);
        }
      }
      forall k | !Written(t, cs, k) ensures SameRow(t, t', k) {
        NotWritten(t, cs, k);
      }
    }
  }

  lemma NotWritten(t: Table, cs: seq<Correction>, k: string)
    requires cs != [] && Orderly(cs) && NoneLost(t, cs) && Clear(t, cs) && SettleOne(t, cs[0]).Some?
    requires !Written(t, cs, k)
    ensures SameRow(t, SettleOne(t, cs[0]).value, k) && !Written(SettleOne(t, cs[0]).value, cs[1..], k)
  {
    var c := cs[0];
    var t1 := SettleOne(t, c).value;
    assert c in cs && !Writes(t, c, k);
    OrderlyRest(cs);
    SettleStep(t, c);
    hide Settled, Orderly;
    forall e | e in cs[1..] ensures !Writes(t1, e, k) {
      assert e in cs && !Writes(t, e, k);
      if e.FuzzyUpdate? && e != c {
        EarlierUnmoved(t, cs, e);
      }
    }
  }

  lemma EarlierUnmoved(t: Table, cs: seq<Correction>, e: Correction)
    requires cs != [] && Orderly(cs) && NoneLost(t, cs) && Clear(t, cs) && SettleOne(t, cs[0]).Some?
    requires e in cs && e.FuzzyUpdate? && e != cs[0]
    ensures Unmoved(SettleOne(t, cs[0]).value, e) ==> Unmoved(t, e)
  {
    OrderlyRest(cs);
    OthersStay(t, cs, e);
  }
}
