/**
 * SyncEngine.readd_deleted_transaction: creating a transaction again under a
 * fresh import_id of the same source, after YNAB burned the old one.
 */
module Readd {
  import opened Wrappers
  import opened Ynab
  import opened StateDb
  import opened SyncSpec
  import opened Creation
  import opened ImportIds
  import Money

  datatype Outcome = Readded(txnId: nat) | NotTracked | NotDeleted | CallLost | NotReported

  function ReaddId(hash: Hasher, key: string, r: Row): string {
    DeriveImportId(hash, PrefixOf(r.facts.importId), ReaddSeed(key, r.readdCount + 1))
  }

  function ReaddPayload(hash: Hasher, key: string, r: Row): Payload {
    Payload(r.facts.ynabAccount, r.facts.date, r.amountMilliunits, r.facts.payee, r.facts.cleared, ReaddId(hash, key, r),
            None)
  }

  /** The first reported row with the submitted import_id. */
  function ReportedAs(rows: seq<Reported>, importId: string): (row: Option<Reported>)
    ensures row.Some? ==> row.value in rows && row.value.importId == Some(importId)
    ensures row.None? ==> forall r :: r in rows ==> r.importId != Some(importId)
  {
    if rows == [] then None
    else if rows[0].importId == Some(importId) then Some(rows[0]) else ReportedAs(rows[1..], importId)
  }

  /** The visible transaction: a natively matched original, or what was created. */
  function VisibleId(row: Reported): nat { if row.matched.Some? then row.matched.value else row.id }

  function ReaddDeleted(w: World, cfg: Settings, key: string): (World, Outcome) {
    if key !in w.table then (w, NotTracked)
    else if w.table[key].facts.status != Deleted then (w, NotDeleted)
    else
      var payload := ReaddPayload(cfg.hash, key, w.table[key]);
      var (posted, response) := PostCreates(w, cfg, w.table[key].facts.budget, [payload]);
      var created := ReportedAs(response.rows, payload.importId);
      if posted.status != Running then (posted, CallLost)
      else if created.None? then (posted, NotReported)
      else
        var id := VisibleId(created.value);
        (posted.(table := MarkReadded(w.table, key, id, payload.importId).value), Readded(id))
  }

  /** The row that a re-add leaves. */
  function AfterReadd(hash: Hasher, key: string, r: Row, txnId: nat): Row {
    r.(facts := r.facts.(txnId := txnId, importId := ReaddId(hash, key, r),
                         status := if r.facts.cleared == Uncleared then Pending else Booked),
       readdCount := r.readdCount + 1)
  }

  // --- one re-add ---------------------------------------------------------------------------------

  /** A row that a re-add accepts. */
  predicate Readdable(t: Table, key: string) { key in t && t[key].facts.status == Deleted }

  /** Any other row is refused, and nothing is called. */
  lemma OnlyDeletedIsReadded(w: World, cfg: Settings, key: string)
    requires !Readdable(w.table, key)
    ensures ReaddDeleted(w, cfg, key) == (w, if key in w.table then NotDeleted else NotTracked)
  {
  }

  lemma OneCreateAnswers(l: Ledger, native: NativeMatcher, budget: string, p: Payload)
    ensures CreateAll(l, native, budget, [p]) == CreateOne(l, native, budget, p)
  {
    var (l1, r1) := CreateOne(l, native, budget, p);
    assert [p][1..] == [];
    assert CreateAll(l1, native, budget, [p][1..]) == (l1, Response([], []));
    assert r1.rows + [] == r1.rows && r1.duplicates + [] == r1.duplicates;
  }

  lemma CreateReports(l: Ledger, native: NativeMatcher, budget: string, p: Payload)
    ensures var (l', r) := CreateOne(l, native, budget, p);
            if Burned(l, budget, p.importId) then l' == l && ReportedAs(r.rows, p.importId).None?
            else
              && ReportedAs(r.rows, p.importId).Some?
              && Holds(l'[|l|], budget, p.importId)
              && var id := VisibleId(ReportedAs(r.rows, p.importId).value);
                 id < |l'| && !l'[id].deleted && IsVisible(l'[id])
  {
  }

  /** What the payload of a create without a transfer leaves: a transaction of its own, or a matched original, too. */
  lemma CreateLeaves(l: Ledger, native: NativeMatcher, budget: string, p: Payload)
    requires p.transferTo.None? && !Burned(l, budget, p.importId)
    ensures var (l', r) := CreateOne(l, native, budget, p);
            && |l'| == |l| + 1
            && l'[|l|].(matched := None) == NewTxn(budget, p, None)
            && ReportedAs(r.rows, p.importId).Some?
            && var id := VisibleId(ReportedAs(r.rows, p.importId).value);
               id < |l'| && l'[id].budget == budget && l'[id].account == p.account && l'[id].amount == p.amount
  {
  }

  /** A transaction of the row's budget, account and amount. */
  ghost predicate IsOfRow(t: Txn, r: Row) {
    t.budget == r.facts.budget && t.account == r.facts.ynabAccount && t.amount == r.amountMilliunits
  }

  /** Everything YNAB gets from the row; natively matched or not. */
  ghost predicate IsCopyOfRow(t: Txn, r: Row, importId: string) {
    && IsOfRow(t, r) && t.date == r.facts.date && t.payee == r.facts.payee && t.cleared == r.facts.cleared
    && t.importId == Some(importId) && !t.deleted && !t.split
  }

  /**
   * With a call that works, a re-add succeeds exactly when its import_id is not burned yet.  YNAB then has one more
   * transaction, a copy of the row under the fresh id; the row points at it or at the original it was matched with,
   * which has the row's account and amount.  The row counts the round, and gets its status back from `cleared`.
   */
  lemma ReaddSucceedsIffFresh(w: World, cfg: Settings, key: string)
    requires Readdable(w.table, key) && w.script == [] && w.status == Running
    ensures var (w', outcome) := ReaddDeleted(w, cfg, key);
            var r, budget := w.table[key], w.table[key].facts.budget;
            && (outcome.Readded? <==> !Burned(w.ledger, budget, ReaddId(cfg.hash, key, r)))
            && (outcome.Readded? ==>
                  && key in w'.table && outcome.txnId < |w'.ledger| && !w'.ledger[outcome.txnId].deleted
                  && |w'.ledger| == |w.ledger| + 1
                  && IsCopyOfRow(w'.ledger[|w.ledger|], r, w'.table[key].facts.importId)
                  && IsOfRow(w'.ledger[outcome.txnId], r)
                  && w'.table[key] == AfterReadd(cfg.hash, key, r, outcome.txnId))
            && (!outcome.Readded? ==> outcome == NotReported && w'.table == w.table && w'.ledger == w.ledger)
  {
    var r := w.table[key];
    var p := ReaddPayload(cfg.hash, key, r);
    OneCreateAnswers(w.ledger, cfg.native, r.facts.budget, p);
    CreateReports(w.ledger, cfg.native, r.facts.budget, p);
    if !Burned(w.ledger, r.facts.budget, p.importId) {
      CreateLeaves(w.ledger, cfg.native, r.facts.budget, p);
    }
    hide CreateAll, CreateOne, ReportedAs, ReaddId;
    var (l', response) := CreateAll(w.ledger, cfg.native, r.facts.budget, [p]);
    assert PostCreates(w, cfg, r.facts.budget, [p]) == (w.(ledger := l'), response);
  }

  /**
   * If the response to a re-add is lost, its import_id is burned but the round is not counted: the row stays DELETED
   * and no later re-add of it can succeed, whatever else happens in YNAB.
   */
  lemma LostResponseEndsReadds(w: World, cfg: Settings, key: string, later: World)
    requires Readdable(w.table, key) && w.script == [LostAfter] && w.status == Running
    requires var w1 := ReaddDeleted(w, cfg, key).0;
             && Extends(w1.ledger, later.ledger)
             && key in later.table && key in w1.table && later.table[key] == w1.table[key]
    ensures ReaddDeleted(w, cfg, key).0.table == w.table && ReaddDeleted(w, cfg, key).1 == CallLost
    ensures !ReaddDeleted(later, cfg, key).1.Readded?
  {
    var r := w.table[key];
    var p := ReaddPayload(cfg.hash, key, r);
    LostReadd(w, cfg, key);
    hide ReaddDeleted, ReaddPayload, Burned;
    BurnedForever(ReaddDeleted(w, cfg, key).0.ledger, later.ledger, r.facts.budget, p.importId);
    BurnedReadd(later, cfg, key);
  }

  /** The create arrived, its response did not. */
  lemma LostReadd(w: World, cfg: Settings, key: string)
    requires Readdable(w.table, key) && w.script == [LostAfter] && w.status == Running
    ensures var w1 := ReaddDeleted(w, cfg, key).0;
            && w1.table == w.table && ReaddDeleted(w, cfg, key).1 == CallLost
            && Burned(w1.ledger, w.table[key].facts.budget, ReaddPayload(cfg.hash, key, w.table[key]).importId)
  {
    var r := w.table[key];
    var p := ReaddPayload(cfg.hash, key, r);
    OneCreateAnswers(w.ledger, cfg.native, r.facts.budget, p);
    CreateOneBurns(w.ledger, cfg.native, r.facts.budget, p);
    hide CreateAll, CreateOne, ReportedAs, ReaddPayload, Burned, MarkReadded;
    var posted := PostCreates(w, cfg, r.facts.budget, [p]).0;
    assert posted.ledger == CreateAll(w.ledger, cfg.native, r.facts.budget, [p]).0 && posted.table == w.table;
    assert posted.status == CallFailed;
    hide PostCreates;
  }

  /** An import_id that is burned cannot be re-added, whatever the call does. */
  lemma BurnedReadd(w: World, cfg: Settings, key: string)
    requires key in w.table
    requires Burned(w.ledger, w.table[key].facts.budget, ReaddPayload(cfg.hash, key, w.table[key]).importId)
    ensures !ReaddDeleted(w, cfg, key).1.Readded?
  {
    var r := w.table[key];
    var p := ReaddPayload(cfg.hash, key, r);
    OneCreateAnswers(w.ledger, cfg.native, r.facts.budget, p);
    CreateReports(w.ledger, cfg.native, r.facts.budget, p);
    hide CreateAll, CreateOne, ReportedAs, ReaddPayload, Burned, Write, MarkReadded;
  }

  lemma CreateOneBurns(l: Ledger, native: NativeMatcher, budget: string, p: Payload)
    ensures Burned(CreateOne(l, native, budget, p).0, budget, p.importId)
  {
    var l' := CreateOne(l, native, budget, p).0;
    if !Burned(l, budget, p.importId) {
      assert Holds(l'[|l|], budget, p.importId);
    }
  }

  // --- any number of rounds -------------------------------------------------------------------------

  /** The transaction is deleted in YNAB and the row resolved as DELETED, which keeps its import_id and count. */
  function Deleting(w: World, key: string, l: Ledger): World
    requires key in w.table
  {
    var r := w.table[key];
    w.(table := w.table[key := r.(facts := r.facts.(status := Deleted))], ledger := l)
  }

  /** Rounds of deletion and re-adding; `ledgers` is YNAB before each re-add. */
  function Rounds(w: World, cfg: Settings, key: string, ledgers: seq<Ledger>): World
    requires key in w.table
    ensures key in Rounds(w, cfg, key, ledgers).table
    decreases |ledgers|
  {
    if ledgers == [] then w
    else
      var w1 := ReaddDeleted(Deleting(w, key, ledgers[0]), cfg, key).0;
      Rounds(w1, cfg, key, ledgers[1..])
  }

  /** Every re-add of these rounds succeeds. */
  ghost predicate AllReadded(w: World, cfg: Settings, key: string, ledgers: seq<Ledger>)
    requires key in w.table
    decreases |ledgers|
  {
    ledgers != [] ==>
      var (w1, outcome) := ReaddDeleted(Deleting(w, key, ledgers[0]), cfg, key);
      outcome.Readded? && AllReadded(w1, cfg, key, ledgers[1..])
  }

  lemma PrefixEndsInOnlyColon(importId: string)
    ensures var p := PrefixOf(importId); p == "" || FirstColon(p) == |p| - 1
  {
    var n := FirstColon(importId);
    if n < |importId| {
      var p := importId[..n] + ":";
      assert p[n] == ':' && forall i :: 0 <= i < n ==> p[i] == importId[i];
      FirstColonUnique(p, n);
    }
  }

  /** The domain of a re-added row, from its row alone. */
  ghost predicate InDomain(hash: Hasher, key: string, prefix: string, r: Row, first: Row) {
    && PrefixOf(r.facts.importId) == prefix && r.facts.cleared == first.facts.cleared
    && (r.readdCount > first.readdCount ==>
          && r.facts.importId == DeriveImportId(hash, prefix, ReaddSeed(key, r.readdCount))
          && (r.facts.status == Pending <==> r.facts.cleared == Uncleared) && r.facts.status != Deleted)
  }

  lemma OneRoundStays(w: World, cfg: Settings, key: string, l: Ledger, prefix: string, first: Row)
    requires key in w.table && InDomain(cfg.hash, key, prefix, w.table[key], first)
    requires w.table[key].readdCount >= first.readdCount
    requires ReaddDeleted(Deleting(w, key, l), cfg, key).1.Readded?
    ensures var t := ReaddDeleted(Deleting(w, key, l), cfg, key).0.table;
            key in t && InDomain(cfg.hash, key, prefix, t[key], first)
            && t[key].readdCount == w.table[key].readdCount + 1
  {
    hide ReaddDeleted, PrefixOf, InDomain;
    ReaddedRow(Deleting(w, key, l), cfg, key);
    RowStays(cfg.hash, key, prefix, w.table[key], first, ReaddDeleted(Deleting(w, key, l), cfg, key).1.txnId);
  }

  lemma RowStays(hash: Hasher, key: string, prefix: string, r: Row, first: Row, txnId: nat)
    requires InDomain(hash, key, prefix, r, first)
    ensures InDomain(hash, key, prefix, AfterReadd(hash, key, r.(facts := r.facts.(status := Deleted)), txnId), first)
  {
    hide PrefixOf, DeriveImportId, ReaddSeed, FirstColon;
    PrefixEndsInOnlyColon(r.facts.importId);
    PrefixRoundTrip(hash, prefix, ReaddSeed(key, r.readdCount + 1));
    assert PrefixOf(ReaddId(hash, key, r)) == prefix;
  }

  lemma ReaddedRow(w: World, cfg: Settings, key: string)
    requires ReaddDeleted(w, cfg, key).1.Readded?
    ensures key in w.table && key in ReaddDeleted(w, cfg, key).0.table
    ensures ReaddDeleted(w, cfg, key).0.table[key]
         == AfterReadd(cfg.hash, key, w.table[key], ReaddDeleted(w, cfg, key).1.txnId)
  {
    hide PostCreates, ReportedAs, ReaddId;
  }

  lemma PostKeepsTable(w: World, cfg: Settings, budget: string, ps: seq<Payload>)
    ensures PostCreates(w, cfg, budget, ps).0.table == w.table
  {
  }

  lemma {:induction false} RoundsStay(w: World, cfg: Settings, key: string, ledgers: seq<Ledger>, prefix: string,
                                      first: Row)
    requires key in w.table && InDomain(cfg.hash, key, prefix, w.table[key], first)
    requires w.table[key].readdCount >= first.readdCount && AllReadded(w, cfg, key, ledgers)
    ensures var r := Rounds(w, cfg, key, ledgers).table[key];
            InDomain(cfg.hash, key, prefix, r, first) && r.readdCount == w.table[key].readdCount + |ledgers|
    decreases |ledgers|
  {
    hide InDomain, ReaddDeleted;
    if ledgers != [] {
      OneRoundStays(w, cfg, key, ledgers[0], prefix, first);
      var w1 := ReaddDeleted(Deleting(w, key, ledgers[0]), cfg, key).0;
      RoundsStay(w1, cfg, key, ledgers[1..], prefix, first);
    }
  }

  /**
   * After any positive number of rounds the import_id is in the original dedup domain, within 36 characters if the
   * domain's prefix allows it, made from a seed no other round or row uses, and the status follows `cleared`.
   */
  lemma RoundsKeepDomain(w: World, cfg: Settings, key: string, ledgers: seq<Ledger>, otherKey: string, otherRound: nat)
    requires key in w.table && ledgers != [] && AllReadded(w, cfg, key, ledgers)
    ensures var r0, r := w.table[key], Rounds(w, cfg, key, ledgers).table[key];
            && PrefixOf(r.facts.importId) == PrefixOf(r0.facts.importId)
            && (|r.facts.importId| <= YNAB_IMPORT_ID_MAX_LEN <==> |PrefixOf(r0.facts.importId)| <= 6)
            && r.facts.status == (if r.facts.cleared == Uncleared then Pending else Booked)
            && r.facts.importId == DeriveImportId(cfg.hash, PrefixOf(r0.facts.importId), ReaddSeed(key, r.readdCount))
            && (ReaddSeed(otherKey, otherRound) == ReaddSeed(key, r.readdCount) ==>
                  otherKey == key && otherRound == r0.readdCount + |ledgers|)
  {
    var r0 := w.table[key];
    var prefix := PrefixOf(r0.facts.importId);
    assert InDomain(cfg.hash, key, prefix, r0, r0);
    hide Rounds, AllReadded, InDomain, PrefixOf;
    RoundsStay(w, cfg, key, ledgers, prefix, r0);
    RowInDomain(cfg.hash, key, prefix, Rounds(w, cfg, key, ledgers).table[key], r0, otherKey, otherRound);
  }

  lemma RowInDomain(hash: Hasher, key: string, prefix: string, r: Row, first: Row, otherKey: string, otherRound: nat)
    requires InDomain(hash, key, prefix, r, first) && r.readdCount > first.readdCount
    ensures PrefixOf(r.facts.importId) == prefix
    ensures |r.facts.importId| <= YNAB_IMPORT_ID_MAX_LEN <==> |prefix| <= 6
    ensures r.facts.status == if r.facts.cleared == Uncleared then Pending else Booked
    ensures r.facts.importId == DeriveImportId(hash, prefix, ReaddSeed(key, r.readdCount))
    ensures ReaddSeed(otherKey, otherRound) == ReaddSeed(key, r.readdCount) ==>
        otherKey == key && otherRound == r.readdCount
  {
    hide PrefixOf, DeriveImportId, ReaddSeed;
    ImportIdFits(hash, prefix, ReaddSeed(key, r.readdCount));
    if ReaddSeed(otherKey, otherRound) == ReaddSeed(key, r.readdCount) {
      ReaddSeedInjective(otherKey, otherRound, key, r.readdCount);
    }
  }

  /** A re-add leaves the table alone, or replaces its own row. */
  lemma ReaddChangesOneRow(w: World, cfg: Settings, key: string)
    ensures var (w', outcome) := ReaddDeleted(w, cfg, key);
            w'.table == w.table
            || (key in w.table && outcome.Readded?
                && w'.table == w.table[key := AfterReadd(cfg.hash, key, w.table[key], outcome.txnId)])
  {
    hide PostCreates, ReportedAs, ReaddId, MarkReadded;
    if key in w.table && w.table[key].facts.status == Deleted {
      var payload := ReaddPayload(cfg.hash, key, w.table[key]);
      PostKeepsTable(w, cfg, w.table[key].facts.budget, [payload]);
      if ReaddDeleted(w, cfg, key).1.Readded? {
        MarkedIsAfterReadd(w.table, cfg.hash, key, ReaddDeleted(w, cfg, key).1.txnId);
      }
    }
  }

  lemma MarkedIsAfterReadd(t: Table, hash: Hasher, key: string, txnId: nat)
    requires key in t
    ensures MarkReadded(t, key, txnId, ReaddId(hash, key, t[key]))
         == Some(t[key := AfterReadd(hash, key, t[key], txnId)])
  {
    hide ReaddId;
  }

  lemma AfterReaddAgrees(hash: Hasher, key: string, r: Row, txnId: nat)
    requires AmountsAgree(r)
    ensures AmountsAgree(AfterReadd(hash, key, r, txnId))
    ensures StatusAgrees(AfterReadd(hash, key, r, txnId).facts)
  {
    hide ReaddId, Money.ToMilliunits;
  }

  /** A re-add keeps both amount columns equal, and PENDING and uncleared in step. */
  lemma ReaddKeepsConsistent(w: World, cfg: Settings, key: string)
    ensures AmountsSound(w.table) ==> AmountsSound(ReaddDeleted(w, cfg, key).0.table)
    ensures Consistent(w.table) ==> Consistent(ReaddDeleted(w, cfg, key).0.table)
  {
    ReaddChangesOneRow(w, cfg, key);
    hide ReaddDeleted, AfterReadd, AmountsAgree, StatusAgrees;
    var (w', outcome) := ReaddDeleted(w, cfg, key);
    if outcome.Readded? && key in w.table && AmountsAgree(w.table[key]) {
      AfterReaddAgrees(cfg.hash, key, w.table[key], outcome.txnId);
    }
  }
}
