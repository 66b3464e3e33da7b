/**
 * The remote ledger as the engine relies on it (ynab/client.py and the
 * findings recorded there).  A transaction's id is its position: nothing is
 * ever removed, so an import_id stays burned after its transaction is deleted.
 */
module Ynab {
  import opened Wrappers
  import opened Sequences
  import PendingMatch

  datatype ClearedFlag = Cleared | Uncleared

  datatype Txn = Txn(
    budget: string, account: string, date: int, amount: int, payee: string, cleared: ClearedFlag,
    importId: Option<string>, matched: Option<nat>, deleted: bool, split: bool)

  type Ledger = seq<Txn>

  /** A natively matched import: it anchors the import_id but never shows in the account's list. */
  predicate IsShadow(t: Txn) { t.importId.Some? && t.matched.Some? }

  predicate IsVisible(t: Txn) { !t.deleted && !IsShadow(t) }

  ghost predicate Visible(l: Ledger, id: nat) { id < |l| && IsVisible(l[id]) }

  predicate Holds(t: Txn, budget: string, importId: string) {
    t.budget == budget && t.importId == Some(importId)
  }

  predicate Burned(l: Ledger, budget: string, importId: string) {
    exists i :: 0 <= i < |l| && Holds(l[i], budget, importId)
  }

  /** The payload of a create; `payee` is empty and `transferTo` set when it names a transfer payee. */
  datatype Payload = Payload(
    account: string, date: int, amount: int, payee: string, cleared: ClearedFlag, importId: string,
    transferTo: Option<string>)

  datatype Reported = Reported(id: nat, importId: Option<string>, matched: Option<nat>, transferId: Option<nat>,
                               payee: string)

  datatype Response = Response(rows: seq<Reported>, duplicates: seq<string>)

  /** YNAB's undocumented native matching: which existing transaction, if any, it links a new one to. */
  type NativeMatcher = (Ledger, string, Payload) -> Option<nat>

  predicate CanMatch(l: Ledger, id: nat, budget: string, p: Payload) {
    && id < |l| && IsVisible(l[id]) && l[id].importId.None? && l[id].matched.None?
    && l[id].budget == budget && l[id].account == p.account && l[id].amount == p.amount
  }

  function NewTxn(budget: string, p: Payload, matched: Option<nat>): Txn {
    Txn(budget, p.account, p.date, p.amount, p.payee, p.cleared, Some(p.importId), matched, false, false)
  }

  function CreateOne(l: Ledger, native: NativeMatcher, budget: string, p: Payload): (Ledger, Response) {
    var id := |l|;
    if Burned(l, budget, p.importId) then (l, Response([], [p.importId]))
    else if p.transferTo.Some? then
      // YNAB adds the other leg itself, uncleared and without an import_id.
      var leg := Txn(budget, p.transferTo.value, p.date, -p.amount, p.payee, Uncleared, None, None, false, false);
      (l + [NewTxn(budget, p, None), leg],
       Response([Reported(id, Some(p.importId), None, Some(id + 1), p.payee)], []))
    else
      var original := native(l, budget, p);
      if original.Some? && CanMatch(l, original.value, budget, p) then
        // The original is echoed back in the same response and turns 'cleared'.
        var o := original.value;
        (l[o := l[o].(matched := Some(id), cleared := Cleared)] + [NewTxn(budget, p, Some(o))],
         Response([Reported(id, Some(p.importId), Some(o), None, p.payee),
                   Reported(o, None, Some(id), None, l[o].payee)], []))
      else
        (l + [NewTxn(budget, p, None)], Response([Reported(id, Some(p.importId), None, None, p.payee)], []))
  }

  /** One batch create: each submitted import_id comes back either created or as a duplicate. */
  function CreateAll(l: Ledger, native: NativeMatcher, budget: string, ps: seq<Payload>): (Ledger, Response)
    decreases |ps|
  {
    if ps == [] then (l, Response([], []))
    else
      var (l1, r1) := CreateOne(l, native, budget, ps[0]);
      var (l2, r2) := CreateAll(l1, native, budget, ps[1..]);
      (l2, Response(r1.rows + r2.rows, r1.duplicates + r2.duplicates))
  }

  predicate CanPatch(l: Ledger, budget: string, id: nat) {
    id < |l| && l[id].budget == budget && !l[id].deleted
  }

  function Patch(l: Ledger, budget: string, id: nat, amount: Option<int>, cleared: ClearedFlag): Ledger {
    if !CanPatch(l, budget, id) then l
    else l[id := l[id].(amount := if amount.Some? then amount.value else l[id].amount, cleared := cleared)]
  }

  function Delete(l: Ledger, budget: string, id: nat): Ledger {
    if CanPatch(l, budget, id) then l[id := l[id].(deleted := true)] else l
  }

  // --- reads -----------------------------------------------------------------------

  function FirstIndex(l: Ledger, keep: Txn -> bool, from: nat := 0): (found: Option<nat>)
    requires from <= |l|
    ensures found.Some? ==> from <= found.value < |l| && keep(l[found.value])
    ensures found.Some? ==> forall i :: from <= i < found.value ==> !keep(l[i])
    ensures found.None? ==> forall i :: from <= i < |l| ==> !keep(l[i])
    decreases |l| - from
  {
    if from == |l| then None else if keep(l[from]) then Some(from) else FirstIndex(l, keep, from + 1)
  }

  /**
   * The source's comments disagree on whether an account's plain list shows a natively matched shadow, so both
   * answers are allowed: `shadowsListed` says which.
   */
  function ListedUnder(budget: string, account: string, importId: string, since: int, shadowsListed: bool)
    : Txn -> bool
  {
    (t: Txn) => Holds(t, budget, importId) && t.account == account && t.date >= since
                && !t.deleted && (shadowsListed || !IsShadow(t))
  }

  function HeldSince(budget: string, importId: string, since: int): Txn -> bool {
    (t: Txn) => Holds(t, budget, importId) && t.date >= since
  }

  /** find_transaction_by_import_id: a scan of the account's plain list, which omits deleted rows. */
  function FindByImportId(l: Ledger, budget: string, account: string, importId: string, since: int,
                          shadowsListed: bool): Option<nat> {
    FirstIndex(l, ListedUnder(budget, account, importId, since, shadowsListed))
  }

  /** find_transaction_including_deleted: the whole budget, deleted rows and shadows included. */
  function FindIncludingDeleted(l: Ledger, budget: string, importId: string, since: int): Option<nat> {
    FirstIndex(l, HeldSince(budget, importId, since))
  }

  /** Whether the listing that includes deleted rows shows this id alive. */
  predicate ListedAlive(l: Ledger, budget: string, id: nat, since: Option<int>) {
    CanPatch(l, budget, id) && (since.Some? ==> l[id].date >= since.value)
  }

  /** list_unimported_transactions: visible rows of the account that no source imported. */
  function ListUnimported(l: Ledger, budget: string, account: string, since: int, from: nat := 0)
    : seq<PendingMatch.ManualCandidate>
    requires from <= |l|
    decreases |l| - from
  {
    if from == |l| then []
    else
      var t, rest := l[from], ListUnimported(l, budget, account, since, from + 1);
      if t.budget == budget && t.account == account && t.importId.None? && IsVisible(t) && t.date >= since
      then [PendingMatch.ManualCandidate(from, t.amount, t.date, t.split, t.payee)] + rest
      else rest
  }

  /**
   * What a single API call does: take effect and answer, be answered with a 400 or with another error status, or get
   * lost on the way there or back.
   */
  datatype Fault = Works | BadRequest | Refused | LostBefore | LostAfter
}
