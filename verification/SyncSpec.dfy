/**
 * sync/engine.py, phase 2, as functions over the three stores: the local
 * table, the remote ledger and the script of what each API call will do.
 * A step that raises leaves `status` other than Running, and nothing runs
 * after it.  The class in Engine.dfy is proved to compute these functions.
 */
module SyncSpec {
  import opened Wrappers
  import opened Ynab
  import opened StateDb
  import opened Money
  import DateWindow
  import ImportIds

  datatype Create = Create(
    trackingKey: string, payload: Payload, status: BookingStatus, accountKey: string, provider: string,
    accountNumber: Option<string>, remoteAccountNumber: Option<string>, secondary: Option<Create>)

  /** _PendingUpdate and _PendingFuzzyUpdate; a plain update keeps its key. */
  datatype Correction =
    | Update(oldKey: string, txnId: nat, newAmount: real, date: int, budget: string)
    | FuzzyUpdate(oldKey: string, newKey: string, txnId: nat, newAmount: real, date: int, budget: string)

  /** Where the row of a correction ends up. */
  function FinalKey(c: Correction): string { if c.FuzzyUpdate? then c.newKey else c.oldKey }

  datatype ManualMatch = ManualMatch(
    trackingKey: string, payload: Payload, originalId: nat, status: BookingStatus, accountKey: string,
    rawPayee: string)

  datatype Batch<T> = Batch(budget: string, items: seq<T>)

  /** ClassifiedCycle: dictionaries of lists, in the order they were filled. */
  datatype Cycle = Cycle(
    creates: seq<Batch<Create>>, updates: map<string, seq<Correction>>, fuzzyUpdates: map<string, seq<Correction>>,
    matches: seq<Batch<ManualMatch>>)

  datatype Settings = Settings(
    backfillDays: nat, pendingWindowDays: int, unit: DateWindow.MatchWindowUnit, workingDays: DateWindow.WorkingDayCount,
    native: NativeMatcher, hash: ImportIds.Hasher, shadowsListed: bool)

  datatype Status = Running | CallFailed | DbFailed | NeedsRecovery

  /** The counters behind CycleResult. */
  datatype Tally = Tally(created: nat, updated: nat, duplicates: nat, resolvedDeleted: nat)

  datatype World = World(table: Table, ledger: Ledger, script: seq<Fault>, now: int, status: Status, tally: Tally)

  function Record(w: World, key: string, facts: Facts): World { w.(table := Upsert(w.table, key, facts, w.now)) }
  function Halt(w: World, status: Status): World { w.(status := status) }
  function CountCreated(w: World): World { w.(tally := w.tally.(created := w.tally.created + 1)) }
  function CountUpdated(w: World): World { w.(tally := w.tally.(updated := w.tally.updated + 1)) }
  function CountDeleted(w: World): World { w.(tally := w.tally.(resolvedDeleted := w.tally.resolvedDeleted + 1)) }
  function CountDuplicates(w: World, n: nat): World { w.(tally := w.tally.(duplicates := w.tally.duplicates + n)) }

  // --- API calls -----------------------------------------------------------------------

  /** An exhausted script means that every further call works. */
  function NextFault(w: World): Fault { if w.script == [] then Works else w.script[0] }

  function Consume(w: World): World { w.(script := if w.script == [] then [] else w.script[1..]) }

  /** A call that would turn the ledger into l; any failure raises. */
  function Write(w: World, l: Ledger): World {
    match NextFault(w)
    case Works => Consume(w.(ledger := l))
    case LostAfter => Halt(Consume(w.(ledger := l)), CallFailed)
    case _ => Halt(Consume(w), CallFailed)
  }

  /** A call whose caller logs a 400 and goes on; a PATCH of a transaction that is gone is answered with one, too. */
  function WriteUnless400(w: World, l: Ledger): World {
    if NextFault(w) == BadRequest then Consume(w) else Write(w, l)
  }

  function Read(w: World): World {
    if NextFault(w) == Works then Consume(w) else Halt(Consume(w), CallFailed)
  }

  // --- recording what a create returned --------------------------------------------------

  /** by_import_id: the last create with this import_id wins. */
  function FindCreate(creates: seq<Create>, importId: string): (found: Option<Create>)
    ensures found.Some? ==> found.value in creates && found.value.payload.importId == importId
    ensures found.None? ==> forall p :: p in creates ==> p.payload.importId != importId
  {
    if creates == [] then None
    else if creates[|creates| - 1].payload.importId == importId then Some(creates[|creates| - 1])
    else FindCreate(creates[..|creates| - 1], importId)
  }

  function PayeeOr(payee: string, fallback: string): string { if payee != "" then payee else fallback }

  function CreateFacts(budget: string, p: Create, txnId: nat, status: BookingStatus, amount: int, payee: string): Facts {
    Facts(p.payload.importId, txnId, budget, p.accountKey, status, FromMilliunits(amount), payee, p.payload.date,
          p.payload.account, p.payload.cleared)
  }

  /** _track_native_match: track the visible original, and un-clear it again for a pending import. */
  function TrackNativeMatch(w: World, key: string, facts: Facts): World {
    var tracked := Record(w, key, facts);
    if facts.status == Pending && facts.cleared == Uncleared then
      WriteUnless400(tracked, Patch(w.ledger, facts.budget, facts.txnId, None, Uncleared))
    else tracked
  }

  const TRANSFER_SECONDARY_IMPORT_ID_PREFIX := "LOCAL:XFER:"

  function SecondaryImportId(cfg: Settings, key: string): string {
    TRANSFER_SECONDARY_IMPORT_ID_PREFIX + cfg.hash(key)[..20]
  }

  function ClearedFor(status: BookingStatus): ClearedFlag { if status == Pending then Uncleared else Cleared }

  /** The row for the secondary leg: a local id that YNAB never sees, and the flag of its own status. */
  function SecondaryFacts(cfg: Settings, budget: string, s: Create, txnId: nat, payee: string): Facts {
    CreateFacts(budget, s, txnId, s.status, s.payload.amount, payee)
      .(importId := SecondaryImportId(cfg, s.trackingKey), cleared := ClearedFor(s.status))
  }

  /** _record_transfer_secondary: the leg that YNAB created by itself. */
  function RecordSecondary(w: World, cfg: Settings, budget: string, secondary: Create, row: Reported): World {
    if row.transferId.None? then w
    else
      var facts := SecondaryFacts(cfg, budget, secondary, row.transferId.value, row.payee);
      var tracked := CountCreated(Record(w, secondary.trackingKey, facts));
      if secondary.status == Booked then
        WriteUnless400(tracked, Patch(w.ledger, budget, row.transferId.value, Some(secondary.payload.amount), Cleared))
      else tracked
  }

  /** One row of the response, in _record_created. */
  function RecordRow(w: World, cfg: Settings, budget: string, creates: seq<Create>, row: Reported): World {
    if row.importId.None? then w
    else
      var found := FindCreate(creates, row.importId.value);
      if found.None? then w
      else
        var p := found.value;
        var payee := PayeeOr(p.payload.payee, row.payee);
        if p.secondary.None? && row.matched.Some? then
          var facts := CreateFacts(budget, p, row.matched.value, p.status, p.payload.amount, payee);
          TrackNativeMatch(CountUpdated(w), p.trackingKey, facts)
        else
          var facts := CreateFacts(budget, p, row.id, p.status, p.payload.amount, payee);
          var tracked := CountCreated(Record(w, p.trackingKey, facts));
          if p.secondary.Some? then RecordSecondary(tracked, cfg, budget, p.secondary.value, row) else tracked
  }

  /** _record_created. */
  function RecordCreated(w: World, cfg: Settings, budget: string, creates: seq<Create>, rows: seq<Reported>): World
    decreases |rows|
  {
    if rows == [] || w.status != Running then w
    else RecordCreated(RecordRow(w, cfg, budget, creates, rows[0]), cfg, budget, creates, rows[1..])
  }

  /** The row for a duplicate that is still listed in its account. */
  function RecoveredFacts(l: Ledger, budget: string, p: Create, id: nat): Facts
    requires id < |l|
  {
    CreateFacts(budget, p, id, p.status, l[id].amount, p.payload.payee)
  }

  /** The row for a duplicate whose transaction was deleted in YNAB. */
  function DeletedFacts(budget: string, p: Create, id: nat): Facts {
    CreateFacts(budget, p, id, Deleted, p.payload.amount, p.payload.payee)
  }

  function LookUp(l: Ledger, cfg: Settings, budget: string, p: Create): (id: Option<nat>)
    ensures id.Some? ==> id.value < |l|
  {
    FindByImportId(l, budget, p.payload.account, p.payload.importId,
                   DateWindow.SinceDateBound(p.payload.date, cfg.backfillDays), cfg.shadowsListed)
  }

  function LookUpGone(l: Ledger, cfg: Settings, budget: string, p: Create): (id: Option<nat>)
    ensures id.Some? ==> id.value < |l| && l[id.value].deleted
  {
    var id := FindIncludingDeleted(l, budget, p.payload.importId,
                                   DateWindow.SinceDateBound(p.payload.date, cfg.backfillDays));
    if id.Some? && l[id.value].deleted then id else None
  }

  /** An untracked duplicate: look it up, first in the account, then among deleted transactions. */
  function Recover(w: World, cfg: Settings, budget: string, p: Create): World {
    var read := Read(w);
    var existing := LookUp(w.ledger, cfg, budget, p);
    if read.status != Running then read
    else if existing.Some? then Record(read, p.trackingKey, RecoveredFacts(w.ledger, budget, p, existing.value))
    else
      var again := Read(read);
      var gone := LookUpGone(w.ledger, cfg, budget, p);
      if again.status != Running || gone.None? then again
      else CountDeleted(Record(again, p.trackingKey, DeletedFacts(budget, p, gone.value)))
  }

  /** One duplicate import_id, in _backfill_duplicates. */
  function BackfillOne(w: World, cfg: Settings, budget: string, creates: seq<Create>, importId: string): World {
    var found := FindCreate(creates, importId);
    if found.None? || found.value.trackingKey in w.table then w else Recover(w, cfg, budget, found.value)
  }

  /** _backfill_duplicates. */
  function Backfill(w: World, cfg: Settings, budget: string, creates: seq<Create>, importIds: seq<string>): World
    decreases |importIds|
  {
    if importIds == [] || w.status != Running then w
    else Backfill(BackfillOne(w, cfg, budget, creates, importIds[0]), cfg, budget, creates, importIds[1..])
  }

  function Payloads(creates: seq<Create>): seq<Payload> {
    seq(|creates|, i requires 0 <= i < |creates| => creates[i].payload)
  }

  /** create_transactions, which makes no call for an empty list. */
  function PostCreates(w: World, cfg: Settings, budget: string, payloads: seq<Payload>): (World, Response) {
    if payloads == [] then (w, Response([], []))
    else
      var (l, response) := CreateAll(w.ledger, cfg.native, budget, payloads);
      (Write(w, l), response)
  }

  function SubmitCreates(w: World, cfg: Settings, batch: Batch<Create>): World {
    var (posted, response) := PostCreates(w, cfg, batch.budget, Payloads(batch.items));
    if posted.status != Running then posted
    else
      var recorded := RecordCreated(posted, cfg, batch.budget, batch.items, response.rows);
      if recorded.status != Running then recorded
      else Backfill(CountDuplicates(recorded, |response.duplicates|), cfg, batch.budget, batch.items,
                    response.duplicates)
  }

  function CreatesPhase(w: World, cfg: Settings, batches: seq<Batch<Create>>): World
    decreases |batches|
  {
    if batches == [] || w.status != Running then w
    else CreatesPhase(SubmitCreates(w, cfg, batches[0]), cfg, batches[1..])
  }

  // --- pending -> booked corrections ----------------------------------------------------

  /** mark_booked or rekey_pending_to_booked, once the PATCH went through. */
  function Settle(w: World, c: Correction): World {
    match c
    case Update(key, _, amount, _, _) =>
      var booked := MarkBooked(w.table, key, amount);
      if booked.Some? then CountUpdated(w.(table := booked.value)) else Halt(w, DbFailed)
    case FuzzyUpdate(oldKey, newKey, _, amount, _, _) =>
      match Rekey(w.table, oldKey, newKey, amount) {
        case Rekeyed(table, _) => CountUpdated(w.(table := table))
        case AlreadyRekeyed => CountUpdated(w)
        case _ => Halt(w, DbFailed)
      }
  }

  /**
   * One correction, judged on the snapshot taken before the first PATCH.  Where its target is gone it stops with
   * NeedsRecovery, which Recovery.dfy takes up.
   */
  function Correct(w: World, budget: string, snapshot: Ledger, since: Option<int>, c: Correction): World {
    if !ListedAlive(snapshot, budget, c.txnId, since) then Halt(w, NeedsRecovery)
    else if NextFault(w) == BadRequest then Halt(Consume(w), NeedsRecovery)
    else if !CanPatch(w.ledger, budget, c.txnId) then
      // A PATCH that arrives is answered with a 400.
      var read := Read(w);
      if read.status != Running then read else Halt(read, NeedsRecovery)
    else
      var patched := Write(w, Patch(w.ledger, budget, c.txnId, Some(ToMilliunits(c.newAmount)), Cleared));
      if patched.status != Running then patched else Settle(patched, c)
  }

  function CorrectAll(w: World, budget: string, snapshot: Ledger, since: Option<int>, cs: seq<Correction>): World
    decreases |cs|
  {
    if cs == [] || w.status != Running then w
    else CorrectAll(Correct(w, budget, snapshot, since, cs[0]), budget, snapshot, since, cs[1..])
  }

  function Lookup(m: map<string, seq<Correction>>, budget: string): seq<Correction> {
    if budget in m then m[budget] else []
  }

  /** The plain updates of a budget, then its fuzzy ones. */
  function CorrectionsOf(cycle: Cycle, budget: string): seq<Correction> {
    Lookup(cycle.updates, budget) + Lookup(cycle.fuzzyUpdates, budget)
  }

  function EarliestDate(cs: seq<Correction>): (d: int)
    requires cs != []
    ensures forall c :: c in cs ==> d <= c.date
  {
    if |cs| == 1 then cs[0].date
    else
      var rest := EarliestDate(cs[1..]);
      if cs[0].date < rest then cs[0].date else rest
  }

  function SinceOf(cfg: Settings, cs: seq<Correction>): Option<int> {
    if cs == [] then None else Some(DateWindow.SinceDateBound(EarliestDate(cs), cfg.backfillDays))
  }

  function CorrectBudget(w: World, cfg: Settings, cycle: Cycle, budget: string): World {
    var cs := CorrectionsOf(cycle, budget);
    var read := Read(w);
    if read.status != Running then read
    else CorrectAll(read, budget, w.ledger, SinceOf(cfg, cs), cs)
  }

  /** The budgets come from a set, so their order is not fixed and may differ between attempts. */
  function CorrectionsPhase(w: World, cfg: Settings, cycle: Cycle, budgets: seq<string>): World
    decreases |budgets|
  {
    if budgets == [] || w.status != Running then w
    else CorrectionsPhase(CorrectBudget(w, cfg, cycle, budgets[0]), cfg, cycle, budgets[1..])
  }

  // --- replacing manual transactions -----------------------------------------------------

  function FindMatch(matches: seq<ManualMatch>, importId: string): (found: Option<ManualMatch>)
    ensures found.Some? ==> found.value in matches && found.value.payload.importId == importId
    ensures found.None? ==> forall p :: p in matches ==> p.payload.importId != importId
  {
    if matches == [] then None
    else if matches[|matches| - 1].payload.importId == importId then Some(matches[|matches| - 1])
    else FindMatch(matches[..|matches| - 1], importId)
  }

  function MatchFacts(budget: string, p: ManualMatch, txnId: nat): Facts {
    Facts(p.payload.importId, txnId, budget, p.accountKey, p.status, FromMilliunits(p.payload.amount), p.rawPayee,
          p.payload.date, p.payload.account, p.payload.cleared)
  }

  /** The call is answered with an error status. */
  predicate IsRejected(fault: Fault) { fault == BadRequest || fault == Refused }

  /** _delete_original: a 404 is fine, another error status is logged, a lost connection raises. */
  function DeleteOriginal(w: World, budget: string, id: nat): World {
    if IsRejected(NextFault(w)) then Consume(w) else Write(w, Delete(w.ledger, budget, id))
  }

  function FinishNative(w: World, budget: string, p: ManualMatch): World {
    TrackNativeMatch(CountUpdated(w), p.trackingKey, MatchFacts(budget, p, p.originalId))
  }

  function FinishFallback(w: World, budget: string, p: ManualMatch, shadowId: nat): World {
    DeleteOriginal(CountCreated(Record(w, p.trackingKey, MatchFacts(budget, p, shadowId))), budget, p.originalId)
  }

  function MatchRow(w: World, budget: string, matches: seq<ManualMatch>, row: Reported): World {
    if row.importId.None? || FindMatch(matches, row.importId.value).None? then w
    else
      var p := FindMatch(matches, row.importId.value).value;
      if row.matched.Some? then FinishNative(w, budget, p) else FinishFallback(w, budget, p, row.id)
  }

  function MatchRows(w: World, budget: string, matches: seq<ManualMatch>, rows: seq<Reported>): World
    decreases |rows|
  {
    if rows == [] || w.status != Running then w
    else MatchRows(MatchRow(w, budget, matches, rows[0]), budget, matches, rows[1..])
  }

  function MatchDuplicate(w: World, cfg: Settings, budget: string, matches: seq<ManualMatch>, importId: string): World {
    var found := FindMatch(matches, importId);
    if found.None? then w
    else
      var p := found.value;
      if p.trackingKey in w.table then
        var txnId := w.table[p.trackingKey].facts.txnId;
        if txnId == p.originalId then w else DeleteOriginal(w, budget, p.originalId)
      else
        var read := Read(w);
        if read.status != Running then read
        else
          var since := DateWindow.SinceDateBound(p.payload.date, cfg.backfillDays);
          var shadow := FindByImportId(w.ledger, budget, p.payload.account, importId, since, cfg.shadowsListed);
          if shadow.None? then read
          else if w.ledger[shadow.value].matched.Some? then FinishNative(read, budget, p)
          else FinishFallback(read, budget, p, shadow.value)
  }

  function MatchDuplicates(w: World, cfg: Settings, budget: string, matches: seq<ManualMatch>, importIds: seq<string>)
    : World
    decreases |importIds|
  {
    if importIds == [] || w.status != Running then w
    else MatchDuplicates(MatchDuplicate(w, cfg, budget, matches, importIds[0]), cfg, budget, matches, importIds[1..])
  }

  function MatchPayloads(matches: seq<ManualMatch>): seq<Payload> {
    seq(|matches|, i requires 0 <= i < |matches| => matches[i].payload)
  }

  function SubmitMatches(w: World, cfg: Settings, batch: Batch<ManualMatch>): World {
    var (posted, response) := PostCreates(w, cfg, batch.budget, MatchPayloads(batch.items));
    if posted.status != Running then posted
    else
      var recorded := MatchRows(posted, batch.budget, batch.items, response.rows);
      if recorded.status != Running then recorded
      else MatchDuplicates(recorded, cfg, batch.budget, batch.items, response.duplicates)
  }

  function MatchesPhase(w: World, cfg: Settings, batches: seq<Batch<ManualMatch>>): World
    decreases |batches|
  {
    if batches == [] || w.status != Running then w
    else MatchesPhase(SubmitMatches(w, cfg, batches[0]), cfg, batches[1..])
  }

  // --- submit ----------------------------------------------------------------------------

  /** One attempt at submit(); `budgets` is the order in which the set of corrected budgets is visited. */
  function Submit(w: World, cfg: Settings, cycle: Cycle, budgets: seq<string>): World {
    MatchesPhase(CorrectionsPhase(CreatesPhase(w, cfg, cycle.creates), cfg, cycle, budgets), cfg, cycle.matches)
  }

  /** budgets lists every budget with corrections exactly once. */
  ghost predicate VisitsCorrected(cycle: Cycle, budgets: seq<string>) {
    && (forall a, b :: 0 <= a < b < |budgets| ==> budgets[a] != budgets[b])
    && forall b :: b in budgets <==> b in cycle.updates || b in cycle.fuzzyUpdates
  }

  /** A fresh attempt on the current stores. */
  function Attempt(table: Table, ledger: Ledger, script: seq<Fault>, now: int): World {
    World(table, ledger, script, now, Running, Tally(0, 0, 0, 0))
  }

  datatype Try = Try(script: seq<Fault>, now: int, budgets: seq<string>)

  /** The stores after one attempt after another, each on what the previous one left. */
  function AfterTries(cfg: Settings, cycle: Cycle, w: World, tries: seq<Try>): World
    decreases |tries|
  {
    if tries == [] then w
    else
      var t := tries[0];
      AfterTries(cfg, cycle, Submit(Attempt(w.table, w.ledger, t.script, t.now), cfg, cycle, t.budgets), tries[1..])
  }

  // --- cycles of one batch ---------------------------------------------------------------

  lemma BatchSteps(w: World, cfg: Settings, batch: Batch<Create>, posted: World, response: Response, recorded: World)
    requires PostCreates(w, cfg, batch.budget, Payloads(batch.items)) == (posted, response) && posted.status == Running
    requires RecordCreated(posted, cfg, batch.budget, batch.items, response.rows) == recorded
    requires recorded.status == Running
    ensures SubmitCreates(w, cfg, batch)
         == Backfill(CountDuplicates(recorded, |response.duplicates|), cfg, batch.budget, batch.items, response.duplicates)
  {
    hide PostCreates, RecordCreated, Backfill, Payloads;
  }

  lemma OnlyCreates(w: World, cfg: Settings, batch: Batch<Create>)
    requires w.status == Running
    ensures Submit(w, cfg, Cycle([batch], map[], map[], []), []) == SubmitCreates(w, cfg, batch)
  {
    hide SubmitCreates;
    var w1 := SubmitCreates(w, cfg, batch);
    assert [batch][1..] == [];
    assert CreatesPhase(w, cfg, [batch]) == CreatesPhase(w1, cfg, []) == w1;
  }

  lemma OnlyCorrections(w: World, cfg: Settings, updates: map<string, seq<Correction>>,
                        fuzzy: map<string, seq<Correction>>, budget: string)
    requires w.status == Running
    ensures var cycle := Cycle([], updates, fuzzy, []);
            Submit(w, cfg, cycle, [budget]) == CorrectBudget(w, cfg, cycle, budget)
  {
    hide CorrectBudget;
    var cycle := Cycle([], updates, fuzzy, []);
    var w1 := CorrectBudget(w, cfg, cycle, budget);
    assert [budget][1..] == [];
    assert CorrectionsPhase(w, cfg, cycle, [budget]) == CorrectionsPhase(w1, cfg, cycle, []) == w1;
  }

  /** One batch of creates, then the corrections of one budget. */
  lemma CreatesThenCorrections(w: World, cfg: Settings, batch: Batch<Create>, updates: map<string, seq<Correction>>,
                               fuzzy: map<string, seq<Correction>>, budget: string)
    requires w.status == Running && SubmitCreates(w, cfg, batch).status == Running
    ensures var cycle := Cycle([batch], updates, fuzzy, []);
            Submit(w, cfg, cycle, [budget]) == CorrectBudget(SubmitCreates(w, cfg, batch), cfg, cycle, budget)
  {
    hide CorrectBudget, SubmitCreates;
    var cycle := Cycle([batch], updates, fuzzy, []);
    var w1 := SubmitCreates(w, cfg, batch);
    assert [batch][1..] == [] && [budget][1..] == [];
    assert CreatesPhase(w, cfg, [batch]) == CreatesPhase(w1, cfg, []) == w1;
    var w2 := CorrectBudget(w1, cfg, cycle, budget);
    assert CorrectionsPhase(w1, cfg, cycle, [budget]) == CorrectionsPhase(w2, cfg, cycle, []) == w2;
  }

  lemma OnlyMatches(w: World, cfg: Settings, batch: Batch<ManualMatch>)
    requires w.status == Running
    ensures Submit(w, cfg, Cycle([], map[], map[], [batch]), []) == SubmitMatches(w, cfg, batch)
  {
    hide SubmitMatches;
    var w1 := SubmitMatches(w, cfg, batch);
    assert [batch][1..] == [];
    assert MatchesPhase(w, cfg, [batch]) == MatchesPhase(w1, cfg, []) == w1;
  }
}
