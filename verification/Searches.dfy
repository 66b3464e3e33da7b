/**
 * What each search of the ledger finds, in the fields of a transaction, and
 * how far back it looks; and what each answer of a call leads to.
 */
module Searches {
  import opened Wrappers
  import opened Ynab
  import opened StateDb
  import opened SyncSpec
  import opened Creation
  import opened Recovery
  import DateWindow
  import Money
  import PendingMatch

  // --- duplicates --------------------------------------------------------------------------------------------------

  /** Created under this import_id, at most the backfill before this date. */
  ghost predicate ImportedAs(t: Txn, cfg: Settings, budget: string, p: Payload) {
    t.budget == budget && t.importId == Some(p.importId) && t.date >= p.date - cfg.backfillDays
  }

  /** And listed in the account of the payload. */
  ghost predicate ListedAs(t: Txn, cfg: Settings, budget: string, p: Payload) {
    && ImportedAs(t, cfg, budget, p) && t.account == p.account && !t.deleted
    && (cfg.shadowsListed || t.matched.None?)
  }

  lemma FirstOf(l: Ledger, keep: Txn -> bool, id: nat)
    ensures FirstIndex(l, keep) == Some(id) <==> id < |l| && keep(l[id]) && forall i :: 0 <= i < id ==> !keep(l[i])
  {
  }

  /** The duplicate of a create is the first transaction that is listed under its import_id in its own account. */
  lemma DuplicateIsListed(l: Ledger, cfg: Settings, budget: string, p: Create, id: nat)
    ensures LookUp(l, cfg, budget, p) == Some(id)
       <==> id < |l| && ListedAs(l[id], cfg, budget, p.payload)
            && forall i :: 0 <= i < id ==> !ListedAs(l[i], cfg, budget, p.payload)
  {
    var since := DateWindow.SinceDateBound(p.payload.date, cfg.backfillDays);
    FirstOf(l, ListedUnder(budget, p.payload.account, p.payload.importId, since, cfg.shadowsListed), id);
    hide FirstIndex;
  }

  /** It counts as deleted if the first transaction of the budget under its import_id is. */
  lemma DeletedDuplicateIsFirst(l: Ledger, cfg: Settings, budget: string, p: Create, id: nat)
    ensures LookUpGone(l, cfg, budget, p) == Some(id)
       <==> id < |l| && ImportedAs(l[id], cfg, budget, p.payload) && l[id].deleted
            && forall i :: 0 <= i < id ==> !ImportedAs(l[i], cfg, budget, p.payload)
  {
    var since := DateWindow.SinceDateBound(p.payload.date, cfg.backfillDays);
    FirstOf(l, HeldSince(budget, p.payload.importId, since), id);
    hide FirstIndex;
  }

  lemma ShadowIsFirst(l: Ledger, cfg: Settings, budget: string, p: Payload)
    ensures var since := DateWindow.SinceDateBound(p.date, cfg.backfillDays);
            var shadow := FindByImportId(l, budget, p.account, p.importId, since, cfg.shadowsListed);
            && (shadow.Some? ==> FirstListed(l, cfg, budget, p, shadow.value))
            && (shadow.None? ==> forall i :: 0 <= i < |l| ==> !ListedAs(l[i], cfg, budget, p))
  {
  }

  lemma OneIsFirst(l: Ledger, cfg: Settings, budget: string, p: Payload, id: nat, other: nat)
    requires FirstListed(l, cfg, budget, p, id) && FirstListed(l, cfg, budget, p, other)
    ensures id == other
  {
    hide ListedAs;
    assert !(id < other) && !(other < id);
  }

  /** An untracked duplicate match gets a row for the first listed import, or for its original; or none is listed. */
  lemma MatchedDuplicateIsListed(w: World, cfg: Settings, budget: string, p: ManualMatch)
    requires w.script == [] && w.status == Running && p.trackingKey !in w.table
    ensures var w' := MatchDuplicate(w, cfg, budget, [p], p.payload.importId);
            && (forall id: nat :: FirstListed(w.ledger, cfg, budget, p.payload, id) ==>
                  p.trackingKey in w'.table
                  && w'.table[p.trackingKey].facts.txnId == if w.ledger[id].matched.Some? then p.originalId else id)
            && (p.trackingKey in w'.table ==> exists id: nat :: FirstListed(w.ledger, cfg, budget, p.payload, id))
  {
    var since := DateWindow.SinceDateBound(p.payload.date, cfg.backfillDays);
    var shadow := FindByImportId(w.ledger, budget, p.payload.account, p.payload.importId, since, cfg.shadowsListed);
    assert FindMatch([p], p.payload.importId) == Some(p) && Read(w) == w;
    ShadowIsFirst(w.ledger, cfg, budget, p.payload);
    hide FindMatch, ListedAs, FinishNative, FinishFallback, FindByImportId, Read;
    if shadow.Some? {
      FinishRecords(w, budget, p, shadow.value);
      forall id: nat | FirstListed(w.ledger, cfg, budget, p.payload, id) ensures id == shadow.value {
        OneIsFirst(w.ledger, cfg, budget, p.payload, id, shadow.value);
      }
    }
  }

  lemma FinishRecords(w: World, budget: string, p: ManualMatch, shadowId: nat)
    ensures p.trackingKey in FinishNative(w, budget, p).table
    ensures FinishNative(w, budget, p).table[p.trackingKey].facts.txnId == p.originalId
    ensures p.trackingKey in FinishFallback(w, budget, p, shadowId).table
    ensures FinishFallback(w, budget, p, shadowId).table[p.trackingKey].facts.txnId == shadowId
  {
    hide Money.FromMilliunits, Money.ToMilliunits, Patch, Delete;
  }

  ghost predicate FirstListed(l: Ledger, cfg: Settings, budget: string, p: Payload, id: nat) {
    id < |l| && ListedAs(l[id], cfg, budget, p) && forall i :: 0 <= i < id ==> !ListedAs(l[i], cfg, budget, p)
  }

  // --- corrections -------------------------------------------------------------------------------------------------

  lemma {:induction false} EarliestIsOne(cs: seq<Correction>)
    requires cs != []
    ensures exists c :: c in cs && c.date == EarliestDate(cs)
    ensures forall c :: c in cs ==> EarliestDate(cs) <= c.date
  {
    if |cs| == 1 {
      assert cs[0] in cs;
    } else {
      EarliestIsOne(cs[1..]);
      var c :| c in cs[1..] && c.date == EarliestDate(cs[1..]);
      assert c in cs && cs[0] in cs;
    }
  }

  /** Not deleted, and dated at most the backfill before some correction of the budget. */
  ghost predicate InReach(l: Ledger, cfg: Settings, budget: string, cs: seq<Correction>, id: nat) {
    && id < |l| && l[id].budget == budget && !l[id].deleted
    && exists c :: c in cs && l[id].date >= c.date - cfg.backfillDays
  }

  /** With calls that work, a correction is applied if and only if its target is in reach of the budget's snapshot. */
  lemma CorrectedIffInReach(w: World, cfg: Settings, budget: string, cs: seq<Correction>, c: Correction)
    requires w.script == [] && w.status == Running && c in cs
    ensures var w' := Correct(w, budget, w.ledger, SinceOf(cfg, cs), c);
            && (w'.status == NeedsRecovery <==> !InReach(w.ledger, cfg, budget, cs, c.txnId))
            && (w'.status == NeedsRecovery ==> w'.ledger == w.ledger && w'.table == w.table)
            && (w'.status != NeedsRecovery ==>
                  w'.ledger == w.ledger[c.txnId := w.ledger[c.txnId].(
                    amount := Money.ToMilliunits(c.newAmount), cleared := Cleared)])
  {
    EarliestIsOne(cs);
    SinceReaches(w.ledger, cfg, budget, cs, c.txnId);
    SettleIsLocal(Write(w, Patch(w.ledger, budget, c.txnId, Some(Money.ToMilliunits(c.newAmount)), Cleared)), c);
    hide EarliestDate, Money.ToMilliunits, Settle, InReach;
  }

  lemma SinceReaches(l: Ledger, cfg: Settings, budget: string, cs: seq<Correction>, id: nat)
    requires cs != []
    ensures ListedAlive(l, budget, id, SinceOf(cfg, cs)) <==> InReach(l, cfg, budget, cs, id)
  {
    EarliestIsOne(cs);
    hide EarliestDate;
  }

  lemma SettleIsLocal(w: World, c: Correction)
    ensures Settle(w, c).ledger == w.ledger
    ensures w.status == Running ==> Settle(w, c).status != NeedsRecovery
  {
  }

  // --- answers -----------------------------------------------------------------------------------------------------

  /** The call takes effect: it works, or only its answer is lost. */
  predicate Arrives(fault: Fault) { fault == Works || fault == LostAfter }

  /** Deleting an original goes on unless the connection is lost. */
  lemma AnswersToDelete(w: World, budget: string, id: nat, fault: Fault)
    requires w.script == [fault] && w.status == Running && CanPatch(w.ledger, budget, id)
    ensures var w' := DeleteOriginal(w, budget, id);
            && w'.script == [] && w'.table == w.table
            && (w'.status == Running <==> fault == Works || fault == BadRequest || fault == Refused)
            && w'.ledger == if Arrives(fault) then w.ledger[id := w.ledger[id].(deleted := true)] else w.ledger
  {
  }

  /** Un-clearing a natively matched pending import goes on after a 400; the row is recorded whatever happens. */
  lemma AnswersToUnclear(w: World, key: string, facts: Facts, fault: Fault)
    requires w.script == [fault] && w.status == Running && CanPatch(w.ledger, facts.budget, facts.txnId)
    requires facts.status == Pending && facts.cleared == Uncleared
    ensures var w' := TrackNativeMatch(w, key, facts);
            && key in w'.table && w'.table[key].facts == facts
            && (w'.status == Running <==> fault == Works || fault == BadRequest)
            && w'.ledger == if Arrives(fault) then w.ledger[facts.txnId := w.ledger[facts.txnId].(cleared := Uncleared)]
                            else w.ledger
  {
    hide Money.ToMilliunits;
  }

  /** A correction that is answered with a 400 is recovered; with any other failure the attempt ends, unrecorded. */
  lemma AnswersToCorrection(w: World, budget: string, c: Correction, fault: Fault)
    requires w.script == [fault] && w.status == Running && CanPatch(w.ledger, budget, c.txnId) && c.Update?
    requires c.oldKey in w.table
    ensures var w' := Correct(w, budget, w.ledger, None, c);
            && (w'.status == NeedsRecovery <==> fault == BadRequest)
            && (w'.status == Running <==> fault == Works)
            && (w'.status != Running ==> w'.table == w.table)
            && w'.ledger == if Arrives(fault) then
                 w.ledger[c.txnId := w.ledger[c.txnId].(amount := Money.ToMilliunits(c.newAmount), cleared := Cleared)]
               else w.ledger
  {
    hide Money.ToMilliunits;
  }

  // --- counts ------------------------------------------------------------------------------------------------------

  /** One more row DELETED, and counted as such, exactly if an untracked duplicate is found to be gone. */
  lemma RecoverCounts(w: World, cfg: Settings, budget: string, p: Create)
    requires w.script == [] && w.status == Running && p.trackingKey !in w.table && p.status != Deleted
    ensures var w' := Recover(w, cfg, budget, p);
            var gone := p.trackingKey in w'.table && w'.table[p.trackingKey].facts.status == Deleted;
            w'.tally == if gone then w.tally.(resolvedDeleted := w.tally.resolvedDeleted + 1) else w.tally
  {
    hide LookUp, LookUpGone, Money.FromMilliunits, Money.ToMilliunits;
  }

  /** A correction that goes through counts one update; one without a replacement counts one row DELETED. */
  lemma CorrectionCounts(w: World, cfg: Settings, budget: string, c: Correction)
    requires w.script == [] && w.status == Running
    ensures Settle(w, c).status == Running ==> Settle(w, c).tally == w.tally.(updated := w.tally.updated + 1)
    ensures Settle(w, c).status != Running ==> Settle(w, c).tally == w.tally && Settle(w, c).table == w.table
    ensures c.oldKey in w.table && |Replacements(w.ledger, cfg, budget, w.table[c.oldKey], c.newAmount)| != 1 ==>
        RecoverMissing(w, cfg, budget, c).tally == w.tally.(resolvedDeleted := w.tally.resolvedDeleted + 1)
  {
    hide Replacements, Money.ToMilliunits;
  }

  /** A replaced transaction counts as updated if YNAB matched it, and otherwise its import as created. */
  lemma MatchCounts(w: World, budget: string, p: ManualMatch, row: Reported)
    requires w.script == [] && w.status == Running && row.importId == Some(p.payload.importId)
    ensures MatchRow(w, budget, [p], row).tally
         == if row.matched.Some? then w.tally.(updated := w.tally.updated + 1)
            else w.tally.(created := w.tally.created + 1)
  {
    assert FindMatch([p], p.payload.importId) == Some(p);
    hide FindMatch, MatchFacts, Patch, Delete;
  }

  /** A batch that is in YNAB and in the table already changes neither, and all of it counts as duplicates. */
  lemma ResubmissionCounts(w: World, cfg: Settings, batch: Batch<Create>)
    requires w.script == [] && w.status == Running && batch.items != []
    requires forall p :: p in batch.items ==>
        Burned(w.ledger, batch.budget, p.payload.importId) && p.trackingKey in w.table
    ensures SubmitCreates(w, cfg, batch)
         == w.(tally := w.tally.(duplicates := w.tally.duplicates + |batch.items|))
  {
    var ps := Payloads(batch.items);
    assert ps[0] == batch.items[0].payload;
    ResubmittedBatch(w.ledger, cfg.native, batch.budget, ps);
    hide CreateAll, Burned;
    var response := Response([], SubmittedIds(ps));
    assert PostCreates(w, cfg, batch.budget, ps) == (w, response);
    BatchSteps(w, cfg, batch, w, response, w);
    hide SubmitCreates, PostCreates;
    NothingToBackfill(CountDuplicates(w, |ps|), cfg, batch.budget, batch.items, response.duplicates);
  }

  lemma {:induction false} NothingToBackfill(w: World, cfg: Settings, budget: string, creates: seq<Create>,
                                             ids: seq<string>)
    requires forall p :: p in creates ==> p.trackingKey in w.table
    ensures Backfill(w, cfg, budget, creates, ids) == w
    decreases |ids|
  {
    hide FindCreate, Recover;
    if ids != [] && w.status == Running {
      NothingToBackfill(w, cfg, budget, creates, ids[1..]);
    }
  }
}
