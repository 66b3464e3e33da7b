/**
 * Where every tracked row comes from after any attempts at a classified cycle,
 * field by field, and what a PENDING row does for its account afterwards.
 */
module RowOrigins {
  import opened Wrappers
  import opened Ynab
  import opened StateDb
  import opened SyncSpec
  import opened Classification
  import opened Filing
  import opened RowFacts
  import opened Recovery
  import opened RecoveryFacts
  import opened TransferLinking
  import opened BookingFlags
  import opened Provenance
  import opened EngineRetries
  import DateWindow
  import Money
  import PendingMatch
  import Transfers

  // --- rows --------------------------------------------------------------------------------------------------------

  ghost predicate ListsKey(cycle: Cycle, key: string) {
    || (exists b, p :: b in cycle.creates && p in b.items && p.trackingKey == key)
    || (exists b, m :: b in cycle.matches && m in b.items && m.trackingKey == key)
  }

  /** The key of a leg that YNAB creates by itself. */
  ghost predicate IsOtherLeg(cycle: Cycle, key: string) {
    exists b, p :: b in cycle.creates && p in b.items && p.secondary.Some? && p.secondary.value.trackingKey == key
  }

  /** The import_id of the report; the other leg of a transfer has a local one, and the report's amount. */
  ghost predicate NamedFor(cfg: Settings, cycle: Cycle, f: Fetched, r: Row) {
    || (ListsKey(cycle, f.ntx.trackingKey) && r.facts.importId == f.ntx.importId)
    || (&& IsOtherLeg(cycle, f.ntx.trackingKey)
        && r.facts.importId == "LOCAL:XFER:" + cfg.hash(f.ntx.trackingKey)[..20]
        && r.facts.status == ReportedStatus(f) && r.amountMilliunits == Money.ToMilliunits(f.ntx.amount))
  }

  /** Recorded for an untracked report: its account, mapping, date and flag, and its status unless it is gone. */
  ghost predicate RecordedFor(cfg: Settings, ctx: Context, cycle: Cycle, f: Fetched, r: Row) {
    && IsNew(ctx, f) && NamedFor(cfg, cycle, f, r)
    && r.facts.accountKey == f.ntx.accountKey
    && r.facts.ynabAccount == MappingOf(ctx, f).ynabAccount && r.facts.budget == MappingOf(ctx, f).budget
    && r.facts.date == f.ntx.date && r.facts.cleared == ReportedFlag(f)
    && (|| r.facts.status == ReportedStatus(f)
        || (r.facts.status == Deleted && r.amountMilliunits == Money.ToMilliunits(f.ntx.amount)))
  }

  /** An unlinked report with a payee leaves it in the row. */
  ghost predicate PayeeFor(f: Fetched, r: Row) { f.ntx.payee != "" ==> r.facts.payee == f.ntx.payee }

  ghost predicate SameHome(facts: Facts, before: Facts) {
    && facts.accountKey == before.accountKey && facts.ynabAccount == before.ynabAccount
    && facts.budget == before.budget && facts.payee == before.payee
  }

  /** Moved here from the key of a PENDING row that could have become the booked report. */
  ghost predicate MovedFor(ctx: Context, f: Fetched, r: Row) {
    && IsNew(ctx, f) && f.ntx.booked && r.facts.status == Booked && r.facts.cleared == Cleared
    && r.amountMilliunits == Money.ToMilliunits(f.ntx.amount)
    && exists from :: from in ctx.table && MovedFrom(ctx, ctx.table[from], f, r)
  }

  ghost predicate MovedFrom(ctx: Context, before: Row, f: Fetched, r: Row) {
    RowCouldBecome(ctx, before, f.ntx) && SameHome(r.facts, before.facts)
  }

  /** BOOKED under the amount of its own report, or given up as DELETED for that or for one it was taken for. */
  ghost predicate CorrectedFor(ctx: Context, before: Row, f: Fetched, key: string, r: Row) {
    && IsAccepted(ctx, f) && f.ntx.booked && before.facts.status == Pending
    && r.amountMilliunits == Money.ToMilliunits(f.ntx.amount)
    && if f.ntx.trackingKey == key then
         r.facts.status == Deleted || (r.facts.status == Booked && r.facts.cleared == Cleared)
       else IsNew(ctx, f) && RowCouldBecome(ctx, before, f.ntx) && r.facts.status == Deleted
  }

  /** The row of a key that was tracked: as it was, or a PENDING one that a booked report corrected. */
  ghost predicate OldRow(ctx: Context, feed: Feed, key: string, r: Row)
    requires key in ctx.table
  {
    var before := ctx.table[key];
    && SameHome(r.facts, before.facts)
    && (|| (r.facts == before.facts && r.amountMilliunits == before.amountMilliunits)
        || exists f :: f in feed && CorrectedFor(ctx, before, f, key, r))
  }

  /** The row of a key that was not tracked. */
  ghost predicate NewRow(cfg: Settings, ctx: Context, feed: Feed, cycle: Cycle, key: string, r: Row) {
    exists f :: f in feed && f.ntx.trackingKey == key && NewRowFor(cfg, ctx, feed, cycle, f, r)
  }

  ghost predicate NewRowFor(cfg: Settings, ctx: Context, feed: Feed, cycle: Cycle, f: Fetched, r: Row) {
    || (RecordedFor(cfg, ctx, cycle, f, r) && (cycle == CycleOf(ctx, feed) ==> PayeeFor(f, r)))
    || MovedFor(ctx, f, r)
  }

  ghost function Origin(cfg: Settings, ctx: Context, feed: Feed, cycle: Cycle): RowProperty {
    (k: string, r: Row) => if k in ctx.table then OldRow(ctx, feed, k, r) else NewRow(cfg, ctx, feed, cycle, k, r)
  }

  // --- corrections keep it -----------------------------------------------------------------------------------------

  lemma OldRowCorrected(ctx: Context, feed: Feed, f: Fetched, key: string, r: Row, r': Row)
    requires key in ctx.table && f in feed && OldRow(ctx, feed, key, r)
    requires SameHome(r'.facts, r.facts) && CorrectedFor(ctx, ctx.table[key], f, key, r')
    ensures OldRow(ctx, feed, key, r')
  {
    hide CorrectedFor;
  }

  lemma MovedRow(cfg: Settings, ctx: Context, feed: Feed, cycle: Cycle, f: Fetched, from: string, r: Row, r': Row)
    requires f in feed && from in ctx.table && OldRow(ctx, feed, from, r) && SameHome(r'.facts, r.facts)
    requires IsNew(ctx, f) && f.ntx.booked && r'.facts.status == Booked && r'.facts.cleared == Cleared
    requires r'.amountMilliunits == Money.ToMilliunits(f.ntx.amount) && RowCouldBecome(ctx, ctx.table[from], f.ntx)
    ensures NewRow(cfg, ctx, feed, cycle, f.ntx.trackingKey, r')
  {
    hide RowCouldBecome, RecordedFor, IsNew, Money.ToMilliunits;
    assert MovedFrom(ctx, ctx.table[from], f, r');
    assert NewRowFor(cfg, ctx, feed, cycle, f, r');
  }

  lemma CorrectionKeepsOrigin(cfg: Settings, ctx: Context, feed: Feed, cycle: Cycle, f: Fetched, b: string,
                              c: Correction, key: string, r: Row, r': Row)
    requires f in feed && Corrected(ctx, f, b, c) && Origin(cfg, ctx, feed, cycle)(c.oldKey, r)
    requires SameHome(r'.facts, r.facts) && r'.amountMilliunits == Money.ToMilliunits(c.newAmount)
    requires (key == c.oldKey && r'.facts.status == Deleted)
             || (key == FinalKey(c) && r'.facts.status == Booked && r'.facts.cleared == Cleared)
    ensures Origin(cfg, ctx, feed, cycle)(key, r')
  {
    hide PendingMatch.CloseEnough, PendingMatch.PayeesAgree, IsAccepted, NewRowFor, Money.ToMilliunits;
    if BooksOwn(ctx, f, b, c) {
      OldRowCorrected(ctx, feed, f, c.oldKey, r, r');
    } else if key == c.oldKey {
      OldRowCorrected(ctx, feed, f, c.oldKey, r, r');
    } else {
      MovedRow(cfg, ctx, feed, cycle, f, c.oldKey, r, r');
    }
  }

  lemma BudgetStays(cfg: Settings, ctx: Context, feed: Feed, cycle: Cycle, f: Fetched, b: string, c: Correction, r: Row)
    requires Corrected(ctx, f, b, c) && Origin(cfg, ctx, feed, cycle)(c.oldKey, r)
    ensures r.facts.budget == b
  {
    hide NewRow, CorrectedFor, RowCouldBecome, IsAccepted, IsNew;
  }

  lemma CorrectionsKeepOrigin(cfg: Settings, ctx: Context, feed: Feed, cycle: Cycle, now: int)
    requires AllFromReports(ctx, feed, CycleOf(ctx, feed)) && SameButCreates(cycle, CycleOf(ctx, feed))
    ensures CorrectionsKeep(cycle, Origin(cfg, ctx, feed, cycle))
    ensures RecoveriesKeep(cycle, now, Origin(cfg, ctx, feed, cycle))
  {
    var has := Origin(cfg, ctx, feed, cycle);
    hide CycleOf, SettlingKeeps, RecoveryKeeps, CorrectionsOf, Origin, AllFromReports, SameButCreates;
    forall b, c | c in CorrectionsOf(cycle, b) ensures SettlingKeeps(c, has) && RecoveryKeeps(c, b, now, has) {
      CorrectionKept(cfg, ctx, feed, cycle, b, c, now);
    }
  }

  lemma CorrectionKept(cfg: Settings, ctx: Context, feed: Feed, cycle: Cycle, b: string, c: Correction, now: int)
    requires AllFromReports(ctx, feed, CycleOf(ctx, feed)) && SameButCreates(cycle, CycleOf(ctx, feed))
    requires c in CorrectionsOf(cycle, b)
    ensures SettlingKeeps(c, Origin(cfg, ctx, feed, cycle)) && RecoveryKeeps(c, b, now, Origin(cfg, ctx, feed, cycle))
  {
    SameCorrections(CycleOf(ctx, feed), cycle);
    hide CycleOf, SettlingKeeps, RecoveryKeeps, Corrected, CorrectionsOf, Origin;
    var f :| f in feed && Corrected(ctx, f, b, c);
    SettlingKeepsOrigin(cfg, ctx, feed, cycle, f, b, c);
    RecoveryKeepsOrigin(cfg, ctx, feed, cycle, f, b, c, now);
  }

  lemma SettlingKeepsOrigin(cfg: Settings, ctx: Context, feed: Feed, cycle: Cycle, f: Fetched, b: string, c: Correction)
    requires f in feed && Corrected(ctx, f, b, c)
    ensures SettlingKeeps(c, Origin(cfg, ctx, feed, cycle))
  {
    var has := Origin(cfg, ctx, feed, cycle);
    hide Origin, Corrected, Money.ToMilliunits;
    forall r: Row | has(c.oldKey, r) ensures has(FinalKey(c), Settled(r, c.newAmount)) {
      CorrectionKeepsOrigin(cfg, ctx, feed, cycle, f, b, c, FinalKey(c), r, Settled(r, c.newAmount));
    }
  }

  lemma RecoveryKeepsOrigin(cfg: Settings, ctx: Context, feed: Feed, cycle: Cycle, f: Fetched, b: string, c: Correction,
                            now: int)
    requires f in feed && Corrected(ctx, f, b, c)
    ensures RecoveryKeeps(c, b, now, Origin(cfg, ctx, feed, cycle))
  {
    var has := Origin(cfg, ctx, feed, cycle);
    hide Origin, Corrected, Money.ToMilliunits, RecordingKeeps;
    forall r: Row, facts: Facts | has(c.oldKey, r) && StandsFor(facts, r.facts, b, c)
      ensures GivenUp(facts, r.facts, c) ==> RecordingKeeps(now, c.oldKey, facts, has)
      ensures facts.status == Booked && facts.cleared == Cleared ==> RecordingKeeps(now, FinalKey(c), facts, has)
    {
      BudgetStays(cfg, ctx, feed, cycle, f, b, c, r);
      if GivenUp(facts, r.facts, c) {
        RecordedAnew(cfg, ctx, feed, cycle, f, b, c, c.oldKey, r, facts, now);
      }
      if facts.status == Booked && facts.cleared == Cleared {
        RecordedAnew(cfg, ctx, feed, cycle, f, b, c, FinalKey(c), r, facts, now);
      }
    }
  }

  lemma RecordedAnew(cfg: Settings, ctx: Context, feed: Feed, cycle: Cycle, f: Fetched, b: string, c: Correction,
                     key: string, r: Row, facts: Facts, now: int)
    requires f in feed && Corrected(ctx, f, b, c) && Origin(cfg, ctx, feed, cycle)(c.oldKey, r)
    requires SameHome(facts, r.facts) && Money.ToMilliunits(facts.amount) == Money.ToMilliunits(c.newAmount)
    requires (key == c.oldKey && facts.status == Deleted)
             || (key == FinalKey(c) && facts.status == Booked && facts.cleared == Cleared)
    ensures RecordingKeeps(now, key, facts, Origin(cfg, ctx, feed, cycle))
  {
    var has := Origin(cfg, ctx, feed, cycle);
    hide Origin, Corrected, Money.ToMilliunits;
    forall firstSeenAt, readdCount
      ensures has(key, Row(facts, Money.ToMilliunits(facts.amount), firstSeenAt, readdCount))
    {
      CorrectionKeepsOrigin(cfg, ctx, feed, cycle, f, b, c, key, r,
                            Row(facts, Money.ToMilliunits(facts.amount), firstSeenAt, readdCount));
    }
  }

  // --- so do creates and matches -----------------------------------------------------------------------------------

  ghost predicate SameButCreates(cycle: Cycle, classified: Cycle) { cycle == classified.(creates := cycle.creates) }

  /** The leg of a report: all of it that linking does not change. */
  ghost predicate LegReports(ctx: Context, f: Fetched, b: string, leg: Create) {
    exists q :: Core(q) == Core(leg) && CreatesReport(ctx, f, b, q)
  }

  /** Every create of the cycle is the leg of a report, and so is its secondary. */
  ghost predicate AllLegsReported(ctx: Context, feed: Feed, cycle: Cycle) {
    forall b, p :: b in cycle.creates && p in b.items ==>
      LegReported(ctx, feed, b.budget, p) && (p.secondary.Some? ==> LegReported(ctx, feed, b.budget, p.secondary.value))
  }

  ghost predicate LegReported(ctx: Context, feed: Feed, b: string, leg: Create) {
    exists f :: f in feed && LegReports(ctx, f, b, leg)
  }

  /** Anything recorded with these facts is a new row of this report. */
  lemma FactsAreNewRow(cfg: Settings, ctx: Context, feed: Feed, cycle: Cycle, f: Fetched, key: string, facts: Facts,
                       now: int)
    requires f in feed && key == f.ntx.trackingKey
    requires var r := Row(facts, Money.ToMilliunits(facts.amount), now, 0);
             RecordedFor(cfg, ctx, cycle, f, r) && (cycle == CycleOf(ctx, feed) ==> PayeeFor(f, r))
    ensures RecordingKeeps(now, key, facts, Origin(cfg, ctx, feed, cycle))
  {
    hide CycleOf, IsAccepted, Money.ToMilliunits, MovedFor;
    var has := Origin(cfg, ctx, feed, cycle);
    forall firstSeenAt, readdCount
      ensures has(key, Row(facts, Money.ToMilliunits(facts.amount), firstSeenAt, readdCount))
    {
      var r' := Row(facts, Money.ToMilliunits(facts.amount), firstSeenAt, readdCount);
      assert RecordedFor(cfg, ctx, cycle, f, r');
      assert NewRowFor(cfg, ctx, feed, cycle, f, r');
    }
  }

  lemma ListedRecords(cfg: Settings, ctx: Context, feed: Feed, cycle: Cycle, f: Fetched, b: Batch<Create>, p: Create,
                      txnId: nat, status: BookingStatus, amount: int, payee: string, now: int)
    requires f in feed && b in cycle.creates && p in b.items && LegReports(ctx, f, b.budget, p)
    requires MayRecord(p, status, amount, payee)
    requires cycle == CycleOf(ctx, feed) && f.ntx.payee != "" ==> p.payload.payee == f.ntx.payee
    ensures RecordingKeeps(now, p.trackingKey, CreateFacts(b.budget, p, txnId, status, amount, payee),
                           Origin(cfg, ctx, feed, cycle))
  {
    Money.MilliunitsRoundTrip(amount);
    hide CycleOf, IsAccepted, Money.ToMilliunits, Money.FromMilliunits, RecordingKeeps;
    var q :| Core(q) == Core(p) && CreatesReport(ctx, f, b.budget, q);
    assert ListsKey(cycle, p.trackingKey);
    FactsAreNewRow(cfg, ctx, feed, cycle, f, p.trackingKey, CreateFacts(b.budget, p, txnId, status, amount, payee),
                   now);
  }

  lemma OtherLegRecords(cfg: Settings, ctx: Context, feed: Feed, cycle: Cycle, f: Fetched, b: Batch<Create>, p: Create,
                        txnId: nat, payee: string, now: int)
    requires f in feed && b in cycle.creates && p in b.items && p.secondary.Some? && cycle != CycleOf(ctx, feed)
    requires LegReports(ctx, f, b.budget, p.secondary.value)
    ensures var s := p.secondary.value;
            RecordingKeeps(now, s.trackingKey, SecondaryFacts(cfg, b.budget, s, txnId, payee),
                           Origin(cfg, ctx, feed, cycle))
  {
    var s := p.secondary.value;
    Money.MilliunitsRoundTrip(s.payload.amount);
    hide CycleOf, IsAccepted, Money.ToMilliunits, Money.FromMilliunits, RecordingKeeps;
    var q :| Core(q) == Core(s) && CreatesReport(ctx, f, b.budget, q);
    assert IsOtherLeg(cycle, s.trackingKey);
    FactsAreNewRow(cfg, ctx, feed, cycle, f, s.trackingKey, SecondaryFacts(cfg, b.budget, s, txnId, payee), now);
  }

  lemma MatchRecords(cfg: Settings, ctx: Context, feed: Feed, cycle: Cycle, f: Fetched, b: Batch<ManualMatch>,
                     m: ManualMatch, txnId: nat, now: int)
    requires f in feed && b in cycle.matches && m in b.items && ReplacesFor(ctx, f, b.budget, m)
    ensures RecordingKeeps(now, m.trackingKey, MatchFacts(b.budget, m, txnId), Origin(cfg, ctx, feed, cycle))
  {
    hide CycleOf, IsAccepted, Money.ToMilliunits, Money.FromMilliunits, RecordingKeeps, ReplacedFits;
    assert ListsKey(cycle, m.trackingKey);
    FactsAreNewRow(cfg, ctx, feed, cycle, f, m.trackingKey, MatchFacts(b.budget, m, txnId), now);
  }

  lemma ListedKept(cfg: Settings, ctx: Context, feed: Feed, cycle: Cycle, b: Batch<Create>, p: Create, now: int)
    requires b in cycle.creates && p in b.items && AllLegsReported(ctx, feed, cycle)
    requires cycle == CycleOf(ctx, feed) ==> AllFromReports(ctx, feed, cycle)
    ensures forall txnId, status, amount, payee :: MayRecord(p, status, amount, payee) ==>
              RecordingKeeps(now, p.trackingKey, CreateFacts(b.budget, p, txnId, status, amount, payee),
                             Origin(cfg, ctx, feed, cycle))
  {
    var f := ListedReport(ctx, feed, cycle, b, p);
    hide CycleOf, Origin, RecordingKeeps, LegReports, AllLegsReported, AllFromReports, MayRecord, CreateFacts;
    forall txnId, status, amount, payee | MayRecord(p, status, amount, payee)
      ensures RecordingKeeps(now, p.trackingKey, CreateFacts(b.budget, p, txnId, status, amount, payee),
                             Origin(cfg, ctx, feed, cycle))
    {
      ListedRecords(cfg, ctx, feed, cycle, f, b, p, txnId, status, amount, payee, now);
    }
  }

  lemma OtherLegKept(cfg: Settings, ctx: Context, feed: Feed, cycle: Cycle, b: Batch<Create>, p: Create, now: int)
    requires b in cycle.creates && p in b.items && AllLegsReported(ctx, feed, cycle)
    requires p.secondary.Some? && cycle != CycleOf(ctx, feed)
    ensures SecondaryHas(cfg, b.budget, p.secondary.value, now, Origin(cfg, ctx, feed, cycle))
  {
    hide CycleOf, Origin, RecordingKeeps, LegReports, SecondaryFacts;
    var g :| g in feed && LegReports(ctx, g, b.budget, p.secondary.value);
    forall txnId, payee
      ensures RecordingKeeps(now, p.secondary.value.trackingKey,
                             SecondaryFacts(cfg, b.budget, p.secondary.value, txnId, payee),
                             Origin(cfg, ctx, feed, cycle))
    {
      OtherLegRecords(cfg, ctx, feed, cycle, g, b, p, txnId, payee, now);
    }
  }

  lemma CreateKept(cfg: Settings, ctx: Context, feed: Feed, cycle: Cycle, b: Batch<Create>, p: Create, now: int)
    requires b in cycle.creates && p in b.items && AllLegsReported(ctx, feed, cycle)
    requires cycle == CycleOf(ctx, feed) ==> AllFromReports(ctx, feed, cycle)
    ensures CreateHas(cfg, b.budget, p, now, Origin(cfg, ctx, feed, cycle))
  {
    var f := ListedReport(ctx, feed, cycle, b, p);
    ListedKept(cfg, ctx, feed, cycle, b, p, now);
    hide CycleOf, Origin, RecordingKeeps, LegReports, AllLegsReported, AllFromReports, MayRecord, CreateFacts,
         SecondaryHas;
    if p.secondary.Some? {
      OtherLegKept(cfg, ctx, feed, cycle, b, p, now);
    }
  }

  /** The report of a listed create; unlinked, with its payee and without a secondary. */
  lemma ListedReport(ctx: Context, feed: Feed, cycle: Cycle, b: Batch<Create>, p: Create) returns (f: Fetched)
    requires b in cycle.creates && p in b.items && AllLegsReported(ctx, feed, cycle)
    requires cycle == CycleOf(ctx, feed) ==> AllFromReports(ctx, feed, cycle)
    ensures f in feed && LegReports(ctx, f, b.budget, p)
    ensures cycle == CycleOf(ctx, feed) ==> p.payload.payee == f.ntx.payee && p.secondary.None?
  {
    hide CycleOf, LegReports;
    if cycle == CycleOf(ctx, feed) {
      assert InBatches(cycle.creates, b.budget, p) by {
        var n :| 0 <= n < |cycle.creates| && cycle.creates[n] == b;
      }
      hide CarriesReport;
      f :| f in feed && CreatesReport(ctx, f, b.budget, p);
      assert LegReports(ctx, f, b.budget, p) by { IsOwnLeg(ctx, f, b.budget, p); }
    } else {
      f :| f in feed && LegReports(ctx, f, b.budget, p);
    }
  }

  lemma IsOwnLeg(ctx: Context, f: Fetched, b: string, p: Create)
    requires CreatesReport(ctx, f, b, p)
    ensures LegReports(ctx, f, b, p)
  {
    hide CreatesReport;
  }

  // --- any attempts ------------------------------------------------------------------------------------------------

  /** A classified cycle, as it is or with its transfers linked. */
  ghost predicate Submits(ctx: Context, feed: Feed, cycle: Cycle, rule: Transfers.MatchRule,
                          accounts: string -> set<string>) {
    cycle == CycleOf(ctx, feed) || LinkedFrom(cycle, CycleOf(ctx, feed), rule, accounts)
  }

  lemma SubmittedLegs(ctx: Context, feed: Feed, cycle: Cycle, rule: Transfers.MatchRule,
                      accounts: string -> set<string>)
    requires AllFromReports(ctx, feed, CycleOf(ctx, feed)) && Submits(ctx, feed, cycle, rule, accounts)
    ensures AllLegsReported(ctx, feed, cycle)
  {
    var classified := CycleOf(ctx, feed);
    hide CycleOf, WellLinked, LegReported, CorrectionsOf, CarriesReport;
    forall b, p | b in cycle.creates && p in b.items
      ensures LegReported(ctx, feed, b.budget, p)
      ensures p.secondary.Some? ==> LegReported(ctx, feed, b.budget, p.secondary.value)
    {
      if cycle == classified {
        ClassifiedLeg(ctx, feed, classified, b, p);
      } else {
        assert forall d, q :: InBatches(classified.creates, d, q) ==> q.secondary.None?;
        LinkedIsLeg(cycle, classified, rule, accounts, b, p);
        LegIsReported(ctx, feed, classified, b.budget, p);
        if p.secondary.Some? {
          LegIsReported(ctx, feed, classified, b.budget, p.secondary.value);
        }
      }
    }
  }

  lemma OnlyCreatesLinked(ctx: Context, feed: Feed, cycle: Cycle, rule: Transfers.MatchRule,
                          accounts: string -> set<string>)
    requires Submits(ctx, feed, cycle, rule, accounts)
    ensures SameButCreates(cycle, CycleOf(ctx, feed))
  {
    hide CycleOf, WellLinked;
    assert cycle == Cycle(cycle.creates, cycle.updates, cycle.fuzzyUpdates, cycle.matches);
  }

  lemma ClassifiedLeg(ctx: Context, feed: Feed, classified: Cycle, b: Batch<Create>, p: Create)
    requires AllFromReports(ctx, feed, classified) && b in classified.creates && p in b.items
    ensures p.secondary.None? && LegReported(ctx, feed, b.budget, p)
  {
    var n :| 0 <= n < |classified.creates| && classified.creates[n] == b;
    assert InBatches(classified.creates, b.budget, p);
    hide LegReports, CarriesReport, InBatches;
    var f :| f in feed && CreatesReport(ctx, f, b.budget, p);
    IsOwnLeg(ctx, f, b.budget, p);
  }

  lemma LegIsReported(ctx: Context, feed: Feed, classified: Cycle, b: string, leg: Create)
    requires AllFromReports(ctx, feed, classified) && LegOf(classified, b, leg)
    ensures LegReported(ctx, feed, b, leg)
  {
    hide InBatches, Core, CreatesReport;
    var q :| InBatches(classified.creates, b, q) && Core(q) == Core(leg);
    var f :| f in feed && CreatesReport(ctx, f, b, q);
    assert LegReports(ctx, f, b, leg);
  }

  lemma ItemsKeepOrigin(cfg: Settings, ctx: Context, feed: Feed, cycle: Cycle, now: int)
    requires AllFromReports(ctx, feed, CycleOf(ctx, feed)) && SameButCreates(cycle, CycleOf(ctx, feed))
    requires AllLegsReported(ctx, feed, cycle)
    ensures forall b :: b in cycle.creates ==> CreatesHave(cfg, b.budget, b.items, now, Origin(cfg, ctx, feed, cycle))
    ensures forall b :: b in cycle.matches ==> MatchesHave(b.budget, b.items, now, Origin(cfg, ctx, feed, cycle))
  {
    var has := Origin(cfg, ctx, feed, cycle);
    hide CycleOf, Origin, AllLegsReported, AllFromReports, CreateHas, RecordingKeeps;
    forall b, id: string | b in cycle.creates && FindCreate(b.items, id).Some?
      ensures CreateHas(cfg, b.budget, FindCreate(b.items, id).value, now, has)
    {
      CreateKept(cfg, ctx, feed, cycle, b, FindCreate(b.items, id).value, now);
    }
    forall b, m, txnId | b in cycle.matches && m in b.items
      ensures RecordingKeeps(now, m.trackingKey, MatchFacts(b.budget, m, txnId), has)
    {
      MatchKept(cfg, ctx, feed, cycle, b, m, txnId, now);
    }
  }

  lemma MatchKept(cfg: Settings, ctx: Context, feed: Feed, cycle: Cycle, b: Batch<ManualMatch>, m: ManualMatch,
                  txnId: nat, now: int)
    requires AllFromReports(ctx, feed, CycleOf(ctx, feed)) && SameButCreates(cycle, CycleOf(ctx, feed))
    requires b in cycle.matches && m in b.items
    ensures RecordingKeeps(now, m.trackingKey, MatchFacts(b.budget, m, txnId), Origin(cfg, ctx, feed, cycle))
  {
    var classified := CycleOf(ctx, feed);
    hide CycleOf, Origin, RecordingKeeps, ReplacesFor;
    var n :| 0 <= n < |classified.matches| && classified.matches[n] == b;
    assert InBatches(classified.matches, b.budget, m);
    var f :| f in feed && ReplacesFor(ctx, f, b.budget, m);
    MatchRecords(cfg, ctx, feed, cycle, f, b, m, txnId, now);
  }

  /** One attempt, on any script, recoveries and all. */
  lemma AttemptKeepsOrigin(cfg: Settings, ctx: Context, feed: Feed, cycle: Cycle, rule: Transfers.MatchRule,
                           accounts: string -> set<string>, w: World, budgets: seq<string>)
    requires Submits(ctx, feed, cycle, rule, accounts) && AllRows(w.table, Origin(cfg, ctx, feed, cycle))
    ensures AllRows(SubmitFully(w, cfg, cycle, budgets).table, Origin(cfg, ctx, feed, cycle))
  {
    CycleComesFromReports(ctx, feed);
    SubmittedLegs(ctx, feed, cycle, rule, accounts);
    OnlyCreatesLinked(ctx, feed, cycle, rule, accounts);
    CorrectionsKeepOrigin(cfg, ctx, feed, cycle, w.now);
    ItemsKeepOrigin(cfg, ctx, feed, cycle, w.now);
    hide CycleOf, Origin, Submits, AllFromReports, AllLegsReported, CorrectionsKeep, RecoveriesKeep, CreatesHave,
         MatchesHave, SubmitFully, AllRows;
    SubmitFullyKeeps(w, cfg, cycle, budgets, w.now, Origin(cfg, ctx, feed, cycle));
  }

  lemma {:induction false} TriesKeepOrigin(cfg: Settings, ctx: Context, feed: Feed, cycle: Cycle,
                                           rule: Transfers.MatchRule, accounts: string -> set<string>, w: World,
                                           tries: seq<Try>)
    requires Submits(ctx, feed, cycle, rule, accounts) && AllRows(w.table, Origin(cfg, ctx, feed, cycle))
    ensures AllRows(AfterFullTries(cfg, cycle, w, tries).table, Origin(cfg, ctx, feed, cycle))
    decreases |tries|
  {
    hide Submits, AllRows, Origin, SubmitFully;
    if tries != [] {
      var t := tries[0];
      AttemptKeepsOrigin(cfg, ctx, feed, cycle, rule, accounts, Attempt(w.table, w.ledger, t.script, t.now), t.budgets);
      TriesKeepOrigin(cfg, ctx, feed, cycle, rule, accounts,
                      SubmitFully(Attempt(w.table, w.ledger, t.script, t.now), cfg, cycle, t.budgets), tries[1..]);
    }
  }

  lemma TableHasOrigin(cfg: Settings, ctx: Context, feed: Feed, cycle: Cycle)
    requires AmountsSound(ctx.table)
    ensures AllRows(ctx.table, Origin(cfg, ctx, feed, cycle))
  {
    hide AmountsAgree, CorrectedFor, NewRow;
  }

  /**
   * After any attempts at a cycle, whatever their calls do: a row that was tracked is as it was, or was PENDING and
   * corrected for a booked report; every other row is filed under the account of a report of its key, in the mapped
   * account, with the fields of that report, or was moved there from a PENDING row of that account.
   */
  lemma RowsComeFromReports(cfg: Settings, ctx: Context, feed: Feed, cycle: Cycle, rule: Transfers.MatchRule,
                            accounts: string -> set<string>, w: World, tries: seq<Try>, key: string)
    requires Submits(ctx, feed, cycle, rule, accounts) && w.table == ctx.table && AmountsSound(ctx.table)
    requires key in AfterFullTries(cfg, cycle, w, tries).table
    ensures var r := AfterFullTries(cfg, cycle, w, tries).table[key];
            if key in ctx.table then OldRow(ctx, feed, key, r) else NewRow(cfg, ctx, feed, cycle, key, r)
  {
    TableHasOrigin(cfg, ctx, feed, cycle);
    TriesKeepOrigin(cfg, ctx, feed, cycle, rule, accounts, w, tries);
    RowHas(AfterFullTries(cfg, cycle, w, tries).table, key, Origin(cfg, ctx, feed, cycle));
    hide AfterFullTries, Submits, AllRows, OldRow, NewRow;
  }

  // --- what a PENDING row does -------------------------------------------------------------------------------------

  /** The candidate that a PENDING row is for later reports of its account. */
  ghost predicate OffersRow(t: Table, c: PendingMatch.PendingCandidate, key: string)
    requires key in t
  {
    && c.trackingKey == key && c.txnId == t[key].facts.txnId && c.budget == t[key].facts.budget
    && c.accountKey == t[key].facts.accountKey && c.amount == t[key].facts.amount && c.payee == t[key].facts.payee
    && c.date == DateWindow.DateOf(t[key].firstSeenAt)
  }

  ghost predicate IsOffered(t: Table, rows: seq<PendingMatch.PendingCandidate>, key: string)
    requires key in t
  {
    exists c :: c in rows && OffersRow(t, c, key)
  }

  lemma {:induction false} PendingRowIsOffered(t: Table, scan: seq<string>, key: string, index: nat)
    requires key in scan && key in t && t[key].facts.status == Pending
    ensures IsOffered(t, PendingRows(t, scan, t[key].facts.accountKey, index), key)
  {
    var a := t[key].facts.accountKey;
    var own := scan[0] in t && IsPendingOf(t[scan[0]], a);
    var more := if own then index + 1 else index;
    var rows, rest := PendingRows(t, scan, a, index), PendingRows(t, scan[1..], a, more);
    if scan[0] == key {
      assert OffersRow(t, rows[0], key);
    } else {
      assert key in scan[1..];
      PendingRowIsOffered(t, scan[1..], key, more);
      var c :| c in rest && OffersRow(t, c, key);
      assert rows == (if own then [ToPendingCandidate(scan[0], t[scan[0]], index)] else []) + rest;
      assert c in rows;
    }
  }

  lemma PendingRowHoldsWindow(later: Context, key: string)
    requires key in later.table && later.table[key].facts.status == Pending
    ensures FetchWindow(later, later.table[key].facts.accountKey) <= later.table[key].firstSeenAt
  {
    var a := later.table[key].facts.accountKey;
    hide ComputeSince;
    assert IsPendingOf(later.table[key], a);
    assert later.table[key].firstSeenAt in PendingTimes(later.table, a);
  }

  /** A preauthorisation of this account, tracked under its own mapping. */
  ghost predicate PendingReportOf(ctx: Context, f: Fetched, key: string, r: Row) {
    && IsNew(ctx, f) && !f.ntx.booked && f.ntx.trackingKey == key
    && r.facts.accountKey == f.ntx.accountKey && r.facts.date == f.ntx.date && r.facts.cleared == Uncleared
    && r.facts.budget == MappingOf(ctx, f).budget && r.facts.ynabAccount == MappingOf(ctx, f).ynabAccount
  }

  /**
   * A row recorded as PENDING comes from a pending report: every later fetch of that report's account goes back to
   * when it was first seen, and offers it to the booked charges of that account.
   */
  lemma PendingImportStaysOpen(cfg: Settings, ctx: Context, feed: Feed, cycle: Cycle, rule: Transfers.MatchRule,
                               accounts: string -> set<string>, w: World, tries: seq<Try>, key: string, later: Context)
    requires Submits(ctx, feed, cycle, rule, accounts) && w.table == ctx.table && AmountsSound(ctx.table)
    requires later.table == AfterFullTries(cfg, cycle, w, tries).table && ScansTable(later.scan, later.table)
    requires key in later.table && key !in ctx.table && later.table[key].facts.status == Pending
    ensures exists f :: f in feed && PendingReportOf(ctx, f, key, later.table[key])
              && FetchWindow(later, f.ntx.accountKey) <= later.table[key].firstSeenAt
              && IsOffered(later.table, PendingRows(later.table, later.scan, f.ntx.accountKey), key)
  {
    RowsComeFromReports(cfg, ctx, feed, cycle, rule, accounts, w, tries, key);
    PendingRowHoldsWindow(later, key);
    KeyIsScanned(later.scan, later.table, key);
    PendingRowIsOffered(later.table, later.scan, key, 0);
    PendingNewRow(cfg, ctx, feed, cycle, key, later.table[key]);
    hide AfterFullTries, Submits, FetchWindow, PendingRows, IsOffered, NewRow, IsNew, ScansTable;
    var f :| f in feed && PendingReportOf(ctx, f, key, later.table[key]);
    assert f.ntx.accountKey == later.table[key].facts.accountKey;
  }

  lemma KeyIsScanned(scan: seq<string>, t: Table, key: string)
    requires ScansTable(scan, t) && key in t
    ensures key in scan
  {
  }

  lemma PendingNewRow(cfg: Settings, ctx: Context, feed: Feed, cycle: Cycle, key: string, r: Row)
    requires NewRow(cfg, ctx, feed, cycle, key, r) && r.facts.status == Pending
    ensures exists f :: f in feed && PendingReportOf(ctx, f, key, r)
  {
    hide CycleOf, NamedFor, IsAccepted, MovedFrom, Money.ToMilliunits;
    var f :| f in feed && f.ntx.trackingKey == key && NewRowFor(cfg, ctx, feed, cycle, f, r);
    assert PendingReportOf(ctx, f, key, r);
  }
}
