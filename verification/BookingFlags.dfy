/**
 * A non-DELETED row is PENDING exactly while it is uncleared, and both of its
 * amounts agree: from classification, through every write of the engine.
 */
module BookingFlags {
  import opened Wrappers
  import opened StateDb
  import opened SyncSpec
  import opened Classification
  import opened RowFacts
  import opened Recovery
  import opened RecoveryFacts
  import opened TransferLinking
  import Filing
  import Readd
  import PendingMatch
  import Transfers
  import Ynab

  // --- classification gives every item the flag of its status -------------------------------------

  ghost predicate CreateFits(p: Create) { p.status != Deleted && CreateFlagFits(p) }

  ghost predicate MatchFits(m: ManualMatch) { m.status != Deleted && m.payload.cleared == ClearedFor(m.status) }

  ghost predicate Fits(cycle: Cycle) {
    && (forall b, p :: Filing.InBatches(cycle.creates, b, p) ==> CreateFits(p) && p.secondary.None?)
    && (forall b, m :: Filing.InBatches(cycle.matches, b, m) ==> MatchFits(m))
  }

  lemma OutcomeFits(t: Table, rules: Rules, provider: string, m: Mapping, ntx: Ntx,
                    manual: seq<PendingMatch.ManualCandidate>, pending: seq<PendingMatch.PendingCandidate>)
    ensures var outcome := Classify(t, rules, provider, m, ntx, manual, pending);
            && (outcome.New? ==> CreateFits(outcome.create) && outcome.create.secondary.None?)
            && (outcome.MatchedManual? ==> MatchFits(outcome.match_))
  {
    hide FuzzyMatchFor, ManualMatchFor;
  }

  lemma SortFits(ctx: Context, provider: string, m: Mapping, s: Sorting, ntx: Ntx)
    requires Fits(s.cycle)
    ensures Fits(Sort(ctx, provider, m, s, ntx).cycle)
  {
    hide ManualCandidates, PendingCandidates, Classify, AddTo, Filing.InBatches, CreateFits, MatchFits;
    var manual := ManualCandidates(ctx, s.manual, m, ntx.date).1;
    var pending := PendingCandidates(ctx, s.pending, ntx.accountKey).1;
    OutcomeFits(ctx.table, ctx.rules, provider, m, ntx, manual, pending);
    var outcome := Classify(ctx.table, ctx.rules, provider, m, ntx, manual, pending);
    var s1 := Sort(ctx, provider, m, s, ntx);
    if outcome.New? {
      forall b, p | Filing.InBatches(s1.cycle.creates, b, p) ensures CreateFits(p) && p.secondary.None? {
        Filing.AddToMembers(s.cycle.creates, m.budget, outcome.create, b, p);
      }
    } else if outcome.MatchedManual? {
      forall b, p | Filing.InBatches(s1.cycle.matches, b, p) ensures MatchFits(p) {
        Filing.AddToMembers(s.cycle.matches, m.budget, outcome.match_, b, p);
      }
    }
  }

  lemma {:induction false} SortAllFits(ctx: Context, s: Sorting, feed: Feed)
    requires Fits(s.cycle)
    ensures Fits(SortAll(ctx, s, feed).cycle)
    decreases |feed|
  {
    hide Fits, Sort, FetchWindow;
    if feed != [] {
      var provider, ntx := feed[0].provider, feed[0].ntx;
      if Accepted(ctx, provider, ntx) {
        SortFits(ctx, provider, ctx.mappings[(provider, ntx.accountKey)], s, ntx);
      }
      SortAllFits(ctx, SortOne(ctx, provider, s, ntx), feed[1..]);
    }
  }

  // --- and linking transfers keeps it ----------------------------------------------------------------

  lemma {:induction false} LegsOfListed(creates: seq<Create>, from: nat, p: Create)
    requires from <= |creates| && p in creates[from..]
    ensures Core(p) in LegsFrom(creates, {}, from)
    ensures p.secondary.Some? ==> Core(p.secondary.value) in LegsFrom(creates, {}, from)
    decreases |creates| - from
  {
    if creates[from] == p {
      assert Legs(p) <= LegsFrom(creates, {}, from);
      assert Legs(p)[0] == Core(p);
      assert p.secondary.Some? ==> Legs(p)[1] == Core(p.secondary.value);
    } else {
      assert creates[from..][1..] == creates[from + 1..];
      LegsOfListed(creates, from + 1, p);
    }
  }

  lemma {:induction false} LegComesFrom(creates: seq<Create>, from: nat, leg: Create)
    requires from <= |creates| && leg in LegsFrom(creates, {}, from)
    requires forall p :: p in creates ==> p.secondary.None?
    ensures exists p :: p in creates && Core(p) == leg
    decreases |creates| - from
  {
    assert creates[from] in creates;
    if leg != Core(creates[from]) {
      LegComesFrom(creates, from + 1, leg);
    }
  }

  /** The leg a linked create comes from has its status and flag. */
  lemma LegFits(creates: seq<Create>, listed: seq<Create>, leg: Create)
    requires multiset(AllLegs(listed)) == multiset(AllLegs(creates)) && leg in AllLegs(listed)
    requires forall p :: p in creates ==> CreateFits(p) && p.secondary.None?
    ensures leg.status != Deleted && leg.payload.cleared == ClearedFor(leg.status)
  {
    hide LegsFrom;
    assert leg in multiset(AllLegs(listed));
    assert leg in AllLegs(creates);
    LegComesFrom(creates, 0, leg);
    var p :| p in creates && Core(p) == leg;
    assert CreateFits(p);
  }

  lemma LinkingFits(creates: seq<Create>, listed: seq<Create>, rule: Transfers.MatchRule, accounts: set<string>, p: Create)
    requires WellLinked(creates, listed, rule, accounts) && p in listed
    requires forall q :: q in creates ==> CreateFits(q) && q.secondary.None?
    ensures CreateFits(p)
  {
    assert multiset(AllLegs(listed)) == multiset(AllLegs(creates));
    hide WellLinked, AllLegs, LegsFrom;
    assert listed[0..] == listed;
    LegsOfListed(listed, 0, p);
    assert AllLegs(listed) == LegsFrom(listed, {}, 0) by { LegsAreAll(listed); }
    LegFits(creates, listed, Core(p));
    if p.secondary.Some? {
      LegFits(creates, listed, Core(p.secondary.value));
    }
  }

  lemma LegsAreAll(creates: seq<Create>)
    ensures AllLegs(creates) == LegsFrom(creates, {}, 0)
  {
  }

  /** The submitted cycle: the classified one with its creates linked, budget by budget. */
  ghost predicate LinkedFrom(cycle: Cycle, classified: Cycle, rule: Transfers.MatchRule, accounts: string -> set<string>) {
    && cycle == classified.(creates := cycle.creates) && |cycle.creates| == |classified.creates|
    && forall n :: 0 <= n < |cycle.creates| ==>
         cycle.creates[n].budget == classified.creates[n].budget
         && WellLinked(classified.creates[n].items, cycle.creates[n].items, rule, accounts(cycle.creates[n].budget))
  }

  /** The leg of a create that was classified for this budget. */
  ghost predicate LegOf(classified: Cycle, b: string, leg: Create) {
    exists q :: Filing.InBatches(classified.creates, b, q) && Core(q) == Core(leg)
  }

  /** A create or a secondary of the linked cycle is the leg of a classified create. */
  lemma LinkedIsLeg(cycle: Cycle, classified: Cycle, rule: Transfers.MatchRule, accounts: string -> set<string>,
                    b: Batch<Create>, p: Create)
    requires LinkedFrom(cycle, classified, rule, accounts) && b in cycle.creates && p in b.items
    requires forall b', q :: Filing.InBatches(classified.creates, b', q) ==> q.secondary.None?
    ensures LegOf(classified, b.budget, p) && (p.secondary.Some? ==> LegOf(classified, b.budget, p.secondary.value))
  {
    var n :| 0 <= n < |cycle.creates| && cycle.creates[n] == b;
    var items := classified.creates[n].items;
    forall q | q in items ensures Filing.InBatches(classified.creates, b.budget, q) && q.secondary.None? {
    }
    assert multiset(AllLegs(b.items)) == multiset(AllLegs(items));
    hide WellLinked, Filing.InBatches, LegsFrom;
    assert b.items[0..] == b.items;
    LegsOfListed(b.items, 0, p);
    LegsAreAll(b.items);
    LegFound(classified, n, b.items, Core(p));
    if p.secondary.Some? {
      LegFound(classified, n, b.items, Core(p.secondary.value));
    }
  }

  lemma LegFound(classified: Cycle, n: nat, listed: seq<Create>, leg: Create)
    requires n < |classified.creates| && leg in AllLegs(listed)
    requires multiset(AllLegs(listed)) == multiset(AllLegs(classified.creates[n].items))
    requires forall q :: q in classified.creates[n].items ==>
        Filing.InBatches(classified.creates, classified.creates[n].budget, q) && q.secondary.None?
    ensures LegOf(classified, classified.creates[n].budget, leg)
  {
    var items := classified.creates[n].items;
    hide AllLegs, LegsFrom, Filing.InBatches;
    assert leg in multiset(AllLegs(listed));
    assert leg in AllLegs(items);
    LegsAreAll(items);
    LegComesFrom(items, 0, leg);
    var q :| q in items && Core(q) == leg;
    assert Core(leg) == leg;
    assert Filing.InBatches(classified.creates, classified.creates[n].budget, q);
  }

  lemma SubmittedFlagsFit(ctx: Context, feed: Feed, cycle: Cycle, rule: Transfers.MatchRule,
                          accounts: string -> set<string>)
    requires LinkedFrom(cycle, CycleOf(ctx, feed), rule, accounts)
    ensures FlagsFit(cycle)
  {
    var classified := CycleOf(ctx, feed);
    ClassifiedFits(ctx, feed);
    hide CycleOf, WellLinked, CreateFits, MatchFits, Fits;
    forall b, p | b in cycle.creates && p in b.items ensures CreateFits(p) {
      LinkedCreateFits(cycle, classified, rule, accounts, b, p);
    }
    forall b, m | b in cycle.matches && m in b.items ensures MatchFits(m) {
      ClassifiedMatchFits(classified, b, m);
    }
    FitsMeansFlagsFit(cycle);
  }

  lemma ClassifiedFits(ctx: Context, feed: Feed)
    ensures Fits(CycleOf(ctx, feed))
  {
    assert Fits(NOTHING_SORTED.cycle);
    SortAllFits(ctx, NOTHING_SORTED, feed);
  }

  lemma LinkedCreateFits(cycle: Cycle, classified: Cycle, rule: Transfers.MatchRule, accounts: string -> set<string>,
                         b: Batch<Create>, p: Create)
    requires LinkedFrom(cycle, classified, rule, accounts) && Fits(classified) && b in cycle.creates && p in b.items
    ensures CreateFits(p)
  {
    var n :| 0 <= n < |cycle.creates| && cycle.creates[n] == b;
    var items := classified.creates[n].items;
    hide WellLinked, CreateFits;
    forall q | q in items ensures CreateFits(q) && q.secondary.None? {
      assert Filing.InBatches(classified.creates, classified.creates[n].budget, q);
    }
    LinkingFits(items, b.items, rule, accounts(b.budget), p);
  }

  lemma ClassifiedMatchFits(classified: Cycle, b: Batch<ManualMatch>, m: ManualMatch)
    requires Fits(classified) && b in classified.matches && m in b.items
    ensures MatchFits(m)
  {
    hide MatchFits;
    var n :| 0 <= n < |classified.matches| && classified.matches[n] == b;
    assert Filing.InBatches(classified.matches, b.budget, m);
  }

  lemma FitsMeansFlagsFit(cycle: Cycle)
    requires forall b, p :: b in cycle.creates && p in b.items ==> CreateFits(p)
    requires forall b, m :: b in cycle.matches && m in b.items ==> MatchFits(m)
    ensures FlagsFit(cycle)
  {
    forall b, p | b in cycle.creates && p in b.items ensures p.status != Deleted && CreateFlagFits(p) {
      assert CreateFits(p);
    }
    forall b, m | b in cycle.matches && m in b.items
      ensures m.status != Deleted && m.payload.cleared == ClearedFor(m.status)
    {
      assert MatchFits(m);
    }
  }

  // --- every write of the engine ------------------------------------------------------------------------

  datatype EngineWrite =
    | Submitting(ctx: Context, feed: Feed, rule: Transfers.MatchRule, accounts: string -> set<string>, cycle: Cycle,
                 attempt: Try)
    | Readding(key: string, script: seq<Ynab.Fault>, now: int)
    | Pruning(cutoff: int)
    | YnabChanges(ledger: Ynab.Ledger)

  datatype Stores = Stores(table: Table, ledger: Ynab.Ledger)

  function After(cfg: Settings, s: Stores, e: EngineWrite): Stores {
    match e
    case Submitting(_, _, _, _, cycle, t) =>
      var w := SubmitFully(Attempt(s.table, s.ledger, t.script, t.now), cfg, cycle, t.budgets);
      Stores(w.table, w.ledger)
    case Readding(key, script, now) =>
      var w := Readd.ReaddDeleted(Attempt(s.table, s.ledger, script, now), cfg, key).0;
      Stores(w.table, w.ledger)
    case Pruning(cutoff) => s.(table := Prune(s.table, cutoff))
    case YnabChanges(l) => s.(ledger := l)
  }

  function AfterAll(cfg: Settings, s: Stores, writes: seq<EngineWrite>): Stores
    decreases |writes|
  {
    if writes == [] then s else AfterAll(cfg, After(cfg, s, writes[0]), writes[1..])
  }

  /** Cycles come from classification and transfer linking, with whatever payees and rules. */
  ghost predicate Genuine(e: EngineWrite) {
    e.Submitting? ==> LinkedFrom(e.cycle, CycleOf(e.ctx, e.feed), e.rule, e.accounts)
  }

  lemma WriteKeepsConsistent(cfg: Settings, s: Stores, e: EngineWrite)
    requires Consistent(s.table) && Genuine(e)
    ensures Consistent(After(cfg, s, e).table)
  {
    match e
    case Submitting(ctx, feed, rule, accounts, cycle, t) =>
      SubmittedFlagsFit(ctx, feed, cycle, rule, accounts);
      SubmitKeepsConsistent(Attempt(s.table, s.ledger, t.script, t.now), cfg, cycle, t.budgets);
    case Readding(key, script, now) =>
      Readd.ReaddKeepsConsistent(Attempt(s.table, s.ledger, script, now), cfg, key);
    case Pruning(cutoff) =>
    case YnabChanges(l) =>
  }

  /**
   * Over every sequence of engine writes, a non-DELETED row is PENDING iff it is uncleared, and its
   * amount_milliunits is to_milliunits of its amount_decimal.
   */
  lemma {:induction false} EveryWriteKeepsConsistent(cfg: Settings, s: Stores, writes: seq<EngineWrite>)
    requires Consistent(s.table) && forall e :: e in writes ==> Genuine(e)
    ensures Consistent(AfterAll(cfg, s, writes).table)
    decreases |writes|
  {
    hide Consistent, Genuine, After;
    if writes != [] {
      WriteKeepsConsistent(cfg, s, writes[0]);
      EveryWriteKeepsConsistent(cfg, After(cfg, s, writes[0]), writes[1..]);
    }
  }

  // --- a migrated database -------------------------------------------------------------------------------

  function Anything(): RowProperty { (k: string, r: Row) => true }

  lemma SubmitKeepsAmounts(w: World, cfg: Settings, cycle: Cycle, budgets: seq<string>)
    requires AmountsSound(w.table)
    ensures AmountsSound(SubmitFully(w, cfg, cycle, budgets).table)
  {
    AnythingIsKept(cfg, cycle, w.now);
    hide SubmitFully, CorrectionsKeep, RecoveriesKeep, CreatesHave, MatchesHave, AmountsAgree;
    SubmitFullyKeeps(w, cfg, cycle, budgets, w.now, Anything());
  }

  lemma AnythingIsKept(cfg: Settings, cycle: Cycle, now: int)
    ensures CorrectionsKeep(cycle, Anything()) && RecoveriesKeep(cycle, now, Anything())
    ensures forall b :: b in cycle.creates ==> CreatesHave(cfg, b.budget, b.items, now, Anything())
    ensures forall b :: b in cycle.matches ==> MatchesHave(b.budget, b.items, now, Anything())
  {
    AnythingSettles();
    hide CreateFacts, SecondaryFacts, MatchFacts, FindCreate, CorrectionsOf, RecordingKeeps, CreateHas, SettlingKeeps;
    forall b, id: string | b in cycle.creates && FindCreate(b.items, id).Some?
      ensures CreateHas(cfg, b.budget, FindCreate(b.items, id).value, now, Anything())
    {
      CreateHasAnything(cfg, b.budget, FindCreate(b.items, id).value, now);
    }
    forall key, facts ensures RecordingKeeps(now, key, facts, Anything()) {
      RecordingKeepsAnything(now, key, facts);
    }
  }

  lemma AnythingSettles()
    ensures forall c :: SettlingKeeps(c, Anything())
  {
    hide Settled;
  }

  lemma RecordingKeepsAnything(now: int, key: string, facts: Facts)
    ensures RecordingKeeps(now, key, facts, Anything())
  {
  }

  lemma CreateHasAnything(cfg: Settings, budget: string, p: Create, now: int)
    ensures CreateHas(cfg, budget, p, now, Anything())
  {
    hide CreateFacts, SecondaryFacts, RecordingKeeps;
    forall key, facts ensures RecordingKeeps(now, key, facts, Anything()) {
      RecordingKeepsAnything(now, key, facts);
    }
  }

  lemma {:induction false} EveryWriteKeepsAmounts(cfg: Settings, s: Stores, writes: seq<EngineWrite>)
    requires AmountsSound(s.table)
    ensures AmountsSound(AfterAll(cfg, s, writes).table)
    decreases |writes|
  {
    hide SubmitFully, Readd.ReaddDeleted, AmountsAgree;
    if writes != [] {
      match writes[0] {
        case Submitting(_, _, _, _, cycle, t) =>
          SubmitKeepsAmounts(Attempt(s.table, s.ledger, t.script, t.now), cfg, cycle, t.budgets);
        case Readding(key, script, now) =>
          Readd.ReaddKeepsConsistent(Attempt(s.table, s.ledger, script, now), cfg, key);
        case Pruning(cutoff) =>
        case YnabChanges(l) =>
      }
      EveryWriteKeepsAmounts(cfg, After(cfg, s, writes[0]), writes[1..]);
    }
  }

  /**
   * A database from before amount_decimal: after its migration and any engine writes, whatever cycles they submit,
   * both amount columns agree in every row.
   */
  lemma MigratedAmountsStay(cfg: Settings, legacy: map<string, OldRow>, ledger: Ynab.Ledger, writes: seq<EngineWrite>)
    ensures AmountsSound(AfterAll(cfg, Stores(Migrate(legacy), ledger), writes).table)
  {
    MigrationAgrees(legacy);
    hide AfterAll, Migrate;
    EveryWriteKeepsAmounts(cfg, Stores(Migrate(legacy), ledger), writes);
  }

  /** If besides that its flags fit its statuses, they go on fitting. */
  lemma MigratedStaysConsistent(cfg: Settings, legacy: map<string, OldRow>, ledger: Ynab.Ledger,
                                writes: seq<EngineWrite>)
    requires forall k :: k in legacy ==> StatusAgrees(legacy[k].rest.facts)
    requires forall e :: e in writes ==> Genuine(e)
    ensures Consistent(AfterAll(cfg, Stores(Migrate(legacy), ledger), writes).table)
  {
    MigrationAgrees(legacy);
    hide AfterAll, Genuine, AmountsAgree;
    EveryWriteKeepsConsistent(cfg, Stores(Migrate(legacy), ledger), writes);
  }
}
