/**
 * What one cycle holds when nothing in it is settled or matched by its looks:
 * a create for every accepted untracked transaction, a plain update for every
 * accepted one that settles its own pending row, and nothing else.
 */
module Filing {
  import opened Wrappers
  import opened StateDb
  import opened SyncSpec
  import opened Classification
  import PendingMatch
  import Sequences
  import Ynab

  ghost predicate InBatches<T>(batches: seq<Batch<T>>, budget: string, p: T) {
    exists i :: 0 <= i < |batches| && batches[i].budget == budget && p in batches[i].items
  }

  lemma {:induction false} AddToMembers<T>(batches: seq<Batch<T>>, budget: string, item: T, b: string, p: T)
    ensures InBatches(AddTo(batches, budget, item), b, p)
       <==> InBatches(batches, b, p) || (b == budget && p == item)
  {
    hide InBatches, AddTo;
    AddToStep(batches, budget, item);
    var more := AddTo(batches, budget, item);
    InBatchesCons(batches, b, p);
    InBatchesCons(more, b, p);
    InBatchesCons([], b, p);
    if batches != [] && batches[0].budget != budget {
      AddToMembers(batches[1..], budget, item, b, p);
    }
  }

  lemma InBatchesCons<T>(batches: seq<Batch<T>>, b: string, p: T)
    ensures batches == [] ==> !InBatches(batches, b, p)
    ensures batches != [] ==>
        (InBatches(batches, b, p) <==> (batches[0].budget == b && p in batches[0].items) || InBatches(batches[1..], b, p))
  {
    if batches != [] {
      if InBatches(batches, b, p) {
        var i :| 0 <= i < |batches| && batches[i].budget == b && p in batches[i].items;
        assert i > 0 ==> batches[1..][i - 1] == batches[i];
      }
      if InBatches(batches[1..], b, p) {
        var i :| 0 <= i < |batches[1..]| && batches[1..][i].budget == b && p in batches[1..][i].items;
        assert batches[i + 1] == batches[1..][i];
      }
    }
  }

  /** Manual matching and pending import are both off. */
  ghost predicate ExactOnly(rules: Rules) { rules.manualWindowDays <= 0 && !rules.pendingEnabled }

  predicate IsAccepted(ctx: Context, f: Fetched) { Accepted(ctx, f.provider, f.ntx) }

  predicate IsNew(ctx: Context, f: Fetched) { IsAccepted(ctx, f) && f.ntx.trackingKey !in ctx.table }

  predicate SettlesOwnRow(ctx: Context, f: Fetched) {
    && IsAccepted(ctx, f) && f.ntx.booked && f.ntx.trackingKey in ctx.table
    && ctx.table[f.ntx.trackingKey].facts.status == Pending
  }

  function MappingOf(ctx: Context, f: Fetched): Mapping
    requires IsAccepted(ctx, f)
  {
    ctx.mappings[(f.provider, f.ntx.accountKey)]
  }

  function CreateFor(ctx: Context, f: Fetched): Create
    requires IsAccepted(ctx, f)
  {
    NewCreate(f.provider, MappingOf(ctx, f), f.ntx)
  }

  function UpdateFor(ctx: Context, f: Fetched): Correction
    requires SettlesOwnRow(ctx, f)
  {
    var row := ctx.table[f.ntx.trackingKey].facts;
    Update(f.ntx.trackingKey, row.txnId, f.ntx.amount, row.date, row.budget)
  }

  predicate Makes(ctx: Context, f: Fetched, b: string, p: Create) {
    IsNew(ctx, f) && b == MappingOf(ctx, f).budget && p == CreateFor(ctx, f)
  }

  predicate Corrects(ctx: Context, f: Fetched, b: string, c: Correction) {
    SettlesOwnRow(ctx, f) && c == UpdateFor(ctx, f) && b == c.budget
  }

  ghost predicate CreateFrom(ctx: Context, feed: Feed, b: string, p: Create) {
    exists f :: f in feed && Makes(ctx, f, b, p)
  }

  ghost predicate UpdateFrom(ctx: Context, feed: Feed, b: string, c: Correction) {
    exists f :: f in feed && Corrects(ctx, f, b, c)
  }

  ghost predicate FiledExactly(ctx: Context, cycle: Cycle, feed: Feed) {
    && cycle.fuzzyUpdates == map[] && cycle.matches == []
    && (forall b, p :: InBatches(cycle.creates, b, p) <==> CreateFrom(ctx, feed, b, p))
    && (forall b, c :: c in Lookup(cycle.updates, b) <==> UpdateFrom(ctx, feed, b, c))
  }

  lemma FeedGrows(ctx: Context, feed: Feed, f: Fetched)
    ensures forall b, p :: CreateFrom(ctx, feed + [f], b, p) <==> CreateFrom(ctx, feed, b, p) || Makes(ctx, f, b, p)
    ensures forall b, c :: UpdateFrom(ctx, feed + [f], b, c) <==> UpdateFrom(ctx, feed, b, c) || Corrects(ctx, f, b, c)
  {
    hide Makes, Corrects;
    var more := feed + [f];
    assert f in more && forall g :: g in more <==> g in feed || g == f;
  }

  // --- cycles by exact keys alone ---------------------------------------------------------------------

  /** Nothing was settled by fuzzy correlation or matched with a manual transaction so far. */
  predicate ExactSoFar(s: Sorting) { s.cycle.fuzzyUpdates == map[] && s.cycle.matches == [] }

  predicate ExactCycle(ctx: Context, feed: Feed) { ExactSoFar(SortAll(ctx, NOTHING_SORTED, feed)) }

  /** One transaction is appended to the list it belongs to, and nothing else happens. */
  function Filed(ctx: Context, cycle: Cycle, f: Fetched): Cycle {
    if IsNew(ctx, f) then cycle.(creates := AddTo(cycle.creates, MappingOf(ctx, f).budget, CreateFor(ctx, f)))
    else if SettlesOwnRow(ctx, f) then
      cycle.(updates := Append(cycle.updates, UpdateFor(ctx, f).budget, UpdateFor(ctx, f)))
    else cycle
  }

  lemma OutcomeByKey(ctx: Context, f: Fetched, manual: seq<PendingMatch.ManualCandidate>,
                     pending: seq<PendingMatch.PendingCandidate>)
    requires IsAccepted(ctx, f)
    ensures var outcome := Classify(ctx.table, ctx.rules, f.provider, MappingOf(ctx, f), f.ntx, manual, pending);
            || outcome.TransitionedFuzzy? || outcome.MatchedManual?
            || outcome == if IsNew(ctx, f) then New(CreateFor(ctx, f))
                          else if SettlesOwnRow(ctx, f) then Transitioned(UpdateFor(ctx, f)) else Unchanged
  {
    hide FuzzyMatchFor, ManualMatchFor;
  }

  /** Once something was matched by its looks, the cycle stays so. */
  lemma ExactStays(ctx: Context, s: Sorting, f: Fetched)
    requires ExactSoFar(SortOne(ctx, f.provider, s, f.ntx))
    ensures ExactSoFar(s) && SortOne(ctx, f.provider, s, f.ntx).cycle == Filed(ctx, s.cycle, f)
  {
    if IsAccepted(ctx, f) {
      var m := MappingOf(ctx, f);
      var (_, manual) := ManualCandidates(ctx, s.manual, m, f.ntx.date);
      var (_, pending) := PendingCandidates(ctx, s.pending, f.ntx.accountKey);
      OutcomeByKey(ctx, f, manual, pending);
      hide ManualCandidates, PendingCandidates, Classify, Accepted, NewCreate;
    }
  }

  lemma {:induction false} ExactBefore(ctx: Context, s: Sorting, feed: Feed)
    requires ExactSoFar(SortAll(ctx, s, feed))
    ensures ExactSoFar(s)
    decreases |feed|
  {
    if feed != [] {
      var s1 := SortOne(ctx, feed[0].provider, s, feed[0].ntx);
      hide SortOne, ExactSoFar;
      ExactBefore(ctx, s1, feed[1..]);
      ExactStays(ctx, s, feed[0]);
    }
  }

  /** The cycle of an exact feed, one report after another. */
  function FiledAll(ctx: Context, cycle: Cycle, feed: Feed): Cycle
    decreases |feed|
  {
    if feed == [] then cycle else FiledAll(ctx, Filed(ctx, cycle, feed[0]), feed[1..])
  }

  lemma {:induction false} ExactFilesAll(ctx: Context, s: Sorting, feed: Feed)
    requires ExactSoFar(SortAll(ctx, s, feed))
    ensures SortAll(ctx, s, feed).cycle == FiledAll(ctx, s.cycle, feed)
    decreases |feed|
  {
    if feed != [] {
      var s1 := SortOne(ctx, feed[0].provider, s, feed[0].ntx);
      hide SortOne, ExactSoFar, Filed;
      ExactBefore(ctx, s1, feed[1..]);
      ExactStays(ctx, s, feed[0]);
      ExactFilesAll(ctx, s1, feed[1..]);
    }
  }

  /** With manual matching and pending import both off, every cycle is exact. */
  lemma {:induction false} ExactRules(ctx: Context, s: Sorting, feed: Feed)
    requires ExactOnly(ctx.rules) && ExactSoFar(s)
    ensures ExactSoFar(SortAll(ctx, s, feed))
    decreases |feed|
  {
    if feed != [] {
      ExactRulesStep(ctx, s, feed[0]);
      hide SortOne, ExactSoFar, ExactOnly;
      ExactRules(ctx, SortOne(ctx, feed[0].provider, s, feed[0].ntx), feed[1..]);
    }
  }

  lemma ExactRulesStep(ctx: Context, s: Sorting, f: Fetched)
    requires ExactOnly(ctx.rules) && ExactSoFar(s)
    ensures ExactSoFar(SortOne(ctx, f.provider, s, f.ntx))
  {
    hide Accepted, NewCreate, AddTo;
  }

  /** No candidate is or will be listed, neither a manual transaction nor a pending row. */
  ghost predicate NoCandidates(ctx: Context, s: Sorting) {
    && (forall a :: a in s.manual ==> s.manual[a].1 == []) && (forall a :: a in s.pending ==> s.pending[a] == [])
    && (forall b, a, since :: Ynab.ListUnimported(ctx.ledger, b, a, since) == [])
    && forall a :: PendingRows(ctx.table, ctx.scan, a) == []
  }

  lemma NoneMatches(rules: Rules, ntx: Ntx)
    ensures FuzzyMatchFor(rules, ntx, []).None? && ManualMatchFor(rules, ntx, []).None?
  {
    assert |Sequences.Filter([], (c: PendingMatch.ManualCandidate) => SameAmountInWindow(rules, ntx, c))| == 0;
  }

  /** A report of a tracked key, or one for which no candidate is listed, is decided by its key. */
  lemma StepByKey(ctx: Context, s: Sorting, f: Fetched)
    requires NoCandidates(ctx, s) || !IsNew(ctx, f)
    ensures SortOne(ctx, f.provider, s, f.ntx).cycle == Filed(ctx, s.cycle, f)
    ensures NoCandidates(ctx, s) ==> NoCandidates(ctx, SortOne(ctx, f.provider, s, f.ntx))
  {
    if IsAccepted(ctx, f) {
      var m := MappingOf(ctx, f);
      var (cache, manual) := ManualCandidates(ctx, s.manual, m, f.ntx.date);
      var (pendingCache, pending) := PendingCandidates(ctx, s.pending, f.ntx.accountKey);
      assert NoCandidates(ctx, s) ==> manual == [] && pending == [];
      assert NoCandidates(ctx, s) ==> NoCandidates(ctx, Sorting(cache, pendingCache, s.cycle));
      NoneMatches(ctx.rules, f.ntx);
      hide ManualCandidates, PendingCandidates, Accepted, NewCreate, FuzzyMatchFor, ManualMatchFor, AddTo, PendingRows;
      var s1 := Sorting(cache, pendingCache, s.cycle);
      var outcome := Classify(ctx.table, ctx.rules, f.provider, m, f.ntx, manual, pending);
      assert !outcome.TransitionedFuzzy? && !outcome.MatchedManual?;
      assert File(s1, m, f.ntx.accountKey, outcome).manual == cache;
    }
  }

  /** Such a feed is exact, and its cycle is what its reports file one after another. */
  lemma {:induction false} AllByKey(ctx: Context, s: Sorting, feed: Feed)
    requires ExactSoFar(s) && (NoCandidates(ctx, s) || forall f :: f in feed ==> !IsNew(ctx, f))
    ensures ExactSoFar(SortAll(ctx, s, feed)) && SortAll(ctx, s, feed).cycle == FiledAll(ctx, s.cycle, feed)
    decreases |feed|
  {
    if feed != [] {
      assert feed[0] in feed;
      StepByKey(ctx, s, feed[0]);
      hide SortOne, NoCandidates, IsAccepted;
      assert forall f :: f in feed[1..] ==> f in feed;
      AllByKey(ctx, SortOne(ctx, feed[0].provider, s, feed[0].ntx), feed[1..]);
    }
  }

  lemma StepFilesExactly(ctx: Context, cycle: Cycle, feed: Feed, f: Fetched)
    requires FiledExactly(ctx, cycle, feed)
    ensures FiledExactly(ctx, Filed(ctx, cycle, f), feed + [f])
  {
    FeedGrows(ctx, feed, f);
    hide AddTo, InBatches, CreateFrom, UpdateFrom, NewCreate, Accepted;
    if IsNew(ctx, f) {
      var b, p := MappingOf(ctx, f).budget, CreateFor(ctx, f);
      forall b', q ensures InBatches(Filed(ctx, cycle, f).creates, b', q)
          <==> InBatches(cycle.creates, b', q) || (b' == b && q == p) {
        AddToMembers(cycle.creates, b, p, b', q);
      }
    }
  }

  lemma {:induction false} FiledAllExactly(ctx: Context, cycle: Cycle, done: Feed, feed: Feed)
    requires FiledExactly(ctx, cycle, done)
    ensures FiledExactly(ctx, FiledAll(ctx, cycle, feed), done + feed)
    decreases |feed|
  {
    hide FiledExactly, Filed;
    if feed == [] {
      assert done + feed == done;
    } else {
      StepFilesExactly(ctx, cycle, done, feed[0]);
      FiledAllExactly(ctx, Filed(ctx, cycle, feed[0]), done + [feed[0]], feed[1..]);
      assert done + [feed[0]] + feed[1..] == done + feed;
    }
  }

  /** Each accepted transaction is filed where its key belongs, and nothing is filed without one. */
  lemma CycleFilesExactly(ctx: Context, feed: Feed)
    requires ExactCycle(ctx, feed)
    ensures FiledExactly(ctx, CycleOf(ctx, feed), feed)
  {
    assert FiledExactly(ctx, NOTHING_SORTED.cycle, []);
    ExactFilesAll(ctx, NOTHING_SORTED, feed);
    hide FiledExactly;
    FiledAllExactly(ctx, NOTHING_SORTED.cycle, [], feed);
    assert [] + feed == feed;
  }

  // --- several creates with one import_id ---------------------------------------------------------

  function ItemsOf<T>(batches: seq<Batch<T>>, budget: string): seq<T> {
    if batches == [] then []
    else if batches[0].budget == budget then batches[0].items else ItemsOf(batches[1..], budget)
  }

  lemma {:induction false} AddToItems<T>(batches: seq<Batch<T>>, budget: string, item: T, b: string)
    ensures ItemsOf(AddTo(batches, budget, item), b)
         == if b == budget then ItemsOf(batches, b) + [item] else ItemsOf(batches, b)
  {
    hide AddTo;
    AddToStep(batches, budget, item);
    if batches == [] {
      assert ItemsOf(AddTo(batches, budget, item)[1..], b) == [];
    } else if batches[0].budget != budget {
      AddToItems(batches[1..], budget, item, b);
    }
  }

  /** A dictionary has one list per key. */
  ghost predicate DistinctBudgets<T>(batches: seq<Batch<T>>) {
    forall i, j :: 0 <= i < j < |batches| ==> batches[i].budget != batches[j].budget
  }

  lemma {:induction false} AddToBudgets<T>(batches: seq<Batch<T>>, budget: string, item: T)
    requires DistinctBudgets(batches)
    ensures DistinctBudgets(AddTo(batches, budget, item))
    ensures forall b :: b in AddTo(batches, budget, item) ==>
        b.budget == budget || exists b' :: b' in batches && b'.budget == b.budget
  {
    hide AddTo;
    AddToStep(batches, budget, item);
    var more := AddTo(batches, budget, item);
    if batches != [] {
      AddToBudgets(batches[1..], budget, item);
      assert more == [more[0]] + more[1..];
      assert forall i :: 1 <= i < |more| ==> more[i] in more[1..];
    }
  }

  lemma {:induction false} ItemsOfMember<T>(batches: seq<Batch<T>>, b: Batch<T>)
    requires DistinctBudgets(batches) && b in batches
    ensures ItemsOf(batches, b.budget) == b.items
  {
    var n :| 0 <= n < |batches| && batches[n] == b;
    if n > 0 {
      assert batches[1..][n - 1] == b;
      ItemsOfMember(batches[1..], b);
    }
  }

  /** The last accepted untracked transaction with this import_id whose account is in this budget. */
  function LastNew(ctx: Context, feed: Feed, budget: string, importId: string): (f: Option<Fetched>)
    ensures f.Some? ==> f.value in feed && IsNew(ctx, f.value) && f.value.ntx.importId == importId
    ensures f.Some? ==> MappingOf(ctx, f.value).budget == budget
    decreases |feed|
  {
    if feed == [] then None
    else
      var f := feed[|feed| - 1];
      if IsNew(ctx, f) && MappingOf(ctx, f).budget == budget && f.ntx.importId == importId then Some(f)
      else LastNew(ctx, feed[..|feed| - 1], budget, importId)
  }

  function CreateOfLast(ctx: Context, feed: Feed, budget: string, importId: string): Option<Create> {
    var f := LastNew(ctx, feed, budget, importId);
    if f.None? then None else Some(CreateFor(ctx, f.value))
  }

  /** by_import_id finds, for each id, what was reported last. */
  ghost predicate FindsLast(ctx: Context, batches: seq<Batch<Create>>, feed: Feed) {
    && DistinctBudgets(batches)
    && forall b, id :: FindCreate(ItemsOf(batches, b), id) == CreateOfLast(ctx, feed, b, id)
  }

  lemma FindAppended(creates: seq<Create>, p: Create, id: string)
    ensures FindCreate(creates + [p], id) == if p.payload.importId == id then Some(p) else FindCreate(creates, id)
  {
    assert (creates + [p])[..|creates|] == creates;
  }

  lemma LastOfGrown(ctx: Context, feed: Feed, f: Fetched, b: string, id: string)
    ensures CreateOfLast(ctx, feed + [f], b, id)
         == if IsNew(ctx, f) && MappingOf(ctx, f).budget == b && f.ntx.importId == id then Some(CreateFor(ctx, f))
            else CreateOfLast(ctx, feed, b, id)
  {
    hide IsNew, MappingOf, CreateFor;
    assert (feed + [f])[..|feed|] == feed;
  }

  lemma StepFindsLast(ctx: Context, cycle: Cycle, feed: Feed, f: Fetched)
    requires FindsLast(ctx, cycle.creates, feed)
    ensures FindsLast(ctx, Filed(ctx, cycle, f).creates, feed + [f])
  {
    hide AddTo, FindCreate, CreateOfLast;
    var creates' := Filed(ctx, cycle, f).creates;
    if IsNew(ctx, f) {
      var m, p := MappingOf(ctx, f), CreateFor(ctx, f);
      assert p.payload.importId == f.ntx.importId;
      hide MappingOf, CreateFor, IsNew, DistinctBudgets;
      AddToBudgets(cycle.creates, m.budget, p);
      forall b, id ensures FindCreate(ItemsOf(creates', b), id) == CreateOfLast(ctx, feed + [f], b, id) {
        AddToItems(cycle.creates, m.budget, p, b);
        FindAppended(ItemsOf(cycle.creates, b), p, id);
        LastOfGrown(ctx, feed, f, b, id);
      }
    } else {
      forall b, id ensures CreateOfLast(ctx, feed + [f], b, id) == CreateOfLast(ctx, feed, b, id) {
        LastOfGrown(ctx, feed, f, b, id);
      }
    }
  }

  lemma {:induction false} FiledAllFindsLast(ctx: Context, cycle: Cycle, done: Feed, feed: Feed)
    requires FindsLast(ctx, cycle.creates, done)
    ensures FindsLast(ctx, FiledAll(ctx, cycle, feed).creates, done + feed)
    decreases |feed|
  {
    hide FindsLast, Filed;
    if feed == [] {
      assert done + feed == done;
    } else {
      StepFindsLast(ctx, cycle, done, feed[0]);
      FiledAllFindsLast(ctx, Filed(ctx, cycle, feed[0]), done + [feed[0]], feed[1..]);
      assert done + [feed[0]] + feed[1..] == done + feed;
    }
  }

  /** Of all the creates with one import_id, the one that will be recorded is the last that was reported. */
  lemma CycleFindsLast(ctx: Context, feed: Feed, b: Batch<Create>, id: string)
    requires ExactCycle(ctx, feed) && b in CycleOf(ctx, feed).creates
    ensures FindCreate(b.items, id) == CreateOfLast(ctx, feed, b.budget, id)
  {
    assert FindsLast(ctx, NOTHING_SORTED.cycle.creates, []);
    ExactFilesAll(ctx, NOTHING_SORTED, feed);
    FiledAllFindsLast(ctx, NOTHING_SORTED.cycle, [], feed);
    assert [] + feed == feed;
    ItemsOfMember(CycleOf(ctx, feed).creates, b);
  }

  /** The first one, for which YNAB creates a transaction. */
  function FirstNew(ctx: Context, feed: Feed, budget: string, importId: string): (f: Option<Fetched>)
    ensures f.Some? ==> f.value in feed && IsNew(ctx, f.value) && f.value.ntx.importId == importId
    ensures f.Some? ==> MappingOf(ctx, f.value).budget == budget
    decreases |feed|
  {
    if feed == [] then None
    else if IsNew(ctx, feed[0]) && MappingOf(ctx, feed[0]).budget == budget && feed[0].ntx.importId == importId then
      Some(feed[0])
    else FirstNew(ctx, feed[1..], budget, importId)
  }

  function PayloadOfFirst(ctx: Context, feed: Feed, budget: string, importId: string): Option<Ynab.Payload> {
    var f := FirstNew(ctx, feed, budget, importId);
    if f.None? then None else Some(CreateFor(ctx, f.value).payload)
  }

  function FirstPayload(ps: seq<Ynab.Payload>, id: string): (p: Option<Ynab.Payload>)
    ensures p.Some? ==> p.value in ps && p.value.importId == id
    ensures p.None? ==> forall q :: q in ps ==> q.importId != id
  {
    if ps == [] then None else if ps[0].importId == id then Some(ps[0]) else FirstPayload(ps[1..], id)
  }

  lemma {:induction false} FirstAppended(ps: seq<Ynab.Payload>, p: Ynab.Payload, id: string)
    ensures FirstPayload(ps + [p], id)
         == if FirstPayload(ps, id).Some? then FirstPayload(ps, id) else if p.importId == id then Some(p) else None
  {
    if ps == [] {
      assert [p][1..] == [] && ps + [p] == [p];
    } else {
      FirstAppended(ps[1..], p, id);
      assert (ps + [p])[1..] == ps[1..] + [p];
    }
  }

  lemma {:induction false} FirstOfGrown(ctx: Context, feed: Feed, f: Fetched, b: string, id: string)
    ensures PayloadOfFirst(ctx, feed + [f], b, id)
         == if PayloadOfFirst(ctx, feed, b, id).Some? then PayloadOfFirst(ctx, feed, b, id)
            else if IsNew(ctx, f) && MappingOf(ctx, f).budget == b && f.ntx.importId == id then
              Some(CreateFor(ctx, f).payload)
            else None
    decreases |feed|
  {
    hide IsNew, MappingOf, CreateFor;
    if feed == [] {
      assert [f][1..] == [] && feed + [f] == [f];
    } else {
      assert (feed + [f])[0] == feed[0] && (feed + [f])[1..] == feed[1..] + [f];
      FirstOfGrown(ctx, feed[1..], f, b, id);
    }
  }

  ghost predicate FindsFirst(ctx: Context, batches: seq<Batch<Create>>, feed: Feed) {
    && DistinctBudgets(batches)
    && forall b, id :: FirstPayload(Payloads(ItemsOf(batches, b)), id) == PayloadOfFirst(ctx, feed, b, id)
  }

  lemma PayloadsAppended(creates: seq<Create>, p: Create)
    ensures Payloads(creates + [p]) == Payloads(creates) + [p.payload]
  {
  }

  lemma StepFindsFirst(ctx: Context, cycle: Cycle, feed: Feed, f: Fetched)
    requires FindsFirst(ctx, cycle.creates, feed)
    ensures FindsFirst(ctx, Filed(ctx, cycle, f).creates, feed + [f])
  {
    hide AddTo, FirstPayload, PayloadOfFirst, Payloads;
    var creates' := Filed(ctx, cycle, f).creates;
    if IsNew(ctx, f) {
      var m, p := MappingOf(ctx, f), CreateFor(ctx, f);
      assert p.payload.importId == f.ntx.importId;
      hide MappingOf, CreateFor, IsNew, DistinctBudgets;
      AddToBudgets(cycle.creates, m.budget, p);
      forall b, id ensures FirstPayload(Payloads(ItemsOf(creates', b)), id) == PayloadOfFirst(ctx, feed + [f], b, id) {
        AddToItems(cycle.creates, m.budget, p, b);
        PayloadsAppended(ItemsOf(cycle.creates, b), p);
        FirstAppended(Payloads(ItemsOf(cycle.creates, b)), p.payload, id);
        FirstOfGrown(ctx, feed, f, b, id);
      }
    } else {
      forall b, id ensures PayloadOfFirst(ctx, feed + [f], b, id) == PayloadOfFirst(ctx, feed, b, id) {
        FirstOfGrown(ctx, feed, f, b, id);
      }
    }
  }

  lemma {:induction false} FiledAllFindsFirst(ctx: Context, cycle: Cycle, done: Feed, feed: Feed)
    requires FindsFirst(ctx, cycle.creates, done)
    ensures FindsFirst(ctx, FiledAll(ctx, cycle, feed).creates, done + feed)
    decreases |feed|
  {
    hide FindsFirst, Filed;
    if feed == [] {
      assert done + feed == done;
    } else {
      StepFindsFirst(ctx, cycle, done, feed[0]);
      FiledAllFindsFirst(ctx, Filed(ctx, cycle, feed[0]), done + [feed[0]], feed[1..]);
      assert done + [feed[0]] + feed[1..] == done + feed;
    }
  }

  /** The first payload with an import_id, which YNAB acts on, is that of the first report. */
  lemma CycleFindsFirst(ctx: Context, feed: Feed, b: Batch<Create>, id: string)
    requires ExactCycle(ctx, feed) && b in CycleOf(ctx, feed).creates
    ensures FirstPayload(Payloads(b.items), id) == PayloadOfFirst(ctx, feed, b.budget, id)
    ensures DistinctBudgets(CycleOf(ctx, feed).creates)
  {
    assert FindsFirst(ctx, NOTHING_SORTED.cycle.creates, []);
    ExactFilesAll(ctx, NOTHING_SORTED, feed);
    FiledAllFindsFirst(ctx, NOTHING_SORTED.cycle, [], feed);
    assert [] + feed == feed;
    ItemsOfMember(CycleOf(ctx, feed).creates, b);
  }
}
