/**
 * What the cycles that classification produces are like: when no manual
 * transaction is claimed twice, and that the results on submitted cycles
 * apply to them.
 */
module ClassifiedCycles {
  import opened Wrappers
  import opened Ynab
  import opened StateDb
  import opened SyncSpec
  import opened Creation
  import opened Frames
  import opened PendingMatch
  import opened Sequences
  import opened Classification
  import opened Filing
  import opened CandidateCache
  import opened ManualReplacement
  import opened FuzzyClaims
  import opened BookingFlags
  import opened TransferLinking
  import opened Resubmission
  import opened Settlement
  import opened TrackedKeys
  import DateWindow
  import Transfers

  // --- claims, counted --------------------------------------------------------------------------------

  /** What is claimed: an account and the id of a transaction in it. */
  type Claim = (string, nat)

  function ClaimOf(m: ManualMatch): Claim { (m.payload.account, m.originalId) }

  function ClaimsIn(items: seq<ManualMatch>): multiset<Claim> {
    if items == [] then multiset{} else multiset{ClaimOf(items[0])} + ClaimsIn(items[1..])
  }

  function ClaimsOf(matches: seq<Batch<ManualMatch>>): multiset<Claim> {
    if matches == [] then multiset{} else ClaimsIn(matches[0].items) + ClaimsOf(matches[1..])
  }

  /** No two matches, nor one match twice, claim the same transaction. */
  ghost predicate ClaimedOnce(matches: seq<Batch<ManualMatch>>) {
    forall claim :: ClaimsOf(matches)[claim] <= 1
  }

  lemma {:induction false} ClaimsAppended(items: seq<ManualMatch>, m: ManualMatch)
    ensures ClaimsIn(items + [m]) == ClaimsIn(items) + multiset{ClaimOf(m)}
  {
    if items == [] {
      assert [m][1..] == [] && items + [m] == [m];
    } else {
      ClaimsAppended(items[1..], m);
      assert (items + [m])[1..] == items[1..] + [m];
    }
  }

  lemma {:induction false} AddToCounts(matches: seq<Batch<ManualMatch>>, budget: string, m: ManualMatch)
    ensures ClaimsOf(AddTo(matches, budget, m)) == ClaimsOf(matches) + multiset{ClaimOf(m)}
  {
    hide AddTo, ClaimsIn;
    AddToStep(matches, budget, m);
    if matches == [] {
      ClaimsAppended([], m);
      assert [] + [m] == [m] && ClaimsOf(AddTo(matches, budget, m)[1..]) == multiset{};
      NoClaims();
    } else if matches[0].budget == budget {
      ClaimsAppended(matches[0].items, m);
    } else {
      AddToCounts(matches[1..], budget, m);
    }
  }

  lemma NoClaims()
    ensures ClaimsIn([]) == multiset{}
  {
  }

  lemma {:induction false} CountedInItems(items: seq<ManualMatch>, account: string, id: nat)
    ensures (account, id) in ClaimsIn(items) <==> ClaimedBy(items, account, id)
  {
    if items != [] {
      CountedInItems(items[1..], account, id);
      if ClaimedBy(items, account, id) {
        var i :| 0 <= i < |items| && items[i].payload.account == account && items[i].originalId == id;
        assert i > 0 ==> items[1..][i - 1] == items[i];
      }
      if ClaimedBy(items[1..], account, id) {
        var i :| 0 <= i < |items[1..]| && items[1..][i].payload.account == account && items[1..][i].originalId == id;
        assert items[i + 1] == items[1..][i];
      }
    }
  }

  lemma {:induction false} CountedIsClaimed(matches: seq<Batch<ManualMatch>>, account: string, id: nat)
    ensures (account, id) in ClaimsOf(matches) <==> IsClaimed(matches, account, id)
  {
    hide ClaimsIn, ClaimedBy, IsClaimed;
    ClaimedCons(matches, account, id);
    if matches != [] {
      CountedInItems(matches[0].items, account, id);
      CountedIsClaimed(matches[1..], account, id);
    }
  }

  // --- no candidate is claimed twice ----------------------------------------------------------------------

  /** A faithful list never offers what is claimed. */
  lemma FaithfulOffersUnclaimed(ctx: Context, s: Sorting, home: string -> string, account: string, c: ManualCandidate)
    requires Faithful(ctx, s, home) && account in s.manual && c in s.manual[account].1
    ensures !IsClaimed(s.cycle.matches, account, c.id)
  {
    hide IsClaimed, AllUnimported;
    FilterMembers(AllUnimported(ctx.ledger, home(account), account),
                  Reaching(s.cycle.matches, account, s.manual[account].0));
  }

  lemma OneMoreIsOnce(matches: seq<Batch<ManualMatch>>, budget: string, m: ManualMatch)
    requires ClaimedOnce(matches) && !IsClaimed(matches, m.payload.account, m.originalId)
    ensures ClaimedOnce(AddTo(matches, budget, m))
  {
    hide AddTo, IsClaimed, ClaimsOf;
    AddToCounts(matches, budget, m);
    CountedIsClaimed(matches, m.payload.account, m.originalId);
  }

  lemma SortClaimsOnce(ctx: Context, provider: string, m: Mapping, s: Sorting, ntx: Ntx, home: string -> string)
    requires Faithful(ctx, s, home) && ClaimedOnce(s.cycle.matches) && m.budget == home(m.ynabAccount)
    requires Widens(ctx, s.manual, m, ntx) ==> !HasClaims(s.cycle.matches, m.ynabAccount)
    ensures Faithful(ctx, Sort(ctx, provider, m, s, ntx), home)
    ensures ClaimedOnce(Sort(ctx, provider, m, s, ntx).cycle.matches)
  {
    var (cache, manual) := ManualCandidates(ctx, s.manual, m, ntx.date);
    var (pendingCache, pending) := PendingCandidates(ctx, s.pending, ntx.accountKey);
    var s1 := s.(manual := cache, pending := pendingCache);
    var outcome := Classify(ctx.table, ctx.rules, provider, m, ntx, manual, pending);
    MatchIsListed(ctx.rules, ntx, manual);
    ClaimIsListed(ctx, provider, m, ntx, manual, pending);
    FileIgnoresManual(s1, s1, m, ntx.accountKey, outcome);
    if ctx.rules.manualWindowDays > 0 || ctx.rules.pendingEnabled {
      FetchKeepsFaithful(ctx, s, home, m, ntx);
    }
    hide PendingCandidates, Classify, Faithful, HasClaims, ListUnimported, IsClaimed;
    assert Faithful(ctx, s.(manual := cache), home);
    FaithfulIgnoresPending(ctx, s.(manual := cache), home, pendingCache);
    if outcome.MatchedManual? {
      NoListNoMatch(ctx, s.manual, m, ntx.date);
      FaithfulOffersUnclaimed(ctx, s1, home, m.ynabAccount, outcome.original);
      ClaimKeepsFaithful(ctx, s1, home, m, ntx.accountKey, outcome.match_, outcome.original);
      OneMoreIsOnce(s.cycle.matches, m.budget, outcome.match_);
    } else {
      FaithfulSame(ctx, s1, File(s1, m, ntx.accountKey, outcome), home);
    }
  }

  lemma FaithfulIgnoresPending(ctx: Context, s: Sorting, home: string -> string, pending: PendingCache)
    requires Faithful(ctx, s, home)
    ensures Faithful(ctx, s.(pending := pending), home)
  {
  }

  lemma FaithfulSame(ctx: Context, s: Sorting, s': Sorting, home: string -> string)
    requires Faithful(ctx, s, home) && s'.manual == s.manual && s'.cycle.matches == s.cycle.matches
    ensures Faithful(ctx, s', home)
  {
  }

  lemma NoListNoMatch(ctx: Context, cache: ManualCache, m: Mapping, date: int)
    ensures var (cache', listed) := ManualCandidates(ctx, cache, m, date);
            listed != [] ==> m.ynabAccount in cache' && listed == cache'[m.ynabAccount].1
  {
    hide ListUnimported;
  }

  lemma {:induction false} SortAllClaimsOnce(ctx: Context, s: Sorting, feed: Feed, home: string -> string)
    requires Faithful(ctx, s, home) && ClaimedOnce(s.cycle.matches)
    requires OneBudget(ctx, home) && NoLateWidening(ctx, s, feed)
    ensures ClaimedOnce(SortAll(ctx, s, feed).cycle.matches)
    decreases |feed|
  {
    hide Faithful, Sort, FetchWindow, HasClaims, Widens, ClaimedOnce;
    if feed != [] {
      var provider, ntx := feed[0].provider, feed[0].ntx;
      if Accepted(ctx, provider, ntx) {
        SortClaimsOnce(ctx, provider, ctx.mappings[(provider, ntx.accountKey)], s, ntx, home);
      }
      SortAllClaimsOnce(ctx, SortOne(ctx, provider, s, ntx), feed[1..], home);
    }
  }

  /**
   * As long as no list is widened after a claim from it, no manual transaction is claimed twice in a cycle: a double
   * claim always has a late widening before it.
   */
  lemma NoCandidateClaimedTwice(ctx: Context, feed: Feed, home: string -> string)
    requires OneBudget(ctx, home)
    ensures NoLateWidening(ctx, NOTHING_SORTED, feed) ==> ClaimedOnce(CycleOf(ctx, feed).matches)
  {
    if NoLateWidening(ctx, NOTHING_SORTED, feed) {
      assert ClaimedOnce(NOTHING_SORTED.cycle.matches);
      assert Faithful(ctx, NOTHING_SORTED, home);
      SortAllClaimsOnce(ctx, NOTHING_SORTED, feed, home);
    }
  }

  // --- two matches, two originals ---------------------------------------------------------------------------

  lemma {:induction false} MemberCounts(items: seq<ManualMatch>, m: ManualMatch)
    requires m in items
    ensures ClaimsIn(items)[ClaimOf(m)] >= 1
    ensures forall m' :: m' in items && m' != m && ClaimOf(m') == ClaimOf(m) ==> ClaimsIn(items)[ClaimOf(m)] >= 2
  {
    if m in items[1..] {
      MemberCounts(items[1..], m);
    } else {
      forall m' | m' in items && m' != m && ClaimOf(m') == ClaimOf(m) ensures ClaimsIn(items[1..])[ClaimOf(m)] >= 1 {
        MemberCounts(items[1..], m');
      }
    }
  }

  lemma {:induction false} BatchCounts(matches: seq<Batch<ManualMatch>>, k: nat, claim: Claim)
    requires k < |matches|
    ensures ClaimsOf(matches)[claim] >= ClaimsIn(matches[k].items)[claim]
    ensures forall j: nat :: j < |matches| && j != k ==>
        ClaimsOf(matches)[claim] >= ClaimsIn(matches[k].items)[claim] + ClaimsIn(matches[j].items)[claim]
    decreases |matches|
  {
    hide ClaimsIn;
    if k > 0 {
      BatchCounts(matches[1..], k - 1, claim);
    }
    forall j: nat | j < |matches| && j != k
      ensures ClaimsOf(matches)[claim] >= ClaimsIn(matches[k].items)[claim] + ClaimsIn(matches[j].items)[claim]
    {
      if k == 0 {
        BatchCounts(matches[1..], j - 1, claim);
      } else if j > 0 {
        assert matches[1..][j - 1] == matches[j] && matches[1..][k - 1] == matches[k];
      }
    }
  }

  lemma ClaimedOnceIsDistinct(matches: seq<Batch<ManualMatch>>, b: string, m: ManualMatch, b': string, m': ManualMatch)
    requires ClaimedOnce(matches) && InBatches(matches, b, m) && InBatches(matches, b', m') && ClaimOf(m) == ClaimOf(m')
    ensures b == b' && m == m'
  {
    var k :| 0 <= k < |matches| && matches[k].budget == b && m in matches[k].items;
    var k' :| 0 <= k' < |matches| && matches[k'].budget == b' && m' in matches[k'].items;
    MemberCounts(matches[k].items, m);
    MemberCounts(matches[k'].items, m');
    BatchCounts(matches, k, ClaimOf(m));
    assert ClaimsOf(matches)[ClaimOf(m)] <= 1;
  }

  // --- what is matched is in the account's listing -----------------------------------------------------------

  /** A visible transaction of the account that no source imported. */
  ghost predicate Typed(l: Ledger, budget: string, account: string, id: nat) {
    id < |l| && l[id].budget == budget && l[id].account == account && l[id].importId.None? && IsVisible(l[id])
  }

  lemma {:induction false} UnimportedIsTyped(l: Ledger, budget: string, account: string, from: nat)
    requires from <= |l|
    ensures forall c :: c in AllUnimported(l, budget, account, from) ==> Typed(l, budget, account, c.id)
    decreases |l| - from
  {
    if from < |l| {
      UnimportedIsTyped(l, budget, account, from + 1);
    }
  }

  ghost predicate AllTyped(l: Ledger, matches: seq<Batch<ManualMatch>>) {
    forall b, m :: InBatches(matches, b, m) ==> Typed(l, b, m.payload.account, m.originalId)
  }

  lemma SortKeepsTyped(ctx: Context, provider: string, m: Mapping, s: Sorting, ntx: Ntx, home: string -> string)
    requires Reaches(ctx, s, home) && AllTyped(ctx.ledger, s.cycle.matches) && m.budget == home(m.ynabAccount)
    ensures AllTyped(ctx.ledger, Sort(ctx, provider, m, s, ntx).cycle.matches)
  {
    var (cache, manual) := ManualCandidates(ctx, s.manual, m, ntx.date);
    var (pendingCache, pending) := PendingCandidates(ctx, s.pending, ntx.accountKey);
    var s1 := s.(manual := cache, pending := pendingCache);
    var outcome := Classify(ctx.table, ctx.rules, provider, m, ntx, manual, pending);
    FetchReaches(ctx, s, home, m, ntx.date);
    MatchIsListed(ctx.rules, ntx, manual);
    ClaimIsListed(ctx, provider, m, ntx, manual, pending);
    FileIgnoresManual(s1, s1, m, ntx.accountKey, outcome);
    UnimportedIsTyped(ctx.ledger, m.budget, m.ynabAccount, 0);
    hide ManualCandidates, PendingCandidates, Classify, AllUnimported, InBatches, AddTo;
    if outcome.MatchedManual? {
      assert outcome.original in AllUnimported(ctx.ledger, m.budget, m.ynabAccount);
      var next := Sort(ctx, provider, m, s, ntx).cycle.matches;
      forall b, p | InBatches(next, b, p) ensures Typed(ctx.ledger, b, p.payload.account, p.originalId) {
        AddToMembers(s.cycle.matches, m.budget, outcome.match_, b, p);
      }
    }
  }

  lemma {:induction false} SortAllKeepsTyped(ctx: Context, s: Sorting, feed: Feed, home: string -> string)
    requires OneBudget(ctx, home) && Reaches(ctx, s, home) && AllTyped(ctx.ledger, s.cycle.matches)
    ensures AllTyped(ctx.ledger, SortAll(ctx, s, feed).cycle.matches)
    decreases |feed|
  {
    hide Reaches, AllTyped, Sort, FetchWindow;
    if feed != [] {
      var provider, ntx := feed[0].provider, feed[0].ntx;
      if Accepted(ctx, provider, ntx) {
        SortReaches(ctx, provider, ctx.mappings[(provider, ntx.accountKey)], s, ntx, home);
        SortKeepsTyped(ctx, provider, ctx.mappings[(provider, ntx.accountKey)], s, ntx, home);
      }
      SortAllKeepsTyped(ctx, SortOne(ctx, provider, s, ntx), feed[1..], home);
    }
  }

  // --- every item comes from its own report -------------------------------------------------------------------

  ghost predicate DistinctReports(feed: Feed) {
    forall i, j :: 0 <= i < j < |feed| ==> OtherReport(feed[i], feed[j])
  }

  predicate OtherReport(f: Fetched, g: Fetched) {
    f.ntx.trackingKey != g.ntx.trackingKey && f.ntx.importId != g.ntx.importId
  }

  /** An untracked report of this account, budget and day, under this key and import_id. */
  ghost predicate Reports(ctx: Context, f: Fetched, budget: string, key: string, p: Payload) {
    && IsNew(ctx, f) && f.ntx.trackingKey == key && f.ntx.importId == p.importId && f.ntx.date == p.date
    && MappingOf(ctx, f).budget == budget && MappingOf(ctx, f).ynabAccount == p.account
  }

  ghost predicate WasReported(ctx: Context, feed: Feed, budget: string, key: string, p: Payload) {
    exists f :: f in feed && Reports(ctx, f, budget, key, p)
  }

  ghost predicate KeyReported(feed: Feed, key: string) { exists f :: f in feed && f.ntx.trackingKey == key }

  /** A plain update of a row of the table, filed under that row's budget. */
  predicate BooksRow(t: Table, b: string, c: Correction) {
    c.Update? && c.oldKey in t && c.txnId == t[c.oldKey].facts.txnId && b == t[c.oldKey].facts.budget
  }

  ghost predicate AllReported(ctx: Context, feed: Feed, cycle: Cycle) {
    && (forall b, p :: InBatches(cycle.creates, b, p) ==>
          p.secondary.None? && WasReported(ctx, feed, b, p.trackingKey, p.payload))
    && (forall b, m :: InBatches(cycle.matches, b, m) ==> WasReported(ctx, feed, b, m.trackingKey, m.payload))
    && (forall b, c :: c in Lookup(cycle.updates, b) ==> BooksRow(ctx.table, b, c))
    && (forall b, c :: c in Lookup(cycle.fuzzyUpdates, b) ==> c.FuzzyUpdate? && KeyReported(feed, c.newKey))
  }

  /** No two items share a new key, and matches do not share an import_id. */
  ghost predicate ItemsApart(cycle: Cycle) {
    && (forall b, p, b', c :: InBatches(cycle.creates, b, p) && c in Lookup(cycle.fuzzyUpdates, b') && c.FuzzyUpdate? ==>
          p.trackingKey != c.newKey)
    && MatchesApart(cycle)
  }

  /** Whatever is matched is filed once: nothing else in the cycle has its key or its import_id. */
  ghost predicate MatchesApart(cycle: Cycle) {
    && (forall b, p, b', m :: InBatches(cycle.creates, b, p) && InBatches(cycle.matches, b', m) ==>
          p.trackingKey != m.trackingKey && p.payload.importId != m.payload.importId)
    && (forall b, c, b', m :: c in Lookup(cycle.fuzzyUpdates, b) && c.FuzzyUpdate? && InBatches(cycle.matches, b', m) ==>
          c.newKey != m.trackingKey)
    && (forall b, m, b', m' :: InBatches(cycle.matches, b, m) && InBatches(cycle.matches, b', m') && (b, m) != (b', m') ==>
          m.trackingKey != m'.trackingKey && m.payload.importId != m'.payload.importId)
  }

  lemma MoreReports(ctx: Context, done: Feed, f: Fetched, cycle: Cycle)
    requires AllReported(ctx, done, cycle)
    ensures AllReported(ctx, done + [f], cycle)
  {
    hide InBatches, Reports;
    assert forall g :: g in done ==> g in done + [f];
  }

  /** Whatever is filed was reported before f, so it differs from f. */
  lemma FiledDiffers(ctx: Context, done: Feed, f: Fetched, cycle: Cycle)
    requires AllReported(ctx, done, cycle) && forall g :: g in done ==> OtherReport(g, f)
    ensures NotFiled(cycle, f.ntx.trackingKey, f.ntx.importId)
  {
    hide InBatches, IsNew;
  }

  lemma OutcomeReports(ctx: Context, f: Fetched, manual: seq<ManualCandidate>, pending: seq<PendingCandidate>)
    requires IsAccepted(ctx, f)
    ensures var m := MappingOf(ctx, f);
            var outcome := Classify(ctx.table, ctx.rules, f.provider, m, f.ntx, manual, pending);
            && (outcome.New? ==> outcome.create.secondary.None?
                                 && Reports(ctx, f, m.budget, outcome.create.trackingKey, outcome.create.payload))
            && (outcome.MatchedManual? ==>
                  Reports(ctx, f, m.budget, outcome.match_.trackingKey, outcome.match_.payload))
            && (outcome.Transitioned? ==> BooksRow(ctx.table, outcome.update.budget, outcome.update))
            && (outcome.TransitionedFuzzy? ==> outcome.update.FuzzyUpdate? && outcome.update.newKey == f.ntx.trackingKey)
  {
    hide ManualMatchFor, FuzzyMatchFor, Accepted;
  }

  lemma AppendMembers(f: Updates, budget: string, c: Correction, b: string, d: Correction)
    ensures d in Lookup(Append(f, budget, c), b) <==> d in Lookup(f, b) || (b == budget && d == c)
  {
  }

  /** The cycle has no item for this key or import_id yet. */
  ghost predicate NotFiled(cycle: Cycle, key: string, id: string) {
    && (forall b, p :: InBatches(cycle.creates, b, p) ==> p.trackingKey != key && p.payload.importId != id)
    && (forall b, m :: InBatches(cycle.matches, b, m) ==> m.trackingKey != key && m.payload.importId != id)
    && (forall b, c :: c in Lookup(cycle.fuzzyUpdates, b) && c.FuzzyUpdate? ==> c.newKey != key)
  }

  lemma CreateApart(ctx: Context, done: Feed, f: Fetched, cycle: Cycle, budget: string, p: Create)
    requires AllReported(ctx, done, cycle) && f in done
    requires Reports(ctx, f, budget, p.trackingKey, p.payload) && p.secondary.None?
    ensures var cycle' := cycle.(creates := AddTo(cycle.creates, budget, p));
            && AllReported(ctx, done, cycle')
            && (ItemsApart(cycle) && NotFiled(cycle, p.trackingKey, p.payload.importId) ==> ItemsApart(cycle'))
  {
    hide InBatches, AddTo, Reports;
    var creates' := AddTo(cycle.creates, budget, p);
    forall b, q ensures InBatches(creates', b, q) <==> InBatches(cycle.creates, b, q) || (b == budget && q == p) {
      AddToMembers(cycle.creates, budget, p, b, q);
    }
  }

  lemma MatchApart(ctx: Context, done: Feed, f: Fetched, cycle: Cycle, budget: string, m: ManualMatch)
    requires AllReported(ctx, done, cycle) && f in done && Reports(ctx, f, budget, m.trackingKey, m.payload)
    ensures var cycle' := cycle.(matches := AddTo(cycle.matches, budget, m));
            && AllReported(ctx, done, cycle')
            && (ItemsApart(cycle) && NotFiled(cycle, m.trackingKey, m.payload.importId) ==> ItemsApart(cycle'))
  {
    hide InBatches, AddTo, Reports;
    var matches' := AddTo(cycle.matches, budget, m);
    forall b, q ensures InBatches(matches', b, q) <==> InBatches(cycle.matches, b, q) || (b == budget && q == m) {
      AddToMembers(cycle.matches, budget, m, b, q);
    }
  }

  lemma UpdateApart(ctx: Context, done: Feed, cycle: Cycle, budget: string, c: Correction)
    requires AllReported(ctx, done, cycle) && BooksRow(ctx.table, budget, c)
    ensures var cycle' := cycle.(updates := Append(cycle.updates, budget, c));
            AllReported(ctx, done, cycle') && (ItemsApart(cycle) ==> ItemsApart(cycle'))
  {
    hide InBatches, WasReported;
    var updates' := Append(cycle.updates, budget, c);
    forall b, d ensures d in Lookup(updates', b) <==> d in Lookup(cycle.updates, b) || (b == budget && d == c) {
      AppendMembers(cycle.updates, budget, c, b, d);
    }
    hide Append, Lookup;
  }

  lemma FuzzyApart(ctx: Context, done: Feed, cycle: Cycle, budget: string, c: Correction)
    requires AllReported(ctx, done, cycle) && c.FuzzyUpdate? && KeyReported(done, c.newKey)
    ensures var cycle' := cycle.(fuzzyUpdates := Append(cycle.fuzzyUpdates, budget, c));
            && AllReported(ctx, done, cycle')
            && forall id :: ItemsApart(cycle) && NotFiled(cycle, c.newKey, id) ==> ItemsApart(cycle')
  {
    hide InBatches, WasReported;
    var fuzzy' := Append(cycle.fuzzyUpdates, budget, c);
    forall b, d ensures d in Lookup(fuzzy', b) <==> d in Lookup(cycle.fuzzyUpdates, b) || (b == budget && d == c) {
      AppendMembers(cycle.fuzzyUpdates, budget, c, b, d);
    }
    hide Append, Lookup;
  }

  lemma StepApart(ctx: Context, s: Sorting, done: Feed, f: Fetched, once: bool)
    requires AllReported(ctx, done, s.cycle)
    requires once ==> ItemsApart(s.cycle) && forall g :: g in done ==> OtherReport(g, f)
    ensures AllReported(ctx, done + [f], SortOne(ctx, f.provider, s, f.ntx).cycle)
    ensures once ==> ItemsApart(SortOne(ctx, f.provider, s, f.ntx).cycle)
  {
    if once { FiledDiffers(ctx, done, f, s.cycle); }
    MoreReports(ctx, done, f, s.cycle);
    if IsAccepted(ctx, f) {
      var m := MappingOf(ctx, f);
      var (cache, manual) := ManualCandidates(ctx, s.manual, m, f.ntx.date);
      var (pendingCache, pending) := PendingCandidates(ctx, s.pending, f.ntx.accountKey);
      OutcomeReports(ctx, f, manual, pending);
      var outcome := Classify(ctx.table, ctx.rules, f.provider, m, f.ntx, manual, pending);
      hide AllReported, ItemsApart, ManualCandidates, PendingCandidates, Classify, Accepted, InBatches, AddTo, Append,
           Lookup, IsNew, NotFiled;
      match outcome
      case New(p) => CreateApart(ctx, done + [f], f, s.cycle, m.budget, p);
      case MatchedManual(match_, original) => MatchApart(ctx, done + [f], f, s.cycle, m.budget, match_);
      case Transitioned(c) => UpdateApart(ctx, done + [f], s.cycle, c.budget, c);
      case TransitionedFuzzy(c, settled) =>
        assert f in done + [f];
        FuzzyApart(ctx, done + [f], s.cycle, c.budget, c);
      case Unchanged =>
    }
  }

  /** `once` says that no key and no import_id is reported twice. */
  lemma {:induction false} SortAllApart(ctx: Context, s: Sorting, done: Feed, feed: Feed, once: bool)
    requires AllReported(ctx, done, s.cycle)
    requires once ==> ItemsApart(s.cycle) && DistinctReports(feed)
    requires once ==> forall g, f :: g in done && f in feed ==> OtherReport(g, f)
    ensures AllReported(ctx, done + feed, SortAll(ctx, s, feed).cycle)
    ensures once ==> ItemsApart(SortAll(ctx, s, feed).cycle)
    decreases |feed|
  {
    hide AllReported, ItemsApart, SortOne, OtherReport;
    if feed == [] {
      assert done + feed == done;
    } else {
      var f := feed[0];
      StepApart(ctx, s, done, f, once);
      forall g | once && g in feed[1..] ensures OtherReport(f, g) {
        var j :| 0 <= j < |feed[1..]| && feed[1..][j] == g;
        assert feed[j + 1] == g;
      }
      SortAllApart(ctx, SortOne(ctx, f.provider, s, f.ntx), done + [f], feed[1..], once);
      assert done + [f] + feed[1..] == done + feed;
    }
  }

  // --- so the matches stand apart from the rest of the cycle -----------------------------------------------

  ghost predicate CorrectionKey(cycle: Cycle, k: string) {
    exists b, c :: c in CorrectionsOf(cycle, b) && (c.oldKey == k || (c.FuzzyUpdate? && c.newKey == k))
  }

  /** The rows that the first two phases may write. */
  ghost function OwnKeys(cycle: Cycle): iset<string> { iset k | CreateKey(cycle, k) || CorrectionKey(cycle, k) }

  lemma SameMatches(cycle: Cycle, b: string, m: ManualMatch)
    ensures IsMatch(cycle, b, m) <==> InBatches(cycle.matches, b, m)
  {
  }

  /** A visible transaction already carries the import_id of this report. */
  predicate ShowsImport(ctx: Context, f: Fetched, s: nat) {
    && IsNew(ctx, f) && s < |ctx.ledger| && IsVisible(ctx.ledger[s])
    && Holds(ctx.ledger[s], MappingOf(ctx, f).budget, f.ntx.importId)
  }

  /** Such a transaction is where a later lookup will search: in the same account, recent enough. */
  ghost predicate ImportsInReach(cfg: Settings, ctx: Context, feed: Feed) {
    forall f, s: nat :: f in feed && ShowsImport(ctx, f, s) ==>
      ctx.ledger[s].account == MappingOf(ctx, f).ynabAccount
      && ctx.ledger[s].date >= DateWindow.SinceDateBound(f.ntx.date, cfg.backfillDays)
  }

  lemma ReportedIsFindable(cfg: Settings, ctx: Context, feed: Feed, b: string, m: ManualMatch)
    requires ImportsInReach(cfg, ctx, feed) && WasReported(ctx, feed, b, m.trackingKey, m.payload)
    ensures Findable(cfg, ctx.ledger, b, m) && m.trackingKey !in ctx.table
  {
    var f :| f in feed && Reports(ctx, f, b, m.trackingKey, m.payload);
    hide Accepted;
    forall s: nat | Replacement(ctx.ledger, b, m, s) ensures ShowsImport(ctx, f, s) {
    }
  }

  /** Every item comes from a report; fuzzy updates claim pending rows, each its own. */
  ghost predicate WellSorted(ctx: Context, feed: Feed, cycle: Cycle) {
    AllReported(ctx, feed, cycle) && AllFromPendingRows(ctx.table, cycle.fuzzyUpdates) && RowsDistinct(cycle.fuzzyUpdates)
  }

  /** Each from its own report, and matches claim transactions of the account's listing, each its own. */
  ghost predicate WellMatched(ctx: Context, feed: Feed, cycle: Cycle) {
    WellSorted(ctx, feed, cycle) && MatchesApart(cycle) && AllTyped(ctx.ledger, cycle.matches) && ClaimedOnce(cycle.matches)
  }

  lemma ClassifiedIsSorted(ctx: Context, feed: Feed)
    requires ScansTable(ctx.scan, ctx.table)
    ensures WellSorted(ctx, feed, CycleOf(ctx, feed))
    ensures DistinctReports(feed) ==> ItemsApart(CycleOf(ctx, feed))
  {
    assert AllReported(ctx, [], NOTHING_SORTED.cycle) && ItemsApart(NOTHING_SORTED.cycle);
    hide AllReported, ItemsApart, AllFromPendingRows, RowsDistinct, ClaimsDistinct, DistinctReports, ScansTable;
    NoRowClaimedTwice(ctx, feed);
    SortAllApart(ctx, NOTHING_SORTED, [], feed, DistinctReports(feed));
    assert [] + feed == feed;
  }

  lemma ClassifiedIsMatched(ctx: Context, feed: Feed, home: string -> string)
    requires ScansTable(ctx.scan, ctx.table) && OneBudget(ctx, home) && MatchesApart(CycleOf(ctx, feed))
    requires NoLateWidening(ctx, NOTHING_SORTED, feed)
    ensures WellMatched(ctx, feed, CycleOf(ctx, feed))
  {
    assert AllTyped(ctx.ledger, NOTHING_SORTED.cycle.matches) && Reaches(ctx, NOTHING_SORTED, home);
    hide WellSorted, MatchesApart, AllTyped, ClaimedOnce, Reaches, NoLateWidening, OneBudget, DistinctReports, ScansTable;
    ClassifiedIsSorted(ctx, feed);
    NoCandidateClaimedTwice(ctx, feed, home);
    SortAllKeepsTyped(ctx, NOTHING_SORTED, feed, home);
  }

  lemma MatchesAreDistinct(ctx: Context, feed: Feed, cycle: Cycle)
    requires MatchesApart(cycle) && AllTyped(ctx.ledger, cycle.matches) && ClaimedOnce(cycle.matches)
    ensures DistinctMatches(cycle)
  {
    hide InBatches, ClaimsOf, IsMatch;
    forall b, m, b', m' | IsMatch(cycle, b, m) && IsMatch(cycle, b', m') && (b != b' || m != m')
      ensures m.trackingKey != m'.trackingKey && m.originalId != m'.originalId
              && m.payload.importId != m'.payload.importId
    {
      SameMatches(cycle, b, m);
      SameMatches(cycle, b', m');
      assert (b, m) != (b', m');
      if m.originalId == m'.originalId {
        assert Typed(ctx.ledger, b, m.payload.account, m.originalId);
        assert Typed(ctx.ledger, b', m'.payload.account, m'.originalId);
        ClaimedOnceIsDistinct(cycle.matches, b, m, b', m');
      }
    }
  }

  lemma MatchKeyIsFree(ctx: Context, feed: Feed, classified: Cycle, b: string, m: ManualMatch, k: string)
    requires WellMatched(ctx, feed, classified) && InBatches(classified.matches, b, m)
    requires CorrectionKey(classified, k)
    ensures k != m.trackingKey
  {
    assert WasReported(ctx, feed, b, m.trackingKey, m.payload);
    var f :| f in feed && Reports(ctx, f, b, m.trackingKey, m.payload);
    assert m.trackingKey !in ctx.table;
    hide InBatches, WasReported, AllTyped, ClaimedOnce, IsAccepted, RowsDistinct;
    var d, c :| c in CorrectionsOf(classified, d) && (c.oldKey == k || (c.FuzzyUpdate? && c.newKey == k));
    if c in Lookup(classified.fuzzyUpdates, d) {
      var i :| 0 <= i < |Lookup(classified.fuzzyUpdates, d)| && Lookup(classified.fuzzyUpdates, d)[i] == c;
      assert At(classified.fuzzyUpdates, d, i);
    } else {
      assert BooksRow(ctx.table, d, c);
    }
  }

  /** The matches of the submitted cycle stand apart from everything else in it. */
  lemma SubmittedSeparate(ctx: Context, feed: Feed, classified: Cycle, cycle: Cycle, rule: Transfers.MatchRule,
                          accounts: string -> set<string>)
    requires WellMatched(ctx, feed, classified) && LinkedFrom(cycle, classified, rule, accounts)
    ensures Separate(cycle, OwnKeys(cycle), CreateIds(cycle))
  {
    MatchesAreDistinct(ctx, feed, classified);
    assert DistinctMatches(cycle) by { SameMatchesDistinct(classified, cycle); }
    hide WellLinked, InBatches, IsMatch, DistinctMatches, LegOf;
    forall b, m | IsMatch(cycle, b, m)
      ensures m.trackingKey !in OwnKeys(cycle) && m.payload.importId !in CreateIds(cycle)
    {
      SameMatches(cycle, b, m);
      MatchStandsApart(ctx, feed, classified, cycle, rule, accounts, b, m);
    }
    OwnCovers(cycle);
  }

  lemma SameMatchesDistinct(classified: Cycle, cycle: Cycle)
    requires DistinctMatches(classified) && cycle.matches == classified.matches
    ensures DistinctMatches(cycle)
  {
    hide IsMatch;
    forall b, m ensures IsMatch(cycle, b, m) <==> IsMatch(classified, b, m) {
      SameMatches(cycle, b, m);
      SameMatches(classified, b, m);
    }
  }

  lemma OwnCovers(cycle: Cycle)
    ensures forall batch :: batch in cycle.creates ==> BatchWithin(batch, OwnKeys(cycle), CreateIds(cycle))
    ensures CorrectionsWithin(cycle, OwnKeys(cycle))
  {
    forall batch, p | batch in cycle.creates && p in batch.items
      ensures p.trackingKey in OwnKeys(cycle) && p.payload.importId in CreateIds(cycle)
      ensures p.secondary.Some? ==> p.secondary.value.trackingKey in OwnKeys(cycle)
    {
      assert HasKey(p, p.trackingKey) && CreateKey(cycle, p.trackingKey);
      assert p.secondary.Some? ==> HasKey(p, p.secondary.value.trackingKey);
    }
    forall b, c | c in CorrectionsOf(cycle, b) ensures CorrectionWithin(c, OwnKeys(cycle)) {
      assert CorrectionKey(cycle, c.oldKey);
      assert c.FuzzyUpdate? ==> CorrectionKey(cycle, c.newKey);
    }
  }

  lemma MatchStandsApart(ctx: Context, feed: Feed, classified: Cycle, cycle: Cycle, rule: Transfers.MatchRule,
                         accounts: string -> set<string>, b: string, m: ManualMatch)
    requires WellMatched(ctx, feed, classified) && LinkedFrom(cycle, classified, rule, accounts)
    requires InBatches(cycle.matches, b, m)
    ensures m.trackingKey !in OwnKeys(cycle) && m.payload.importId !in CreateIds(cycle)
  {
    hide WellLinked, InBatches, AllTyped, ClaimedOnce, AllFromPendingRows;
    forall d, p | d in cycle.creates && p in d.items
      ensures !HasKey(p, m.trackingKey)
      ensures p.payload.importId != m.payload.importId
    {
      LinkedIsLeg(cycle, classified, rule, accounts, d, p);
    }
    if CorrectionKey(cycle, m.trackingKey) {
      assert CorrectionKey(classified, m.trackingKey) by { SameCorrections(classified, cycle, m.trackingKey); }
      MatchKeyIsFree(ctx, feed, classified, b, m, m.trackingKey);
    }
  }

  lemma SameCorrections(classified: Cycle, cycle: Cycle, k: string)
    requires cycle.updates == classified.updates && cycle.fuzzyUpdates == classified.fuzzyUpdates
    ensures CorrectionKey(cycle, k) <==> CorrectionKey(classified, k)
  {
    assert forall b :: CorrectionsOf(cycle, b) == CorrectionsOf(classified, b);
    hide CorrectionsOf;
  }

  lemma SubmittedFresh(cfg: Settings, ctx: Context, feed: Feed, cycle: Cycle)
    requires WellMatched(ctx, feed, cycle) && UniqueIds(ctx.ledger) && ImportsInReach(cfg, ctx, feed)
    ensures FreshMatches(cfg, cycle, ctx.table, ctx.ledger)
  {
    hide InBatches, UniqueIds, MatchesApart, ClaimedOnce, AllFromPendingRows, ImportsInReach, Findable;
    forall b, m | IsMatch(cycle, b, m)
      ensures IsManual(ctx.ledger, b, m) && !ctx.ledger[m.originalId].deleted && m.trackingKey !in ctx.table
              && Findable(cfg, ctx.ledger, b, m)
    {
      SameMatches(cycle, b, m);
      assert Typed(ctx.ledger, b, m.payload.account, m.originalId);
      ReportedIsFindable(cfg, ctx, feed, b, m);
    }
  }

  /** As when each key and import_id is reported once. */
  lemma DistinctReportsMatchApart(ctx: Context, feed: Feed)
    requires ScansTable(ctx.scan, ctx.table) && DistinctReports(feed)
    ensures MatchesApart(CycleOf(ctx, feed))
  {
    hide CycleOf, WellSorted, MatchesApart, DistinctReports, ScansTable, InBatches, Lookup;
    ClassifiedIsSorted(ctx, feed);
  }

  /**
   * The cycle that classification and linking produce, if whatever it matches is filed once: after any attempts,
   * aborted anywhere, of each manual original and its replacement at least one is visible, and exactly one once an
   * attempt completed without a refused delete.
   */
  lemma ClassifiedMoneyNeverVanishes(cfg: Settings, ctx: Context, feed: Feed, home: string -> string, cycle: Cycle,
                                     rule: Transfers.MatchRule, accounts: string -> set<string>, tries: seq<Try>)
    requires ScansTable(ctx.scan, ctx.table) && OneBudget(ctx, home) && MatchesApart(CycleOf(ctx, feed))
    requires UniqueIds(ctx.ledger) && ImportsInReach(cfg, ctx, feed)
    requires NoLateWidening(ctx, NOTHING_SORTED, feed)
    requires LinkedFrom(cycle, CycleOf(ctx, feed), rule, accounts)
    ensures var w := AfterTries(cfg, cycle, Attempt(ctx.table, ctx.ledger, [], 0), tries);
            && (forall b, m :: IsMatch(cycle, b, m) ==> Visible(w.ledger, m.originalId) || Replaced(w.ledger, b, m))
            && (tries != [] && w.status == Running && NoRefusal(tries[|tries| - 1].script) ==>
                forall b, m :: IsMatch(cycle, b, m) ==> ExactlyOneVisible(w.ledger, b, m))
  {
    hide WellMatched, LinkedFrom, Separate, FreshMatches, AfterTries, UniqueIds, ImportsInReach, CycleOf,
         NoLateWidening, OneBudget, ScansTable, MatchesApart, ExactlyOneVisible;
    ClassifiedIsMatched(ctx, feed, home);
    SubmittedSeparate(ctx, feed, CycleOf(ctx, feed), cycle, rule, accounts);
    SubmittedFresh(cfg, ctx, feed, CycleOf(ctx, feed));
    LinkedFresh(cfg, ctx, CycleOf(ctx, feed), cycle, rule, accounts);
    MatchedMoneyNeverVanishes(cfg, cycle, ctx.table, ctx.ledger, tries, OwnKeys(cycle), CreateIds(cycle));
  }

  lemma LinkedFresh(cfg: Settings, ctx: Context, classified: Cycle, cycle: Cycle, rule: Transfers.MatchRule,
                    accounts: string -> set<string>)
    requires LinkedFrom(cycle, classified, rule, accounts) && FreshMatches(cfg, classified, ctx.table, ctx.ledger)
    ensures FreshMatches(cfg, cycle, ctx.table, ctx.ledger)
  {
    hide WellLinked, UniqueIds, Findable, IsMatch;
    forall b, m | IsMatch(cycle, b, m) ensures IsMatch(classified, b, m) {
      SameMatches(cycle, b, m);
      SameMatches(classified, b, m);
    }
  }

  // --- when such a cycle completes, and when again ---------------------------------------------------------

  /** Keys that are recorded are new. */
  lemma RecordedIsNew(ctx: Context, feed: Feed, classified: Cycle, cycle: Cycle, rule: Transfers.MatchRule,
                      accounts: string -> set<string>, k: string)
    requires AllReported(ctx, feed, classified) && LinkedFrom(cycle, classified, rule, accounts) && RecordedKey(cycle, k)
    ensures k !in ctx.table
    ensures ItemsApart(classified) ==> forall b, d :: Fuzzy(classified, b, d) && d.FuzzyUpdate? ==> d.newKey != k
  {
    hide WellLinked, InBatches, IsMatch;
    if CreateKey(cycle, k) {
      var b, p :| b in cycle.creates && p in b.items && HasKey(p, k);
      LinkedIsLeg(cycle, classified, rule, accounts, b, p);
      var leg := if p.trackingKey == k then p else p.secondary.value;
      var q :| InBatches(classified.creates, b.budget, q) && Core(q) == Core(leg);
      assert WasReported(ctx, feed, b.budget, q.trackingKey, q.payload);
    } else {
      var b, m :| IsMatch(cycle, b, m) && m.trackingKey == k;
      SameMatches(cycle, b, m);
      assert WasReported(ctx, feed, b, m.trackingKey, m.payload);
    }
  }

  /** A fuzzy update of a classified cycle moves a pending row of the table to a key that is not in it. */
  lemma FuzzyFromRow(ctx: Context, cycle: Cycle, b: string, d: Correction)
    requires AllFromPendingRows(ctx.table, cycle.fuzzyUpdates) && Fuzzy(cycle, b, d)
    ensures FromPendingRow(ctx.table, b, d)
  {
    var cs := Lookup(cycle.fuzzyUpdates, b);
    var i :| 0 <= i < |cs| && cs[i] == d;
    assert At(cycle.fuzzyUpdates, b, i);
  }

  lemma FuzzyDiffer(cycle: Cycle, b: string, d: Correction, b': string, d': Correction)
    requires RowsDistinct(cycle.fuzzyUpdates) && Fuzzy(cycle, b, d) && Fuzzy(cycle, b', d') && d != d'
    ensures d.oldKey != d'.oldKey
  {
    var cs, cs' := Lookup(cycle.fuzzyUpdates, b), Lookup(cycle.fuzzyUpdates, b');
    var i :| 0 <= i < |cs| && cs[i] == d;
    var i' :| 0 <= i' < |cs'| && cs'[i'] == d';
    assert At(cycle.fuzzyUpdates, b, i) && At(cycle.fuzzyUpdates, b', i');
  }

  /** Whatever the feed repeats, the corrections of the cycle are of rows of their own. */
  lemma SubmittedRowsApart(ctx: Context, feed: Feed, classified: Cycle, cycle: Cycle, rule: Transfers.MatchRule,
                           accounts: string -> set<string>)
    requires WellSorted(ctx, feed, classified) && LinkedFrom(cycle, classified, rule, accounts)
    ensures RowsApart(cycle) && Accounted(cycle, ctx.table)
    ensures forall b, d :: Fuzzy(cycle, b, d) ==> FromPendingRow(ctx.table, b, d)
    ensures ItemsApart(classified) ==> MovedKeysFree(cycle)
  {
    forall b, c ensures c in CorrectionsOf(cycle, b) <==> Plain(cycle, b, c) || Fuzzy(cycle, b, c) {
      PlainOrFuzzy(cycle, b, c);
    }
    assert forall b, c :: Plain(cycle, b, c) ==> BooksRow(ctx.table, b, c);
    assert forall b, d :: Fuzzy(cycle, b, d) <==> Fuzzy(classified, b, d);
    forall b, d | Fuzzy(cycle, b, d) ensures FromPendingRow(ctx.table, b, d) {
      FuzzyFromRow(ctx, classified, b, d);
    }
    hide Plain, Fuzzy, CorrectionsOf, LinkedFrom, AllReported, RecordedKey, ItemsApart, RowsDistinct, AllFromPendingRows;
    forall k | RecordedKey(cycle, k)
      ensures k !in ctx.table
      ensures ItemsApart(classified) ==> forall b, d :: Fuzzy(classified, b, d) && d.FuzzyUpdate? ==> d.newKey != k
    {
      RecordedIsNew(ctx, feed, classified, cycle, rule, accounts, k);
    }
    forall b, d, b', d' | Fuzzy(cycle, b, d) && Fuzzy(cycle, b', d') && d != d' ensures d.oldKey != d'.oldKey {
      FuzzyDiffer(classified, b, d, b', d');
    }
  }

  lemma {:induction false} OneListPerBudget(ctx: Context, s: Sorting, feed: Feed)
    requires DistinctBudgets(s.cycle.creates)
    ensures DistinctBudgets(SortAll(ctx, s, feed).cycle.creates)
    decreases |feed|
  {
    hide DistinctBudgets, FetchWindow, Classify;
    if feed != [] {
      forall b, p { AddToBudgets(s.cycle.creates, b, p); }
      OneListPerBudget(ctx, SortOne(ctx, feed[0].provider, s, feed[0].ntx), feed[1..]);
    }
  }

  lemma LinkedBudgets(ctx: Context, feed: Feed, cycle: Cycle, rule: Transfers.MatchRule, accounts: string -> set<string>)
    requires LinkedFrom(cycle, CycleOf(ctx, feed), rule, accounts)
    ensures DistinctBudgets(cycle.creates)
  {
    OneListPerBudget(ctx, NOTHING_SORTED, feed);
    hide CycleOf, WellLinked;
  }

  /** A create of the cycle will record a key to which a row is to be moved. */
  ghost predicate CreateTakesKey(cfg: Settings, cycle: Cycle, l: Ledger) {
    exists b, d, n :: Fuzzy(cycle, b, d) && d.FuzzyUpdate? && 0 <= n < |cycle.creates|
      && RecordsKey(cfg, l, cycle.creates[n], d.newKey)
  }

  /** The claimed rows stand under their new keys, for the YNAB transactions they were for. */
  ghost predicate ClaimsSettled(cycle: Cycle, t: Table, t': Table) {
    forall b, d :: Fuzzy(cycle, b, d) && d.FuzzyUpdate? ==>
      d.oldKey in t && d.oldKey !in t' && d.newKey in t' && t'[d.newKey] == Settled(t[d.oldKey], d.newAmount)
  }

  lemma ClearIfFree(ctx: Context, cycle: Cycle, t1: Table)
    requires RowsApart(cycle) && Accounted(cycle, ctx.table)
    requires forall b, c :: Plain(cycle, b, c) ==> c.oldKey in ctx.table
    requires forall b, d :: Fuzzy(cycle, b, d) ==> FromPendingRow(ctx.table, b, d)
    requires forall b, c :: Plain(cycle, b, c) || Fuzzy(cycle, b, c) ==> SameRowAt(ctx.table, t1, c.oldKey)
    ensures RowsThere(cycle, t1) && (ClearFor(cycle, t1) <==> !NewKeyTaken(cycle, t1) && !SharedKey(cycle))
  {
    hide RecordedKey, Plain, Fuzzy;
    if SharedKey(cycle) && !NewKeyTaken(cycle, t1) {
      var b, d, b', d' :| Fuzzy(cycle, b, d) && Fuzzy(cycle, b', d') && d != d' && d.FuzzyUpdate? && d'.FuzzyUpdate?
        && d.newKey == d'.newKey;
      assert Unmoved(t1, d) && Unmoved(t1, d');
    }
    if NewKeyTaken(cycle, t1) {
      var b, d :| Fuzzy(cycle, b, d) && d.FuzzyUpdate? && d.newKey in t1;
      assert !Unmoved(t1, d) && !IsMoved(t1, d);
    }
  }

  lemma TakenIffRecorded(cfg: Settings, ctx: Context, cycle: Cycle, w: World)
    requires CreatesPhase(w, cfg, cycle.creates).status == Running && w.table == ctx.table
    requires DistinctBudgets(cycle.creates) && forall b, d :: Fuzzy(cycle, b, d) ==> FromPendingRow(ctx.table, b, d)
    ensures NewKeyTaken(cycle, CreatesPhase(w, cfg, cycle.creates).table) <==> CreateTakesKey(cfg, cycle, w.ledger)
  {
    hide CreatesPhase, Fuzzy, RecordsKey, DistinctBudgets;
    var t1 := CreatesPhase(w, cfg, cycle.creates).table;
    forall k ensures k in t1 <==> k in w.table || exists n :: 0 <= n < |cycle.creates| && RecordsKey(cfg, w.ledger, cycle.creates[n], k) {
      CreatesTrack(w, cfg, cycle.creates, k);
    }
    if NewKeyTaken(cycle, t1) {
      var b, d :| Fuzzy(cycle, b, d) && d.FuzzyUpdate? && d.newKey in t1;
      var n :| 0 <= n < |cycle.creates| && RecordsKey(cfg, w.ledger, cycle.creates[n], d.newKey);
    }
  }

  lemma CycleIsApart(ctx: Context, feed: Feed, cycle: Cycle, rule: Transfers.MatchRule, accounts: string -> set<string>)
    requires ScansTable(ctx.scan, ctx.table) && LinkedFrom(cycle, CycleOf(ctx, feed), rule, accounts)
    ensures RowsApart(cycle) && Accounted(cycle, ctx.table) && DistinctBudgets(cycle.creates)
    ensures forall b, c :: Plain(cycle, b, c) ==> c.oldKey in ctx.table
    ensures forall b, d :: Fuzzy(cycle, b, d) ==> FromPendingRow(ctx.table, b, d)
  {
    ClassifiedIsSorted(ctx, feed);
    assert forall b, c :: Plain(cycle, b, c) ==> BooksRow(ctx.table, b, c);
    hide CycleOf, LinkedFrom, WellSorted, Plain, Fuzzy, DistinctBudgets;
    LinkedBudgets(ctx, feed, cycle, rule, accounts);
    SubmittedRowsApart(ctx, feed, CycleOf(ctx, feed), cycle, rule, accounts);
  }

  lemma CorrectedRowsKept(cfg: Settings, ctx: Context, cycle: Cycle, w: World)
    requires RowsApart(cycle)
    ensures forall b, c :: Plain(cycle, b, c) || Fuzzy(cycle, b, c) ==>
        SameRowAt(w.table, CreatesPhase(w, cfg, cycle.creates).table, c.oldKey)
  {
    hide CreatesPhase, RecordedKey;
    forall b, c | Plain(cycle, b, c) || Fuzzy(cycle, b, c)
      ensures SameRowAt(w.table, CreatesPhase(w, cfg, cycle.creates).table, c.oldKey)
    {
      CreatesLeaveRows(cfg, cycle, w, c.oldKey);
    }
  }

  /**
   * The first attempt at a cycle that classification and linking produced, whatever the feed repeats, with every call
   * working and every target alive: it ends in a database error if and only if a create of the cycle records a key
   * that a pending row is to be moved to, or two rows are to be moved to one key, and it completes otherwise.  Then
   * every claimed row is BOOKED under its new key, for the YNAB transaction it was for, and no row is lost.
   */
  lemma FuzzyTransitionsLoseNothing(cfg: Settings, ctx: Context, feed: Feed, cycle: Cycle, rule: Transfers.MatchRule,
                                    accounts: string -> set<string>, l: Ledger, now: int, budgets: seq<string>)
    requires ScansTable(ctx.scan, ctx.table) && LinkedFrom(cycle, CycleOf(ctx, feed), rule, accounts)
    requires VisitsCorrected(cycle, budgets) && TargetsListed(cfg, cycle, l)
    ensures var w := Attempt(ctx.table, l, [], now);
            var w1 := CreatesPhase(w, cfg, cycle.creates);
            var w2 := CorrectionsPhase(w1, cfg, cycle, budgets);
            var w' := Submit(w, cfg, cycle, budgets);
            && (w'.status == DbFailed <==> CreateTakesKey(cfg, cycle, l) || SharedKey(cycle))
            && (w'.status == Running <==> !CreateTakesKey(cfg, cycle, l) && !SharedKey(cycle))
            && (w'.status == Running ==> ClaimsSettled(cycle, ctx.table, w2.table) && Conserved(w1.table, w2.table))
  {
    var w := Attempt(ctx.table, l, [], now);
    var w1 := CreatesPhase(w, cfg, cycle.creates);
    var w2 := CorrectionsPhase(w1, cfg, cycle, budgets);
    hide CycleOf, LinkedFrom, CreatesPhase, CorrectionsPhase, Submit, TargetsListed, ScansTable, VisitsCorrected,
         DistinctBudgets, Plain, Fuzzy;
    CycleIsApart(ctx, feed, cycle, rule, accounts);
    CorrectedRowsKept(cfg, ctx, cycle, w);
    ClearIfFree(ctx, cycle, w1.table);
    hide RowsApart, ClearFor, SharedKey, NewKeyTaken, CreateTakesKey, Accounted, Settles;
    SmoothAttempt(cfg, cycle, w, budgets);
    TakenIffRecorded(cfg, ctx, cycle, w);
    if w2.status == Running {
      SettledClaims(cfg, ctx, cycle, w1, w2, budgets);
    }
  }

  lemma FuzzyListed(cycle: Cycle, budgets: seq<string>, b: string, d: Correction)
    requires Fuzzy(cycle, b, d) && VisitsCorrected(cycle, budgets)
    ensures d in AllCorrections(cycle, budgets)
  {
    assert b in budgets;
    PlainOrFuzzy(cycle, b, d);
    AllMembers(cycle, budgets, d);
  }

  lemma SettledClaims(cfg: Settings, ctx: Context, cycle: Cycle, w1: World, w2: World, budgets: seq<string>)
    requires RowsApart(cycle) && VisitsCorrected(cycle, budgets) && RowsThere(cycle, w1.table)
    requires Settles(w1, w2, AllCorrections(cycle, budgets)) && w2.status == Running && ClearFor(cycle, w1.table)
    requires forall b, d :: Fuzzy(cycle, b, d) ==> FromPendingRow(ctx.table, b, d) && SameRowAt(ctx.table, w1.table, d.oldKey)
    ensures ClaimsSettled(cycle, ctx.table, w2.table) && Conserved(w1.table, w2.table)
  {
    hide SettleAll, AllCorrections, Orderly, NoneLost, Conserved, Written, Calm, Settled, RowsApart, CorrectionsOf;
    hide RowsThere;
    var cs := AllCorrections(cycle, budgets);
    AllThere(cycle, w1.table, budgets);
    VisitedOrderly(cycle, budgets);
    SettledMoves(w1.table, cs);
    forall b, d | Fuzzy(cycle, b, d) && d.FuzzyUpdate?
      ensures d.oldKey in ctx.table && RowMoved(w1.table, w2.table, d) && Unmoved(w1.table, d)
      ensures w1.table[d.oldKey] == ctx.table[d.oldKey]
    {
      FuzzyListed(cycle, budgets, b, d);
      assert SameRowAt(ctx.table, w1.table, d.oldKey);
    }
  }

  /** A row whose key a create took is still there after the attempt, and so is that key. */
  lemma StaysBlocked(cfg: Settings, cycle: Cycle, w: World, budgets: seq<string>, b: string, d: Correction)
    requires RowsApart(cycle) && Fuzzy(cycle, b, d) && VisitsCorrected(cycle, budgets)
    requires var t1 := CreatesPhase(w, cfg, cycle.creates).table; d.oldKey in t1 && d.FuzzyUpdate? && d.newKey in t1
    ensures Blocked(Submit(w, cfg, cycle, budgets).table, d)
  {
    hide CreatesPhase, CorrectionsPhase, MatchesPhase, VisitsCorrected, Fuzzy;
    var w1 := CreatesPhase(w, cfg, cycle.creates);
    assert d.newKey != d.oldKey by { PlainOrFuzzy(cycle, b, d); }
    assert Blocked(w1.table, d);
    hide RowsApart;
    CorrectionsMove(cfg, cycle, w1, budgets);
    MatchesGrow(CorrectionsPhase(w1, cfg, cycle, budgets), cfg, cycle.matches);
  }

  /**
   * If a create takes the key of a pending row, that first attempt leaves the row where it is, and no later attempt
   * completes, whatever calls work: the cycle is stuck for good.
   */
  lemma TakenKeyNeverCompletes(cfg: Settings, ctx: Context, feed: Feed, cycle: Cycle, rule: Transfers.MatchRule,
                               accounts: string -> set<string>, l: Ledger, now: int, budgets: seq<string>, tries: seq<Try>)
    requires ScansTable(ctx.scan, ctx.table) && LinkedFrom(cycle, CycleOf(ctx, feed), rule, accounts)
    requires VisitsCorrected(cycle, budgets) && TargetsListed(cfg, cycle, l) && CreateTakesKey(cfg, cycle, l)
    requires tries != [] && forall t :: t in tries ==> VisitsCorrected(cycle, t.budgets)
    ensures var w' := Submit(Attempt(ctx.table, l, [], now), cfg, cycle, budgets);
            AfterTries(cfg, cycle, w', tries).status != Running
  {
    var w := Attempt(ctx.table, l, [], now);
    var w1 := CreatesPhase(w, cfg, cycle.creates);
    hide CycleOf, LinkedFrom, CreatesPhase, CorrectionsPhase, TargetsListed, ScansTable, VisitsCorrected, MatchesPhase,
         DistinctBudgets, Plain, Fuzzy, CreateTakesKey, AfterTries, Accounted;
    CycleIsApart(ctx, feed, cycle, rule, accounts);
    CorrectedRowsKept(cfg, ctx, cycle, w);
    SmoothCreates(w, cfg, cycle.creates);
    TakenIffRecorded(cfg, ctx, cycle, w);
    var b, d :| Fuzzy(cycle, b, d) && d.FuzzyUpdate? && d.newKey in w1.table;
    hide RowsApart, Submit;
    StaysBlocked(cfg, cycle, w, budgets, b, d);
    BlockedNeverCompletes(cfg, cycle, Submit(w, cfg, cycle, budgets), tries, b, d);
  }

  /**
   * The cycle that classification and linking produce, whatever the feed repeats, resubmitted with every call working
   * and every target alive after its corrections went through: it completes if and only if no pending row has a plain
   * and a fuzzy update and no moved row was matched anew as other than BOOKED, which takes a repeated report.
   */
  lemma ClassifiedRetryFailsIffRowShared(cfg: Settings, ctx: Context, feed: Feed, cycle: Cycle,
                                         rule: Transfers.MatchRule, accounts: string -> set<string>, before: seq<Try>,
                                         t: Try, later: Ledger, now: int, budgets: seq<string>)
    requires ScansTable(ctx.scan, ctx.table) && LinkedFrom(cycle, CycleOf(ctx, feed), rule, accounts)
    requires VisitsCorrected(cycle, t.budgets) && VisitsCorrected(cycle, budgets)
    requires var w := AfterTries(cfg, cycle, Attempt(ctx.table, ctx.ledger, [], 0), before);
             var start := Attempt(w.table, w.ledger, t.script, t.now);
             && CorrectionsGoThrough(start, cfg, cycle, t.budgets)
             && (Extends(Submit(start, cfg, cycle, t.budgets).ledger, later) || DistinctReports(feed))
    requires TargetsListed(cfg, cycle, later)
    ensures var w := AfterTries(cfg, cycle, Attempt(ctx.table, ctx.ledger, [], 0), before);
            var w1 := Submit(Attempt(w.table, w.ledger, t.script, t.now), cfg, cycle, t.budgets);
            var w2 := Submit(Attempt(w1.table, later, [], now), cfg, cycle, budgets);
            && (w2.status == DbFailed <==> SharedRow(cycle) || Unsettled(cycle, w1.table))
            && (w2.status == Running <==> !SharedRow(cycle) && !Unsettled(cycle, w1.table))
            && (w2.status == Running ==> MovedStay(cycle, w1.table, w2.table))
            && (DistinctReports(feed) ==> !Unsettled(cycle, w1.table))
  {
    hide CycleOf, WellSorted, LinkedFrom, RowsApart, Accounted, AfterTries, Submit, CorrectionsGoThrough, TargetsListed,
         SharedRow, Unsettled, VisitsCorrected, ScansTable, DistinctReports, ItemsApart, Extends, MovedStay;
    ClassifiedIsSorted(ctx, feed);
    SubmittedRowsApart(ctx, feed, CycleOf(ctx, feed), cycle, rule, accounts);
    RetryEndsInDbFailedIffRowShared(cfg, cycle, ctx.table, ctx.ledger, before, t, later, now, budgets);
  }

  /** Where a row is shared, both updates patch the same YNAB transaction. */
  lemma SharedRowSharesTransaction(ctx: Context, feed: Feed, b: string, c: Correction, b': string, d: Correction)
    requires ScansTable(ctx.scan, ctx.table)
    requires Plain(CycleOf(ctx, feed), b, c) && Fuzzy(CycleOf(ctx, feed), b', d) && c.oldKey == d.oldKey
    ensures c.txnId == d.txnId && b == b' == d.budget
  {
    ClassifiedIsSorted(ctx, feed);
    assert BooksRow(ctx.table, b, c);
    hide CycleOf, AllReported;
    FuzzyFromRow(ctx, CycleOf(ctx, feed), b', d);
  }
}
