/**
 * Fetch windows against pruning and against slow submissions: when a pruned
 * row can come back, and when consecutive windows leave a gap.
 */
module Windows {
  import opened Wrappers
  import opened Ynab
  import opened StateDb
  import opened Classification
  import opened DateWindow
  import opened SyncSpec
  import Repeats
  import Runs

  /** math.ceil(hours / 24). */
  function CeilDays(hours: nat): nat { (hours + 23) / 24 }

  /** The validator: retention covers the fetch horizon. */
  predicate RetentionCovers(rules: Rules, retentionDays: int) {
    retentionDays >= rules.backfillDays + CeilDays(rules.overlapHours)
  }

  /** Pruned by a cycle at this time. */
  predicate PrunedAt(t: Table, key: string, time: int, retentionDays: int) {
    key in t && key !in Prune(t, DateOf(time) - retentionDays)
  }

  ghost predicate NoPendingBy(t: Table, accountKey: string, date: int) {
    forall k :: k in t && IsPendingOf(t[k], accountKey) ==> date < DateOf(t[k].firstSeenAt)
  }

  lemma SinceNotBeforeBackfill(ctx: Context, accountKey: string)
    ensures DateOf(ComputeSince(CursorOf(ctx.cursors, accountKey), ctx.now, ctx.rules.backfillDays, ctx.rules.overlapHours))
         >= DateOf(ctx.now) - ctx.rules.backfillDays
  {
    var since := ComputeSince(CursorOf(ctx.cursors, accountKey), ctx.now, ctx.rules.backfillDays, ctx.rules.overlapHours);
    DateOfMonotone(ctx.now - ctx.rules.backfillDays * SECONDS_PER_DAY, since);
    DateOfShift(ctx.now, ctx.rules.backfillDays);
  }

  /** A date falls before the window iff it falls before the cursor's bound and before every pending row. */
  lemma BeforeWindow(ctx: Context, accountKey: string, date: int)
    ensures date < DateOf(FetchWindow(ctx, accountKey))
       <==> date < DateOf(ComputeSince(CursorOf(ctx.cursors, accountKey), ctx.now, ctx.rules.backfillDays,
                                       ctx.rules.overlapHours))
            && NoPendingBy(ctx.table, accountKey, date)
  {
    var since := ComputeSince(CursorOf(ctx.cursors, accountKey), ctx.now, ctx.rules.backfillDays, ctx.rules.overlapHours);
    var floor := EarliestPending(ctx.table, accountKey);
    if floor.Some? {
      var k := Repeats.PendingFloor(ctx.table, accountKey);
      forall j | j in ctx.table && IsPendingOf(ctx.table[j], accountKey)
        ensures DateOf(floor.value) <= DateOf(ctx.table[j].firstSeenAt)
      {
        assert ctx.table[j].firstSeenAt in PendingTimes(ctx.table, accountKey);
        DateOfMonotone(floor.value, ctx.table[j].firstSeenAt);
      }
      DateOfMonotone(if floor.value < since then floor.value else since, since);
      DateOfMonotone(if floor.value < since then floor.value else since, floor.value);
    }
  }

  /**
   * A pruned row, re-reported up to ceil(overlap / 24) days later than its stored date, is rejected by every later
   * cycle's cutoff if and only if no PENDING row of the account was first seen on or before the re-reported date.
   */
  lemma PrunedRowIsRejected(t: Table, key: string, prunedAt: int, retentionDays: int, ctx: Context, accountKey: string,
                            date: int)
    requires RetentionCovers(ctx.rules, retentionDays) && PrunedAt(t, key, prunedAt, retentionDays)
    requires prunedAt <= ctx.now
    requires date <= t[key].facts.date + CeilDays(ctx.rules.overlapHours)
    ensures date < DateOf(FetchWindow(ctx, accountKey)) <==> NoPendingBy(ctx.table, accountKey, date)
  {
    DateOfMonotone(prunedAt, ctx.now);
    SinceNotBeforeBackfill(ctx, accountKey);
    BeforeWindow(ctx, accountKey, date);
    hide FetchWindow, DateOf;
  }

  /** Otherwise it is filed as new: the cutoff lets it through and its key is no longer tracked. */
  lemma OldPendingRowReopensWindow(ctx: Context, provider: string, ntx: Ntx, k: string)
    requires (provider, ntx.accountKey) in ctx.mappings && ntx.trackingKey !in ctx.table
    requires k in ctx.table && IsPendingOf(ctx.table[k], ntx.accountKey) && DateOf(ctx.table[k].firstSeenAt) <= ntx.date
    requires ctx.rules.manualWindowDays <= 0 && !ctx.rules.pendingEnabled
    ensures var m := ctx.mappings[(provider, ntx.accountKey)];
            CycleOf(ctx, [Fetched(provider, ntx)]).creates == [Batch(m.budget, [NewCreate(provider, m, ntx)])]
  {
    BeforeWindow(ctx, ntx.accountKey, ntx.date);
    hide FetchWindow;
    var feed := [Fetched(provider, ntx)];
    var s1 := SortOne(ctx, provider, NOTHING_SORTED, ntx);
    assert SortAll(ctx, s1, feed[1..]) == s1;
    assert SortAll(ctx, NOTHING_SORTED, feed) == SortAll(ctx, s1, feed[1..]);
  }

  /** The validator's bound is exact: with any less retention some pruned row is accepted again. */
  lemma ShorterRetentionReadmits(rules: Rules, retentionDays: int, r: Row, key: string, accountKey: string, now: int)
    requires !RetentionCovers(rules, retentionDays) && r.facts.status == Booked
    requires r.facts.date == DateOf(now) - retentionDays - 1
    ensures var ctx := Context(rules, map[], [], map[], [], map[], now);
            && PrunedAt(map[key := r], key, now, retentionDays)
            && r.facts.date + CeilDays(rules.overlapHours) >= DateOf(FetchWindow(ctx, accountKey))
  {
    DateOfShift(now, rules.backfillDays);
    var none: Table := map[];
    assert forall k :: k in none ==> !IsPendingOf(none[k], accountKey);
    assert EarliestPending(none, accountKey).None?;
  }

  /**
   * The cursor is stamped when the submission ends, not when the data was fetched.  Without pending rows the next
   * window therefore reaches back to that fetch if and only if the submission ended within the overlap, and the next
   * cycle starts within the backfill.
   */
  lemma NextWindowReachesLastFetch(m: Runs.Machine, s: Runs.Store, t: Try, ctx: Context, account: string)
    requires Runs.Completes(m, s, t) && account in s.cached.value.synced
    requires ctx == Runs.ContextOf(m, Runs.Step(m, s, Runs.Submission(t)), ctx.scan, ctx.now)
    requires EarliestPending(ctx.table, account).None?
    ensures FetchWindow(ctx, account) <= s.cached.value.ctx.now
       <==> t.now <= s.cached.value.ctx.now + m.rules.overlapHours * 3600
            && ctx.now <= s.cached.value.ctx.now + m.rules.backfillDays * SECONDS_PER_DAY
  {
    hide Runs.SubmissionOf, Runs.AcceptedOf;
    assert ctx.cursors[account] == t.now;
  }
}
