/**
 * scheduler.py: attempts, retries with capped exponential backoff, the cached
 * work item, and error notifications.  Times and settings are in seconds, with
 * fractions.
 */
module Scheduler {
  import opened Wrappers
  import opened StateDb
  import opened SyncSpec

  /** `nextFire` is the next cron fire after a time. */
  datatype Backoff = Backoff(base: real, cap: real, nextFire: real -> real)

  ghost predicate IsCron(b: Backoff) {
    && (forall t :: t < b.nextFire(t))
    && (forall t, u :: t <= u < b.nextFire(t) ==> b.nextFire(u) == b.nextFire(t))
  }

  /** base * 2**attempt. */
  function Doubled(base: real, attempt: nat): real {
    if attempt == 0 then base else 2.0 * Doubled(base, attempt - 1)
  }

  /** min(base * 2**attempt, cap). */
  function Delay(b: Backoff, attempt: nat): real {
    if Doubled(b.base, attempt) < b.cap then Doubled(b.base, attempt) else b.cap
  }

  datatype Note = ErrorNote(message: string, authRequired: bool) | SuccessNote(changes: bool)

  /** The scheduler's fields, its tables, and what the outside has seen: fetches made, notes sent. */
  datatype State = State(
    retryAttempt: nat, retryDeadline: Option<real>, cached: Option<Cycle>, lastNotified: Option<string>,
    cursors: map<string, int>, meta: RunMetadata, fetches: nat, notes: seq<Note>)

  datatype FetchOutcome = AuthRequired(error: string) | FetchFailed(error: string) | Classified(cycle: Cycle)

  datatype SubmitOutcome =
    | SubmitFailed(error: string)
    | Submitted(created: nat, updated: nat, lastSynced: map<string, int>)

  /** What one attempt meets: the answer to a fetch if it makes one, and to the submission. */
  datatype Trial = Trial(fetch: FetchOutcome, submit: SubmitOutcome, now: real)

  function ClearedRetry(s: State): State { s.(retryAttempt := 0, retryDeadline := None, cached := None) }

  function ScheduledRetry(b: Backoff, s: State, now: real): State {
    var deadline := now + Delay(b, s.retryAttempt);
    if deadline < b.nextFire(now) then s.(retryDeadline := Some(deadline), retryAttempt := s.retryAttempt + 1)
    else ClearedRetry(s)
  }

  function Notified(s: State, message: string, authRequired: bool): State {
    if s.lastNotified == Some(message) then s
    else s.(lastNotified := Some(message), notes := s.notes + [ErrorNote(message, authRequired)])
  }

  function FailedRun(meta: RunMetadata, error: string, authRequired: bool, now: real): RunMetadata {
    meta.(lastRunAt := Some(now.Floor), lastError := Some(error), authRequired := authRequired, importedLastRun := 0,
          updatedLastRun := 0)
  }

  function SucceededRun(meta: RunMetadata, created: nat, updated: nat, now: real): RunMetadata {
    meta.(lastRunAt := Some(now.Floor), lastSuccessAt := Some(now.Floor), lastError := None, authRequired := false,
          importedTotal := meta.importedTotal + created, importedLastRun := created, updatedLastRun := updated)
  }

  /** record_failure and _maybe_notify_error. */
  function Failed(s: State, error: string, authRequired: bool, now: real): State {
    Notified(s.(meta := FailedRun(s.meta, error, authRequired, now)), error, authRequired)
  }

  function Succeeded(s: State, created: nat, updated: nat, lastSynced: map<string, int>, now: real): State {
    ClearedRetry(s).(cursors := s.cursors + lastSynced, meta := SucceededRun(s.meta, created, updated, now),
                     lastNotified := None, notes := s.notes + [SuccessNote(created > 0 || updated > 0)])
  }

  function SubmitWork(b: Backoff, s: State, work: Cycle, t: Trial): State {
    match t.submit
    case SubmitFailed(error) => ScheduledRetry(b, Failed(s, error, false, t.now).(cached := Some(work)), t.now)
    case Submitted(created, updated, lastSynced) => Succeeded(s, created, updated, lastSynced, t.now)
  }

  /** _attempt_cycle. */
  function AfterAttempt(b: Backoff, s: State, t: Trial): State {
    if s.cached.Some? then SubmitWork(b, s, s.cached.value, t)
    else
      var asked := s.(fetches := s.fetches + 1);
      match t.fetch
      case AuthRequired(error) => ClearedRetry(Failed(asked, error, true, t.now))
      case FetchFailed(error) => ScheduledRetry(b, Failed(asked, error, false, t.now), t.now)
      case Classified(cycle) => SubmitWork(b, asked, cycle, t)
  }

  class SyncScheduler {
    const backoff: Backoff
    const db: StateDB
    var retryAttempt: nat
    var retryDeadline: Option<real>
    var cachedClassified: Option<Cycle>
    var lastNotifiedError: Option<string>
    var fetches: nat
    var notes: seq<Note>

    constructor (backoff: Backoff, db: StateDB)
      ensures this.backoff == backoff && this.db == db
      ensures Now() == State(0, None, None, None, db.cursors, db.runMetadata, 0, [])
    {
      this.backoff, this.db := backoff, db;
      retryAttempt, retryDeadline, cachedClassified, lastNotifiedError := 0, None, None, None;
      fetches, notes := 0, [];
    }

    ghost function Now(): State
      reads this, db
    {
      State(retryAttempt, retryDeadline, cachedClassified, lastNotifiedError, db.cursors, db.runMetadata, fetches, notes)
    }

    method ClearRetryState()
      modifies this`retryAttempt, this`retryDeadline, this`cachedClassified
      ensures Now() == ClearedRetry(old(Now()))
    {
      retryAttempt := 0;
      retryDeadline := None;
      cachedClassified := None;
    }

    method ScheduleRetry(now: real)
      modifies this`retryAttempt, this`retryDeadline, this`cachedClassified
      ensures Now() == ScheduledRetry(backoff, old(Now()), now)
    {
      var delay := Delay(backoff, retryAttempt);
      if now + delay < backoff.nextFire(now) {
        retryDeadline := Some(now + delay);
        retryAttempt := retryAttempt + 1;
      } else {
        ClearRetryState();
      }
    }

    method MaybeNotifyError(message: string, authRequired: bool)
      modifies this`lastNotifiedError, this`notes
      ensures Now() == Notified(old(Now()), message, authRequired)
    {
      if lastNotifiedError == Some(message) {
        return;
      }
      lastNotifiedError := Some(message);
      notes := notes + [ErrorNote(message, authRequired)];
    }

    /** How long the loop waits: until the next cron fire, or a retry that is due sooner. */
    method SecondsUntilNextWake(now: real) returns (seconds: real)
      requires IsCron(backoff)
      ensures retryDeadline.None? ==> now + seconds == backoff.nextFire(now)
      ensures retryDeadline.Some? && retryDeadline.value >= backoff.nextFire(now) ==>
          now + seconds == backoff.nextFire(now)
      ensures retryDeadline.Some? && now <= retryDeadline.value < backoff.nextFire(now) ==>
          now + seconds == retryDeadline.value
      ensures retryDeadline.Some? && retryDeadline.value < now ==> seconds == 0.0
    {
      seconds := backoff.nextFire(now) - now;
      if retryDeadline.Some? {
        var secondsToRetry := if retryDeadline.value < now then 0.0 else retryDeadline.value - now;
        if secondsToRetry < seconds {
          seconds := secondsToRetry;
        }
      }
    }

    method AttemptCycle(t: Trial)
      modifies this, db`cursors, db`runMetadata
      ensures Now() == AfterAttempt(backoff, old(Now()), t)
    {
      var classified;
      if cachedClassified.Some? {
        classified := cachedClassified.value;
      } else {
        fetches := fetches + 1;
        match t.fetch {
          case AuthRequired(error) =>
            db.RecordFailure(error, true, t.now.Floor);
            MaybeNotifyError(error, true);
            ClearRetryState();
            return;
          case FetchFailed(error) =>
            db.RecordFailure(error, false, t.now.Floor);
            MaybeNotifyError(error, false);
            ScheduleRetry(t.now);
            return;
          case Classified(cycle) => classified := cycle;
        }
      }
      match t.submit {
        case SubmitFailed(error) =>
          db.RecordFailure(error, false, t.now.Floor);
          MaybeNotifyError(error, false);
          cachedClassified := Some(classified);
          ScheduleRetry(t.now);
        case Submitted(created, updated, lastSynced) =>
          db.RecordSuccess(lastSynced, created, updated, t.now.Floor);
          ClearRetryState();
          lastNotifiedError := None;
          notes := notes + [SuccessNote(created > 0 || updated > 0)];
      }
    }
  }

  // --- over every run -------------------------------------------------------------------------

  /** A restart loses the fields and keeps the tables. */
  datatype Event = Attempted(trial: Trial) | Restarted

  function Next(b: Backoff, s: State, e: Event): State {
    match e
    case Attempted(t) => AfterAttempt(b, s, t)
    case Restarted => s.(retryAttempt := 0, retryDeadline := None, cached := None, lastNotified := None)
  }

  function Run(b: Backoff, s: State, events: seq<Event>): State
    decreases |events|
  {
    if events == [] then s else Run(b, Next(b, s, events[0]), events[1..])
  }

  ghost predicate Inv(s: State) {
    && (s.cached.Some? ==> s.retryDeadline.Some?)
    && (s.retryAttempt == 0 <==> s.retryDeadline.None?)
  }

  /** Cached work implies a deadline, and no deadline means no attempts. */
  lemma {:induction false} RunKeepsInv(b: Backoff, s: State, events: seq<Event>)
    requires Inv(s)
    ensures Inv(Run(b, s, events))
    decreases |events|
  {
    if events != [] {
      RunKeepsInv(b, Next(b, s, events[0]), events[1..]);
    }
  }

  // --- when a retry is scheduled --------------------------------------------------------------------------------

  /** 2**n. */
  function TwoTo(n: nat): nat { if n == 0 then 1 else 2 * TwoTo(n - 1) }

  lemma {:induction false} DoubledIsPower(base: real, n: nat)
    ensures Doubled(base, n) == base * TwoTo(n) as real
  {
    if n > 0 {
      DoubledIsPower(base, n - 1);
      DoubleProduct(base, TwoTo(n - 1));
    }
  }

  lemma DoubleProduct(base: real, k: nat)
    ensures 2.0 * (base * k as real) == base * (2 * k) as real
  {
    assert (2 * k) as real == 2.0 * k as real;
    assert base * (2.0 * k as real) == 2.0 * (base * k as real);
  }

  /** What a failure leaves: a retry at that time with this work cached, or nothing at all. */
  ghost predicate RetriesAt(s: State, deadline: real, attempt: nat, work: Option<Cycle>) {
    s.retryDeadline == Some(deadline) && s.retryAttempt == attempt + 1 && s.cached == work
  }

  ghost predicate WaitsForCron(s: State) { s.retryDeadline == None && s.retryAttempt == 0 && s.cached == None }

  /**
   * A failed submission, or a fetch that failed for another reason than missing authentication, is retried
   * min(base * 2**n, cap) later, n being the retries so far, if and only if that is before the next cron fire; the
   * work of a failed submission is kept for it.  In every other case no deadline, count or work is left.
   */
  lemma RetryIffBeforeFire(b: Backoff, s: State, t: Trial)
    ensures var s' := AfterAttempt(b, s, t);
            var submitting := s.cached.Some? || t.fetch.Classified?;
            var work := if s.cached.Some? then s.cached else if t.fetch.Classified? then Some(t.fetch.cycle) else None;
            var backoff := b.base * TwoTo(s.retryAttempt) as real;
            var deadline := t.now + (if backoff < b.cap then backoff else b.cap);
            var fails := if submitting then t.submit.SubmitFailed? else t.fetch.FetchFailed?;
            && (fails && deadline < b.nextFire(t.now) ==> RetriesAt(s', deadline, s.retryAttempt, work))
            && (!(fails && deadline < b.nextFire(t.now)) ==> WaitsForCron(s'))
  {
    DelayIsPower(b, s.retryAttempt);
    var asked := s.(fetches := s.fetches + 1);
    if s.cached.Some? {
      SubmissionRetries(b, s, s.cached.value, t);
    } else if t.fetch.Classified? {
      SubmissionRetries(b, asked, t.fetch.cycle, t);
    } else {
      FailureRetries(b, asked, t.fetch.error, t.fetch.AuthRequired?, asked.cached, t.now);
    }
    hide Delay, TwoTo, Failed, SubmitWork, ScheduledRetry, ClearedRetry;
  }

  lemma DelayIsPower(b: Backoff, n: nat)
    ensures var backoff := b.base * TwoTo(n) as real; Delay(b, n) == if backoff < b.cap then backoff else b.cap
  {
    DoubledIsPower(b.base, n);
    hide Doubled, TwoTo;
  }

  /** A failure is retried or given up. */
  lemma FailureRetries(b: Backoff, s: State, error: string, authRequired: bool, work: Option<Cycle>, now: real)
    ensures var failed := Failed(s, error, authRequired, now).(cached := work);
            var deadline := now + Delay(b, s.retryAttempt);
            && WaitsForCron(ClearedRetry(Failed(s, error, authRequired, now)))
            && (deadline < b.nextFire(now) ==>
                  RetriesAt(ScheduledRetry(b, failed, now), deadline, s.retryAttempt, work))
            && (deadline >= b.nextFire(now) ==> WaitsForCron(ScheduledRetry(b, failed, now)))
            && (work == s.cached ==> Failed(s, error, authRequired, now) == failed)
  {
    FailureKeepsRetry(s, error, authRequired, now);
    hide Delay, Failed;
  }

  /** The same of the submission alone. */
  lemma SubmissionRetries(b: Backoff, s: State, work: Cycle, t: Trial)
    ensures var s' := SubmitWork(b, s, work, t);
            var deadline := t.now + Delay(b, s.retryAttempt);
            && (t.submit.SubmitFailed? && deadline < b.nextFire(t.now) ==>
                  RetriesAt(s', deadline, s.retryAttempt, Some(work)))
            && (!(t.submit.SubmitFailed? && deadline < b.nextFire(t.now)) ==> WaitsForCron(s'))
  {
    if t.submit.SubmitFailed? {
      FailureRetries(b, s, t.submit.error, false, Some(work), t.now);
      hide Failed, ScheduledRetry;
    }
    hide Delay;
  }

  lemma FailureKeepsRetry(s: State, error: string, authRequired: bool, now: real)
    ensures var s' := Failed(s, error, authRequired, now);
            s'.retryAttempt == s.retryAttempt && s'.retryDeadline == s.retryDeadline && s'.cached == s.cached
  {
  }

  /** An error leaves the imports and cursors alone, and asks for authentication exactly if that was missing. */
  ghost predicate RecordsError(s': State, s: State, error: string, authRequired: bool, now: real) {
    && s'.meta.lastError == Some(error) && s'.meta.authRequired == authRequired
    && s'.meta.lastRunAt == Some(now.Floor) && s'.meta.lastSuccessAt == s.meta.lastSuccessAt
    && s'.meta.importedTotal == s.meta.importedTotal && s'.meta.paused == s.meta.paused
    && s'.meta.importedLastRun == 0 && s'.meta.updatedLastRun == 0 && s'.cursors == s.cursors
  }

  /** A success adds what it created, its counts are those of the last run, and its note says whether there were any. */
  ghost predicate RecordsSuccess(s': State, s: State, created: nat, updated: nat, lastSynced: map<string, int>, now: real)
  {
    && s'.meta.lastError == None && !s'.meta.authRequired && s'.meta.paused == s.meta.paused
    && s'.meta.lastRunAt == s'.meta.lastSuccessAt == Some(now.Floor)
    && s'.meta.importedTotal == s.meta.importedTotal + created
    && s'.meta.importedLastRun == created && s'.meta.updatedLastRun == updated
    && s'.cursors == s.cursors + lastSynced && s'.lastNotified == None
    && s'.notes == s.notes + [SuccessNote(created + updated > 0)]
  }

  lemma FailureRecords(b: Backoff, s: State, error: string, authRequired: bool, now: real)
    ensures var failed := Failed(s, error, authRequired, now);
            && RecordsError(failed, s, error, authRequired, now) && failed.fetches == s.fetches
            && RecordsError(ClearedRetry(failed), s, error, authRequired, now)
            && RecordsError(ScheduledRetry(b, failed, now), s, error, authRequired, now)
            && ScheduledRetry(b, failed, now).fetches == ClearedRetry(failed).fetches == s.fetches
            && forall work :: var again := ScheduledRetry(b, failed.(cached := work), now);
                 RecordsError(again, s, error, authRequired, now) && again.fetches == s.fetches
  {
    hide Delay;
  }

  lemma SubmissionRecords(b: Backoff, s: State, work: Cycle, t: Trial)
    ensures var s' := SubmitWork(b, s, work, t);
            && s'.fetches == s.fetches
            && match t.submit
               case SubmitFailed(error) => RecordsError(s', s, error, false, t.now)
               case Submitted(created, updated, lastSynced) =>
                 RecordsSuccess(s', s, created, updated, lastSynced, t.now)
  {
    if t.submit.SubmitFailed? {
      FailureRecords(b, s, t.submit.error, false, t.now);
      hide Failed, ScheduledRetry, RecordsError;
    }
  }

  /** What an attempt records: it fetches unless it has work, and then a success, or the error that ended it. */
  lemma AttemptRecords(b: Backoff, s: State, t: Trial)
    ensures var s' := AfterAttempt(b, s, t);
            && s'.fetches == s.fetches + (if s.cached.Some? then 0 else 1)
            && if s.cached.Some? || t.fetch.Classified? then
                 match t.submit
                 case SubmitFailed(error) => RecordsError(s', s, error, false, t.now)
                 case Submitted(created, updated, lastSynced) =>
                   RecordsSuccess(s', s, created, updated, lastSynced, t.now)
               else RecordsError(s', s, t.fetch.error, t.fetch.AuthRequired?, t.now)
  {
    var asked := s.(fetches := s.fetches + 1);
    if s.cached.Some? {
      SubmissionRecords(b, s, s.cached.value, t);
    } else if t.fetch.Classified? {
      SubmissionRecords(b, asked, t.fetch.cycle, t);
    } else {
      FailureRecords(b, asked, t.fetch.error, t.fetch.AuthRequired?, t.now);
    }
    hide SubmitWork, Failed, ScheduledRetry, ClearedRetry;
  }

  /** Every deadline an attempt leaves behind is its own backoff, strictly before the cron fire that follows it. */
  lemma DeadlineBeforeFire(b: Backoff, s: State, t: Trial)
    requires Inv(s) && AfterAttempt(b, s, t).retryDeadline.Some?
    ensures AfterAttempt(b, s, t).retryDeadline == Some(t.now + Delay(b, s.retryAttempt))
    ensures t.now + Delay(b, s.retryAttempt) < b.nextFire(t.now)
    ensures AfterAttempt(b, s, t).retryAttempt == s.retryAttempt + 1
    ensures b.base > 0.0 && b.cap > 0.0 && IsCron(b) ==>
        b.nextFire(t.now + Delay(b, s.retryAttempt)) == b.nextFire(t.now)
  {
    DoublingKeepsSign(b.base, s.retryAttempt);
  }

  lemma {:induction false} DoublingKeepsSign(base: real, n: nat)
    ensures base > 0.0 ==> Doubled(base, n) > 0.0
    ensures base >= 0.0 ==> Doubled(base, n) >= 0.0
    ensures base <= 0.0 ==> Doubled(base, n) <= 0.0
  {
    if n > 0 {
      DoublingKeepsSign(base, n - 1);
    }
  }

  /** The work of a failed submission is kept, and the provider left alone, until success or give-up. */
  lemma {:induction false} CachedWorkIsNotRefetched(b: Backoff, s: State, events: seq<Event>)
    requires s.cached.Some?
    requires forall n :: 0 <= n < |events| ==> Run(b, s, events[..n]).cached.Some?
    ensures Run(b, s, events).fetches == s.fetches
    ensures Run(b, s, events).cached.Some? ==> Run(b, s, events).cached == s.cached
    decreases |events|
  {
    if events != [] {
      var s1 := Next(b, s, events[0]);
      hide Next;
      StepKeepsWork(b, s, events[0]);
      if |events| == 1 {
        assert Run(b, s, events) == s1;
      } else {
        assert events[..1][0] == events[0] && events[..1][1..] == [];
        assert Run(b, s, events[..1]) == s1;
        forall n | 0 <= n < |events[1..]| ensures Run(b, s1, events[1..][..n]).cached.Some? {
          assert events[..n + 1][1..] == events[1..][..n];
          assert Run(b, s, events[..n + 1]) == Run(b, s1, events[1..][..n]);
        }
        CachedWorkIsNotRefetched(b, s1, events[1..]);
      }
    }
  }

  lemma StepKeepsWork(b: Backoff, s: State, e: Event)
    requires s.cached.Some?
    ensures Next(b, s, e).fetches == s.fetches
    ensures Next(b, s, e).cached.Some? ==> Next(b, s, e).cached == s.cached
  {
  }

  /** What the successes of a run imported, and the last cursor they recorded for each account. */
  function ImportedIn(b: Backoff, s: State, events: seq<Event>): nat
    decreases |events|
  {
    if events == [] then 0
    else (if Succeeds(s, events[0]) then events[0].trial.submit.created else 0)
         + ImportedIn(b, Next(b, s, events[0]), events[1..])
  }

  predicate Succeeds(s: State, e: Event) {
    e.Attempted? && e.trial.submit.Submitted? && (s.cached.Some? || e.trial.fetch.Classified?)
  }

  function CursorsIn(b: Backoff, s: State, events: seq<Event>): map<string, int>
    decreases |events|
  {
    if events == [] then map[]
    else (if Succeeds(s, events[0]) then events[0].trial.submit.lastSynced else map[])
         + CursorsIn(b, Next(b, s, events[0]), events[1..])
  }

  lemma StepCounts(b: Backoff, s: State, e: Event)
    ensures Next(b, s, e).cursors == if Succeeds(s, e) then s.cursors + e.trial.submit.lastSynced else s.cursors
    ensures Next(b, s, e).meta.importedTotal
         == s.meta.importedTotal + if Succeeds(s, e) then e.trial.submit.created else 0
  {
    if e.Attempted? {
      var t := e.trial;
      var asked := if s.cached.Some? then s else s.(fetches := s.fetches + 1);
      hide Delay, Failed;
      FailureCountsNothing(asked, if t.fetch.Classified? then "" else t.fetch.error, t.fetch.AuthRequired?, t.now);
      FailureCountsNothing(asked, if t.submit.SubmitFailed? then t.submit.error else "", false, t.now);
    }
  }

  lemma FailureCountsNothing(s: State, error: string, authRequired: bool, now: real)
    ensures Failed(s, error, authRequired, now).cursors == s.cursors
    ensures Failed(s, error, authRequired, now).meta.importedTotal == s.meta.importedTotal
  {
  }

  /** Cursors move only on success, and imported_total is the sum over all successes. */
  lemma {:induction false} OnlySuccessCounts(b: Backoff, s: State, events: seq<Event>)
    ensures Run(b, s, events).cursors == s.cursors + CursorsIn(b, s, events)
    ensures Run(b, s, events).meta.importedTotal == s.meta.importedTotal + ImportedIn(b, s, events)
    decreases |events|
  {
    if events != [] {
      var s1 := Next(b, s, events[0]);
      StepCounts(b, s, events[0]);
      OnlySuccessCounts(b, s1, events[1..]);
      hide Next, Succeeds;
      if Succeeds(s, events[0]) {
        Associative(s.cursors, events[0].trial.submit.lastSynced, CursorsIn(b, s1, events[1..]));
      } else {
        Associative(s.cursors, map[], CursorsIn(b, s1, events[1..]));
      }
    }
  }

  lemma Associative(x: map<string, int>, y: map<string, int>, z: map<string, int>)
    ensures (x + y) + z == x + (y + z)
    ensures x + map[] == x
  {
  }

  // --- notifications ----------------------------------------------------------------------------

  /** A run without restarts. */
  ghost predicate Uninterrupted(events: seq<Event>) { forall e :: e in events ==> e.Attempted? }

  /** The last thing notified is what the deduplication remembers. */
  ghost predicate RemembersLast(s: State) {
    s.lastNotified == if s.notes != [] && s.notes[|s.notes| - 1].ErrorNote? then Some(s.notes[|s.notes| - 1].message)
                      else None
  }

  /** No two errors in a row with the same message. */
  ghost predicate NoEcho(notes: seq<Note>) {
    forall i :: 0 <= i < |notes| - 1 && notes[i].ErrorNote? && notes[i + 1].ErrorNote? ==>
      notes[i].message != notes[i + 1].message
  }

  /** What an attempt did to the notes. */
  ghost predicate Noted(s: State, s': State) {
    && RemembersLast(s') && NoEcho(s'.notes) && s.notes <= s'.notes
    && (s'.notes == s.notes ==> s.lastNotified.Some? && s'.meta.lastError == s.lastNotified)
    && (s'.meta.lastError.Some? ==> s'.lastNotified == s'.meta.lastError)
  }

  lemma FailureIsNoted(s: State, error: string, authRequired: bool, now: real)
    requires RemembersLast(s) && NoEcho(s.notes)
    ensures Noted(s, Failed(s, error, authRequired, now))
  {
    var note := ErrorNote(error, authRequired);
    assert s.notes + [note] != s.notes by { assert |s.notes + [note]| == |s.notes| + 1; }
  }

  lemma SuccessIsNoted(s: State, created: nat, updated: nat, lastSynced: map<string, int>, now: real)
    requires RemembersLast(s) && NoEcho(s.notes)
    ensures Noted(s, Succeeded(s, created, updated, lastSynced, now))
  {
    var note := SuccessNote(created > 0 || updated > 0);
    assert s.notes + [note] != s.notes by { assert |s.notes + [note]| == |s.notes| + 1; }
  }

  lemma RetryKeepsNotes(b: Backoff, s: State, now: real)
    ensures ScheduledRetry(b, s, now).notes == ClearedRetry(s).notes == s.notes
    ensures ScheduledRetry(b, s, now).lastNotified == ClearedRetry(s).lastNotified == s.lastNotified
    ensures ScheduledRetry(b, s, now).meta == ClearedRetry(s).meta == s.meta
  {
  }

  lemma SubmitNotes(b: Backoff, s: State, work: Cycle, t: Trial)
    requires RemembersLast(s) && NoEcho(s.notes)
    ensures Noted(s, SubmitWork(b, s, work, t))
  {
    hide Failed, Succeeded, ScheduledRetry, NoEcho;
    match t.submit
    case SubmitFailed(error) =>
      FailureIsNoted(s, error, false, t.now);
      RetryKeepsNotes(b, Failed(s, error, false, t.now).(cached := Some(work)), t.now);
    case Submitted(created, updated, lastSynced) => SuccessIsNoted(s, created, updated, lastSynced, t.now);
  }

  lemma AttemptNotifies(b: Backoff, s: State, t: Trial)
    requires RemembersLast(s) && NoEcho(s.notes)
    ensures Noted(s, AfterAttempt(b, s, t))
  {
    hide Failed, SubmitWork, ScheduledRetry, ClearedRetry, NoEcho;
    var asked := s.(fetches := s.fetches + 1);
    if s.cached.Some? {
      SubmitNotes(b, s, s.cached.value, t);
    } else {
      match t.fetch
      case AuthRequired(error) =>
        FailureIsNoted(asked, error, true, t.now);
        RetryKeepsNotes(b, Failed(asked, error, true, t.now), t.now);
      case FetchFailed(error) =>
        FailureIsNoted(asked, error, false, t.now);
        RetryKeepsNotes(b, Failed(asked, error, false, t.now), t.now);
      case Classified(cycle) => SubmitNotes(b, asked, cycle, t);
    }
  }

  /** One error message per outage and text: a note is left out only if it would repeat the last one. */
  lemma {:induction false} RunNotifies(b: Backoff, s: State, events: seq<Event>)
    requires RemembersLast(s) && NoEcho(s.notes) && Uninterrupted(events)
    ensures var s' := Run(b, s, events); RemembersLast(s') && NoEcho(s'.notes) && s.notes <= s'.notes
    decreases |events|
  {
    if events != [] {
      AttemptNotifies(b, s, events[0].trial);
      hide AfterAttempt, NoEcho, RemembersLast;
      assert Noted(s, Next(b, s, events[0]));
      RunNotifies(b, Next(b, s, events[0]), events[1..]);
    }
  }

  // --- backoff ----------------------------------------------------------------------------------------

  function TotalDelay(b: Backoff, n: nat): real {
    if n == 0 then 0.0 else TotalDelay(b, n - 1) + Delay(b, n - 1)
  }

  lemma DelaysNeverDecrease(b: Backoff, k: nat, n: nat)
    requires b.base >= 0.0 && k <= n
    ensures Delay(b, k) <= Delay(b, n)
    decreases n - k
  {
    if k < n {
      DelaysNeverDecrease(b, k, n - 1);
      DoublingKeepsSign(b.base, n - 1);
    }
  }

  lemma {:induction false} TotalAtLeast(b: Backoff, n: nat)
    requires b.base > 0.0 && b.cap > 0.0
    ensures TotalDelay(b, n) >= n as real * (if b.base < b.cap then b.base else b.cap)
  {
    var least := if b.base < b.cap then b.base else b.cap;
    assert Delay(b, 0) == least;
    if n > 0 {
      TotalAtLeast(b, n - 1);
      DelaysNeverDecrease(b, 0, n - 1);
      OneMore(n, least);
    }
  }

  lemma OneMore(n: nat, x: real)
    requires n > 0
    ensures n as real * x == (n - 1) as real * x + x
  {
    assert n as real == (n - 1) as real + 1.0;
  }

  /**
   * Failures without manual triggers or pauses: each attempt starts no earlier than the deadline it was waiting for,
   * and each leaves a new deadline.
   */
  ghost predicate Retries(b: Backoff, s: State, trials: seq<Trial>)
    decreases |trials|
  {
    trials != [] ==>
      && (s.retryDeadline.Some? ==> s.retryDeadline.value <= trials[0].now)
      && AfterAttempt(b, s, trials[0]).retryDeadline.Some?
      && Retries(b, AfterAttempt(b, s, trials[0]), trials[1..])
  }

  /** From attempt k on, the retries that are still to come fit between now and the fire. */
  lemma {:induction false} RetriesFit(b: Backoff, s: State, trials: seq<Trial>, fire: real)
    requires Inv(s) && Retries(b, s, trials) && trials != []
    requires forall t :: t in trials ==> b.nextFire(t.now) == fire
    ensures trials[0].now + TotalDelay(b, s.retryAttempt + |trials|) - TotalDelay(b, s.retryAttempt) < fire
    decreases |trials|
  {
    var t := trials[0];
    var s1 := AfterAttempt(b, s, t);
    DeadlineBeforeFire(b, s, t);
    assert t in trials;
    RunKeepsInv(b, s, [Attempted(t)]);
    assert [Attempted(t)][1..] == [];
    assert Run(b, s, [Attempted(t)]) == s1;
    hide AfterAttempt, Inv;
    assert TotalDelay(b, s.retryAttempt + 1) == TotalDelay(b, s.retryAttempt) + Delay(b, s.retryAttempt);
    if |trials| > 1 {
      RetriesFit(b, s1, trials[1..], fire);
      assert s1.retryDeadline.value <= trials[1].now;
    }
  }

  /**
   * n retries scheduled before a cron fire: their delays sum to less than the time from the first failure to that
   * fire, so there are at most gap / min(base, cap) of them.
   */
  lemma {:induction false} BackoffTerminates(b: Backoff, s: State, trials: seq<Trial>, fire: real)
    requires Inv(s) && s.retryAttempt == 0 && Retries(b, s, trials) && trials != []
    requires forall t :: t in trials ==> b.nextFire(t.now) == fire
    ensures TotalDelay(b, |trials|) < fire - trials[0].now
    ensures b.base > 0.0 && b.cap > 0.0 ==>
        |trials| as real * (if b.base < b.cap then b.base else b.cap) < fire - trials[0].now
  {
    hide Retries, Inv, Delay;
    RetriesFit(b, s, trials, fire);
    assert s.retryAttempt + |trials| == |trials|;
    assert TotalDelay(b, s.retryAttempt) == 0.0;
    if b.base > 0.0 && b.cap > 0.0 {
      TotalAtLeast(b, |trials|);
    }
  }

  /** The settings are not checked: unless both are positive, no failing submission is ever given up. */
  lemma UncheckedSettingsNeverGiveUp(b: Backoff, s: State, t: Trial)
    requires (b.base <= 0.0 || b.cap <= 0.0) && IsCron(b) && s.cached.Some? && t.submit.SubmitFailed?
    ensures AfterAttempt(b, s, t).retryDeadline.Some? && AfterAttempt(b, s, t).retryDeadline.value <= t.now
    ensures AfterAttempt(b, s, t).cached == s.cached
  {
    DoublingKeepsSign(b.base, s.retryAttempt);
    hide Doubled;
  }
}
