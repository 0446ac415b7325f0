/** The worker pool (internal/worker/pool.go): write first, acknowledge last. */
module Pool {
  import opened Tasks
  import opened Store
  import opened Backoff
  import opened Queue
  import opened Scheduler
  import opened Dlq
  import opened Recovery

  /** What the task's handler comes back with. */
  datatype Outcome = Success | Failure(message: string)

  // ---------------------------------------------------------------------------
  // What each call does when every command succeeds.
  // ---------------------------------------------------------------------------

  function Finished(db: Database, r: Record, m: MessageId, retention: bool, now: Time): Database {
    if r.state.CanTransitionTo(Completed) then db.Update(Succeeded(r, now), retention).Ack(r.priority, m) else db
  }

  function MarkedFailed(r: Record, message: string, now: Time): Record {
    if r.state.CanTransitionTo(Failed) then Errored(r, message, now) else r
  }

  /** The record is stored twice: by UpdateTask and by the scheduling function. */
  function RetriedLater(db: Database, q: Record, m: MessageId, retention: bool): Database
    requires q.scheduledAt.Some?
  {
    db.Update(q, retention).Save(q, false).Schedule(q.id, UnixSeconds(q.scheduledAt.value)).Ack(q.priority, m)
  }

  /** The exhausted branch, and both fallbacks of the retry branch. */
  function Entombed(db: Database, e: Record, m: MessageId, retention: bool, now: Time): Database {
    Added(db.Update(e, retention), e, now).Ack(e.priority, m)
  }

  function FailedOnce(db: Database, r: Record, m: MessageId, message: string, retention: bool, now: Time,
                      delay: Time): Database {
    var e := MarkedFailed(r, message, now);
    if r.CanRetry() && e.state.CanTransitionTo(RetryTarget(e))
    then RetriedLater(db, RetriedOrSame(e, now).(scheduledAt := Some(now + delay)), m, retention)
    else Entombed(db, e, m, retention, now)
  }

  /** What a worker does with a task it was handed. */
  function Worked(db: Database, r: Record, m: MessageId, worker: string, outcome: Outcome, policy: RetryPolicy,
                  retention: bool, now: Time, u: real): Database {
    if !r.state.CanTransitionTo(Running) then db
    else
      var t := Started(r, worker, now);
      match outcome
      case Success => Finished(db.Update(t, retention), t, m, retention, now)
      case Failure(message) =>
        FailedOnce(db.Update(t, retention), t, m, message, retention, now, policy.Delay(t.attempts, u))
  }

  function Processed(db: Database, worker: string, outcome: Outcome, policy: RetryPolicy, retention: bool, now: Time,
                     u: real): Database {
    var ready := db.FirstReady();
    if ready.None? then db
    else
      var s := db.streams.Of(ready.value);
      var db1 := db.ReadGroup(worker, now);
      if s.log[s.next] !in db.records then db1.Ack(ready.value, s.next)
      else Worked(db1, db.records[s.log[s.next]], s.next, worker, outcome, policy, retention, now, u)
  }

  // ---------------------------------------------------------------------------
  // The databases after each of its commands: every call acknowledges last.
  // ---------------------------------------------------------------------------

  function FinishWrites(db: Database, r: Record, m: MessageId, retention: bool, now: Time): seq<Database> {
    if r.state.CanTransitionTo(Completed)
    then [db.Update(Succeeded(r, now), retention), Finished(db, r, m, retention, now)]
    else []
  }

  function RetryLaterWrites(db: Database, q: Record, m: MessageId, retention: bool): seq<Database>
    requires q.scheduledAt.Some?
  {
    [db.Update(q, retention)]
    + ScheduleWrites(db.Update(q, retention), q, q.scheduledAt.value)
    + [RetriedLater(db, q, m, retention)]
  }

  function EntombWrites(db: Database, e: Record, m: MessageId, retention: bool, now: Time): seq<Database> {
    [db.Update(e, retention)] + AddWrites(db.Update(e, retention), e, now) + [Entombed(db, e, m, retention, now)]
  }

  function FailWrites(db: Database, r: Record, m: MessageId, message: string, retention: bool, now: Time,
                      delay: Time): seq<Database> {
    var e := MarkedFailed(r, message, now);
    if r.CanRetry() && e.state.CanTransitionTo(RetryTarget(e))
    then RetryLaterWrites(db, RetriedOrSame(e, now).(scheduledAt := Some(now + delay)), m, retention)
    else EntombWrites(db, e, m, retention, now)
  }

  function WorkWrites(db: Database, r: Record, m: MessageId, worker: string, outcome: Outcome, policy: RetryPolicy,
                      retention: bool, now: Time, u: real): seq<Database> {
    if !r.state.CanTransitionTo(Running) then []
    else
      var t := Started(r, worker, now);
      var db1 := db.Update(t, retention);
      [db1] + match outcome
              case Success => FinishWrites(db1, t, m, retention, now)
              case Failure(message) => FailWrites(db1, t, m, message, retention, now, policy.Delay(t.attempts, u))
  }

  function ProcessWrites(db: Database, worker: string, outcome: Outcome, policy: RetryPolicy,
                         retention: bool, now: Time, u: real): seq<Database> {
    var ready := db.FirstReady();
    if ready.None? then []
    else
      var s := db.streams.Of(ready.value);
      var db1 := db.ReadGroup(worker, now);
      DequeueWrites(db, worker, now)
      + if s.log[s.next] !in db.records then []
        else WorkWrites(db1, db.records[s.log[s.next]], s.next, worker, outcome, policy, retention, now, u)
  }

  /** The messages of a pass of recovery, one after the other. */
  function RecoverWrites(db: Database, os: seq<Orphan>, k: nat, now: Time): seq<Database>
    requires k <= |os|
  {
    if k == 0 then []
    else RecoverWrites(db, os, k - 1, now) + RequeueWrites(RequeuedUpTo(db, os, k - 1, now), os[k - 1], now)
  }

  lemma Associative(a: seq<Database>, b: seq<Database>, c: seq<Database>)
    ensures (a + b) + c == a + (b + c)
  {
  }

  /** A whole pass: every claim first, then the messages found. */
  function RecoveryWrites(db: Database, minIdle: Time, consumer: string, now: Time): seq<Database> {
    var os := OrphansUpTo(db, 4, minIdle, consumer, now);
    ClaimAllWrites(db, 4, minIdle, consumer, now) + RecoverWrites(ClaimedAll(db, minIdle, consumer, now), os, |os|, now)
  }

  lemma WholePass(db: Database, os: seq<Orphan>, h: seq<Database>, h1: seq<Database>, h2: seq<Database>,
                  claimed: Database, claims: seq<Database>, now: Time)
    requires h1 == h + claims && h2 == h1 + RecoverWrites(claimed, os, |os|, now)
    ensures h2 == h + (claims + RecoverWrites(claimed, os, |os|, now))
  {
  }

  lemma ClaimedAllIs(db: Database, minIdle: Time, consumer: string, now: Time)
    ensures ClaimedUpTo(db, 4, minIdle, consumer, now) == ClaimedAll(db, minIdle, consumer, now)
  {
    var db' := ClaimedUpTo(db, 4, minIdle, consumer, now);
    ClaimedUpToStreams(db, 4, minIdle, consumer, now);
    assert db'.streams == Streams(db'.streams.Of(Low), db'.streams.Of(Normal), db'.streams.Of(High),
      db'.streams.Of(Critical));
  }

  lemma ProcessedIsWorked(db: Database, worker: string, outcome: Outcome, policy: RetryPolicy, retention: bool,
                          now: Time, u: real)
    requires db.FirstReady().Some?
    ensures var p := db.FirstReady().value;
            var s, db1 := db.streams.Of(p), db.ReadGroup(worker, now);
            && s.next < |s.log|
            && (s.log[s.next] in db.records ==>
                  var r := db.records[s.log[s.next]];
                  && Processed(db, worker, outcome, policy, retention, now, u)
                     == Worked(db1, r, s.next, worker, outcome, policy, retention, now, u)
                  && ProcessWrites(db, worker, outcome, policy, retention, now, u)
                     == [db1] + WorkWrites(db1, r, s.next, worker, outcome, policy, retention, now, u))
            && (s.log[s.next] !in db.records ==>
                  && Processed(db, worker, outcome, policy, retention, now, u) == db1.Ack(p, s.next)
                  && ProcessWrites(db, worker, outcome, policy, retention, now, u) == [db1, db1.Ack(p, s.next)])
  {
  }

  // ---------------------------------------------------------------------------
  // What becomes of a task that a worker was handed, in the fields of Redis.
  // ---------------------------------------------------------------------------

  /** The record while the handler runs: one more attempt, by this worker, from now on. */
  predicate RunsAs(r: Record, t: Record, worker: string, now: Time) {
    t == r.(state := Running, worker := worker, attempts := r.attempts + 1, startedAt := Some(now), updatedAt := now)
  }

  /** Completed, and acknowledged. */
  ghost predicate Succeeds(db: Database, db': Database, t: Record, m: MessageId, retention: bool, now: Time) {
    && db'.records
       == db.records[t.id := t.(state := Completed, error := "", completedAt := Some(now), updatedAt := now)]
    && db'.expiring == (if retention then db.expiring + {t.id} else db.expiring - {t.id})
    && OneAcknowledged(db.streams, db'.streams, t.priority, m)
    && db'.scheduled == db.scheduled && db'.dlq == db.dlq && db'.dlqSet == db.dlqSet
  }

  /** Retrying, in the sorted set for the second in which the delay ends, and acknowledged. */
  ghost predicate WaitsForRetry(db: Database, db': Database, t: Record, m: MessageId, message: string, now: Time,
                                delay: Time) {
    && db'.records == db.records[t.id := t.(state := Retrying, error := message, completedAt := Some(now),
                                            scheduledAt := Some(now + delay), updatedAt := now)]
    && db'.expiring == db.expiring - {t.id}
    && OneAcknowledged(db.streams, db'.streams, t.priority, m)
    && t.id in db'.scheduled && db'.scheduled == db.scheduled[t.id := db'.scheduled[t.id]]
    && db'.scheduled[t.id] * 1_000_000_000 <= now + delay < (db'.scheduled[t.id] + 1) * 1_000_000_000
    && db'.dlq == db.dlq && db'.dlqSet == db.dlqSet
  }

  /** Failed, with a DeadLetter copy in the dead-letter queue, and acknowledged. */
  ghost predicate EndsDead(db: Database, db': Database, t: Record, m: MessageId, message: string, retention: bool,
                           now: Time) {
    var e := t.(state := Failed, error := message, completedAt := Some(now), updatedAt := now);
    && db'.records == db.records[t.id := e]
    && db'.expiring == (if retention then db.expiring + {t.id} else db.expiring - {t.id})
    && OneAcknowledged(db.streams, db'.streams, t.priority, m)
    && db'.scheduled == db.scheduled
    && db'.dlq == db.dlq + [Some(e.(state := DeadLetter))] && db'.dlqSet == db.dlqSet + {t.id}
  }

  /** A task that cannot be started is left alone, its message unacknowledged; any other one succeeds,
      waits for its retry while attempts remain, or ends in the dead-letter queue. */
  ghost predicate Settles(db: Database, db': Database, r: Record, m: MessageId, worker: string, outcome: Outcome,
                          policy: RetryPolicy, retention: bool, now: Time, u: real) {
    if r.state !in {Pending, Scheduled, Retrying} then db' == db
    else
      exists t :: RunsAs(r, t, worker, now)
        && match outcome
           case Success => Succeeds(db, db', t, m, retention, now)
           case Failure(message) =>
             if t.attempts < t.maxRetries
             then WaitsForRetry(db, db', t, m, message, now, policy.Delay(t.attempts, u))
             else EndsDead(db, db', t, m, message, retention, now)
  }

  lemma FinishedSucceeds(db: Database, t: Record, m: MessageId, retention: bool, now: Time)
    requires t.state.Running?
    ensures Succeeds(db, Finished(db.Update(t, retention), t, m, retention, now), t, m, retention, now)
  {
  }

  lemma FailedOnceWaits(db: Database, t: Record, m: MessageId, message: string, retention: bool, now: Time, delay: Time)
    requires t.state.Running? && t.attempts < t.maxRetries
    ensures WaitsForRetry(db, FailedOnce(db.Update(t, retention), t, m, message, retention, now, delay), t, m, message,
              now, delay)
  {
    RetryBranchAlwaysSchedules(t, message, now, delay);
    WholeSeconds(now + delay);
  }

  lemma FailedOnceEndsDead(db: Database, t: Record, m: MessageId, message: string, retention: bool, now: Time,
                           delay: Time)
    requires t.state.Running? && t.attempts >= t.maxRetries
    ensures EndsDead(db, FailedOnce(db.Update(t, retention), t, m, message, retention, now, delay), t, m, message,
              retention, now)
  {
  }

  lemma WorkedSettles(db: Database, r: Record, m: MessageId, worker: string, outcome: Outcome, policy: RetryPolicy,
                      retention: bool, now: Time, u: real)
    ensures Settles(db, Worked(db, r, m, worker, outcome, policy, retention, now, u), r, m, worker, outcome, policy,
              retention, now, u)
  {
    WhoMay(r.state);
    if r.state in {Pending, Scheduled, Retrying} {
      var t := Started(r, worker, now);
      assert RunsAs(r, t, worker, now);
      match outcome
      case Success => FinishedSucceeds(db, t, m, retention, now);
      case Failure(message) =>
        if t.attempts < t.maxRetries {
          FailedOnceWaits(db, t, m, message, retention, now, policy.Delay(t.attempts, u));
        } else {
          FailedOnceEndsDead(db, t, m, message, retention, now, policy.Delay(t.attempts, u));
        }
    }
  }

  /** What one call makes of Redis: nothing when there is no message; otherwise one message is read from
      every stream that has one, and the task of the most urgent one settled, or its message
      acknowledged if there is no record. */
  ghost predicate Serves(db: Database, db': Database, worker: string, outcome: Outcome, policy: RetryPolicy,
                         retention: bool, now: Time, u: real) {
    if forall p: Priority :: db.streams.Of(p).next >= |db.streams.Of(p).log| then db' == db
    else exists db1: Database, p: Priority :: ServesFrom(db, db1, p, db', worker, outcome, policy, retention, now, u)
  }

  ghost predicate ServesFrom(db: Database, db1: Database, p: Priority, db': Database, worker: string, outcome: Outcome,
                             policy: RetryPolicy, retention: bool, now: Time, u: real) {
    && db1 == db.(streams := db1.streams) && OneReadFromEach(db.streams, db1.streams, worker, now)
    && IsMostUrgent(db.streams, p)
    && var m, id := db.streams.Of(p).next, db.streams.Of(p).log[db.streams.Of(p).next];
       if id in db.records then Settles(db1, db', db.records[id], m, worker, outcome, policy, retention, now, u)
       else db' == db1.(streams := db'.streams) && OneAcknowledged(db1.streams, db'.streams, p, m)
  }

  predicate IsMostUrgent(streams: Streams, p: Priority) {
    && streams.Of(p).next < |streams.Of(p).log|
    && forall q: Priority | streams.Of(q).next < |streams.Of(q).log| :: Rank(p) <= Rank(q)
  }

  lemma ProcessedServes(db: Database, worker: string, outcome: Outcome, policy: RetryPolicy, retention: bool,
                        now: Time, u: real)
    ensures Serves(db, Processed(db, worker, outcome, policy, retention, now, u), worker, outcome, policy, retention,
              now, u)
  {
    MostUrgentFirst(db);
    if db.FirstReady().Some? {
      ReadServes(db, db.FirstReady().value, worker, outcome, policy, retention, now, u);
    }
  }

  lemma ReadServes(db: Database, p: Priority, worker: string, outcome: Outcome, policy: RetryPolicy, retention: bool,
                   now: Time, u: real)
    requires db.FirstReady() == Some(p)
    ensures ServesFrom(db, db.ReadGroup(worker, now), p,
              Processed(db, worker, outcome, policy, retention, now, u), worker, outcome, policy, retention, now, u)
  {
    MostUrgentFirst(db);
    OneRead(db, worker, now);
    var db1, m := db.ReadGroup(worker, now), db.streams.Of(p).next;
    var id := db.streams.Of(p).log[m];
    ProcessedIsWorked(db, worker, outcome, policy, retention, now, u);
    if id in db.records {
      WorkedSettles(db1, db.records[id], m, worker, outcome, policy, retention, now, u);
    } else {
      OneAcked(db1, p, m);
    }
  }

  lemma OneRead(db: Database, worker: string, now: Time)
    ensures var db1 := db.ReadGroup(worker, now);
            db1 == db.(streams := db1.streams) && OneReadFromEach(db.streams, db1.streams, worker, now)
  {
  }

  lemma OneAcked(db: Database, p: Priority, m: MessageId)
    ensures var db' := db.Ack(p, m);
            db' == db.(streams := db'.streams) && OneAcknowledged(db.streams, db'.streams, p, m)
  {
  }

  class Pool {
    const id: string
    const queue: RedisQueue
    const dlq: DLQ
    const scheduler: Scheduler
    const retryPolicy: RetryPolicy

    constructor (id: string, queue: RedisQueue, dlq: DLQ, scheduler: Scheduler, retryPolicy: RetryPolicy)
      ensures this.id == id && this.queue == queue && this.dlq == dlq && this.scheduler == scheduler
      ensures this.retryPolicy == retryPolicy
    {
      this.id, this.queue, this.dlq, this.scheduler, this.retryPolicy := id, queue, dlq, scheduler, retryPolicy;
    }

    predicate Connected() {
      dlq.client == queue.client && scheduler.client == queue.client && scheduler.queue == queue
    }

    /** Fetches one task, runs its handler, which ends with `outcome`, and handles the result. */
    method ProcessNextTask(outcome: Outcome, now: Time, u: real) returns (ok: bool)
      requires Connected() && 0.0 <= u < 1.0
      modifies queue.client`db, queue.client`history
      ensures queue.client.reliable ==>
        && queue.client.db == Processed(old(queue.client.db), id, outcome, retryPolicy, queue.retention, now, u)
        && queue.client.history == old(queue.client.history)
                                 + ProcessWrites(old(queue.client.db), id, outcome, retryPolicy, queue.retention,
                                   now, u)
      ensures queue.client.reliable ==>
        Serves(old(queue.client.db), queue.client.db, id, outcome, retryPolicy, queue.retention, now, u)
    {
      ProcessedServes(queue.client.db, id, outcome, retryPolicy, queue.retention, now, u);
      ok := FetchAndWork(outcome, now, u);
    }

    method FetchAndWork(outcome: Outcome, now: Time, u: real) returns (ok: bool)
      requires Connected() && 0.0 <= u < 1.0
      modifies queue.client`db, queue.client`history
      ensures queue.client.reliable ==>
        && queue.client.db == Processed(old(queue.client.db), id, outcome, retryPolicy, queue.retention, now, u)
        && queue.client.history == old(queue.client.history)
                                 + ProcessWrites(old(queue.client.db), id, outcome, retryPolicy, queue.retention,
                                   now, u)
    {
      ghost var db := queue.client.db;
      if db.FirstReady().Some? {
        ProcessedIsWorked(db, id, outcome, retryPolicy, queue.retention, now, u);
      }
      var t, m := queue.DequeueBlocking(id, now);
      if t == null {
        return true;
      }
      ghost var db1, r, earlier := queue.client.db, t.Value(), queue.client.history;
      ok := Work(t, m, outcome, now, u);
      if queue.client.reliable {
        assert earlier == old(queue.client.history) + [db1];
        Associative(old(queue.client.history), [db1],
          WorkWrites(db1, r, m, id, outcome, retryPolicy, queue.retention, now, u));
      }
    }

    /** The part of processNextTask that follows the dequeueing. */
    method Work(t: Task, m: MessageId, outcome: Outcome, now: Time, u: real) returns (ok: bool)
      requires Connected() && 0.0 <= u < 1.0
      modifies queue.client`db, queue.client`history, t
      ensures queue.client.reliable ==>
        var db, r := old(queue.client.db), old(t.Value());
        && queue.client.db == Worked(db, r, m, id, outcome, retryPolicy, queue.retention, now, u)
        && queue.client.history
             == old(queue.client.history) + WorkWrites(db, r, m, id, outcome, retryPolicy, queue.retention, now, u)
    {
      ok := t.Start(id, now);
      if !ok {
        return;
      }
      var _ := queue.UpdateTask(t);
      match outcome
      case Failure(message) =>
        HandleTaskFailure(t, m, message, now, u);
      case Success =>
        ok := HandleTaskSuccess(t, m, now);
    }

    /** Whatever fails, the message is acknowledged only once Completed is stored. */
    method HandleTaskSuccess(t: Task, m: MessageId, now: Time) returns (ok: bool)
      requires Connected()
      modifies queue.client`db, queue.client`history, t
      ensures var db, r := old(queue.client.db), old(t.Value());
              && (queue.client.reliable ==>
                    && queue.client.db == Finished(db, r, m, queue.retention, now)
                    && queue.client.history == old(queue.client.history) + FinishWrites(db, r, m, queue.retention, now))
              && (ok ==>
                    && queue.client.db == Finished(db, r, m, queue.retention, now)
                    && r.state.CanTransitionTo(Completed))
              && (!ok ==> queue.client.db == db || queue.client.db == db.Update(Succeeded(r, now), queue.retention))
    {
      ok := t.Complete(now);
      if !ok {
        return;
      }
      ok := queue.UpdateTask(t);
      if !ok {
        return;
      }
      ok := queue.Acknowledge(t, m);
    }

    /** Whatever fails on the retry path, the message is acknowledged only once the task sits in
        the scheduled set with a record that the scheduler activates. */
    method HandleTaskFailure(t: Task, m: MessageId, message: string, now: Time, u: real)
      requires Connected() && 0.0 <= u < 1.0
      modifies queue.client`db, queue.client`history, t
      ensures var db, r := old(queue.client.db), old(t.Value());
              && (queue.client.reliable ==>
                    var delay := retryPolicy.Delay(r.attempts, u);
                    && queue.client.db == FailedOnce(db, r, m, message, queue.retention, now, delay)
                    && queue.client.history
                         == old(queue.client.history) + FailWrites(db, r, m, message, queue.retention, now, delay))
              && (r.state.Running? && r.CanRetry() ==>
                    || queue.client.db.streams == db.streams
                    || (r.id in queue.client.db.scheduled && r.id in queue.client.db.records
                         && queue.client.db.records[r.id].state.Retrying?))
    {
      if t.Value().CanRetry() {
        HandleRetry(t, m, message, now, u);
        return;
      }
      var _ := t.Fail(message, now);
      Entomb(t, m, now);
    }

    /** The branch of a failure with attempts left. */
    method HandleRetry(t: Task, m: MessageId, message: string, now: Time, u: real)
      requires Connected() && 0.0 <= u < 1.0 && t.Value().CanRetry()
      modifies queue.client`db, queue.client`history, t
      ensures var db, r := old(queue.client.db), old(t.Value());
              && (queue.client.reliable ==>
                    var delay := retryPolicy.Delay(r.attempts, u);
                    && queue.client.db == FailedOnce(db, r, m, message, queue.retention, now, delay)
                    && queue.client.history
                         == old(queue.client.history) + FailWrites(db, r, m, message, queue.retention, now, delay))
              && (r.state.Running? ==>
                    || queue.client.db.streams == db.streams
                    || (r.id in queue.client.db.scheduled && r.id in queue.client.db.records
                         && queue.client.db.records[r.id].state.Retrying?))
    {
      var ok := PlanRetry(t, message, now, u);
      if !ok {
        Entomb(t, m, now);
        return;
      }
      Postpone(t, m);
    }

    /** Fail, then ScheduleRetry with the backoff for the attempts made so far. */
    method PlanRetry(t: Task, message: string, now: Time, u: real) returns (ok: bool)
      requires 0.0 <= u < 1.0
      modifies t
      ensures var e := MarkedFailed(old(t.Value()), message, now);
              && ok == e.state.CanTransitionTo(RetryTarget(e))
              && t.Value() == if ok then RetriedOrSame(e, now).(
                                scheduledAt := Some(now + retryPolicy.Delay(old(t.attempts), u)))
                              else e
      ensures old(t.state) == Running && old(t.attempts) < old(t.maxRetries) ==>
        && t.state == Retrying && t.error == message && t.attempts == old(t.attempts)
        && t.scheduledAt == Some(now + retryPolicy.Delay(old(t.attempts), u))
    {
      var _ := t.Fail(message, now);
      var delay := retryPolicy.CalculateBackoff(t.attempts, u);
      ok := t.ScheduleRetry(now, delay);
    }

    /** Store, schedule, acknowledge, each only after the one before it succeeded. The source also
        tests for a missing retry time, which ScheduleRetry has just set. */
    method Postpone(t: Task, m: MessageId)
      requires Connected() && t.scheduledAt.Some?
      modifies queue.client`db, queue.client`history
      ensures queue.client.reliable ==>
        && queue.client.db == RetriedLater(old(queue.client.db), t.Value(), m, queue.retention)
        && queue.client.history
             == old(queue.client.history) + RetryLaterWrites(old(queue.client.db), t.Value(), m, queue.retention)
      ensures
        || queue.client.db.streams == old(queue.client.db).streams
        || (t.id in queue.client.db.scheduled && t.id in queue.client.db.records
             && queue.client.db.records[t.id] == t.Value())
    {
      var ok := queue.UpdateTask(t);
      if !ok {
        return;
      }
      ok := scheduler.ScheduleTask(t, t.scheduledAt.value);
      if !ok {
        return;
      }
      var _ := queue.Acknowledge(t, m);
    }

    /** Store, add to the dead-letter queue, acknowledge; errors are only logged. */
    method Entomb(t: Task, m: MessageId, now: Time)
      requires Connected()
      modifies queue.client`db, queue.client`history, t
      ensures queue.client.reliable ==>
        && queue.client.db == Entombed(old(queue.client.db), old(t.Value()), m, queue.retention, now)
        && queue.client.history
             == old(queue.client.history) + EntombWrites(old(queue.client.db), old(t.Value()), m, queue.retention, now)
    {
      var _ := queue.UpdateTask(t);
      var _ := dlq.Add(t, now);
      var _ := queue.Acknowledge(t, m);
    }

    /** One pass of orphan recovery: all claims first, then the messages one after the other. */
    method RecoverOrphanedTasks(now: Time) returns (ghost claimed: seq<Database>)
      requires Connected() && queue.client.db.streams.Valid()
      modifies queue.client`db, queue.client`history
      ensures GrowsByClaims(old(queue.client.db), old(queue.client.history), claimed)
      ensures queue.client.reliable ==>
        var db := old(queue.client.db);
        && queue.client.db == Recovered(db, queue.claimMinIdle, id, now)
        && queue.client.history == old(queue.client.history) + RecoveryWrites(db, queue.claimMinIdle, id, now)
      ensures queue.client.reliable && old(queue.client.db).Placed() && old(queue.client.db).Keyed() ==>
        var db := old(queue.client.db);
        forall p: Priority :: OverdueReplaced(db.records, db.streams.Of(p), queue.client.db.streams.Of(p),
          queue.claimMinIdle, now)
    {
      ghost var db, earlier := queue.client.db, queue.client.history;
      var orphans := queue.ClaimOrphanedTasks(id, now);
      claimed := queue.client.history;
      RequeueOrphans(orphans, now);
      if queue.client.reliable {
        ClaimedAllIs(db, queue.claimMinIdle, id, now);
        WholePass(db, orphans, earlier, claimed, queue.client.history, ClaimedAll(db, queue.claimMinIdle, id, now),
          ClaimAllWrites(db, 4, queue.claimMinIdle, id, now), now);
        if db.Placed() && db.Keyed() {
          forall p: Priority
            ensures OverdueReplaced(db.records, db.streams.Of(p), queue.client.db.streams.Of(p),
                      queue.claimMinIdle, now)
          {
            PassRecoversOverdue(db, queue.claimMinIdle, id, now, p);
          }
        }
      }
    }

    method RequeueOrphans(orphans: seq<Orphan>, now: Time)
      requires Connected()
      modifies queue.client`db, queue.client`history
      ensures queue.client.reliable ==>
        && queue.client.db == RequeuedUpTo(old(queue.client.db), orphans, |orphans|, now)
        && queue.client.history
             == old(queue.client.history) + RecoverWrites(old(queue.client.db), orphans, |orphans|, now)
    {
      for i := 0 to |orphans|
        invariant queue.client.reliable ==>
          && queue.client.db == RequeuedUpTo(old(queue.client.db), orphans, i, now)
          && queue.client.history == old(queue.client.history) + RecoverWrites(old(queue.client.db), orphans, i, now)
      {
        RequeueOrphan(orphans[i], now);
      }
    }

    method RequeueOrphan(o: Orphan, now: Time)
      requires Connected()
      modifies queue.client`db, queue.client`history
      ensures queue.client.reliable ==>
        && queue.client.db == RequeueOne(old(queue.client.db), o, now)
        && queue.client.history == old(queue.client.history) + RequeueWrites(old(queue.client.db), o, now)
    {
      var t := new Task.Decode(o.r);
      t.PrepareForRequeue(now);
      var ok := queue.Enqueue(t);
      if !ok {
        return;
      }
      var _ := queue.Acknowledge(t, o.m);
    }
  }
}
