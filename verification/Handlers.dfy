/** The API operations that move tasks (internal/api/handlers). */
module Handlers {
  import opened Tasks
  import opened Store
  import opened Protocol
  import opened Queue
  import opened Scheduler
  import opened Dlq

  datatype Status = Ok | Created | BadRequest | NotFound | Conflict | Unavailable | InternalError

  /** What the backpressure check compares with the limit. */
  function InFlight(db: Database): nat {
    |db.streams.low.pel| + |db.streams.normal.pel| + |db.streams.high.pel| + |db.streams.critical.pel|
  }

  predicate AtCapacity(db: Database, maxQueueSize: int) {
    maxQueueSize > 0 && InFlight(db) >= maxQueueSize
  }

  /** A task due later waits in the scheduled set, any other one on its stream. */
  function Submitted(db: Database, r: Record, now: Time): Database {
    if r.scheduledAt.Some? && r.scheduledAt.value > now
    then db.Save(r.(state := Scheduled), false).Schedule(r.id, UnixSeconds(r.scheduledAt.value))
    else db.Enqueued(r)
  }

  function SubmitWrites(db: Database, r: Record, now: Time): seq<Database> {
    if r.scheduledAt.Some? && r.scheduledAt.value > now
    then ScheduleWrites(db, r.(state := Scheduled), r.scheduledAt.value)
    else EnqueueWrites(db, r)
  }

  function NewRecord(id: TaskId, priority: int, maxRetries: int, defaultMaxRetries: int, scheduledAt: Option<Time>,
                     now: Time): Record {
    Record(id, PriorityFromInt(priority), Pending, 0,
           if maxRetries > 0 then maxRetries else if defaultMaxRetries > 0 then defaultMaxRetries else 3,
           "", "", None, None, scheduledAt, now)
  }

  /** A new task is stored without an expiry. If it is due later it is Scheduled, in the sorted set with
      its time in whole seconds, and on no stream; otherwise it is Pending and has one message on the
      stream of its priority. Nothing else changes. */
  ghost predicate AcceptedAs(db: Database, db': Database, r: Record, now: Time) {
    && db'.records == db.records[r.id := r] && db'.expiring == db.expiring - {r.id}
    && db'.dlq == db.dlq && db'.dlqSet == db.dlqSet
    && if r.scheduledAt.Some? && r.scheduledAt.value > now then
         && r.state == Scheduled && db'.streams == db.streams
         && r.id in db'.scheduled && db'.scheduled == db.scheduled[r.id := db'.scheduled[r.id]]
         && db'.scheduled[r.id] * 1_000_000_000 <= r.scheduledAt.value
         && r.scheduledAt.value < (db'.scheduled[r.id] + 1) * 1_000_000_000
       else
         && r.state == Pending && db'.scheduled == db.scheduled
         && OneMoreMessage(db.streams, db'.streams, r.priority, r.id)
  }

  /** What Create leaves behind when it succeeds. */
  lemma SubmittedAccepted(db: Database, r: Record, now: Time)
    requires r.state == Pending
    ensures var db' := Submitted(db, r, now);
            && r.id in db'.records && AcceptedAs(db, db', db'.records[r.id], now)
            && db'.records[r.id] == r.(state := db'.records[r.id].state)
  {
  }

  class TaskHandler {
    const queue: RedisQueue
    const scheduler: Scheduler
    const maxQueueSize: int
    const defaultMaxRetries: int

    constructor (queue: RedisQueue, scheduler: Scheduler, maxQueueSize: int, defaultMaxRetries: int)
      ensures this.queue == queue && this.scheduler == scheduler
      ensures this.maxQueueSize == maxQueueSize && this.defaultMaxRetries == defaultMaxRetries
    {
      this.queue, this.scheduler := queue, scheduler;
      this.maxQueueSize, this.defaultMaxRetries := maxQueueSize, defaultMaxRetries;
    }

    /** The backpressure check of Create. */
    method IsFull() returns (full: bool)
      ensures queue.client.reliable ==> full == AtCapacity(queue.client.db, maxQueueSize)
    {
      full := false;
      if maxQueueSize > 0 {
        var depths := queue.GetQueueDepth();
        var total := 0;
        for i := 0 to 4
          invariant total == DepthsUpTo(depths, i)
        {
          if NthPriority(i) in depths {
            total := total + depths[NthPriority(i)];
          }
        }
        assert queue.client.reliable ==> total == InFlight(queue.client.db);
        full := total >= maxQueueSize;
      }
    }

    /** `id` is the new UUID. */
    method Create(taskType: string, priority: int, maxRetries: int, scheduledAt: Option<Time>, id: TaskId, now: Time)
      returns (status: Status)
      requires scheduler.client == queue.client
      modifies queue.client`db, queue.client`history
      ensures var db := old(queue.client.db);
              var r := NewRecord(id, priority, maxRetries, defaultMaxRetries, scheduledAt, now);
              && (status == BadRequest <==> taskType == "")
              && (status in {BadRequest, Unavailable} ==> queue.client.db == db)
              && (status == Created ==>
                    && queue.client.db == Submitted(db, r, now)
                    && queue.client.history == old(queue.client.history) + SubmitWrites(db, r, now))
              && (queue.client.reliable && taskType != "" ==>
                    status == if AtCapacity(db, maxQueueSize) then Unavailable else Created)
      ensures queue.client.reliable && taskType != "" ==>
        var streams := old(queue.client.db).streams;
        (status == Unavailable <==>
           && maxQueueSize > 0
           && |streams.low.pel| + |streams.normal.pel| + |streams.high.pel| + |streams.critical.pel| >= maxQueueSize)
      ensures status == Created ==>
        && id in queue.client.db.records
        && AcceptedAs(old(queue.client.db), queue.client.db, queue.client.db.records[id], now)
        && var r := queue.client.db.records[id];
           && r.id == id && r.priority == PriorityFromInt(priority) && r.scheduledAt == scheduledAt
           && r.attempts == 0 && r.startedAt == None && r.completedAt == None && r.updatedAt == now
           && r.error == "" && r.worker == ""
           && r.maxRetries == (if maxRetries > 0 then maxRetries
                               else if defaultMaxRetries > 0 then defaultMaxRetries else 3)
    {
      if taskType == "" {
        return BadRequest;
      }
      var full := IsFull();
      if full {
        return Unavailable;
      }
      var t := new Task.FromRequest(id, priority, maxRetries, defaultMaxRetries, scheduledAt, now);
      if scheduledAt.Some? && scheduledAt.value > now {
        t.state := Scheduled;
        var ok := scheduler.ScheduleTask(t, scheduledAt.value);
        return if ok then Created else InternalError;
      }
      var ok := queue.Enqueue(t);
      status := if ok then Created else InternalError;
    }

    /** The removal from the scheduled set is guarded by the state that Cancel has just overwritten,
        so that the entry always stays. */
    method Cancel(id: TaskId, now: Time) returns (status: Status)
      modifies queue.client`db, queue.client`history
      ensures var db := old(queue.client.db);
              && (status == Status.Ok ==>
                    && id in db.records && CanBeCanceled(db.records[id].state)
                    && queue.client.db == db.Update(Moved(db.records[id], Canceled, now), queue.retention)
                    && queue.client.history == old(queue.client.history) + [queue.client.db]
                    && queue.client.db.scheduled == db.scheduled)
              && (status != Status.Ok ==> queue.client.db == db)
              && (queue.client.reliable ==>
                    status == if id !in db.records then NotFound
                              else if CanBeCanceled(db.records[id].state) then Status.Ok
                              else Conflict)
      ensures queue.client.reliable ==>
        var records := old(queue.client.db).records;
        && (status == NotFound <==> id !in records)
        && (status == Status.Ok <==> id in records && records[id].state in {Pending, Scheduled, Retrying})
        && (status == Conflict <==> id in records && records[id].state !in {Pending, Scheduled, Retrying})
      ensures status == Status.Ok ==>
        var db, db' := old(queue.client.db), queue.client.db;
        && db'.streams == db.streams && db'.scheduled == db.scheduled && db'.dlq == db.dlq && db'.dlqSet == db.dlqSet
        && id in db.records && id in db'.records
        && var r := db.records[id];
           db'.records
           == db.records[r.id := r.(state := State.Canceled, updatedAt := now, completedAt := Some(now))]
    {
      var t := queue.GetTask(id);
      if t == null {
        return if id !in queue.client.db.records then NotFound else InternalError;
      }
      if t.state != Pending && t.state != Scheduled && t.state != Retrying {
        return Conflict;
      }
      var ok := t.Transition(Canceled, now);
      if !ok {
        assert false;
      }
      if t.state == Scheduled || t.state == Retrying {
        assert false;
      }
      ok := queue.UpdateTask(t);
      status := if ok then Status.Ok else InternalError;
    }
  }

  class AdminHandler {
    const queue: RedisQueue
    const dlq: DLQ

    constructor (queue: RedisQueue, dlq: DLQ)
      ensures this.queue == queue && this.dlq == dlq
    {
      this.queue, this.dlq := queue, dlq;
    }

    method RetryTask(id: TaskId, now: Time) returns (status: Status)
      modifies queue.client`db, queue.client`history
      ensures var db := old(queue.client.db);
              && (status == Status.Ok ==>
                    && id in db.records && CanBeRetried(db.records[id].state)
                    && var r := Requeued(db.records[id], now);
                       && queue.client.db == db.Update(r, queue.retention).Enqueued(r)
                       && queue.client.history == old(queue.client.history) + [db.Update(r, queue.retention)]
                                                + EnqueueWrites(db.Update(r, queue.retention), r))
              && (status in {NotFound, Conflict} ==> queue.client.db == db)
              && (queue.client.reliable ==>
                    status == if id !in db.records then NotFound
                              else if CanBeRetried(db.records[id].state) then Status.Ok
                              else Conflict)
      ensures queue.client.reliable ==>
        var records := old(queue.client.db).records;
        && (status == NotFound <==> id !in records)
        && (status == Status.Ok <==> id in records && records[id].state in {Failed, DeadLetter})
        && (status == Conflict <==> id in records && records[id].state !in {Failed, DeadLetter})
      ensures status == Status.Ok ==>
        && id in old(queue.client.db).records
        && BackToWork(old(queue.client.db), queue.client.db, old(queue.client.db).records[id], now)
        && queue.client.db.dlq == old(queue.client.db).dlq && queue.client.db.dlqSet == old(queue.client.db).dlqSet
    {
      var t := queue.GetTask(id);
      if t == null {
        return if id !in queue.client.db.records then NotFound else InternalError;
      }
      if t.state != Failed && t.state != DeadLetter {
        return Conflict;
      }
      var ok := t.Requeue(now);
      if !ok {
        assert false;
      }
      ok := queue.UpdateTask(t);
      if !ok {
        return InternalError;
      }
      ok := queue.Enqueue(t);
      status := if ok then Status.Ok else InternalError;
    }

    method RetryDLQ(retryAll: bool, id: Option<TaskId>, messageId: Option<MessageId>, now: Time)
      returns (status: Status, count: nat)
      requires dlq.client == queue.client
      modifies queue.client`db, queue.client`history
      ensures var db := old(queue.client.db);
              && (!retryAll && id.None? ==> status == BadRequest && queue.client.db == db)
              && (queue.client.reliable && retryAll ==>
                   && status == Status.Ok && Progress(queue.client.db, count) == RetriedAll(db, now)
                   && queue.client.history == old(queue.client.history) + RetryAllWrites(db, now))
              && (queue.client.reliable && !retryAll && id.Some? ==>
                    && queue.client.db == RetriedOne(db, id.value, now)
                    && queue.client.history == old(queue.client.history) + RetryWrites(db, id.value, now)
                    && status == if FirstFrom(db.dlq, id.value, 0).None? then NotFound
                                 else if Retryable(db, id.value) then Status.Ok else InternalError)
    {
      count := 0;
      if retryAll {
        var ok;
        ok, count := dlq.RetryAll(queue, now);
        return if ok then Status.Ok else InternalError, count;
      }
      if id.None? {
        return BadRequest, 0;
      }
      var ok, found := dlq.Retry(queue, id.value, messageId, now);
      status := if ok then Status.Ok else if !found then NotFound else InternalError;
    }
  }

  function DepthOf(depths: map<Priority, nat>, p: Priority): nat {
    if p in depths then depths[p] else 0
  }

  function DepthsUpTo(depths: map<Priority, nat>, n: nat): nat {
    (if n > 0 then DepthOf(depths, Critical) else 0) + (if n > 1 then DepthOf(depths, High) else 0)
    + (if n > 2 then DepthOf(depths, Normal) else 0) + (if n > 3 then DepthOf(depths, Low) else 0)
  }
}
