/** The scheduler (internal/queue/scheduler.go): the sorted set of deferred tasks. */
module Scheduler {
  import opened Tasks
  import opened Store
  import opened Protocol
  import opened Queue

  const LOCK_TTL: Time := 5 * SECOND

  /** The order of a sorted set: by score, then by member. */
  predicate Before(scheduled: map<TaskId, int>, a: TaskId, b: TaskId) {
    a in scheduled && b in scheduled && (scheduled[a] < scheduled[b] || (scheduled[a] == scheduled[b] && a < b))
  }

  /** ZRANGEBYSCORE from minus infinity to max. */
  ghost predicate IsRange(scheduled: map<TaskId, int>, max: int, ids: seq<TaskId>) {
    && (forall id :: id in ids <==> id in scheduled && scheduled[id] <= max)
    && (forall i, j | 0 <= i < j < |ids| :: Before(scheduled, ids[i], ids[j]))
  }

  lemma {:induction false} FirstExists(scheduled: map<TaskId, int>, rest: set<TaskId>) returns (first: TaskId)
    requires rest != {} && rest <= scheduled.Keys
    ensures first in rest && forall id | id in rest && id != first :: Before(scheduled, first, id)
    decreases |rest|
  {
    var x :| x in rest;
    first := x;
    if rest - {x} == {} {
      assert rest == {x};
    } else {
      var y := FirstExists(scheduled, rest - {x});
      first := if Before(scheduled, y, x) then y else x;
      forall id | id in rest && id != first ensures Before(scheduled, first, id) {
        assert id != x ==> id in rest - {x};
      }
    }
  }

  /** The first k due tasks activated, one after the other. */
  function ActivatedUpTo(db: Database, ids: seq<TaskId>, k: nat, retention: bool, now: Time): Database
    requires k <= |ids|
  {
    if k == 0 then db else Activated(ActivatedUpTo(db, ids, k - 1, retention, now), ids[k - 1], retention, now)
  }

  /** The databases after each command of activateTask: the message is appended only after Pending is
      stored, and the entry is removed last. */
  function ActivateWrites(db: Database, id: TaskId, retention: bool, now: Time): seq<Database> {
    if id in db.records && db.records[id].state.IsDeferred() then
      var t := Moved(db.records[id], Pending, now);
      [db.Update(t, retention), db.Update(t, retention).Append(t.priority, t.id), Activated(db, id, retention, now)]
    else [Activated(db, id, retention, now)]
  }

  /** The databases after each command of the loop over the first k due tasks. */
  function DueWrites(db: Database, ids: seq<TaskId>, k: nat, retention: bool, now: Time): seq<Database>
    requires k <= |ids|
  {
    if k == 0 then []
    else
      DueWrites(db, ids, k - 1, retention, now)
      + ActivateWrites(ActivatedUpTo(db, ids, k - 1, retention, now), ids[k - 1], retention, now)
  }

  /** The databases after each command of ScheduleTask. */
  function ScheduleWrites(db: Database, r: Record, at: Time): seq<Database> {
    [db.Save(r, false), db.Save(r, false).Schedule(r.id, UnixSeconds(at))]
  }

  class Scheduler {
    const client: Redis
    const queue: RedisQueue

    constructor (client: Redis, queue: RedisQueue)
      requires queue.client == client
      ensures this.client == client && this.queue == queue
    {
      this.client, this.queue := client, queue;
    }

    method DueTasks(max: int) returns (ok: bool, ids: seq<TaskId>)
      ensures client.reliable ==> ok
      ensures ok ==> IsRange(client.db.scheduled, max, ids)
    {
      ids := [];
      ok := client.Reply();
      if !ok {
        return;
      }
      var rest := set id | id in client.db.scheduled && client.db.scheduled[id] <= max;
      while rest != {}
        invariant forall id :: id in ids || id in rest <==> id in client.db.scheduled && client.db.scheduled[id] <= max
        invariant forall i, id | 0 <= i < |ids| && id in rest :: Before(client.db.scheduled, ids[i], id)
        invariant forall i, j | 0 <= i < j < |ids| :: Before(client.db.scheduled, ids[i], ids[j])
        decreases |rest|
      {
        ghost var least := FirstExists(client.db.scheduled, rest);
        var first :| first in rest && forall id | id in rest && id != first :: Before(client.db.scheduled, first, id);
        ids, rest := ids + [first], rest - {first};
      }
    }

    /** On an error the entry stays in the set, and at most the state of the record has changed. */
    method ActivateTask(id: TaskId, now: Time) returns (ok: bool)
      requires queue.client == client
      modifies client`db, client`history
      ensures client.reliable ==> ok && client.db == Activated(old(client.db), id, queue.retention, now)
      ensures client.reliable ==>
        client.history == old(client.history) + ActivateWrites(old(client.db), id, queue.retention, now)
      ensures !ok ==>
        || client.db == old(client.db)
        || (id in old(client.db).records
             && client.db == old(client.db).Update(Moved(old(client.db).records[id], Pending, now), queue.retention))
      ensures client.reliable ==>
        var db, db' := old(client.db), client.db;
        && db'.scheduled == db.scheduled - {id} && db'.dlq == db.dlq && db'.dlqSet == db.dlqSet
        && if id in db.records && db.records[id].state in {Scheduled, Retrying} then
             var r := db.records[id];
             && db'.records == db.records[r.id := r.(state := Pending, updatedAt := now)]
             && db'.expiring == db.expiring - {r.id}
             && OneMoreMessage(db.streams, db'.streams, r.priority, r.id)
           else
             db'.records == db.records && db'.expiring == db.expiring && db'.streams == db.streams
    {
      var t := queue.GetTask(id);
      if t == null {
        var _ := client.Execute(client.db.Unschedule(id));
        return true;
      }
      if t.state != Scheduled && t.state != Retrying {
        var _ := client.Execute(client.db.Unschedule(id));
        return true;
      }
      var moved := t.Transition(Pending, now);
      ok := queue.UpdateTask(t);
      if !ok {
        return;
      }
      ok := client.Execute(client.db.Append(t.priority, t.id));
      if !ok {
        return;
      }
      var _ := client.Execute(client.db.Unschedule(id));
    }

    /** One tick. The lock is given back whatever happened in between. */
    method ProcessDueTasks(now: Time) returns (ghost ids: seq<TaskId>)
      requires queue.client == client
      modifies client`db, client`history, client`lock
      ensures !IsFree(old(client.lock), now) ==>
        client.db == old(client.db) && client.lock == old(client.lock) && client.history == old(client.history)
      ensures client.reliable && IsFree(old(client.lock), now) ==>
        && client.lock == None
        && IsRange(old(client.db).scheduled, UnixSeconds(now), ids)
        && client.db == ActivatedUpTo(old(client.db), ids, |ids|, queue.retention, now)
        && client.history == old(client.history) + DueWrites(old(client.db), ids, |ids|, queue.retention, now)
    {
      ids := [];
      ghost var db, history := client.db, client.history;
      var locked := client.AcquireLock(now, LOCK_TTL);
      if !locked {
        return;
      }
      var ok, due := DueTasks(UnixSeconds(now));
      if ok {
        ids := due;
        for k := 0 to |due|
          invariant client.lock == Some(now + LOCK_TTL)
          invariant client.reliable ==>
            && client.db == ActivatedUpTo(db, due, k, queue.retention, now)
            && client.history == history + DueWrites(db, due, k, queue.retention, now)
        {
          OneMoreActivation(db, due, k, queue.retention, now, history, client.db);
          var _ := ActivateTask(due[k], now);
        }
      }
      client.DeleteLock();
    }

    /** Stores the task and adds it to the sorted set; the record is deleted if that fails. */
    method ScheduleTask(t: Task, scheduledAt: Time) returns (ok: bool)
      modifies client`db, client`history
      ensures client.reliable ==> ok
      ensures ok ==> client.db == old(client.db).Save(t.Value(), false).Schedule(t.id, UnixSeconds(scheduledAt))
      ensures ok ==> client.history == old(client.history) + ScheduleWrites(old(client.db), t.Value(), scheduledAt)
      ensures ok ==>
        var db, db' := old(client.db), client.db;
        && db'.records == db.records[t.id := t.Value()] && db'.expiring == db.expiring - {t.id}
        && t.id in db'.scheduled && db'.scheduled == db.scheduled[t.id := db'.scheduled[t.id]]
        && db'.scheduled[t.id] * 1_000_000_000 <= scheduledAt < (db'.scheduled[t.id] + 1) * 1_000_000_000
        && db' == db.(records := db'.records, expiring := db'.expiring, scheduled := db'.scheduled)
      ensures !ok ==>
        || client.db == old(client.db)
        || client.db == old(client.db).Save(t.Value(), false)
        || client.db == old(client.db).Save(t.Value(), false).Delete(t.id)
    {
      ok := client.Execute(client.db.Save(t.Value(), false));
      if !ok {
        return;
      }
      ok := client.Execute(client.db.Schedule(t.id, UnixSeconds(scheduledAt)));
      if !ok {
        var _ := client.Execute(client.db.Delete(t.id));
      }
    }
  }

  lemma OneMoreActivation(db: Database, ids: seq<TaskId>, k: nat, retention: bool, now: Time, history: seq<Database>,
                          before: Database)
    requires k < |ids|
    ensures before == ActivatedUpTo(db, ids, k, retention, now) ==>
      && Activated(before, ids[k], retention, now) == ActivatedUpTo(db, ids, k + 1, retention, now)
      && history + DueWrites(db, ids, k, retention, now) + ActivateWrites(before, ids[k], retention, now)
         == history + DueWrites(db, ids, k + 1, retention, now)
  {
  }

  // ---------------------------------------------------------------------------
  // What a pass does.
  // ---------------------------------------------------------------------------

  predicate IsDeferred(records: map<TaskId, Record>, id: TaskId) {
    id in records && records[id].state.IsDeferred()
  }

  /** The messages of a pass for stream p: the deferred tasks of that priority, in order. */
  function ActivatedOn(records: map<TaskId, Record>, ids: seq<TaskId>, p: Priority): seq<TaskId> {
    if ids == [] then []
    else
      var id := ids[|ids| - 1];
      ActivatedOn(records, ids[..|ids| - 1], p)
      + if IsDeferred(records, id) && records[id].priority == p then [id] else []
  }

  /** The effect of activating `ids`, whose members are distinct. */
  ghost predicate Activates(db: Database, db': Database, ids: seq<TaskId>, now: Time) {
    && ActivatesRecords(db, db', ids, now)
    && (forall p: Priority :: db'.streams.Of(p) == Sent(db.records, db.streams.Of(p), ids, p))
    && db'.scheduled == (map id | id in db.scheduled && id !in ids :: db.scheduled[id])
    && db'.dlq == db.dlq && db'.dlqSet == db.dlqSet
  }

  ghost predicate ActivatesRecords(db: Database, db': Database, ids: seq<TaskId>, now: Time) {
    && db'.records.Keys == db.records.Keys
    && (forall id | id in db.records ::
          db'.records[id] == if id in ids && IsDeferred(db.records, id) then Moved(db.records[id], Pending, now)
                             else db.records[id])
    && (forall id :: id in db'.expiring <==> id in db.expiring && !(id in ids && IsDeferred(db.records, id)))
  }

  function Sent(records: map<TaskId, Record>, s: Stream, ids: seq<TaskId>, p: Priority): Stream {
    s.(log := s.log + ActivatedOn(records, ids, p))
  }

  lemma SendOne(records: map<TaskId, Record>, s: Stream, ids: seq<TaskId>, id: TaskId, p: Priority)
    ensures var s1 := Sent(records, s, ids, p);
            Sent(records, s, ids + [id], p)
            == if IsDeferred(records, id) && records[id].priority == p then s1.Add(id) else s1
  {
    assert (ids + [id])[..|ids|] == ids;
  }

  lemma ActivatedStream(db: Database, id: TaskId, retention: bool, now: Time, p: Priority)
    requires id in db.records ==> db.records[id].id == id
    ensures var s := db.streams.Of(p);
            Activated(db, id, retention, now).streams.Of(p)
            == if IsDeferred(db.records, id) && db.records[id].priority == p then s.Add(id) else s
  {
  }

  lemma ActivatesOne(db: Database, db1: Database, ids: seq<TaskId>, id: TaskId, retention: bool, now: Time)
    requires db.Keyed() && Activates(db, db1, ids, now) && id !in ids
    ensures Activates(db, Activated(db1, id, retention, now), ids + [id], now)
  {
    assert id in db1.records <==> id in db.records;
    assert id in db.records ==> db1.records[id] == db.records[id];
    forall p: Priority
      ensures Activated(db1, id, retention, now).streams.Of(p) == Sent(db.records, db.streams.Of(p), ids + [id], p)
    {
      ActivatedStream(db1, id, retention, now, p);
      SendOne(db.records, db.streams.Of(p), ids, id, p);
    }
    ActivatesOneRecord(db, db1, ids, id, retention, now);
  }

  lemma ActivatedRecord(db: Database, id: TaskId, retention: bool, now: Time)
    requires id in db.records ==> db.records[id].id == id
    ensures var db' := Activated(db, id, retention, now);
            && db'.scheduled == db.scheduled - {id} && db'.dlq == db.dlq && db'.dlqSet == db.dlqSet
            && (if IsDeferred(db.records, id)
                then db'.records == db.records[id := Moved(db.records[id], Pending, now)]
                  && db'.expiring == db.expiring - {id}
                else db'.records == db.records && db'.expiring == db.expiring)
  {
  }

  lemma ActivatesOneRecord(db: Database, db1: Database, ids: seq<TaskId>, id: TaskId, retention: bool, now: Time)
    requires db.Keyed() && ActivatesRecords(db, db1, ids, now) && id !in ids
    ensures ActivatesRecords(db, Activated(db1, id, retention, now), ids + [id], now)
    ensures Activated(db1, id, retention, now).scheduled == db1.scheduled - {id}
    ensures Activated(db1, id, retention, now).dlq == db1.dlq && Activated(db1, id, retention, now).dlqSet == db1.dlqSet
  {
    assert id in db.records ==> db1.records[id] == db.records[id];
    ActivatedRecord(db1, id, retention, now);
  }

  lemma {:induction false} ActivatesUpTo(db: Database, ids: seq<TaskId>, k: nat, retention: bool, now: Time)
    requires k <= |ids| && db.Keyed() && forall i, j | 0 <= i < j < |ids| :: ids[i] != ids[j]
    ensures Activates(db, ActivatedUpTo(db, ids, k, retention, now), ids[..k], now)
  {
    if k > 0 {
      ActivatesUpTo(db, ids, k - 1, retention, now);
      ActivatesOne(db, ActivatedUpTo(db, ids, k - 1, retention, now), ids[..k - 1], ids[k - 1], retention, now);
      assert ids[..k] == ids[..k - 1] + [ids[k - 1]];
    }
  }

  /** An error-free pass at time `now` removes exactly the entries with a score up to the current
      second; each of them whose record is Scheduled or Retrying becomes Pending and gets exactly
      one message, on the stream of its own priority, in score order; the others get none. Later
      entries and all other records and messages are untouched. */
  lemma DuePass(db: Database, ids: seq<TaskId>, retention: bool, now: Time)
    requires db.Keyed() && IsRange(db.scheduled, UnixSeconds(now), ids)
    ensures var db' := ActivatedUpTo(db, ids, |ids|, retention, now);
            && Activates(db, db', ids, now)
            && (forall id :: id in db'.scheduled <==> id in db.scheduled && db.scheduled[id] > UnixSeconds(now))
            && (forall id | id in db'.scheduled :: db'.scheduled[id] == db.scheduled[id])
  {
    ActivatesUpTo(db, ids, |ids|, retention, now);
    assert ids[..|ids|] == ids;
  }

  /** One message per deferred task, none for the others. */
  lemma {:induction false} ActivatedOnce(records: map<TaskId, Record>, ids: seq<TaskId>, p: Priority)
    requires forall i, j | 0 <= i < j < |ids| :: ids[i] != ids[j]
    ensures var sent := ActivatedOn(records, ids, p);
            && (forall id :: id in sent <==> id in ids && IsDeferred(records, id) && records[id].priority == p)
            && (forall i, j | 0 <= i < j < |sent| :: sent[i] != sent[j])
  {
    if ids != [] {
      ActivatedOnce(records, ids[..|ids| - 1], p);
      var id := ids[|ids| - 1];
      assert ids == ids[..|ids| - 1] + [id];
      assert id !in ids[..|ids| - 1];
    }
  }

  /** Of two tasks that a pass puts on the same stream, the one with the lower score comes first, and of
      two with the same score the one with the lesser id. */
  lemma {:induction false} EarlierFirst(db: Database, ids: seq<TaskId>, p: Priority, i: nat, j: nat)
    requires forall a, b | 0 <= a < b < |ids| :: Before(db.scheduled, ids[a], ids[b])
    requires i < j < |ActivatedOn(db.records, ids, p)|
    ensures var a, b := ActivatedOn(db.records, ids, p)[i], ActivatedOn(db.records, ids, p)[j];
            && a in db.scheduled && b in db.scheduled
            && (db.scheduled[a] < db.scheduled[b] || (db.scheduled[a] == db.scheduled[b] && a < b))
  {
    var front, last := ids[..|ids| - 1], ids[|ids| - 1];
    var sent := ActivatedOn(db.records, front, p);
    if j < |sent| {
      EarlierFirst(db, front, p, i, j);
    } else {
      SentAreGiven(db.records, front, p, i);
      assert sent[i] in front;
    }
  }

  lemma {:induction false} SentAreGiven(records: map<TaskId, Record>, ids: seq<TaskId>, p: Priority, i: nat)
    requires i < |ActivatedOn(records, ids, p)|
    ensures ActivatedOn(records, ids, p)[i] in ids
  {
    var front := ids[..|ids| - 1];
    if i < |ActivatedOn(records, front, p)| {
      SentAreGiven(records, front, p, i);
    }
  }

  predicate IsDue(scheduled: map<TaskId, int>, id: TaskId, now: Time) {
    id in scheduled && scheduled[id] <= UnixSeconds(now)
  }

  /** Whatever time a record names, its entry can be activated one second or more before it if and only
      if the entry is scored for an earlier second; and every pass from that time on activates it if
      and only if it is not scored for a later one. So an entry scored for the record's time, as
      ScheduleTask does, is never a second early and never late. */
  lemma Punctual(scheduled: map<TaskId, int>, id: TaskId, at: Time)
    requires id in scheduled
    ensures (exists now: Time :: IsDue(scheduled, id, now) && now + SECOND <= at) <==> scheduled[id] < UnixSeconds(at)
    ensures (forall now: Time | at <= now :: IsDue(scheduled, id, now)) <==> scheduled[id] <= UnixSeconds(at)
  {
    if scheduled[id] < UnixSeconds(at) {
      assert IsDue(scheduled, id, scheduled[id] * SECOND);
    }
    if scheduled[id] > UnixSeconds(at) {
      assert !IsDue(scheduled, id, at);
    }
  }
}
