/** What Redis holds for the queue, and the effect of each command the code issues. */
module Store {
  import opened Tasks

  /** Position in a stream; Redis hands out increasing ids. */
  type MessageId = nat

  /** A pending entry: who has it and since when. */
  datatype Delivery = Delivery(consumer: string, since: Time)

  /** One priority stream with its consumer group. Every message names one task. XACK removes a
      message from the pending list but leaves it in the stream. */
  datatype Stream = Stream(log: seq<TaskId>, next: nat, pel: map<MessageId, Delivery>, acked: set<MessageId>) {

    ghost predicate Valid() {
      && next <= |log|
      && (forall m :: m in pel ==> m < next && m !in acked)
      && (forall m :: m in acked ==> m < next)
      && (forall m :: 0 <= m < next ==> m in pel || m in acked)
    }

    /** Not acknowledged yet: waiting in the stream, or delivered and pending. */
    predicate Open(m: MessageId) {
      m < |log| && m !in acked
    }

    function Add(id: TaskId): Stream {
      this.(log := log + [id])
    }

    function Deliver(consumer: string, now: Time): Stream {
      if next < |log| then this.(next := next + 1, pel := pel[next := Delivery(consumer, now)]) else this
    }

    function Ack(m: MessageId): Stream {
      if m in pel then this.(pel := pel - {m}, acked := acked + {m}) else this
    }

    /** XCLAIM with MinIdle: only an entry that has been idle long enough changes hands. */
    function Claim(m: MessageId, minIdle: Time, consumer: string, now: Time): Stream {
      if m in pel && now - pel[m].since >= minIdle then this.(pel := pel[m := Delivery(consumer, now)]) else this
    }
  }

  const EMPTY_STREAM := Stream([], 0, map[], {})

  datatype Streams = Streams(low: Stream, normal: Stream, high: Stream, critical: Stream) {
    function Of(p: Priority): Stream {
      match p
      case Low => low
      case Normal => normal
      case High => high
      case Critical => critical
    }

    function With(p: Priority, s: Stream): (r: Streams)
      ensures forall q :: r.Of(q) == if q == p then s else Of(q)
    {
      match p
      case Low => this.(low := s)
      case Normal => this.(normal := s)
      case High => this.(high := s)
      case Critical => this.(critical := s)
    }

    function Deliver(consumer: string, now: Time): (r: Streams)
      ensures forall q :: r.Of(q) == Of(q).Deliver(consumer, now)
    {
      Streams(low.Deliver(consumer, now), normal.Deliver(consumer, now), high.Deliver(consumer, now),
        critical.Deliver(consumer, now))
    }

    ghost predicate Valid() {
      forall p: Priority :: Of(p).Valid()
    }

    lemma WithTwice(p: Priority, s: Stream, s': Stream)
      ensures With(p, Of(p)) == this
      ensures With(p, s).With(p, s') == With(p, s')
    {
    }
  }

  /** The order in which every loop over the streams visits them. */
  function NthPriority(i: nat): (p: Priority)
    requires i < 4
    ensures Rank(p) == i
  {
    if i == 0 then Critical else if i == 1 then High else if i == 2 then Normal else Low
  }

  function Rank(p: Priority): nat {
    match p
    case Critical => 0
    case High => 1
    case Normal => 2
    case Low => 3
  }

  /** Of the request values 0 to 3 the greater ones are served first; every other one counts as 1. */
  lemma GreaterIsMoreUrgent(i: int, j: int)
    ensures 0 <= i < j <= 3 ==> Rank(PriorityFromInt(i)) > Rank(PriorityFromInt(j))
    ensures !(0 <= i <= 3) ==> PriorityFromInt(i) == PriorityFromInt(1)
  {
  }

  /** Exactly one more message, for the task `id`, at the end of stream p. */
  ghost predicate OneMoreMessage(streams: Streams, streams': Streams, p: Priority, id: TaskId) {
    forall q: Priority ::
      var s := streams.Of(q);
      streams'.Of(q) == if q == p then Stream(s.log + [id], s.next, s.pel, s.acked) else s
  }

  /** The next message of every stream that has one is handed to the consumer. */
  ghost predicate OneReadFromEach(streams: Streams, streams': Streams, consumer: string, now: Time) {
    forall q: Priority ::
      var s := streams.Of(q);
      streams'.Of(q) == if s.next < |s.log|
                        then Stream(s.log, s.next + 1, s.pel[s.next := Delivery(consumer, now)], s.acked) else s
  }

  /** Exactly one pending entry of stream p acknowledged. */
  ghost predicate OneAcknowledged(streams: Streams, streams': Streams, p: Priority, m: MessageId) {
    forall q: Priority ::
      var s := streams.Of(q);
      streams'.Of(q) == if q == p && m in s.pel then Stream(s.log, s.next, s.pel - {m}, s.acked + {m}) else s
  }

  datatype Database = Database(
    records: map<TaskId, Record>,
    expiring: set<TaskId>,
    streams: Streams,
    scheduled: map<TaskId, int>,
    dlq: seq<Option<Record>>,
    dlqSet: set<TaskId>)
  {
    /** SET, with or without a time to live. */
    function Save(r: Record, ttl: bool): Database {
      this.(records := records[r.id := r], expiring := if ttl then expiring + {r.id} else expiring - {r.id})
    }

    /** UpdateTask: a time to live exactly for final states, when a retention is configured. */
    function Update(r: Record, retention: bool): Database {
      Save(r, r.state.IsFinal() && retention)
    }

    /** DEL of a task key, and what expiry does. */
    function Delete(id: TaskId): Database {
      this.(records := records - {id}, expiring := expiring - {id})
    }

    function WithStream(p: Priority, s: Stream): Database {
      this.(streams := streams.With(p, s))
    }

    /** XADD to a priority stream. */
    function Append(p: Priority, id: TaskId): Database {
      WithStream(p, streams.Of(p).Add(id))
    }

    /** Enqueue: SET without a time to live, then XADD to the stream of the task's priority. */
    function Enqueued(r: Record): Database {
      Save(r, false).Append(r.priority, r.id)
    }

    /** XREADGROUP with count 1 over all four streams: each stream that has an undelivered
        message hands one out. */
    function ReadGroup(consumer: string, now: Time): Database {
      this.(streams := streams.Deliver(consumer, now))
    }

    /** The stream of the first message in the reply of ReadGroup. */
    function FirstReady(): Option<Priority> {
      if streams.Of(Critical).next < |streams.Of(Critical).log| then Some(Critical)
      else if streams.Of(High).next < |streams.Of(High).log| then Some(High)
      else if streams.Of(Normal).next < |streams.Of(Normal).log| then Some(Normal)
      else if streams.Of(Low).next < |streams.Of(Low).log| then Some(Low)
      else None
    }

    function Ack(p: Priority, m: MessageId): Database {
      WithStream(p, streams.Of(p).Ack(m))
    }

    function Claim(p: Priority, m: MessageId, minIdle: Time, consumer: string, now: Time): Database {
      WithStream(p, streams.Of(p).Claim(m, minIdle, consumer, now))
    }

    /** ZADD and ZREM on the scheduled set. */
    function Schedule(id: TaskId, score: int): Database {
      this.(scheduled := scheduled[id := score])
    }

    function Unschedule(id: TaskId): Database {
      this.(scheduled := scheduled - {id})
    }

    /** XADD and XDEL on the dead-letter stream. A deleted entry leaves its id unused. */
    function DlqAppend(r: Record): Database {
      this.(dlq := dlq + [Some(r)])
    }

    function DlqDelete(d: MessageId): Database {
      if d < |dlq| then this.(dlq := dlq[d := None]) else this
    }

    /** DEL of the stream, and of the set. */
    function DlqClearStream(): Database {
      this.(dlq := [])
    }

    function DlqClearSet(): Database {
      this.(dlqSet := {})
    }

    function DlqIndex(id: TaskId): Database {
      this.(dlqSet := dlqSet + {id})
    }

    function DlqUnindex(id: TaskId): Database {
      this.(dlqSet := dlqSet - {id})
    }

    /** Every record is stored under its own id. */
    ghost predicate Keyed() {
      forall id | id in records :: records[id].id == id
    }

    /** Every message sits in the stream of its task's priority. */
    ghost predicate Placed() {
      forall p: Priority, m | 0 <= m < |streams.Of(p).log| && streams.Of(p).log[m] in records ::
        records[streams.Of(p).log[m]].priority == p
    }
  }

  /** The reply of ReadGroup starts with the most urgent stream that has an undelivered message. */
  lemma MostUrgentFirst(db: Database)
    ensures db.FirstReady().Some? ==>
      var p := db.FirstReady().value;
      && db.streams.Of(p).next < |db.streams.Of(p).log|
      && forall q: Priority | db.streams.Of(q).next < |db.streams.Of(q).log| :: Rank(p) <= Rank(q)
    ensures db.FirstReady().None? ==> forall q: Priority :: db.streams.Of(q).next >= |db.streams.Of(q).log|
  {
  }

  /** A scheduled entry the scheduler will not drop. */
  predicate Deferred(db: Database, id: TaskId) {
    id in db.scheduled && id in db.records && db.records[id].state.IsDeferred()
  }

  const EMPTY: Database :=
    Database(map[], {}, Streams(EMPTY_STREAM, EMPTY_STREAM, EMPTY_STREAM, EMPTY_STREAM), map[], [], {})

  const SECOND: Time := 1_000_000_000

  /** Score of an entry in the scheduled set: whole seconds. */
  function UnixSeconds(t: Time): int {
    t / SECOND
  }

  /** A score is the second that a time, in nanoseconds, falls into. */
  lemma WholeSeconds(t: Time)
    ensures UnixSeconds(t) * 1_000_000_000 <= t < (UnixSeconds(t) + 1) * 1_000_000_000
  {
  }

  /** The connection. A reliable server executes every command; otherwise any command may be
      answered with an error, without effect. */
  class Redis {
    var db: Database
    /** The databases after each writing command so far: the order of the writes. */
    ghost var history: seq<Database>
    /** Expiry of the scheduler's lock key, if it was set and not deleted since. */
    var lock: Option<Time>
    const reliable: bool

    constructor (reliable: bool)
      ensures db == EMPTY && history == [] && lock == None && this.reliable == reliable
    {
      this.reliable, db, history, lock := reliable, EMPTY, [], None;
    }

    /** Issues one writing command whose effect would be `next`. */
    method Execute(next: Database) returns (ok: bool)
      modifies this`db, this`history
      ensures reliable ==> ok
      ensures db == if ok then next else old(db)
      ensures history == old(history) + if ok then [next] else []
    {
      ok := Reply();
      if ok {
        db, history := next, history + [next];
      }
    }

    /** Issues one reading command: does it succeed? */
    method Reply() returns (ok: bool)
      ensures reliable ==> ok
    {
      ok := *;
      ok := ok || reliable;
    }

    /** SETNX with a time to live. */
    method AcquireLock(now: Time, ttl: Time) returns (locked: bool)
      modifies this`lock
      ensures locked ==> IsFree(old(lock), now)
      ensures reliable && IsFree(old(lock), now) ==> locked
      ensures lock == if locked then Some(now + ttl) else old(lock)
    {
      var ok := Reply();
      locked := ok && IsFree(lock, now);
      if locked {
        lock := Some(now + ttl);
      }
    }

    /** DEL of the lock key, whoever set it. */
    method DeleteLock()
      modifies this`lock
      ensures reliable ==> lock == None
      ensures lock == None || lock == old(lock)
    {
      var ok := Reply();
      if ok {
        lock := None;
      }
    }
  }

  predicate IsFree(lock: Option<Time>, now: Time) {
    lock.None? || lock.value <= now
  }
}
