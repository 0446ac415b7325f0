/** The delivery protocol: every process of the queue as a sequence of single Redis commands,
    interleaved with all the others and possibly crashing between any two of them. */
module Protocol {
  import opened Tasks
  import opened Store

  /** What a process holds while it works on a task: a delivered message, or a dead-letter entry. */
  datatype Token = Msg(p: Priority, m: MessageId) | Dead(d: MessageId)

  /** How far the holder of a token has got. The record is the holder's copy in memory. */
  datatype Phase =
    // A worker with the message it was handed.
    | Fetched                          // XREADGROUP returned it
    | Missing                          // GET found no record: about to acknowledge
    | Loaded(t: Record)                // GET done
    | Executing(t: Record)             // Running stored: the handler is running
    | RetryStored(t: Record)           // Retrying stored by UpdateTask
    | RetryStoredTwice(t: Record)      // and again by the scheduling function
    | FailStored(t: Record)            // Failed stored
    | Entombed(t: Record)              // dead-letter entry appended
    | Settled(t: Record)               // about to acknowledge
    // Orphan recovery with the message it claimed.
    | Claimed                          // XCLAIM done
    | Orphan(t: Record)                // GET done, record prepared
    | OrphanStored(t: Record)          // Pending stored
    // A dead-letter retry with the entry it found.
    | Picked(t: Record)                // found and requeued in memory
    | Restored(t: Record)              // Pending stored
    | Reappended(t: Record)            // message appended
    | Removed(t: Record)               // entry deleted from the stream

  /** Requests that hold no token. */
  datatype Request =
    | Creating(t: Record)              // record stored, not on any stream or set yet
    | Canceling(t: Record)             // Canceled in memory
    | AdminLoaded(t: Record)           // requeued in memory
    | AdminStored(t: Record)           // Pending stored by UpdateTask
    | AdminStoredTwice(t: Record)      // and again by Enqueue

  /** What never changes about a task. */
  datatype Spec = Spec(priority: Priority, maxRetries: int)

  predicate Matches(spec: Spec, r: Record) {
    r.priority == spec.priority && r.maxRetries == spec.maxRetries
  }

  /** Redis, the processes alive, and the history the theorems speak about: which tasks were
      submitted, completed and canceled so far, and per task the handler starts and the orphan
      recoveries since it was last requeued. */
  datatype System = System(
    retention: bool,
    minIdle: Time,
    db: Database,
    live: map<Token, Phase>,
    requests: map<nat, Request>,
    created: map<TaskId, Spec>,
    completed: set<TaskId>,
    canceled: set<TaskId>,
    starts: map<TaskId, int>,
    recoveries: map<TaskId, int>)
  {
    function Hold(db': Database, tok: Token, ph: Phase): System {
      this.(db := db', live := live[tok := ph])
    }

    function Release(db': Database, tok: Token): System {
      this.(db := db', live := live - {tok})
    }

    function Serve(db': Database, q: nat, r: Request): System {
      this.(db := db', requests := requests[q := r])
    }

    function Finish(db': Database, q: nat): System {
      this.(db := db', requests := requests - {q})
    }
  }

  function Start(retention: bool, minIdle: Time): System {
    System(retention, minIdle, EMPTY, map[], map[], map[], {}, {}, map[], map[])
  }

  /** The commands of a worker: processNextTask and the two handlers of its outcome. */
  datatype WorkerStep =
    | Load
    | AckMissing
    | Begin(worker: string, now: Time)
    | Succeed(now: Time)
    | FailRetry(message: string, now: Time, delay: Time)
    | StoreAgain
    | Reschedule
    | FailFinal(message: string, now: Time)
    | Entomb(now: Time)
    | IndexDead
    | Ack

  /** The commands of orphan recovery for one message; the final Ack is a worker's. */
  datatype RecoveryStep =
    | Claim(consumer: string, now: Time)
    | LoadOrphan(now: Time)
    | StoreOrphan
    | AppendOrphan

  /** The commands of DLQ.Retry. */
  datatype DlqStep =
    | Pick(now: Time)
    | Restore
    | Reappend
    | RemoveDead
    | UnindexDead

  /** The commands of Create, Cancel and RetryTask. */
  datatype ApiStep =
    | Submit(t: Record)
    | SubmitAppend
    | SubmitSchedule
    | CancelLoad(id: TaskId, now: Time)
    | CancelStore
    | AdminLoad(id: TaskId, now: Time)
    | AdminStore
    | AdminStoreAgain
    | AdminAppend
    | Drop

  datatype Event =
    | Read(consumer: string, now: Time)
    | Worker(tok: Token, w: WorkerStep)
    | Recovery(tok: Token, r: RecoveryStep)
    | DlqRetry(tok: Token, d: DlqStep)
    | Crash(tok: Token)
    | Api(q: nat, a: ApiStep)
    | Activate(id: TaskId, now: Time)
    | Expire(id: TaskId)

  // ---------------------------------------------------------------------------
  // Carriers.
  // ---------------------------------------------------------------------------

  /** A carrier of a task: an unacknowledged message while the record exists, or a dead-letter
      entry, which holds a copy of the record. */
  predicate Backs(db: Database, id: TaskId, c: Token) {
    match c
    case Msg(p, m) => id in db.records && db.streams.Of(p).Open(m) && db.streams.Of(p).log[m] == id
    case Dead(d) => d < |db.dlq| && db.dlq[d].Some? && db.dlq[d].value.id == id
  }

  /** 0: about to be acknowledged or deleted. 1: acknowledged once the scheduled entry exists.
      3: its holder has stored nothing yet. */
  function Firmness(ph: Phase): nat {
    match ph
    case Missing => 0
    case Entombed(_) => 0
    case Settled(_) => 0
    case Reappended(_) => 0
    case Removed(_) => 0
    case RetryStored(_) => 1
    case RetryStoredTwice(_) => 1
    case Picked(_) => 3
    case _ => 2
  }

  function Strength(live: map<Token, Phase>, c: Token): nat {
    if c in live then Firmness(live[c]) else 3
  }

  predicate Done(s: System, id: TaskId) {
    id in s.completed || id in s.canceled
  }

  // ---------------------------------------------------------------------------
  // Enabledness: program order, plus the hypotheses under which the protocol is safe.
  // ---------------------------------------------------------------------------

  predicate WorkerEnabled(s: System, tok: Token, w: WorkerStep) {
    && tok in s.live && tok.Msg? && tok.m < |s.db.streams.Of(tok.p).log|
    && var ph := s.live[tok];
       match w
       case Load => ph.Fetched?
       case AckMissing => ph.Missing?
       case Begin(_, _) => ph.Loaded?
       case Succeed(_) => ph.Executing?
       case FailRetry(_, _, _) => ph.Executing? && ph.t.CanRetry()
       case StoreAgain => ph.RetryStored?
       case Reschedule => ph.RetryStoredTwice? && ph.t.scheduledAt.Some?
       case FailFinal(_, _) => ph.Executing? && !ph.t.CanRetry()
       case Entomb(_) => ph.FailStored?
       case IndexDead => ph.Entombed?
       case Ack => ph.Settled?
  }

  predicate RecoveryEnabled(s: System, tok: Token, r: RecoveryStep) {
    && tok.Msg? && tok.m < |s.db.streams.Of(tok.p).log|
    && match r
       // Hypothesis: a message is claimed only when the process that holds it is gone.
       case Claim(_, now) =>
         && tok !in s.live
         && tok.m in s.db.streams.Of(tok.p).pel && now - s.db.streams.Of(tok.p).pel[tok.m].since >= s.minIdle
       case LoadOrphan(_) => tok in s.live && s.live[tok].Claimed?
       case StoreOrphan => tok in s.live && s.live[tok].Orphan?
       case AppendOrphan => tok in s.live && s.live[tok].OrphanStored?
  }

  /** DLQ.List order: the scan of Retry stops at the first entry of the task. */
  predicate FirstEntry(db: Database, d: MessageId) {
    && d < |db.dlq| && db.dlq[d].Some?
    && forall i | 0 <= i < d && db.dlq[i].Some? :: db.dlq[i].value.id != db.dlq[d].value.id
  }

  predicate DlqEnabled(s: System, tok: Token, d: DlqStep) {
    && tok.Dead?
    && match d
       // Hypothesis: one dead-letter entry is retried by one request at a time.
       case Pick(_) => tok !in s.live && FirstEntry(s.db, tok.d) && s.db.dlq[tok.d].value.state.CanTransitionTo(Pending)
       case Restore => tok in s.live && s.live[tok].Picked?
       case Reappend => tok in s.live && s.live[tok].Restored?
       case RemoveDead => tok in s.live && s.live[tok].Reappended?
       case UnindexDead => tok in s.live && s.live[tok].Removed?
  }

  /** A new UUID, never seen before. */
  predicate Unused(s: System, id: TaskId) {
    && id !in s.created && id !in s.db.records
    && forall r | r in s.requests && s.requests[r].Creating? :: s.requests[r].t.id != id
  }

  predicate CanBeCanceled(s: State) {
    s.Pending? || s.Scheduled? || s.Retrying?
  }

  predicate CanBeRetried(s: State) {
    s.Failed? || s.DeadLetter?
  }

  /** Every unfinished state but Running can be canceled; every final one that can be left at all can
      be retried, and no other. */
  lemma CancelableAndRetriable(s: State)
    ensures CanBeCanceled(s) <==> s.CanTransitionTo(Canceled) && s != Running
    ensures CanBeCanceled(s) <==> s in {Pending, Scheduled, Retrying}
    ensures CanBeRetried(s) <==> s.IsFinal() && s.CanTransitionTo(Pending)
    ensures CanBeRetried(s) <==> s in {Failed, DeadLetter}
  {
  }

  predicate NotDeferred(db: Database, id: TaskId) {
    id in db.records ==> !db.records[id].state.IsDeferred()
  }

  /** Some carrier of the task is not about to be given up. */
  ghost predicate Kept(s: System, id: TaskId) {
    exists c :: Backs(s.db, id, c) && Strength(s.live, c) >= 2
  }

  /** A store of Pending makes the scheduled entry of the task one that the scheduler drops. */
  ghost predicate MayStorePending(s: System, id: TaskId) {
    NotDeferred(s.db, id) || Kept(s, id) || Done(s, id)
  }

  ghost predicate ApiEnabled(s: System, q: nat, a: ApiStep) {
    match a
    case Submit(t) =>
      && q !in s.requests && Unused(s, t.id)
      && t.attempts == 0 && t.maxRetries >= 1
      && (t.state == Pending || (t.state == Scheduled && t.scheduledAt.Some?))
    case SubmitAppend => q in s.requests && s.requests[q].Creating? && s.requests[q].t.state == Pending
    case SubmitSchedule =>
      && q in s.requests && s.requests[q].Creating?
      && s.requests[q].t.state == Scheduled && s.requests[q].t.scheduledAt.Some?
    // Clients learn a task's id from the reply of a successful submission.
    case CancelLoad(id, _) =>
      && q !in s.requests && id in s.created && id in s.db.records
      && CanBeCanceled(s.db.records[id].state)
    case CancelStore => q in s.requests && s.requests[q].Canceling?
    case AdminLoad(id, _) =>
      && q !in s.requests && id in s.created && id in s.db.records
      && CanBeRetried(s.db.records[id].state)
    // Hypothesis: an administrator's retry does not store the record, the first or the second time,
    // while the task waits to be retried and its scheduled entry is all that carries it.
    case AdminStore => q in s.requests && s.requests[q].AdminLoaded? && MayStorePending(s, s.requests[q].t.id)
    case AdminStoreAgain => q in s.requests && s.requests[q].AdminStored? && MayStorePending(s, s.requests[q].t.id)
    case AdminAppend => q in s.requests && s.requests[q].AdminStoredTwice?
    case Drop => q in s.requests
  }

  /** Hypothesis: the record of an unfinished task expires only while a dead-letter entry holds a copy
      of it that no request has begun to restore. */
  ghost predicate ExpiryAllowed(s: System, id: TaskId) {
    Done(s, id) || exists d :: Backs(s.db, id, Dead(d)) && Strength(s.live, Dead(d)) == 3
  }

  ghost predicate Enabled(s: System, e: Event) {
    match e
    case Read(_, _) => s.db.FirstReady().Some?
    case Worker(tok, w) => WorkerEnabled(s, tok, w)
    case Recovery(tok, r) => RecoveryEnabled(s, tok, r)
    case DlqRetry(tok, d) => DlqEnabled(s, tok, d)
    case Crash(tok) => tok in s.live
    case Api(q, a) => ApiEnabled(s, q, a)
    // Hypothesis: activation of a due task is one step.
    case Activate(id, now) => id in s.db.scheduled && s.db.scheduled[id] <= UnixSeconds(now)
    case Expire(id) => id in s.db.expiring && ExpiryAllowed(s, id)
  }

  // ---------------------------------------------------------------------------
  // Effects.
  // ---------------------------------------------------------------------------

  function Tally(counts: map<TaskId, int>, id: TaskId): int {
    if id in counts then counts[id] else 0
  }

  function WorkerNext(s: System, tok: Token, w: WorkerStep): System
    requires WorkerEnabled(s, tok, w)
  {
    var db, ph := s.db, s.live[tok];
    match w
    case Load =>
      var id := db.streams.Of(tok.p).log[tok.m];
      s.Hold(db, tok, if id in db.records then Loaded(db.records[id]) else Missing)
    case AckMissing => s.Release(db.Ack(tok.p, tok.m), tok)
    case Begin(worker, now) =>
      if ph.t.state.CanTransitionTo(Running) then
        var t := Started(ph.t, worker, now);
        s.Hold(db.Update(t, s.retention), tok, Executing(t)).(starts := s.starts[t.id := Tally(s.starts, t.id) + 1])
      else
        s.Release(db, tok)
    case Succeed(now) =>
      var t := Succeeded(ph.t, now);
      s.Hold(db.Update(t, s.retention), tok, Settled(t)).(completed := s.completed + {t.id})
    case FailRetry(message, now, delay) =>
      var t := FailedForRetry(ph.t, message, now, delay);
      s.Hold(db.Update(t, s.retention), tok, RetryStored(t))
    case StoreAgain => s.Hold(db.Save(ph.t, false), tok, RetryStoredTwice(ph.t))
    case Reschedule => s.Hold(db.Schedule(ph.t.id, UnixSeconds(ph.t.scheduledAt.value)), tok, Settled(ph.t))
    case FailFinal(message, now) =>
      var t := Errored(ph.t, message, now);
      s.Hold(db.Update(t, s.retention), tok, FailStored(t))
    case Entomb(now) =>
      var t := Buried(ph.t, now);
      s.Hold(db.DlqAppend(t), tok, Entombed(t))
    case IndexDead => s.Hold(db.DlqIndex(ph.t.id), tok, Settled(ph.t))
    // The stream acknowledged on is the one of the record's priority.
    case Ack => s.Release(db.Ack(ph.t.priority, tok.m), tok)
  }

  function RecoveryNext(s: System, tok: Token, r: RecoveryStep): System
    requires RecoveryEnabled(s, tok, r)
  {
    var db := s.db;
    match r
    case Claim(consumer, now) => s.Hold(db.Claim(tok.p, tok.m, s.minIdle, consumer, now), tok, Claimed)
    case LoadOrphan(now) =>
      var id := db.streams.Of(tok.p).log[tok.m];
      if id in db.records then s.Hold(db, tok, Orphan(Prepared(db.records[id], now))) else s.Release(db, tok)
    case StoreOrphan =>
      var t := s.live[tok].t;
      var recoveries := s.recoveries[t.id := Tally(s.recoveries, t.id) + 1];
      s.Hold(db.Save(t, false), tok, OrphanStored(t)).(recoveries := recoveries)
    case AppendOrphan =>
      var t := s.live[tok].t;
      s.Hold(db.Append(t.priority, t.id), tok, Settled(t))
  }

  function DlqNext(s: System, tok: Token, d: DlqStep): System
    requires DlqEnabled(s, tok, d)
  {
    var db := s.db;
    match d
    case Pick(now) => s.Hold(db, tok, Picked(Requeued(db.dlq[tok.d].value, now)))
    case Restore =>
      var t := s.live[tok].t;
      s.Hold(db.Save(t, false), tok, Restored(t)).(starts := s.starts[t.id := 0], recoveries := s.recoveries[t.id := 0])
    case Reappend =>
      var t := s.live[tok].t;
      s.Hold(db.Append(t.priority, t.id), tok, Reappended(t))
    case RemoveDead => s.Hold(db.DlqDelete(tok.d), tok, Removed(s.live[tok].t))
    case UnindexDead => s.Release(db.DlqUnindex(s.live[tok].t.id), tok)
  }

  function Accepted(s: System, t: Record): System {
    s.(created := s.created[t.id := Spec(t.priority, t.maxRetries)])
  }

  function ApiNext(s: System, q: nat, a: ApiStep): System
    requires ApiEnabled(s, q, a)
  {
    var db := s.db;
    match a
    case Submit(t) => s.Serve(db.Save(t, false), q, Creating(t))
    case SubmitAppend =>
      var t := s.requests[q].t;
      Accepted(s.Finish(db.Append(t.priority, t.id), q), t)
    case SubmitSchedule =>
      var t := s.requests[q].t;
      Accepted(s.Finish(db.Schedule(t.id, UnixSeconds(t.scheduledAt.value)), q), t)
    case CancelLoad(id, now) => s.Serve(db, q, Canceling(Moved(db.records[id], Canceled, now)))
    case CancelStore =>
      var t := s.requests[q].t;
      s.Finish(db.Update(t, s.retention), q).(canceled := s.canceled + {t.id})
    case AdminLoad(id, now) => s.Serve(db, q, AdminLoaded(Requeued(db.records[id], now)))
    case AdminStore =>
      var t := s.requests[q].t;
      var starts, recoveries := s.starts[t.id := 0], s.recoveries[t.id := 0];
      s.Serve(db.Update(t, s.retention), q, AdminStored(t)).(starts := starts, recoveries := recoveries)
    case AdminStoreAgain =>
      var t := s.requests[q].t;
      s.Serve(db.Save(t, false), q, AdminStoredTwice(t))
    case AdminAppend =>
      var t := s.requests[q].t;
      s.Finish(db.Append(t.priority, t.id), q)
    case Drop => s.Finish(db, q)
  }

  /** activateTask for one member of the scheduled set. */
  function Activated(db: Database, id: TaskId, retention: bool, now: Time): Database {
    if id in db.records && db.records[id].state.IsDeferred() then
      var t := Moved(db.records[id], Pending, now);
      db.Update(t, retention).Append(t.priority, t.id).Unschedule(id)
    else
      db.Unschedule(id)
  }

  function Next(s: System, e: Event): System
    requires Enabled(s, e)
  {
    match e
    case Read(consumer, now) =>
      var p := s.db.FirstReady().value;
      s.Hold(s.db.ReadGroup(consumer, now), Msg(p, s.db.streams.Of(p).next), Fetched)
    case Worker(tok, w) => WorkerNext(s, tok, w)
    case Recovery(tok, r) => RecoveryNext(s, tok, r)
    case DlqRetry(tok, d) => DlqNext(s, tok, d)
    case Crash(tok) => s.Release(s.db, tok)
    case Api(q, a) => ApiNext(s, q, a)
    case Activate(id, now) => s.(db := Activated(s.db, id, s.retention, now))
    case Expire(id) => s.(db := s.db.Delete(id))
  }

  // ---------------------------------------------------------------------------
  // Runs.
  // ---------------------------------------------------------------------------

  /** The states of a run, from its initial state on: one per event. */
  ghost predicate IsRun(states: seq<System>, events: seq<Event>) {
    && |states| == |events| + 1
    && forall i | 0 <= i < |events| :: Enabled(states[i], events[i]) && states[i + 1] == Next(states[i], events[i])
  }

  /** The events are enabled one after the other and end in s'. */
  ghost predicate Leads(s: System, events: seq<Event>, s': System)
    decreases |events|
  {
    if events == [] then s' == s else Enabled(s, events[0]) && Leads(Next(s, events[0]), events[1..], s')
  }

  /** The event issues a writing command. */
  predicate Writes(s: System, e: Event) {
    match e
    case Worker(tok, w) =>
      !w.Load? && !(w.Begin? && tok in s.live && s.live[tok].Loaded? && !s.live[tok].t.state.CanTransitionTo(Running))
    case Recovery(_, r) => !r.LoadOrphan?
    case DlqRetry(_, d) => !d.Pick?
    case Api(_, a) => !a.CancelLoad? && !a.AdminLoad? && !a.Drop?
    case Crash(_) => false
    case Read(_, _) => true
    case Activate(_, _) => true
    case Expire(_) => true
  }

  function Written(s: System, e: Event, s': System): seq<Database> {
    if Writes(s, e) then [s'.db] else []
  }

  /** The databases after each writing command of the events. */
  ghost function Databases(s: System, events: seq<Event>): seq<Database>
    decreases |events|
  {
    if events == [] || !Enabled(s, events[0]) then []
    else Written(s, events[0], Next(s, events[0])) + Databases(Next(s, events[0]), events[1..])
  }

  lemma OneMore(s: System, e: Event, rest: seq<Event>, s1: System, s': System)
    requires Enabled(s, e) && Next(s, e) == s1 && Leads(s1, rest, s')
    ensures Leads(s, [e] + rest, s')
    ensures Databases(s, [e] + rest) == Written(s, e, s1) + Databases(s1, rest)
  {
    assert ([e] + rest)[1..] == rest;
  }
}
