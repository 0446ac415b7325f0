/** The course of a task whose handler always fails: where the task is after every step, while other
    tasks, requests and crashes interleave freely. */
module FailureCourse {
  import opened Tasks
  import opened Store
  import opened Protocol
  import opened Shape
  import opened NoLoss
  import D = Dlq

  // ---------------------------------------------------------------------------
  // The hypothesis.
  // ---------------------------------------------------------------------------

  predicate MessageOf(streams: Streams, tok: Token, id: TaskId) {
    tok.Msg? && tok.m < |streams.Of(tok.p).log| && streams.Of(tok.p).log[tok.m] == id
  }

  /** The handler of the task fails, and nobody interferes: the process that holds its message does
      not crash, no read hands its message out beside another one, and nobody cancels or retries it
      by request. */
  ghost predicate Undisturbed(s: System, e: Event, id: TaskId) {
    match e
    case Read(_, _) => forall p: Priority | Ready(s.db.streams.Of(p), id) :: s.db.FirstReady() == Option.Some(p)
    case Worker(tok, w) => !(MessageOf(s.db.streams, tok, id) && w.Succeed?)
    case Recovery(_, _) => true
    case DlqRetry(tok, d) => !(d.Pick? && tok.Dead? && Backs(s.db, id, tok))
    case Crash(tok) => !MessageOf(s.db.streams, tok, id)
    case Api(_, a) => !(a.CancelLoad? && a.id == id) && !(a.AdminLoad? && a.id == id)
    case Activate(_, _) => true
    case Expire(_) => true
  }

  /** The next message of the stream is for the task. */
  predicate Ready(s: Stream, id: TaskId) {
    s.next < |s.log| && s.log[s.next] == id
  }

  // ---------------------------------------------------------------------------
  // Where the task is.
  // ---------------------------------------------------------------------------

  datatype Stage =
    | Queued(p: Priority, m: MessageId)   // undelivered
    | Held(tok: Token)                    // delivered; its worker has not handed it on yet
    | Waits(due: Time)                    // in the scheduled set
    | Ended                               // in the dead-letter queue for good

  function Main(st: Stage): Option<Token> {
    match st
    case Queued(p, m) => Option.Some(Msg(p, m))
    case Held(tok) => Option.Some(tok)
    case Waits(_) => Option.None
    case Ended => Option.None
  }

  /** All its other messages are merely waiting to be acknowledged by their workers. */
  ghost predicate Spare(streams: Streams, live: map<Token, Phase>, id: TaskId, main: Option<Token>) {
    forall p: Priority, m | 0 <= m < |streams.Of(p).log| && streams.Of(p).log[m] == id && m !in streams.Of(p).acked ::
      IsSpare(live, Msg(p, m), main)
  }

  predicate IsSpare(live: map<Token, Phase>, tok: Token, main: Option<Token>) {
    Option.Some(tok) == main || (tok in live && live[tok].Settled?)
  }

  ghost predicate Quiet(live: map<Token, Phase>, requests: map<nat, Request>, id: TaskId) {
    && (forall tok | tok in live && tok.Dead? && HasTask(live[tok]) :: live[tok].t.id != id)
    && (forall q | q in requests :: requests[q].t.id != id)
  }

  ghost predicate NoEntry(dlq: seq<Option<Record>>, id: TaskId) {
    forall d :: !D.EntryOf(dlq, d, id)
  }

  ghost predicate OneEntry(dlq: seq<Option<Record>>, id: TaskId) {
    exists d :: D.EntryOf(dlq, d, id) && forall x :: D.EntryOf(dlq, x, id) ==> x == d
  }

  predicate Stored(records: map<TaskId, Record>, id: TaskId, attempts: int) {
    id in records && records[id].attempts == attempts
  }

  /** What a worker that holds the task's message knows, after c executions of at most max. */
  ghost predicate HeldAt(records: map<TaskId, Record>, dlq: seq<Option<Record>>, id: TaskId, ph: Phase, c: int,
                         max: int) {
    match ph
    case Fetched => Stored(records, id, c) && records[id].state.Pending? && c < max && NoEntry(dlq, id)
    case Loaded(t) => Stored(records, id, c) && records[id] == t && t.state.Pending? && c < max && NoEntry(dlq, id)
    case Executing(t) => Stored(records, id, c) && records[id] == t && t.state.Running? && 1 <= c <= max
      && NoEntry(dlq, id)
    case RetryStored(t) => Stored(records, id, c) && records[id] == t && t.state.Retrying? && 1 <= c < max
      && NoEntry(dlq, id)
    case RetryStoredTwice(t) => Stored(records, id, c) && records[id] == t && t.state.Retrying? && 1 <= c < max
      && NoEntry(dlq, id)
    case FailStored(t) => c == max && NoEntry(dlq, id)
    case Entombed(t) => c == max && OneEntry(dlq, id)
    case _ => false
  }

  ghost predicate At(db: Database, live: map<Token, Phase>, id: TaskId, st: Stage, c: int, max: int) {
    match st
    case Queued(p, m) =>
      && db.streams.Of(p).next <= m && MessageOf(db.streams, Msg(p, m), id)
      && Stored(db.records, id, c) && db.records[id].state.Pending? && c < max && NoEntry(db.dlq, id)
           && id !in db.scheduled
    case Held(tok) =>
      && MessageOf(db.streams, tok, id) && tok in live && id !in db.scheduled
           && HeldAt(db.records, db.dlq, id, live[tok], c, max)
    case Waits(due) =>
      && Stored(db.records, id, c) && db.records[id].state.IsDeferred() && c < max && NoEntry(db.dlq, id)
      && db.records[id].scheduledAt == Option.Some(due)
      && id in db.scheduled && db.scheduled[id] == UnixSeconds(due)
    case Ended => c == max && OneEntry(db.dlq, id) && id !in db.scheduled
  }

  ghost predicate Course(s: System, id: TaskId, st: Stage, c: int) {
    && id in s.created && 0 <= c && 1 <= s.created[id].maxRetries
    && At(s.db, s.live, id, st, c, s.created[id].maxRetries)
    && Spare(s.db.streams, s.live, id, Main(st))
    && Quiet(s.live, s.requests, id)
  }

  // ---------------------------------------------------------------------------
  // How an event moves it.
  // ---------------------------------------------------------------------------

  /** The retry time in the holder's copy. */
  function DueAt(live: map<Token, Phase>, tok: Token): Time {
    if tok in live && HasTask(live[tok]) && live[tok].t.scheduledAt.Some? then live[tok].t.scheduledAt.value else 0
  }

  function Advanced(s: System, e: Event, id: TaskId, st: Stage): Stage {
    match st
    case Queued(p, m) =>
      if e.Read? && s.db.FirstReady() == Option.Some(p) && s.db.streams.Of(p).next == m then Held(Msg(p, m)) else st
    case Held(tok) =>
      if e.Worker? && e.tok == tok && e.w.Reschedule? then Waits(DueAt(s.live, tok))
      else if e.Worker? && e.tok == tok && e.w.IndexDead? then Ended
      else st
    case Waits(_) =>
      if e.Activate? && e.id == id && id in s.db.records then
        Queued(s.db.records[id].priority, |s.db.streams.Of(s.db.records[id].priority).log|)
      else st
    case Ended => st
  }

  predicate IsStart(e: Event, st: Stage) {
    e.Worker? && e.w.Begin? && st == Held(e.tok)
  }

  /** The event is the task's own next step. */
  predicate Moves(s: System, e: Event, id: TaskId, st: Stage) {
    match st
    case Queued(p, m) => e.Read? && s.db.FirstReady() == Option.Some(p) && s.db.streams.Of(p).next == m
    case Held(tok) => e.Worker? && e.tok == tok
    case Waits(_) => e.Activate? && e.id == id
    case Ended => false
  }

  // ---------------------------------------------------------------------------
  // Everybody else's steps.
  // ---------------------------------------------------------------------------

  /** The record plays no part any more. */
  predicate Late(live: map<Token, Phase>, st: Stage) {
    st.Ended? || (st.Held? && st.tok in live && (live[st.tok].FailStored? || live[st.tok].Entombed?))
  }

  /** Changes of the database that leave the task's carriers, record and entries alone. */
  ghost predicate Spares(db: Database, db': Database, id: TaskId, st: Stage, late: bool) {
    && (late || (id in db.records ==> id in db'.records && db'.records[id] == db.records[id]))
    && (id in db'.scheduled <==> id in db.scheduled)
    && (id in db.scheduled ==> db'.scheduled[id] == db.scheduled[id])
    && (forall d :: D.EntryOf(db'.dlq, d, id) <==> D.EntryOf(db.dlq, d, id))
    && (st.Queued? && db.streams.Of(st.p).next <= st.m ==> db'.streams.Of(st.p).next <= st.m)
    && (forall p: Priority :: Grows(db.streams.Of(p), db'.streams.Of(p), id))
  }

  ghost predicate Grows(s: Stream, s': Stream, id: TaskId) {
    && |s.log| <= |s'.log| && s.acked <= s'.acked
    && (forall m | 0 <= m < |s.log| :: s'.log[m] == s.log[m])
    && (forall m | |s.log| <= m < |s'.log| :: s'.log[m] != id)
  }

  lemma EntriesKept(dlq: seq<Option<Record>>, dlq': seq<Option<Record>>, id: TaskId)
    requires forall d :: D.EntryOf(dlq', d, id) <==> D.EntryOf(dlq, d, id)
    ensures NoEntry(dlq, id) ==> NoEntry(dlq', id)
    ensures OneEntry(dlq, id) ==> OneEntry(dlq', id)
  {
  }

  lemma SparedOn(s: System, db': Database, id: TaskId, st: Stage, c: int)
    requires Course(s, id, st, c) && Spares(s.db, db', id, st, Late(s.live, st))
    ensures Course(s.(db := db'), id, st, c)
  {
    EntriesKept(s.db.dlq, db'.dlq, id);
    forall p: Priority, m | 0 <= m < |db'.streams.Of(p).log| && db'.streams.Of(p).log[m] == id
      && m !in db'.streams.Of(p).acked
      ensures IsSpare(s.live, Msg(p, m), Main(st))
    {
      assert Grows(s.db.streams.Of(p), db'.streams.Of(p), id);
      assert s.db.streams.Of(p).log[m] == id;
    }
    match st
    case Queued(p, m) => assert Grows(s.db.streams.Of(p), db'.streams.Of(p), id);
    case Held(tok) => assert Grows(s.db.streams.Of(tok.p), db'.streams.Of(tok.p), id);
    case Waits(_) =>
    case Ended =>
  }

  // One lemma per kind of effect.

  lemma HoldOn(s: System, tok: Token, ph: Phase, id: TaskId, st: Stage, c: int)
    requires Course(s, id, st, c) && !MessageOf(s.db.streams, tok, id)
    requires tok.Dead? && HasTask(ph) ==> ph.t.id != id
    ensures Course(s.Hold(s.db, tok, ph), id, st, c)
  {
  }

  lemma ReleaseOn(s: System, tok: Token, id: TaskId, st: Stage, c: int)
    requires Course(s, id, st, c) && st != Held(tok)
    requires MessageOf(s.db.streams, tok, id) ==> tok.m in s.db.streams.Of(tok.p).acked
    ensures Course(s.Release(s.db, tok), id, st, c)
  {
  }

  lemma RequestOn(s: System, requests: map<nat, Request>, id: TaskId, st: Stage, c: int)
    requires Course(s, id, st, c) && forall q | q in requests :: requests[q].t.id != id
    ensures Course(s.(requests := requests), id, st, c)
  {
  }

  lemma SaveOn(s: System, r: Record, ttl: bool, id: TaskId, st: Stage, c: int)
    requires Course(s, id, st, c) && r.id != id
    ensures Course(s.(db := s.db.Save(r, ttl)), id, st, c)
  {
    SparedOn(s, s.db.Save(r, ttl), id, st, c);
  }

  lemma DeleteOn(s: System, i: TaskId, id: TaskId, st: Stage, c: int)
    requires Course(s, id, st, c) && (i != id || Late(s.live, st))
    ensures Course(s.(db := s.db.Delete(i)), id, st, c)
  {
    SparedOn(s, s.db.Delete(i), id, st, c);
  }

  lemma AppendOn(s: System, p: Priority, i: TaskId, id: TaskId, st: Stage, c: int)
    requires Course(s, id, st, c) && i != id
    ensures Course(s.(db := s.db.Append(p, i)), id, st, c)
  {
    SparedOn(s, s.db.Append(p, i), id, st, c);
  }

  lemma AckOn(s: System, p: Priority, m: MessageId, id: TaskId, st: Stage, c: int)
    requires Course(s, id, st, c)
    ensures Course(s.(db := s.db.Ack(p, m)), id, st, c)
  {
    SparedOn(s, s.db.Ack(p, m), id, st, c);
  }

  lemma ClaimOn(s: System, p: Priority, m: MessageId, consumer: string, now: Time, id: TaskId, st: Stage, c: int)
    requires Course(s, id, st, c)
    ensures Course(s.(db := s.db.Claim(p, m, s.minIdle, consumer, now)), id, st, c)
  {
    SparedOn(s, s.db.Claim(p, m, s.minIdle, consumer, now), id, st, c);
  }

  lemma ScheduleOn(s: System, i: TaskId, score: int, id: TaskId, st: Stage, c: int)
    requires Course(s, id, st, c) && i != id
    ensures Course(s.(db := s.db.Schedule(i, score)), id, st, c)
    ensures Course(s.(db := s.db.Unschedule(i)), id, st, c)
  {
    SparedOn(s, s.db.Schedule(i, score), id, st, c);
    SparedOn(s, s.db.Unschedule(i), id, st, c);
  }

  lemma IndexOn(s: System, i: TaskId, id: TaskId, st: Stage, c: int)
    requires Course(s, id, st, c)
    ensures Course(s.(db := s.db.DlqIndex(i)), id, st, c)
    ensures Course(s.(db := s.db.DlqUnindex(i)), id, st, c)
  {
  }

  lemma DlqAppendOn(s: System, r: Record, id: TaskId, st: Stage, c: int)
    requires Course(s, id, st, c) && r.id != id
    ensures Course(s.(db := s.db.DlqAppend(r)), id, st, c)
  {
    SparedOn(s, s.db.DlqAppend(r), id, st, c);
  }

  lemma DlqDeleteOn(s: System, d: MessageId, id: TaskId, st: Stage, c: int)
    requires Course(s, id, st, c) && !D.EntryOf(s.db.dlq, d, id)
    ensures Course(s.(db := s.db.DlqDelete(d)), id, st, c)
  {
    SparedOn(s, s.db.DlqDelete(d), id, st, c);
  }

  /** The rest of the system plays no part. */
  lemma HistoryOn(s: System, s': System, id: TaskId, st: Stage, c: int)
    requires Course(s, id, st, c)
    requires s'.db == s.db && s'.live == s.live && s'.requests == s.requests
    requires id in s'.created && s'.created[id] == s.created[id]
    ensures Course(s', id, st, c)
  {
  }

  lemma NextIsFree(s: System, p: Priority)
    requires Shaped(s)
    ensures Msg(p, s.db.streams.Of(p).next) !in s.live
    ensures s.db.streams.Of(p).next !in s.db.streams.Of(p).acked && s.db.streams.Of(p).next !in s.db.streams.Of(p).pel
  {
    assert s.db.streams.Of(p).Valid();
    forall held | held in s.live ensures held != Msg(p, s.db.streams.Of(p).next) {
      assert MayHold(s, held, s.live[held]);
    }
  }

  lemma NothingReady(s: System, e: Event, id: TaskId, st: Stage, c: int)
    requires Shaped(s) && Course(s, id, st, c) && Undisturbed(s, e, id) && e.Read? && !Moves(s, e, id, st)
    ensures forall p: Priority :: !Ready(s.db.streams.Of(p), id)
  {
    forall p: Priority ensures !Ready(s.db.streams.Of(p), id) {
      NextIsFree(s, p);
      var m := s.db.streams.Of(p).next;
      assert Ready(s.db.streams.Of(p), id) ==> IsSpare(s.live, Msg(p, m), Main(st));
    }
  }

  lemma ReadOn(s: System, consumer: string, now: Time, id: TaskId, st: Stage, c: int)
    requires Course(s, id, st, c) && forall p: Priority :: !Ready(s.db.streams.Of(p), id)
    ensures Course(s.(db := s.db.ReadGroup(consumer, now)), id, st, c)
  {
    var db' := s.db.ReadGroup(consumer, now);
    if st.Queued? {
      assert !Ready(s.db.streams.Of(st.p), id);
    }
    SparedOn(s, db', id, st, c);
  }

  lemma OtherRead(s: System, consumer: string, now: Time, id: TaskId, st: Stage, c: int)
    requires Course(s, id, st, c) && s.db.FirstReady().Some? && forall p: Priority :: !Ready(s.db.streams.Of(p), id)
    ensures Course(Next(s, Read(consumer, now)), id, st, c)
  {
    var p := s.db.FirstReady().value;
    assert !Ready(s.db.streams.Of(p), id);
    ReadOn(s, consumer, now, id, st, c);
    HoldOn(s.(db := s.db.ReadGroup(consumer, now)), Msg(p, s.db.streams.Of(p).next), Fetched, id, st, c);
  }

  /** A held message of the task is the main one, or settled. */
  lemma HeldMessage(s: System, tok: Token, id: TaskId, st: Stage, c: int)
    requires Shaped(s) && Course(s, id, st, c) && tok in s.live && MessageOf(s.db.streams, tok, id)
    ensures st == Held(tok) || s.live[tok].Settled?
  {
    assert MayHold(s, tok, s.live[tok]);
    assert s.db.streams.Of(tok.p).Valid();
    assert s.db.streams.Of(tok.p).log[tok.m] == id;
    assert IsSpare(s.live, tok, Main(st));
  }

  lemma SpareAck(s: System, tok: Token, id: TaskId, st: Stage, c: int)
    requires Shaped(s) && Course(s, id, st, c) && WorkerEnabled(s, tok, Ack) && st != Held(tok)
    ensures Course(WorkerNext(s, tok, Ack), id, st, c)
  {
    assert MayHold(s, tok, s.live[tok]);
    assert s.live[tok].t.priority == tok.p;
    AckOn(s, tok.p, tok.m, id, st, c);
    ReleaseOn(s.(db := s.db.Ack(tok.p, tok.m)), tok, id, st, c);
  }

  /** Storing the record of another task and holding on. */
  lemma StoreOn(s: System, r: Record, tok: Token, ph: Phase, s': System, id: TaskId, st: Stage, c: int)
    requires Course(s, id, st, c) && !MessageOf(s.db.streams, tok, id) && r.id != id
    requires tok.Dead? && HasTask(ph) ==> ph.t.id != id
    requires s'.db == s.db.Update(r, s.retention) || s'.db == s.db.Save(r, false)
    requires s'.live == s.live[tok := ph] && s'.requests == s.requests && s'.created == s.created
    ensures Course(s', id, st, c)
  {
    SaveOn(s, r, if s'.db == s.db.Save(r, false) then false else r.state.IsFinal() && s.retention, id, st, c);
    HoldOn(s.(db := s'.db), tok, ph, id, st, c);
    HistoryOn(s.(db := s'.db).Hold(s'.db, tok, ph), s', id, st, c);
  }

  lemma StrangeBegin(s: System, tok: Token, worker: string, now: Time, id: TaskId, st: Stage, c: int)
    requires Shaped(s) && Course(s, id, st, c) && WorkerEnabled(s, tok, Begin(worker, now))
    requires !MessageOf(s.db.streams, tok, id)
    ensures Course(WorkerNext(s, tok, Begin(worker, now)), id, st, c)
  {
    assert MayHold(s, tok, s.live[tok]);
    var t := s.live[tok].t;
    if t.state.CanTransitionTo(Running) {
      StoreOn(s, Started(t, worker, now), tok, Executing(Started(t, worker, now)),
        WorkerNext(s, tok, Begin(worker, now)), id, st, c);
    } else {
      ReleaseOn(s, tok, id, st, c);
    }
  }

  lemma StrangeFailRetry(s: System, tok: Token, message: string, now: Time, delay: Time, id: TaskId, st: Stage, c: int)
    requires Shaped(s) && Course(s, id, st, c) && WorkerEnabled(s, tok, FailRetry(message, now, delay))
    requires !MessageOf(s.db.streams, tok, id)
    ensures Course(WorkerNext(s, tok, FailRetry(message, now, delay)), id, st, c)
  {
    assert MayHold(s, tok, s.live[tok]);
    var t := FailedForRetry(s.live[tok].t, message, now, delay);
    StoreOn(s, t, tok, RetryStored(t), WorkerNext(s, tok, FailRetry(message, now, delay)), id, st, c);
  }

  lemma StrangeStore(s: System, tok: Token, w: WorkerStep, id: TaskId, st: Stage, c: int)
    requires Shaped(s) && Course(s, id, st, c) && WorkerEnabled(s, tok, w) && !MessageOf(s.db.streams, tok, id)
    requires w.Succeed? || w.StoreAgain? || w.FailFinal?
    ensures Course(WorkerNext(s, tok, w), id, st, c)
  {
    assert MayHold(s, tok, s.live[tok]);
    var t, s' := s.live[tok].t, WorkerNext(s, tok, w);
    match w
    case Succeed(now) => StoreOn(s, Succeeded(t, now), tok, s'.live[tok], s', id, st, c);
    case StoreAgain => StoreOn(s, t, tok, s'.live[tok], s', id, st, c);
    case FailFinal(message, now) => StoreOn(s, Errored(t, message, now), tok, s'.live[tok], s', id, st, c);
  }

  lemma StrangeWorker(s: System, tok: Token, w: WorkerStep, id: TaskId, st: Stage, c: int)
    requires Shaped(s) && Course(s, id, st, c) && WorkerEnabled(s, tok, w) && !MessageOf(s.db.streams, tok, id)
    requires w.Load? || w.AckMissing? || w.Reschedule? || w.Entomb? || w.IndexDead?
    ensures Course(WorkerNext(s, tok, w), id, st, c)
  {
    assert MayHold(s, tok, s.live[tok]);
    var ph, s' := s.live[tok], WorkerNext(s, tok, w);
    match w
    case Load => HoldOn(s, tok, s'.live[tok], id, st, c);
    case AckMissing =>
      AckOn(s, tok.p, tok.m, id, st, c);
      ReleaseOn(s.(db := s'.db), tok, id, st, c);
    case Reschedule =>
      ScheduleOn(s, ph.t.id, UnixSeconds(ph.t.scheduledAt.value), id, st, c);
      HoldOn(s.(db := s'.db), tok, Settled(ph.t), id, st, c);
    case Entomb(now) =>
      DlqAppendOn(s, Tasks.Buried(ph.t, now), id, st, c);
      HoldOn(s.(db := s'.db), tok, Entombed(Tasks.Buried(ph.t, now)), id, st, c);
    case IndexDead =>
      IndexOn(s, ph.t.id, id, st, c);
      HoldOn(s.(db := s'.db), tok, Settled(ph.t), id, st, c);
  }

  lemma OtherWorker(s: System, tok: Token, w: WorkerStep, id: TaskId, st: Stage, c: int)
    requires Shaped(s) && Course(s, id, st, c) && WorkerEnabled(s, tok, w) && st != Held(tok)
    ensures Course(WorkerNext(s, tok, w), id, st, c)
  {
    if MessageOf(s.db.streams, tok, id) {
      HeldMessage(s, tok, id, st, c);
    }
    match w
    case Load => StrangeWorker(s, tok, w, id, st, c);
    case AckMissing => StrangeWorker(s, tok, w, id, st, c);
    case Reschedule => StrangeWorker(s, tok, w, id, st, c);
    case Entomb(_) => StrangeWorker(s, tok, w, id, st, c);
    case IndexDead => StrangeWorker(s, tok, w, id, st, c);
    case Begin(worker, now) => StrangeBegin(s, tok, worker, now, id, st, c);
    case Succeed(_) => StrangeStore(s, tok, w, id, st, c);
    case FailRetry(message, now, delay) => StrangeFailRetry(s, tok, message, now, delay, id, st, c);
    case StoreAgain => StrangeStore(s, tok, w, id, st, c);
    case FailFinal(_, _) => StrangeStore(s, tok, w, id, st, c);
    case Ack => SpareAck(s, tok, id, st, c);
  }

  /** Recovery finds no message of the task. */
  lemma NothingToRecover(s: System, tok: Token, r: RecoveryStep, id: TaskId, st: Stage, c: int)
    requires Shaped(s) && Course(s, id, st, c) && RecoveryEnabled(s, tok, r)
    ensures !MessageOf(s.db.streams, tok, id)
  {
    assert s.db.streams.Of(tok.p).Valid();
    assert MessageOf(s.db.streams, tok, id) && tok.m !in s.db.streams.Of(tok.p).acked ==>
      IsSpare(s.live, tok, Main(st));
    if MessageOf(s.db.streams, tok, id) && !r.Claim? {
      HeldMessage(s, tok, id, st, c);
    }
  }

  lemma OtherStoreOrphan(s: System, tok: Token, id: TaskId, st: Stage, c: int)
    requires Shaped(s) && Course(s, id, st, c) && RecoveryEnabled(s, tok, StoreOrphan)
    requires !MessageOf(s.db.streams, tok, id)
    ensures Course(RecoveryNext(s, tok, StoreOrphan), id, st, c)
  {
    assert MayHold(s, tok, s.live[tok]);
    var t := s.live[tok].t;
    StoreOn(s, t, tok, OrphanStored(t), RecoveryNext(s, tok, StoreOrphan), id, st, c);
  }

  lemma OtherRecovery(s: System, tok: Token, r: RecoveryStep, id: TaskId, st: Stage, c: int)
    requires Shaped(s) && Course(s, id, st, c) && RecoveryEnabled(s, tok, r) && !MessageOf(s.db.streams, tok, id)
    ensures Course(RecoveryNext(s, tok, r), id, st, c)
  {
    assert tok in s.live ==> MayHold(s, tok, s.live[tok]);
    var s' := RecoveryNext(s, tok, r);
    match r
    case Claim(consumer, now) =>
      ClaimOn(s, tok.p, tok.m, consumer, now, id, st, c);
      HoldOn(s.(db := s'.db), tok, Claimed, id, st, c);
    case LoadOrphan(now) =>
      if s.db.streams.Of(tok.p).log[tok.m] in s.db.records {
        HoldOn(s, tok, s'.live[tok], id, st, c);
      } else {
        ReleaseOn(s, tok, id, st, c);
      }
    case StoreOrphan => OtherStoreOrphan(s, tok, id, st, c);
    case AppendOrphan =>
      AppendOn(s, s.live[tok].t.priority, s.live[tok].t.id, id, st, c);
      HoldOn(s.(db := s'.db), tok, s'.live[tok], id, st, c);
  }

  lemma OtherDlq(s: System, tok: Token, d: DlqStep, id: TaskId, st: Stage, c: int)
    requires Shaped(s) && Course(s, id, st, c) && DlqEnabled(s, tok, d) && !(d.Pick? && Backs(s.db, id, tok))
    ensures Course(DlqNext(s, tok, d), id, st, c)
  {
    assert tok in s.live ==> MayHold(s, tok, s.live[tok]);
    var s' := DlqNext(s, tok, d);
    match d
    case Pick(_) => HoldOn(s, tok, s'.live[tok], id, st, c);
    case Restore => StoreOn(s, s.live[tok].t, tok, s'.live[tok], s', id, st, c);
    case Reappend =>
      AppendOn(s, s.live[tok].t.priority, s.live[tok].t.id, id, st, c);
      HoldOn(s.(db := s'.db), tok, s'.live[tok], id, st, c);
    case RemoveDead =>
      DlqDeleteOn(s, tok.d, id, st, c);
      HoldOn(s.(db := s'.db), tok, s'.live[tok], id, st, c);
    case UnindexDead =>
      IndexOn(s, s.live[tok].t.id, id, st, c);
      ReleaseOn(s.(db := s'.db), tok, id, st, c);
  }

  lemma OtherApi(s: System, q: nat, a: ApiStep, id: TaskId, st: Stage, c: int)
    requires Shaped(s) && Course(s, id, st, c) && ApiEnabled(s, q, a)
    requires !(a.CancelLoad? && a.id == id) && !(a.AdminLoad? && a.id == id)
    ensures Course(ApiNext(s, q, a), id, st, c)
  {
    match a
    case Submit(_) => OtherSubmit(s, q, a, id, st, c);
    case SubmitAppend => OtherSubmit(s, q, a, id, st, c);
    case SubmitSchedule => OtherSubmit(s, q, a, id, st, c);
    case CancelLoad(_, _) => OtherBegin(s, q, a, id, st, c);
    case Drop => OtherBegin(s, q, a, id, st, c);
    case AdminLoad(_, _) => OtherBegin(s, q, a, id, st, c);
    case CancelStore => OtherRequest(s, q, a, id, st, c);
    case AdminStore => OtherRequest(s, q, a, id, st, c);
    case AdminStoreAgain => OtherRequest(s, q, a, id, st, c);
    case AdminAppend => OtherRequest(s, q, a, id, st, c);
  }

  lemma OtherBegin(s: System, q: nat, a: ApiStep, id: TaskId, st: Stage, c: int)
    requires Shaped(s) && Course(s, id, st, c) && ApiEnabled(s, q, a) && (a.CancelLoad? || a.AdminLoad? || a.Drop?)
    requires !(a.CancelLoad? && a.id == id) && !(a.AdminLoad? && a.id == id)
    ensures Course(ApiNext(s, q, a), id, st, c)
  {
    RequestOn(s, ApiNext(s, q, a).requests, id, st, c);
  }

  lemma OtherSubmit(s: System, q: nat, a: ApiStep, id: TaskId, st: Stage, c: int)
    requires Shaped(s) && Course(s, id, st, c) && ApiEnabled(s, q, a)
    requires (a.Submit? || a.SubmitAppend? || a.SubmitSchedule?)
    ensures Course(ApiNext(s, q, a), id, st, c)
  {
    var s' := ApiNext(s, q, a);
    match a
    case Submit(t) =>
      SaveOn(s, t, false, id, st, c);
      RequestOn(s.(db := s'.db), s'.requests, id, st, c);
    case SubmitAppend =>
      var t := s.requests[q].t;
      AppendOn(s, t.priority, t.id, id, st, c);
      RequestOn(s.(db := s'.db), s'.requests, id, st, c);
      HistoryOn(s.(db := s'.db, requests := s'.requests), s', id, st, c);
    case SubmitSchedule =>
      var t := s.requests[q].t;
      ScheduleOn(s, t.id, UnixSeconds(t.scheduledAt.value), id, st, c);
      RequestOn(s.(db := s'.db), s'.requests, id, st, c);
      HistoryOn(s.(db := s'.db, requests := s'.requests), s', id, st, c);
  }

  lemma OtherRequest(s: System, q: nat, a: ApiStep, id: TaskId, st: Stage, c: int)
    requires Shaped(s) && Course(s, id, st, c) && ApiEnabled(s, q, a)
    requires a.CancelStore? || a.AdminStore? || a.AdminStoreAgain? || a.AdminAppend?
    ensures Course(ApiNext(s, q, a), id, st, c)
  {
    var s' := ApiNext(s, q, a);
    match a
    case CancelStore => SaveOn(s, s.requests[q].t, s.requests[q].t.state.IsFinal() && s.retention, id, st, c);
    case AdminStore => SaveOn(s, s.requests[q].t, s.requests[q].t.state.IsFinal() && s.retention, id, st, c);
    case AdminStoreAgain => SaveOn(s, s.requests[q].t, false, id, st, c);
    case AdminAppend => AppendOn(s, s.requests[q].t.priority, s.requests[q].t.id, id, st, c);
    RequestOn(s.(db := s'.db), s'.requests, id, st, c);
    HistoryOn(s.(db := s'.db, requests := s'.requests), s', id, st, c);
  }

  lemma EnqueuedOn(s: System, t: Record, i: TaskId, id: TaskId, st: Stage, c: int)
    requires Course(s, id, st, c) && i != id && t.id == i
    ensures Course(s.(db := s.db.Append(t.priority, i).Unschedule(i)), id, st, c)
  {
    AppendOn(s, t.priority, i, id, st, c);
    ScheduleOn(s.(db := s.db.Append(t.priority, i)), i, 0, id, st, c);
  }

  lemma OtherActivate(s: System, i: TaskId, now: Time, id: TaskId, st: Stage, c: int)
    requires Shaped(s) && Course(s, id, st, c) && i != id
    ensures Course(s.(db := Activated(s.db, i, s.retention, now)), id, st, c)
  {
    if i in s.db.records && s.db.records[i].state.IsDeferred() {
      var t := Moved(s.db.records[i], Pending, now);
      SaveOn(s, t, false, id, st, c);
      EnqueuedOn(s.(db := s.db.Save(t, false)), t, i, id, st, c);
    } else {
      ScheduleOn(s, i, 0, id, st, c);
    }
  }

  /** Only the record of a task that is over expires. */
  lemma OtherExpire(s: System, i: TaskId, id: TaskId, st: Stage, c: int)
    requires Shaped(s) && Course(s, id, st, c) && i in s.db.expiring
    ensures Course(s.(db := s.db.Delete(i)), id, st, c)
  {
    assert s.db.records[i].state.IsFinal();
    DeleteOn(s, i, id, st, c);
  }

  // ---------------------------------------------------------------------------
  // Its own steps.
  // ---------------------------------------------------------------------------

  lemma OwnRead(s: System, consumer: string, now: Time, id: TaskId, p: Priority, m: MessageId, c: int)
    requires Shaped(s) && Course(s, id, Queued(p, m), c) && s.db.FirstReady() == Option.Some(p)
    requires s.db.streams.Of(p).next == m
    requires forall q: Priority | Ready(s.db.streams.Of(q), id) :: q == p
    ensures Course(Next(s, Read(consumer, now)), id, Held(Msg(p, m)), c)
  {
    var s' := Next(s, Read(consumer, now));
    forall q: Priority, x | 0 <= x < |s'.db.streams.Of(q).log| && s'.db.streams.Of(q).log[x] == id
      && x !in s'.db.streams.Of(q).acked
      ensures IsSpare(s'.live, Msg(q, x), Option.Some(Msg(p, m)))
    {
      assert s.db.streams.Of(q).log[x] == id;
      assert IsSpare(s.live, Msg(q, x), Option.Some(Msg(p, m)));
    }
  }

  lemma HeldProceeds(s: System, tok: Token, ph: Phase, s': System, id: TaskId, c: int, c': int)
    requires Course(s, id, Held(tok), c) && 0 <= c'
    requires s'.live == s.live[tok := ph] && s'.requests == s.requests && s'.created == s.created
    requires s'.db.streams == s.db.streams && id !in s'.db.scheduled
    requires HeldAt(s'.db.records, s'.db.dlq, id, ph, c', s.created[id].maxRetries)
    ensures Course(s', id, Held(tok), c')
  {
  }

  lemma OwnLoad(s: System, tok: Token, id: TaskId, c: int)
    requires Shaped(s) && Course(s, id, Held(tok), c) && WorkerEnabled(s, tok, Load)
    ensures Course(WorkerNext(s, tok, Load), id, Held(tok), c)
  {
    HeldProceeds(s, tok, Loaded(s.db.records[id]), WorkerNext(s, tok, Load), id, c, c);
  }

  lemma OwnBegin(s: System, tok: Token, worker: string, now: Time, id: TaskId, c: int)
    requires Shaped(s) && Course(s, id, Held(tok), c) && WorkerEnabled(s, tok, Begin(worker, now))
    ensures Course(WorkerNext(s, tok, Begin(worker, now)), id, Held(tok), c + 1)
  {
    assert MayHold(s, tok, s.live[tok]);
    HeldProceeds(s, tok, Executing(Started(s.live[tok].t, worker, now)), WorkerNext(s, tok, Begin(worker, now)), id,
      c, c + 1);
  }

  lemma OwnFailRetry(s: System, tok: Token, message: string, now: Time, delay: Time, id: TaskId, c: int)
    requires Shaped(s) && Course(s, id, Held(tok), c) && WorkerEnabled(s, tok, FailRetry(message, now, delay))
    ensures Course(WorkerNext(s, tok, FailRetry(message, now, delay)), id, Held(tok), c)
  {
    assert MayHold(s, tok, s.live[tok]);
    RetryBranchAlwaysSchedules(s.live[tok].t, message, now, delay);
    HeldProceeds(s, tok, RetryStored(FailedForRetry(s.live[tok].t, message, now, delay)),
                 WorkerNext(s, tok, FailRetry(message, now, delay)), id, c, c);
  }

  lemma OwnStoreAgain(s: System, tok: Token, id: TaskId, c: int)
    requires Shaped(s) && Course(s, id, Held(tok), c) && WorkerEnabled(s, tok, StoreAgain)
    ensures Course(WorkerNext(s, tok, StoreAgain), id, Held(tok), c)
  {
    assert MayHold(s, tok, s.live[tok]);
    HeldProceeds(s, tok, RetryStoredTwice(s.live[tok].t), WorkerNext(s, tok, StoreAgain), id, c, c);
  }

  /** The last attempt: the stored attempts are exhausted only when there were MaxRetries of them. */
  lemma OwnFailFinal(s: System, tok: Token, message: string, now: Time, id: TaskId, c: int)
    requires Shaped(s) && Course(s, id, Held(tok), c) && WorkerEnabled(s, tok, FailFinal(message, now))
    ensures Course(WorkerNext(s, tok, FailFinal(message, now)), id, Held(tok), c)
  {
    assert MayHold(s, tok, s.live[tok]);
    HeldProceeds(s, tok, FailStored(Errored(s.live[tok].t, message, now)),
      WorkerNext(s, tok, FailFinal(message, now)), id, c, c);
  }

  lemma OwnEntomb(s: System, tok: Token, now: Time, id: TaskId, c: int)
    requires Shaped(s) && Course(s, id, Held(tok), c) && WorkerEnabled(s, tok, Entomb(now))
    ensures Course(WorkerNext(s, tok, Entomb(now)), id, Held(tok), c)
  {
    assert MayHold(s, tok, s.live[tok]);
    var t := Tasks.Buried(s.live[tok].t, now);
    FirstEntryOnly(s.db.dlq, t, id);
    HeldProceeds(s, tok, Entombed(t), WorkerNext(s, tok, Entomb(now)), id, c, c);
  }

  lemma FirstEntryOnly(dlq: seq<Option<Record>>, r: Record, id: TaskId)
    requires NoEntry(dlq, id) && r.id == id
    ensures OneEntry(dlq + [Option.Some(r)], id)
  {
    var dlq' := dlq + [Option.Some(r)];
    assert D.EntryOf(dlq', |dlq|, id);
    forall d: nat | D.EntryOf(dlq', d, id) ensures d == |dlq| {
      assert d < |dlq| ==> D.EntryOf(dlq, d, id);
    }
  }

  /** The message is only waiting for its acknowledgement once another carrier exists. */
  lemma OwnHandOver(s: System, tok: Token, w: WorkerStep, id: TaskId, c: int)
    requires Shaped(s) && Course(s, id, Held(tok), c) && WorkerEnabled(s, tok, w) && (w.Reschedule? || w.IndexDead?)
    ensures Course(WorkerNext(s, tok, w), id, if w.Reschedule? then Waits(DueAt(s.live, tok)) else Ended, c)
  {
    assert MayHold(s, tok, s.live[tok]);
    var s' := WorkerNext(s, tok, w);
    assert s'.live == s.live[tok := Settled(s.live[tok].t)];
    SettledSpare(s.db.streams, s.live, tok, s.live[tok].t, id);
  }

  lemma SettledSpare(streams: Streams, live: map<Token, Phase>, tok: Token, t: Record, id: TaskId)
    requires Spare(streams, live, id, Option.Some(tok))
    ensures Spare(streams, live[tok := Settled(t)], id, Option.None)
  {
  }

  lemma OwnActivate(s: System, now: Time, id: TaskId, due: Time, c: int)
    requires Shaped(s) && Course(s, id, Waits(due), c)
    ensures var p := s.db.records[id].priority;
            Course(s.(db := Activated(s.db, id, s.retention, now)), id, Queued(p, |s.db.streams.Of(p).log|), c)
  {
    var p := s.db.records[id].priority;
    assert s.db.streams.Of(p).Valid();
    var m := |s.db.streams.Of(p).log|;
    var db' := Activated(s.db, id, s.retention, now);
    forall q: Priority, x | 0 <= x < |db'.streams.Of(q).log| && db'.streams.Of(q).log[x] == id
      && x !in db'.streams.Of(q).acked
      ensures IsSpare(s.live, Msg(q, x), Option.Some(Msg(p, m)))
    {
      if Msg(q, x) != Msg(p, m) {
        assert s.db.streams.Of(q).log[x] == id;
        assert IsSpare(s.live, Msg(q, x), Option.None);
      }
    }
  }

  lemma OwnWorker(s: System, tok: Token, w: WorkerStep, id: TaskId, c: int)
    requires Shaped(s) && Course(s, id, Held(tok), c) && WorkerEnabled(s, tok, w) && !w.Succeed?
    ensures var st' := if w.Reschedule? then Waits(DueAt(s.live, tok)) else if w.IndexDead? then Ended else Held(tok);
            Course(WorkerNext(s, tok, w), id, st', if w.Begin? then c + 1 else c)
  {
    match w
    case Load => OwnLoad(s, tok, id, c);
    case Begin(worker, now) => OwnBegin(s, tok, worker, now, id, c);
    case FailRetry(message, now, delay) => OwnFailRetry(s, tok, message, now, delay, id, c);
    case StoreAgain => OwnStoreAgain(s, tok, id, c);
    case FailFinal(message, now) => OwnFailFinal(s, tok, message, now, id, c);
    case Entomb(now) => OwnEntomb(s, tok, now, id, c);
    case Reschedule => OwnHandOver(s, tok, w, id, c);
    case IndexDead => OwnHandOver(s, tok, w, id, c);
    case AckMissing => assert false;
    case Ack => assert false;
  }

  // ---------------------------------------------------------------------------
  // Every step.
  // ---------------------------------------------------------------------------

  function After(e: Event, st: Stage, c: int): int {
    if IsStart(e, st) then c + 1 else c
  }

  lemma ProceedsRead(s: System, e: Event, id: TaskId, st: Stage, c: int)
    requires Shaped(s) && Course(s, id, st, c) && Enabled(s, e) && Undisturbed(s, e, id) && e.Read?
    ensures Course(Next(s, e), id, Advanced(s, e, id, st), c)
  {
    if Moves(s, e, id, st) {
      OwnRead(s, e.consumer, e.now, id, st.p, st.m, c);
    } else {
      NothingReady(s, e, id, st, c);
      OtherRead(s, e.consumer, e.now, id, st, c);
    }
  }

  lemma ProceedsWorker(s: System, e: Event, id: TaskId, st: Stage, c: int)
    requires Shaped(s) && Course(s, id, st, c) && Enabled(s, e) && Undisturbed(s, e, id) && e.Worker?
    ensures Course(Next(s, e), id, Advanced(s, e, id, st), After(e, st, c))
  {
    if st == Held(e.tok) {
      OwnWorker(s, e.tok, e.w, id, c);
    } else {
      OtherWorker(s, e.tok, e.w, id, st, c);
    }
  }

  lemma ProceedsActivate(s: System, i: TaskId, now: Time, id: TaskId, st: Stage, c: int)
    requires Shaped(s) && Course(s, id, st, c) && Enabled(s, Activate(i, now))
    ensures Course(Next(s, Activate(i, now)), id, Advanced(s, Activate(i, now), id, st), c)
  {
    if i == id {
      assert st.Waits?;
      OwnActivate(s, now, id, st.due, c);
    } else {
      OtherActivate(s, i, now, id, st, c);
    }
  }

  lemma ProceedsOtherwise(s: System, e: Event, id: TaskId, st: Stage, c: int)
    requires Shaped(s) && Course(s, id, st, c) && Enabled(s, e) && Undisturbed(s, e, id)
    requires e.Recovery? || e.DlqRetry? || e.Crash? || e.Api?
    ensures Course(Next(s, e), id, st, c)
  {
    match e
    case Recovery(tok, r) =>
      NothingToRecover(s, tok, r, id, st, c);
      OtherRecovery(s, tok, r, id, st, c);
    case DlqRetry(tok, d) => OtherDlq(s, tok, d, id, st, c);
    case Crash(tok) => ReleaseOn(s, tok, id, st, c);
    case Api(q, a) => OtherApi(s, q, a, id, st, c);
  }

  lemma Proceeds(s: System, e: Event, id: TaskId, st: Stage, c: int)
    requires Shaped(s) && Course(s, id, st, c) && Enabled(s, e) && Undisturbed(s, e, id)
    ensures Course(Next(s, e), id, Advanced(s, e, id, st), After(e, st, c))
  {
    match e
    case Read(_, _) => ProceedsRead(s, e, id, st, c);
    case Worker(_, _) => ProceedsWorker(s, e, id, st, c);
    case Recovery(_, _) => ProceedsOtherwise(s, e, id, st, c);
    case DlqRetry(_, _) => ProceedsOtherwise(s, e, id, st, c);
    case Crash(_) => ProceedsOtherwise(s, e, id, st, c);
    case Api(_, _) => ProceedsOtherwise(s, e, id, st, c);
    case Activate(i, now) => ProceedsActivate(s, i, now, id, st, c);
    case Expire(i) => OtherExpire(s, i, id, st, c);
  }

  /** An accepted task that nobody knew before starts its course with no execution. */
  lemma CourseBegins(s: System, q: nat, a: ApiStep)
    requires Shaped(s) && ApiEnabled(s, q, a) && (a.SubmitAppend? || a.SubmitSchedule?)
    requires s.requests[q].t.attempts == 0 && s.requests[q].t.maxRetries >= 1
    ensures var t := s.requests[q].t;
            var st := if a.SubmitAppend? then Queued(t.priority, |s.db.streams.Of(t.priority).log|)
                      else Waits(t.scheduledAt.value);
            Course(ApiNext(s, q, a), t.id, st, 0)
  {
    var t, s' := s.requests[q].t, ApiNext(s, q, a);
    assert InFlight(s.created, s.db.records, s.db.expiring, s.requests[q]);
    assert s.db.streams.Of(t.priority).Valid();
    forall tok | tok in s'.live && tok.Dead? && HasTask(s'.live[tok]) ensures s'.live[tok].t.id != t.id {
      assert MayHold(s, tok, s.live[tok]);
    }
    forall r | r in s'.requests ensures s'.requests[r].t.id != t.id {
      assert InFlight(s.created, s.db.records, s.db.expiring, s.requests[r]);
    }
    NewTaskUnknown(s, t.id);
  }

  lemma NewTaskUnknown(s: System, id: TaskId)
    requires Shaped(s) && id !in s.created
    ensures NoEntry(s.db.dlq, id) && id !in s.db.scheduled
    ensures forall p: Priority, m | 0 <= m < |s.db.streams.Of(p).log| :: s.db.streams.Of(p).log[m] != id
  {
  }
}
