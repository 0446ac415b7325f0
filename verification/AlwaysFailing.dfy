/** The life of a task whose handler always fails: executed exactly MaxRetries times, with the
    nominal backoff before each retry, then dead. */
module AlwaysFailing {
  import opened Tasks
  import opened Store
  import opened Protocol
  import opened Shape
  import opened NoLoss
  import opened FailureCourse
  import B = Backoff

  // ---------------------------------------------------------------------------
  // Counting along the course, and the measure.
  // ---------------------------------------------------------------------------

  datatype Milestone = Execution | Backoff | Scheduling

  /** The event starts the task's handler, stores its next retry time, or schedules it. */
  predicate Marks(s: System, e: Event, id: TaskId, kind: Milestone) {
    && e.Worker? && e.tok in s.live && HasTask(s.live[e.tok]) && s.live[e.tok].t.id == id
    && match kind
       case Execution => e.w.Begin? && s.live[e.tok].t.state.CanTransitionTo(Running)
       case Backoff => e.w.FailRetry?
       case Scheduling => e.w.Reschedule?
  }

  /** Milestones passed by a task in a stage after c executions. */
  function Passed(kind: Milestone, live: map<Token, Phase>, st: Stage, c: int): int {
    if kind == Execution then c
    else if st.Ended? then c - 1
    else if st.Held? && st.tok in live then
      match live[st.tok]
      case Executing(_) => c - 1
      case FailStored(_) => c - 1
      case Entombed(_) => c - 1
      case RetryStored(_) => if kind == Backoff then c else c - 1
      case RetryStoredTwice(_) => if kind == Backoff then c else c - 1
      case _ => c
    else c
  }

  function Left(live: map<Token, Phase>, st: Stage): int {
    match st
    case Waits(_) => 3
    case Queued(_, _) => 2
    case Ended => 3
    case Held(tok) =>
      if tok !in live then 0
      else
        match live[tok]
        case Executing(_) => 6
        case RetryStored(_) => 5
        case FailStored(_) => 5
        case RetryStoredTwice(_) => 4
        case Entombed(_) => 4
        case Fetched => 1
        case _ => 0
  }

  /** Seven steps for each remaining execution, and the position within the current one. */
  function Measure(live: map<Token, Phase>, st: Stage, c: int, max: int): int {
    7 * (max - c) + Left(live, st)
  }

  lemma NoMarkElsewhere(s: System, e: Event, id: TaskId, st: Stage, c: int, kind: Milestone)
    requires Shaped(s) && Course(s, id, st, c) && Enabled(s, e) && !(e.Worker? && st == Held(e.tok))
    ensures !Marks(s, e, id, kind)
  {
    if e.Worker? {
      assert MayHold(s, e.tok, s.live[e.tok]);
      if MessageOf(s.db.streams, e.tok, id) {
        HeldMessage(s, e.tok, id, st, c);
      }
    }
  }

  /** What others do leaves the phase of the task's holder alone. */
  lemma SameHolder(s: System, e: Event, id: TaskId, tok: Token, c: int)
    requires Shaped(s) && Course(s, id, Held(tok), c) && Enabled(s, e) && Undisturbed(s, e, id)
    requires !(e.Worker? && e.tok == tok)
    ensures tok in Next(s, e).live && Next(s, e).live[tok] == s.live[tok]
  {
    match e
    case Read(_, _) => NextIsFree(s, s.db.FirstReady().value);
    case Worker(x, w) => WorkerLocal(s, x, w);
    case Recovery(x, r) =>
      NothingToRecover(s, x, r, id, Held(tok), c);
      RecoveryLocal(s, x, r);
    case DlqRetry(x, d) =>
      assert MayHold(s, tok, s.live[tok]);
      DlqLocal(s, x, d);
    case Crash(_) =>
    case Api(q, a) => ApiLocal(s, q, a);
    case Activate(_, _) =>
    case Expire(_) =>
  }

  lemma StepOfOthers(s: System, e: Event, id: TaskId, st: Stage, c: int, kind: Milestone)
    requires Shaped(s) && Course(s, id, st, c) && Enabled(s, e) && Undisturbed(s, e, id) && !Moves(s, e, id, st)
    ensures !Marks(s, e, id, kind) && After(e, st, c) == c
    ensures Passed(kind, Next(s, e).live, Advanced(s, e, id, st), c) == Passed(kind, s.live, st, c)
    ensures Left(Next(s, e).live, Advanced(s, e, id, st)) == Left(s.live, st)
  {
    NoMarkElsewhere(s, e, id, st, c, kind);
    StaysPut(s, e, id, st);
    if st.Held? {
      SameHolder(s, e, id, st.tok, c);
    }
    SamePhase(s.live, Next(s, e).live, st, c, kind);
  }

  lemma StaysPut(s: System, e: Event, id: TaskId, st: Stage)
    requires !Moves(s, e, id, st)
    ensures Advanced(s, e, id, st) == st && !IsStart(e, st)
  {
  }

  lemma SamePhase(live: map<Token, Phase>, live': map<Token, Phase>, st: Stage, c: int, kind: Milestone)
    requires st.Held? ==> st.tok in live && st.tok in live' && live'[st.tok] == live[st.tok]
    ensures Passed(kind, live', st, c) == Passed(kind, live, st, c) && Left(live', st) == Left(live, st)
  {
  }

  /** The phase a step leads to. */
  predicate LeadsTo(w: WorkerStep, ph: Phase, ph': Phase) {
    match w
    case Load => ph.Fetched? && ph'.Loaded?
    case Begin(_, _) => ph.Loaded? && ph'.Executing?
    case FailRetry(_, _, _) => ph.Executing? && ph'.RetryStored?
    case StoreAgain => ph.RetryStored? && ph'.RetryStoredTwice?
    case FailFinal(_, _) => ph.Executing? && ph'.FailStored?
    case Entomb(_) => ph.FailStored? && ph'.Entombed?
    case Reschedule => ph.RetryStoredTwice?
    case IndexDead => ph.Entombed?
    case Succeed(_) => false
    case AckMissing => false
    case Ack => false
  }

  lemma HolderLeadsTo(s: System, tok: Token, w: WorkerStep, id: TaskId, c: int)
    requires Course(s, id, Held(tok), c) && WorkerEnabled(s, tok, w) && !w.Succeed?
    ensures tok in WorkerNext(s, tok, w).live && LeadsTo(w, s.live[tok], WorkerNext(s, tok, w).live[tok])
    ensures w.Begin? ==> s.live[tok].t.state.CanTransitionTo(Running)
  {
  }

  lemma StepOfHolder(s: System, tok: Token, w: WorkerStep, id: TaskId, c: int, max: int, kind: Milestone)
    requires Shaped(s) && Course(s, id, Held(tok), c) && WorkerEnabled(s, tok, w) && !w.Succeed?
    ensures var e, s', st := Worker(tok, w), WorkerNext(s, tok, w), Held(tok);
            var st', c' := Advanced(s, e, id, st), After(e, st, c);
            && Passed(kind, s'.live, st', c') == Passed(kind, s.live, st, c) + (if Marks(s, e, id, kind) then 1 else 0)
            && Measure(s'.live, st', c', max) == Measure(s.live, st, c, max) - 1
  {
    assert MayHold(s, tok, s.live[tok]);
    HolderLeadsTo(s, tok, w, id, c);
    PhaseCounts(s.live, WorkerNext(s, tok, w).live, tok, w, c, max, kind);
  }

  lemma PhaseCounts(live: map<Token, Phase>, live': map<Token, Phase>, tok: Token, w: WorkerStep, c: int, max: int,
                    kind: Milestone)
    requires tok in live && tok in live' && LeadsTo(w, live[tok], live'[tok])
    ensures var st := Held(tok);
            var st' := if w.Reschedule? then Waits(DueAt(live, tok)) else if w.IndexDead? then Ended else Held(tok);
            var c' := if w.Begin? then c + 1 else c;
            var mark := match kind
                        case Execution => w.Begin?
                        case Backoff => w.FailRetry?
                        case Scheduling => w.Reschedule?;
            && Passed(kind, live', st', c') == Passed(kind, live, st, c) + (if mark then 1 else 0)
            && Measure(live', st', c', max) == Measure(live, st, c, max) - 1
  {
  }

  /** Each of the task's own steps lowers the measure by one, nobody else's changes it, and the counts
      keep up with the milestones. */
  lemma CountsKeepUp(s: System, e: Event, id: TaskId, st: Stage, c: int, kind: Milestone)
    requires Shaped(s) && Course(s, id, st, c) && Enabled(s, e) && Undisturbed(s, e, id)
    ensures var s', st', c', max := Next(s, e), Advanced(s, e, id, st), After(e, st, c), s.created[id].maxRetries;
            && Passed(kind, s'.live, st', c') == Passed(kind, s.live, st, c) + (if Marks(s, e, id, kind) then 1 else 0)
            && Measure(s'.live, st', c', max) + (if Moves(s, e, id, st) then 1 else 0) == Measure(s.live, st, c, max)
  {
    if !Moves(s, e, id, st) {
      StepOfOthers(s, e, id, st, c, kind);
    } else {
      match st
      case Held(tok) => StepOfHolder(s, tok, e.w, id, c, s.created[id].maxRetries, kind);
      case Queued(p, m) => NoMarkElsewhere(s, e, id, st, c, kind);
      case Waits(_) => NoMarkElsewhere(s, e, id, st, c, kind);
      case Ended => assert false;
    }
  }

  // ---------------------------------------------------------------------------
  // The course never gets stuck before its end.
  // ---------------------------------------------------------------------------

  /** The step that the holder of the task takes next. */
  function HolderStep(ph: Phase, now: Time): WorkerStep {
    match ph
    case Fetched => Load
    case Loaded(_) => Begin("", now)
    case Executing(t) => if t.CanRetry() then FailRetry("", now, 0) else FailFinal("", now)
    case RetryStored(_) => StoreAgain
    case RetryStoredTwice(_) => Reschedule
    case FailStored(_) => Entomb(now)
    case _ => IndexDead
  }

  lemma HolderCanStep(s: System, tok: Token, id: TaskId, c: int, now: Time)
    requires Shaped(s) && Course(s, id, Held(tok), c)
    ensures var w := HolderStep(s.live[tok], now); !w.Succeed? && WorkerEnabled(s, tok, w)
  {
    assert MayHold(s, tok, s.live[tok]);
  }

  /** A message of the task at the head of another stream than its own is not open. */
  lemma OnlyMainIsReady(s: System, id: TaskId, p: Priority, m: MessageId, c: int)
    requires Shaped(s) && Course(s, id, Queued(p, m), c)
    ensures forall q: Priority :: Ready(s.db.streams.Of(q), id) <==> q == p && s.db.streams.Of(p).next == m
  {
    forall q: Priority ensures Ready(s.db.streams.Of(q), id) <==> q == p && s.db.streams.Of(p).next == m {
      NextIsFree(s, q);
      assert Ready(s.db.streams.Of(q), id) ==> IsSpare(s.live, Msg(q, s.db.streams.Of(q).next), Main(Queued(p, m)));
    }
  }

  /** A read brings a queued task nearer to its delivery, without disturbing it, exactly unless its
      message is at the head of its stream while a more urgent stream has a message too. */
  lemma ReadHelps(s: System, id: TaskId, p: Priority, m: MessageId, c: int, consumer: string, now: Time)
    requires Shaped(s) && Course(s, id, Queued(p, m), c)
    ensures var e := Read(consumer, now);
            && Enabled(s, e)
            && (Undisturbed(s, e, id) <==> s.db.streams.Of(p).next < m || s.db.FirstReady() == Option.Some(p))
            && (Undisturbed(s, e, id) ==> Next(s, e).db.streams.Of(p).next == s.db.streams.Of(p).next + 1)
            && (s.db.streams.Of(p).next == m && Undisturbed(s, e, id) ==> Moves(s, e, id, Queued(p, m)))
  {
    OnlyMainIsReady(s, id, p, m, c);
    assert s.db.streams.Of(p).next < |s.db.streams.Of(p).log|;
  }

  // ---------------------------------------------------------------------------
  // Whole runs.
  // ---------------------------------------------------------------------------

  /** A run from the start of the system in which event `since` accepts the task and nothing up to
      event `until` disturbs it. */
  ghost predicate UndisturbedRun(states: seq<System>, events: seq<Event>, since: nat, until: nat, id: TaskId) {
    && IsRun(states, events) && states[0] == Start(states[0].retention, states[0].minIdle)
    && since < until <= |events|
    && events[since].Api? && (events[since].a.SubmitAppend? || events[since].a.SubmitSchedule?)
    && events[since].q in states[since].requests && states[since].requests[events[since].q].t.id == id
    && forall k {:trigger events[k]} | since < k < until :: Undisturbed(states[k], events[k], id)
  }

  /** What the history of the task says so far: where it is, how often it was started, got a retry
      time and was scheduled for a retry, how many steps it took itself and how many lead to its end,
      and the last retry time it got. */
  datatype Log = Log(
    st: Stage,
    c: int,
    executions: int,
    backoffs: int,
    schedulings: int,
    steps: int,
    path: int,
    due: Option<Time>)

  function Noted(log: Log, s: System, e: Event, id: TaskId): Log {
    Log(Advanced(s, e, id, log.st), After(e, log.st, log.c),
        log.executions + (if Marks(s, e, id, Execution) then 1 else 0),
        log.backoffs + (if Marks(s, e, id, Backoff) then 1 else 0),
        log.schedulings + (if Marks(s, e, id, Scheduling) then 1 else 0),
        log.steps + (if Moves(s, e, id, log.st) then 1 else 0),
        log.path,
        if Marks(s, e, id, Backoff) then Option.Some(e.w.now + e.w.delay) else log.due)
  }

  function FirstLog(s: System, q: nat, a: ApiStep): Log
    requires q in s.requests
  {
    var t := s.requests[q].t;
    if a.SubmitAppend? then
      Log(Queued(t.priority, |s.db.streams.Of(t.priority).log|), 0, 0, 0, 0, 0, 7 * t.maxRetries - 1, Option.None)
    else
      Log(Waits(if t.scheduledAt.Some? then t.scheduledAt.value else 0), 0, 0, 0, 0, 0, 7 * t.maxRetries, Option.None)
  }

  /** The logs of a task along a run: the first one after event `since`, which accepts the task. */
  ghost predicate IsHistory(states: seq<System>, events: seq<Event>, since: nat, id: TaskId, logs: seq<Log>) {
    && since < |events| && |states| == |logs| == |events| + 1
    && events[since].Api? && events[since].q in states[since].requests
    && logs[since + 1] == FirstLog(states[since], events[since].q, events[since].a)
    && forall k {:trigger events[k]} | since < k < |events| :: logs[k + 1] == Noted(logs[k], states[k], events[k], id)
  }

  lemma {:induction false} HistoryExists(states: seq<System>, events: seq<Event>, since: nat, n: nat, id: TaskId)
    returns (logs: seq<Log>)
    requires |states| == |events| + 1 && since < n <= |events|
    requires events[since].Api? && events[since].q in states[since].requests
    ensures IsHistory(states[..n + 1], events[..n], since, id, logs)
  {
    if n == since + 1 {
      var first := FirstLog(states[since], events[since].q, events[since].a);
      logs := seq(n + 1, k => first);
    } else {
      var before := HistoryExists(states, events, since, n - 1, id);
      logs := before + [Noted(before[n - 1], states[n - 1], events[n - 1], id)];
      forall k {:trigger events[k]} | since < k < n
        ensures logs[k + 1] == Noted(logs[k], states[..n + 1][k], events[..n][k], id)
      {
        assert events[..n][k] == events[k];
        assert k < n - 1 ==> events[..n - 1][k] == events[k] && states[..n][k] == states[k];
      }
    }
  }

  predicate NewRequests(requests: map<nat, Request>) {
    forall q | q in requests && requests[q].Creating? :: requests[q].t.attempts == 0 && requests[q].t.maxRetries >= 1
  }

  lemma {:induction false} RequestsStayNew(states: seq<System>, events: seq<Event>, i: nat)
    requires IsRun(states, events) && states[0] == Start(states[0].retention, states[0].minIdle) && i <= |events|
    ensures NewRequests(states[i].requests)
  {
    if i > 0 {
      RequestsStayNew(states, events, i - 1);
      RequestStaysNew(states[i - 1], events[i - 1]);
    }
  }

  lemma RequestStaysNew(s: System, e: Event)
    requires NewRequests(s.requests) && Enabled(s, e)
    ensures NewRequests(Next(s, e).requests)
  {
    match e
    case Read(_, _) =>
    case Worker(tok, w) => WorkerLocal(s, tok, w);
    case Recovery(tok, r) => RecoveryLocal(s, tok, r);
    case DlqRetry(tok, d) => DlqLocal(s, tok, d);
    case Crash(_) =>
    case Api(q, a) => ApiLocal(s, q, a);
    case Activate(_, _) =>
    case Expire(_) =>
  }

  /** The task is on course, the counts are what they should be, and so is the number of steps. */
  ghost predicate Reached(s: System, id: TaskId, log: Log) {
    && Course(s, id, log.st, log.c)
    && log.executions == Passed(Execution, s.live, log.st, log.c)
    && log.backoffs == Passed(Backoff, s.live, log.st, log.c)
    && log.schedulings == Passed(Scheduling, s.live, log.st, log.c)
    && log.steps + Measure(s.live, log.st, log.c, s.created[id].maxRetries) == log.path + 3
    && (log.path == 7 * s.created[id].maxRetries - 1 || log.path == 7 * s.created[id].maxRetries)
    && Timed(s.live, log.st, log.due)
  }

  /** The task waits for the last retry time it got, if it got any. */
  predicate Timed(live: map<Token, Phase>, st: Stage, due: Option<Time>) {
    match st
    case Waits(d) => due.Some? ==> due.value == d
    case Held(tok) => tok in live && (live[tok].RetryStored? || live[tok].RetryStoredTwice?) ==>
      live[tok].t.scheduledAt == due
    case Queued(_, _) => true
    case Ended => true
  }

  lemma StaysTimed(s: System, e: Event, id: TaskId, st: Stage, c: int, due: Option<Time>)
    requires Shaped(s) && Course(s, id, st, c) && Enabled(s, e) && Undisturbed(s, e, id) && Timed(s.live, st, due)
    ensures Timed(Next(s, e).live, Advanced(s, e, id, st),
      if Marks(s, e, id, Backoff) then Option.Some(e.w.now + e.w.delay) else due)
  {
    if !Moves(s, e, id, st) {
      NoMarkElsewhere(s, e, id, st, c, Backoff);
      StaysPut(s, e, id, st);
      if st.Held? {
        SameHolder(s, e, id, st.tok, c);
      }
    } else {
      match st
      case Held(tok) => HolderTimed(s, tok, e.w, id, c, due);
      case Queued(p, m) => NoMarkElsewhere(s, e, id, st, c, Backoff);
      case Waits(_) => NoMarkElsewhere(s, e, id, st, c, Backoff);
      case Ended => assert false;
    }
  }

  lemma HolderTimed(s: System, tok: Token, w: WorkerStep, id: TaskId, c: int, due: Option<Time>)
    requires Shaped(s) && Course(s, id, Held(tok), c) && WorkerEnabled(s, tok, w) && !w.Succeed?
    requires Timed(s.live, Held(tok), due)
    ensures var e := Worker(tok, w);
            Timed(WorkerNext(s, tok, w).live, Advanced(s, e, id, Held(tok)),
                  if Marks(s, e, id, Backoff) then Option.Some(w.now + w.delay) else due)
  {
    assert MayHold(s, tok, s.live[tok]);
    assert Marks(s, Worker(tok, w), id, Backoff) <==> w.FailRetry?;
    HolderLeadsTo(s, tok, w, id, c);
    PhaseTimed(s, tok, w);
  }

  /** A step of the holder keeps its copy's retry time, unless it computes a new one. */
  lemma PhaseTimed(s: System, tok: Token, w: WorkerStep)
    requires WorkerEnabled(s, tok, w) && tok in WorkerNext(s, tok, w).live
    requires w.FailRetry? ==> s.live[tok].t.state.Running?
    ensures var ph, ph' := s.live[tok], WorkerNext(s, tok, w).live[tok];
            && (w.FailRetry? ==> ph'.RetryStored? && ph'.t.scheduledAt == Option.Some(w.now + w.delay))
            && (w.StoreAgain? ==> ph'.RetryStoredTwice? && ph'.t == ph.t)
  {
    if w.FailRetry? {
      RetryBranchAlwaysSchedules(s.live[tok].t, w.message, w.now, w.delay);
    }
  }

  lemma ReachedFirst(s: System, q: nat, a: ApiStep)
    requires Shaped(s) && ApiEnabled(s, q, a) && (a.SubmitAppend? || a.SubmitSchedule?) && NewRequests(s.requests)
    ensures Reached(ApiNext(s, q, a), s.requests[q].t.id, FirstLog(s, q, a))
  {
    CourseBegins(s, q, a);
  }

  lemma ReachedStep(s: System, e: Event, s': System, id: TaskId, log: Log, log': Log)
    requires Shaped(s) && Reached(s, id, log) && Enabled(s, e) && Undisturbed(s, e, id)
    requires s' == Next(s, e) && log' == Noted(log, s, e, id)
    ensures Reached(s', id, log')
  {
    Proceeds(s, e, id, log.st, log.c);
    CreatedStays(s, e, id);
    CountsKeepUp(s, e, id, log.st, log.c, Execution);
    CountsKeepUp(s, e, id, log.st, log.c, Backoff);
    CountsKeepUp(s, e, id, log.st, log.c, Scheduling);
    StaysTimed(s, e, id, log.st, log.c, log.due);
  }

  lemma EventBefore(states: seq<System>, events: seq<Event>, since: nat, n: nat, until: nat, id: TaskId, logs: seq<Log>)
    requires UndisturbedRun(states, events, since, until, id) && IsHistory(states, events, since, id, logs)
    requires since < n && until == n + 1
    ensures UndisturbedRun(states, events, since, n, id)
    ensures Undisturbed(states[n], events[n], id) && Enabled(states[n], events[n])
    ensures states[until] == Next(states[n], events[n]) && logs[until] == Noted(logs[n], states[n], events[n], id)
  {
  }

  lemma CourseStarts(states: seq<System>, events: seq<Event>, since: nat, id: TaskId, logs: seq<Log>)
    requires UndisturbedRun(states, events, since, since + 1, id) && IsHistory(states, events, since, id, logs)
    ensures Reached(states[since + 1], id, logs[since + 1])
  {
    RunInvariant(states, events, since);
    RequestsStayNew(states, events, since);
    ReachedFirst(states[since], events[since].q, events[since].a);
  }

  lemma {:induction false} CourseOfRun(states: seq<System>, events: seq<Event>, since: nat, until: nat, id: TaskId,
                                       logs: seq<Log>)
    requires UndisturbedRun(states, events, since, until, id) && IsHistory(states, events, since, id, logs)
    ensures Reached(states[until], id, logs[until])
    decreases until
  {
    if until == since + 1 {
      CourseStarts(states, events, since, id, logs);
    } else {
      var n := until - 1;
      EventBefore(states, events, since, n, until, id, logs);
      CourseOfRun(states, events, since, n, id, logs);
      RunInvariant(states, events, n);
      ReachedStep(states[n], events[n], states[until], id, logs[n], logs[until]);
    }
  }

  /** A task whose handler always fails, left alone, ends: its own steps are numbered, and after the
      last of them, the `path`-th, it sits in the dead-letter queue for good, with exactly one entry,
      MaxRetries executions and one scheduled retry less, no scheduled entry, and at most messages that
      merely wait for their acknowledgement. Before that it is not there yet: it has no entry but in
      the very last step but one, when its entry is only not indexed. */
  lemma AlwaysFailingTask(states: seq<System>, events: seq<Event>, since: nat, until: nat, id: TaskId, logs: seq<Log>)
    requires UndisturbedRun(states, events, since, until, id) && IsHistory(states, events, since, id, logs)
    ensures id in states[until].created
    ensures var max, log, s := states[until].created[id].maxRetries, logs[until], states[until];
            && (log.path == 7 * max - 1 || log.path == 7 * max)
            && log.steps <= log.path && log.executions <= max && log.schedulings <= max - 1
            && (log.steps == log.path <==> log.st.Ended?)
            && (log.steps == log.path ==> id !in s.db.scheduled && Spare(s.db.streams, s.live, id, Option.None))
            && (log.steps >= log.path - 1 ==>
                  OneEntry(s.db.dlq, id) && log.executions == max && log.backoffs == max - 1
                    && log.schedulings == max - 1)
            && (log.steps < log.path - 1 ==> NoEntry(s.db.dlq, id))
  {
    CourseOfRun(states, events, since, until, id, logs);
    CourseMeasured(states[until], id, logs[until].st, logs[until].c);
  }

  /** The measure is 3 at the end, 4 when the entry is not indexed yet, and larger before. */
  lemma CourseMeasured(s: System, id: TaskId, st: Stage, c: int)
    requires Course(s, id, st, c)
    ensures var k, max := Measure(s.live, st, c, s.created[id].maxRetries), s.created[id].maxRetries;
            && k >= 3 && (k == 3 <==> st.Ended?)
            && (k <= 4 ==> OneEntry(s.db.dlq, id) && c == max && Passed(Backoff, s.live, st, c) == max - 1)
            && (k > 4 ==> NoEntry(s.db.dlq, id))
            && Passed(Scheduling, s.live, st, c) <= max - 1 && c <= max
            && (k <= 4 ==> Passed(Scheduling, s.live, st, c) == max - 1)
  {
  }

  /** The n-th retry of the task is computed for attempt n, ... */
  lemma RetriesInOrder(states: seq<System>, events: seq<Event>, since: nat, k: nat, id: TaskId, logs: seq<Log>)
    requires k < |events| && UndisturbedRun(states, events, since, k + 1, id)
    requires IsHistory(states, events, since, id, logs) && since < k
    requires Marks(states[k], events[k], id, Backoff)
    ensures states[k].live[events[k].tok].t.attempts == logs[k].backoffs + 1 >= 1
  {
    RunInvariant(states, events, k);
    CourseOfRun(states, events, since, k, id, logs);
    RetryOfAttempt(states[k], events[k], id, logs[k]);
  }

  lemma RetryOfAttempt(s: System, e: Event, id: TaskId, log: Log)
    requires Shaped(s) && Reached(s, id, log) && Enabled(s, e) && Marks(s, e, id, Backoff)
    ensures s.live[e.tok].t.attempts == log.backoffs + 1 >= 1
  {
    assert MayHold(s, e.tok, s.live[e.tok]);
    HeldMessage(s, e.tok, id, log.st, log.c);
  }

  /** ... so that it waits for the nominal backoff of attempt n, up to jitter. */
  lemma NominalDelays(states: seq<System>, events: seq<Event>, since: nat, k: nat, id: TaskId, logs: seq<Log>,
                      policy: B.RetryPolicy, u: real)
    requires k < |events| && UndisturbedRun(states, events, since, k + 1, id)
    requires IsHistory(states, events, since, id, logs) && since < k
    requires Marks(states[k], events[k], id, Backoff)
    requires policy.Sensible() && 0.0 <= u < 1.0
    requires events[k].w.delay == policy.Delay(states[k].live[events[k].tok].t.attempts, u)
    ensures var n := logs[k].backoffs + 1;
            && n >= 1
            && (1.0 - policy.jitterFactor) * policy.Nominal(n) - 1.0 < events[k].w.delay as real
            && events[k].w.delay as real <= (1.0 + policy.jitterFactor) * policy.Nominal(n)
            && events[k].w.delay as real <= policy.Jittered(n, u) < events[k].w.delay as real + 1.0
  {
    RetriesInOrder(states, events, since, k, id, logs);
    B.DelayBand(policy, logs[k].backoffs + 1, u);
  }

  /** A retry is never one second or more early: the activation that follows the n-th failure, at
      event j, comes later than its retry time less one second. */
  lemma RetryNotEarly(states: seq<System>, events: seq<Event>, since: nat, j: nat, k: nat, id: TaskId, logs: seq<Log>)
    requires since < j < k < |events| && UndisturbedRun(states, events, since, k + 1, id)
    requires IsHistory(states, events, since, id, logs)
    requires Marks(states[j], events[j], id, Backoff)
    requires events[k].Activate? && events[k].id == id && logs[k].backoffs == logs[j].backoffs + 1
    ensures events[k].now > events[j].w.now + events[j].w.delay - SECOND
  {
    DueStays(states, events, since, j, k, id, logs);
    RunInvariant(states, events, k);
    CourseOfRun(states, events, since, k, id, logs);
    ActivatedInTime(states[k], id, logs[k].st, logs[k].c, events[k].now);
  }

  /** Every activation, the first one of a task submitted for later included, comes later than the time
      its record names less one second, and is possible from that time on. */
  lemma NeverEarly(states: seq<System>, events: seq<Event>, since: nat, k: nat, id: TaskId, logs: seq<Log>, now: Time)
    requires since < k <= |events| && UndisturbedRun(states, events, since, k, id)
    requires IsHistory(states, events, since, id, logs)
    requires logs[k].st.Waits?
    ensures id in states[k].db.records && states[k].db.records[id].scheduledAt == Option.Some(logs[k].st.due)
    ensures Enabled(states[k], Activate(id, now)) ==> now > logs[k].st.due - SECOND
    ensures now >= logs[k].st.due ==> Enabled(states[k], Activate(id, now))
  {
    CourseOfRun(states, events, since, k, id, logs);
  }

  lemma ActivatedInTime(s: System, id: TaskId, st: Stage, c: int, now: Time)
    requires Course(s, id, st, c) && Enabled(s, Activate(id, now))
    ensures st.Waits? && now > st.due - SECOND
  {
  }

  lemma {:induction false} DueStays(states: seq<System>, events: seq<Event>, since: nat, j: nat, k: nat, id: TaskId,
                                    logs: seq<Log>)
    requires since < j < k <= |events| && IsHistory(states, events, since, id, logs)
    requires Marks(states[j], events[j], id, Backoff) && logs[k].backoffs == logs[j].backoffs + 1
    ensures logs[k].due == Option.Some(events[j].w.now + events[j].w.delay)
    decreases k
  {
    assert logs[k] == Noted(logs[k - 1], states[k - 1], events[k - 1], id);
    if k > j + 1 {
      BackoffsGrow(states, events, since, j, k - 1, id, logs);
      DueStays(states, events, since, j, k - 1, id, logs);
    }
  }

  lemma {:induction false} BackoffsGrow(states: seq<System>, events: seq<Event>, since: nat, j: nat, k: nat,
                                        id: TaskId, logs: seq<Log>)
    requires since < j < k <= |events| && IsHistory(states, events, since, id, logs)
    requires Marks(states[j], events[j], id, Backoff)
    ensures logs[k].backoffs >= logs[j].backoffs + 1
    decreases k
  {
    assert logs[k] == Noted(logs[k - 1], states[k - 1], events[k - 1], id);
    if k > j + 1 {
      BackoffsGrow(states, events, since, j, k - 1, id, logs);
    }
  }

  /** As long as the task is not in the dead-letter queue for good, it can be moved on: by its holder;
      by the scheduler, as soon as it is due; or by a reader of its stream, whose reads bring it nearer
      to the head of the stream and then hand it out, with exactly one exception, namely that it is at
      the head while a more urgent stream has a message as well, so that every read is an over-read. */
  lemma NeverStuck(states: seq<System>, events: seq<Event>, since: nat, until: nat, id: TaskId, logs: seq<Log>,
                   consumer: string, now: Time)
    requires UndisturbedRun(states, events, since, until, id) && IsHistory(states, events, since, id, logs)
    ensures var s := states[until];
            match logs[until].st
            case Held(tok) => exists w: WorkerStep :: !w.Succeed? && WorkerEnabled(s, tok, w)
            case Waits(due) => Enabled(s, Activate(id, now)) <==> UnixSeconds(due) <= UnixSeconds(now)
            case Queued(p, m) =>
              var e, st := Read(consumer, now), s.db.streams.Of(p);
              && Enabled(s, e) && st.next <= m
              && (Undisturbed(s, e, id) <==> st.next < m || s.db.FirstReady() == Option.Some(p))
              && (Undisturbed(s, e, id) ==> Next(s, e).db.streams.Of(p).next == st.next + 1)
              && (st.next == m && Undisturbed(s, e, id) ==> Moves(s, e, id, logs[until].st))
            case Ended => OneEntry(s.db.dlq, id)
  {
    RunInvariant(states, events, until);
    CourseOfRun(states, events, since, until, id, logs);
    match logs[until].st
    case Held(tok) => HolderCanStep(states[until], tok, id, logs[until].c, now);
    case Queued(p, m) => ReadHelps(states[until], id, p, m, logs[until].c, consumer, now);
    case Waits(_) =>
    case Ended =>
  }

  // ---------------------------------------------------------------------------
  // The end can always be reached.
  // ---------------------------------------------------------------------------

  /** The events lead from s to s' without disturbing the task. */
  ghost predicate LeadsUndisturbed(s: System, events: seq<Event>, s': System, id: TaskId)
    decreases |events|
  {
    if events == [] then s' == s
    else
      && Enabled(s, events[0])
      && Undisturbed(s, events[0], id)
      && LeadsUndisturbed(Next(s, events[0]), events[1..], s', id)
  }

  /** No message waits on a more urgent stream. */
  predicate Unrivalled(streams: Streams, p: Priority) {
    forall q: Priority | Rank(q) < Rank(p) :: streams.Of(q).next >= |streams.Of(q).log|
  }

  /** A step that brings the task nearer to its end. */
  ghost predicate Helps(s: System, e: Event, id: TaskId, st: Stage) {
    && Enabled(s, e) && Undisturbed(s, e, id)
    && (Moves(s, e, id, st) || (st.Queued? && Next(s, e).db.streams.Of(st.p).next == s.db.streams.Of(st.p).next + 1))
  }

  lemma ReadMove(s: System, id: TaskId, p: Priority, m: MessageId, c: int)
    requires Shaped(s) && Course(s, id, Queued(p, m), c) && Unrivalled(s.db.streams, s.created[id].priority)
    ensures Helps(s, Read("", 0), id, Queued(p, m))
    ensures Unrivalled(Next(s, Read("", 0)).db.streams, s.created[id].priority)
  {
    ReadHelps(s, id, p, m, c, "", 0);
    assert s.db.streams.Of(p).log[m] == id;
    assert s.db.FirstReady() == Option.Some(p);
  }

  lemma HolderMove(s: System, id: TaskId, tok: Token, c: int, now: Time)
    requires Shaped(s) && Course(s, id, Held(tok), c) && Unrivalled(s.db.streams, s.created[id].priority)
    ensures var e := Worker(tok, HolderStep(s.live[tok], now));
            Helps(s, e, id, Held(tok)) && Unrivalled(Next(s, e).db.streams, s.created[id].priority)
  {
    HolderCanStep(s, tok, id, c, now);
    HolderKeepsStreams(s, tok, HolderStep(s.live[tok], now));
  }

  lemma HolderKeepsStreams(s: System, tok: Token, w: WorkerStep)
    requires WorkerEnabled(s, tok, w) && !w.Ack? && !w.AckMissing?
    ensures WorkerNext(s, tok, w).db.streams == s.db.streams
  {
  }

  lemma SchedulerMove(s: System, id: TaskId, due: Time, c: int)
    requires Shaped(s) && Course(s, id, Waits(due), c) && Unrivalled(s.db.streams, s.created[id].priority)
    ensures Helps(s, Activate(id, due), id, Waits(due))
    ensures Unrivalled(Next(s, Activate(id, due)).db.streams, s.created[id].priority)
  {
    assert s.db.records[id].priority == s.created[id].priority;
  }

  lemma SomeMove(s: System, id: TaskId, st: Stage, c: int, now: Time) returns (e: Event)
    requires Shaped(s) && Course(s, id, st, c) && !st.Ended? && Unrivalled(s.db.streams, s.created[id].priority)
    ensures Helps(s, e, id, st) && Unrivalled(Next(s, e).db.streams, s.created[id].priority)
  {
    match st
    case Queued(p, m) =>
      ReadMove(s, id, p, m, c);
      e := Read("", 0);
    case Held(tok) =>
      HolderMove(s, id, tok, c, now);
      e := Worker(tok, HolderStep(s.live[tok], now));
    case Waits(due) =>
      SchedulerMove(s, id, due, c);
      e := Activate(id, due);
  }

  function Ahead(streams: Streams, st: Stage): int {
    if st.Queued? then st.m - streams.Of(st.p).next else 0
  }

  lemma StepAhead(s: System, e: Event, id: TaskId, st: Stage, c: int)
    requires Shaped(s) && Course(s, id, st, c) && Helps(s, e, id, st)
    ensures var s', st', c', max := Next(s, e), Advanced(s, e, id, st), After(e, st, c), s.created[id].maxRetries;
            && Shaped(s') && Course(s', id, st', c') && id in s'.created && s'.created[id] == s.created[id]
            && (Measure(s'.live, st', c', max) < Measure(s.live, st, c, max)
                || (Measure(s'.live, st', c', max) == Measure(s.live, st, c, max)
                    && Ahead(s'.db.streams, st') < Ahead(s.db.streams, st)))
  {
    Keeps(s, e);
    CreatedStays(s, e, id);
    Proceeds(s, e, id, st, c);
    CountsKeepUp(s, e, id, st, c, Execution);
    if !Moves(s, e, id, st) {
      StaysPut(s, e, id, st);
    }
  }

  /** From anywhere on its course, unless another task waits on a more urgent stream, the task can be
      brought to its end without disturbing it: one dead-letter entry after MaxRetries executions. */
  lemma {:induction false} CanEnd(s: System, id: TaskId, st: Stage, c: int, now: Time)
    returns (events: seq<Event>, s': System)
    requires Shaped(s) && Course(s, id, st, c) && Unrivalled(s.db.streams, s.created[id].priority)
    ensures LeadsUndisturbed(s, events, s', id) && id in s.created && Course(s', id, Ended, s.created[id].maxRetries)
    decreases Measure(s.live, st, c, s.created[id].maxRetries), Ahead(s.db.streams, st)
  {
    CourseMeasured(s, id, st, c);
    if st.Ended? {
      events, s' := [], s;
    } else {
      var e := SomeMove(s, id, st, c, now);
      StepAhead(s, e, id, st, c);
      var rest;
      rest, s' := CanEnd(Next(s, e), id, Advanced(s, e, id, st), After(e, st, c), now);
      events := [e] + rest;
      assert events[1..] == rest;
    }
  }
}
