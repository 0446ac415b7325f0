/** Building blocks for concrete runs of the protocol with a single task. */
module Scenarios {
  import opened Tasks
  import opened Store
  import opened Protocol
  import opened Shape
  import F = Refinement

  /** Where everything is, when there is one task only: its stream, its record, its scheduled entry,
      its dead-letter entries, the holders, the requests, and the counters. */
  datatype Scene = Scene(
    id: TaskId,
    p: Priority,
    max: int,
    st: Stream,
    record: Record,
    entry: Option<int>,
    dlq: seq<Option<Record>>,
    live: map<Token, Phase>,
    requests: map<nat, Request>,
    starts: int,
    recoveries: int,
    canceled: bool)

  ghost predicate Depicts(s: System, c: Scene) {
    && s.db.streams == EMPTY.streams.With(c.p, c.st)
    && s.db.records == map[c.id := c.record] && c.record.id == c.id && c.record.priority == c.p
    && s.db.scheduled == (if c.entry.Some? then map[c.id := c.entry.value] else map[])
    && s.db.dlq == c.dlq && s.live == c.live && s.requests == c.requests
    && s.created == map[c.id := Spec(c.p, c.max)] && s.completed == {}
         && s.canceled == (if c.canceled then {c.id} else {})
    && Tally(s.starts, c.id) == c.starts && Tally(s.recoveries, c.id) == c.recoveries
  }

  predicate IsNew(r: Record) {
    r.attempts == 0 && r.maxRetries >= 1
  }

  function Enqueued(r: Record): Scene {
    Scene(r.id, r.priority, r.maxRetries, Stream([r.id], 0, map[], {}), r, None, [], map[], map[], 0, 0, false)
  }

  lemma Submitted(retention: bool, minIdle: Time, r: Record) returns (events: seq<Event>, s: System)
    requires IsNew(r) && r.state.Pending?
    ensures Leads(Start(retention, minIdle), events, s) && Depicts(s, Enqueued(r))
    ensures s.retention == retention && s.minIdle == minIdle
  {
    var start := Start(retention, minIdle);
    var e, f := Api(0, Submit(r)), Api(0, SubmitAppend);
    var s1 := start.Serve(EMPTY.Save(r, false), 0, Creating(r));
    s := Next(s1, f);
    F.TwoSteps(start, e, f, s1, s);
    events := [e, f];
  }

  lemma SubmittedLater(retention: bool, minIdle: Time, r: Record) returns (events: seq<Event>, s: System)
    requires IsNew(r) && r.state.Scheduled? && r.scheduledAt.Some?
    ensures Leads(Start(retention, minIdle), events, s)
    ensures Depicts(s, Scene(r.id, r.priority, r.maxRetries, EMPTY_STREAM, r,
      Some(UnixSeconds(r.scheduledAt.value)), [], map[], map[], 0, 0, false))
  {
    var start := Start(retention, minIdle);
    var e, f := Api(0, Submit(r)), Api(0, SubmitSchedule);
    var s1 := start.Serve(EMPTY.Save(r, false), 0, Creating(r));
    s := Next(s1, f);
    F.TwoSteps(start, e, f, s1, s);
    events := [e, f];
  }

  lemma CancelIt(s: System, c: Scene, now: Time) returns (events: seq<Event>, s': System)
    requires Depicts(s, c) && CanBeCanceled(c.record.state) && 0 !in c.requests
    ensures Leads(s, events, s') && Depicts(s', c.(record := Moved(c.record, Canceled, now), canceled := true))
    ensures Same(s, s')
  {
    var e, f := Api(0, CancelLoad(c.id, now)), Api(0, CancelStore);
    var s1 := s.Serve(s.db, 0, Canceling(Moved(c.record, Canceled, now)));
    s' := Next(s1, f);
    F.TwoSteps(s, e, f, s1, s');
    events := [e, f];
  }

  /** The next message of the task is read and its record loaded. */
  function HandedOut(c: Scene, consumer: string, now: Time): Scene {
    c.(st := c.st.Deliver(consumer, now), live := c.live[Msg(c.p, c.st.next) := Loaded(c.record)])
  }

  lemma ReadOne(s: System, c: Scene, consumer: string, now: Time)
    requires Depicts(s, c) && c.st.next < |c.st.log| && c.st.log[c.st.next] == c.id
    ensures var e, tok := Read(consumer, now), Msg(c.p, c.st.next);
            && Enabled(s, e) && WorkerEnabled(Next(s, e), tok, Load)
            && Depicts(Next(s, e), c.(st := c.st.Deliver(consumer, now), live := c.live[tok := Phase.Fetched]))
                 && Same(s, Next(s, e))
  {
    assert s.db.FirstReady() == Option.Some(c.p);
  }

  lemma Fetch(s: System, c: Scene, consumer: string, now: Time) returns (events: seq<Event>, s': System)
    requires Depicts(s, c) && c.st.next < |c.st.log| && c.st.log[c.st.next] == c.id
    ensures Leads(s, events, s') && Depicts(s', HandedOut(c, consumer, now)) && Same(s, s')
  {
    var tok := Msg(c.p, c.st.next);
    var e, f := Read(consumer, now), Worker(tok, Load);
    ReadOne(s, c, consumer, now);
    var s1 := Next(s, e);
    F.LoadStep(s1, tok, "", 0);
    s' := Next(s1, f);
    F.TwoSteps(s, e, f, s1, s');
    assert c.live[tok := Phase.Fetched][tok := Loaded(c.record)] == c.live[tok := Loaded(c.record)];
    events := [e, f];
  }

  predicate Same(s: System, s': System) {
    s'.retention == s.retention && s'.minIdle == s.minIdle
  }

  function Begun(c: Scene, tok: Token, t: Record, worker: string, now: Time): Scene {
    var t' := Started(t, worker, now);
    c.(record := t', live := c.live[tok := Executing(t')], starts := c.starts + 1)
  }

  predicate Holds(c: Scene, tok: Token, ph: Phase) {
    && tok.Msg? && tok.p == c.p && tok.m < |c.st.log| && tok in c.live && c.live[tok] == ph
    && (HasTask(ph) ==> ph.t.id == c.id && ph.t.priority == c.p)
  }

  lemma BeginIt(s: System, c: Scene, tok: Token, t: Record, worker: string, now: Time)
    returns (events: seq<Event>, s': System)
    requires Depicts(s, c) && Holds(c, tok, Loaded(t)) && t.state.CanTransitionTo(Running)
    ensures Leads(s, events, s') && Depicts(s', Begun(c, tok, t, worker, now)) && Same(s, s')
  {
    var e := Worker(tok, Begin(worker, now));
    s' := Next(s, e);
    OneMore(s, e, [], s', s');
    events := [e];
  }

  /** The handler failed and the retry time is stored. */
  function RetrySaved(c: Scene, tok: Token, t: Record, now: Time, delay: Time): Scene {
    var q := FailedForRetry(t, "", now, delay);
    c.(record := q, live := c.live[tok := RetryStored(q)])
  }

  lemma SaveRetry(s: System, c: Scene, tok: Token, t: Record, now: Time, delay: Time)
    returns (events: seq<Event>, s': System)
    requires Depicts(s, c) && Holds(c, tok, Executing(t)) && t.state.Running? && t.CanRetry()
    ensures Leads(s, events, s') && Depicts(s', RetrySaved(c, tok, t, now, delay)) && Same(s, s')
  {
    RetryBranchAlwaysSchedules(t, "", now, delay);
    var e := Worker(tok, FailRetry("", now, delay));
    s' := Next(s, e);
    OneMore(s, e, [], s', s');
    events := [e];
  }

  /** ... and the task is in the scheduled set; only the acknowledgement is missing. */
  function Rescheduled(c: Scene, tok: Token, q: Record): Scene
    requires q.scheduledAt.Some?
  {
    c.(record := q, entry := Option.Some(UnixSeconds(q.scheduledAt.value)), live := c.live[tok := Settled(q)])
  }

  lemma RescheduleIt(s: System, c: Scene, tok: Token, q: Record) returns (events: seq<Event>, s': System)
    requires Depicts(s, c) && Holds(c, tok, RetryStored(q)) && q.scheduledAt.Some?
    ensures Leads(s, events, s') && Depicts(s', Rescheduled(c, tok, q)) && Same(s, s')
  {
    var e, f := Worker(tok, StoreAgain), Worker(tok, Reschedule);
    var s1 := s.Hold(s.db.Save(q, false), tok, RetryStoredTwice(q));
    s' := s1.Hold(s1.db.Schedule(q.id, UnixSeconds(q.scheduledAt.value)), tok, Settled(q));
    F.TwoSteps(s, e, f, s1, s');
    assert c.live[tok := RetryStoredTwice(q)][tok := Settled(q)] == c.live[tok := Settled(q)];
    events := [e, f];
  }

  lemma AckIt(s: System, c: Scene, tok: Token, t: Record) returns (events: seq<Event>, s': System)
    requires Depicts(s, c) && Holds(c, tok, Settled(t))
    ensures Leads(s, events, s') && Depicts(s', c.(st := c.st.Ack(tok.m), live := c.live - {tok})) && Same(s, s')
  {
    var e := Worker(tok, Ack);
    s' := Next(s, e);
    OneMore(s, e, [], s', s');
    events := [e];
  }

  lemma CrashIt(s: System, c: Scene, tok: Token) returns (events: seq<Event>, s': System)
    requires Depicts(s, c) && tok in c.live
    ensures Leads(s, events, s') && Depicts(s', c.(live := c.live - {tok})) && Same(s, s') && s'.db == s.db
  {
    var e := Crash(tok);
    s' := Next(s, e);
    OneMore(s, e, [], s', s');
    events := [e];
  }

  /** Recovery claims an idle message, reads the record ... */
  function OrphanLoaded(c: Scene, m: MessageId, minIdle: Time, now: Time): Scene {
    c.(st := c.st.Claim(m, minIdle, "", now), live := c.live[Msg(c.p, m) := Orphan(Prepared(c.record, now))])
  }

  lemma LoadOrphanIt(s: System, c: Scene, m: MessageId, minIdle: Time, now: Time)
    returns (events: seq<Event>, s': System)
    requires Depicts(s, c) && m < |c.st.log| && c.st.log[m] == c.id && Msg(c.p, m) !in c.live
    requires m in c.st.pel && now - c.st.pel[m].since >= minIdle == s.minIdle
    ensures Leads(s, events, s') && Depicts(s', OrphanLoaded(c, m, minIdle, now)) && Same(s, s')
  {
    var tok, t := Msg(c.p, m), Prepared(c.record, now);
    var e, f := Recovery(tok, Claim("", now)), Recovery(tok, LoadOrphan(now));
    var s1 := s.Hold(s.db.Claim(c.p, m, s.minIdle, "", now), tok, Claimed);
    s' := s1.Hold(s1.db, tok, Orphan(t));
    ClaimAndLoad(s, c, m, now);
    F.TwoSteps(s, e, f, s1, s');
    assert c.live[tok := Claimed][tok := Orphan(t)] == c.live[tok := Orphan(t)];
    events := [e, f];
  }

  lemma ClaimAndLoad(s: System, c: Scene, m: MessageId, now: Time)
    requires Depicts(s, c) && m < |c.st.log| && c.st.log[m] == c.id && Msg(c.p, m) !in c.live
    requires m in c.st.pel && now - c.st.pel[m].since >= s.minIdle
    ensures var tok, t := Msg(c.p, m), Prepared(c.record, now);
            var s1 := s.Hold(s.db.Claim(c.p, m, s.minIdle, "", now), tok, Claimed);
            && Enabled(s, Recovery(tok, Claim("", now))) && Next(s, Recovery(tok, Claim("", now))) == s1
            && Enabled(s1, Recovery(tok, LoadOrphan(now)))
            && Next(s1, Recovery(tok, LoadOrphan(now))) == s1.Hold(s1.db, tok, Orphan(t))
  {
  }

  /** ... and stores it as Pending. */
  function OrphanSaved(c: Scene, tok: Token, t: Record): Scene {
    c.(record := t, live := c.live[tok := OrphanStored(t)], recoveries := c.recoveries + 1)
  }

  lemma SaveOrphan(s: System, c: Scene, tok: Token, t: Record) returns (events: seq<Event>, s': System)
    requires Depicts(s, c) && Holds(c, tok, Orphan(t)) && t.state.Pending?
    ensures Leads(s, events, s') && Depicts(s', OrphanSaved(c, tok, t)) && Same(s, s')
  {
    var e := Recovery(tok, StoreOrphan);
    s' := Next(s, e);
    OneMore(s, e, [], s', s');
    events := [e];
  }

  function OrphanAppended(c: Scene, tok: Token, t: Record): Scene {
    c.(st := c.st.Add(c.id), live := c.live[tok := Settled(t)])
  }

  lemma AppendIt(s: System, c: Scene, tok: Token, t: Record) returns (events: seq<Event>, s': System)
    requires Depicts(s, c) && Holds(c, tok, OrphanStored(t))
    ensures Leads(s, events, s') && Depicts(s', OrphanAppended(c, tok, t)) && Same(s, s')
  {
    var e := Recovery(tok, AppendOrphan);
    s' := Next(s, e);
    OneMore(s, e, [], s', s');
    events := [e];
  }

  /** The scheduler activates the task. */
  function Due(c: Scene, now: Time): Scene {
    c.(record := Moved(c.record, Pending, now), st := c.st.Add(c.id), entry := Option.None)
  }

  lemma ActivateIt(s: System, c: Scene, now: Time) returns (events: seq<Event>, s': System)
    requires Depicts(s, c) && c.record.state.IsDeferred() && c.entry.Some? && c.entry.value <= UnixSeconds(now)
    ensures Leads(s, events, s') && Depicts(s', Due(c, now)) && Same(s, s')
  {
    var e := Activate(c.id, now);
    s' := Next(s, e);
    OneMore(s, e, [], s', s');
    events := [e];
  }

  /** The last attempt failed and Failed is stored. */
  function FinalSaved(c: Scene, tok: Token, t: Record, now: Time): Scene {
    var e := Errored(t, "", now);
    c.(record := e, live := c.live[tok := FailStored(e)])
  }

  lemma SaveFinal(s: System, c: Scene, tok: Token, t: Record, now: Time) returns (events: seq<Event>, s': System)
    requires Depicts(s, c) && Holds(c, tok, Executing(t)) && t.state.Running? && !t.CanRetry()
    ensures Leads(s, events, s') && Depicts(s', FinalSaved(c, tok, t, now)) && Same(s, s')
    ensures s.retention ==> c.id in s'.db.expiring
  {
    var e := Worker(tok, FailFinal("", now));
    s' := Next(s, e);
    OneMore(s, e, [], s', s');
    events := [e];
  }

  // ---------------------------------------------------------------------------
  // Longer blocks.
  // ---------------------------------------------------------------------------

  /** A failure, up to the missing acknowledgement. */
  function Postponed(c: Scene, tok: Token, t: Record, now: Time, delay: Time): Scene {
    var q := FailedForRetry(t, "", now, delay);
    c.(record := q, entry := Option.Some(UnixSeconds(now + delay)), live := c.live[tok := Settled(q)])
  }

  lemma PostponeIt(s: System, c: Scene, tok: Token, t: Record, now: Time, delay: Time)
    returns (events: seq<Event>, s': System)
    requires Depicts(s, c) && Holds(c, tok, Executing(t)) && t.state.Running? && t.CanRetry()
    ensures Leads(s, events, s') && Depicts(s', Postponed(c, tok, t, now, delay)) && Same(s, s')
  {
    PostponedScene(c, tok, t, now, delay);
    var a, s1 := SaveRetry(s, c, tok, t, now, delay);
    var b;
    b, s' := RescheduleIt(s1, RetrySaved(c, tok, t, now, delay), tok, FailedForRetry(t, "", now, delay));
    F.Joined(s, a, s1, b, s');
    events := a + b;
  }

  lemma PostponedScene(c: Scene, tok: Token, t: Record, now: Time, delay: Time)
    requires Holds(c, tok, Executing(t)) && t.state.Running? && t.CanRetry()
    ensures var c1, q := RetrySaved(c, tok, t, now, delay), FailedForRetry(t, "", now, delay);
            && Holds(c1, tok, RetryStored(q)) && q.scheduledAt.Some?
            && Rescheduled(c1, tok, q) == Postponed(c, tok, t, now, delay)
  {
    RetryBranchAlwaysSchedules(t, "", now, delay);
    var q := FailedForRetry(t, "", now, delay);
    assert c.live[tok := RetryStored(q)][tok := Settled(q)] == c.live[tok := Settled(q)];
  }

  /** The recovery of one message, start to finish. */
  function Recovered(c: Scene, m: MessageId, minIdle: Time, now: Time): Scene {
    c.(st := c.st.Claim(m, minIdle, "", now).Add(c.id).Ack(m), record := Prepared(c.record, now),
      recoveries := c.recoveries + 1)
  }

  lemma RecoverIt(s: System, c: Scene, m: MessageId, minIdle: Time, now: Time) returns (events: seq<Event>, s': System)
    requires Depicts(s, c) && m < |c.st.log| && c.st.log[m] == c.id && Msg(c.p, m) !in c.live
    requires m in c.st.pel && now - c.st.pel[m].since >= minIdle == s.minIdle
    ensures Leads(s, events, s') && Depicts(s', Recovered(c, m, minIdle, now)) && Same(s, s')
  {
    RequeuedScene(c, m, minIdle, now);
    var tok, t := Msg(c.p, m), Prepared(c.record, now);
    var c1 := OrphanLoaded(c, m, minIdle, now);
    assert c.record.id == c.id && c.record.priority == c.p;
    var a, s1 := LoadOrphanIt(s, c, m, minIdle, now);
    var b;
    b, s' := SaveAppendAndAck(s1, c1, tok, t);
    F.Joined(s, a, s1, b, s');
    events := a + b;
  }

  lemma RequeuedScene(c: Scene, m: MessageId, minIdle: Time, now: Time)
    requires m < |c.st.log| && Msg(c.p, m) !in c.live
    ensures var c1 := OrphanLoaded(c, m, minIdle, now);
            c1.(st := c1.st.Add(c.id).Ack(m), record := Prepared(c.record, now), live := c1.live - {Msg(c.p, m)},
                recoveries := c.recoveries + 1) == Recovered(c, m, minIdle, now)
  {
    var tok, t := Msg(c.p, m), Prepared(c.record, now);
    assert c.live[tok := Orphan(t)] - {tok} == c.live;
  }

  lemma SaveAppendAndAck(s: System, c: Scene, tok: Token, t: Record) returns (events: seq<Event>, s': System)
    requires Depicts(s, c) && Holds(c, tok, Orphan(t)) && t.state.Pending?
    ensures Leads(s, events, s') && Same(s, s')
    ensures Depicts(s', c.(st := c.st.Add(c.id).Ack(tok.m), record := t, live := c.live - {tok},
      recoveries := c.recoveries + 1))
  {
    var a, s1 := SaveOrphan(s, c, tok, t);
    var b;
    b, s' := AppendAndAck(s1, OrphanSaved(c, tok, t), tok, t);
    F.Joined(s, a, s1, b, s');
    assert c.live[tok := OrphanStored(t)] - {tok} == c.live - {tok};
    events := a + b;
  }

  lemma AppendAndAck(s: System, c: Scene, tok: Token, t: Record) returns (events: seq<Event>, s': System)
    requires Depicts(s, c) && Holds(c, tok, OrphanStored(t))
    ensures Leads(s, events, s') && Depicts(s', c.(st := c.st.Add(c.id).Ack(tok.m), live := c.live - {tok}))
    ensures Same(s, s')
  {
    AppendedScene(c, tok, t);
    var a, s1 := AppendIt(s, c, tok, t);
    var b;
    b, s' := AckIt(s1, OrphanAppended(c, tok, t), tok, t);
    F.Joined(s, a, s1, b, s');
    events := a + b;
  }

  lemma AppendedScene(c: Scene, tok: Token, t: Record)
    requires Holds(c, tok, OrphanStored(t))
    ensures var c1 := OrphanAppended(c, tok, t);
            && Holds(c1, tok, Settled(t))
            && c1.(st := c1.st.Ack(tok.m), live := c1.live - {tok})
               == c.(st := c.st.Add(c.id).Ack(tok.m), live := c.live - {tok})
  {
    assert c.live[tok := Settled(t)] - {tok} == c.live - {tok};
  }

  /** A new task, handed to a worker. */
  function Delivered(r: Record, now: Time): Scene {
    HandedOut(Enqueued(r), "", now)
  }

  lemma DeliverIt(retention: bool, minIdle: Time, r: Record, now: Time) returns (events: seq<Event>, s: System)
    requires IsNew(r) && r.state.Pending?
    ensures Leads(Start(retention, minIdle), events, s) && Depicts(s, Delivered(r, now))
    ensures s.retention == retention && s.minIdle == minIdle
  {
    var a, s1 := Submitted(retention, minIdle, r);
    var b;
    b, s := Fetch(s1, Enqueued(r), "", now);
    F.Joined(Start(retention, minIdle), a, s1, b, s);
    events := a + b;
  }

  /** ... which crashes. */
  function Abandoned(r: Record, now: Time): Scene {
    Delivered(r, now).(live := map[])
  }

  lemma AbandonedScene(r: Record, now: Time)
    ensures var c := Abandoned(r, now);
            c.id == r.id && c.p == r.priority && c.live == map[]
              && c.st == Stream([r.id], 1, map[0 := Delivery("", now)], {})
  {
  }

  lemma AbandonIt(retention: bool, minIdle: Time, r: Record, now: Time) returns (events: seq<Event>, s: System)
    requires IsNew(r) && r.state.Pending?
    ensures Leads(Start(retention, minIdle), events, s) && Depicts(s, Abandoned(r, now))
    ensures s.retention == retention && s.minIdle == minIdle
  {
    var a, s1 := DeliverIt(retention, minIdle, r, now);
    var b;
    b, s := CrashIt(s1, Delivered(r, now), Msg(r.priority, 0));
    F.Joined(Start(retention, minIdle), a, s1, b, s);
    assert Delivered(r, now).live - {Msg(r.priority, 0)} == map[];
    events := a + b;
  }

  /** ... and executing. */
  function Underway(r: Record, now: Time): Scene {
    Begun(Delivered(r, now), Msg(r.priority, 0), r, "", now)
  }

  lemma RunIt(retention: bool, minIdle: Time, r: Record, now: Time) returns (events: seq<Event>, s: System)
    requires IsNew(r) && r.state.Pending?
    ensures Leads(Start(retention, minIdle), events, s) && Depicts(s, Underway(r, now))
    ensures s.retention == retention && s.minIdle == minIdle
  {
    var a, s1 := DeliverIt(retention, minIdle, r, now);
    var b;
    b, s := BeginIt(s1, Delivered(r, now), Msg(r.priority, 0), r, "", now);
    F.Joined(Start(retention, minIdle), a, s1, b, s);
    events := a + b;
  }

  /** A worker takes the next message and starts the handler. */
  function Taken(c: Scene, now: Time): Scene {
    Begun(HandedOut(c, "", now), Msg(c.p, c.st.next), c.record, "", now)
  }

  lemma TakeIt(s: System, c: Scene, now: Time) returns (events: seq<Event>, s': System)
    requires Depicts(s, c) && c.st.next < |c.st.log| && c.st.log[c.st.next] == c.id
    requires c.record.state.CanTransitionTo(State.Running)
    ensures Leads(s, events, s') && Depicts(s', Taken(c, now)) && Same(s, s')
  {
    var a, s1 := Fetch(s, c, "", now);
    var b;
    b, s' := BeginIt(s1, HandedOut(c, "", now), Msg(c.p, c.st.next), c.record, "", now);
    F.Joined(s, a, s1, b, s');
    events := a + b;
  }

  /** The attempt fails, and the message is acknowledged. */
  function PutOff(c: Scene, tok: Token, t: Record, now: Time, delay: Time): Scene
    requires tok.Msg?
  {
    Postponed(c, tok, t, now, delay).(st := c.st.Ack(tok.m), live := c.live - {tok})
  }

  lemma PutItOff(s: System, c: Scene, tok: Token, t: Record, now: Time, delay: Time)
    returns (events: seq<Event>, s': System)
    requires Depicts(s, c) && Holds(c, tok, Executing(t)) && t.state.Running? && t.CanRetry()
    ensures Leads(s, events, s') && Depicts(s', PutOff(c, tok, t, now, delay)) && Same(s, s')
  {
    var q, c1 := FailedForRetry(t, "", now, delay), Postponed(c, tok, t, now, delay);
    PutOffScene(c, tok, t, now, delay);
    var a, s1 := PostponeIt(s, c, tok, t, now, delay);
    var b;
    b, s' := AckIt(s1, c1, tok, q);
    F.Joined(s, a, s1, b, s');
    events := a + b;
  }

  lemma PutOffScene(c: Scene, tok: Token, t: Record, now: Time, delay: Time)
    requires Holds(c, tok, Executing(t)) && t.state.Running? && t.CanRetry()
    ensures var c1, q := Postponed(c, tok, t, now, delay), FailedForRetry(t, "", now, delay);
            && Holds(c1, tok, Settled(q))
            && c1.(st := c1.st.Ack(tok.m), live := c1.live - {tok}) == PutOff(c, tok, t, now, delay)
  {
    PostponedScene(c, tok, t, now, delay);
    var q := FailedForRetry(t, "", now, delay);
    assert c.live[tok := Settled(q)] - {tok} == c.live - {tok};
  }

  /** The next message is delivered, and the attempt fails: the task waits for its retry. */
  function FailedNext(c: Scene, now: Time, delay: Time): Scene {
    PutOff(Taken(c, now), Msg(c.p, c.st.next), Started(c.record, "", now), now, delay)
  }

  lemma FailNext(s: System, c: Scene, now: Time, delay: Time) returns (events: seq<Event>, s': System)
    requires Depicts(s, c) && c.st.next < |c.st.log| && c.st.log[c.st.next] == c.id
    requires c.record.state.Pending? && c.record.attempts + 1 < c.record.maxRetries
    ensures Leads(s, events, s') && Depicts(s', FailedNext(c, now, delay)) && Same(s, s')
  {
    var a, s1 := TakeIt(s, c, now);
    var b;
    b, s' := PutItOff(s1, Taken(c, now), Msg(c.p, c.st.next), Started(c.record, "", now), now, delay);
    F.Joined(s, a, s1, b, s');
    events := a + b;
  }

  /** A first attempt that failed, and a worker that crashed before its acknowledgement. */
  function LeftPending(r: Record, now: Time, delay: Time): Scene {
    Postponed(Underway(r, now), Msg(r.priority, 0), Started(r, "", now), now, delay).(live := map[])
  }

  lemma LeavePending(retention: bool, minIdle: Time, r: Record, now: Time, delay: Time)
    returns (events: seq<Event>, s: System)
    requires IsNew(r) && r.state.Pending? && r.maxRetries >= 2
    ensures Leads(Start(retention, minIdle), events, s) && Depicts(s, LeftPending(r, now, delay))
    ensures s.retention == retention && s.minIdle == minIdle
  {
    var start, tok, t := Start(retention, minIdle), Msg(r.priority, 0), Started(r, "", now);
    var a, s1 := RunIt(retention, minIdle, r, now);
    var b, s2 := PostponeIt(s1, Underway(r, now), tok, t, now, delay);
    var c := Postponed(Underway(r, now), tok, t, now, delay);
    var d;
    d, s := CrashIt(s2, c, tok);
    assert c.live - {tok} == map[];
    F.Joined(start, a, s1, b, s2);
    F.Joined(start, a + b, s2, d, s);
    events := a + b + d;
  }
}
