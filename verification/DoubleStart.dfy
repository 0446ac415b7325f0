/** The execution bound needs serial runs: two messages of one task, left by a crash and a recovery,
    start its handler in pairs, while the stored attempts count every pair once. */
module DoubleStart {
  import opened Tasks
  import opened Store
  import opened Protocol
  import opened Scenarios
  import E = Execution
  import F = Refinement
  import T = Terminal

  /** Two messages of the waiting task, next on its stream, after n attempts by the record's count. */
  predicate Twin(c: Scene, n: int) {
    && c.st.next + 2 == |c.st.log| && c.st.log[c.st.next] == c.id && c.st.log[c.st.next + 1] == c.id
    && c.record.state.Pending? && c.record.attempts == n && c.record.maxRetries == c.max
    && c.record.id == c.id && c.record.priority == c.p
    && c.entry.None? && c.live == map[] && c.starts == 2 * n - 1 && c.recoveries == 1
  }

  // ---------------------------------------------------------------------------
  // How it comes about: a worker crashes between rescheduling and acknowledging; the scheduler
  // activates the task, and recovery requeues the message left behind.
  // ---------------------------------------------------------------------------

  function FirstTwin(r: Record, now: Time, minIdle: Time, later: Time): Scene {
    Recovered(Due(LeftPending(r, now, 0), now), 0, minIdle, later)
  }

  lemma FirstTwinScene(r: Record, now: Time, minIdle: Time, later: Time)
    requires IsNew(r) && r.state.Pending? && r.maxRetries >= 2 && later - now >= minIdle
    ensures Twin(FirstTwin(r, now, minIdle, later), 1) && FirstTwin(r, now, minIdle, later).max == r.maxRetries
    ensures FirstTwin(r, now, minIdle, later).id == r.id
    ensures var c := Due(LeftPending(r, now, 0), now);
            && c.id == r.id && c.p == r.priority && c.live == map[]
            && c.st == Stream([r.id, r.id], 1, map[0 := Delivery("", now)], {})
    ensures var c := LeftPending(r, now, 0); c.record.state.IsDeferred() && c.entry == Option.Some(UnixSeconds(now))
  {
    RetryBranchAlwaysSchedules(Started(r, "", now), "", now, 0);
  }

  lemma FirstTwinRuns(retention: bool, minIdle: Time, r: Record, now: Time, later: Time)
    returns (events: seq<Event>, s: System)
    requires IsNew(r) && r.state.Pending? && r.maxRetries >= 2 && later - now >= minIdle
    ensures Leads(Start(retention, minIdle), events, s) && Depicts(s, FirstTwin(r, now, minIdle, later))
  {
    FirstTwinScene(r, now, minIdle, later);
    var start, c0 := Start(retention, minIdle), LeftPending(r, now, 0);
    var c1 := Due(c0, now);
    var a, s1 := LeavePending(retention, minIdle, r, now, 0);
    var b, s2 := ActivateIt(s1, c0, now);
    var d;
    d, s := RecoverIt(s2, c1, 0, minIdle, later);
    F.Joined(start, a, s1, b, s2);
    F.Joined(start, a + b, s2, d, s);
    events := a + b + d;
  }

  // ---------------------------------------------------------------------------
  // One round: both messages are read before either worker starts.
  // ---------------------------------------------------------------------------

  function First(c: Scene): Token {
    Msg(c.p, c.st.next)
  }

  function Second(c: Scene): Token {
    Msg(c.p, c.st.next + 1)
  }

  function BothRead(c: Scene, now: Time): Scene {
    HandedOut(HandedOut(c, "", now), "", now)
  }

  function BothStarted(c: Scene, now: Time): Scene {
    Begun(Begun(BothRead(c, now), First(c), c.record, "", now), Second(c), c.record, "", now)
  }

  lemma StartedScene(c: Scene, now: Time, n: int)
    requires Twin(c, n)
    ensures var c1, t := BothStarted(c, now), Started(c.record, "", now);
            && Holds(Begun(BothRead(c, now), First(c), c.record, "", now), Second(c), Loaded(c.record))
            && Holds(BothRead(c, now), First(c), Loaded(c.record))
            && c1.live == map[First(c) := Executing(t), Second(c) := Executing(t)] && c1.starts == 2 * n + 1
            && c1.st.log == c.st.log && c1.st.next == |c.st.log| && c1.record == t && c1.entry.None?
            && c1.id == c.id && c1.p == c.p && c1.max == c.max && c1.recoveries == c.recoveries
  {
  }

  lemma BothRun(s: System, c: Scene, now: Time, n: int) returns (events: seq<Event>, s': System)
    requires Depicts(s, c) && Twin(c, n)
    ensures Leads(s, events, s') && Depicts(s', BothStarted(c, now))
  {
    StartedScene(c, now, n);
    var a, s1 := BothReadRun(s, c, now, n);
    var c1 := BothRead(c, now);
    var b, s2 := BeginIt(s1, c1, First(c), c.record, "", now);
    var d;
    d, s' := BeginIt(s2, Begun(c1, First(c), c.record, "", now), Second(c), c.record, "", now);
    F.Joined(s, a, s1, b, s2);
    F.Joined(s, a + b, s2, d, s');
    events := a + b + d;
  }

  lemma BothReadRun(s: System, c: Scene, now: Time, n: int) returns (events: seq<Event>, s': System)
    requires Depicts(s, c) && Twin(c, n)
    ensures Leads(s, events, s') && Depicts(s', BothRead(c, now))
  {
    var a, s1 := Fetch(s, c, "", now);
    var b;
    b, s' := Fetch(s1, HandedOut(c, "", now), "", now);
    F.Joined(s, a, s1, b, s');
    events := a + b;
  }

  /** Both attempts fail, one after the other, each followed by the scheduler. */
  function Again(c: Scene, tok: Token, t: Record, now: Time): Scene {
    Due(Postponed(c, tok, t, now, 0), now)
  }

  lemma AgainRun(s: System, c: Scene, tok: Token, t: Record, now: Time) returns (events: seq<Event>, s': System)
    requires Depicts(s, c) && Holds(c, tok, Executing(t)) && t.state.Running? && t.CanRetry()
    ensures Leads(s, events, s') && Depicts(s', Again(c, tok, t, now))
  {
    RetryBranchAlwaysSchedules(t, "", now, 0);
    var c1 := Postponed(c, tok, t, now, 0);
    var a, s1 := PostponeIt(s, c, tok, t, now, 0);
    var b;
    b, s' := ActivateIt(s1, c1, now);
    F.Joined(s, a, s1, b, s');
    events := a + b;
  }

  function Acked(c: Scene, tok: Token): Scene
    requires tok.Msg?
  {
    c.(st := c.st.Ack(tok.m), live := c.live - {tok})
  }

  /** What a round leads to. */
  function Round(c: Scene, now: Time): Scene {
    var t := Started(c.record, "", now);
    Acked(Acked(Again(Again(BothStarted(c, now), First(c), t, now), Second(c), t, now), First(c)), Second(c))
  }

  lemma AgainScene(c: Scene, now: Time, n: int)
    requires Twin(c, n) && n + 1 < c.max
    ensures var c1, t := BothStarted(c, now), Started(c.record, "", now);
            var q := FailedForRetry(t, "", now, 0);
            var c2 := Again(c1, First(c), t, now);
            var c3 := Again(c2, Second(c), t, now);
            && t.state.Running? && t.CanRetry() && Holds(c1, First(c), Executing(t))
                 && Holds(c2, Second(c), Executing(t))
            && Holds(c3, First(c), Settled(q)) && Holds(Acked(c3, First(c)), Second(c), Settled(q))
  {
    StartedScene(c, now, n);
    RetryBranchAlwaysSchedules(Started(c.record, "", now), "", now, 0);
  }

  lemma RoundScene(c: Scene, now: Time, n: int)
    requires Twin(c, n) && n + 1 < c.max
    ensures Twin(Round(c, now), n + 1) && Round(c, now).max == c.max && Round(c, now).id == c.id
  {
    StartedScene(c, now, n);
    RetryBranchAlwaysSchedules(Started(c.record, "", now), "", now, 0);
  }

  lemma RoundRun(s: System, c: Scene, now: Time, n: int) returns (events: seq<Event>, s': System)
    requires Depicts(s, c) && Twin(c, n) && n + 1 < c.max
    ensures Leads(s, events, s') && Depicts(s', Round(c, now))
  {
    AgainScene(c, now, n);
    var t, q := Started(c.record, "", now), FailedForRetry(Started(c.record, "", now), "", now, 0);
    var c1 := BothStarted(c, now);
    var c2 := Again(c1, First(c), t, now);
    var c3 := Again(c2, Second(c), t, now);
    var a, s1 := BothRun(s, c, now, n);
    var b, s2 := AgainRun(s1, c1, First(c), t, now);
    var d, s3 := AgainRun(s2, c2, Second(c), t, now);
    var e;
    e, s' := BothAck(s3, c3, First(c), Second(c), q);
    F.Joined(s, a, s1, b, s2);
    F.Joined(s, a + b, s2, d, s3);
    F.Joined(s, a + b + d, s3, e, s');
    events := a + b + d + e;
  }

  lemma BothAck(s: System, c: Scene, x: Token, y: Token, q: Record) returns (events: seq<Event>, s': System)
    requires Depicts(s, c) && Holds(c, x, Settled(q)) && Holds(Acked(c, x), y, Settled(q))
    ensures Leads(s, events, s') && y.Msg? && Depicts(s', Acked(Acked(c, x), y))
  {
    var a, s1 := AckIt(s, c, x, q);
    var b;
    b, s' := AckIt(s1, Acked(c, x), y, q);
    F.Joined(s, a, s1, b, s');
    events := a + b;
  }

  // ---------------------------------------------------------------------------
  // All rounds.
  // ---------------------------------------------------------------------------

  lemma {:induction false} AllRounds(s: System, c: Scene, now: Time, n: int) returns (events: seq<Event>, s': System)
    requires Depicts(s, c) && Twin(c, n) && 1 <= n < c.max
    ensures Leads(s, events, s') && c.id in s'.created
    ensures E.Starts(s', c.id) == 2 * c.max - 1 && E.Limit(s', c.id) == c.max + 1
    decreases c.max - n
  {
    if n + 1 == c.max {
      StartedScene(c, now, n);
      events, s' := BothRun(s, c, now, n);
    } else {
      RoundScene(c, now, n);
      var a, s1 := RoundRun(s, c, now, n);
      var b;
      b, s' := AllRounds(s1, Round(c, now), now, n + 1);
      F.Joined(s, a, s1, b, s');
      events := a + b;
    }
  }

  /** For every limit of at least three there is a run from the start of the system, with a single
      crash and a single recovery, in which the handler starts 2 * MaxRetries - 1 times, more often
      than MaxRetries plus the number of recoveries. */
  lemma BoundNeedsSerialRuns(retention: bool, minIdle: Time, r: Record, now: Time, later: Time)
    returns (events: seq<Event>, s: System)
    requires IsNew(r) && r.state.Pending? && r.maxRetries >= 3 && later - now >= minIdle
    ensures Leads(Start(retention, minIdle), events, s) && r.id in s.created
    ensures E.Starts(s, r.id) == 2 * r.maxRetries - 1 > E.Limit(s, r.id)
  {
    FirstTwinScene(r, now, minIdle, later);
    var c := FirstTwin(r, now, minIdle, later);
    var a, s1 := FirstTwinRuns(retention, minIdle, r, now, later);
    var b;
    b, s := AllRounds(s1, c, later, 1);
    F.Joined(Start(retention, minIdle), a, s1, b, s);
    events := a + b;
  }

  // ---------------------------------------------------------------------------
  // And a Completed record does not stay: the second worker starts after the first one is done.
  // ---------------------------------------------------------------------------

  function OneStarted(c: Scene, now: Time): Scene {
    Begun(BothRead(c, now), First(c), c.record, "", now)
  }

  lemma OneRuns(retention: bool, minIdle: Time, r: Record, now: Time, later: Time)
    returns (events: seq<Event>, s: System)
    requires IsNew(r) && r.state.Pending? && r.maxRetries >= 2 && later - now >= minIdle
    ensures Leads(Start(retention, minIdle), events, s)
    ensures Twin(FirstTwin(r, now, minIdle, later), 1)
    ensures Depicts(s, OneStarted(FirstTwin(r, now, minIdle, later), later))
  {
    FirstTwinScene(r, now, minIdle, later);
    var start, c := Start(retention, minIdle), FirstTwin(r, now, minIdle, later);
    StartedScene(c, later, 1);
    var a, s1 := FirstTwinRuns(retention, minIdle, r, now, later);
    var b, s2 := BothReadRun(s1, c, later, 1);
    var d;
    d, s := BeginIt(s2, BothRead(c, later), First(c), c.record, "", later);
    F.Joined(start, a, s1, b, s2);
    F.Joined(start, a + b, s2, d, s);
    events := a + b + d;
  }

  lemma SucceedIt(s: System, c: Scene, tok: Token, t: Record, now: Time) returns (events: seq<Event>, s': System)
    requires Depicts(s, c) && Holds(c, tok, Executing(t))
    ensures Leads(s, events, s') && s'.db.streams == s.db.streams && s'.created == s.created
    ensures s'.db.records == map[c.id := Succeeded(t, now)] && s'.live == s.live[tok := Settled(Succeeded(t, now))]
    ensures c.id in s'.completed
  {
    var e := Worker(tok, Succeed(now));
    s' := Next(s, e);
    F.OneStep(s, e, s');
    events := [e];
  }

  /** A run from the start in which a stored Completed record is overwritten with Running. */
  lemma CompletionOverwritten(retention: bool, minIdle: Time, r: Record, now: Time, later: Time)
    returns (events: seq<Event>, s: System, tok: Token)
    requires IsNew(r) && r.state.Pending? && r.maxRetries >= 2 && later - now >= minIdle
    ensures Leads(Start(retention, minIdle), events, s)
    ensures T.Ended(s, r.id) && r.id in s.completed && s.db.records[r.id].state.Completed?
    ensures T.Overwrites(s, Worker(tok, Begin("", later)), r.id)
  {
    FirstTwinScene(r, now, minIdle, later);
    var c := FirstTwin(r, now, minIdle, later);
    StartedScene(c, later, 1);
    tok := Second(c);
    var a, s1 := OneRuns(retention, minIdle, r, now, later);
    var b;
    b, s := SucceedIt(s1, OneStarted(c, later), First(c), Started(c.record, "", later), later);
    SecondOverwrites(s1, s, c, later);
    F.Joined(Start(retention, minIdle), a, s1, b, s);
    events := a + b;
  }

  lemma SecondOverwrites(s: System, s': System, c: Scene, now: Time)
    requires Twin(c, 1) && Depicts(s, OneStarted(c, now))
    requires var t := Succeeded(Started(c.record, "", now), now);
             && s'.db.records == map[c.id := t] && s'.live == s.live[First(c) := Settled(t)]
             && s'.db.streams == s.db.streams && s'.created == s.created
    ensures T.Ended(s', c.id) && s'.db.records[c.id].state.Completed?
    ensures T.Overwrites(s', Worker(Second(c), Begin("", now)), c.id)
  {
    StartedScene(c, now, 1);
  }
}
