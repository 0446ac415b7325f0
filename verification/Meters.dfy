/** A token bucket on its own clock, which ticks once per refilled token. */
module Meters {

  datatype Meter = Meter(level: real, cap: real, at: real) {

    function Refilled(tick: real): Meter {
      var t := level + (tick - at);
      this.(level := if t > cap then cap else t, at := tick)
    }

    predicate Accepts(tick: real) {
      Refilled(tick).level >= 1.0
    }

    function After(tick: real): Meter {
      var m := Refilled(tick);
      if m.level >= 1.0 then m.(level := m.level - 1.0) else m
    }

    predicate Bounded() {
      0.0 <= level <= cap && cap >= 1.0
    }
  }

  function Grants(m: Meter, ts: seq<real>): (ds: seq<bool>)
    ensures |ds| == |ts|
    decreases |ts|
  {
    if ts == [] then [] else [m.Accepts(ts[0])] + Grants(m.After(ts[0]), ts[1..])
  }

  function Spent(m: Meter, ts: seq<real>): Meter
    decreases |ts|
  {
    if ts == [] then m else Spent(m.After(ts[0]), ts[1..])
  }

  function Accepted(ds: seq<bool>): nat {
    if ds == [] then 0 else (if ds[0] then 1 else 0) + Accepted(ds[1..])
  }

  ghost predicate InOrder(since: real, ts: seq<real>) {
    && (forall k | 0 <= k < |ts| :: since <= ts[k])
    && (forall k, l | 0 <= k < l < |ts| :: ts[k] <= ts[l])
  }

  lemma {:induction false} StaysWithinBounds(m: Meter, ts: seq<real>)
    requires m.Bounded() && InOrder(m.at, ts)
    ensures Spent(m, ts).Bounded() && Spent(m, ts).cap == m.cap
    ensures Spent(m, ts).at == if ts == [] then m.at else ts[|ts| - 1]
    decreases |ts|
  {
    if ts != [] {
      StaysWithinBounds(m.After(ts[0]), ts[1..]);
    }
  }

  /** Every accepted call costs a token, and a tick earns one at most. */
  lemma {:induction false} EarnedAndSpent(m: Meter, ts: seq<real>, end: real)
    requires m.Bounded() && InOrder(m.at, ts) && end >= if ts == [] then m.at else ts[|ts| - 1]
    ensures Accepted(Grants(m, ts)) as real <= m.level + (end - m.at)
    decreases |ts|
  {
    if ts != [] {
      EarnedAndSpent(m.After(ts[0]), ts[1..], end);
    }
  }

  lemma {:induction false} GrantsInTwo(m: Meter, ts: seq<real>, us: seq<real>)
    ensures Grants(m, ts + us) == Grants(m, ts) + Grants(Spent(m, ts), us)
    decreases |ts|
  {
    if ts == [] {
      assert ts + us == us;
    } else {
      GrantsInTwo(m.After(ts[0]), ts[1..], us);
      assert (ts + us)[1..] == ts[1..] + us;
    }
  }

  /** A window may start with the refill of its first call. */
  lemma {:induction false} RefillFirst(m: Meter, ts: seq<real>)
    requires m.Bounded() && ts != [] && m.at <= ts[0]
    ensures m.Refilled(ts[0]).Bounded()
    ensures Grants(m.Refilled(ts[0]), ts) == Grants(m, ts)
  {
  }

  lemma {:induction false} GrantsOfWindow(m: Meter, ts: seq<real>, i: nat, j: nat)
    requires i < j <= |ts|
    ensures Grants(m, ts)[i..j] == Grants(Spent(m, ts[..i]), ts[i..j])
  {
    var before, window, rest := ts[..i], ts[i..j], ts[j..];
    assert ts == before + (window + rest);
    GrantsInTwo(m, before, window + rest);
    GrantsInTwo(Spent(m, before), window, rest);
  }

  lemma {:induction false} WindowOfHistory(m: Meter, ts: seq<real>, i: nat, j: nat)
    requires m.Bounded() && InOrder(m.at, ts) && i < j <= |ts|
    ensures Accepted(Grants(m, ts)[i..j]) as real <= m.cap + (ts[j - 1] - ts[i])
  {
    GrantsOfWindow(m, ts, i, j);
    StaysWithinBounds(m, ts[..i]);
    WindowFrom(Spent(m, ts[..i]), ts[i..j]);
  }

  lemma {:induction false} WindowFrom(m: Meter, ts: seq<real>)
    requires m.Bounded() && ts != [] && InOrder(m.at, ts)
    ensures Accepted(Grants(m, ts)) as real <= m.cap + (ts[|ts| - 1] - ts[0])
  {
    RefillFirst(m, ts);
    EarnedAndSpent(m.Refilled(ts[0]), ts, ts[|ts| - 1]);
  }

  // ---------------------------------------------------------------------------
  // Refused calls leave no trace.
  // ---------------------------------------------------------------------------

  function Kept<T>(xs: seq<T>, keep: seq<bool>): seq<T>
    requires |xs| == |keep|
  {
    if xs == [] then [] else (if keep[0] then [xs[0]] else []) + Kept(xs[1..], keep[1..])
  }

  /** From the later of their refills on, the two behave the same. */
  predicate Interchangeable(m: Meter, n: Meter) {
    m.cap == n.cap && m.level - n.level == m.at - n.at
  }

  /** A refused call meets less than one token, so the cap does not bite. */
  lemma {:induction false} RefusalIsInvisible(m: Meter, n: Meter, tick: real)
    requires m.Bounded() && Interchangeable(m, n) && !m.Accepts(tick)
    ensures Interchangeable(m.After(tick), n)
  {
  }

  lemma {:induction false} DeleteRefused(m: Meter, n: Meter, ts: seq<real>, keep: seq<bool>)
    requires m.Bounded() && Interchangeable(m, n) && InOrder(m.at, ts)
    requires |keep| == |ts| && forall k | 0 <= k < |ts| && Grants(m, ts)[k] :: keep[k]
    ensures Grants(n, Kept(ts, keep)) == Kept(Grants(m, ts), keep)
    decreases |ts|
  {
    if ts != [] {
      var m', rest := m.After(ts[0]), ts[1..];
      var ds := Grants(m, ts);
      assert ds[1..] == Grants(m', rest);
      forall k | 0 <= k < |rest| && Grants(m', rest)[k] ensures keep[1..][k] {
        assert ds[k + 1];
      }
      var kept := Kept(rest, keep[1..]);
      if keep[0] {
        DeleteRefused(m', n.After(ts[0]), rest, keep[1..]);
        assert Kept(ts, keep) == [ts[0]] + kept && ([ts[0]] + kept)[1..] == kept;
        assert Grants(n, Kept(ts, keep)) == [n.Accepts(ts[0])] + Grants(n.After(ts[0]), kept);
        assert ds[0] == n.Accepts(ts[0]);
      } else {
        assert Kept(ts, keep) == kept;
        assert !ds[0];
        RefusalIsInvisible(m, n, ts[0]);
        DeleteRefused(m', n, rest, keep[1..]);
      }
    }
  }

  lemma {:induction false} AllRefused(m: Meter, n: Meter, ts: seq<real>)
    requires m.Bounded() && Interchangeable(m, n) && InOrder(m.at, ts)
    requires forall k | 0 <= k < |ts| :: !Grants(m, ts)[k]
    ensures Interchangeable(Spent(m, ts), n)
    decreases |ts|
  {
    if ts != [] {
      assert !Grants(m, ts)[0];
      RefusalIsInvisible(m, n, ts[0]);
      forall k | 0 <= k < |ts| - 1 ensures !Grants(m.After(ts[0]), ts[1..])[k] {
        assert !Grants(m, ts)[k + 1];
      }
      AllRefused(m.After(ts[0]), n, ts[1..]);
    }
  }

  lemma {:induction false} EnoughTokens(m: Meter, ts: seq<real>)
    requires m.Bounded() && InOrder(m.at, ts) && m.level >= |ts| as real
    ensures forall k | 0 <= k < |ts| :: Grants(m, ts)[k]
    decreases |ts|
  {
    if ts != [] {
      EnoughTokens(m.After(ts[0]), ts[1..]);
    }
  }

  /** After refused calls only, and `rate` ticks, the bucket is full. */
  lemma {:induction false} FullBurst(m: Meter, rate: nat, quiet: seq<real>, burst: seq<real>)
    requires m.Bounded() && m.cap == rate as real && InOrder(m.at, quiet + burst) && burst != [] && |burst| <= rate
    requires forall k | 0 <= k < |quiet| :: !Grants(m, quiet)[k]
    requires burst[0] >= m.at + rate as real
    ensures forall k | |quiet| <= k < |quiet| + |burst| :: Grants(m, quiet + burst)[k]
  {
    var both := quiet + burst;
    assert forall k | 0 <= k < |quiet| :: quiet[k] == both[k];
    assert forall k | 0 <= k < |burst| :: burst[k] == both[|quiet| + k];
    GrantsInTwo(m, quiet, burst);
    AllRefused(m, m, quiet);
    StaysWithinBounds(m, quiet);
    var c := Spent(m, quiet);
    assert c.at <= burst[0];
    RefillFirst(c, burst);
    EnoughTokens(c.Refilled(burst[0]), burst);
  }

  // ---------------------------------------------------------------------------
  // A family of meters, one per client, dropped as a whole now and then.
  // ---------------------------------------------------------------------------

  datatype Action = Call(client: string, tick: real) | Cleanup(tick: real)

  /** An unknown client gets a full meter. */
  function MeterOf(m: map<string, Meter>, rate: int, client: string, tick: real): Meter {
    if client in m then m[client] else Meter(rate as real, rate as real, tick)
  }

  function Apply(m: map<string, Meter>, rate: int, a: Action): map<string, Meter> {
    match a
    case Call(client, tick) => m[client := MeterOf(m, rate, client, tick).After(tick)]
    case Cleanup(_) => map[]
  }

  function AfterActions(m: map<string, Meter>, rate: int, h: seq<Action>): map<string, Meter>
    decreases |h|
  {
    if h == [] then m else AfterActions(Apply(m, rate, h[0]), rate, h[1..])
  }

  predicate IsCallOf(a: Action, client: string) {
    a.Call? && a.client == client
  }

  /** The decisions one client gets, in a history of everybody's calls. */
  function DecisionsFor(m: map<string, Meter>, rate: int, h: seq<Action>, client: string): seq<bool>
    decreases |h|
  {
    if h == [] then []
    else
      (if IsCallOf(h[0], client) then [MeterOf(m, rate, client, h[0].tick).Accepts(h[0].tick)] else [])
      + DecisionsFor(Apply(m, rate, h[0]), rate, h[1..], client)
  }

  function TicksOf(h: seq<Action>, client: string): seq<real> {
    if h == [] then [] else (if IsCallOf(h[0], client) then [h[0].tick] else []) + TicksOf(h[1..], client)
  }

  /** The meter that the first of the client's calls meets. */
  function NextMeter(m: map<string, Meter>, rate: int, client: string, ts: seq<real>): Meter {
    MeterOf(m, rate, client, if ts == [] then 0.0 else ts[0])
  }

  /** Between cleanups each client gets exactly the decisions that its own calls would get from a
      private meter, whatever the others do; and a new client's meter starts out full. */
  lemma {:induction false} PrivateMeter(m: map<string, Meter>, rate: int, h: seq<Action>, client: string)
    requires forall k | 0 <= k < |h| :: h[k].Call?
    ensures var ts := TicksOf(h, client); DecisionsFor(m, rate, h, client) == Grants(NextMeter(m, rate, client, ts), ts)
    decreases |h|
  {
    if h != [] {
      var a, rest := h[0], h[1..];
      var m', ts := Apply(m, rate, a), TicksOf(rest, client);
      PrivateMeter(m', rate, rest, client);
      if a.client == client {
        var b := MeterOf(m, rate, client, a.tick);
        assert TicksOf(h, client) == [a.tick] + ts && ([a.tick] + ts)[1..] == ts;
        assert Grants(b, [a.tick] + ts) == [b.Accepts(a.tick)] + Grants(b.After(a.tick), ts);
      } else {
        assert TicksOf(h, client) == ts;
        assert NextMeter(m', rate, client, ts) == NextMeter(m, rate, client, ts);
      }
    }
  }

  ghost predicate Timely(since: real, h: seq<Action>) {
    && (forall k | 0 <= k < |h| :: since <= h[k].tick)
    && (forall k, l | 0 <= k < l < |h| :: h[k].tick <= h[l].tick)
  }

  function Cleanups(h: seq<Action>): nat {
    if h == [] then 0 else (if h[0].Cleanup? then 1 else 0) + Cleanups(h[1..])
  }

  /** No meter was refilled after `tick`, and all are within bounds. */
  predicate AllBounded(m: map<string, Meter>, rate: int, tick: real) {
    rate >= 1 && forall c | c in m :: m[c].Bounded() && m[c].cap == rate as real && m[c].at <= tick
  }

  lemma {:induction false} AllStayBounded(m: map<string, Meter>, rate: int, h: seq<Action>, since: real)
    requires AllBounded(m, rate, since) && Timely(since, h)
    ensures AllBounded(AfterActions(m, rate, h), rate, if h == [] then since else h[|h| - 1].tick)
    decreases |h|
  {
    if h != [] {
      AllStayBounded(Apply(m, rate, h[0]), rate, h[1..], h[0].tick);
    }
  }

  /** What the client could be granted at once. */
  function Available(m: map<string, Meter>, rate: int, client: string, tick: real): real {
    MeterOf(m, rate, client, tick).Refilled(tick).level
  }

  /** A call is paid for by the tokens at hand; a cleanup hands out a full meter at most. */
  lemma {:induction false} SpentAtOnce(m: map<string, Meter>, rate: int, a: Action, client: string)
    requires AllBounded(m, rate, a.tick)
    ensures var before, after := Available(m, rate, client, a.tick), Available(Apply(m, rate, a), rate, client, a.tick);
            && 0.0 <= before
            && (IsCallOf(a, client) ==>
                 after + (if MeterOf(m, rate, client, a.tick).Accepts(a.tick) then 1.0 else 0.0) == before)
            && (a.Call? && !IsCallOf(a, client) ==> after == before)
            && (a.Cleanup? ==> after == rate as real)
  {
  }

  /** The tokens handed out by cleanups. */
  function Refunds(h: seq<Action>, rate: int): real {
    if h == [] then 0.0 else (if h[0].Cleanup? then rate as real else 0.0) + Refunds(h[1..], rate)
  }

  lemma {:induction false} RefundsAre(h: seq<Action>, rate: int)
    ensures Refunds(h, rate) == rate as real * Cleanups(h) as real
  {
    if h != [] {
      RefundsAre(h[1..], rate);
    }
  }

  lemma {:induction false} FirstDecision(m: map<string, Meter>, rate: int, h: seq<Action>, client: string)
    requires h != []
    ensures var mine := IsCallOf(h[0], client) && MeterOf(m, rate, client, h[0].tick).Accepts(h[0].tick);
            var granted := if mine then 1 else 0;
            Accepted(DecisionsFor(m, rate, h, client))
              == granted + Accepted(DecisionsFor(Apply(m, rate, h[0]), rate, h[1..], client))
  {
    var rest := DecisionsFor(Apply(m, rate, h[0]), rate, h[1..], client);
    if IsCallOf(h[0], client) {
      var d := MeterOf(m, rate, client, h[0].tick).Accepts(h[0].tick);
      assert DecisionsFor(m, rate, h, client) == [d] + rest;
      assert ([d] + rest)[1..] == rest;
    } else {
      assert DecisionsFor(m, rate, h, client) == rest;
    }
  }

  lemma {:induction false} SpentFrom(m: map<string, Meter>, rate: int, h: seq<Action>, client: string, since: real,
                                     end: real)
    requires AllBounded(m, rate, since) && Timely(since, h) && end >= if h == [] then since else h[|h| - 1].tick
    ensures Accepted(DecisionsFor(m, rate, h, client)) as real
            <= Available(m, rate, client, since) + (end - since) + Refunds(h, rate)
    decreases |h|
  {
    if h == [] {
      SpentAtOnce(m, rate, Cleanup(since), client);
    } else {
      var a := h[0];
      SpentFrom(Apply(m, rate, a), rate, h[1..], client, a.tick, end);
      SpentAtOnce(m, rate, a, client);
      FirstDecision(m, rate, h, client);
      assert Available(m, rate, client, a.tick) <= Available(m, rate, client, since) + (a.tick - since);
    }
  }

  /** From any point of any history on, a client is granted at most a full meter, a token per tick,
      and a full meter per cleanup. */
  lemma {:induction false} ClientSpent(rate: int, before: seq<Action>, window: seq<Action>, client: string,
                                       start: real, since: real, end: real)
    requires rate >= 1 && Timely(start, before) && Timely(since, window)
    requires since >= (if before == [] then start else before[|before| - 1].tick)
    requires end >= (if window == [] then since else window[|window| - 1].tick)
    ensures Accepted(DecisionsFor(AfterActions(map[], rate, before), rate, window, client)) as real
            <= rate as real + (end - since) + Refunds(window, rate)
  {
    AllStayBounded(map[], rate, before, start);
    SpentFrom(AfterActions(map[], rate, before), rate, window, client, since, end);
  }
}
