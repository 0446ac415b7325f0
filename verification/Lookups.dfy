/** One client's requests when looking up the limiter and asking it are two steps, between which the
    cleanup loop may drop the limiter. Times are ticks of the meters. */
module Lookups {
  import opened Tasks
  import opened Meters

  /** All meters the client ever had, the one in the map now, and which one each request in flight
      has been handed. */
  datatype Desk = Desk(meters: seq<Meter>, current: Option<nat>, handed: map<nat, nat>)

  const EMPTY := Desk([], None, map[])

  datatype Step = Look(q: nat, tick: real) | Ask(q: nat, tick: real) | Drop(tick: real)

  predicate Valid(s: Desk) {
    && (s.current.Some? ==> s.current.value < |s.meters|)
    && forall q | q in s.handed :: s.handed[q] < |s.meters|
  }

  /** A request asks the limiter it was handed, once. */
  predicate Enabled(s: Desk, e: Step) {
    match e
    case Look(q, _) => q !in s.handed
    case Ask(q, _) => q in s.handed
    case Drop(_) => true
  }

  function Next(s: Desk, rate: int, e: Step): (s': Desk)
    requires Valid(s) && Enabled(s, e)
    ensures Valid(s')
  {
    match e
    case Look(q, tick) =>
      if s.current.Some? then s.(handed := s.handed[q := s.current.value])
      else
        var m := Meter(rate as real, rate as real, tick);
        Desk(s.meters + [m], Some(|s.meters|), s.handed[q := |s.meters|])
    case Ask(q, tick) =>
      var k := s.handed[q];
      s.(meters := s.meters[k := s.meters[k].After(tick)], handed := s.handed - {q})
    case Drop(_) => s.(current := None)
  }

  predicate IsHistory(s: Desk, rate: int, h: seq<Step>)
    requires Valid(s)
    decreases |h|
  {
    h == [] || (Enabled(s, h[0]) && IsHistory(Next(s, rate, h[0]), rate, h[1..]))
  }

  function After(s: Desk, rate: int, h: seq<Step>): (s': Desk)
    requires Valid(s) && IsHistory(s, rate, h)
    ensures Valid(s')
    decreases |h|
  {
    if h == [] then s else After(Next(s, rate, h[0]), rate, h[1..])
  }

  predicate Grants(s: Desk, e: Step)
    requires Valid(s) && Enabled(s, e)
  {
    e.Ask? && s.meters[s.handed[e.q]].Accepts(e.tick)
  }

  /** The request was handed a limiter that has been dropped since. */
  predicate IsLate(s: Desk, e: Step)
    requires Valid(s) && Enabled(s, e)
  {
    e.Ask? && s.current != Some(s.handed[e.q])
  }

  function Granted(s: Desk, rate: int, h: seq<Step>): nat
    requires Valid(s) && IsHistory(s, rate, h)
    decreases |h|
  {
    if h == [] then 0 else (if Grants(s, h[0]) then 1 else 0) + Granted(Next(s, rate, h[0]), rate, h[1..])
  }

  /** Granted by a dropped limiter. */
  function GrantedLate(s: Desk, rate: int, h: seq<Step>): nat
    requires Valid(s) && IsHistory(s, rate, h)
    decreases |h|
  {
    if h == [] then 0
    else
      (if Grants(s, h[0]) && IsLate(s, h[0]) then 1 else 0) + GrantedLate(Next(s, rate, h[0]), rate, h[1..])
  }

  function Dropped(h: seq<Step>, rate: int): real {
    if h == [] then 0.0 else (if h[0].Drop? then rate as real else 0.0) + Dropped(h[1..], rate)
  }

  ghost predicate Ordered(since: real, h: seq<Step>) {
    && (forall k | 0 <= k < |h| :: since <= h[k].tick)
    && (forall k, l | 0 <= k < l < |h| :: h[k].tick <= h[l].tick)
  }

  predicate Bounded(s: Desk, rate: int, tick: real) {
    && Valid(s) && rate >= 1
    && forall k | 0 <= k < |s.meters| ::
         s.meters[k].Bounded() && s.meters[k].cap == rate as real && s.meters[k].at <= tick
  }

  /** What the limiter in the map could grant at once. */
  function Available(s: Desk, rate: int, tick: real): real
    requires Valid(s)
  {
    if s.current.None? then rate as real else s.meters[s.current.value].Refilled(tick).level
  }

  lemma {:induction false} StayBounded(s: Desk, rate: int, h: seq<Step>, since: real)
    requires Bounded(s, rate, since) && IsHistory(s, rate, h) && Ordered(since, h)
    ensures Bounded(After(s, rate, h), rate, if h == [] then since else h[|h| - 1].tick)
    decreases |h|
  {
    if h != [] {
      StayBounded(Next(s, rate, h[0]), rate, h[1..], h[0].tick);
    }
  }

  lemma {:induction false} PaidFor(s: Desk, rate: int, e: Step)
    requires Bounded(s, rate, e.tick) && Enabled(s, e)
    ensures var before, after := Available(s, rate, e.tick), Available(Next(s, rate, e), rate, e.tick);
            && 0.0 <= before <= rate as real
            && (e.Drop? ==> after == rate as real)
            && (!e.Drop? ==> after == before - if Grants(s, e) && !IsLate(s, e) then 1.0 else 0.0)
  {
  }

  lemma {:induction false} GrantedFrom(s: Desk, rate: int, h: seq<Step>, since: real, end: real)
    requires Bounded(s, rate, since) && IsHistory(s, rate, h) && Ordered(since, h)
    requires end >= if h == [] then since else h[|h| - 1].tick
    ensures Granted(s, rate, h) as real
            <= Available(s, rate, since) + (end - since) + Dropped(h, rate) + GrantedLate(s, rate, h) as real
    decreases |h|
  {
    if h == [] {
      PaidFor(s, rate, Drop(since));
    } else {
      var e, s' := h[0], Next(s, rate, h[0]);
      GrantedFrom(s', rate, h[1..], e.tick, end);
      PaidFor(s, rate, e);
      assert Available(s, rate, e.tick) <= Available(s, rate, since) + (e.tick - since);
    }
  }

  /** The requests in flight at each cleanup of a history. */
  function InFlight(s: Desk, rate: int, h: seq<Step>): nat
    requires Valid(s) && IsHistory(s, rate, h)
    decreases |h|
  {
    if h == [] then 0
    else (if h[0].Drop? then |OnTime(s)| else 0) + InFlight(Next(s, rate, h[0]), rate, h[1..])
  }

  /** The requests handed the limiter that is in the map. */
  function OnTime(s: Desk): set<nat> {
    set q | q in s.handed && s.current == Some(s.handed[q])
  }

  function Late(s: Desk): set<nat> {
    set q | q in s.handed && s.current != Some(s.handed[q])
  }

  lemma {:induction false} LateAfter(s: Desk, rate: int, e: Step)
    requires Valid(s) && Enabled(s, e)
    ensures var s' := Next(s, rate, e);
            && (e.Look? ==> Late(s') == Late(s))
            && (e.Ask? ==> Late(s') == Late(s) - {e.q} && (IsLate(s, e) <==> e.q in Late(s)))
            && (e.Drop? ==> Late(s') == Late(s) + OnTime(s) && Late(s) !! OnTime(s))
  {
  }

  lemma {:induction false} LateAreFew(s: Desk, rate: int, h: seq<Step>)
    requires Valid(s) && IsHistory(s, rate, h)
    ensures GrantedLate(s, rate, h) <= |Late(s)| + InFlight(s, rate, h)
    decreases |h|
  {
    if h != [] {
      LateAfter(s, rate, h[0]);
      LateAreFew(Next(s, rate, h[0]), rate, h[1..]);
    }
  }

  /** From any point of any history on, the client is granted at most a full meter, a token per tick, a
      full meter per cleanup, and one call for each request that a cleanup overtakes between its lookup
      and its question. */
  lemma LateRequestsOnTop(rate: int, before: seq<Step>, window: seq<Step>, start: real, since: real, end: real)
    requires rate >= 1 && Ordered(start, before) && Ordered(since, window) && IsHistory(EMPTY, rate, before)
    requires IsHistory(After(EMPTY, rate, before), rate, window)
    requires since >= (if before == [] then start else before[|before| - 1].tick)
    requires end >= (if window == [] then since else window[|window| - 1].tick)
    ensures var s := After(EMPTY, rate, before);
            Granted(s, rate, window) as real
            <= rate as real + (end - since) + Dropped(window, rate) + (|Late(s)| + InFlight(s, rate, window)) as real
  {
    StayBounded(EMPTY, rate, before, start);
    var s := After(EMPTY, rate, before);
    GrantedFrom(s, rate, window, since, end);
    PaidFor(s, rate, Drop(since));
    LateAreFew(s, rate, window);
  }
}
