/** The scheduler's lease lock (internal/queue/scheduler.go): SETNX with a time to live, and an
    unconditional DEL. Several schedulers run passes concurrently. */
module Lease {
  import opened Tasks
  import opened Store
  import S = Scheduler

  type PassId = nat

  /** The lock key. Who set it is not stored; the model remembers it to state what DEL removes. */
  datatype Key = Key(owner: PassId, expires: Time)

  /** `inside` holds the passes between their SETNX and their end, with the time they got in. */
  datatype Lease = Lease(now: Time, key: Option<Key>, inside: map<PassId, Time>) {
    predicate Free() {
      IsFree(if key.None? then None else Some(key.value.expires), now)
    }
  }

  datatype Event =
    | Wait(d: nat)          // time passes
    | TryEnter(p: PassId)   // SETNX
    | Leave(p: PassId)      // the deferred DEL
    | Crash(p: PassId)      // the process stops without deleting

  predicate Enabled(s: Lease, e: Event) {
    match e
    case Wait(_) => true
    case TryEnter(p) => p !in s.inside
    case Leave(p) => p in s.inside
    case Crash(p) => p in s.inside
  }

  function Next(s: Lease, e: Event): Lease {
    match e
    case Wait(d) => s.(now := s.now + d)
    case TryEnter(p) =>
      if s.Free() then s.(key := Some(Key(p, s.now + S.LOCK_TTL)), inside := s.inside[p := s.now]) else s
    case Leave(p) => s.(key := None, inside := s.inside - {p})
    case Crash(p) => s.(inside := s.inside - {p})
  }

  ghost predicate IsRun(states: seq<Lease>, events: seq<Event>) {
    && |states| == |events| + 1
    && states[0].key == None && states[0].inside == map[]
    && forall i | 0 <= i < |events| :: Enabled(states[i], events[i]) && states[i + 1] == Next(states[i], events[i])
  }

  /** The hypothesis: whoever is inside got in less than a lock's lifetime ago. */
  predicate InTime(s: Lease) {
    forall p | p in s.inside :: s.now < s.inside[p] + S.LOCK_TTL
  }

  /** The key outlives nobody who holds it, and whoever is inside holds it. */
  predicate Guarded(s: Lease) {
    && (s.key.Some? ==> s.key.value.expires <= s.now + S.LOCK_TTL)
    && forall p | p in s.inside :: s.key == Some(Key(p, s.inside[p] + S.LOCK_TTL))
  }

  lemma StaysGuarded(s: Lease, e: Event)
    requires Guarded(s) && InTime(s) && Enabled(s, e)
    ensures Guarded(Next(s, e))
  {
  }

  lemma {:induction false} RunGuarded(states: seq<Lease>, events: seq<Event>, i: nat)
    requires IsRun(states, events) && i <= |events| && forall k | 0 <= k < i :: InTime(states[k])
    ensures Guarded(states[i])
  {
    if i > 0 {
      RunGuarded(states, events, i - 1);
      StaysGuarded(states[i - 1], events[i - 1]);
    }
  }

  /** If every pass ends, or crashes silently, before its lock expires, then at most one pass is ever
      inside, and the unconditional delete only ever removes the pass's own lock. */
  lemma OneAtATime(states: seq<Lease>, events: seq<Event>, i: nat)
    requires IsRun(states, events) && i <= |events| && forall k | 0 <= k <= i :: InTime(states[k])
    ensures forall p, q | p in states[i].inside && q in states[i].inside :: p == q
    ensures i < |events| && events[i].Leave? ==> states[i].key.Some? && states[i].key.value.owner == events[i].p
  {
    RunGuarded(states, events, i);
  }

  /** The hypothesis is needed: from any guarded state in which a pass has overrun its lock, another
      one gets in beside it; the first then deletes the lock of the second on its way out, and a
      third gets in beside the second. */
  lemma OverrunLetsOthersIn(s: Lease, p: PassId, q: PassId, r: PassId)
    requires Guarded(s) && p in s.inside && s.now >= s.inside[p] + S.LOCK_TTL
    requires q !in s.inside && r !in s.inside && q != r
    ensures var s1 := Next(s, TryEnter(q));
            var s2 := Next(s1, Leave(p));
            var s3 := Next(s2, TryEnter(r));
            && Enabled(s, TryEnter(q)) && p in s1.inside && q in s1.inside
            && Enabled(s1, Leave(p)) && s1.key.value.owner == q && s2.key == None
            && Enabled(s2, TryEnter(r)) && q in s3.inside && r in s3.inside
  {
    assert s.key == Some(Key(p, s.inside[p] + S.LOCK_TTL));
  }

  /** A lock lives for at most its time to live, in every run. */
  lemma {:induction false} LifetimeBounded(states: seq<Lease>, events: seq<Event>, i: nat)
    requires IsRun(states, events) && i <= |events|
    ensures states[i].key.Some? ==> states[i].key.value.expires <= states[i].now + S.LOCK_TTL
  {
    if i > 0 {
      LifetimeBounded(states, events, i - 1);
    }
  }

  predicate Enters(s: Lease, e: Event) {
    e.TryEnter? && s.Free()
  }

  lemma {:induction false} KeyStays(states: seq<Lease>, events: seq<Event>, i: nat, j: nat)
    requires IsRun(states, events) && i <= j <= |events| && forall k | i <= k < j :: !Enters(states[k], events[k])
    ensures states[j].key.None? || states[j].key == states[i].key
    ensures states[j].now >= states[i].now
    decreases j
  {
    if i < j {
      KeyStays(states, events, i, j - 1);
    }
  }

  /** Whoever holds the lock at some moment, crashed or not, blocks others for at most the time to
      live: after that the lock is free, unless somebody else has got in meanwhile. */
  lemma BlocksAtMostTtl(states: seq<Lease>, events: seq<Event>, i: nat, j: nat)
    requires IsRun(states, events) && i <= j <= |events| && states[j].now >= states[i].now + 5_000_000_000
    ensures states[j].Free() || exists k | i <= k < j :: Enters(states[k], events[k])
  {
    LifetimeBounded(states, events, i);
    if forall k | i <= k < j :: !Enters(states[k], events[k]) {
      KeyStays(states, events, i, j);
    }
  }

  /** And a lock whose holder has crashed keeps everybody out for all of the five seconds, unless a pass
      that is still inside, having overrun its own lock, deletes it. */
  lemma {:induction false} BlocksForTtl(states: seq<Lease>, events: seq<Event>, i: nat, j: nat)
    requires IsRun(states, events) && i < j <= |events| && Enters(states[i], events[i])
    requires forall k | i < k < j :: !events[k].Leave?
    requires states[j].now < states[i].now + 5_000_000_000
    ensures !states[j].Free() && states[j].now >= states[i].now
    ensures states[j].key == Some(Key(events[i].p, states[i].now + 5_000_000_000))
    decreases j
  {
    if i + 1 < j {
      TimePasses(states, events, j - 1);
      BlocksForTtl(states, events, i, j - 1);
    }
  }

  lemma TimePasses(states: seq<Lease>, events: seq<Event>, k: nat)
    requires IsRun(states, events) && k < |events|
    ensures states[k].now <= states[k + 1].now
  {
  }
}
