/** src/lib/delivery/outbox.ts */
module Lease {
  // The lease on one outbox record under a shared clock.
  //
  // Workers claim, start their handler at most `skew` clock units after the claim read the clock, and tick
  // for renewal at most one renewal period apart, each tick resolving at once: renewed, lost, or failed with
  // or without having written. The question is when two handlers of one record can run un-aborted.

  import opened Wrappers
  import opened Outbox

  datatype Running = Running(lastTick: Time, active: Active)

  /** `claimed` holds the clock value of each claim whose handler has not started yet. */
  datatype State = State(now: Time, holder: Option<Claim>, claimed: map<WorkerId, Time>, handlers: map<WorkerId, Running>)

  datatype Step =
    | Advance(to: Time)
    | Take(w: WorkerId)
    | Start(w: WorkerId)
    | Tick(w: WorkerId, reached: bool, reported: bool)
    | Settle(w: WorkerId)
    | Crash(w: WorkerId)

  datatype Timing = Timing(leaseMs: nat, skew: nat) {
    ghost predicate Valid() { leaseMs >= 1 }
  }

  predicate Live(s: State, w: WorkerId) {
    w in s.handlers && !s.handlers[w].active.aborted
  }

  function IsHolder(s: State, w: WorkerId): bool {
    s.holder.Some? && s.holder.value.worker == w
  }

  /** Time cannot pass a due tick of a live handler, nor the start of a claimed one. */
  predicate Punctual(t: Timing, s: State, to: Time) {
    && (forall w :: w in s.handlers && !s.handlers[w].active.aborted ==> to <= s.handlers[w].lastTick + RenewalPeriod(t.leaseMs))
    && (forall w :: w in s.claimed ==> to <= s.claimed[w] + t.skew)
  }

  predicate Enabled(t: Timing, s: State, step: Step) {
    match step
    case Advance(to) => s.now <= to && Punctual(t, s, to)
    case Take(w) =>
      w !in s.handlers && w !in s.claimed && (s.holder.Some? ==> s.holder.value.leaseUntil <= s.now)
    case Start(w) => w in s.claimed
    case Tick(w, _, _) => w in s.handlers
    case Settle(w) => w in s.handlers
    case Crash(w) => w in s.handlers || w in s.claimed
  }

  function Apply(t: Timing, s: State, step: Step): State
    requires Enabled(t, s, step)
  {
    match step
    case Advance(to) => s.(now := to)
    case Take(w) => s.(holder := Some(Claim(w, s.now + t.leaseMs)), claimed := s.claimed[w := s.now])
    case Start(w) =>
      s.(claimed := s.claimed - {w},
         handlers := s.handlers[w := Running(s.now, Active(s.now + t.leaseMs, false))])
    case Tick(w, reached, reported) =>
      // A reached transaction renews if the worker still holds the claim; its result may still be lost.
      var renewed := reached && IsHolder(s, w);
      s.(holder := if renewed then Some(Claim(w, s.now + t.leaseMs)) else s.holder,
         handlers := s.handlers[w := Running(s.now, AfterTick(s.handlers[w].active, s.now, renewed && reported, t.leaseMs))])
    case Settle(w) =>
      s.(holder := if IsHolder(s, w) then None else s.holder, handlers := s.handlers - {w})
    case Crash(w) => s.(handlers := s.handlers - {w}, claimed := s.claimed - {w})
  }

  const IDLE := State(0, None, map[], map[])

  ghost predicate RunFrom(t: Timing, s: State, steps: seq<Step>)
    decreases |steps|
  {
    steps == [] || (Enabled(t, s, steps[0]) && RunFrom(t, Apply(t, s, steps[0]), steps[1..]))
  }

  ghost function After(t: Timing, s: State, steps: seq<Step>): State
    requires RunFrom(t, s, steps)
    decreases |steps|
  {
    if steps == [] then s else After(t, Apply(t, s, steps[0]), steps[1..])
  }

  // ---------------------------------------------------------------- abort in time

  /** A live handler's last tick is recent enough that its next one comes before `confirmedUntil`. */
  ghost predicate Timely(t: Timing, s: State) {
    && Punctual(t, s, s.now)
    && forall w :: Live(s, w) ==>
         s.handlers[w].lastTick + RenewalPeriod(t.leaseMs) < s.handlers[w].active.confirmedUntil
  }

  lemma StepKeepsTimely(t: Timing, s: State, step: Step)
    requires t.leaseMs >= 2 && Timely(t, s) && Enabled(t, s, step)
    ensures Timely(t, Apply(t, s, step))
  {
    assert RenewalPeriod(t.leaseMs) < t.leaseMs;
    var u := Apply(t, s, step);
    forall w | Live(u, w)
      ensures u.now <= u.handlers[w].lastTick + RenewalPeriod(t.leaseMs) < u.handlers[w].active.confirmedUntil
    {
      if !(step.Start? && step.w == w) { assert Live(s, w); }
    }
  }

  lemma {:induction false} RunKeepsTimely(t: Timing, s: State, steps: seq<Step>)
    requires t.leaseMs >= 2 && Timely(t, s) && RunFrom(t, s, steps)
    ensures Timely(t, After(t, s, steps))
    decreases |steps|
  {
    if steps != [] {
      StepKeepsTimely(t, s, steps[0]);
      RunKeepsTimely(t, Apply(t, s, steps[0]), steps[1..]);
    }
  }

  /** With a lease of at least two clock units, whatever mix of renewed, lost and failed ticks: a handler whose
      signal is not aborted is still before its `confirmedUntil`. */
  lemma AbortedInTime(t: Timing, steps: seq<Step>, w: WorkerId)
    requires t.leaseMs >= 2 && RunFrom(t, IDLE, steps) && Live(After(t, IDLE, steps), w)
    ensures After(t, IDLE, steps).now < After(t, IDLE, steps).handlers[w].active.confirmedUntil
  {
    RunKeepsTimely(t, IDLE, steps);
  }

  // ---------------------------------------------------------------- one live handler

  ghost predicate AtMostOneLive(s: State) {
    forall v, w :: Live(s, v) && Live(s, w) ==> v == w
  }

  ghost predicate AlwaysAtMostOneLive(t: Timing) {
    forall steps :: RunFrom(t, IDLE, steps) ==> AtMostOneLive(After(t, IDLE, steps))
  }

  /** Without skew the stored lease never ends before a live handler's `confirmedUntil`. */
  ghost predicate Covered(t: Timing, s: State) {
    && Timely(t, s)
    && (forall w :: Live(s, w) ==>
         IsHolder(s, w) && s.handlers[w].active.confirmedUntil <= s.holder.value.leaseUntil <= s.now + t.leaseMs)
    && (forall w :: w in s.claimed ==>
          s.claimed[w] == s.now && s.holder == Some(Claim(w, s.now + t.leaseMs)) && w !in s.handlers)
  }

  lemma StepKeepsCovered(t: Timing, s: State, step: Step)
    requires t.leaseMs >= 2 && t.skew == 0 && Covered(t, s) && Enabled(t, s, step)
    ensures Covered(t, Apply(t, s, step))
  {
    StepKeepsTimely(t, s, step);
    var u := Apply(t, s, step);
    forall w | Live(u, w)
      ensures IsHolder(u, w) && u.handlers[w].active.confirmedUntil <= u.holder.value.leaseUntil <= u.now + t.leaseMs
    {
      if !(step.Start? && step.w == w) { assert Live(s, w); }
    }
  }

  lemma {:induction false} RunKeepsCovered(t: Timing, s: State, steps: seq<Step>)
    requires t.leaseMs >= 2 && t.skew == 0 && Covered(t, s) && RunFrom(t, s, steps)
    ensures Covered(t, After(t, s, steps))
    decreases |steps|
  {
    if steps != [] {
      StepKeepsCovered(t, s, steps[0]);
      RunKeepsCovered(t, Apply(t, s, steps[0]), steps[1..]);
    }
  }

  lemma SafeWithoutSkew(t: Timing)
    requires t.leaseMs >= 2 && t.skew == 0
    ensures AlwaysAtMostOneLive(t)
  {
    forall steps | RunFrom(t, IDLE, steps) ensures AtMostOneLive(After(t, IDLE, steps)) {
      RunKeepsCovered(t, IDLE, steps);
    }
  }

  /** When the only worker on the record crashes, whether its handler runs or is about to start, any worker can claim
      the record exactly from the end of the lease on. */
  lemma CrashIsRecovered(t: Timing, s: State, w: WorkerId, v: WorkerId, to: Time)
    requires s.handlers.Keys + s.claimed.Keys == {w} && s.holder.Some? && to >= s.now
    ensures Enabled(t, s, Crash(w))
    ensures var u := Apply(t, s, Crash(w));
      && u.handlers == map[] && u.claimed == map[] && Enabled(t, u, Advance(to))
      && (Enabled(t, Apply(t, u, Advance(to)), Take(v)) <==> to >= s.holder.value.leaseUntil)
  {
    assert w in s.handlers.Keys + s.claimed.Keys;
    var u := Apply(t, s, Crash(w));
    assert forall x :: x in s.handlers || x in s.claimed ==> x in s.handlers.Keys + s.claimed.Keys;
    assert u.handlers == map[] && u.claimed == map[];
  }

  // ---------------------------------------------------------------- overlap otherwise

  lemma {:induction false} RunsCompose(t: Timing, s: State, a: seq<Step>, b: seq<Step>)
    requires RunFrom(t, s, a) && RunFrom(t, After(t, s, a), b)
    ensures RunFrom(t, s, a + b) && After(t, s, a + b) == After(t, After(t, s, a), b)
    decreases |a|
  {
    if a == [] {
      assert a + b == b;
    } else {
      RunsCompose(t, Apply(t, s, a[0]), a[1..], b);
      assert (a + b)[1..] == a[1..] + b;
    }
  }

  lemma OneStep(t: Timing, s: State, step: Step)
    requires Enabled(t, s, step)
    ensures RunFrom(t, s, [step]) && After(t, s, [step]) == Apply(t, s, step)
  {
    assert [step][1..] == [];
  }

  lemma Append(t: Timing, steps: seq<Step>, step: Step)
    requires RunFrom(t, IDLE, steps) && Enabled(t, After(t, IDLE, steps), step)
    ensures RunFrom(t, IDLE, steps + [step])
    ensures After(t, IDLE, steps + [step]) == Apply(t, After(t, IDLE, steps), step)
  {
    OneStep(t, After(t, IDLE, steps), step);
    RunsCompose(t, IDLE, steps, [step]);
  }

  /** Worker 0 claimed at 0, started at `start`, and has ticked in vain up to `tick`. */
  function Waiting(t: Timing, start: Time, tick: Time): State {
    State(tick, Some(Claim(0, t.leaseMs)), map[], map[0 := Running(tick, Active(start + t.leaseMs, false))])
  }

  lemma StartedAt(t: Timing, start: nat) returns (steps: seq<Step>)
    requires start <= t.skew
    ensures RunFrom(t, IDLE, steps) && After(t, IDLE, steps) == Waiting(t, start, start)
  {
    steps := [];
    Append(t, steps, Take(0));
    steps := steps + [Take(0)];
    Append(t, steps, Advance(start));
    steps := steps + [Advance(start)];
    Append(t, steps, Start(0));
    steps := steps + [Start(0)];
    assert After(t, IDLE, steps) == Waiting(t, start, start);
  }

  lemma {:induction false} FailingTicks(t: Timing, tick: nat) returns (steps: seq<Step>)
    requires t.skew >= 1 && 1 <= tick <= t.leaseMs - RenewalPeriod(t.leaseMs)
    ensures RunFrom(t, IDLE, steps) && After(t, IDLE, steps) == Waiting(t, 1, tick)
    decreases tick
  {
    if tick == 1 {
      steps := StartedAt(t, 1);
    } else {
      steps := FailingTicks(t, tick - 1);
      Append(t, steps, Advance(tick));
      steps := steps + [Advance(tick)];
      Append(t, steps, Tick(0, false, false));
      steps := steps + [Tick(0, false, false)];
      assert After(t, IDLE, steps) == Waiting(t, 1, tick);
    }
  }

  /** From such a state another worker can claim at the end of the lease and start its handler. */
  lemma Overlap(t: Timing, start: nat, tick: nat, steps: seq<Step>) returns (more: seq<Step>)
    requires RunFrom(t, IDLE, steps) && After(t, IDLE, steps) == Waiting(t, start, tick)
    requires tick <= t.leaseMs <= tick + RenewalPeriod(t.leaseMs)
    ensures RunFrom(t, IDLE, more) && !AtMostOneLive(After(t, IDLE, more))
  {
    more := steps;
    Append(t, more, Advance(t.leaseMs));
    more := more + [Advance(t.leaseMs)];
    Append(t, more, Take(1));
    more := more + [Take(1)];
    Append(t, more, Start(1));
    more := more + [Start(1)];
    var s := After(t, IDLE, more);
    assert Live(s, 0) && Live(s, 1);
  }

  /** Never two live handlers of one record, under every schedule: exactly when the lease is at least two clock
      units and the handler starts at the clock value its claim read. */
  lemma OneLiveHandlerIff(t: Timing)
    requires t.Valid()
    ensures AlwaysAtMostOneLive(t) <==> t.leaseMs >= 2 && t.skew == 0
  {
    if t.leaseMs >= 2 && t.skew == 0 {
      SafeWithoutSkew(t);
    } else if t.leaseMs == 1 {
      var steps := StartedAt(t, 0);
      var more := Overlap(t, 0, 0, steps);
    } else {
      var tick := t.leaseMs - RenewalPeriod(t.leaseMs);
      var steps := FailingTicks(t, tick);
      var more := Overlap(t, 1, tick, steps);
    }
  }
}
