/** src/lib/provider/capacity-controller.ts */
module Capacity {
  // The provider capacity controller: bounded concurrency, a priority queue with an anti-starvation streak, per-
  // identity limits, aborts and graceful shutdown.
  //
  // A request is known by the sequence number its admission gave it.

  import opened Wrappers

  datatype Kind = Interactive | Passive | Background | Title

  datatype Work = Work(sequence: nat, kind: Kind, identityId: string)

  datatype Config = Config(maxConcurrent: int, maxQueued: int, maxQueuedPerIdentity: int, shutdownGraceMs: int) {
    predicate Valid() {
      maxConcurrent >= 1 && maxQueued >= 1 && maxQueuedPerIdentity >= 1 && shutdownGraceMs >= 1
    }
  }

  type ValidConfig = c: Config | c.Valid() witness Config(3, 64, 8, 5000)

  predicate IsPositiveInteger(n: int) { 1 <= n <= 0x1f_ffff_ffff_ffff }

  /** The constructor takes only positive safe integers. */
  function ValidateConfig(c: Config): (r: Result<Config, string>)
    ensures r.Ok? <==>
      (0 < c.maxConcurrent < 0x20_0000_0000_0000 && 0 < c.maxQueued < 0x20_0000_0000_0000
       && 0 < c.maxQueuedPerIdentity < 0x20_0000_0000_0000 && 0 < c.shutdownGraceMs < 0x20_0000_0000_0000)
    ensures r.Ok? ==> r.value == c && c.Valid()
  {
    if !IsPositiveInteger(c.maxConcurrent) then Err("provider capacity maxConcurrent must be a positive integer")
    else if !IsPositiveInteger(c.maxQueued) then Err("provider capacity maxQueued must be a positive integer")
    else if !IsPositiveInteger(c.maxQueuedPerIdentity) then Err("provider capacity maxQueuedPerIdentity must be a positive integer")
    else if !IsPositiveInteger(c.shutdownGraceMs) then Err("provider capacity shutdownGraceMs must be a positive integer")
    else Ok(c)
  }

  datatype Rejection = Overloaded | IdentityOverloaded | PassiveCoalesced | TitleDiscarded | ShuttingDown | Aborted

  datatype Settlement = Answered | Failed | Refused(reason: Rejection)

  function PriorityOf(k: Kind): nat {
    match k
    case Interactive => 0
    case Passive => 1
    case Background => 2
    case Title => 3
  }

  predicate StartsWith(s: string, prefix: string) {
    |prefix| <= |s| && s[..|prefix|] == prefix
  }

  function WorkKind(conversationId: string): Kind {
    if StartsWith(conversationId, "title:") || StartsWith(conversationId, "thread-title:") then Title
    else if StartsWith(conversationId, "passive-gate:") then Passive
    else if StartsWith(conversationId, "dream:") || StartsWith(conversationId, "dream-encode:") then Background
    else Interactive
  }

  /** No two kinds share a name, so each is known by its own prefixes. */
  lemma KindByName(id: string)
    ensures WorkKind(id) == Title <==> "title:" <= id || "thread-title:" <= id
    ensures WorkKind(id) == Passive <==> "passive-gate:" <= id
    ensures WorkKind(id) == Background <==> "dream:" <= id || "dream-encode:" <= id
  {
    FirstLetter(id, "title:");
    FirstLetter(id, "thread-title:");
    FirstLetter(id, "passive-gate:");
    FirstLetter(id, "dream:");
    FirstLetter(id, "dream-encode:");
  }

  lemma FirstLetter(s: string, p: string)
    requires p != ""
    ensures StartsWith(s, p) <==> p <= s
    ensures p <= s ==> s[0] == p[0]
  {
  }

  // ---------------------------------------------------------------- the queue

  type Queue = seq<Work>

  /** Push order and sequence order are the same: removals keep the rest in place. */
  ghost predicate Ordered(q: Queue) {
    forall i, j :: 0 <= i < j < |q| ==> q[i].sequence < q[j].sequence
  }

  predicate HasKind(q: Queue, k: Kind) {
    exists w :: w in q && w.kind == k
  }

  predicate HasNonInteractive(q: Queue) {
    exists w :: w in q && w.kind != Interactive
  }

  function MinPriority(q: Queue): nat
    requires q != []
  {
    if |q| == 1 then PriorityOf(q[0].kind)
    else
      var rest := MinPriority(q[1..]);
      if PriorityOf(q[0].kind) <= rest then PriorityOf(q[0].kind) else rest
  }

  lemma {:induction false} MinPriorityIsLeast(q: Queue)
    requires q != []
    ensures forall w :: w in q ==> MinPriority(q) <= PriorityOf(w.kind)
    ensures exists w :: w in q && PriorityOf(w.kind) == MinPriority(q)
  {
    if |q| == 1 {
      assert q[0] in q;
    } else {
      MinPriorityIsLeast(q[1..]);
      assert q == [q[0]] + q[1..];
      var w :| w in q[1..] && PriorityOf(w.kind) == MinPriority(q[1..]);
      assert w in q && q[0] in q;
    }
  }

  /** Whether the next take may choose `w`: any non-interactive work after four interactive takes in a row,
      otherwise the best priority present. */
  predicate Candidate(q: Queue, streak: nat, w: Work)
    requires q != []
  {
    if streak >= 4 && HasNonInteractive(q) then w.kind != Interactive
    else PriorityOf(w.kind) == MinPriority(q)
  }

  lemma SomeCandidate(q: Queue, streak: nat)
    requires q != []
    ensures exists i :: 0 <= i < |q| && Candidate(q, streak, q[i])
  {
    MinPriorityIsLeast(q);
    var w :| w in q && PriorityOf(w.kind) == MinPriority(q);
    if streak >= 4 && HasNonInteractive(q) {
      var v :| v in q && v.kind != Interactive;
      var i :| 0 <= i < |q| && q[i] == v;
      assert Candidate(q, streak, q[i]);
    } else {
      var i :| 0 <= i < |q| && q[i] == w;
      assert Candidate(q, streak, q[i]);
    }
  }

  /** The first index from `i` on whose work is a candidate. */
  function FirstCandidate(q: Queue, streak: nat, i: nat): (r: nat)
    requires q != [] && i <= |q|
    requires exists j :: i <= j < |q| && Candidate(q, streak, q[j])
    ensures i <= r < |q| && Candidate(q, streak, q[r])
    ensures forall j :: i <= j < r ==> !Candidate(q, streak, q[j])
    decreases |q| - i
  {
    if Candidate(q, streak, q[i]) then i else FirstCandidate(q, streak, i + 1)
  }

  function PickIndex(q: Queue, streak: nat): (r: nat)
    requires q != []
    ensures r < |q| && Candidate(q, streak, q[r])
    ensures forall j :: 0 <= j < r ==> !Candidate(q, streak, q[j])
  {
    SomeCandidate(q, streak);
    FirstCandidate(q, streak, 0)
  }

  function RemoveAt(q: Queue, i: nat): Queue
    requires i < |q|
  {
    q[..i] + q[i + 1..]
  }

  function IndexOf(q: Queue, id: nat): (r: nat)
    ensures r <= |q|
    ensures r < |q| ==> q[r].sequence == id
    ensures forall j :: 0 <= j < r ==> q[j].sequence != id
    ensures r == |q| ==> forall w :: w in q ==> w.sequence != id
  {
    if q == [] then 0 else if q[0].sequence == id then 0 else 1 + IndexOf(q[1..], id)
  }

  function CountIdentity(q: Queue, identityId: string): nat {
    if q == [] then 0 else (if q[0].identityId == identityId then 1 else 0) + CountIdentity(q[1..], identityId)
  }

  predicate QueuedPassive(q: Queue, identityId: string) {
    exists w :: w in q && w.kind == Passive && w.identityId == identityId
  }

  predicate UnderPressure(c: ValidConfig, q: Queue) {
    HasKind(q, Interactive) || |q| >= (c.maxQueued + 1) / 2
  }

  // ---------------------------------------------------------------- the controller's state

  datatype State = State(
    queue: Queue,
    active: set<nat>,
    accepting: bool,
    sequence: nat,
    streak: nat,
    waiters: set<nat>,
    settled: map<nat, Settlement>)

  /** Starts the next work. */
  function TakeOne(s: State): State
    requires s.queue != []
  {
    var i := PickIndex(s.queue, s.streak);
    var w := s.queue[i];
    s.(queue := RemoveAt(s.queue, i),
       active := s.active + {w.sequence},
       streak := if w.kind == Interactive then s.streak + 1 else 0)
  }

  predicate CanStart(c: ValidConfig, s: State) {
    s.accepting && |s.active| < c.maxConcurrent && |s.queue| > 0
  }

  function Pump(c: ValidConfig, s: State): State
    decreases |s.queue|
  {
    if CanStart(c, s) then Pump(c, TakeOne(s)) else s
  }

  /** Why a request is turned away, if it is. */
  function Refusal(c: ValidConfig, s: State, kind: Kind, identityId: string, aborted: bool): Option<Rejection> {
    if !s.accepting then Some(ShuttingDown)
    else if aborted then Some(Aborted)
    else if kind == Passive && QueuedPassive(s.queue, identityId) then Some(PassiveCoalesced)
    else if kind == Title && UnderPressure(c, s.queue) then Some(TitleDiscarded)
    else if |s.queue| >= c.maxQueued then Some(Overloaded)
    else if CountIdentity(s.queue, identityId) >= c.maxQueuedPerIdentity then Some(IdentityOverloaded)
    else None
  }

  function Push(s: State, kind: Kind, identityId: string): State {
    s.(queue := s.queue + [Work(s.sequence, kind, identityId)], sequence := s.sequence + 1)
  }

  function NotifyIdle(s: State): State {
    if |s.active| > 0 || |s.queue| > 0 then s else s.(waiters := {})
  }

  function Settle(s: State, id: nat, answered: bool): State {
    s.(active := s.active - {id}, settled := s.settled[id := if answered then Answered else Failed])
  }

  datatype Event =
    | Request(kind: Kind, identityId: string, aborted: bool)
    | Abort(id: nat)
    | Finish(id: nat, answered: bool)
    | Shutdown(waiter: nat)

  function Apply(c: ValidConfig, s: State, e: Event): State {
    match e
    case Request(kind, identityId, aborted) =>
      if Refusal(c, s, kind, identityId, aborted).Some? then s else Pump(c, Push(s, kind, identityId))
    case Abort(id) =>
      var i := IndexOf(s.queue, id);
      if i == |s.queue| then s
      else NotifyIdle(s.(queue := RemoveAt(s.queue, i), settled := s.settled[id := Refused(Aborted)]))
    case Finish(id, answered) =>
      if id !in s.active then s
      else NotifyIdle(Pump(c, Settle(s, id, answered)))
    case Shutdown(waiter) =>
      var t := s.(accepting := false, queue := [], settled := RefuseAll(s.settled, s.queue));
      if |s.active| == 0 then t else t.(waiters := t.waiters + {waiter})
  }

  function RefuseAll(m: map<nat, Settlement>, q: Queue): map<nat, Settlement>
    decreases |q|
  {
    if q == [] then m else RefuseAll(m[q[0].sequence := Refused(ShuttingDown)], q[1..])
  }

  const IDLE := State([], {}, true, 0, 0, {}, map[])

  // ---------------------------------------------------------------- quiescent states

  predicate Queued(q: Queue, id: nat) {
    exists w :: w in q && w.sequence == id
  }

  /** Everyone admitted is in exactly one place: queued, active, or settled. */
  ghost predicate Partitioned(s: State) {
    && Ordered(s.queue)
    && (forall w :: w in s.queue ==> w.sequence < s.sequence && w.sequence !in s.active && w.sequence !in s.settled)
    && (forall id :: id in s.active ==> id < s.sequence && id !in s.settled)
    && (forall id :: id in s.settled ==> id < s.sequence)
    && (forall id: nat :: id < s.sequence ==> Queued(s.queue, id) || id in s.active || id in s.settled)
  }

  ghost predicate OnePassiveEach(q: Queue) {
    forall v, w :: v in q && w in q && v.kind == Passive && w.kind == Passive && v.identityId == w.identityId ==> v == w
  }

  ghost predicate IdentityLimits(c: ValidConfig, q: Queue) {
    forall n :: CountIdentity(q, n) <= c.maxQueuedPerIdentity
  }

  ghost predicate Bounded(c: ValidConfig, s: State) {
    && |s.active| <= c.maxConcurrent
    && |s.queue| <= c.maxQueued
    && IdentityLimits(c, s.queue)
    && OnePassiveEach(s.queue)
  }

  ghost predicate WorkConserving(c: ValidConfig, s: State) {
    s.accepting && s.queue != [] ==> |s.active| == c.maxConcurrent
  }

  ghost predicate Waiters(s: State) {
    && (s.waiters != {} ==> !s.accepting && s.active != {})
    && (!s.accepting ==> s.queue == [])
  }

  ghost predicate Quiet(c: ValidConfig, s: State) {
    Partitioned(s) && Bounded(c, s) && WorkConserving(c, s) && Waiters(s)
  }

  // ---------------------------------------------------------------- removing from the queue

  lemma {:induction false} CountSplits(p: Queue, q: Queue, n: string)
    ensures CountIdentity(p + q, n) == CountIdentity(p, n) + CountIdentity(q, n)
  {
    if p == [] {
      assert p + q == q;
    } else {
      assert (p + q)[1..] == p[1..] + q;
      CountSplits(p[1..], q, n);
    }
  }

  lemma RemoveCounts(q: Queue, i: nat, n: string)
    requires i < |q|
    ensures CountIdentity(RemoveAt(q, i), n) <= CountIdentity(q, n)
  {
    assert q == q[..i] + q[i..];
    CountSplits(q[..i], q[i..], n);
    CountSplits(q[..i], q[i + 1..], n);
    assert q[i..][1..] == q[i + 1..];
  }

  lemma RemoveOrder(q: Queue, i: nat)
    requires Ordered(q) && i < |q|
    ensures Ordered(RemoveAt(q, i))
  {
  }

  lemma RemoveMembers(q: Queue, i: nat)
    requires Ordered(q) && i < |q|
    ensures forall w :: w in RemoveAt(q, i) <==> w in q && w != q[i]
  {
    var r := RemoveAt(q, i);
    forall w | w in q && w != q[i] ensures w in r {
      var j :| 0 <= j < |q| && q[j] == w;
      if j < i { assert r[j] == w; } else { assert r[j - 1] == w; }
    }
    forall w | w in r ensures w in q && w != q[i] {
      var j :| 0 <= j < |r| && r[j] == w;
      assert w == q[if j < i then j else j + 1];
    }
  }

  /** Everything the limits need to know about a removal. */
  lemma RemoveFacts(c: ValidConfig, q: Queue, i: nat)
    requires Ordered(q) && i < |q|
    ensures Ordered(RemoveAt(q, i))
    ensures forall w :: w in RemoveAt(q, i) <==> w in q && w != q[i]
    ensures forall w :: w in q && w.sequence == q[i].sequence ==> w == q[i]
    ensures IdentityLimits(c, q) ==> IdentityLimits(c, RemoveAt(q, i))
    ensures OnePassiveEach(q) ==> OnePassiveEach(RemoveAt(q, i))
  {
    RemoveOrder(q, i);
    RemoveMembers(q, i);
    forall n ensures CountIdentity(RemoveAt(q, i), n) <= CountIdentity(q, n) { RemoveCounts(q, i, n); }
  }

  /** Whoever leaves the queue for the active set or a settlement stays accounted for. */
  lemma StillSomewhere(s: State, t: State, i: nat)
    requires Partitioned(s) && i < |s.queue| && t.queue == RemoveAt(s.queue, i) && t.sequence == s.sequence
    requires forall w :: w in t.queue <==> w in s.queue && w != s.queue[i]
    requires s.active <= t.active && s.settled.Keys <= t.settled.Keys
    requires s.queue[i].sequence in t.active || s.queue[i].sequence in t.settled
    ensures forall id: nat :: id < t.sequence ==> Queued(t.queue, id) || id in t.active || id in t.settled
  {
    forall id: nat | id < t.sequence ensures Queued(t.queue, id) || id in t.active || id in t.settled {
      if Queued(s.queue, id) {
        var w :| w in s.queue && w.sequence == id;
        assert w != s.queue[i] ==> w in t.queue;
      }
    }
  }

  // ---------------------------------------------------------------- every event keeps them

  lemma TakeKeeps(c: ValidConfig, s: State)
    requires Partitioned(s) && Bounded(c, s) && CanStart(c, s)
    ensures Partitioned(TakeOne(s)) && Bounded(c, TakeOne(s))
  {
    var i := PickIndex(s.queue, s.streak);
    RemoveFacts(c, s.queue, i);
    StillSomewhere(s, TakeOne(s), i);
    assert s.queue[i] in s.queue;
  }

  /** Pumping fills every free slot and keeps the books. */
  lemma {:induction false} PumpKeeps(c: ValidConfig, s: State)
    requires Partitioned(s) && Bounded(c, s) && Waiters(s)
    ensures Quiet(c, Pump(c, s)) && s.active <= Pump(c, s).active
    decreases |s.queue|
  {
    if CanStart(c, s) {
      TakeKeeps(c, s);
      PumpKeeps(c, TakeOne(s));
    }
  }

  lemma {:induction false} PumpOnlyStarts(c: ValidConfig, s: State)
    ensures Pump(c, s).settled == s.settled && Pump(c, s).accepting == s.accepting
    ensures Pump(c, s).waiters == s.waiters && Pump(c, s).sequence == s.sequence
    ensures !s.accepting ==> Pump(c, s) == s
    decreases |s.queue|
  {
    if CanStart(c, s) { PumpOnlyStarts(c, TakeOne(s)); }
  }

  lemma PushCounts(q: Queue, w: Work, n: string)
    ensures CountIdentity(q + [w], n) == CountIdentity(q, n) + (if n == w.identityId then 1 else 0)
  {
    CountSplits(q, [w], n);
  }

  lemma PushKeepsPlaces(s: State, kind: Kind, identityId: string)
    requires Partitioned(s)
    ensures Partitioned(Push(s, kind, identityId))
  {
    var t := Push(s, kind, identityId);
    var w := Work(s.sequence, kind, identityId);
    assert w in t.queue && forall v :: v in s.queue ==> v in t.queue;
    forall id: nat | id < t.sequence ensures Queued(t.queue, id) || id in t.active || id in t.settled {
      if id < s.sequence && Queued(s.queue, id) {
        var v :| v in s.queue && v.sequence == id;
        assert v in t.queue;
      }
    }
  }

  lemma PushKeeps(c: ValidConfig, s: State, kind: Kind, identityId: string)
    requires Quiet(c, s) && Refusal(c, s, kind, identityId, false).None?
    ensures Partitioned(Push(s, kind, identityId)) && Bounded(c, Push(s, kind, identityId)) && Waiters(Push(s, kind, identityId))
  {
    var w := Work(s.sequence, kind, identityId);
    PushKeepsPlaces(s, kind, identityId);
    forall n ensures CountIdentity(s.queue + [w], n) <= c.maxQueuedPerIdentity { PushCounts(s.queue, w, n); }
  }

  lemma RequestKeeps(c: ValidConfig, s: State, e: Event)
    requires Quiet(c, s) && e.Request?
    ensures Quiet(c, Apply(c, s, e))
  {
    if Refusal(c, s, e.kind, e.identityId, e.aborted).None? {
      PushKeeps(c, s, e.kind, e.identityId);
      PumpKeeps(c, Push(s, e.kind, e.identityId));
    }
  }

  lemma AbortKeeps(c: ValidConfig, s: State, e: Event)
    requires Quiet(c, s) && e.Abort?
    ensures Quiet(c, Apply(c, s, e))
  {
    var i := IndexOf(s.queue, e.id);
    if i < |s.queue| {
      var t := s.(queue := RemoveAt(s.queue, i), settled := s.settled[e.id := Refused(Aborted)]);
      RemoveFacts(c, s.queue, i);
      StillSomewhere(s, t, i);
      assert s.queue[i] in s.queue;
      assert Partitioned(t) && Bounded(c, t) && WorkConserving(c, t);
    }
  }

  lemma SettleKeepsBooks(c: ValidConfig, s: State, id: nat, answered: bool)
    requires Partitioned(s) && Bounded(c, s) && id in s.active
    ensures Partitioned(Settle(s, id, answered)) && Bounded(c, Settle(s, id, answered))
    ensures |Settle(s, id, answered).active| == |s.active| - 1
  {
  }

  lemma FinishKeeps(c: ValidConfig, s: State, e: Event)
    requires Quiet(c, s) && e.Finish?
    ensures Quiet(c, Apply(c, s, e))
  {
    if e.id in s.active {
      var t := Settle(s, e.id, e.answered);
      SettleKeepsBooks(c, s, e.id, e.answered);
      PumpOnlyStarts(c, t);
      if s.accepting {
        PumpKeeps(c, t);
      }
    }
  }

  lemma {:induction false} RefuseAllFacts(m: map<nat, Settlement>, q: Queue)
    ensures forall id :: id in RefuseAll(m, q) <==> id in m || Queued(q, id)
    ensures forall id :: id in m && !Queued(q, id) ==> RefuseAll(m, q)[id] == m[id]
    ensures forall id :: Queued(q, id) ==> RefuseAll(m, q)[id] == Refused(ShuttingDown)
    decreases |q|
  {
    if q != [] {
      RefuseAllFacts(m[q[0].sequence := Refused(ShuttingDown)], q[1..]);
      QueuedSplit(q);
    }
  }

  lemma QueuedSplit(q: Queue)
    requires q != []
    ensures forall id :: Queued(q, id) <==> id == q[0].sequence || Queued(q[1..], id)
  {
    assert q == [q[0]] + q[1..];
    assert q[0] in q;
    forall id | Queued(q[1..], id) ensures Queued(q, id) {
      var w :| w in q[1..] && w.sequence == id;
      assert w in q;
    }
  }

  lemma ShutdownKeeps(c: ValidConfig, s: State, e: Event)
    requires Quiet(c, s) && e.Shutdown?
    ensures Quiet(c, Apply(c, s, e))
  {
    RefuseAllFacts(s.settled, s.queue);
    var t := Apply(c, s, e);
    assert IdentityLimits(c, t.queue);
  }

  /** Every event of every kind keeps the limits, the partition, work conservation and the waiters' condition. */
  lemma EventKeepsQuiet(c: ValidConfig, s: State, e: Event)
    requires Quiet(c, s)
    ensures Quiet(c, Apply(c, s, e))
  {
    match e
    case Request(_, _, _) => RequestKeeps(c, s, e);
    case Abort(_) => AbortKeeps(c, s, e);
    case Finish(_, _) => FinishKeeps(c, s, e);
    case Shutdown(_) => ShutdownKeeps(c, s, e);
  }

  /** A settlement, once made, is never made again or changed. */
  lemma SettledOnce(c: ValidConfig, s: State, e: Event, id: nat)
    requires Quiet(c, s) && id in s.settled
    ensures id in Apply(c, s, e).settled && Apply(c, s, e).settled[id] == s.settled[id]
  {
    match e
    case Request(kind, identityId, aborted) => PumpOnlyStarts(c, Push(s, kind, identityId));
    case Abort(a) =>
      var i := IndexOf(s.queue, a);
      if i < |s.queue| { assert s.queue[i] in s.queue; }
    case Finish(a, answered) => PumpOnlyStarts(c, Settle(s, a, answered));
    case Shutdown(_) => RefuseAllFacts(s.settled, s.queue);
  }

  ghost function Run(c: ValidConfig, s: State, events: seq<Event>): State
    decreases |events|
  {
    if events == [] then s else Run(c, Apply(c, s, events[0]), events[1..])
  }

  lemma {:induction false} RunKeepsQuiet(c: ValidConfig, s: State, events: seq<Event>)
    requires Quiet(c, s)
    ensures Quiet(c, Run(c, s, events))
    decreases |events|
  {
    if events != [] {
      EventKeepsQuiet(c, s, events[0]);
      RunKeepsQuiet(c, Apply(c, s, events[0]), events[1..]);
    }
  }

  // ---------------------------------------------------------------- what holds at every quiescent point

  ghost function Ids(q: Queue): set<nat> {
    set w | w in q :: w.sequence
  }

  function Below(n: nat): set<nat> {
    if n == 0 then {} else Below(n - 1) + {n - 1}
  }

  lemma {:induction false} BelowSize(n: nat)
    ensures |Below(n)| == n && forall id: nat :: id in Below(n) <==> id < n
  {
    if n > 0 { BelowSize(n - 1); }
  }

  lemma {:induction false} IdsSize(q: Queue)
    requires Ordered(q)
    ensures |Ids(q)| == |q|
  {
    if q != [] {
      IdsSize(q[1..]);
      IdsSplit(q);
    }
  }

  lemma IdsAreQueued(q: Queue, id: nat)
    ensures id in Ids(q) <==> Queued(q, id)
  {
  }

  lemma IdsSplit(q: Queue)
    requires Ordered(q) && q != []
    ensures Ids(q) == {q[0].sequence} + Ids(q[1..]) && q[0].sequence !in Ids(q[1..])
  {
    QueuedSplit(q);
    forall id ensures id in Ids(q) <==> id in {q[0].sequence} + Ids(q[1..]) {
      IdsAreQueued(q, id);
      IdsAreQueued(q[1..], id);
    }
  }

  lemma Census(s: State)
    requires Partitioned(s)
    ensures s.sequence == |s.queue| + |s.active| + |s.settled|
  {
    BelowSize(s.sequence);
    IdsSize(s.queue);
    var ids := Ids(s.queue);
    assert forall id :: id in ids <==> Queued(s.queue, id);
    assert Below(s.sequence) == ids + s.active + s.settled.Keys;
    assert ids !! s.active && ids + s.active !! s.settled.Keys;
  }

  /** At every quiescent point of every run: the limits hold, queued work while accepting means every slot is
      busy, and admitted = queued + active + settled. */
  lemma AlwaysQuiet(c: ValidConfig, events: seq<Event>)
    ensures var s := Run(c, IDLE, events);
      Quiet(c, s) && s.sequence == |s.queue| + |s.active| + |s.settled|
  {
    RunKeepsQuiet(c, IDLE, events);
    Census(Run(c, IDLE, events));
  }

  /** A request that is not aborted is never turned away by an accepting controller with a free slot: it starts. */
  lemma FreeSlotNeverRefuses(c: ValidConfig, s: State, kind: Kind, identityId: string)
    requires Quiet(c, s) && s.accepting && |s.active| < c.maxConcurrent
    ensures Refusal(c, s, kind, identityId, false).None?
    ensures s.sequence in Apply(c, s, Request(kind, identityId, false)).active
  {
    assert s.queue == [];
    var t := Push(s, kind, identityId);
    assert t.queue == [Work(s.sequence, kind, identityId)];
    PushKeeps(c, s, kind, identityId);
    assert PickIndex(t.queue, t.streak) == 0;
    assert s.sequence in TakeOne(t).active;
    TakeKeeps(c, t);
    PumpKeeps(c, TakeOne(t));
  }

  /** A shutdown waiter resolves in the very event after which nothing is active, and not before. */
  lemma WaiterResolvesAtIdle(c: ValidConfig, s: State, e: Event, w: nat)
    requires Quiet(c, s) && w in s.waiters
    ensures w !in Apply(c, s, e).waiters <==> Apply(c, s, e).active == {}
  {
    EventKeepsQuiet(c, s, e);
    if e.Finish? && e.id in s.active {
      PumpOnlyStarts(c, Settle(s, e.id, e.answered));
    }
  }

  /** Within one kind, work starts in admission order: the request taken is the oldest of its kind. */
  /** `w` is the longest queued work of those the kinds allow. */
  predicate OldestOf(q: Queue, w: Work, kinds: set<Kind>) {
    w in q && w.kind in kinds && forall v :: v in q && v.kind in kinds ==> w.sequence <= v.sequence
  }

  /** The order of service, kind by kind: interactive work first, then passive, then background, then titles, and the
      oldest of its kind; but after four interactive requests in a row the oldest of all the others. */
  predicate ServedNext(q: Queue, streak: nat, w: Work) {
    if streak >= 4 && exists v :: v in q && v.kind != Interactive then OldestOf(q, w, {Passive, Background, Title})
    else if exists v :: v in q && v.kind == Interactive then OldestOf(q, w, {Interactive})
    else if exists v :: v in q && v.kind == Passive then OldestOf(q, w, {Passive})
    else if exists v :: v in q && v.kind == Background then OldestOf(q, w, {Background})
    else OldestOf(q, w, {Title})
  }

  lemma PicksServedNext(q: Queue, streak: nat)
    requires q != [] && Ordered(q)
    ensures ServedNext(q, streak, q[PickIndex(q, streak)])
  {
    var w := q[PickIndex(q, streak)];
    PickIsOldest(q, streak);
    if !(streak >= 4 && HasNonInteractive(q)) {
      MinPriorityIsLeast(q);
      BestKind(q, w);
    }
  }

  lemma PickIsOldest(q: Queue, streak: nat)
    requires q != [] && Ordered(q)
    ensures var w := q[PickIndex(q, streak)];
      w in q && Candidate(q, streak, w) && forall v :: v in q && Candidate(q, streak, v) ==> w.sequence <= v.sequence
  {
    var i := PickIndex(q, streak);
    forall v | v in q && Candidate(q, streak, v) ensures q[i].sequence <= v.sequence {
      var j :| 0 <= j < |q| && q[j] == v;
      assert i <= j;
    }
  }

  lemma BestKind(q: Queue, w: Work)
    requires w in q && (forall v :: v in q ==> PriorityOf(w.kind) <= PriorityOf(v.kind))
    requires forall v :: v in q && v.kind == w.kind ==> w.sequence <= v.sequence
    ensures ServedNext(q, 0, w)
  {
  }

  /** Which refusal a request gets, in the order the tests come. */
  lemma RefusalSays(c: ValidConfig, s: State, kind: Kind, identityId: string, aborted: bool)
    ensures var r := Refusal(c, s, kind, identityId, aborted);
      var open := s.accepting && !aborted;
      var coalesced := kind == Passive && exists w :: w in s.queue && w.kind == Passive && w.identityId == identityId;
      var discarded := kind == Title && (2 * |s.queue| >= c.maxQueued || exists w :: w in s.queue && w.kind == Interactive);
      var theirs := |set i | 0 <= i < |s.queue| && s.queue[i].identityId == identityId|;
      && (r == Some(ShuttingDown) <==> !s.accepting)
      && (r == Some(Aborted) <==> s.accepting && aborted)
      && (r == Some(PassiveCoalesced) <==> open && coalesced)
      && (r == Some(TitleDiscarded) <==> open && discarded)
      && (r == Some(Overloaded) <==> open && !coalesced && !discarded && |s.queue| >= c.maxQueued)
      && (r == Some(IdentityOverloaded) <==>
            open && !coalesced && !discarded && |s.queue| < c.maxQueued && theirs >= c.maxQueuedPerIdentity)
  {
    CountIs(s.queue, identityId, |s.queue|);
    assert s.queue[..|s.queue|] == s.queue;
  }

  lemma {:induction false} CountIs(q: Queue, n: string, k: nat)
    requires k <= |q|
    ensures CountIdentity(q[..k], n) == |set i | 0 <= i < k && q[i].identityId == n|
  {
    if k > 0 {
      CountIs(q, n, k - 1);
      assert q[..k] == q[..k - 1] + [q[k - 1]];
      CountSplits(q[..k - 1], [q[k - 1]], n);
      assert [q[k - 1]][1..] == [];
      var before := set i | 0 <= i < k - 1 && q[i].identityId == n;
      var upTo := set i | 0 <= i < k && q[i].identityId == n;
      assert upTo == if q[k - 1].identityId == n then before + {k - 1} else before;
    }
  }

  lemma TakesOldestOfItsKind(q: Queue, streak: nat, v: Work)
    requires q != [] && Ordered(q) && v in q && v.kind == q[PickIndex(q, streak)].kind
    ensures q[PickIndex(q, streak)].sequence <= v.sequence
  {
    var i :| 0 <= i < |q| && q[i] == v;
    assert Candidate(q, streak, q[i]);
  }

  // ---------------------------------------------------------------- bounded waiting

  /** What happens to the queue, one change at a time. `Pump` is a series of takes. */
  datatype Change = Arrive(kind: Kind, identityId: string) | Leave(id: nat) | Take

  datatype Line = Line(queue: Queue, streak: nat, next: nat)

  predicate Possible(l: Line, ch: Change) {
    ch.Take? ==> l.queue != []
  }

  function Advance(l: Line, ch: Change): Line
    requires Possible(l, ch)
  {
    match ch
    case Arrive(kind, identityId) => l.(queue := l.queue + [Work(l.next, kind, identityId)], next := l.next + 1)
    case Leave(id) =>
      var i := IndexOf(l.queue, id);
      if i == |l.queue| then l else l.(queue := RemoveAt(l.queue, i))
    case Take =>
      var i := PickIndex(l.queue, l.streak);
      l.(queue := RemoveAt(l.queue, i), streak := if l.queue[i].kind == Interactive then l.streak + 1 else 0)
  }

  ghost predicate LineOk(l: Line) {
    Ordered(l.queue) && forall w :: w in l.queue ==> w.sequence < l.next
  }

  ghost predicate Series(l: Line, changes: seq<Change>)
    decreases |changes|
  {
    changes == [] || (Possible(l, changes[0]) && Series(Advance(l, changes[0]), changes[1..]))
  }

  ghost function Final(l: Line, changes: seq<Change>): Line
    requires Series(l, changes)
    decreases |changes|
  {
    if changes == [] then l else Final(Advance(l, changes[0]), changes[1..])
  }

  ghost function Takes(changes: seq<Change>): nat {
    if changes == [] then 0 else (if changes[0].Take? then 1 else 0) + Takes(changes[1..])
  }

  /** The take cannot let younger non-interactive work past `w`: interactive work is queued, or the streak forces
      the oldest, or nothing queued has a better priority than `w`. */
  ghost predicate Fair(q: Queue, streak: nat, w: Work) {
    || HasKind(q, Interactive)
    || streak >= 4
    || forall v :: v in q ==> PriorityOf(w.kind) <= PriorityOf(v.kind)
  }

  /** Every take up to the one that starts `w` is fair to it. */
  ghost predicate FairSeries(l: Line, changes: seq<Change>, w: Work)
    requires Series(l, changes)
    decreases |changes|
  {
    changes == [] || ((changes[0].Take? && w in l.queue ==> Fair(l.queue, l.streak, w)) &&
                      FairSeries(Advance(l, changes[0]), changes[1..], w))
  }

  /** How many non-interactive requests older than `w` are queued. */
  function OlderAhead(q: Queue, w: Work): nat {
    if q == [] then 0
    else (if q[0].kind != Interactive && q[0].sequence < w.sequence then 1 else 0) + OlderAhead(q[1..], w)
  }

  /** Five takes for each older one, less the interactive takes already in the streak. */
  function Potential(l: Line, w: Work): int {
    5 * OlderAhead(l.queue, w) + if l.streak >= 4 then 0 else 4 - l.streak
  }

  lemma {:induction false} OlderSplits(p: Queue, q: Queue, w: Work)
    ensures OlderAhead(p + q, w) == OlderAhead(p, w) + OlderAhead(q, w)
  {
    if p == [] {
      assert p + q == q;
    } else {
      assert (p + q)[1..] == p[1..] + q;
      OlderSplits(p[1..], q, w);
    }
  }

  lemma OlderAfterRemoval(q: Queue, i: nat, w: Work)
    requires i < |q|
    ensures OlderAhead(RemoveAt(q, i), w) ==
      OlderAhead(q, w) - if q[i].kind != Interactive && q[i].sequence < w.sequence then 1 else 0
  {
    assert q == q[..i] + q[i..];
    OlderSplits(q[..i], q[i..], w);
    OlderSplits(q[..i], q[i + 1..], w);
    assert q[i..][1..] == q[i + 1..];
  }

  /** A fair take of something else is either interactive, within the streak, or an older request. */
  lemma FairTake(l: Line, w: Work)
    requires LineOk(l) && w in l.queue && w.kind != Interactive && Fair(l.queue, l.streak, w)
    ensures var v := l.queue[PickIndex(l.queue, l.streak)];
      || v == w
      || (v.kind == Interactive && l.streak < 4)
      || (v.kind != Interactive && v.sequence < w.sequence)
  {
    var q, i := l.queue, PickIndex(l.queue, l.streak);
    var v := q[i];
    var j :| 0 <= j < |q| && q[j] == w;
    MinPriorityIsLeast(q);
    assert HasNonInteractive(q);
    if l.streak >= 4 {
      assert Candidate(q, l.streak, q[j]);
    } else if HasKind(q, Interactive) {
      var u :| u in q && u.kind == Interactive;
      assert PriorityOf(u.kind) == 0;
    } else {
      assert MinPriority(q) == PriorityOf(w.kind);
      assert Candidate(q, l.streak, q[j]);
    }
  }

  lemma ChangeKeepsLine(l: Line, ch: Change)
    requires LineOk(l) && Possible(l, ch)
    ensures LineOk(Advance(l, ch))
    ensures forall w :: w in Advance(l, ch).queue && w.sequence < l.next ==> w in l.queue
  {
    if ch.Leave? {
      var i := IndexOf(l.queue, ch.id);
      if i < |l.queue| { RemoveOrder(l.queue, i); RemoveMembers(l.queue, i); }
    } else if ch.Take? {
      var i := PickIndex(l.queue, l.streak);
      RemoveOrder(l.queue, i);
      RemoveMembers(l.queue, i);
    }
  }

  lemma ChangeLowersPotential(l: Line, ch: Change, w: Work)
    requires LineOk(l) && Possible(l, ch) && w in l.queue && w.kind != Interactive
    requires ch.Take? ==> Fair(l.queue, l.streak, w)
    requires w in Advance(l, ch).queue
    ensures Potential(Advance(l, ch), w) <= Potential(l, w) - if ch.Take? then 1 else 0
  {
    match ch
    case Arrive(kind, identityId) => OlderSplits(l.queue, [Work(l.next, kind, identityId)], w);
    case Leave(id) =>
      var i := IndexOf(l.queue, id);
      if i < |l.queue| { OlderAfterRemoval(l.queue, i, w); }
    case Take =>
      var i := PickIndex(l.queue, l.streak);
      FairTake(l, w);
      RemoveMembers(l.queue, i);
      OlderAfterRemoval(l.queue, i, w);
  }

  lemma {:induction false} TakesArePaidFor(l: Line, changes: seq<Change>, w: Work)
    requires LineOk(l) && w in l.queue && w.kind != Interactive
    requires Series(l, changes) && FairSeries(l, changes, w) && w in Final(l, changes).queue
    ensures Takes(changes) <= Potential(l, w)
    decreases |changes|
  {
    if changes != [] {
      var m := Advance(l, changes[0]);
      ChangeKeepsLine(l, changes[0]);
      if w in m.queue {
        ChangeLowersPotential(l, changes[0], w);
        TakesArePaidFor(m, changes[1..], w);
      } else {
        NeverComesBack(m, changes[1..], w);
      }
    }
  }

  lemma {:induction false} NeverComesBack(l: Line, changes: seq<Change>, w: Work)
    requires LineOk(l) && w !in l.queue && w.sequence < l.next && Series(l, changes)
    ensures w !in Final(l, changes).queue
    decreases |changes|
  {
    if changes != [] {
      ChangeKeepsLine(l, changes[0]);
      NeverComesBack(Advance(l, changes[0]), changes[1..], w);
    }
  }

  /** Bounded waiting: a non-interactive request with k older non-interactive ones ahead is started or withdrawn
      within 5(k+1) takes that are fair to it, whatever arrives in the meantime. */
  lemma BoundedWaiting(l: Line, changes: seq<Change>, w: Work)
    requires LineOk(l) && w in l.queue && w.kind != Interactive
    requires Series(l, changes) && FairSeries(l, changes, w)
    requires Takes(changes) >= 5 * (OlderAhead(l.queue, w) + 1)
    ensures w !in Final(l, changes).queue
  {
    if w in Final(l, changes).queue {
      TakesArePaidFor(l, changes, w);
      assert false;
    }
  }

  /** In particular whenever interactive work is queued at every take. */
  lemma {:induction false} InteractiveQueuedIsFair(l: Line, changes: seq<Change>, w: Work)
    requires Series(l, changes) && InteractiveAtEveryTake(l, changes)
    ensures FairSeries(l, changes, w)
    decreases |changes|
  {
    if changes != [] { InteractiveQueuedIsFair(Advance(l, changes[0]), changes[1..], w); }
  }

  ghost predicate InteractiveAtEveryTake(l: Line, changes: seq<Change>)
    requires Series(l, changes)
    decreases |changes|
  {
    changes == [] || ((changes[0].Take? ==> HasKind(l.queue, Interactive)) &&
                      InteractiveAtEveryTake(Advance(l, changes[0]), changes[1..]))
  }

  function LineOf(s: State): Line {
    Line(s.queue, s.streak, s.sequence)
  }

  // ---------------------------------------------------------------- what runs of the controller do to the queue

  ghost function PumpChanges(c: ValidConfig, s: State): seq<Change>
    decreases |s.queue|
  {
    if CanStart(c, s) then [Take] + PumpChanges(c, TakeOne(s)) else []
  }

  ghost function LeaveAll(q: Queue): seq<Change> {
    if q == [] then [] else [Leave(q[0].sequence)] + LeaveAll(q[1..])
  }

  /** One event, as the changes it makes to the queue. */
  ghost function EventChanges(c: ValidConfig, s: State, e: Event): seq<Change> {
    match e
    case Request(kind, identityId, aborted) =>
      if Refusal(c, s, kind, identityId, aborted).Some? then []
      else [Arrive(kind, identityId)] + PumpChanges(c, Push(s, kind, identityId))
    case Abort(id) => if IndexOf(s.queue, id) == |s.queue| then [] else [Leave(id)]
    case Finish(id, answered) => if id !in s.active then [] else PumpChanges(c, Settle(s, id, answered))
    case Shutdown(_) => LeaveAll(s.queue)
  }

  ghost function RunChanges(c: ValidConfig, s: State, events: seq<Event>): seq<Change>
    decreases |events|
  {
    if events == [] then [] else EventChanges(c, s, events[0]) + RunChanges(c, Apply(c, s, events[0]), events[1..])
  }

  /** The changes lead from one line to the other. */
  ghost predicate Leads(l: Line, changes: seq<Change>, m: Line) {
    Series(l, changes) && Final(l, changes) == m
  }

  lemma {:induction false} LeadsOn(l: Line, a: seq<Change>, m: Line, b: seq<Change>, n: Line)
    requires Leads(l, a, m) && Leads(m, b, n)
    ensures Leads(l, a + b, n) && Takes(a + b) == Takes(a) + Takes(b)
    decreases |a|
  {
    if a == [] {
      assert a + b == b;
    } else {
      assert (a + b)[1..] == a[1..] + b;
      LeadsOn(Advance(l, a[0]), a[1..], m, b, n);
    }
  }

  /** The pump's effect on the queue is a series of takes. */
  lemma {:induction false} PumpIsTakes(c: ValidConfig, s: State)
    ensures Leads(LineOf(s), PumpChanges(c, s), LineOf(Pump(c, s)))
    decreases |s.queue|
  {
    if CanStart(c, s) {
      PumpIsTakes(c, TakeOne(s));
      TakeLeads(s, PumpChanges(c, TakeOne(s)), LineOf(Pump(c, s)));
    }
  }

  lemma TakeLeads(s: State, more: seq<Change>, end: Line)
    requires s.queue != [] && Leads(LineOf(TakeOne(s)), more, end)
    ensures Leads(LineOf(s), [Take] + more, end)
  {
    assert ([Take] + more)[1..] == more;
  }

  lemma {:induction false} LeaveAllLeads(l: Line)
    ensures Leads(l, LeaveAll(l.queue), l.(queue := []))
    decreases |l.queue|
  {
    if l.queue != [] {
      var m := l.(queue := l.queue[1..]);
      assert Advance(l, Leave(l.queue[0].sequence)) == m;
      LeaveAllLeads(m);
      assert LeaveAll(l.queue)[1..] == LeaveAll(m.queue);
    }
  }

  lemma OneChange(l: Line, ch: Change)
    requires Possible(l, ch)
    ensures Leads(l, [ch], Advance(l, ch))
  {
    assert [ch][1..] == [];
  }

  /** Every event is a series of arrivals, departures and takes. */
  lemma EventIsSeries(c: ValidConfig, s: State, e: Event)
    ensures Leads(LineOf(s), EventChanges(c, s, e), LineOf(Apply(c, s, e)))
  {
    match e
    case Request(kind, identityId, aborted) => PushIsSeries(c, s, kind, identityId);
    case Abort(id) => AbortIsSeries(c, s, id);
    case Finish(id, answered) =>
      if id in s.active { PumpIsTakes(c, Settle(s, id, answered)); }
    case Shutdown(waiter) => ShutdownIsSeries(c, s, waiter);
  }

  lemma PushIsSeries(c: ValidConfig, s: State, kind: Kind, identityId: string)
    ensures var t := Push(s, kind, identityId);
      Leads(LineOf(s), [Arrive(kind, identityId)] + PumpChanges(c, t), LineOf(Pump(c, t)))
  {
    var t := Push(s, kind, identityId);
    OneChange(LineOf(s), Arrive(kind, identityId));
    PumpIsTakes(c, t);
    LeadsOn(LineOf(s), [Arrive(kind, identityId)], LineOf(t), PumpChanges(c, t), LineOf(Pump(c, t)));
  }

  lemma AbortIsSeries(c: ValidConfig, s: State, id: nat)
    ensures Leads(LineOf(s), EventChanges(c, s, Abort(id)), LineOf(Apply(c, s, Abort(id))))
  {
    if IndexOf(s.queue, id) < |s.queue| { OneChange(LineOf(s), Leave(id)); }
  }

  lemma ShutdownIsSeries(c: ValidConfig, s: State, waiter: nat)
    ensures Leads(LineOf(s), EventChanges(c, s, Shutdown(waiter)), LineOf(Apply(c, s, Shutdown(waiter))))
  {
    LeaveAllLeads(LineOf(s));
  }

  lemma {:induction false} RunIsSeries(c: ValidConfig, s: State, events: seq<Event>)
    ensures Leads(LineOf(s), RunChanges(c, s, events), LineOf(Run(c, s, events)))
    decreases |events|
  {
    if events != [] {
      var t := Apply(c, s, events[0]);
      EventIsSeries(c, s, events[0]);
      RunIsSeries(c, t, events[1..]);
      LeadsOn(LineOf(s), EventChanges(c, s, events[0]), LineOf(t), RunChanges(c, t, events[1..]), LineOf(Run(c, s, events)));
    }
  }

  // ---------------------------------------------------------------- counting starts

  /** The requests that were ever handed to the provider. */
  ghost function EverStarted(s: State): set<nat> {
    s.active + Replied(s.settled)
  }

  ghost function Replied(m: map<nat, Settlement>): set<nat> {
    set id | id in m && !m[id].Refused?
  }

  lemma RefusalIsNoReply(m: map<nat, Settlement>, id: nat, reason: Rejection)
    requires id !in m
    ensures Replied(m[id := Refused(reason)]) == Replied(m)
  {
  }

  lemma ReplyAdds(m: map<nat, Settlement>, id: nat, reply: Settlement)
    requires id !in m && !reply.Refused?
    ensures Replied(m[id := reply]) == Replied(m) + {id}
  {
  }

  /** How many requests were handed to the provider during a run. */
  ghost function Starts(c: ValidConfig, s: State, events: seq<Event>): int {
    |EverStarted(Run(c, s, events))| - |EverStarted(s)|
  }

  lemma TakeStartsOne(s: State)
    requires Partitioned(s) && s.queue != []
    ensures |EverStarted(TakeOne(s))| == |EverStarted(s)| + 1
  {
    var w := s.queue[PickIndex(s.queue, s.streak)];
    assert w in s.queue;
    assert EverStarted(TakeOne(s)) == EverStarted(s) + {w.sequence};
    assert w.sequence !in EverStarted(s);
  }

  lemma {:induction false} PumpStarts(c: ValidConfig, s: State)
    requires Partitioned(s) && Bounded(c, s)
    ensures |EverStarted(Pump(c, s))| == |EverStarted(s)| + Takes(PumpChanges(c, s))
    decreases |s.queue|
  {
    if CanStart(c, s) {
      TakeStartsOne(s);
      TakeKeeps(c, s);
      PumpStarts(c, TakeOne(s));
      assert PumpChanges(c, s)[1..] == PumpChanges(c, TakeOne(s));
    }
  }

  lemma {:induction false} RefusedStartNothing(m: map<nat, Settlement>, q: Queue)
    requires Ordered(q) && forall w :: w in q ==> w.sequence !in m
    ensures Replied(RefuseAll(m, q)) == Replied(m)
    decreases |q|
  {
    if q != [] {
      RefusalIsNoReply(m, q[0].sequence, ShuttingDown);
      RefusedStartNothing(m[q[0].sequence := Refused(ShuttingDown)], q[1..]);
    }
  }

  lemma {:induction false} LeavesAreNoTakes(q: Queue)
    ensures Takes(LeaveAll(q)) == 0
  {
    if q != [] { LeavesAreNoTakes(q[1..]); assert LeaveAll(q)[1..] == LeaveAll(q[1..]); }
  }

  lemma EventStarts(c: ValidConfig, s: State, e: Event)
    requires Quiet(c, s)
    ensures |EverStarted(Apply(c, s, e))| == |EverStarted(s)| + Takes(EventChanges(c, s, e))
  {
    match e
    case Request(kind, identityId, aborted) =>
      if Refusal(c, s, kind, identityId, aborted).None? { RequestStarts(c, s, e); }
    case Abort(id) =>
      if IndexOf(s.queue, id) < |s.queue| { AbortStartsNothing(c, s, id); }
    case Finish(id, answered) =>
      if id in s.active { FinishStarts(c, s, id, answered); }
    case Shutdown(_) => ShutdownStartsNothing(c, s, e);
  }

  lemma ShutdownStartsNothing(c: ValidConfig, s: State, e: Event)
    requires Quiet(c, s) && e.Shutdown?
    ensures |EverStarted(Apply(c, s, e))| == |EverStarted(s)| + Takes(EventChanges(c, s, e))
  {
    RefusedStartNothing(s.settled, s.queue);
    LeavesAreNoTakes(s.queue);
    assert EverStarted(Apply(c, s, e)) == EverStarted(s);
  }

  lemma RequestStarts(c: ValidConfig, s: State, e: Event)
    requires Quiet(c, s) && e.Request? && Refusal(c, s, e.kind, e.identityId, e.aborted).None?
    ensures |EverStarted(Apply(c, s, e))| == |EverStarted(s)| + Takes(EventChanges(c, s, e))
  {
    var t := Push(s, e.kind, e.identityId);
    PushKeeps(c, s, e.kind, e.identityId);
    PumpStarts(c, t);
    assert EventChanges(c, s, e)[1..] == PumpChanges(c, t);
  }

  lemma AbortStartsNothing(c: ValidConfig, s: State, id: nat)
    requires Quiet(c, s) && IndexOf(s.queue, id) < |s.queue|
    ensures EverStarted(Apply(c, s, Abort(id))) == EverStarted(s)
  {
    var i := IndexOf(s.queue, id);
    assert s.queue[i] in s.queue;
    RefusalIsNoReply(s.settled, id, Aborted);
    NotifyStartsNothing(s.(queue := RemoveAt(s.queue, i), settled := s.settled[id := Refused(Aborted)]));
  }

  lemma FinishStarts(c: ValidConfig, s: State, id: nat, answered: bool)
    requires Quiet(c, s) && id in s.active
    ensures |EverStarted(Apply(c, s, Finish(id, answered)))| == |EverStarted(s)| + Takes(PumpChanges(c, Settle(s, id, answered)))
  {
    var t := Settle(s, id, answered);
    SettleKeepsBooks(c, s, id, answered);
    SettleStartsNothing(s, id, answered);
    PumpStarts(c, t);
    NotifyStartsNothing(Pump(c, t));
  }

  lemma SettleStartsNothing(s: State, id: nat, answered: bool)
    requires id in s.active && id !in s.settled
    ensures EverStarted(Settle(s, id, answered)) == EverStarted(s)
  {
    ReplyAdds(s.settled, id, if answered then Answered else Failed);
  }

  lemma NotifyStartsNothing(s: State)
    ensures EverStarted(NotifyIdle(s)) == EverStarted(s)
  {
  }

  lemma {:induction false} StartsAreTakes(c: ValidConfig, s: State, events: seq<Event>)
    requires Quiet(c, s)
    ensures Starts(c, s, events) == Takes(RunChanges(c, s, events))
    decreases |events|
  {
    if events != [] {
      var t := Apply(c, s, events[0]);
      EventStarts(c, s, events[0]);
      EventKeepsQuiet(c, s, events[0]);
      StartsAreTakes(c, t, events[1..]);
      EventIsSeries(c, s, events[0]);
      RunIsSeries(c, t, events[1..]);
      LeadsOn(LineOf(s), EventChanges(c, s, events[0]), LineOf(t), RunChanges(c, t, events[1..]), LineOf(Run(c, s, events)));
    }
  }

  // ---------------------------------------------------------------- bounded waiting in every run

  lemma {:induction false} PassiveTakesAreFair(l: Line, changes: seq<Change>, w: Work)
    requires w.kind == Passive && Series(l, changes)
    ensures FairSeries(l, changes, w)
    decreases |changes|
  {
    if changes != [] { PassiveTakesAreFair(Advance(l, changes[0]), changes[1..], w); }
  }

  /** A passive request with k older non-interactive ones ahead leaves the queue within 5(k+1) starts, whatever
      happens to the controller. */
  lemma PassiveWaits(c: ValidConfig, s: State, events: seq<Event>, w: Work)
    requires Quiet(c, s) && w in s.queue && w.kind == Passive
    requires Starts(c, s, events) >= 5 * (OlderAhead(s.queue, w) + 1)
    ensures w !in Run(c, s, events).queue
  {
    RunIsSeries(c, s, events);
    StartsAreTakes(c, s, events);
    PassiveTakesAreFair(LineOf(s), RunChanges(c, s, events), w);
    BoundedWaiting(LineOf(s), RunChanges(c, s, events), w);
  }

  /** The same for every non-interactive request while interactive work is queued at every take. */
  lemma OthersWait(c: ValidConfig, s: State, events: seq<Event>, w: Work)
    requires Quiet(c, s) && w in s.queue && w.kind != Interactive
    requires Series(LineOf(s), RunChanges(c, s, events)) && InteractiveAtEveryTake(LineOf(s), RunChanges(c, s, events))
    requires Starts(c, s, events) >= 5 * (OlderAhead(s.queue, w) + 1)
    ensures w !in Run(c, s, events).queue
  {
    RunIsSeries(c, s, events);
    StartsAreTakes(c, s, events);
    InteractiveQueuedIsFair(LineOf(s), RunChanges(c, s, events), w);
    BoundedWaiting(LineOf(s), RunChanges(c, s, events), w);
  }

  /** How many interactive requests older than `w` are queued. */
  function InteractiveAhead(q: Queue, w: Work): nat {
    if q == [] then 0
    else (if q[0].kind == Interactive && q[0].sequence < w.sequence then 1 else 0) + InteractiveAhead(q[1..], w)
  }

  /** One take for each older interactive request, and one in five for another kind. */
  function InteractivePotential(l: Line, w: Work): nat {
    var j := InteractiveAhead(l.queue, w);
    j + ((if l.streak >= 4 then 4 else l.streak) + j) / 4
  }

  lemma {:induction false} InteractiveAheadSplits(p: Queue, q: Queue, w: Work)
    ensures InteractiveAhead(p + q, w) == InteractiveAhead(p, w) + InteractiveAhead(q, w)
  {
    if p == [] {
      assert p + q == q;
    } else {
      assert (p + q)[1..] == p[1..] + q;
      InteractiveAheadSplits(p[1..], q, w);
    }
  }

  lemma InteractiveAfterRemoval(q: Queue, i: nat, w: Work)
    requires i < |q|
    ensures InteractiveAhead(RemoveAt(q, i), w) ==
      InteractiveAhead(q, w) - if q[i].kind == Interactive && q[i].sequence < w.sequence then 1 else 0
  {
    assert q == q[..i] + q[i..];
    InteractiveAheadSplits(q[..i], q[i..], w);
    InteractiveAheadSplits(q[..i], q[i + 1..], w);
    assert q[i..][1..] == q[i + 1..];
  }

  /** A take of something else is an older interactive request, or the one the streak owes the other kinds. */
  lemma InteractiveTake(l: Line, w: Work)
    requires LineOk(l) && w in l.queue && w.kind == Interactive
    ensures var v := l.queue[PickIndex(l.queue, l.streak)];
      || v == w
      || (v.kind == Interactive && v.sequence < w.sequence)
      || (v.kind != Interactive && l.streak >= 4)
  {
    var q, i := l.queue, PickIndex(l.queue, l.streak);
    var j :| 0 <= j < |q| && q[j] == w;
    MinPriorityIsLeast(q);
    assert PriorityOf(w.kind) == 0;
    if !(l.streak >= 4 && HasNonInteractive(q)) { assert Candidate(q, l.streak, q[j]); }
  }

  lemma ChangeLowersInteractive(l: Line, ch: Change, w: Work)
    requires LineOk(l) && Possible(l, ch) && w in l.queue && w.kind == Interactive && w in Advance(l, ch).queue
    ensures InteractivePotential(Advance(l, ch), w) <= InteractivePotential(l, w) - if ch.Take? then 1 else 0
  {
    match ch
    case Arrive(kind, identityId) => InteractiveAheadSplits(l.queue, [Work(l.next, kind, identityId)], w);
    case Leave(id) =>
      var i := IndexOf(l.queue, id);
      if i < |l.queue| { InteractiveAfterRemoval(l.queue, i, w); }
    case Take =>
      var i := PickIndex(l.queue, l.streak);
      InteractiveTake(l, w);
      RemoveMembers(l.queue, i);
      InteractiveAfterRemoval(l.queue, i, w);
  }

  lemma {:induction false} InteractiveTakesArePaidFor(l: Line, changes: seq<Change>, w: Work)
    requires LineOk(l) && w in l.queue && w.kind == Interactive && Series(l, changes) && w in Final(l, changes).queue
    ensures Takes(changes) <= InteractivePotential(l, w)
    decreases |changes|
  {
    if changes != [] {
      var m := Advance(l, changes[0]);
      ChangeKeepsLine(l, changes[0]);
      if w in m.queue {
        ChangeLowersInteractive(l, changes[0], w);
        InteractiveTakesArePaidFor(m, changes[1..], w);
      } else {
        NeverComesBack(m, changes[1..], w);
      }
    }
  }

  /** An interactive request with k older interactive ones ahead leaves the queue within k + k/4 + 2 starts. */
  lemma InteractiveWaits(c: ValidConfig, s: State, events: seq<Event>, w: Work)
    requires Quiet(c, s) && w in s.queue && w.kind == Interactive
    requires var k := InteractiveAhead(s.queue, w); Starts(c, s, events) >= k + k / 4 + 2
    ensures w !in Run(c, s, events).queue
  {
    RunIsSeries(c, s, events);
    StartsAreTakes(c, s, events);
    if w in Run(c, s, events).queue {
      InteractiveTakesArePaidFor(LineOf(s), RunChanges(c, s, events), w);
      assert false;
    }
  }

  /** With room for one request in the queue, the queued one is the next to start. */
  lemma {:induction false} LoneRequestIsNext(c: ValidConfig, s: State, events: seq<Event>, w: Work)
    requires c.maxQueued == 1 && Quiet(c, s) && w in s.queue && w in Run(c, s, events).queue
    ensures Starts(c, s, events) == 0
    decreases |events|
  {
    if events != [] {
      var t := Apply(c, s, events[0]);
      EventKeepsQuiet(c, s, events[0]);
      if w in t.queue {
        LoneStep(c, s, events[0], w);
        LoneRequestIsNext(c, t, events[1..], w);
      } else {
        SequenceGrows(c, s, events[0]);
        GoneForGood(c, s, t, events[1..], w);
      }
    }
  }

  lemma LoneStep(c: ValidConfig, s: State, e: Event, w: Work)
    requires c.maxQueued == 1 && Quiet(c, s) && w in s.queue && w in Apply(c, s, e).queue
    ensures EverStarted(Apply(c, s, e)) == EverStarted(s)
  {
    assert s.queue == [w];
    match e
    case Request(kind, identityId, aborted) =>
    case Abort(id) => assert IndexOf(s.queue, id) == |s.queue|;
    case Finish(id, answered) =>
      if id in s.active {
        LoneFinish(c, s, id, answered, w);
        assert false;
      }
    case Shutdown(_) => assert false;
  }

  lemma SequenceGrows(c: ValidConfig, s: State, e: Event)
    ensures s.sequence <= Apply(c, s, e).sequence
  {
    match e
    case Request(kind, identityId, _) => PumpOnlyStarts(c, Push(s, kind, identityId));
    case Abort(_) =>
    case Finish(id, answered) => PumpOnlyStarts(c, Settle(s, id, answered));
    case Shutdown(_) =>
  }

  lemma LoneFinish(c: ValidConfig, s: State, id: nat, answered: bool, w: Work)
    requires Quiet(c, s) && s.queue == [w] && id in s.active
    ensures Apply(c, s, Finish(id, answered)).queue == []
  {
    var t := Settle(s, id, answered);
    SettleKeepsBooks(c, s, id, answered);
    assert PickIndex(t.queue, t.streak) == 0;
    assert TakeOne(t).queue == [];
    assert Pump(c, t) == Pump(c, TakeOne(t)) == TakeOne(t);
  }

  /** A request that left the queue never comes back. */
  lemma GoneForGood(c: ValidConfig, s: State, t: State, events: seq<Event>, w: Work)
    requires Quiet(c, s) && Quiet(c, t) && w in s.queue && w !in t.queue && s.sequence <= t.sequence
    ensures w !in Run(c, t, events).queue
  {
    RunIsSeries(c, t, events);
    NeverComesBack(LineOf(t), RunChanges(c, t, events), w);
  }

  // ---------------------------------------------------------------- which kinds have a bound

  /** The request is queued after `before` and still queued after `events`. */
  ghost predicate WaitsThrough(c: ValidConfig, before: seq<Event>, events: seq<Event>, w: Work) {
    var s := Run(c, IDLE, before);
    w in s.queue && w in Run(c, s, events).queue
  }

  /** However the controller is used, a queued request of the kind with k requests ahead of it leaves the queue
      before `bound(k)` others have started. */
  ghost predicate BoundedBy(c: ValidConfig, kind: Kind, bound: nat -> nat) {
    forall before, events, w :: WaitsThrough(c, before, events, w) && w.kind == kind ==>
      Starts(c, Run(c, IDLE, before), events) < bound(IndexOf(Run(c, IDLE, before).queue, w.sequence))
  }

  ghost predicate HasBound(c: ValidConfig, kind: Kind) {
    exists bound: nat -> nat :: BoundedBy(c, kind, bound)
  }

  /** In an ordered queue only the requests before w are older. */
  lemma {:induction false} AheadIsBefore(q: Queue, w: Work)
    requires Ordered(q) && w in q
    ensures OlderAhead(q, w) <= IndexOf(q, w.sequence) && InteractiveAhead(q, w) <= IndexOf(q, w.sequence)
  {
    var i := IndexOf(q, w.sequence);
    assert q == q[..i] + q[i..];
    OlderSplits(q[..i], q[i..], w);
    InteractiveAheadSplits(q[..i], q[i..], w);
    AtMostAll(q[..i], w);
    var j :| 0 <= j < |q| && q[j] == w;
    assert j == i;
    NoneOlder(q[i..], w);
  }

  lemma {:induction false} AtMostAll(q: Queue, w: Work)
    ensures OlderAhead(q, w) <= |q| && InteractiveAhead(q, w) <= |q|
  {
    if q != [] { AtMostAll(q[1..], w); }
  }

  lemma {:induction false} NoneOlder(q: Queue, w: Work)
    requires forall v :: v in q ==> w.sequence <= v.sequence
    ensures OlderAhead(q, w) == 0 && InteractiveAhead(q, w) == 0
  {
    if q != [] {
      assert q[0] in q && forall v :: v in q[1..] ==> v in q;
      NoneOlder(q[1..], w);
    }
  }

  lemma InteractiveAndPassiveAreBounded(c: ValidConfig, kind: Kind)
    requires kind == Interactive || kind == Passive
    ensures BoundedBy(c, kind, (k: nat) => 5 * (k + 1))
  {
    forall before, events, w | WaitsThrough(c, before, events, w) && w.kind == kind
      ensures Starts(c, Run(c, IDLE, before), events) < 5 * (IndexOf(Run(c, IDLE, before).queue, w.sequence) + 1)
    {
      var s := Run(c, IDLE, before);
      RunKeepsQuiet(c, IDLE, before);
      AheadIsBefore(s.queue, w);
      if kind == Passive {
        if Starts(c, s, events) >= 5 * (OlderAhead(s.queue, w) + 1) { PassiveWaits(c, s, events, w); }
      } else {
        var k := InteractiveAhead(s.queue, w);
        if Starts(c, s, events) >= k + k / 4 + 2 { InteractiveWaits(c, s, events, w); }
      }
    }
  }

  lemma LoneRequestsAreBounded(c: ValidConfig, kind: Kind)
    requires c.maxQueued == 1
    ensures BoundedBy(c, kind, (k: nat) => 1)
  {
    forall before, events, w | WaitsThrough(c, before, events, w) && w.kind == kind
      ensures Starts(c, Run(c, IDLE, before), events) < 1
    {
      RunKeepsQuiet(c, IDLE, before);
      LoneRequestIsNext(c, Run(c, IDLE, before), events, w);
    }
  }

  // The other kinds can be passed by passive requests for ever, once a second request fits into the queue.

  lemma {:induction false} RunOn(c: ValidConfig, s: State, a: seq<Event>, b: seq<Event>)
    ensures Run(c, s, a + b) == Run(c, Run(c, s, a), b)
    decreases |a|
  {
    if a == [] {
      assert a + b == b;
    } else {
      assert (a + b)[1..] == a[1..] + b;
      RunOn(c, Apply(c, s, a[0]), a[1..], b);
    }
  }

  lemma OneEvent(c: ValidConfig, s: State, e: Event)
    ensures Run(c, s, [e]) == Apply(c, s, e)
  {
    assert [e][1..] == [];
  }

  /** n slots taken, nothing queued, no streak. */
  ghost predicate Filled(c: ValidConfig, s: State, n: nat) {
    Quiet(c, s) && s.accepting && s.queue == [] && s.streak == 0 && |s.active| == n
  }

  lemma FillOne(c: ValidConfig, s: State, n: nat)
    requires Filled(c, s, n) && n < c.maxConcurrent
    ensures Filled(c, Apply(c, s, Request(Background, "rival", false)), n + 1)
  {
    var e := Request(Background, "rival", false);
    EventKeepsQuiet(c, s, e);
    FreeSlotNeverRefuses(c, s, Background, "rival");
    var t := Push(s, Background, "rival");
    assert t.queue == [Work(s.sequence, Background, "rival")];
    assert PickIndex(t.queue, t.streak) == 0;
    var u := TakeOne(t);
    assert u.queue == [];
    assert s.sequence !in s.active;
    assert u.active == s.active + {s.sequence};
    assert Pump(c, u) == u && Pump(c, t) == u;
  }

  lemma {:induction false} FillUp(c: ValidConfig, n: nat) returns (events: seq<Event>)
    requires n <= c.maxConcurrent
    ensures Filled(c, Run(c, IDLE, events), n)
  {
    events := [];
    RunKeepsQuiet(c, IDLE, []);
    if n > 0 {
      var e := Request(Background, "rival", false);
      var first := FillUp(c, n - 1);
      events := first + [e];
      FillOne(c, Run(c, IDLE, first), n - 1);
      RunOn(c, IDLE, first, [e]);
      OneEvent(c, Run(c, IDLE, first), e);
    }
  }

  /** All slots taken and only w queued, with no streak that would force it. */
  ghost predicate Stuck(c: ValidConfig, s: State, w: Work) {
    && Quiet(c, s) && s.accepting && s.queue == [w] && s.streak == 0 && |s.active| == c.maxConcurrent
    && (w.kind == Background || w.kind == Title) && w.identityId == "patient"
  }

  lemma GetsStuck(c: ValidConfig, s: State, kind: Kind)
    requires Filled(c, s, c.maxConcurrent) && (kind == Background || kind == Title)
    ensures Stuck(c, Apply(c, s, Request(kind, "patient", false)), Work(s.sequence, kind, "patient"))
  {
    EventKeepsQuiet(c, s, Request(kind, "patient", false));
    var t := Push(s, kind, "patient");
    assert Refusal(c, s, kind, "patient", false).None?;
    assert t.queue == [Work(s.sequence, kind, "patient")];
    assert Pump(c, t) == t;
  }

  lemma RivalEnters(c: ValidConfig, s: State, w: Work)
    requires Stuck(c, s, w) && c.maxQueued >= 2
    ensures var t := Apply(c, s, Request(Passive, "rival", false));
      t == Push(s, Passive, "rival") && Quiet(c, t)
  {
    EventKeepsQuiet(c, s, Request(Passive, "rival", false));
    assert CountIdentity(s.queue, "rival") == 0;
    assert Refusal(c, s, Passive, "rival", false).None?;
    assert Pump(c, Push(s, Passive, "rival")) == Push(s, Passive, "rival");
  }

  /** The rival is taken although w came first. */
  lemma RivalPasses(q: Queue, w: Work, r: Work)
    requires q == [w, r] && r.kind == Passive && (w.kind == Background || w.kind == Title)
    ensures PickIndex(q, 0) == 1 && RemoveAt(q, 1) == [w]
  {
    assert q[1..] == [r];
    assert MinPriority([r]) == 1;
    assert !Candidate(q, 0, q[0]) && Candidate(q, 0, q[1]);
  }

  /** The next finish starts the rival. */
  lemma RivalStarts(c: ValidConfig, t: State, w: Work, r: Work, id: nat)
    requires Quiet(c, t) && t.accepting && t.queue == [w, r] && t.streak == 0 && |t.active| == c.maxConcurrent
    requires r.kind == Passive && (w.kind == Background || w.kind == Title) && id in t.active
    ensures var u := Apply(c, t, Finish(id, true));
      && u == TakeOne(Settle(t, id, true)) && Partitioned(Settle(t, id, true))
      && u.queue == [w] && u.streak == 0 && u.accepting && |u.active| == c.maxConcurrent
  {
    var u := Settle(t, id, true);
    SettleKeepsBooks(c, t, id, true);
    RivalPasses(u.queue, w, r);
    assert r in t.queue;
    var v := TakeOne(u);
    assert v.queue == [w] && |v.active| == c.maxConcurrent;
    assert Pump(c, v) == v && Pump(c, u) == v;
    assert NotifyIdle(v) == v;
  }

  lemma StuckAgain(c: ValidConfig, s: State, w: Work, id: nat)
    requires Stuck(c, s, w) && c.maxQueued >= 2 && id in s.active
    ensures var t := Apply(c, Apply(c, s, Request(Passive, "rival", false)), Finish(id, true));
      Stuck(c, t, w) && |EverStarted(t)| == |EverStarted(s)| + 1
  {
    RivalEnters(c, s, w);
    var t := Push(s, Passive, "rival");
    var r := Work(s.sequence, Passive, "rival");
    assert t.queue == [w, r];
    EventKeepsQuiet(c, t, Finish(id, true));
    RivalStarts(c, t, w, r, id);
    TakeStartsOne(Settle(t, id, true));
    SettleStartsNothing(t, id, true);
  }

  lemma {:induction false} StuckFor(c: ValidConfig, s: State, w: Work, n: nat) returns (events: seq<Event>)
    requires Stuck(c, s, w) && c.maxQueued >= 2
    ensures Stuck(c, Run(c, s, events), w) && Starts(c, s, events) == n
    decreases n
  {
    events := [];
    if n > 0 {
      var id :| id in s.active;
      var a, b := Request(Passive, "rival", false), Finish(id, true);
      StuckAgain(c, s, w, id);
      var t := Apply(c, Apply(c, s, a), b);
      var rest := StuckFor(c, t, w, n - 1);
      events := [a, b] + rest;
      TwoMore(c, s, a, b, rest);
    }
  }

  lemma TwoMore(c: ValidConfig, s: State, a: Event, b: Event, rest: seq<Event>)
    ensures Run(c, s, [a, b] + rest) == Run(c, Apply(c, Apply(c, s, a), b), rest)
  {
    assert ([a, b] + rest)[1..] == [b] + rest && ([b] + rest)[1..] == rest;
  }

  /** From the start of the controller: a background or title request waits while n others start, for every n. */
  lemma UnfairTakesStarve(c: ValidConfig, kind: Kind, n: nat) returns (before: seq<Event>, events: seq<Event>, w: Work)
    requires c.maxQueued >= 2 && (kind == Background || kind == Title)
    ensures WaitsThrough(c, before, events, w) && w.kind == kind
    ensures IndexOf(Run(c, IDLE, before).queue, w.sequence) == 0 && Starts(c, Run(c, IDLE, before), events) == n
  {
    var filling := FillUp(c, c.maxConcurrent);
    var s := Run(c, IDLE, filling);
    var e := Request(kind, "patient", false);
    before := filling + [e];
    w := Work(s.sequence, kind, "patient");
    RunOn(c, IDLE, filling, [e]);
    OneEvent(c, s, e);
    GetsStuck(c, s, kind);
    events := StuckFor(c, Run(c, IDLE, before), w, n);
  }

  /** Bounded waiting, exactly: a kind has a bound under every schedule if it is interactive or passive, or if the
      queue holds only one request; otherwise its requests can be starved. */
  lemma BoundedWaitingIff(c: ValidConfig, kind: Kind)
    ensures HasBound(c, kind) <==> kind == Interactive || kind == Passive || c.maxQueued == 1
  {
    if kind == Interactive || kind == Passive {
      InteractiveAndPassiveAreBounded(c, kind);
    } else if c.maxQueued == 1 {
      LoneRequestsAreBounded(c, kind);
    } else if HasBound(c, kind) {
      var bound: nat -> nat :| BoundedBy(c, kind, bound);
      var before, events, w := UnfairTakesStarve(c, kind, bound(0));
      assert false;
    }
  }

  // ---------------------------------------------------------------- the controller object

  class CapacityControlledProvider {
    const config: ValidConfig
    var queue: Queue
    var active: set<nat>
    var idleWaiters: set<nat>
    var accepting: bool
    var sequence: nat
    var interactiveStreak: nat
    var settled: map<nat, Settlement>

    ghost function View(): State
      reads this
    {
      State(queue, active, accepting, sequence, interactiveStreak, idleWaiters, settled)
    }

    constructor (config: ValidConfig)
      ensures this.config == config && View() == IDLE
    {
      this.config := config;
      queue, active, idleWaiters, accepting := [], {}, {}, true;
      sequence, interactiveStreak, settled := 0, 0, map[];
    }

    /** The oldest queued work satisfying the predicate, or -1 exactly when there is none. */
    method OldestIndex(p: Work -> bool) returns (chosen: int)
      ensures chosen == -1 <==> forall w :: w in queue ==> !p(w)
      ensures chosen != -1 ==> 0 <= chosen < |queue| && p(queue[chosen])
      ensures chosen != -1 ==> forall w :: w in queue && p(w) ==> queue[chosen].sequence <= w.sequence
    {
      chosen := -1;
      var oldest := 0;
      for index := 0 to |queue|
        invariant -1 <= chosen < index
        invariant chosen == -1 ==> forall j :: 0 <= j < index ==> !p(queue[j])
        invariant chosen != -1 ==> p(queue[chosen]) && oldest == queue[chosen].sequence
        invariant chosen != -1 ==> forall j :: 0 <= j < index && p(queue[j]) ==> oldest <= queue[j].sequence
      {
        var work := queue[index];
        if p(work) && (chosen == -1 || work.sequence < oldest) {
          chosen := index;
          oldest := work.sequence;
        }
      }
    }

    method TakeNext() returns (work: Work)
      requires queue != [] && Ordered(queue)
      modifies this`queue, this`interactiveStreak
      ensures work == old(queue)[PickIndex(old(queue), old(interactiveStreak))]
      ensures queue == RemoveAt(old(queue), PickIndex(old(queue), old(interactiveStreak)))
      ensures interactiveStreak == if work.kind == Interactive then old(interactiveStreak) + 1 else 0
      ensures ServedNext(old(queue), old(interactiveStreak), work)
    {
      var p: Work -> bool;
      if interactiveStreak >= 4 && HasNonInteractive(queue) {
        p := (w: Work) => w.kind != Interactive;
      } else {
        var priority := MinPriority(queue);
        p := (w: Work) => PriorityOf(w.kind) == priority;
      }
      assert forall w :: p(w) <==> Candidate(queue, interactiveStreak, w);
      var index := OldestIndex(p);
      SomeCandidate(queue, interactiveStreak);
      assert index != -1;
      OldestIsFirst(queue, interactiveStreak, index);
      PicksServedNext(queue, interactiveStreak);
      work := queue[index];
      queue := RemoveAt(queue, index);
      interactiveStreak := if work.kind == Interactive then interactiveStreak + 1 else 0;
    }

    method PumpQueue()
      requires Partitioned(View()) && Bounded(config, View())
      modifies this`queue, this`active, this`interactiveStreak
      ensures View() == Pump(config, old(View()))
    {
      while accepting && |active| < config.maxConcurrent && |queue| > 0
        invariant Partitioned(View()) && Bounded(config, View())
        invariant Pump(config, View()) == Pump(config, old(View()))
        decreases |queue|
      {
        TakeKeeps(config, View());
        ghost var before := View();
        var work := TakeNext();
        active := active + {work.sequence};
        assert View() == TakeOne(before);
      }
    }

    /** Admission: a refusal leaves everything as it was. */
    method GenerateTurn(conversationId: string, routedIdentity: Option<string>, aborted: bool) returns (refused: Option<Rejection>)
      requires Quiet(config, View())
      modifies this
      ensures var identityId := if routedIdentity.Some? then routedIdentity.value else "unrouted";
        && refused == Refusal(config, old(View()), WorkKind(conversationId), identityId, aborted)
        && View() == Apply(config, old(View()), Request(WorkKind(conversationId), identityId, aborted))
      ensures Quiet(config, View())
    {
      var kind := WorkKind(conversationId);
      var identityId := if routedIdentity.Some? then routedIdentity.value else "unrouted";
      RequestKeeps(config, View(), Request(kind, identityId, aborted));
      if !accepting { return Some(ShuttingDown); }
      if aborted { return Some(Aborted); }
      if kind == Passive && QueuedPassive(queue, identityId) { return Some(PassiveCoalesced); }
      if kind == Title && UnderPressure(config, queue) { return Some(TitleDiscarded); }
      if |queue| >= config.maxQueued { return Some(Overloaded); }
      if CountIdentity(queue, identityId) >= config.maxQueuedPerIdentity { return Some(IdentityOverloaded); }
      Admit(kind, identityId);
      refused := None;
    }

    method Admit(kind: Kind, identityId: string)
      requires Quiet(config, View()) && Refusal(config, View(), kind, identityId, false).None?
      modifies this`queue, this`sequence, this`active, this`interactiveStreak
      ensures View() == Pump(config, Push(old(View()), kind, identityId))
    {
      PushKeeps(config, View(), kind, identityId);
      ghost var pushed := Push(View(), kind, identityId);
      queue := queue + [Work(sequence, kind, identityId)];
      sequence := sequence + 1;
      assert View() == pushed;
      PumpQueue();
    }

    method OnAbort(id: nat)
      requires Quiet(config, View())
      modifies this
      ensures View() == Apply(config, old(View()), Abort(id)) && Quiet(config, View())
    {
      AbortKeeps(config, View(), Abort(id));
      var index := IndexOf(queue, id);
      if index == |queue| { return; }
      queue := RemoveAt(queue, index);
      settled := settled[id := Refused(Aborted)];
      NotifyIdleWaiters();
    }

    method Finished(id: nat, answered: bool)
      requires Quiet(config, View())
      modifies this
      ensures View() == Apply(config, old(View()), Finish(id, answered)) && Quiet(config, View())
    {
      FinishKeeps(config, View(), Finish(id, answered));
      if id !in active { return; }
      ghost var before := View();
      settled := settled[id := if answered then Answered else Failed];
      active := active - {id};
      assert View() == Settle(before, id, answered);
      SettleKeepsBooks(config, before, id, answered);
      PumpQueue();
      NotifyIdleWaiters();
    }

    method RefuseQueued()
      modifies this`queue, this`settled
      ensures queue == [] && settled == RefuseAll(old(settled), old(queue))
    {
      var drained := queue;
      queue := [];
      assert drained[0..] == drained;
      for i := 0 to |drained|
        modifies this`settled
        invariant RefuseAll(settled, drained[i..]) == RefuseAll(old(settled), drained)
      {
        assert drained[i..][1..] == drained[i + 1..];
        settled := settled[drained[i].sequence := Refused(ShuttingDown)];
      }
      assert drained[|drained|..] == [];
    }

    method ShutDown(waiter: nat) returns (waits: bool)
      requires Quiet(config, View())
      modifies this
      ensures View() == Apply(config, old(View()), Shutdown(waiter)) && Quiet(config, View())
      ensures waits <==> old(active) != {}
    {
      ShutdownKeeps(config, View(), Shutdown(waiter));
      ghost var goal := Apply(config, View(), Shutdown(waiter));
      accepting := false;
      RefuseQueued();
      if |active| == 0 {
        assert View() == goal;
        return false;
      }
      idleWaiters := idleWaiters + {waiter};
      assert View() == goal;
      waits := true;
    }

    method NotifyIdleWaiters()
      modifies this`idleWaiters
      ensures View() == NotifyIdle(old(View()))
    {
      if |active| > 0 || |queue| > 0 { return; }
      idleWaiters := {};
    }
  }

  /** In an ordered queue the oldest candidate is the first one. */
  lemma OldestIsFirst(q: Queue, streak: nat, i: nat)
    requires q != [] && Ordered(q) && i < |q| && Candidate(q, streak, q[i])
    requires forall w :: w in q && Candidate(q, streak, w) ==> q[i].sequence <= w.sequence
    ensures i == PickIndex(q, streak)
  {
    var j := PickIndex(q, streak);
    assert q[j] in q;
  }
}
