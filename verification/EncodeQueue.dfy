/** src/lib/memory/dreaming-service.ts */
module EncodeQueue {
  // The capped, coalescing encode queue. Every event is one synchronous segment: a request, an encode finishing, or
  // stop.

  type Id = string

  const MAX_CONCURRENT_ENCODES := 3

  /** What happened, oldest first: an outside request, a place taken in the queue, an encode started or finished. */
  datatype Entry = Requested(id: Id) | Entered(id: Id) | Started(id: Id) | Finished(id: Id)

  datatype State = State(
    encoding: set<Id>,
    pending: set<Id>,
    queued: set<Id>,
    queue: seq<Id>,
    stopped: bool,
    log: seq<Entry>)

  predicate CanStart(s: State) {
    !s.stopped && |s.encoding| < MAX_CONCURRENT_ENCODES && |s.queue| > 0
  }

  function StartHead(s: State): State
    requires s.queue != []
  {
    var id := s.queue[0];
    s.(queue := s.queue[1..], queued := s.queued - {id}, encoding := s.encoding + {id}, log := s.log + [Started(id)])
  }

  function Pump(s: State): State
    decreases |s.queue|
  {
    if CanStart(s) then Pump(StartHead(s)) else s
  }

  function Enter(s: State, id: Id): State {
    s.(queued := s.queued + {id}, queue := s.queue + [id], log := s.log + [Entered(id)])
  }

  /** `#requestEncode` past its first line. */
  function Place(s: State, id: Id): State {
    if id in s.encoding then s.(pending := s.pending + {id})
    else if id in s.queued then s
    else Pump(Enter(s, id))
  }

  datatype Event = Request(id: Id) | Finish(id: Id) | Stop

  function Ended(s: State, id: Id): State {
    s.(encoding := s.encoding - {id}, pending := s.pending - {id}, log := s.log + [Finished(id)])
  }

  predicate Enabled(s: State, e: Event) {
    e.Finish? ==> e.id in s.encoding
  }

  function Apply(s: State, e: Event): State {
    match e
    case Request(id) => if s.stopped then s else Place(s.(log := s.log + [Requested(id)]), id)
    case Finish(id) =>
      var t := Ended(s, id);
      Pump(if id in s.pending && !s.stopped then Place(t, id) else t)
    case Stop => s.(stopped := true, pending := {}, queued := {}, queue := [])
  }

  const NEW := State({}, {}, {}, [], false, [])

  // ---------------------------------------------------------------- the log

  function EnteredOf(log: seq<Entry>): seq<Id> {
    if log == [] then []
    else
      var e := log[|log| - 1];
      EnteredOf(log[..|log| - 1]) + if e.Entered? then [e.id] else []
  }

  function StartedOf(log: seq<Entry>): seq<Id> {
    if log == [] then []
    else
      var e := log[|log| - 1];
      StartedOf(log[..|log| - 1]) + if e.Started? then [e.id] else []
  }

  /** The conversation was requested and no encode of it has started since. */
  predicate Outstanding(log: seq<Entry>, id: Id) {
    if log == [] then false
    else
      var e := log[|log| - 1];
      if e == Requested(id) then true
      else if e == Started(id) then false
      else Outstanding(log[..|log| - 1], id)
  }

  lemma LogGrows(log: seq<Entry>, e: Entry)
    ensures EnteredOf(log + [e]) == EnteredOf(log) + if e.Entered? then [e.id] else []
    ensures StartedOf(log + [e]) == StartedOf(log) + if e.Started? then [e.id] else []
    ensures forall id :: Outstanding(log + [e], id) <==>
      e == Requested(id) || (e != Started(id) && Outstanding(log, id))
  {
    var l := log + [e];
    assert l[..|l| - 1] == log;
  }

  // ---------------------------------------------------------------- the invariant

  ghost predicate NoRepeats(q: seq<Id>) {
    forall i, j :: 0 <= i < j < |q| ==> q[i] != q[j]
  }

  /** The sets and the queue agree. */
  ghost predicate Books(s: State) {
    && |s.encoding| <= MAX_CONCURRENT_ENCODES
    && NoRepeats(s.queue)
    && (forall id :: id in s.queue <==> id in s.queued)
    && s.queued !! s.encoding
    && s.pending <= s.encoding
    && (s.stopped ==> s.queue == [] && s.pending == {})
  }

  /** Until stopped, conversations start in the order they entered. */
  ghost predicate Fifo(s: State) {
    !s.stopped ==> EnteredOf(s.log) == StartedOf(s.log) + s.queue
  }

  /** Until stopped, what is queued or pending is exactly what was requested since its last start. */
  ghost predicate NothingLost(s: State) {
    !s.stopped ==> forall id :: id in s.queued || id in s.pending <==> Outstanding(s.log, id)
  }

  ghost predicate Busy(s: State) {
    !s.stopped && s.queue != [] ==> |s.encoding| == MAX_CONCURRENT_ENCODES
  }

  ghost predicate Inv(s: State) {
    Books(s) && Fifo(s) && NothingLost(s)
  }

  lemma StartKeeps(s: State)
    requires Inv(s) && CanStart(s)
    ensures Inv(StartHead(s))
  {
    var id := s.queue[0];
    LogGrows(s.log, Started(id));
    assert s.queue == [id] + s.queue[1..];
    assert StartedOf(s.log) + s.queue == StartedOf(s.log) + [id] + s.queue[1..];
  }

  lemma {:induction false} PumpKeeps(s: State)
    requires Inv(s)
    ensures Inv(Pump(s)) && Busy(Pump(s)) && Pump(s).stopped == s.stopped
    decreases |s.queue|
  {
    if CanStart(s) {
      StartKeeps(s);
      PumpKeeps(StartHead(s));
    }
  }

  /** `id` is owed an encode but has no place yet. */
  ghost predicate Owes(s: State, id: Id) {
    && Books(s) && Fifo(s) && !s.stopped
    && Outstanding(s.log, id)
    && (forall j :: j in s.queued || j in s.pending || j == id <==> Outstanding(s.log, j))
  }

  lemma PlaceKeeps(s: State, id: Id)
    requires Owes(s, id)
    ensures Inv(Place(s, id)) && (Busy(s) ==> Busy(Place(s, id))) && !Place(s, id).stopped
  {
    if id in s.encoding {
    } else if id in s.queued {
    } else {
      var t := Enter(s, id);
      LogGrows(s.log, Entered(id));
      assert StartedOf(s.log) + s.queue + [id] == StartedOf(s.log) + (s.queue + [id]);
      assert Books(t);
      PumpKeeps(t);
    }
  }

  lemma RequestKeeps(s: State, e: Event)
    requires Inv(s) && Busy(s) && e.Request?
    ensures Inv(Apply(s, e)) && Busy(Apply(s, e))
  {
    if !s.stopped {
      LogGrows(s.log, Requested(e.id));
      PlaceKeeps(s.(log := s.log + [Requested(e.id)]), e.id);
    }
  }

  lemma FinishKeeps(s: State, e: Event)
    requires Inv(s) && Busy(s) && e.Finish? && Enabled(s, e)
    ensures Inv(Apply(s, e)) && Busy(Apply(s, e))
  {
    var t := Ended(s, e.id);
    EndedKeeps(s, e.id);
    if e.id in s.pending && !s.stopped {
      PlaceKeeps(t, e.id);
      PumpKeeps(Place(t, e.id));
    } else {
      PumpKeeps(t);
    }
  }

  /** A finished encode leaves everything in order, except that a pending request is owed a new place. */
  lemma EndedKeeps(s: State, id: Id)
    requires Inv(s) && id in s.encoding
    ensures if id in s.pending && !s.stopped then Owes(Ended(s, id), id) else Inv(Ended(s, id))
  {
    LogGrows(s.log, Finished(id));
  }

  lemma StepKeepsInv(s: State, e: Event)
    requires Inv(s) && Busy(s) && Enabled(s, e)
    ensures Inv(Apply(s, e)) && Busy(Apply(s, e))
  {
    match e
    case Request(_) => RequestKeeps(s, e);
    case Finish(_) => FinishKeeps(s, e);
    case Stop =>
  }

  // ---------------------------------------------------------------- runs

  ghost predicate RunFrom(s: State, events: seq<Event>)
    decreases |events|
  {
    events == [] || (Enabled(s, events[0]) && RunFrom(Apply(s, events[0]), events[1..]))
  }

  ghost function After(s: State, events: seq<Event>): State
    requires RunFrom(s, events)
    decreases |events|
  {
    if events == [] then s else After(Apply(s, events[0]), events[1..])
  }

  lemma {:induction false} RunKeepsInv(s: State, events: seq<Event>)
    requires Inv(s) && Busy(s) && RunFrom(s, events)
    ensures Inv(After(s, events)) && Busy(After(s, events))
    decreases |events|
  {
    if events != [] {
      StepKeepsInv(s, events[0]);
      RunKeepsInv(Apply(s, events[0]), events[1..]);
    }
  }

  /** In every run: never more than three encodes at once, queue and sets agree, a free slot only when nothing is
      queued, conversations start in the order they entered the queue, and whatever was requested since its
      last start is queued or pending. */
  lemma AlwaysConsistent(events: seq<Event>)
    requires RunFrom(NEW, events)
    ensures var s := After(NEW, events);
      Books(s) && Busy(s) && Fifo(s) && NothingLost(s)
  {
    RunKeepsInv(NEW, events);
  }

  /** Whenever no encode is running and the service was not stopped, every request made so far has been followed by
      an encode of its conversation that started after it. */
  lemma IdleMeansServed(events: seq<Event>, id: Id)
    requires RunFrom(NEW, events)
    requires var s := After(NEW, events); !s.stopped && s.encoding == {}
    ensures !Outstanding(After(NEW, events).log, id)
  {
    AlwaysConsistent(events);
    var s := After(NEW, events);
    assert |s.encoding| == 0;
    assert id !in s.queue;
  }

  // ---------------------------------------------------------------- every request is answered

  function Finishes(events: seq<Event>): nat {
    if events == [] then 0 else (if events[0].Finish? then 1 else 0) + Finishes(events[1..])
  }

  lemma {:induction false} FinishesSplit(a: seq<Event>, b: seq<Event>)
    ensures Finishes(a + b) == Finishes(a) + Finishes(b)
  {
    if a == [] {
      assert a + b == b;
    } else {
      assert (a + b)[1..] == a[1..] + b;
      FinishesSplit(a[1..], b);
    }
  }

  /** As many as there are finish events. */
  lemma {:induction false} FinishesAre(events: seq<Event>, k: nat)
    requires k <= |events|
    ensures Finishes(events[..k]) == |set i | 0 <= i < k && events[i].Finish?|
  {
    if k > 0 {
      FinishesAre(events, k - 1);
      assert events[..k] == events[..k - 1] + [events[k - 1]];
      FinishesSplit(events[..k - 1], [events[k - 1]]);
      assert [events[k - 1]][1..] == [];
      var before := set i | 0 <= i < k - 1 && events[i].Finish?;
      var upTo := set i | 0 <= i < k && events[i].Finish?;
      assert upTo == if events[k - 1].Finish? then before + {k - 1} else before;
    }
  }

  ghost predicate NeverStops(events: seq<Event>) {
    forall i :: 0 <= i < |events| ==> !events[i].Stop?
  }

  lemma {:induction false} PumpLog(s: State)
    ensures s.log <= Pump(s).log && StartedOf(s.log) <= StartedOf(Pump(s).log)
    ensures |s.queue| > 0 && CanStart(s) ==> |StartedOf(Pump(s).log)| > |StartedOf(s.log)|
    decreases |s.queue|
  {
    if CanStart(s) {
      LogGrows(s.log, Started(s.queue[0]));
      PumpLog(StartHead(s));
    }
  }

  /** A finished encode makes room for the head of the queue. */
  lemma FinishStartsOne(s: State, e: Event)
    requires Inv(s) && Busy(s) && e.Finish? && Enabled(s, e) && !s.stopped && s.queue != []
    ensures |StartedOf(Apply(s, e).log)| > |StartedOf(s.log)|
  {
    var t := Ended(s, e.id);
    LogGrows(s.log, Finished(e.id));
    assert |t.encoding| == 2;
    if e.id in s.pending {
      PlaceStartsOne(t, e.id);
      PumpLog(Place(t, e.id));
    } else {
      PumpLog(t);
    }
  }

  lemma PlaceStartsOne(t: State, id: Id)
    requires id !in t.encoding && id !in t.queued && CanStart(t)
    ensures |StartedOf(Place(t, id).log)| > |StartedOf(t.log)|
  {
    LogGrows(t.log, Entered(id));
    PumpLog(Enter(t, id));
  }

  /** The log, the starts and the entries only get longer. */
  ghost predicate Extends(s: State, t: State) {
    && s.log <= t.log && StartedOf(s.log) <= StartedOf(t.log) && EnteredOf(s.log) <= EnteredOf(t.log)
    && s.stopped == t.stopped
  }

  lemma StepLog(s: State, e: Event)
    requires !e.Stop?
    ensures Extends(s, Apply(s, e))
  {
    match e
    case Request(id) => RequestLog(s, id);
    case Finish(id) => FinishLog(s, id);
  }

  lemma RequestLog(s: State, id: Id)
    ensures Extends(s, Apply(s, Request(id)))
  {
    if !s.stopped {
      LogGrows(s.log, Requested(id));
      PlaceLog(s.(log := s.log + [Requested(id)]), id);
    }
  }

  lemma FinishLog(s: State, id: Id)
    ensures Extends(s, Apply(s, Finish(id)))
  {
    var t := Ended(s, id);
    LogGrows(s.log, Finished(id));
    assert Extends(s, t);
    if id in s.pending && !s.stopped {
      PlaceLog(t, id);
      PumpLogs(Place(t, id));
    } else {
      PumpLogs(t);
    }
  }

  lemma {:induction false} PumpLogs(s: State)
    ensures Extends(s, Pump(s)) && EnteredOf(s.log) == EnteredOf(Pump(s).log)
    decreases |s.queue|
  {
    if CanStart(s) {
      LogGrows(s.log, Started(s.queue[0]));
      PumpLogs(StartHead(s));
    }
  }

  lemma PlaceLog(s: State, id: Id)
    ensures Extends(s, Place(s, id))
  {
    LogGrows(s.log, Entered(id));
    PumpLogs(Enter(s, id));
  }

  /** As long as something that had entered by some moment is still to start, every finish starts one. */
  lemma {:induction false} EnteredGetsStarted(s: State, events: seq<Event>, n: nat)
    requires Inv(s) && Busy(s) && RunFrom(s, events) && !s.stopped && NeverStops(events)
    requires n <= |EnteredOf(s.log)| && n <= |StartedOf(s.log)| + Finishes(events)
    ensures n <= |StartedOf(After(s, events).log)|
    ensures StartedOf(s.log) <= StartedOf(After(s, events).log)
    ensures EnteredOf(s.log) <= EnteredOf(After(s, events).log)
    decreases |events|
  {
    if events != [] {
      var t := Apply(s, events[0]);
      StepKeepsInv(s, events[0]);
      StepLog(s, events[0]);
      assert Extends(s, t);
      if n > |StartedOf(s.log)| && events[0].Finish? {
        FinishStartsOne(s, events[0]);
      }
      EnteredGetsStarted(t, events[1..], if n <= |StartedOf(t.log)| then |StartedOf(t.log)| else n);
    }
  }

  ghost predicate NthStart(log: seq<Entry>, n: nat, id: Id) {
    n < |StartedOf(log)| && StartedOf(log)[n] == id
  }

  /** A conversation at position p of the queue is started within p + 1 finishes, unless the service is stopped. */
  lemma QueuedStartsInTurn(s: State, events: seq<Event>, p: nat, t: State)
    requires Inv(s) && Busy(s) && RunFrom(s, events) && !s.stopped && NeverStops(events)
    requires p < |s.queue| && Finishes(events) >= p + 1 && t == After(s, events)
    ensures NthStart(t.log, |StartedOf(s.log)| + p, s.queue[p])
    ensures Since(t.log, |s.log|, Started(s.queue[p]))
  {
    EnteredSplits(s);
    EnteredGetsStarted(s, events, |StartedOf(s.log)| + p + 1);
    AfterEnteredSplits(s, events);
    RunExtends(s, events);
    NthFromQueue(s, t, p);
  }

  lemma NthFromQueue(s: State, t: State, p: nat)
    requires p < |s.queue|
    requires EnteredOf(s.log) == StartedOf(s.log) + s.queue && EnteredOf(t.log) == StartedOf(t.log) + t.queue
    requires EnteredOf(s.log) <= EnteredOf(t.log) && |StartedOf(s.log)| + p < |StartedOf(t.log)|
    requires s.log <= t.log
    ensures NthStart(t.log, |StartedOf(s.log)| + p, s.queue[p])
    ensures Since(t.log, |s.log|, Started(s.queue[p]))
  {
    LaterStart(s.log, t.log, |StartedOf(s.log)| + p, |s.log|);
    SamePlace(EnteredOf(s.log), StartedOf(s.log), s.queue, EnteredOf(t.log), StartedOf(t.log), t.queue, p);
  }

  lemma EnteredSplits(s: State)
    requires Inv(s) && !s.stopped
    ensures EnteredOf(s.log) == StartedOf(s.log) + s.queue
    ensures |EnteredOf(s.log)| == |StartedOf(s.log)| + |s.queue|
  {
  }

  lemma AfterEnteredSplits(s: State, events: seq<Event>)
    requires Inv(s) && Busy(s) && RunFrom(s, events) && !s.stopped && NeverStops(events)
    ensures var t := After(s, events);
      EnteredOf(t.log) == StartedOf(t.log) + t.queue
  {
    RunKeepsInv(s, events);
    StillRunning(s, events);
    EnteredSplits(After(s, events));
  }

  /** What entered is what started followed by what waits, so growing lists keep each entry's place. */
  lemma SamePlace(entered: seq<Id>, started: seq<Id>, queue: seq<Id>,
                  entered': seq<Id>, started': seq<Id>, queue': seq<Id>, p: nat)
    requires entered == started + queue && entered' == started' + queue' && entered <= entered'
    requires p < |queue| && |started| + p < |started'|
    ensures started'[|started| + p] == queue[p]
  {
    assert entered[|started| + p] == queue[p];
    assert entered'[|started| + p] == started'[|started| + p];
  }

  lemma {:induction false} StillRunning(s: State, events: seq<Event>)
    requires RunFrom(s, events) && !s.stopped && NeverStops(events)
    ensures !After(s, events).stopped
    decreases |events|
  {
    if events != [] {
      StepLog(s, events[0]);
      StillRunning(Apply(s, events[0]), events[1..]);
    }
  }

  /** A request that finds its conversation running is queued by the very finish of that run. */
  lemma PendingIsQueuedOnFinish(s: State, id: Id)
    requires Inv(s) && Busy(s) && !s.stopped && id in s.pending
    ensures var t := Apply(s, Finish(id));
      id !in t.pending && |EnteredOf(t.log)| == |EnteredOf(s.log)| + 1 && EnteredOf(t.log)[|EnteredOf(s.log)|] == id
  {
    var t := Ended(s, id);
    LogGrows(s.log, Finished(id));
    LogGrows(t.log, Entered(id));
    PumpLogs(Enter(t, id));
    PumpLogs(Place(t, id));
    PumpPending(Enter(t, id));
    PumpPending(Place(t, id));
  }

  lemma {:induction false} PumpPending(s: State)
    ensures Pump(s).pending == s.pending
    decreases |s.queue|
  {
    if CanStart(s) { PumpPending(StartHead(s)); }
  }

  // ---------------------------------------------------------------- from one request to its encode

  /** An encode of the conversation has started and not finished. */
  predicate Running(log: seq<Entry>, id: Id) {
    if log == [] then false
    else
      var e := log[|log| - 1];
      if e == Started(id) then true else if e == Finished(id) then false else Running(log[..|log| - 1], id)
  }

  lemma RunningGrows(log: seq<Entry>, e: Entry)
    ensures forall id :: Running(log + [e], id) <==> e == Started(id) || (e != Finished(id) && Running(log, id))
  {
    assert (log + [e])[..|log|] == log;
  }

  /** The set of running conversations is the one the log tells. */
  ghost predicate Tracked(s: State) {
    forall id :: id in s.encoding <==> Running(s.log, id)
  }

  lemma {:induction false} PumpTracked(s: State)
    requires Tracked(s)
    ensures Tracked(Pump(s))
    decreases |s.queue|
  {
    if CanStart(s) {
      RunningGrows(s.log, Started(s.queue[0]));
      PumpTracked(StartHead(s));
    }
  }

  lemma PlaceTracked(s: State, id: Id)
    requires Tracked(s)
    ensures Tracked(Place(s, id))
  {
    RunningGrows(s.log, Entered(id));
    PumpTracked(Enter(s, id));
  }

  lemma StepTracked(s: State, e: Event)
    requires Tracked(s)
    ensures Tracked(Apply(s, e))
  {
    match e
    case Request(id) =>
      RunningGrows(s.log, Requested(id));
      PlaceTracked(s.(log := s.log + [Requested(id)]), id);
    case Finish(id) =>
      RunningGrows(s.log, Finished(id));
      PlaceTracked(Ended(s, id), id);
      PumpTracked(if id in s.pending && !s.stopped then Place(Ended(s, id), id) else Ended(s, id));
    case Stop =>
  }

  lemma {:induction false} RunTracked(s: State, events: seq<Event>)
    requires Tracked(s) && RunFrom(s, events)
    ensures Tracked(After(s, events))
    decreases |events|
  {
    if events != [] {
      StepTracked(s, events[0]);
      RunTracked(Apply(s, events[0]), events[1..]);
    }
  }

  lemma {:induction false} RunExtends(s: State, events: seq<Event>)
    requires RunFrom(s, events) && NeverStops(events)
    ensures Extends(s, After(s, events))
    decreases |events|
  {
    if events != [] {
      StepLog(s, events[0]);
      RunExtends(Apply(s, events[0]), events[1..]);
    }
  }

  /** The log has an entry from position n on. */
  ghost predicate Since(log: seq<Entry>, n: nat, e: Entry) {
    exists k :: n <= k < |log| && log[k] == e
  }

  lemma FinishIsLogged(s: State, id: Id)
    ensures s.log + [Finished(id)] <= Apply(s, Finish(id)).log
  {
    var t := Ended(s, id);
    if id in s.pending && !s.stopped {
      PlaceLog(t, id);
      PumpLogs(Place(t, id));
    } else {
      PumpLogs(t);
    }
  }

  lemma {:induction false} FinishesAreLogged(s: State, events: seq<Event>, i: nat)
    requires RunFrom(s, events) && NeverStops(events) && i < |events| && events[i].Finish?
    ensures Since(After(s, events).log, |s.log|, Finished(events[i].id))
    decreases |events|
  {
    var t := Apply(s, events[0]);
    StepLog(s, events[0]);
    if i == 0 {
      FinishIsLogged(s, events[0].id);
      RunExtends(t, events[1..]);
      assert After(s, events).log[|s.log|] == Finished(events[0].id);
    } else {
      FinishesAreLogged(t, events[1..], i - 1);
      assert events[1..][i - 1] == events[i];
    }
  }

  /** What the end of the log does not mention is as it was before it. */
  lemma {:induction false} Unmentioned(log: seq<Entry>, n: nat, id: Id)
    requires n <= |log| && !Since(log, n, Started(id))
    ensures Outstanding(log[..n], id) ==> Outstanding(log, id)
    ensures Running(log, id) ==> Running(log[..n], id) && !Since(log, n, Finished(id))
    decreases |log|
  {
    if n < |log| {
      var m := |log| - 1;
      assert log[m] != Started(id);
      assert forall k :: n <= k < m ==> log[..m][k] == log[k];
      assert log[..m][..n] == log[..n];
      Unmentioned(log[..m], n, id);
    } else {
      assert log[..n] == log;
    }
  }

  lemma {:induction false} StartsAreLogged(log: seq<Entry>, m: nat, n: nat)
    requires m <= |log| && |StartedOf(log[..m])| <= n < |StartedOf(log)|
    ensures Since(log, m, Started(StartedOf(log)[n]))
    decreases |log|
  {
    assert log[..|log|] == log;
    var k := |log| - 1;
    assert log == log[..k] + [log[k]];
    LogGrows(log[..k], log[k]);
    if n < |StartedOf(log[..k])| {
      assert log[..k][..m] == log[..m];
      StartsAreLogged(log[..k], m, n);
      SinceStays(log[..k], log, m, Started(StartedOf(log)[n]));
    } else {
      assert log[k] == Started(StartedOf(log)[n]);
    }
  }

  ghost predicate Sound(s: State) {
    Inv(s) && Busy(s) && Tracked(s) && !s.stopped
  }

  lemma SoundRun(s: State, events: seq<Event>)
    requires Sound(s) && RunFrom(s, events) && NeverStops(events)
    ensures Sound(After(s, events)) && Extends(s, After(s, events))
  {
    RunKeepsInv(s, events);
    StillRunning(s, events);
    RunTracked(s, events);
    RunExtends(s, events);
  }

  lemma SoundRequest(s: State, id: Id)
    requires Sound(s)
    ensures Sound(Apply(s, Request(id))) && s.log + [Requested(id)] <= Apply(s, Request(id)).log
  {
    StepKeepsInv(s, Request(id));
    StepTracked(s, Request(id));
    RequestIsLogged(s, id);
    StepLog(s, Request(id));
  }

  /** A request whose encode has not started waits in the queue, once the encode it met has finished. */
  lemma StillWaits(s: State, u: State, id: Id)
    requires Tracked(s) && Sound(u) && s.log + [Requested(id)] <= u.log
    requires id in s.encoding ==> Since(u.log, |s.log|, Finished(id))
    requires !Since(u.log, |s.log|, Started(id))
    ensures id in u.queue
  {
    var n := |s.log|;
    assert u.log[..n] == s.log && u.log[..n + 1] == s.log + [Requested(id)];
    LogGrows(s.log, Requested(id));
    assert !Since(u.log, n + 1, Started(id));
    Unmentioned(u.log, n, id);
    Unmentioned(u.log, n + 1, id);
    assert id !in u.encoding;
  }

  lemma LaterStart(earlier: seq<Entry>, log: seq<Entry>, k: nat, n: nat)
    requires earlier <= log && n <= |earlier| && |StartedOf(earlier)| <= k < |StartedOf(log)|
    ensures Since(log, n, Started(StartedOf(log)[k]))
  {
    assert log[..|earlier|] == earlier;
    StartsAreLogged(log, |earlier|, k);
  }

  lemma SinceStays(log: seq<Entry>, longer: seq<Entry>, n: nat, e: Entry)
    requires log <= longer && Since(log, n, e)
    ensures Since(longer, n, e)
  {
    var k :| n <= k < |log| && log[k] == e;
    assert longer[k] == e;
  }

  lemma ServedFrom(s: State, id: Id, first: seq<Event>, rest: seq<Event>)
    requires Sound(s) && RunFrom(Apply(s, Request(id)), first) && NeverStops(first)
    requires id in s.encoding ==> exists i :: 0 <= i < |first| && first[i] == Finish(id)
    requires RunFrom(After(Apply(s, Request(id)), first), rest) && NeverStops(rest)
    requires Finishes(rest) >= |After(Apply(s, Request(id)), first).queue|
    ensures Since(After(After(Apply(s, Request(id)), first), rest).log, |s.log|, Started(id))
  {
    var s1 := Apply(s, Request(id));
    var u := After(s1, first);
    SoundRequest(s, id);
    SoundRun(s1, first);
    if Since(u.log, |s.log|, Started(id)) {
      RunExtends(u, rest);
      SinceStays(u.log, After(u, rest).log, |s.log|, Started(id));
    } else {
      if id in s.encoding {
        var i :| 0 <= i < |first| && first[i] == Finish(id);
        FinishesAreLogged(s1, first, i);
        EarlierSince(u.log, |s.log|, |s1.log|, Finished(id));
      }
      StillWaits(s, u, id);
      var p :| 0 <= p < |u.queue| && u.queue[p] == id;
      QueuedStartsInTurn(u, rest, p, After(u, rest));
      EarlierSince(After(u, rest).log, |s.log|, |u.log|, Started(id));
    }
  }

  lemma EarlierSince(log: seq<Entry>, m: nat, n: nat, e: Entry)
    requires m <= n && Since(log, n, e)
    ensures Since(log, m, e)
  {
  }

  /** A request is answered by an encode that starts after it: once the encode then running has finished, if there is
      one, it takes no more finishes than the queue is long, unless the service is stopped. */
  lemma RequestIsServed(before: seq<Event>, id: Id, first: seq<Event>, rest: seq<Event>)
    requires RunFrom(NEW, before) && !After(NEW, before).stopped
    requires RunFrom(Apply(After(NEW, before), Request(id)), first) && NeverStops(first)
    requires id in After(NEW, before).encoding ==> exists i :: 0 <= i < |first| && first[i] == Finish(id)
    requires var u := After(Apply(After(NEW, before), Request(id)), first);
      RunFrom(u, rest) && NeverStops(rest) && Finishes(rest) >= |u.queue|
    ensures var s := After(NEW, before);
      Since(After(After(Apply(s, Request(id)), first), rest).log, |s.log|, Started(id))
  {
    RunKeepsInv(NEW, before);
    RunTracked(NEW, before);
    ServedFrom(After(NEW, before), id, first, rest);
  }

  lemma RequestIsLogged(s: State, id: Id)
    requires !s.stopped
    ensures s.log + [Requested(id)] <= Apply(s, Request(id)).log
  {
    PlaceLog(s.(log := s.log + [Requested(id)]), id);
  }

  // ---------------------------------------------------------------- the service object

  class DreamingService {
    var encoding: set<Id>
    var pendingEncode: set<Id>
    var queuedEncode: set<Id>
    var encodeQueue: seq<Id>
    var stopped: bool
    ghost var log: seq<Entry>

    ghost function View(): State
      reads this
    {
      State(encoding, pendingEncode, queuedEncode, encodeQueue, stopped, log)
    }

    constructor ()
      ensures View() == NEW
    {
      encoding, pendingEncode, queuedEncode, encodeQueue, stopped, log := {}, {}, {}, [], false, [];
    }

    method RequestEncode(storageId: Id)
      modifies this
      ensures View() == Apply(old(View()), Request(storageId))
    {
      if stopped { return; }
      log := log + [Requested(storageId)];
      PlaceEncode(storageId);
    }

    method PlaceEncode(storageId: Id)
      modifies this
      ensures View() == Place(old(View()), storageId)
    {
      if storageId in encoding {
        pendingEncode := pendingEncode + {storageId};
        return;
      }
      if storageId in queuedEncode { return; }
      queuedEncode := queuedEncode + {storageId};
      encodeQueue := encodeQueue + [storageId];
      log := log + [Entered(storageId)];
      PumpEncodeQueue();
    }

    method PumpEncodeQueue()
      modifies this
      ensures View() == Pump(old(View()))
    {
      while !stopped && |encoding| < MAX_CONCURRENT_ENCODES && |encodeQueue| > 0
        invariant Pump(View()) == Pump(old(View()))
        decreases |encodeQueue|
      {
        ghost var before := View();
        var storageId := encodeQueue[0];
        encodeQueue := encodeQueue[1..];
        queuedEncode := queuedEncode - {storageId};
        encoding := encoding + {storageId};
        log := log + [Started(storageId)];
        assert View() == StartHead(before);
      }
    }

    /** The `finally` of one encode. */
    method EncodeFinished(storageId: Id)
      requires storageId in encoding
      modifies this
      ensures View() == Apply(old(View()), Finish(storageId))
    {
      encoding := encoding - {storageId};
      log := log + [Finished(storageId)];
      var again := storageId in pendingEncode;
      pendingEncode := pendingEncode - {storageId};
      if again && !stopped { PlaceEncode(storageId); }
      PumpEncodeQueue();
    }

    method StopService()
      modifies this
      ensures View() == Apply(old(View()), Stop)
    {
      stopped := true;
      pendingEncode, queuedEncode, encodeQueue := {}, {}, [];
    }
  }
}
