/** app/src/main/turn-manager.ts */
module TurnQueue {
  // The per-conversation turn queue. Queue records are addressed by reference, so that a settling turn keeps the
  // record it captured even if the map came to hold another one.
  //
  // Events are run-to-completion segments: submit, cancel, stop, the outcome of a send, and the end of the
  // settlement's persistence. A send that throws at once is a submit followed by its outcome.

  import opened Wrappers

  type Conversation = string
  type TurnId = string
  type Ref = nat

  datatype Inflight = Inflight(turn: TurnId, aborted: bool)

  datatype Queue = Queue(inflight: Option<Inflight>, pending: seq<TurnId>)

  /** A started turn: the conversation and the queue record its callbacks captured, and whether its settlement
      is already being persisted. */
  datatype Task = Task(conversation: Conversation, queue: Ref, persisting: bool)

  datatype Entry =
    | Submitted(conversation: Conversation, turn: TurnId)
    | Cancelled(conversation: Conversation, turn: TurnId)
    | Started(conversation: Conversation, turn: TurnId)
    | Settled(conversation: Conversation, turn: TurnId, ok: bool, stopped: bool)
    | Persisted(conversation: Conversation, turn: TurnId)

  datatype State = State(
    queues: map<Conversation, Ref>,
    memory: map<Ref, Queue>,
    next: Ref,
    tasks: map<TurnId, Task>,
    seen: set<TurnId>,
    log: seq<Entry>)

  datatype Event =
    | Submit(conversation: Conversation, turn: TurnId)
    | Cancel(turn: TurnId)
    | StopTurn(turn: TurnId)
    | Outcome(turn: TurnId, ok: bool)
    | PersistenceEnds(turn: TurnId)

  predicate Known(s: State, c: Conversation) {
    c in s.queues && s.queues[c] in s.memory
  }

  function QueueOf(s: State, c: Conversation): Queue
    requires Known(s, c)
  {
    s.memory[s.queues[c]]
  }

  predicate Enabled(s: State, e: Event) {
    match e
    case Submit(_, turn) => turn !in s.seen
    case Outcome(turn, _) => turn in s.tasks && !s.tasks[turn].persisting && s.tasks[turn].queue in s.memory
    case PersistenceEnds(turn) => turn in s.tasks && s.tasks[turn].persisting && s.tasks[turn].queue in s.memory
    case _ => true
  }

  /** `queueFor`: the conversation's record, made if it is missing. */
  function QueueFor(s: State, c: Conversation): (t: State)
    ensures Known(t, c)
  {
    if Known(s, c) then s
    else s.(queues := s.queues[c := s.next], memory := s.memory[s.next := Queue(None, [])], next := s.next + 1)
  }

  function SetQueue(s: State, r: Ref, q: Queue): State {
    s.(memory := s.memory[r := q])
  }

  function Drain(s0: State, c: Conversation): State {
    var s := QueueFor(s0, c);
    var q := QueueOf(s, c);
    if q.inflight.Some? then s
    else if q.pending == [] then s.(queues := s.queues - {c})
    else
      var turn := q.pending[0];
      SetQueue(s, s.queues[c], Queue(Some(Inflight(turn, false)), q.pending[1..]))
        .(tasks := s.tasks[turn := Task(c, s.queues[c], false)], log := s.log + [Started(c, turn)])
  }

  function IndexIn(p: seq<TurnId>, turn: TurnId): (i: nat)
    ensures i <= |p| && (i < |p| ==> p[i] == turn)
    ensures i == |p| <==> turn !in p
  {
    if p == [] then 0 else if p[0] == turn then 0 else 1 + IndexIn(p[1..], turn)
  }

  function Without(p: seq<TurnId>, turn: TurnId): seq<TurnId> {
    RemoveIndex(p, IndexIn(p, turn))
  }

  function RemoveIndex(p: seq<TurnId>, i: nat): seq<TurnId> {
    if i < |p| then p[..i] + p[i + 1..] else p
  }

  /** The conversation in whose queue the turn waits. */
  ghost predicate Waits(s: State, c: Conversation, turn: TurnId) {
    Known(s, c) && turn in QueueOf(s, c).pending
  }

  ghost predicate Runs(s: State, c: Conversation, turn: TurnId) {
    Known(s, c) && QueueOf(s, c).inflight.Some? && QueueOf(s, c).inflight.value.turn == turn
  }

  function CancelIn(s: State, c: Conversation, turn: TurnId): State
    requires Known(s, c)
  {
    var q := QueueOf(s, c).(pending := Without(QueueOf(s, c).pending, turn));
    var t := SetQueue(s, s.queues[c], q).(log := s.log + [Cancelled(c, turn)]);
    if q.inflight.None? && q.pending == [] then t.(queues := t.queues - {c}) else t
  }

  function Push(s: State, c: Conversation, turn: TurnId): State
    requires Known(s, c)
  {
    SetQueue(s, s.queues[c], QueueOf(s, c).(pending := QueueOf(s, c).pending + [turn]))
      .(seen := s.seen + {turn}, log := s.log + [Submitted(c, turn)])
  }

  /** Frees the record the turn captured. */
  function Release(s: State, turn: TurnId): State
    requires turn in s.tasks && s.tasks[turn].queue in s.memory
  {
    var k := s.tasks[turn];
    SetQueue(s, k.queue, s.memory[k.queue].(inflight := None))
      .(tasks := s.tasks - {turn}, log := s.log + [Persisted(k.conversation, turn)])
  }

  ghost function Apply(s: State, e: Event): State
    requires Enabled(s, e)
  {
    match e
    case Submit(c, turn) => Drain(Push(QueueFor(s, c), c, turn), c)
    case Cancel(turn) =>
      if c :| Waits(s, c, turn) then CancelIn(s, c, turn) else s
    case StopTurn(turn) =>
      if c :| Runs(s, c, turn)
      then SetQueue(s, s.queues[c], QueueOf(s, c).(inflight := Some(Inflight(turn, true))))
      else s
    case Outcome(turn, ok) =>
      var k := s.tasks[turn];
      var aborted := s.memory[k.queue].inflight.Some? && s.memory[k.queue].inflight.value.aborted;
      s.(tasks := s.tasks[turn := k.(persisting := true)],
         log := s.log + [Settled(k.conversation, turn, ok, !ok && aborted)])
    case PersistenceEnds(turn) => Drain(Release(s, turn), s.tasks[turn].conversation)
  }

  const NEW := State(map[], map[], 0, map[], {}, [])

  // ---------------------------------------------------------------- what the log says

  /** The conversation's submitted turns in order, less the cancelled ones. */
  function Wanted(log: seq<Entry>, c: Conversation): seq<TurnId> {
    if log == [] then []
    else
      var e, before := log[|log| - 1], Wanted(log[..|log| - 1], c);
      if e.conversation != c then before
      else if e.Submitted? then before + [e.turn]
      else if e.Cancelled? then Without(before, e.turn)
      else before
  }

  function StartedIn(log: seq<Entry>, c: Conversation): seq<TurnId> {
    if log == [] then []
    else
      var e := log[|log| - 1];
      StartedIn(log[..|log| - 1], c) + if e.conversation == c && e.Started? then [e.turn] else []
  }

  function SettledIn(log: seq<Entry>, c: Conversation): seq<TurnId> {
    if log == [] then []
    else
      var e := log[|log| - 1];
      SettledIn(log[..|log| - 1], c) + if e.conversation == c && e.Settled? then [e.turn] else []
  }

  function PersistedIn(log: seq<Entry>, c: Conversation): seq<TurnId> {
    if log == [] then []
    else
      var e := log[|log| - 1];
      PersistedIn(log[..|log| - 1], c) + if e.conversation == c && e.Persisted? then [e.turn] else []
  }

  /** At every start the conversation's earlier turns have all been persisted. */
  ghost predicate OneAtATime(log: seq<Entry>, c: Conversation) {
    log == [] ||
    var e, before := log[|log| - 1], log[..|log| - 1];
    OneAtATime(before, c) && (e.conversation == c && e.Started? ==> StartedIn(before, c) == PersistedIn(before, c))
  }

  lemma LogGrows(log: seq<Entry>, e: Entry, c: Conversation)
    ensures Wanted(log + [e], c) ==
      if e.conversation != c then Wanted(log, c)
      else if e.Submitted? then Wanted(log, c) + [e.turn]
      else if e.Cancelled? then Without(Wanted(log, c), e.turn)
      else Wanted(log, c)
    ensures StartedIn(log + [e], c) == StartedIn(log, c) + if e.conversation == c && e.Started? then [e.turn] else []
    ensures SettledIn(log + [e], c) == SettledIn(log, c) + if e.conversation == c && e.Settled? then [e.turn] else []
    ensures PersistedIn(log + [e], c) == PersistedIn(log, c) + if e.conversation == c && e.Persisted? then [e.turn] else []
    ensures OneAtATime(log + [e], c) <==>
      OneAtATime(log, c) && (e.conversation == c && e.Started? ==> StartedIn(log, c) == PersistedIn(log, c))
  {
    var l := log + [e];
    assert l[..|l| - 1] == log;
  }

  // ---------------------------------------------------------------- the invariant

  function PendingOf(s: State, c: Conversation): seq<TurnId> {
    if Known(s, c) then QueueOf(s, c).pending else []
  }

  function InflightOf(s: State, c: Conversation): seq<TurnId> {
    if Known(s, c) && QueueOf(s, c).inflight.Some? then [QueueOf(s, c).inflight.value.turn] else []
  }

  predicate IsPersisting(s: State, turn: TurnId) {
    turn in s.tasks && s.tasks[turn].persisting
  }

  function PersistingOf(s: State, c: Conversation): seq<TurnId> {
    if InflightOf(s, c) != [] && IsPersisting(s, InflightOf(s, c)[0]) then InflightOf(s, c) else []
  }

  ghost predicate NoRepeats(p: seq<TurnId>) {
    forall i, j :: 0 <= i < j < |p| ==> p[i] != p[j]
  }

  /** One conversation's history as lists: what is wanted has started or waits, what started is persisted or
      inflight, and what settled is persisted or being persisted. */
  ghost predicate Lists(log: Summary, pending: seq<TurnId>, inflight: seq<TurnId>, persisting: seq<TurnId>, seen: set<TurnId>) {
    && log.wanted == log.started + pending
    && log.started == log.persisted + inflight
    && log.settled == log.persisted + persisting
    && log.inTurn
    && NoRepeats(log.wanted)
    && forall t :: t in log.wanted ==> t in seen
  }

  datatype Summary = Summary(wanted: seq<TurnId>, started: seq<TurnId>, settled: seq<TurnId>, persisted: seq<TurnId>, inTurn: bool)

  ghost function Summarise(log: seq<Entry>, c: Conversation): Summary {
    Summary(Wanted(log, c), StartedIn(log, c), SettledIn(log, c), PersistedIn(log, c), OneAtATime(log, c))
  }

  /** What one more entry of the conversation does to its summary. */
  ghost function Extend(h: Summary, e: Entry): Summary {
    match e
    case Submitted(_, turn) => h.(wanted := h.wanted + [turn])
    case Cancelled(_, turn) => h.(wanted := Without(h.wanted, turn))
    case Started(_, turn) => h.(started := h.started + [turn], inTurn := h.inTurn && h.started == h.persisted)
    case Settled(_, turn, _, _) => h.(settled := h.settled + [turn])
    case Persisted(_, turn) => h.(persisted := h.persisted + [turn])
  }

  lemma SummaryGrows(log: seq<Entry>, e: Entry, c: Conversation)
    ensures Summarise(log + [e], c) == if e.conversation == c then Extend(Summarise(log, c), e) else Summarise(log, c)
  {
    LogGrows(log, e, c);
  }

  ghost predicate History(s: State, c: Conversation) {
    Lists(Summarise(s.log, c), PendingOf(s, c), InflightOf(s, c), PersistingOf(s, c), s.seen)
  }

  ghost predicate Record(s: State, c: Conversation, draining: Option<Conversation>) {
    c in s.queues ==>
      && Known(s, c) && s.queues[c] < s.next
      && (draining == Some(c) || QueueOf(s, c).inflight.Some?)
      && (QueueOf(s, c).inflight.Some? ==>
            var t := QueueOf(s, c).inflight.value.turn;
            t in s.tasks && s.tasks[t].conversation == c && s.tasks[t].queue == s.queues[c])
  }

  /** The record a started turn captured is still the one in the map, and the turn is its inflight one. */
  ghost predicate Captured(s: State, t: TurnId)
    requires t in s.tasks
  {
    var k := s.tasks[t];
    && k.conversation in s.queues && s.queues[k.conversation] == k.queue && k.queue in s.memory
    && s.memory[k.queue].inflight.Some? && s.memory[k.queue].inflight.value.turn == t
  }

  ghost predicate Owners(s: State) {
    forall c, d, t :: t in Wanted(s.log, c) && t in Wanted(s.log, d) ==> c == d
  }

  ghost predicate Refs(s: State) {
    && (forall c, d :: c in s.queues && d in s.queues && s.queues[c] == s.queues[d] ==> c == d)
    && (forall c :: c in s.queues ==> s.queues[c] < s.next)
    && (forall r :: r in s.memory ==> r < s.next)
  }

  /** The invariant while the conversation `d`, if any, is about to drain. */
  ghost predicate InvBut(s: State, d: Option<Conversation>) {
    && (forall c :: Record(s, c, d))
    && (forall c :: History(s, c))
    && (forall t :: t in s.tasks ==> Captured(s, t))
    && Owners(s) && Refs(s)
  }

  ghost predicate Inv(s: State) {
    InvBut(s, None)
  }

  lemma {:induction false} WithoutFacts(p: seq<TurnId>, turn: TurnId)
    ensures forall t :: t in Without(p, turn) ==> t in p
    ensures NoRepeats(p) ==> NoRepeats(Without(p, turn))
    ensures NoRepeats(p) ==> turn !in Without(p, turn)
  {
    var i := IndexIn(p, turn);
    if i < |p| {
      var w := Without(p, turn);
      forall a | 0 <= a < |w| ensures w[a] == p[if a < i then a else a + 1] {}
    }
  }

  lemma {:induction false} WithoutTail(p: seq<TurnId>, q: seq<TurnId>, turn: TurnId)
    requires turn !in p
    ensures Without(p + q, turn) == p + Without(q, turn)
  {
    IndexTail(p, q, turn);
    RemoveTail(p, q, IndexIn(q, turn));
  }

  lemma RemoveTail(p: seq<TurnId>, q: seq<TurnId>, i: nat)
    ensures RemoveIndex(p + q, |p| + i) == p + RemoveIndex(q, i)
  {
  }

  lemma {:induction false} IndexTail(p: seq<TurnId>, q: seq<TurnId>, turn: TurnId)
    requires turn !in p
    ensures IndexIn(p + q, turn) == |p| + IndexIn(q, turn)
  {
    if p == [] {
      assert p + q == q;
    } else {
      assert (p + q)[1..] == p[1..] + q;
      IndexTail(p[1..], q, turn);
    }
  }

  // ---------------------------------------------------------------- draining

  function StartTurn(s: State, c: Conversation): State
    requires Known(s, c) && QueueOf(s, c).pending != []
  {
    var q := QueueOf(s, c);
    SetQueue(s, s.queues[c], Queue(Some(Inflight(q.pending[0], false)), q.pending[1..]))
      .(tasks := s.tasks[q.pending[0] := Task(c, s.queues[c], false)], log := s.log + [Started(c, q.pending[0])])
  }

  lemma StartKeepsOwn(s: State, c: Conversation)
    requires Known(s, c) && QueueOf(s, c).inflight.None? && QueueOf(s, c).pending != [] && History(s, c)
    ensures History(StartTurn(s, c), c)
  {
    var t := StartTurn(s, c);
    var p := QueueOf(s, c).pending;
    SummaryGrows(s.log, Started(c, p[0]), c);
    assert p == [p[0]] + p[1..];
    assert StartedIn(s.log, c) + p == StartedIn(s.log, c) + [p[0]] + p[1..];
    assert PendingOf(t, c) == p[1..] && InflightOf(t, c) == [p[0]] && PersistingOf(t, c) == [];
  }

  lemma StartKeepsOther(s: State, c: Conversation)
    requires InvBut(s, Some(c)) && Known(s, c) && QueueOf(s, c).inflight.None? && QueueOf(s, c).pending != []
    ensures forall d :: d != c ==> Record(StartTurn(s, c), d, None) && History(StartTurn(s, c), d)
  {
    var t := StartTurn(s, c);
    var turn := QueueOf(s, c).pending[0];
    NotYetTasked(s, c, turn);
    forall d | d != c ensures Record(t, d, None) && History(t, d) {
      assert Record(s, d, Some(c)) && Record(s, c, Some(c)) && History(s, d);
      assert d in s.queues ==> s.queues[d] != s.queues[c];
      SummaryGrows(s.log, Started(c, turn), d);
      assert Known(s, d) ==> Known(t, d) && QueueOf(t, d) == QueueOf(s, d);
    }
  }

  lemma StartKeeps(s: State, c: Conversation)
    requires InvBut(s, Some(c)) && Known(s, c) && QueueOf(s, c).inflight.None? && QueueOf(s, c).pending != []
    ensures Inv(StartTurn(s, c))
  {
    var t := StartTurn(s, c);
    var turn := QueueOf(s, c).pending[0];
    assert Record(s, c, Some(c)) && History(s, c);
    StartKeepsOwn(s, c);
    StartKeepsOther(s, c);
    StartKeepsTasks(s, c);
    forall d ensures Wanted(t.log, d) == Wanted(s.log, d) {
      SummaryGrows(s.log, Started(c, turn), d);
    }
  }

  lemma StartKeepsTasks(s: State, c: Conversation)
    requires InvBut(s, Some(c)) && Known(s, c) && QueueOf(s, c).inflight.None? && QueueOf(s, c).pending != []
    ensures forall u :: u in StartTurn(s, c).tasks ==> Captured(StartTurn(s, c), u)
  {
    var t := StartTurn(s, c);
    NotYetTasked(s, c, QueueOf(s, c).pending[0]);
    forall u | u in t.tasks ensures Captured(t, u) {
      if u in s.tasks { assert Captured(s, u); }
    }
  }

  /** A turn that still waits has no task. */
  lemma NotYetTasked(s: State, c: Conversation, turn: TurnId)
    requires InvBut(s, Some(c)) && Known(s, c) && turn in QueueOf(s, c).pending
    ensures turn !in s.tasks
  {
    if turn in s.tasks {
      var k := s.tasks[turn];
      assert Captured(s, turn);
      assert History(s, c) && History(s, k.conversation);
      assert turn in InflightOf(s, k.conversation) && turn in PendingOf(s, c);
      StartedThenWaiting(s, k.conversation, c, turn);
    }
  }

  lemma StartedThenWaiting(s: State, c: Conversation, d: Conversation, turn: TurnId)
    requires History(s, c) && History(s, d) && Owners(s)
    requires turn in InflightOf(s, c)
    ensures turn !in PendingOf(s, d)
  {
    assert turn in StartedIn(s.log, c);
    assert turn in Wanted(s.log, c);
    if turn in PendingOf(s, d) { assert turn in Wanted(s.log, d); }
    NotBoth(StartedIn(s.log, d), PendingOf(s, d), turn);
  }

  lemma NotBoth(p: seq<TurnId>, q: seq<TurnId>, turn: TurnId)
    requires NoRepeats(p + q)
    ensures !(turn in p && turn in q)
  {
    forall i, j | 0 <= i < |p| && 0 <= j < |q| ensures p[i] != q[j] {
      assert (p + q)[i] == p[i] && (p + q)[|p| + j] == q[j];
    }
  }

  lemma DrainKeeps(s: State, c: Conversation)
    requires InvBut(s, Some(c)) && c in s.queues
    ensures Inv(Drain(s, c))
  {
    assert Record(s, c, Some(c));
    var q := QueueOf(s, c);
    if q.inflight.Some? {
      forall d ensures Record(s, d, None) {
        assert Record(s, d, Some(c));
      }
    } else if q.pending == [] {
      var t := s.(queues := s.queues - {c});
      forall d ensures Record(t, d, None) && History(t, d) {
        assert Record(s, d, Some(c)) && History(s, d);
      }
      forall u | u in t.tasks ensures Captured(t, u) { assert Captured(s, u); }
    } else {
      StartKeeps(s, c);
      assert Drain(s, c) == StartTurn(s, c);
    }
  }

  // ---------------------------------------------------------------- events

  lemma QueueForKeeps(s: State, c: Conversation)
    requires Inv(s)
    ensures InvBut(QueueFor(s, c), Some(c)) && QueueFor(s, c).log == s.log && QueueFor(s, c).seen == s.seen
  {
    var t := QueueFor(s, c);
    assert Record(s, c, None);
    forall d ensures Record(t, d, Some(c)) && History(t, d) {
      assert Record(s, d, None) && History(s, d);
    }
    forall u | u in t.tasks ensures Captured(t, u) { assert Captured(s, u); }
  }

  lemma AppendNew(p: seq<TurnId>, q: seq<TurnId>, w: seq<TurnId>, turn: TurnId)
    requires w == p + q && NoRepeats(w) && turn !in w
    ensures w + [turn] == p + (q + [turn]) && NoRepeats(w + [turn])
  {
  }

  lemma PushKeepsOwn(s: State, c: Conversation, turn: TurnId)
    requires Known(s, c) && History(s, c) && turn !in s.seen
    ensures History(Push(s, c, turn), c)
  {
    var t := Push(s, c, turn);
    SummaryGrows(s.log, Submitted(c, turn), c);
    AppendNew(StartedIn(s.log, c), PendingOf(s, c), Wanted(s.log, c), turn);
    assert PendingOf(t, c) == PendingOf(s, c) + [turn];
    assert InflightOf(t, c) == InflightOf(s, c) && PersistingOf(t, c) == PersistingOf(s, c);
  }

  lemma PushKeepsOther(s: State, c: Conversation, turn: TurnId)
    requires InvBut(s, Some(c)) && Known(s, c)
    ensures forall d :: d != c ==> Record(Push(s, c, turn), d, Some(c)) && History(Push(s, c, turn), d)
  {
    var t := Push(s, c, turn);
    forall d | d != c ensures Record(t, d, Some(c)) && History(t, d) {
      assert Record(s, d, Some(c)) && History(s, d);
      assert d in s.queues ==> s.queues[d] != s.queues[c];
      SummaryGrows(s.log, Submitted(c, turn), d);
      assert Known(s, d) ==> Known(t, d) && QueueOf(t, d) == QueueOf(s, d);
    }
  }

  lemma PushKeeps(s: State, c: Conversation, turn: TurnId)
    requires InvBut(s, Some(c)) && Known(s, c) && turn !in s.seen
    ensures InvBut(Push(s, c, turn), Some(c)) && Known(Push(s, c, turn), c)
  {
    var t := Push(s, c, turn);
    assert Record(s, c, Some(c)) && History(s, c);
    PushKeepsOwn(s, c, turn);
    PushKeepsOther(s, c, turn);
    forall u | u in t.tasks ensures Captured(t, u) { assert Captured(s, u); }
    PushKeepsOwners(s, c, turn);
  }

  lemma PushKeepsOwners(s: State, c: Conversation, turn: TurnId)
    requires InvBut(s, Some(c)) && Known(s, c) && turn !in s.seen
    ensures Owners(Push(s, c, turn))
  {
    var t := Push(s, c, turn);
    forall x, y, u | u in Wanted(t.log, x) && u in Wanted(t.log, y) ensures x == y {
      SummaryGrows(s.log, Submitted(c, turn), x);
      SummaryGrows(s.log, Submitted(c, turn), y);
      assert History(s, x) && History(s, y);
    }
  }

  lemma SubmitKeeps(s: State, e: Event)
    requires Inv(s) && Enabled(s, e) && e.Submit?
    ensures Inv(Apply(s, e))
  {
    QueueForKeeps(s, e.conversation);
    PushKeeps(QueueFor(s, e.conversation), e.conversation, e.turn);
    DrainKeeps(Push(QueueFor(s, e.conversation), e.conversation, e.turn), e.conversation);
  }

  /** Cancelling removes the turn from the waiting part only. */
  lemma CancelSplits(p: seq<TurnId>, q: seq<TurnId>, turn: TurnId)
    requires NoRepeats(p + q) && turn in q
    ensures Without(p + q, turn) == p + Without(q, turn) && NoRepeats(Without(p + q, turn))
  {
    NotBoth(p, q, turn);
    WithoutTail(p, q, turn);
    WithoutFacts(p + q, turn);
  }

  lemma CancelKeepsHistory(s: State, c: Conversation, turn: TurnId)
    requires Waits(s, c, turn) && History(s, c) && QueueOf(s, c).inflight.Some?
    ensures History(CancelIn(s, c, turn), c)
  {
    var t := CancelIn(s, c, turn);
    SummaryGrows(s.log, Cancelled(c, turn), c);
    CancelSplits(StartedIn(s.log, c), PendingOf(s, c), turn);
    WithoutFacts(Wanted(s.log, c), turn);
    assert PendingOf(t, c) == Without(PendingOf(s, c), turn);
    assert InflightOf(t, c) == InflightOf(s, c) && PersistingOf(t, c) == PersistingOf(s, c);
  }

  lemma CancelKeepsOther(s: State, c: Conversation, turn: TurnId)
    requires Inv(s) && Waits(s, c, turn)
    ensures forall d :: d != c ==> Record(CancelIn(s, c, turn), d, None) && History(CancelIn(s, c, turn), d)
  {
    var t := CancelIn(s, c, turn);
    forall d | d != c ensures Record(t, d, None) && History(t, d) {
      assert Record(s, d, None) && Record(s, c, None) && History(s, d);
      assert d in s.queues ==> s.queues[d] != s.queues[c];
      SummaryGrows(s.log, Cancelled(c, turn), d);
      assert Known(s, d) ==> Known(t, d) && QueueOf(t, d) == QueueOf(s, d);
    }
  }

  lemma CancelKeeps(s: State, c: Conversation, turn: TurnId)
    requires Inv(s) && Waits(s, c, turn)
    ensures Inv(CancelIn(s, c, turn))
  {
    var t := CancelIn(s, c, turn);
    assert Record(s, c, None) && History(s, c);
    CancelKeepsHistory(s, c, turn);
    CancelKeepsOther(s, c, turn);
    assert Record(t, c, None);
    forall u | u in t.tasks ensures Captured(t, u) { assert Captured(s, u); }
    forall d, u | u in Wanted(t.log, d) ensures u in Wanted(s.log, d) {
      SummaryGrows(s.log, Cancelled(c, turn), d);
      WithoutFacts(Wanted(s.log, d), turn);
    }
  }

  lemma StopKeeps(s: State, c: Conversation, turn: TurnId)
    requires Inv(s) && Runs(s, c, turn)
    ensures Inv(SetQueue(s, s.queues[c], QueueOf(s, c).(inflight := Some(Inflight(turn, true)))))
  {
    var t := SetQueue(s, s.queues[c], QueueOf(s, c).(inflight := Some(Inflight(turn, true))));
    forall d ensures Record(t, d, None) && History(t, d) {
      assert Record(s, d, None) && History(s, d);
    }
    forall u | u in t.tasks ensures Captured(t, u) { assert Captured(s, u); }
  }

  lemma OutcomeKeeps(s: State, e: Event)
    requires Inv(s) && Enabled(s, e) && e.Outcome?
    ensures Inv(Apply(s, e))
  {
    var t := Apply(s, e);
    var k := s.tasks[e.turn];
    assert Captured(s, e.turn);
    var entry := t.log[|s.log|];
    assert t.log == s.log + [entry];
    forall d ensures Record(t, d, None) && History(t, d) && Wanted(t.log, d) == Wanted(s.log, d) {
      assert Record(s, d, None) && History(s, d);
      SummaryGrows(s.log, entry, d);
      assert PendingOf(t, d) == PendingOf(s, d) && InflightOf(t, d) == InflightOf(s, d);
    }
    forall u | u in t.tasks ensures Captured(t, u) { assert Captured(s, u); }
  }

  lemma ReleaseKeepsHistory(s: State, turn: TurnId)
    requires turn in s.tasks && s.tasks[turn].persisting && Captured(s, turn) && History(s, s.tasks[turn].conversation)
    ensures History(Release(s, turn), s.tasks[turn].conversation)
  {
    var c := s.tasks[turn].conversation;
    var t := Release(s, turn);
    SummaryGrows(s.log, Persisted(c, turn), c);
    assert InflightOf(s, c) == [turn] && PersistingOf(s, c) == [turn];
    assert InflightOf(t, c) == [] && PersistingOf(t, c) == [] && PendingOf(t, c) == PendingOf(s, c);
    assert StartedIn(t.log, c) == PersistedIn(t.log, c) + [];
    assert SettledIn(t.log, c) == PersistedIn(t.log, c) + [];
  }

  lemma ReleaseKeepsOther(s: State, turn: TurnId)
    requires Inv(s) && turn in s.tasks && s.tasks[turn].queue in s.memory
    ensures forall d :: d != s.tasks[turn].conversation ==> Record(Release(s, turn), d, None) && History(Release(s, turn), d)
  {
    var c := s.tasks[turn].conversation;
    var t := Release(s, turn);
    assert Captured(s, turn) && Record(s, c, None);
    forall d | d != c ensures Record(t, d, None) && History(t, d) {
      assert Record(s, d, None) && History(s, d);
      assert d in s.queues ==> s.queues[d] != s.queues[c];
      SummaryGrows(s.log, Persisted(c, turn), d);
      assert Known(s, d) ==> Known(t, d) && QueueOf(t, d) == QueueOf(s, d);
    }
  }

  lemma ReleaseKeeps(s: State, turn: TurnId)
    requires Inv(s) && turn in s.tasks && s.tasks[turn].persisting && s.tasks[turn].queue in s.memory
    ensures InvBut(Release(s, turn), Some(s.tasks[turn].conversation))
    ensures Known(Release(s, turn), s.tasks[turn].conversation)
  {
    var c := s.tasks[turn].conversation;
    var t := Release(s, turn);
    assert Captured(s, turn) && Record(s, c, None) && History(s, c);
    ReleaseKeepsHistory(s, turn);
    ReleaseKeepsOther(s, turn);
    forall d ensures Record(t, d, Some(c)) {
      assert d != c ==> Record(t, d, None);
    }
    forall u | u in t.tasks ensures Captured(t, u) { assert Captured(s, u); }
    forall d ensures Wanted(t.log, d) == Wanted(s.log, d) { SummaryGrows(s.log, Persisted(c, turn), d); }
  }

  lemma StepKeepsInv(s: State, e: Event)
    requires Inv(s) && Enabled(s, e)
    ensures Inv(Apply(s, e))
  {
    match e
    case Submit(_, _) => SubmitKeeps(s, e);
    case Cancel(turn) =>
      forall c | Waits(s, c, turn) ensures Inv(CancelIn(s, c, turn)) { CancelKeeps(s, c, turn); }
    case StopTurn(turn) =>
      forall c | Runs(s, c, turn)
        ensures Inv(SetQueue(s, s.queues[c], QueueOf(s, c).(inflight := Some(Inflight(turn, true)))))
      {
        StopKeeps(s, c, turn);
      }
    case Outcome(_, _) => OutcomeKeeps(s, e);
    case PersistenceEnds(turn) =>
      ReleaseKeeps(s, turn);
      DrainKeeps(Release(s, turn), s.tasks[turn].conversation);
  }

  // ---------------------------------------------------------------- runs

  ghost predicate RunFrom(s: State, events: seq<Event>)
    decreases |events|
  {
    events == [] || (Enabled(s, events[0]) && RunFrom(Apply(s, events[0]), events[1..]))
  }

  ghost function After(s: State, events: seq<Event>): State
    requires RunFrom(s, events)
    decreases |events|
  {
    if events == [] then s else After(Apply(s, events[0]), events[1..])
  }

  lemma {:induction false} RunKeepsInv(s: State, events: seq<Event>)
    requires Inv(s) && RunFrom(s, events)
    ensures Inv(After(s, events))
    decreases |events|
  {
    if events != [] {
      StepKeepsInv(s, events[0]);
      RunKeepsInv(Apply(s, events[0]), events[1..]);
    }
  }

  lemma StartsConsistent()
    ensures Inv(NEW)
  {
  }

  ghost predicate Prefix(p: seq<TurnId>, q: seq<TurnId>) { p <= q }

  /** In every run and for every conversation: turns start in submission order, cancelled ones left out; each is
      sent at most once and settled at most once; and each starts only when all earlier ones are persisted. */
  lemma TurnsRunInOrder(events: seq<Event>, c: Conversation)
    requires RunFrom(NEW, events)
    ensures var log := After(NEW, events).log;
      && Prefix(StartedIn(log, c), Wanted(log, c))
      && Prefix(SettledIn(log, c), StartedIn(log, c))
      && Prefix(PersistedIn(log, c), SettledIn(log, c))
      && NoRepeats(StartedIn(log, c)) && NoRepeats(SettledIn(log, c))
      && OneAtATime(log, c)
  {
    StartsConsistent();
    RunKeepsInv(NEW, events);
    var s := After(NEW, events);
    assert History(s, c);
    ListsInOrder(Summarise(s.log, c), PendingOf(s, c), InflightOf(s, c), PersistingOf(s, c), s.seen);
  }

  lemma ListsInOrder(h: Summary, pending: seq<TurnId>, inflight: seq<TurnId>, persisting: seq<TurnId>, seen: set<TurnId>)
    requires Lists(h, pending, inflight, persisting, seen) && (persisting == [] || persisting == inflight)
    ensures Prefix(h.started, h.wanted) && Prefix(h.settled, h.started) && Prefix(h.persisted, h.settled)
    ensures NoRepeats(h.started) && NoRepeats(h.settled)
  {
    forall i, j | 0 <= i < j < |h.started| ensures h.started[i] != h.started[j] {
      assert h.wanted[i] == h.started[i] && h.wanted[j] == h.started[j];
    }
    forall i, j | 0 <= i < j < |h.settled| ensures h.settled[i] != h.settled[j] {
      assert h.settled[i] == h.started[i] && h.settled[j] == h.started[j];
    }
  }

  /** The queue record a started turn captured is the one the map still holds, until its settlement is persisted. */
  lemma CapturedQueueIsCurrent(events: seq<Event>, turn: TurnId)
    requires RunFrom(NEW, events) && turn in After(NEW, events).tasks
    ensures var s := After(NEW, events);
      var k := s.tasks[turn];
      && k.conversation in s.queues && s.queues[k.conversation] == k.queue
      && InflightOf(s, k.conversation) == [turn]
  {
    StartsConsistent();
    RunKeepsInv(NEW, events);
    assert Captured(After(NEW, events), turn);
  }

  // ---------------------------------------------------------------- which settlements are marked stopped

  /** The turn has a task, and the signal of its send is aborted. */
  ghost predicate Marked(s: State, turn: TurnId) {
    && turn in s.tasks && s.tasks[turn].queue in s.memory
    && s.memory[s.tasks[turn].queue].inflight.Some? && s.memory[s.tasks[turn].queue].inflight.value.aborted
  }

  /** The task and its signal are as before; a turn without a task may get one, unmarked. */
  ghost predicate SameMark(s: State, t: State, turn: TurnId) {
    if turn in s.tasks then turn in t.tasks && (Marked(t, turn) <==> Marked(s, turn)) else !Marked(t, turn)
  }

  lemma DrainKeepsMark(s: State, c: Conversation, turn: TurnId)
    requires InvBut(s, Some(c)) && c in s.queues
    ensures SameMark(s, Drain(s, c), turn)
  {
    assert Record(s, c, Some(c));
    if turn in s.tasks { assert Captured(s, turn); }
    var q := QueueOf(s, c);
    if q.inflight.None? && q.pending != [] { NotYetTasked(s, c, q.pending[0]); }
  }

  lemma PushKeepsMark(s: State, c: Conversation, queued: TurnId, turn: TurnId)
    requires Inv(s)
    ensures SameMark(s, Push(QueueFor(s, c), c, queued), turn)
  {
    if turn in s.tasks { assert Captured(s, turn); }
  }

  lemma ReleaseKeepsMark(s: State, freed: TurnId, turn: TurnId)
    requires Inv(s) && freed in s.tasks && s.tasks[freed].queue in s.memory && turn != freed
    ensures SameMark(s, Release(s, freed), turn)
  {
    assert Captured(s, freed);
    if turn in s.tasks { assert Captured(s, turn); }
  }

  /** A freed turn does not start again. */
  lemma FreedStaysOut(s: State, turn: TurnId)
    requires Inv(s) && Enabled(s, PersistenceEnds(turn))
    ensures turn !in Apply(s, PersistenceEnds(turn)).tasks
  {
    var c := s.tasks[turn].conversation;
    assert Captured(s, turn) && History(s, c) && Record(s, c, None);
    assert turn in InflightOf(s, c);
    StartedThenWaiting(s, c, c, turn);
    assert QueueOf(Release(s, turn), c).pending == PendingOf(s, c);
  }

  lemma StopMarks(s: State, stopped: TurnId, turn: TurnId)
    requires Inv(s) && turn in s.tasks
    ensures turn in Apply(s, StopTurn(stopped)).tasks
    ensures Marked(Apply(s, StopTurn(stopped)), turn) <==> Marked(s, turn) || stopped == turn
  {
    assert Captured(s, turn);
    assert stopped == turn ==> Runs(s, s.tasks[turn].conversation, turn);
    forall c | Runs(s, c, stopped)
      ensures var t := SetQueue(s, s.queues[c], QueueOf(s, c).(inflight := Some(Inflight(stopped, true))));
        Marked(t, turn) <==> Marked(s, turn) || stopped == turn
    {
      if stopped == turn { RunsInOnePlace(s, c, s.tasks[turn].conversation, turn); }
    }
  }

  /** Only a stop marks a turn, and only one that has started. */
  lemma StepMarks(s: State, e: Event, turn: TurnId)
    requires Inv(s) && Enabled(s, e)
    ensures turn !in s.tasks ==> !Marked(Apply(s, e), turn)
    ensures turn in s.tasks && turn in Apply(s, e).tasks ==> (Marked(Apply(s, e), turn) <==> Marked(s, turn) || e == StopTurn(turn))
  {
    match e
    case Submit(c, queued) =>
      PushKeepsMark(s, c, queued, turn);
      QueueForKeeps(s, c);
      PushKeeps(QueueFor(s, c), c, queued);
      DrainKeepsMark(Push(QueueFor(s, c), c, queued), c, turn);
    case Cancel(_) =>
    case StopTurn(stopped) => if turn in s.tasks { StopMarks(s, stopped, turn); }
    case Outcome(_, _) =>
    case PersistenceEnds(freed) =>
      if freed == turn {
        FreedStaysOut(s, turn);
      } else {
        ReleaseKeepsMark(s, freed, turn);
        ReleaseKeeps(s, freed);
        DrainKeepsMark(Release(s, freed), s.tasks[freed].conversation, turn);
      }
  }

  /** The turn has a task from here on through the run. */
  ghost predicate StaysStarted(s: State, events: seq<Event>, turn: TurnId)
    requires RunFrom(s, events)
    decreases |events|
  {
    turn in s.tasks && (events == [] || StaysStarted(Apply(s, events[0]), events[1..], turn))
  }

  lemma {:induction false} MarkedByStops(s: State, events: seq<Event>, turn: TurnId)
    requires Inv(s) && RunFrom(s, events) && StaysStarted(s, events, turn)
    ensures turn in After(s, events).tasks
    ensures Marked(After(s, events), turn) <==> Marked(s, turn) || StopTurn(turn) in events
    decreases |events|
  {
    if events != [] {
      StepKeepsInv(s, events[0]);
      StepMarks(s, events[0], turn);
      MarkedByStops(Apply(s, events[0]), events[1..], turn);
      assert events == [events[0]] + events[1..];
    }
  }

  /** A settlement is reported as stopped exactly if the send failed and the turn was stopped after it had started;
      stopping it while it waited, or stopping another turn, leaves the error its own. */
  lemma StoppedIff(before: seq<Event>, start: Event, events: seq<Event>, turn: TurnId, ok: bool)
    requires RunFrom(NEW, before) && turn !in After(NEW, before).tasks && Enabled(After(NEW, before), start)
    requires var s := Apply(After(NEW, before), start);
      RunFrom(s, events) && StaysStarted(s, events, turn) && Enabled(After(s, events), Outcome(turn, ok))
    ensures var s := After(Apply(After(NEW, before), start), events);
      var log := Apply(s, Outcome(turn, ok)).log;
      log == s.log + [Settled(s.tasks[turn].conversation, turn, ok, !ok && StopTurn(turn) in events)]
  {
    StartsConsistent();
    RunKeepsInv(NEW, before);
    StepKeepsInv(After(NEW, before), start);
    StepMarks(After(NEW, before), start, turn);
    MarkedByStops(Apply(After(NEW, before), start), events, turn);
  }

  predicate IsIdleState(s: State) { s.queues == map[] }

  predicate HasWorkIn(s: State, c: Conversation) {
    Known(s, c) && (QueueOf(s, c).inflight.Some? || QueueOf(s, c).pending != [])
  }

  /** A conversation has work exactly while some submitted, not cancelled turn of it is not yet persisted. */
  lemma HasWorkIff(s: State, c: Conversation)
    requires Inv(s)
    ensures HasWorkIn(s, c) <==> PersistedIn(s.log, c) != Wanted(s.log, c)
    ensures HasWorkIn(s, c) <==> c in s.queues
  {
    assert Record(s, c, None) && History(s, c);
    var h := Summarise(s.log, c);
    assert |h.wanted| == |h.persisted| + |InflightOf(s, c)| + |PendingOf(s, c)|;
  }

  /** The manager is idle exactly when every submitted turn of every conversation is persisted or cancelled. */
  lemma IdleIff(events: seq<Event>)
    requires RunFrom(NEW, events)
    ensures var s := After(NEW, events);
      IsIdleState(s) <==> forall c :: PersistedIn(s.log, c) == Wanted(s.log, c)
  {
    StartsConsistent();
    RunKeepsInv(NEW, events);
    var s := After(NEW, events);
    IdleWhenAllPersisted(s);
  }

  lemma IdleWhenAllPersisted(s: State)
    requires Inv(s)
    ensures IsIdleState(s) <==> forall c :: PersistedIn(s.log, c) == Wanted(s.log, c)
  {
    forall c ensures c in s.queues <==> PersistedIn(s.log, c) != Wanted(s.log, c) { HasWorkIff(s, c); }
    if s.queues != map[] {
      var c :| c in s.queues;
      assert PersistedIn(s.log, c) != Wanted(s.log, c);
    }
  }

  // ---------------------------------------------------------------- the manager object

  /** A turn waits in at most one queue. */
  lemma WaitsInOnePlace(s: State, c: Conversation, d: Conversation, turn: TurnId)
    requires Inv(s) && Waits(s, c, turn) && Waits(s, d, turn)
    ensures c == d
  {
    assert History(s, c) && History(s, d);
    assert turn in PendingOf(s, c) && turn in PendingOf(s, d);
    assert turn in Wanted(s.log, c) && turn in Wanted(s.log, d);
  }

  lemma RunsInOnePlace(s: State, c: Conversation, d: Conversation, turn: TurnId)
    requires Inv(s) && Runs(s, c, turn) && Runs(s, d, turn)
    ensures c == d
  {
    assert Record(s, c, None) && Record(s, d, None);
  }

  class TurnManager {
    var queues: map<Conversation, Ref>
    var memory: map<Ref, Queue>
    var next: Ref
    var tasks: map<TurnId, Task>
    ghost var seen: set<TurnId>
    ghost var log: seq<Entry>

    ghost function View(): State
      reads this
    {
      State(queues, memory, next, tasks, seen, log)
    }

    constructor ()
      ensures View() == NEW && Inv(View())
    {
      queues, memory, next, tasks, seen, log := map[], map[], 0, map[], {}, [];
      new;
      StartsConsistent();
    }

    method GetQueue(c: Conversation) returns (queue: Ref)
      modifies this`queues, this`memory, this`next
      ensures View() == QueueFor(old(View()), c) && Known(View(), c) && queue == queues[c]
    {
      if c !in queues || queues[c] !in memory {
        queues, memory := queues[c := next], memory[next := Queue(None, [])];
        next := next + 1;
      }
      queue := queues[c];
    }

    method DrainQueue(c: Conversation)
      modifies this
      ensures View() == Drain(old(View()), c)
    {
      var r := GetQueue(c);
      var queue := memory[r];
      if queue.inflight.Some? { return; }
      if queue.pending == [] {
        queues := queues - {c};
        return;
      }
      var turn := queue.pending[0];
      memory := memory[r := Queue(Some(Inflight(turn, false)), queue.pending[1..])];
      tasks := tasks[turn := Task(c, r, false)];
      log := log + [Started(c, turn)];
    }

    method SubmitTurn(c: Conversation, turn: TurnId)
      requires Inv(View()) && turn !in seen
      modifies this
      ensures View() == Apply(old(View()), Submit(c, turn)) && Inv(View())
    {
      StepKeepsInv(View(), Submit(c, turn));
      var r := GetQueue(c);
      memory := memory[r := memory[r].(pending := memory[r].pending + [turn])];
      seen := seen + {turn};
      log := log + [Submitted(c, turn)];
      DrainQueue(c);
    }

    /** Looks through the queues for the waiting turn. */
    method CancelQueued(turn: TurnId)
      requires Inv(View())
      modifies this
      ensures View() == Apply(old(View()), Cancel(turn)) && Inv(View())
    {
      StepKeepsInv(View(), Cancel(turn));
      ghost var before := View();
      var rest := queues.Keys;
      while rest != {}
        invariant View() == before && rest <= queues.Keys
        invariant forall c :: Waits(before, c, turn) ==> c in rest
        decreases rest
      {
        var c :| c in rest;
        rest := rest - {c};
        assert Record(before, c, None);
        var r := queues[c];
        var queue := memory[r];
        if turn in queue.pending {
          assert Waits(before, c, turn);
          forall d | Waits(before, d, turn) ensures d == c { WaitsInOnePlace(before, c, d, turn); }
          var left := queue.(pending := Without(queue.pending, turn));
          memory := memory[r := left];
          log := log + [Cancelled(c, turn)];
          queues := if left.inflight.None? && left.pending == [] then queues - {c} else queues;
          assert View() == CancelIn(before, c, turn);
          return;
        }
      }
    }

    /** Aborts the turn if it is inflight somewhere. */
    method StopInflight(turn: TurnId)
      requires Inv(View())
      modifies this
      ensures View() == Apply(old(View()), StopTurn(turn)) && Inv(View())
    {
      StepKeepsInv(View(), StopTurn(turn));
      ghost var before := View();
      var rest := queues.Keys;
      while rest != {}
        invariant View() == before && rest <= queues.Keys
        invariant forall c :: Runs(before, c, turn) ==> c in rest
        decreases rest
      {
        var c :| c in rest;
        rest := rest - {c};
        assert Record(before, c, None);
        var r := queues[c];
        if memory[r].inflight.Some? && memory[r].inflight.value.turn == turn {
          assert Runs(before, c, turn);
          forall d | Runs(before, d, turn) ensures d == c { RunsInOnePlace(before, c, d, turn); }
          memory := memory[r := memory[r].(inflight := Some(Inflight(turn, true)))];
          return;
        }
      }
    }

    /** The send settled: the settlement goes to its handler. */
    method SendSettles(turn: TurnId, ok: bool)
      requires Inv(View()) && Enabled(View(), Outcome(turn, ok))
      modifies this
      ensures View() == Apply(old(View()), Outcome(turn, ok)) && Inv(View())
    {
      StepKeepsInv(View(), Outcome(turn, ok));
      var task := tasks[turn];
      ghost var inflight := memory[task.queue].inflight;
      tasks := tasks[turn := task.(persisting := true)];
      log := log + [Settled(task.conversation, turn, ok, !ok && inflight.Some? && inflight.value.aborted)];
    }

    /** The settlement handler is done: the captured record is freed and the conversation drains. */
    method SettlementPersisted(turn: TurnId)
      requires Inv(View()) && Enabled(View(), PersistenceEnds(turn))
      modifies this
      ensures View() == Apply(old(View()), PersistenceEnds(turn)) && Inv(View())
    {
      StepKeepsInv(View(), PersistenceEnds(turn));
      var task := tasks[turn];
      memory := memory[task.queue := memory[task.queue].(inflight := None)];
      tasks := tasks - {turn};
      log := log + [Persisted(task.conversation, turn)];
      DrainQueue(task.conversation);
    }

    method HasWork(c: Conversation) returns (work: bool)
      requires Inv(View())
      ensures work <==> PersistedIn(log, c) != Wanted(log, c)
    {
      HasWorkIff(View(), c);
      work := c in queues && queues[c] in memory && (memory[queues[c]].inflight.Some? || memory[queues[c]].pending != []);
    }

    method IsIdle() returns (idle: bool)
      requires Inv(View())
      ensures idle <==> forall c :: PersistedIn(log, c) == Wanted(log, c)
    {
      IdleWhenAllPersisted(View());
      idle := |queues| == 0;
    }
  }
}