/** app/src/main/transcript-store.ts */
module TranscriptIndex {
  // Persistence of the session index: a debounce timer, immediate edits and flushes that all feed one chain of
  // writes through a shared staging file.
  //
  // A write is known by its position in the chain. It may start once its predecessor settled, and it writes the
  // sessions as they are when it starts. Writing the staging file and renaming it are separate, and each may fail.

  import opened Wrappers

  datatype Session = Session(conversationId: string, title: string, createdAt: string, updatedAt: string, lastPreview: string)

  /** The list the index file holds. What a mutation does to it is left open: any new list. */
  type Sessions = seq<Session>

  /** `since` is the version in memory when the write was enqueued. */
  datatype Write = Write(since: nat, stage: Stage)

  datatype Stage =
    | Queued
    | Staging(version: nat)
    | Staged(version: nat)
    | Done(version: nat)
    | Failed
  {
    predicate Settled() { Done? || Failed? }
    predicate InProgress() { Staging? || Staged? }
  }

  /** What a file holds: nothing, a torn write, or the sessions of one version. */
  datatype Content = Absent | Torn | Whole(version: nat)

  /** A pending `flushIndex`: the write it awaits, if any, and the version in memory when it was called. */
  datatype Flush = Flush(awaits: Option<nat>, at: nat)

  /** `history[v]` is the session list after v mutations; the last one is what is in memory. */
  datatype State = State(
    history: seq<Sessions>,
    timer: bool,
    writes: seq<Write>,
    staging: Content,
    disk: Content,
    flushes: seq<Flush>)
  {
    function Version(): nat { if history == [] then 0 else |history| - 1 }
  }

  datatype Event =
    | Append(sessions: Sessions)      // appendEntry's synchronous part: mutate and restart the timer
    | Edit(sessions: Sessions)        // create, rename, delete: mutate and write through
    | Fire                            // the debounce timer fires
    | FlushIndex
    | StartWrite(i: nat)
    | StageWrite(i: nat, ok: bool)
    | Rename(i: nat, ok: bool)

  predicate Enabled(s: State, e: Event) {
    match e
    case Fire => s.timer
    case StartWrite(i) => i < |s.writes| && s.writes[i].stage.Queued? && (i > 0 ==> s.writes[i-1].stage.Settled())
    case StageWrite(i, _) => i < |s.writes| && s.writes[i].stage.Staging?
    case Rename(i, _) => i < |s.writes| && s.writes[i].stage.Staged?
    case _ => true
  }

  function Enqueue(s: State): State {
    s.(writes := s.writes + [Write(s.Version(), Queued)])
  }

  function SetStage(s: State, i: nat, stage: Stage): State
    requires i < |s.writes|
  {
    s.(writes := s.writes[i := s.writes[i].(stage := stage)])
  }

  function Latest(s: State): Option<nat> {
    if s.writes == [] then None else Some(|s.writes| - 1)
  }

  function Apply(s: State, e: Event): State
    requires Enabled(s, e)
  {
    match e
    case Append(sessions) => s.(history := s.history + [sessions], timer := true)
    case Edit(sessions) => Enqueue(s.(history := s.history + [sessions], timer := false))
    case Fire => Enqueue(s.(timer := false))
    case FlushIndex =>
      var t := if s.timer then Enqueue(s.(timer := false)) else s;
      t.(flushes := t.flushes + [Flush(Latest(t), t.Version())])
    case StartWrite(i) => SetStage(s, i, Staging(s.Version())).(staging := Torn)
    case StageWrite(i, ok) =>
      if ok then SetStage(s, i, Staged(s.writes[i].stage.version)).(staging := Whole(s.writes[i].stage.version))
      else SetStage(s, i, Failed)
    case Rename(i, ok) =>
      if ok then SetStage(s, i, Done(s.writes[i].stage.version)).(disk := s.staging, staging := Absent)
      else SetStage(s, i, Failed)
  }

  /** A store just opened on the sessions the disk holds. */
  function Opened(sessions: Sessions): State {
    State([sessions], false, [], Absent, Whole(0), [])
  }

  /** `flushIndex` returns without an error: what it awaits succeeded. */
  predicate Resolved(s: State, f: Flush) {
    f.awaits.None? || (f.awaits.value < |s.writes| && s.writes[f.awaits.value].stage.Done?)
  }

  // ---------------------------------------------------------------- the invariant

  /** A write that has started has only settled writes before it. */
  ghost predicate InOrder(s: State) {
    forall i, j :: 0 <= i < j < |s.writes| && !s.writes[j].stage.Queued? ==> s.writes[i].stage.Settled()
  }

  /** What the versions of one write say about memory, disk and the staging file. */
  ghost predicate WriteOk(s: State, w: Write) {
    && w.since <= s.Version()
    && (w.stage.Done? ==> s.disk.Whole? && w.since <= w.stage.version <= s.disk.version)
    && (w.stage.InProgress() ==> s.disk.Whole? && w.since <= w.stage.version <= s.Version() && s.disk.version <= w.stage.version)
    && (w.stage.Staged? ==> s.staging == Whole(w.stage.version))
  }

  ghost predicate Versions(s: State) {
    && s.history != []
    && s.disk.Whole? && s.disk.version <= s.Version()
    && forall i :: 0 <= i < |s.writes| ==> WriteOk(s, s.writes[i])
  }

  /** With no timer pending, the latest write was enqueued after every mutation. */
  ghost predicate NothingForgotten(s: State) {
    s.history != [] && (!s.timer ==> s.Version() == if s.writes == [] then 0 else s.writes[|s.writes| - 1].since)
  }

  /** What a flush awaits was enqueued no earlier than the flush was called. */
  ghost predicate FlushOk(s: State, f: Flush) {
    && (f.awaits.None? ==> f.at == 0)
    && (f.awaits.Some? ==> f.awaits.value < |s.writes| && f.at <= s.writes[f.awaits.value].since)
  }

  ghost predicate FlushesCovered(s: State) {
    forall k :: 0 <= k < |s.flushes| ==> FlushOk(s, s.flushes[k])
  }

  ghost predicate Inv(s: State) {
    InOrder(s) && Versions(s) && NothingForgotten(s) && FlushesCovered(s)
  }

  ghost predicate OneWriter(s: State) {
    forall i, j :: 0 <= i < j < |s.writes| ==> !(s.writes[i].stage.InProgress() && s.writes[j].stage.InProgress())
  }

  lemma StageKeepsOrder(s: State, i: nat, stage: Stage)
    requires InOrder(s) && i < |s.writes| && !s.writes[i].stage.Settled()
    requires s.writes[i].stage.Queued? ==> i > 0 ==> s.writes[i-1].stage.Settled()
    ensures InOrder(SetStage(s, i, stage))
  {
    var t := SetStage(s, i, stage);
    forall a, b | 0 <= a < b < |t.writes| && !t.writes[b].stage.Queued? ensures t.writes[a].stage.Settled() {
      if b == i && a < i - 1 && s.writes[i].stage.Queued? {
        assert !s.writes[i - 1].stage.Queued?;
      }
    }
  }

  lemma MutationKeepsInv(s: State, e: Event)
    requires Inv(s) && Enabled(s, e) && (e.Append? || e.Edit? || e.Fire? || e.FlushIndex?)
    ensures Inv(Apply(s, e)) && s.disk == Apply(s, e).disk
  {
    var t := Apply(s, e);
    forall i | 0 <= i < |t.writes| ensures WriteOk(t, t.writes[i]) {
      if i < |s.writes| { assert t.writes[i] == s.writes[i] && WriteOk(s, s.writes[i]); }
    }
    assert NothingForgotten(t);
    forall k | 0 <= k < |t.flushes| ensures FlushOk(t, t.flushes[k]) {
      if k < |s.flushes| { assert FlushOk(s, s.flushes[k]); }
    }
  }

  lemma StartKeepsInv(s: State, e: Event)
    requires Inv(s) && Enabled(s, e) && e.StartWrite?
    ensures Inv(Apply(s, e)) && s.disk == Apply(s, e).disk
  {
    var t := Apply(s, e);
    StageKeepsOrder(s, e.i, Staging(s.Version()));
    PredecessorsSettled(s, e.i);
    forall j | 0 <= j < |t.writes| ensures WriteOk(t, t.writes[j]) {
      assert WriteOk(s, s.writes[j]);
    }
    assert forall k :: 0 <= k < |t.flushes| ==> FlushOk(s, t.flushes[k]);
  }

  /** Nothing else is in progress when a write starts. */
  lemma PredecessorsSettled(s: State, i: nat)
    requires InOrder(s) && i < |s.writes| && s.writes[i].stage.Queued? && (i > 0 ==> s.writes[i-1].stage.Settled())
    ensures forall j :: 0 <= j < |s.writes| ==> !s.writes[j].stage.InProgress()
  {
  }

  lemma WorkKeepsInv(s: State, e: Event)
    requires Inv(s) && Enabled(s, e) && (e.StageWrite? || e.Rename?)
    ensures Inv(Apply(s, e)) && s.disk.version <= Apply(s, e).disk.version
  {
    var t := Apply(s, e);
    assert WriteOk(s, s.writes[e.i]);
    StageKeepsOrder(s, e.i, t.writes[e.i].stage);
    if e.StageWrite? { StageKeepsWrites(s, e); } else { RenameKeepsWrites(s, e); }
    assert forall k :: 0 <= k < |t.flushes| ==> FlushOk(s, t.flushes[k]);
  }

  lemma StageKeepsWrites(s: State, e: Event)
    requires Inv(s) && Enabled(s, e) && e.StageWrite?
    ensures forall j :: 0 <= j < |s.writes| ==> WriteOk(Apply(s, e), Apply(s, e).writes[j])
  {
    var t := Apply(s, e);
    forall j | 0 <= j < |s.writes| ensures WriteOk(t, t.writes[j]) {
      assert WriteOk(s, s.writes[j]);
      if j != e.i { OnlyOneInProgress(s, e.i, j); }
    }
  }

  lemma RenameKeepsWrites(s: State, e: Event)
    requires Inv(s) && Enabled(s, e) && e.Rename?
    ensures forall j :: 0 <= j < |s.writes| ==> WriteOk(Apply(s, e), Apply(s, e).writes[j])
  {
    var t := Apply(s, e);
    assert WriteOk(s, s.writes[e.i]);
    forall j | 0 <= j < |s.writes| ensures WriteOk(t, t.writes[j]) {
      assert WriteOk(s, s.writes[j]);
      if j != e.i { OnlyOneInProgress(s, e.i, j); }
    }
  }

  lemma OnlyOneInProgress(s: State, i: nat, j: nat)
    requires InOrder(s) && i < |s.writes| && j < |s.writes| && i != j && s.writes[i].stage.InProgress()
    ensures !s.writes[j].stage.InProgress()
  {
  }

  lemma StepKeepsInv(s: State, e: Event)
    requires Inv(s) && Enabled(s, e)
    ensures Inv(Apply(s, e))
    ensures s.disk.version <= Apply(s, e).disk.version
  {
    match e
    case StartWrite(_) => StartKeepsInv(s, e);
    case StageWrite(_, _) => WorkKeepsInv(s, e);
    case Rename(_, _) => WorkKeepsInv(s, e);
    case _ => MutationKeepsInv(s, e);
  }

  // ---------------------------------------------------------------- runs

  ghost predicate RunFrom(s: State, events: seq<Event>)
    decreases |events|
  {
    events == [] || (Enabled(s, events[0]) && RunFrom(Apply(s, events[0]), events[1..]))
  }

  ghost function After(s: State, events: seq<Event>): State
    requires RunFrom(s, events)
    decreases |events|
  {
    if events == [] then s else After(Apply(s, events[0]), events[1..])
  }

  lemma {:induction false} RunKeepsInv(s: State, events: seq<Event>)
    requires Inv(s) && RunFrom(s, events)
    ensures Inv(After(s, events)) && s.disk.version <= After(s, events).disk.version
    decreases |events|
  {
    if events != [] {
      StepKeepsInv(s, events[0]);
      RunKeepsInv(Apply(s, events[0]), events[1..]);
    }
  }

  /** At most one write uses the staging file at a time, the disk never holds a torn index, and its version
      never goes back. */
  lemma WritesNeverOverlap(initial: Sessions, before: seq<Event>, after: seq<Event>)
    requires RunFrom(Opened(initial), before)
    requires RunFrom(After(Opened(initial), before), after)
    ensures var s, t := After(Opened(initial), before), After(After(Opened(initial), before), after);
      && OneWriter(t)
      && s.disk.Whole? && t.disk.Whole? && s.disk.version <= t.disk.version < |t.history|
  {
    RunKeepsInv(Opened(initial), before);
    RunKeepsInv(After(Opened(initial), before), after);
  }

  lemma {:induction false} RunExtendsHistory(s: State, events: seq<Event>)
    requires Inv(s) && RunFrom(s, events)
    ensures s.history <= After(s, events).history
    ensures s.flushes <= After(s, events).flushes
    decreases |events|
  {
    if events != [] {
      StepKeepsInv(s, events[0]);
      RunExtendsHistory(Apply(s, events[0]), events[1..]);
    }
  }

  /** Flush durability: call `flushIndex` at any point of any run; if at any later point it has resolved without
      an error, the disk holds the session list as it was at the call or after a later mutation. */
  lemma FlushIsDurable(initial: Sessions, before: seq<Event>, after: seq<Event>)
    requires RunFrom(Opened(initial), before)
    requires RunFrom(Apply(After(Opened(initial), before), FlushIndex), after)
    ensures var s := After(Opened(initial), before);
      var k := |s.flushes|;
      var t := After(Apply(s, FlushIndex), after);
      && k < |t.flushes|
      && (Resolved(t, t.flushes[k]) ==>
            && t.disk.Whole? && s.Version() <= t.disk.version < |t.history|
            && t.history[..|s.history|] == s.history)
  {
    RunKeepsInv(Opened(initial), before);
    var s := After(Opened(initial), before);
    StepKeepsInv(s, FlushIndex);
    var u := Apply(s, FlushIndex);
    RunKeepsInv(u, after);
    RunExtendsHistory(u, after);
  }

  // ---------------------------------------------------------------- the chain goes on

  /** A step of a write that goes well. */
  predicate WorkStep(e: Event) {
    e.StartWrite? || (e.StageWrite? && e.ok) || (e.Rename? && e.ok)
  }

  lemma Cons(s: State, e: Event, rest: seq<Event>)
    requires Enabled(s, e) && RunFrom(Apply(s, e), rest)
    ensures RunFrom(s, [e] + rest) && After(s, [e] + rest) == After(Apply(s, e), rest)
  {
    assert ([e] + rest)[1..] == rest;
  }

  /** From the first write not known to be settled on, write by write. */
  lemma {:induction false} DrainsFrom(s: State, k: nat) returns (events: seq<Event>)
    requires Inv(s) && k <= |s.writes| && forall j :: 0 <= j < k ==> s.writes[j].stage.Settled()
    ensures RunFrom(s, events) && forall e :: e in events ==> WorkStep(e)
    ensures var t := After(s, events);
      && t.flushes == s.flushes && t.history == s.history && |t.writes| == |s.writes|
      && forall j :: 0 <= j < |s.writes| ==>
           if s.writes[j].stage.Settled() then t.writes[j] == s.writes[j] else t.writes[j].stage.Done?
    decreases |s.writes| - k, if k < |s.writes| then Remaining(s.writes[k].stage) else 0
  {
    if k == |s.writes| {
      events := [];
    } else if s.writes[k].stage.Settled() {
      events := DrainsFrom(s, k + 1);
    } else {
      var e := NextStep(s, k);
      StepKeepsInv(s, e);
      var rest := DrainsFrom(Apply(s, e), k);
      Cons(s, e, rest);
      events := [e] + rest;
    }
  }

  function Remaining(stage: Stage): nat {
    match stage
    case Queued => 3
    case Staging(_) => 2
    case Staged(_) => 1
    case _ => 0
  }

  function NextStep(s: State, k: nat): Event
    requires k < |s.writes| && !s.writes[k].stage.Settled()
  {
    match s.writes[k].stage
    case Queued => StartWrite(k)
    case Staging(_) => StageWrite(k, true)
    case _ => Rename(k, true)
  }

  /** Whatever failed before, the writes still under way can all be brought to their end, and then every flush whose own
      write has not failed has resolved. */
  lemma EveryFlushCanResolve(s: State) returns (events: seq<Event>)
    requires Inv(s)
    ensures RunFrom(s, events) && forall e :: e in events ==> WorkStep(e)
    ensures forall f :: f in s.flushes && (f.awaits.Some? ==> !s.writes[f.awaits.value].stage.Failed?) ==>
      Resolved(After(s, events), f)
  {
    events := DrainsFrom(s, 0);
    forall f | f in s.flushes ensures FlushOk(s, f) {
      var k :| 0 <= k < |s.flushes| && s.flushes[k] == f;
    }
  }

  // ---------------------------------------------------------------- the store object

  class IndexStore {
    var history: seq<Sessions>
    var indexSaveTimer: bool
    var writes: seq<Write>
    var staging: Content
    var disk: Content
    var flushes: seq<Flush>

    ghost function View(): State
      reads this
    {
      State(history, indexSaveTimer, writes, staging, disk, flushes)
    }

    constructor (initial: Sessions)
      ensures View() == Opened(initial) && Inv(View())
    {
      history, indexSaveTimer, writes, staging, disk, flushes := [initial], false, [], Absent, Whole(0), [];
    }

    /** Joins the chain behind the write enqueued last. */
    method EnqueueIndexWrite() returns (write: nat)
      requires history != []
      modifies this`writes
      ensures View() == Enqueue(old(View())) && write == |writes| - 1
    {
      writes := writes + [Write(|history| - 1, Queued)];
      write := |writes| - 1;
    }

    method AppendEntry(sessions: Sessions)
      requires Inv(View())
      modifies this
      ensures View() == Apply(old(View()), Append(sessions)) && Inv(View())
    {
      StepKeepsInv(View(), Append(sessions));
      history := history + [sessions];
      indexSaveTimer := true;
    }

    method PersistEdit(sessions: Sessions) returns (write: nat)
      requires Inv(View())
      modifies this
      ensures View() == Apply(old(View()), Edit(sessions)) && Inv(View()) && write == |writes| - 1
    {
      StepKeepsInv(View(), Edit(sessions));
      history := history + [sessions];
      indexSaveTimer := false;
      write := EnqueueIndexWrite();
    }

    method TimerFires()
      requires Inv(View()) && indexSaveTimer
      modifies this
      ensures View() == Apply(old(View()), Fire) && Inv(View())
    {
      StepKeepsInv(View(), Fire);
      indexSaveTimer := false;
      var _ := EnqueueIndexWrite();
    }

    /** The write the returned promise follows; none when nothing was ever enqueued. */
    method FlushNow() returns (awaits: Option<nat>)
      requires Inv(View())
      modifies this
      ensures View() == Apply(old(View()), FlushIndex) && Inv(View())
      ensures awaits == flushes[|flushes| - 1].awaits
    {
      StepKeepsInv(View(), FlushIndex);
      if indexSaveTimer {
        indexSaveTimer := false;
        var write := EnqueueIndexWrite();
        awaits := Some(write);
      } else {
        awaits := if writes == [] then None else Some(|writes| - 1);
      }
      flushes := flushes + [Flush(awaits, |history| - 1)];
    }

    method WriteIndexStarts(i: nat)
      requires Inv(View()) && Enabled(View(), StartWrite(i))
      modifies this
      ensures View() == Apply(old(View()), StartWrite(i)) && Inv(View())
    {
      StepKeepsInv(View(), StartWrite(i));
      writes := writes[i := writes[i].(stage := Staging(|history| - 1))];
      staging := Torn;
    }

    method StagingWritten(i: nat, ok: bool)
      requires Inv(View()) && Enabled(View(), StageWrite(i, ok))
      modifies this
      ensures View() == Apply(old(View()), StageWrite(i, ok)) && Inv(View())
    {
      StepKeepsInv(View(), StageWrite(i, ok));
      if ok {
        staging := Whole(writes[i].stage.version);
        writes := writes[i := writes[i].(stage := Staged(writes[i].stage.version))];
      } else {
        writes := writes[i := writes[i].(stage := Failed)];
      }
    }

    /** The rename moves whatever the staging file holds. */
    method StagingRenamed(i: nat, ok: bool)
      requires Inv(View()) && Enabled(View(), Rename(i, ok))
      modifies this
      ensures View() == Apply(old(View()), Rename(i, ok)) && Inv(View())
    {
      StepKeepsInv(View(), Rename(i, ok));
      if ok {
        disk, staging := staging, Absent;
        writes := writes[i := writes[i].(stage := Done(writes[i].stage.version))];
      } else {
        writes := writes[i := writes[i].(stage := Failed)];
      }
    }
  }
}
