/** The app's one device link (app/src/main/link-manager.ts): generation-gated start, restart and stop around an
    asynchronous run loop. A run is known by the generation that launched it.

    Every event is one run-to-completion segment between awaits. */
module LinkManager {
  import opened Wrappers

  datatype LinkState = Connecting | Unpaired | Linked | Dropped

  datatype LinkStatus = LinkStatus(state: LinkState, message: Option<string>)

  /** Where a run loop is: awaiting its credentials, inside the client, past the loop with its `finally` still to
      run, or settled. */
  datatype Phase = Loading | Serving | Finishing | Settled

  datatype Emitted = Status(status: LinkStatus) | Chunk(text: string) | Attachment(name: string)

  /** Something handed to the app's event callbacks: the run it came from and the generation at that moment. */
  datatype Emission = Emission(from: nat, at: nat, what: Emitted)

  /** `calls` holds every start or restart still awaiting the run that was active when it was called. */
  datatype State = State(
    generation: nat,
    active: Option<nat>,
    aborted: set<nat>,
    current: LinkStatus,
    runs: map<nat, Phase>,
    calls: map<nat, Option<nat>>,
    emitted: seq<Emission>)

  datatype Loaded = LoadFails | NoCredentials | Credentials

  datatype Event =
    | Call                                   // start() or restart() up to its await
    | Stop
    | Resume(g: nat)                         // a call's await is over
    | Load(g: nat, loaded: Loaded)
    | ClientSays(g: nat, message: string)
    | ClientSends(g: nat, what: Emitted)
    | ClientEnds(g: nat)
    | Finalize(g: nat)
    | ReportFailure(g: nat)                  // restart's catch after its run rejected

  predicate InPhase(s: State, g: nat, p: Phase) { g in s.runs && s.runs[g] == p }

  predicate Live(s: State, g: nat) { g in s.runs && s.runs[g] != Settled }

  predicate Enabled(s: State, e: Event) {
    match e
    case Call => true
    case Stop => true
    case Resume(g) =>
      g in s.calls && (s.calls[g].Some? ==> InPhase(s, s.calls[g].value, Settled))
    case Load(g, _) => InPhase(s, g, Loading)
    case ClientSays(g, _) => g in s.runs && s.runs[g] != Loading
    case ClientSends(g, what) => g in s.runs && s.runs[g] != Loading && !what.Status?
    case ClientEnds(g) => InPhase(s, g, Serving)
    case Finalize(g) => InPhase(s, g, Finishing)
    case ReportFailure(g) => InPhase(s, g, Settled)
  }

  function SetStatus(s: State, g: nat, status: LinkStatus): State {
    if g != s.generation then s
    else s.(current := status, emitted := s.emitted + [Emission(g, s.generation, Status(status))])
  }

  function SetPhase(s: State, g: nat, p: Phase): State {
    s.(runs := s.runs[g := p])
  }

  function Abort(s: State): State {
    if s.active.Some? then s.(aborted := s.aborted + {s.active.value}) else s
  }

  const LINK_DROPPED := "link dropped"

  predicate IsDrop(message: string) {
    |LINK_DROPPED| <= |message| && message[..|LINK_DROPPED|] == LINK_DROPPED
  }

  function StatusFor(current: LinkStatus, message: string): LinkStatus {
    if message == "linked" then LinkStatus(Linked, None)
    else if IsDrop(message) then LinkStatus(Dropped, Some(message))
    else current.(message := Some(message))
  }

  function Apply(s: State, e: Event): State
    requires Enabled(s, e)
  {
    match e
    case Call =>
      var t := s.(generation := s.generation + 1);
      Abort(t.(calls := t.calls[t.generation := t.active]))
    case Stop => Abort(s.(generation := s.generation + 1))
    case Resume(g) =>
      var t := s.(calls := s.calls - {g});
      if g != s.generation then t else t.(runs := t.runs[g := Loading], active := Some(g))
    case Load(g, loaded) =>
      if g != s.generation || loaded.LoadFails? then SetPhase(s, g, Finishing)
      else if loaded.NoCredentials? then SetPhase(SetStatus(s, g, LinkStatus(Unpaired, None)), g, Finishing)
      else SetPhase(SetStatus(s, g, LinkStatus(Connecting, None)), g, Serving)
    case ClientSays(g, message) => SetStatus(s, g, StatusFor(s.current, message))
    case ClientSends(g, what) =>
      if g != s.generation then s else s.(emitted := s.emitted + [Emission(g, s.generation, what)])
    case ClientEnds(g) => SetPhase(s, g, Finishing)
    case Finalize(g) => SetPhase(s, g, Settled).(active := if s.active == Some(g) then None else s.active)
    case ReportFailure(g) => SetStatus(s, g, LinkStatus(Dropped, Some("link restart failed")))
  }

  const NEW := State(0, None, {}, LinkStatus(Connecting, None), map[], map[], [])

  // ---------------------------------------------------------------- the invariant

  ghost predicate Inv(s: State) {
    && (forall g :: g in s.runs ==> g <= s.generation)
    && (forall g :: g in s.calls ==> g <= s.generation && g !in s.runs)
    && (forall g: nat :: Live(s, g) ==> s.active == Some(g))
    && (s.active.Some? ==> Live(s, s.active.value))
    && (s.generation in s.calls ==> forall g: nat :: Live(s, g) ==> s.calls[s.generation] == Some(g))
    && (forall g :: g in s.calls && s.calls[g].Some? ==> s.calls[g].value in s.runs && s.calls[g].value in s.aborted)
    && (forall i :: 0 <= i < |s.emitted| ==> s.emitted[i].from == s.emitted[i].at)
  }

  lemma StepKeepsInv(s: State, e: Event)
    requires Inv(s) && Enabled(s, e)
    ensures Inv(Apply(s, e))
  {
  }

  ghost predicate RunFrom(s: State, events: seq<Event>)
    decreases |events|
  {
    events == [] || (Enabled(s, events[0]) && RunFrom(Apply(s, events[0]), events[1..]))
  }

  ghost function After(s: State, events: seq<Event>): State
    requires RunFrom(s, events)
    decreases |events|
  {
    if events == [] then s else After(Apply(s, events[0]), events[1..])
  }

  lemma {:induction false} RunKeepsInv(s: State, events: seq<Event>)
    requires Inv(s) && RunFrom(s, events)
    ensures Inv(After(s, events))
    decreases |events|
  {
    if events != [] {
      StepKeepsInv(s, events[0]);
      RunKeepsInv(Apply(s, events[0]), events[1..]);
    }
  }

  /** Under every interleaving at most one run loop is live, it is the one `active` names, and everything ever
      emitted came from the run whose generation was current. */
  lemma OneLiveLink(events: seq<Event>)
    requires RunFrom(NEW, events)
    ensures var s := After(NEW, events);
      && (forall g: nat, h: nat :: Live(s, g) && Live(s, h) ==> g == h)
      && (forall g: nat :: Live(s, g) ==> s.active == Some(g))
      && (forall i :: 0 <= i < |s.emitted| ==> s.emitted[i].from == s.emitted[i].at)
  {
    RunKeepsInv(NEW, events);
  }

  /** The generations a list of events uses up and, if no stop came after it, that of the newest call. */
  function Track(generation: nat, newest: Option<nat>, events: seq<Event>): (nat, Option<nat>)
    decreases |events|
  {
    if events == [] then (generation, newest)
    else match events[0]
         case Call => Track(generation + 1, Some(generation + 1), events[1..])
         case Stop => Track(generation + 1, None, events[1..])
         case _ => Track(generation, newest, events[1..])
  }

  /** Only the newest call, if it was not stopped, can have the current generation. */
  ghost predicate KnowsNewest(s: State, newest: Option<nat>) {
    s.generation in s.calls || s.generation in s.runs ==> newest == Some(s.generation)
  }

  lemma {:induction false} RunTracks(s: State, newest: Option<nat>, events: seq<Event>)
    requires Inv(s) && KnowsNewest(s, newest) && RunFrom(s, events)
    ensures var (g, n) := Track(s.generation, newest, events);
      After(s, events).generation == g && KnowsNewest(After(s, events), n)
    decreases |events|
  {
    if events != [] {
      StepKeepsInv(s, events[0]);
      var t := Apply(s, events[0]);
      var next := if events[0].Call? then Some(s.generation + 1) else if events[0].Stop? then None else newest;
      assert KnowsNewest(t, next);
      RunTracks(t, next, events[1..]);
    }
  }

  /** Whatever is emitted comes from the run of the newest call to start or restart, and from no run after a stop. */
  lemma EmitsForTheNewestCall(events: seq<Event>, e: Event)
    requires RunFrom(NEW, events) && Enabled(After(NEW, events), e)
    ensures var s := After(NEW, events); var t := Apply(s, e);
      || t.emitted == s.emitted
      || (|t.emitted| == |s.emitted| + 1 && s.emitted <= t.emitted
          && Track(0, None, events).1 == Some(t.emitted[|s.emitted|].from))
  {
    RunKeepsInv(NEW, events);
    RunTracks(NEW, None, events);
  }

  /** A call that is no longer the newest never launches a run, whatever happens later: of overlapping calls only
      the last can. */
  lemma {:induction false} SupersededNeverLaunches(s: State, events: seq<Event>, g: nat)
    requires Inv(s) && RunFrom(s, events) && g < s.generation && g !in s.runs
    ensures g !in After(s, events).runs
    decreases |events|
  {
    if events != [] {
      StepKeepsInv(s, events[0]);
      SupersededNeverLaunches(Apply(s, events[0]), events[1..], g);
    }
  }

  /** After stop nothing launches until the next start or restart. */
  lemma NothingLaunchesAfterStop(s: State, events: seq<Event>)
    requires Inv(s) && RunFrom(Apply(s, Stop), events)
    requires forall i :: 0 <= i < |events| ==> !events[i].Call?
    ensures After(Apply(s, Stop), events).runs.Keys == s.runs.Keys
    ensures |After(Apply(s, Stop), events).emitted| == |s.emitted|
  {
    StepKeepsInv(s, Stop);
    QuietUntilCall(Apply(s, Stop), events);
  }

  lemma {:induction false} QuietUntilCall(s: State, events: seq<Event>)
    requires Inv(s) && RunFrom(s, events) && s.generation !in s.calls && s.generation !in s.runs
    requires forall i :: 0 <= i < |events| ==> !events[i].Call?
    ensures After(s, events).runs.Keys == s.runs.Keys && After(s, events).emitted == s.emitted
    decreases |events|
  {
    if events != [] {
      var t := Apply(s, events[0]);
      StepKeepsInv(s, events[0]);
      assert t.runs.Keys == s.runs.Keys && t.emitted == s.emitted;
      QuietUntilCall(t, events[1..]);
    }
  }

  /** The newest call does launch, as soon as the run it waits for has settled; until then that run's signal is
      aborted. */
  lemma NewestLaunches(events: seq<Event>, g: nat)
    requires RunFrom(NEW, events)
    requires var s := After(NEW, events); g == s.generation && g in s.calls
    ensures var s := After(NEW, events);
      && (forall h: nat :: Live(s, h) ==> s.calls[g] == Some(h) && h in s.aborted)
      && ((forall h: nat :: !Live(s, h)) ==> Enabled(s, Resume(g)) && InPhase(Apply(s, Resume(g)), g, Loading))
  {
    RunKeepsInv(NEW, events);
  }

  /** How many events of its own a run still needs. */
  function Remaining(p: Phase): nat {
    match p
    case Loading => 3
    case Serving => 2
    case Finishing => 1
    case Settled => 0
  }

  /** Any live run can go on to its end by its own events alone, in at most three of them, and then lets the newest call
      launch: nothing gets stuck behind it. A run still loading may find its credentials. */
  lemma {:induction false} LiveRunSettles(s: State, g: nat) returns (events: seq<Event>)
    requires Inv(s) && Live(s, g)
    ensures RunFrom(s, events) && |events| <= Remaining(s.runs[g]) <= 3
    ensures forall e :: e in events ==> e == Load(g, Credentials) || e == ClientEnds(g) || e == Finalize(g)
    ensures var t := After(s, events);
      && InPhase(t, g, Settled) && t.active.None? && t.generation == s.generation && t.calls == s.calls
      && (s.generation in s.calls ==> Enabled(t, Resume(s.generation)))
    decreases Remaining(s.runs[g])
  {
    var e := OwnEvent(s, g);
    OwnEventWorks(s, g);
    StepKeepsInv(s, e);
    var rest := [];
    if InPhase(s, g, Finishing) {
      assert RunFrom(Apply(s, e), []) && After(Apply(s, e), []) == Apply(s, e);
    } else {
      rest := LiveRunSettles(Apply(s, e), g);
    }
    Cons(s, e, rest);
    events := [e] + rest;
  }

  function OwnEvent(s: State, g: nat): Event
    requires Live(s, g)
  {
    match s.runs[g]
    case Loading => Load(g, Credentials)
    case Serving => ClientEnds(g)
    case _ => Finalize(g)
  }

  lemma OwnEventWorks(s: State, g: nat)
    requires Inv(s) && Live(s, g)
    ensures Enabled(s, OwnEvent(s, g))
    ensures var t := Apply(s, OwnEvent(s, g));
      && t.generation == s.generation && t.calls == s.calls && g in t.runs && Remaining(t.runs[g]) < Remaining(s.runs[g])
      && (InPhase(s, g, Finishing) ==> t.active.None? && (s.generation in s.calls ==> Enabled(t, Resume(s.generation))))
      && (!InPhase(s, g, Finishing) ==> Live(t, g))
  {
  }

  lemma Cons(s: State, e: Event, rest: seq<Event>)
    requires Enabled(s, e) && RunFrom(Apply(s, e), rest)
    ensures RunFrom(s, [e] + rest) && After(s, [e] + rest) == After(Apply(s, e), rest)
  {
    assert ([e] + rest)[1..] == rest;
  }

  /** A client that serves may say and send whatever it likes, and nothing is heard of one before. */
  lemma ClientsSpeakOnceServing(s: State, g: nat, message: string, text: string)
    ensures InPhase(s, g, Serving) ==> Enabled(s, ClientSays(g, message)) && Enabled(s, ClientSends(g, Chunk(text)))
    ensures g !in s.runs || InPhase(s, g, Loading) ==> !Enabled(s, ClientSays(g, message)) && !Enabled(s, ClientSends(g, Chunk(text)))
  {
  }

  /** The status emitted last, or the initial one. */
  function LastStatus(emitted: seq<Emission>): LinkStatus {
    if emitted == [] then LinkStatus(Connecting, None)
    else if emitted[|emitted| - 1].what.Status? then emitted[|emitted| - 1].what.status
    else LastStatus(emitted[..|emitted| - 1])
  }

  /** The manager's status is the one its listeners saw last, and only a run with credentials has put anything out. */
  ghost predicate Shown(s: State) {
    && s.current == LastStatus(s.emitted)
    && forall i :: 0 <= i < |s.emitted| && !s.emitted[i].what.Status? ==>
         s.emitted[i].from in s.runs && s.runs[s.emitted[i].from] != Loading
  }

  lemma StepKeepsShown(s: State, e: Event)
    requires Inv(s) && Shown(s) && Enabled(s, e)
    ensures Shown(Apply(s, e))
  {
    var t := Apply(s, e);
    EmitsAtMostOne(s, e);
    if t.emitted != s.emitted { StatusGrows(s.emitted, t.emitted[|s.emitted|]); }
    assert forall g :: g in s.runs && s.runs[g] != Loading ==> g in t.runs && t.runs[g] != Loading;
  }

  lemma StatusGrows(emitted: seq<Emission>, x: Emission)
    ensures LastStatus(emitted + [x]) == if x.what.Status? then x.what.status else LastStatus(emitted)
  {
    assert (emitted + [x])[..|emitted|] == emitted;
  }

  lemma EmitsAtMostOne(s: State, e: Event)
    requires Enabled(s, e)
    ensures var t := Apply(s, e);
      t.emitted == s.emitted || (|t.emitted| == |s.emitted| + 1 && t.emitted == s.emitted + [t.emitted[|s.emitted|]])
  {
  }

  lemma {:induction false} RunKeepsShown(s: State, events: seq<Event>)
    requires Inv(s) && Shown(s) && RunFrom(s, events)
    ensures Shown(After(s, events))
    decreases |events|
  {
    if events != [] {
      StepKeepsInv(s, events[0]);
      StepKeepsShown(s, events[0]);
      RunKeepsShown(Apply(s, events[0]), events[1..]);
    }
  }

  lemma ShownIsEmitted(events: seq<Event>)
    requires RunFrom(NEW, events)
    ensures Shown(After(NEW, events))
  {
    RunKeepsShown(NEW, events);
  }

  // ---------------------------------------------------------------- the manager object

  class Manager {
    var generation: nat
    var active: Option<nat>
    var aborted: set<nat>
    var current: LinkStatus
    var runs: map<nat, Phase>
    var calls: map<nat, Option<nat>>
    var emitted: seq<Emission>

    ghost function View(): State
      reads this
    {
      State(generation, active, aborted, current, runs, calls, emitted)
    }

    constructor ()
      ensures View() == NEW
    {
      generation, active, aborted, current := 0, None, {}, LinkStatus(Connecting, None);
      runs, calls, emitted := map[], map[], [];
    }

    method PublishStatus(runGeneration: nat, status: LinkStatus)
      modifies this`current, this`emitted
      ensures View() == SetStatus(old(View()), runGeneration, status)
    {
      if runGeneration != generation { return; }
      current := status;
      emitted := emitted + [Emission(runGeneration, generation, Status(status))];
    }

    /** Both start and restart, up to their await: the new generation supersedes every earlier call. */
    method BeginCall() returns (runGeneration: nat)
      modifies this
      ensures View() == Apply(old(View()), Call) && runGeneration == generation
    {
      generation := generation + 1;
      runGeneration := generation;
      var previous := active;
      calls := calls[runGeneration := previous];
      if previous.Some? { aborted := aborted + {previous.value}; }
    }

    /** The rest of a call once the run it waited for has settled. */
    method EndCall(runGeneration: nat)
      requires Enabled(View(), Resume(runGeneration))
      modifies this
      ensures View() == Apply(old(View()), Resume(runGeneration))
    {
      calls := calls - {runGeneration};
      if runGeneration != generation { return; }
      runs := runs[runGeneration := Loading];
      active := Some(runGeneration);
    }

    method StopLink()
      modifies this
      ensures View() == Apply(old(View()), Stop)
    {
      generation := generation + 1;
      if active.Some? { aborted := aborted + {active.value}; }
    }

    /** The run loop after its credentials arrived. */
    method CredentialsLoaded(runGeneration: nat, loaded: Loaded)
      requires Enabled(View(), Load(runGeneration, loaded))
      modifies this
      ensures View() == Apply(old(View()), Load(runGeneration, loaded))
    {
      if loaded.LoadFails? || runGeneration != generation {
        runs := runs[runGeneration := Finishing];
        return;
      }
      if loaded.NoCredentials? {
        PublishStatus(runGeneration, LinkStatus(Unpaired, None));
        runs := runs[runGeneration := Finishing];
        return;
      }
      PublishStatus(runGeneration, LinkStatus(Connecting, None));
      runs := runs[runGeneration := Serving];
    }

    method OnClientStatus(runGeneration: nat, message: string)
      requires Enabled(View(), ClientSays(runGeneration, message))
      modifies this
      ensures View() == Apply(old(View()), ClientSays(runGeneration, message))
      ensures runGeneration == old(generation) ==>
        && (message == "linked" ==> current == LinkStatus(Linked, None))
        && ("link dropped" <= message ==> current == LinkStatus(Dropped, Some(message)))
        && (message != "linked" && !("link dropped" <= message) ==> current == LinkStatus(old(current).state, Some(message)))
        && emitted == old(emitted) + [Emission(runGeneration, runGeneration, Status(current))]
      ensures runGeneration != old(generation) ==> current == old(current) && emitted == old(emitted)
    {
      if runGeneration != generation { return; }
      if message == "linked" {
        PublishStatus(runGeneration, LinkStatus(Linked, None));
        return;
      }
      if IsDrop(message) {
        PublishStatus(runGeneration, LinkStatus(Dropped, Some(message)));
        return;
      }
      PublishStatus(runGeneration, current.(message := Some(message)));
    }

    method OnClientOutput(runGeneration: nat, what: Emitted)
      requires Enabled(View(), ClientSends(runGeneration, what))
      modifies this
      ensures View() == Apply(old(View()), ClientSends(runGeneration, what))
    {
      if runGeneration == generation {
        emitted := emitted + [Emission(runGeneration, generation, what)];
      }
    }

    method RunEnds(runGeneration: nat)
      requires Enabled(View(), ClientEnds(runGeneration))
      modifies this
      ensures View() == Apply(old(View()), ClientEnds(runGeneration))
    {
      runs := runs[runGeneration := Finishing];
    }

    method RunSettles(runGeneration: nat)
      requires Enabled(View(), Finalize(runGeneration))
      modifies this
      ensures View() == Apply(old(View()), Finalize(runGeneration))
    {
      runs := runs[runGeneration := Settled];
      if active == Some(runGeneration) { active := None; }
    }

    method RestartFailed(runGeneration: nat)
      requires Enabled(View(), ReportFailure(runGeneration))
      modifies this
      ensures View() == Apply(old(View()), ReportFailure(runGeneration))
    {
      PublishStatus(runGeneration, LinkStatus(Dropped, Some("link restart failed")));
    }
  }
}
