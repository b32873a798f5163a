/** src/lib/delivery/outbox.ts */
module OutboxRuns {
  // Every interleaving of any number of outbox workers over one store file, with crashes, stolen leases,
  // transactions that fail before or after writing, and renewals that land late.
  //
  // A worker may have several `#drain` calls in progress. Nothing here assumes that only one of them
  // delivers at a time: that is proved from the waiting protocol, and fencing rests on it.

  import opened Wrappers
  import opened CanonicalJson
  import opened Outbox

  type DrainId = nat

  /** Where one `#drain` call is. */
  datatype Phase =
    | Waiting                                              // awaiting the drain in progress
    | Looping                                              // in #runDrain, about to claim
    | Handling(seen: Record)                               // the handler runs on the record it was given
    | Settling(seen: Record, outcome: Outcome, at: Time)   // settlement waits for the store
    | Unwinding                                            // #runDrain settled, `finally` not yet run
  {
    predicate Delivering() { !Waiting? }
    predicate Holds() { Handling? || Settling? }
  }

  datatype Renewal = Renewal(key: Key, at: Time)

  /** `issued` holds every renewal started so far; each may reach the store at any later moment. */
  datatype Worker = Worker(config: ValidConfig, draining: Option<DrainId>, drains: map<DrainId, Phase>, issued: set<Renewal>)

  /** What was accepted into the store for one key. A settlement is stamped with the attempt number and the
      progress its own handler was started with, not with those of the record it is written to. */
  datatype Event =
    | Claimed(worker: WorkerId, attempt: nat, at: Time, reclaim: bool)
    | Settled(worker: WorkerId, config: ValidConfig, attempt: nat, at: Time, outcome: Outcome, saw: Option<Json>)

  datatype System = System(records: Store, workers: map<WorkerId, Worker>, used: set<WorkerId>, log: map<Key, seq<Event>>)

  datatype Step =
    | Spawn(w: WorkerId, config: ValidConfig)
    | Crash(w: WorkerId)
    | Add(key: Key, kind: string, payload: Json, payloadHash: string, at: Time)
    | Arrive(w: WorkerId, d: DrainId)
    | Wake(w: WorkerId, d: DrainId)
    | ClaimOne(w: WorkerId, d: DrainId, key: Key, at: Time, reported: bool)
    | StopLooping(w: WorkerId, d: DrainId)
    | Return(w: WorkerId, d: DrainId, outcome: Outcome, at: Time)
    | Settle(w: WorkerId, d: DrainId, committed: bool, next: Phase)
    | Tick(w: WorkerId, d: DrainId, at: Time)
    | Land(w: WorkerId, renewal: Renewal)
    | Leave(w: WorkerId, d: DrainId)

  predicate InPhase(s: System, w: WorkerId, d: DrainId) {
    w in s.workers && d in s.workers[w].drains
  }

  function PhaseOf(s: System, w: WorkerId, d: DrainId): Phase
    requires InPhase(s, w, d)
  {
    s.workers[w].drains[d]
  }

  function Put(s: System, w: WorkerId, d: DrainId, p: Phase): System
    requires w in s.workers
  {
    s.(workers := s.workers[w := s.workers[w].(drains := s.workers[w].drains[d := p])])
  }

  /** Where a settlement can go: on to the next claim, to the error settlement when the success settlement
      threw, or out of the drain when the error settlement threw. A throwing transaction may have written. */
  predicate SettleNext(p: Phase, committed: bool, next: Phase)
    requires p.Settling?
  {
    || (committed && next.Looping?)
    || (p.outcome.Returned? && next.Settling? && next.seen == p.seen && next.outcome.Threw?)
    || (p.outcome.Threw? && next.Unwinding?)
  }

  predicate Enabled(s: System, step: Step) {
    match step
    case Spawn(w, _) => w !in s.used
    case Crash(w) => w in s.workers
    case Add(k, _, _, _, _) => k !in s.records
    case Arrive(w, d) => w in s.workers && d !in s.workers[w].drains
    case Wake(w, d) => InPhase(s, w, d) && PhaseOf(s, w, d).Waiting? && s.workers[w].draining.None?
    case ClaimOne(w, d, k, at, _) =>
      InPhase(s, w, d) && PhaseOf(s, w, d).Looping? && k in s.records && Due(s.records[k], at)
    case StopLooping(w, d) => InPhase(s, w, d) && PhaseOf(s, w, d).Looping?
    case Return(w, d, _, _) => InPhase(s, w, d) && PhaseOf(s, w, d).Handling?
    case Settle(w, d, committed, next) =>
      InPhase(s, w, d) && PhaseOf(s, w, d).Settling? && SettleNext(PhaseOf(s, w, d), committed, next)
    case Tick(w, d, _) => InPhase(s, w, d) && PhaseOf(s, w, d).Holds()
    case Land(w, r) => w in s.workers && r in s.workers[w].issued
    case Leave(w, d) => InPhase(s, w, d) && PhaseOf(s, w, d).Unwinding?
  }

  function Apply(s: System, step: Step): System
    requires Enabled(s, step)
  {
    match step
    case Spawn(w, c) => s.(workers := s.workers[w := Worker(c, None, map[], {})], used := s.used + {w})
    case Crash(w) => s.(workers := s.workers - {w})
    case Add(k, kind, payload, h, at) =>
      s.(records := s.records[k := NewRecord(k, kind, payload, h, at)], log := s.log[k := []])
    case Arrive(w, d) =>
      if s.workers[w].draining.Some? then Put(s, w, d, Waiting) else Start(s, w, d)
    case Wake(w, d) => Start(s, w, d)
    case ClaimOne(w, d, k, at, reported) => ApplyClaim(s, w, d, k, at, reported)
    case StopLooping(w, d) => Put(s, w, d, Unwinding)
    case Return(w, d, outcome, at) => Put(s, w, d, Settling(PhaseOf(s, w, d).seen, outcome, at))
    case Settle(w, d, committed, next) =>
      Put(if committed then ApplySettle(s, w, PhaseOf(s, w, d)) else s, w, d, next)
    case Tick(w, d, at) =>
      s.(workers := s.workers[w := s.workers[w].(issued := s.workers[w].issued + {Renewal(PhaseOf(s, w, d).seen.key, at)})])
    case Land(w, r) =>
      if r.key in s.records && Owned(s.records[r.key], w)
      then s.(records := s.records[r.key := RenewRecord(s.records[r.key], w, r.at, s.workers[w].config.claimLeaseMs)])
      else s
    case Leave(w, d) =>
      var k := s.workers[w];
      s.(workers := s.workers[w := k.(drains := k.drains - {d},
                                      draining := if k.draining == Some(d) then None else k.draining)])
  }

  function Start(s: System, w: WorkerId, d: DrainId): System
    requires w in s.workers
  {
    var t := Put(s, w, d, Looping);
    t.(workers := t.workers[w := t.workers[w].(draining := Some(d))])
  }

  function Events(s: System, k: Key): seq<Event> {
    if k in s.log then s.log[k] else []
  }

  function ApplyClaim(s: System, w: WorkerId, d: DrainId, k: Key, at: Time, reported: bool): System
    requires InPhase(s, w, d) && k in s.records
  {
    var r := s.records[k];
    var claimed := ClaimRecord(r, w, at, s.workers[w].config.claimLeaseMs);
    var e := Claimed(w, claimed.attempts, at, r.status == Processing);
    var t := s.(records := s.records[k := claimed], log := s.log[k := Events(s, k) + [e]]);
    Put(t, w, d, if reported then Handling(claimed) else Unwinding)
  }

  function ApplySettle(s: System, w: WorkerId, p: Phase): System
    requires w in s.workers && p.Settling?
  {
    var k := p.seen.key;
    if k in s.records && Owned(s.records[k], w) then
      var e := Settled(w, s.workers[w].config, p.seen.attempts, p.at, p.outcome, p.seen.progress);
      s.(records := s.records[k := SettleRecord(s.workers[w].config, s.records[k], p.outcome, p.at)],
         log := s.log[k := Events(s, k) + [e]])
    else s
  }

  const EMPTY := System(map[], map[], {}, map[])

  // ---------------------------------------------------------------- histories

  function Init(log: seq<Event>): seq<Event>
    requires log != []
  {
    log[..|log| - 1]
  }

  function Last(log: seq<Event>): Event
    requires log != []
  {
    log[|log| - 1]
  }

  function Claims(log: seq<Event>): nat {
    if log == [] then 0 else Claims(Init(log)) + if Last(log).Claimed? then 1 else 0
  }

  function Reclaims(log: seq<Event>): nat {
    if log == [] then 0 else Reclaims(Init(log)) + if Last(log).Claimed? && Last(log).reclaim then 1 else 0
  }

  function Outcomes(log: seq<Event>): nat {
    if log == [] then 0 else Outcomes(Init(log)) + if Last(log).Settled? then 1 else 0
  }

  predicate IsAmbiguous(o: Outcome) {
    o.Threw? && o.error.AmbiguousDelivery?
  }

  function Ambiguities(log: seq<Event>): nat {
    if log == [] then 0
    else Ambiguities(Init(log)) + if Last(log).Settled? && IsAmbiguous(Last(log).outcome) then 1 else 0
  }

  /** The progress one settlement leaves behind. */
  function Left(e: Event): Option<Json>
    requires e.Settled?
  {
    match e.outcome
    case Returned(Progress(p)) => Some(p)
    case Returned(Complete(_)) => None
    case Threw(_) => e.saw
  }

  function ProgressAfter(log: seq<Event>): Option<Json> {
    if log == [] then None
    else if Last(log).Claimed? then ProgressAfter(Init(log))
    else Left(Last(log))
  }

  /** The earliest claim time a settlement that keeps the record alive allows. */
  function NotBefore(e: Event): Time
    requires e.Settled?
  {
    match e.outcome
    case Returned(_) => e.at
    case Threw(error) => e.at + Max(RetryDelay(e.config, e.attempt), RetryAfter(error))
  }

  /** `e` may follow `log`: a claim gets the next attempt number and waits out the backoff; a settlement comes
      from the attempt of the claim right before it and its handler saw the progress then current. */
  ghost predicate Link(log: seq<Event>, e: Event) {
    match e
    case Claimed(_, attempt, at, reclaim) =>
      && attempt == Claims(log) + 1
      && (reclaim <==> log != [] && Last(log).Claimed?)
      && (log != [] && Last(log).Settled? ==> !Final(Last(log).outcome) && at >= NotBefore(Last(log)))
    case Settled(w, _, attempt, _, _, saw) =>
      && log != [] && Last(log).Claimed? && Last(log).worker == w && Last(log).attempt == attempt
      && saw == ProgressAfter(log)
  }

  ghost predicate Chain(log: seq<Event>) {
    log == [] || (Chain(Init(log)) && Link(Init(log), Last(log)))
  }

  /** The record is what its history says. */
  ghost predicate Tracks(r: Record, log: seq<Event>) {
    && Chain(log)
    && r.attempts == Claims(log)
    && r.ambiguity == Ambiguities(log)
    && r.progress == ProgressAfter(log)
    && (r.status == Processing <==> r.claim.Some?)
    && match r.status
       case Processing => log != [] && Last(log).Claimed? && Last(log).worker == r.claim.value.worker && Last(log).attempt == r.attempts
       case Pending => log != [] ==> Last(log).Settled? && !Final(Last(log).outcome) && r.nextAttemptAt == NotBefore(Last(log))
       case _ => log != [] && Last(log).Settled? && Final(Last(log).outcome)
  }

  /** An error waits for a retry: its class and the time that retry may come. */
  ghost predicate Retries(r: Record, cls: ErrorClass, from: Time) {
    r.status == Pending && r.lastError.Some? && r.lastError.value.cls == cls && r.nextAttemptAt == from
  }

  /** An error is the last: the record is failed. */
  ghost predicate GivesUp(r: Record, at: Time) {
    r.status == Failed && r.failedAt == Some(at) && r.lastError.Some? && r.lastError.value.cls == Permanent
  }

  /** What an attempt's outcome leaves of its record, outcome by outcome. */
  ghost predicate SettledAs(r: Record, c: ValidConfig, attempt: nat, at: Time, outcome: Outcome, saw: Option<Json>) {
    && r.claim == None && r.updatedAt == at && r.attempts == attempt
    && match outcome
       case Returned(Complete(result)) =>
         && r.status == Completed && r.completedAt == Some(at) && r.lastError == None
         && r.payload == Null && r.progress == None && (result.Some? ==> r.result == result)
       case Returned(Progress(p)) =>
         r.status == Pending && r.progress == Some(p) && r.lastError == None && r.nextAttemptAt == at
       case Threw(error) =>
         && r.progress == saw
         && r.lastError.Some? && r.lastError.value.message == error.message && r.lastError.value.at == at
         && match error
            case PermanentDelivery(_) => GivesUp(r, at)
            case SchemaViolation(_) => GivesUp(r, at)
            case AmbiguousDelivery(_) => Retries(r, Ambiguous, at + RetryDelay(c, attempt))
            case RetryAfterDelivery(_, wait) => Retries(r, Transient, at + Max(RetryDelay(c, attempt), wait))
            case OtherError(_) => Retries(r, Transient, at + RetryDelay(c, attempt))
  }

  /** What no settlement touches: the work itself, but for the payload of a completed record, and an earlier result. */
  ghost predicate SameWork(r: Record, t: Record) {
    && t.key == r.key && t.kind == r.kind && t.payloadHash == r.payloadHash && t.createdAt == r.createdAt
    && (t.status == Completed || (t.payload == r.payload && t.result == r.result && t.completedAt == r.completedAt))
    && (t.status == Failed || t.failedAt == r.failedAt)
    && (t.result.None? ==> r.result.None?)
  }

  /** The record as its last accepted event leaves it. */
  ghost predicate Stands(r: Record, log: seq<Event>) {
    if log == [] then
      && r.status == Pending && r.attempts == 0 && r.ambiguity == 0 && r.nextAttemptAt == r.updatedAt == r.createdAt
      && r.claim == None && r.lastError == None && r.progress == r.result == None && r.completedAt == r.failedAt == None
    else
      match Last(log)
      case Claimed(w, attempt, _, _) =>
        && r.status == Processing && r.attempts == attempt && r.claim.Some? && r.claim.value.worker == w
        && r.result == None && r.completedAt == None && r.failedAt == None
      case Settled(_, c, attempt, at, outcome, saw) =>
        && SettledAs(r, c, attempt, at, outcome, saw)
        && r.result == (if outcome.Returned? && outcome.value.Complete? then outcome.value.result else None)
        && (r.status != Completed ==> r.completedAt == None) && (r.status != Failed ==> r.failedAt == None)
  }

  lemma ExtendTracks(r: Record, log: seq<Event>, e: Event)
    requires Chain(log) && Link(log, e)
    ensures Chain(log + [e])
    ensures Claims(log + [e]) == Claims(log) + if e.Claimed? then 1 else 0
    ensures Ambiguities(log + [e]) == Ambiguities(log) + if e.Settled? && IsAmbiguous(e.outcome) then 1 else 0
    ensures ProgressAfter(log + [e]) == if e.Claimed? then ProgressAfter(log) else Left(e)
  {
    var l := log + [e];
    assert Init(l) == log && Last(l) == e;
  }

  // ---------------------------------------------------------------- the invariant

  /** Equal except for the lease: nothing a renewal writes. */
  predicate SameButLease(r: Record, seen: Record) {
    r.(claim := seen.claim, updatedAt := seen.updatedAt) == seen
  }

  /** One drain at a time: every call past its wait is the one the worker's `#draining` names. */
  ghost predicate OneDrain(k: Worker) {
    forall d :: d in k.drains && k.drains[d].Delivering() ==> k.draining == Some(d)
  }

  /** A worker that still owns the record it is working on owns it through the very attempt it works on. */
  ghost predicate SeenIsCurrent(records: Store, w: WorkerId, p: Phase)
    requires p.Holds()
  {
    var k := p.seen.key;
    k in records && records[k].attempts >= p.seen.attempts &&
    (Owned(records[k], w) ==> SameButLease(records[k], p.seen))
  }

  ghost predicate RecordOk(s: System, k: Key)
    requires k in s.records
  {
    && s.records[k].key == k
    && k in s.log && Tracks(s.records[k], s.log[k]) && Stands(s.records[k], s.log[k])
    && (s.records[k].claim.Some? ==> s.records[k].claim.value.worker in s.used)
  }

  ghost predicate WorkerOk(s: System, w: WorkerId)
    requires w in s.workers
  {
    && w in s.used
    && OneDrain(s.workers[w])
    && forall d :: d in s.workers[w].drains && s.workers[w].drains[d].Holds() ==>
         SeenIsCurrent(s.records, w, s.workers[w].drains[d])
  }

  ghost predicate Inv(s: System) {
    && (forall k :: k in s.records ==> RecordOk(s, k))
    && (forall k :: k in s.log ==> k in s.records)
    && (forall w :: w in s.workers ==> WorkerOk(s, w))
  }

  lemma StepKeepsRecords(s: System, step: Step)
    requires Inv(s) && Enabled(s, step)
    ensures forall k :: k in Apply(s, step).records ==> RecordOk(Apply(s, step), k)
    ensures forall k :: k in Apply(s, step).log ==> k in Apply(s, step).records
  {
    var t := Apply(s, step);
    forall k | k in t.records ensures RecordOk(t, k) {
      if step.ClaimOne? {
        ClaimKeepsRecord(s, step.w, step.d, step.key, step.at, step.reported);
        if k != step.key { assert RecordOk(s, k); }
      } else if step.Settle? && step.committed {
        SettleKeepsRecord(s, step.w, step.d);
        assert RecordOk(ApplySettle(s, step.w, PhaseOf(s, step.w, step.d)), k);
      } else {
        OtherStepKeepsRecord(s, step, k);
      }
    }
  }

  lemma OtherStepKeepsRecord(s: System, step: Step, k: Key)
    requires Inv(s) && Enabled(s, step) && !step.ClaimOne? && !(step.Settle? && step.committed) && k in Apply(s, step).records
    ensures RecordOk(Apply(s, step), k)
  {
    if k in s.records { assert RecordOk(s, k); }
  }

  lemma ClaimKeepsRecord(s: System, w: WorkerId, d: DrainId, k: Key, at: Time, reported: bool)
    requires Inv(s) && Enabled(s, ClaimOne(w, d, k, at, reported))
    ensures RecordOk(ApplyClaim(s, w, d, k, at, reported), k)
  {
    var r := s.records[k];
    assert RecordOk(s, k) && WorkerOk(s, w);
    var e := Claimed(w, r.attempts + 1, at, r.status == Processing);
    ExtendTracks(r, s.log[k], e);
    assert Last(s.log[k] + [e]) == e;
  }

  lemma SettleKeepsRecord(s: System, w: WorkerId, d: DrainId)
    requires Inv(s) && InPhase(s, w, d) && PhaseOf(s, w, d).Settling?
    ensures var t := ApplySettle(s, w, PhaseOf(s, w, d));
      forall k :: k in t.records ==> RecordOk(t, k)
  {
    var p := PhaseOf(s, w, d);
    var k := p.seen.key;
    assert WorkerOk(s, w) && SeenIsCurrent(s.records, w, p);
    assert RecordOk(s, k);
    if Owned(s.records[k], w) {
      var e := Settled(w, s.workers[w].config, p.seen.attempts, p.at, p.outcome, p.seen.progress);
      ExtendTracks(s.records[k], s.log[k], e);
      assert Last(s.log[k] + [e]) == e;
      SettleDoes(s.workers[w].config, s.records[k], p.outcome, p.at);
    }
    var t := ApplySettle(s, w, p);
    forall j | j in t.records ensures RecordOk(t, j) {
      assert RecordOk(s, j);
    }
  }

  /** The settlement transaction, outcome by outcome. */
  lemma SettleDoes(c: ValidConfig, r: Record, o: Outcome, at: Time)
    ensures SettledAs(SettleRecord(c, r, o, at), c, r.attempts, at, o, r.progress) && SameWork(r, SettleRecord(c, r, o, at))
  {
    DelayIsPositive(c, r.attempts);
  }

  lemma DelayIsPositive(c: ValidConfig, attempts: int)
    ensures RetryDelay(c, attempts) > 0
  {
    Scaled(c.retryBaseMs, 1, Pow2(Max(0, Min(20, attempts - 1))));
  }

  /** What one step can do to one record: nothing, a new claim by the stepping worker, a settlement that
      releases the claim, or a renewal of the claim it has. */
  ghost predicate Evolves(r: Record, t: Record, step: Step) {
    || t == r
    || (step.ClaimOne? && t.attempts > r.attempts && forall w :: Owned(t, w) ==> w == step.w)
    || (t.attempts == r.attempts && t.status != Processing)
    || (SameButLease(t, r) && forall w :: Owned(t, w) ==> Owned(r, w))
  }

  lemma RecordEvolves(s: System, step: Step, k: Key)
    requires Enabled(s, step) && k in s.records
    ensures k in Apply(s, step).records && Evolves(s.records[k], Apply(s, step).records[k], step)
  {
    var r, t := s.records[k], Apply(s, step).records[k];
    match step {
      case ClaimOne(w, d, key, at, reported) =>
      case Settle(w, d, committed, next) => Released(s, w, PhaseOf(s, w, d), k);
      case Land(w, renewal) =>
        assert t != r ==> SameButLease(t, r);
      case _ =>
    }
  }

  lemma Released(s: System, w: WorkerId, p: Phase, k: Key)
    requires w in s.workers && p.Settling? && k in s.records
    ensures var t := ApplySettle(s, w, p).records;
      k in t && (t[k] == s.records[k] || (t[k].attempts == s.records[k].attempts && t[k].status != Processing))
  {
  }

  lemma SeenSurvives(s: System, step: Step, w: WorkerId, p: Phase)
    requires Inv(s) && Enabled(s, step) && p.Holds() && SeenIsCurrent(s.records, w, p)
    requires step.ClaimOne? ==> step.w != w
    ensures SeenIsCurrent(Apply(s, step).records, w, p)
  {
    RecordEvolves(s, step, p.seen.key);
  }

  lemma StepKeepsWorkers(s: System, step: Step)
    requires Inv(s) && Enabled(s, step)
    ensures forall w :: w in Apply(s, step).workers ==> WorkerOk(Apply(s, step), w)
  {
    var t := Apply(s, step);
    forall w | w in t.workers ensures WorkerOk(t, w) {
      if w in s.workers {
        StepKeepsOneDrain(s, step, w);
        forall d | d in t.workers[w].drains && t.workers[w].drains[d].Holds()
          ensures SeenIsCurrent(t.records, w, t.workers[w].drains[d])
        {
          DrainKeepsSeen(s, step, w, d);
        }
      } else {
        NewWorker(s, step, w);
      }
    }
  }

  lemma StepKeepsOneDrain(s: System, step: Step, w: WorkerId)
    requires Inv(s) && Enabled(s, step) && w in s.workers && w in Apply(s, step).workers
    ensures w in Apply(s, step).used && OneDrain(Apply(s, step).workers[w])
  {
    assert WorkerOk(s, w);
    if step.Arrive? || step.Wake? || step.Leave? {
      DrainsComeAndGo(s, step, w);
    } else {
      DrainsGoOn(s, step, w);
    }
  }

  /** A drain passes its wait only when none is in progress. */
  lemma DrainsComeAndGo(s: System, step: Step, w: WorkerId)
    requires Enabled(s, step) && (step.Arrive? || step.Wake? || step.Leave?) && w in s.workers && OneDrain(s.workers[w])
    ensures OneDrain(Apply(s, step).workers[w])
  {
  }

  lemma DrainsGoOn(s: System, step: Step, w: WorkerId)
    requires Enabled(s, step) && !step.Arrive? && !step.Wake? && !step.Leave? && w in s.workers && w in Apply(s, step).workers
    requires OneDrain(s.workers[w])
    ensures OneDrain(Apply(s, step).workers[w])
  {
  }

  lemma NewWorker(s: System, step: Step, w: WorkerId)
    requires Enabled(s, step) && w !in s.workers && w in Apply(s, step).workers
    ensures WorkerOk(Apply(s, step), w)
  {
  }

  lemma DrainKeepsSeen(s: System, step: Step, w: WorkerId, d: DrainId)
    requires Inv(s) && Enabled(s, step) && w in s.workers
    requires InPhase(Apply(s, step), w, d) && PhaseOf(Apply(s, step), w, d).Holds()
    ensures SeenIsCurrent(Apply(s, step).records, w, PhaseOf(Apply(s, step), w, d))
  {
    assert WorkerOk(s, w);
    if step.ClaimOne? && step.w == w {
      ClaimerSees(s, step, d);
    } else {
      SameSeen(s, step, w, d);
      SeenSurvives(s, step, w, PhaseOf(s, w, d));
    }
  }

  /** Only the claiming call itself works on a record after a claim; the others of its worker wait. */
  lemma ClaimerSees(s: System, step: Step, d: DrainId)
    requires Inv(s) && Enabled(s, step) && step.ClaimOne?
    requires InPhase(Apply(s, step), step.w, d) && PhaseOf(Apply(s, step), step.w, d).Holds()
    ensures SeenIsCurrent(Apply(s, step).records, step.w, PhaseOf(Apply(s, step), step.w, d))
  {
    assert WorkerOk(s, step.w) && OneDrain(s.workers[step.w]);
    assert RecordOk(s, step.key);
    assert d == step.d;
  }

  lemma SameSeen(s: System, step: Step, w: WorkerId, d: DrainId)
    requires Enabled(s, step) && w in s.workers
    requires step.ClaimOne? ==> step.w != w
    requires InPhase(Apply(s, step), w, d) && PhaseOf(Apply(s, step), w, d).Holds()
    ensures InPhase(s, w, d) && PhaseOf(s, w, d).Holds()
    ensures PhaseOf(s, w, d).seen == PhaseOf(Apply(s, step), w, d).seen
  {
  }

  lemma StepKeepsInv(s: System, step: Step)
    requires Inv(s) && Enabled(s, step)
    ensures Inv(Apply(s, step))
  {
    StepKeepsRecords(s, step);
    StepKeepsWorkers(s, step);
  }

  // ---------------------------------------------------------------- runs

  ghost predicate RunFrom(s: System, steps: seq<Step>)
    decreases |steps|
  {
    steps == [] || (Enabled(s, steps[0]) && RunFrom(Apply(s, steps[0]), steps[1..]))
  }

  ghost function After(s: System, steps: seq<Step>): System
    requires RunFrom(s, steps)
    decreases |steps|
  {
    if steps == [] then s else After(Apply(s, steps[0]), steps[1..])
  }

  lemma {:induction false} RunKeepsInv(s: System, steps: seq<Step>)
    requires Inv(s) && RunFrom(s, steps)
    ensures Inv(After(s, steps))
    decreases |steps|
  {
    if steps != [] {
      StepKeepsInv(s, steps[0]);
      RunKeepsInv(Apply(s, steps[0]), steps[1..]);
    }
  }

  lemma ReachableInv(steps: seq<Step>)
    requires RunFrom(EMPTY, steps)
    ensures Inv(After(EMPTY, steps))
  {
    RunKeepsInv(EMPTY, steps);
  }

  // ---------------------------------------------------------------- fencing

  /** In every reachable state, for every settlement about to write: if it changes the store, the record's
      current claim was made by the very attempt whose handler produced the outcome, and that handler was
      started with exactly the progress the record still has. */
  lemma Fencing(steps: seq<Step>, w: WorkerId, d: DrainId, next: Phase)
    requires RunFrom(EMPTY, steps)
    requires Enabled(After(EMPTY, steps), Settle(w, d, true, next))
    ensures var s := After(EMPTY, steps);
      var seen := PhaseOf(s, w, d).seen;
      var t := Apply(s, Settle(w, d, true, next));
      t.records != s.records ==>
        && seen.key in s.records && SameButLease(s.records[seen.key], seen)
        && seen.key in s.log && s.log[seen.key] != [] && Last(s.log[seen.key]).Claimed?
        && Last(s.log[seen.key]).worker == w && Last(s.log[seen.key]).attempt == seen.attempts
        && t.records == s.records[seen.key := t.records[seen.key]]
  {
    ReachableInv(steps);
    var s := After(EMPTY, steps);
    assert WorkerOk(s, w);
    var p := PhaseOf(s, w, d);
    assert SeenIsCurrent(s.records, w, p);
    assert RecordOk(s, p.seen.key);
  }

  /** An attempt that is no longer the current one writes nothing. */
  lemma StaleAttemptsWriteNothing(steps: seq<Step>, w: WorkerId, d: DrainId, committed: bool, next: Phase)
    requires RunFrom(EMPTY, steps)
    requires var s := After(EMPTY, steps);
      Enabled(s, Settle(w, d, committed, next)) &&
      var seen := PhaseOf(s, w, d).seen;
      seen.key in s.records && s.records[seen.key].attempts != seen.attempts
    ensures Apply(After(EMPTY, steps), Settle(w, d, committed, next)).records == After(EMPTY, steps).records
  {
    if committed { Fencing(steps, w, d, next); }
  }

  /** At any moment each worker has at most one `#drain` call past its wait. */
  lemma OneDrainAtATime(steps: seq<Step>, w: WorkerId, d: DrainId, e: DrainId)
    requires RunFrom(EMPTY, steps)
    requires InPhase(After(EMPTY, steps), w, d) && PhaseOf(After(EMPTY, steps), w, d).Delivering()
    requires InPhase(After(EMPTY, steps), w, e) && PhaseOf(After(EMPTY, steps), w, e).Delivering()
    ensures d == e
  {
    ReachableInv(steps);
    assert WorkerOk(After(EMPTY, steps), w);
  }

  // Without one drain at a time the worker id would not fence. The state below has a second drain past its
  // wait while the first still runs attempt 1; its lease is over.

  function TwiceClaimable(c: ValidConfig): Record {
    ClaimRecord(NewRecord("k", "kind", Null, "h", 0), 0, 0, c.claimLeaseMs)
  }

  function TwoDrains(c: ValidConfig): System {
    System(map["k" := TwiceClaimable(c)],
           map[0 := Worker(c, Some(1), map[0 := Handling(TwiceClaimable(c)), 1 := Looping], {})],
           {0}, map["k" := [Claimed(0, 1, 0, false)]])
  }

  lemma {:induction false} ThreeSteps(s: System, a: Step, b: Step, e: Step)
    requires Enabled(s, a) && Enabled(Apply(s, a), b) && Enabled(Apply(Apply(s, a), b), e)
    ensures RunFrom(s, [a, b, e]) && After(s, [a, b, e]) == Apply(Apply(Apply(s, a), b), e)
  {
    var t, u := Apply(s, a), Apply(Apply(s, a), b);
    var v := Apply(u, e);
    assert RunFrom(v, []) && After(v, []) == v;
    assert [e][1..] == [];
    assert RunFrom(u, [e]) && After(u, [e]) == v;
    assert [b, e][1..] == [e];
    assert RunFrom(t, [b, e]) && After(t, [b, e]) == v;
    assert [a, b, e][1..] == [b, e];
  }

  lemma StaleSettlement(c: ValidConfig)
    ensures var a, b, e := ClaimOne(0, 1, "k", c.claimLeaseMs, true), Return(0, 0, Returned(Complete(None)), 0),
                           Settle(0, 0, true, Looping);
      var s := TwoDrains(c);
      && Enabled(s, a) && Enabled(Apply(s, a), b) && Enabled(Apply(Apply(s, a), b), e)
      && Apply(Apply(Apply(s, a), b), e).log["k"] ==
           [Claimed(0, 1, 0, false), Claimed(0, 2, c.claimLeaseMs, true),
            Settled(0, c, 1, 0, Returned(Complete(None)), None)]
  {
    var s := TwoDrains(c);
    var t := Apply(s, ClaimOne(0, 1, "k", c.claimLeaseMs, true));
    assert t.log["k"] == [Claimed(0, 1, 0, false), Claimed(0, 2, c.claimLeaseMs, true)];
    var u := Apply(t, Return(0, 0, Returned(Complete(None)), 0));
    assert Owned(u.records["k"], 0);
  }

  /** A stale attempt of the same worker settles the record that its own worker claimed again. */
  lemma SecondDrainWouldBreakFencing(c: ValidConfig) returns (steps: seq<Step>)
    ensures RecordOk(TwoDrains(c), "k")
    ensures RunFrom(TwoDrains(c), steps)
    ensures var log := Events(After(TwoDrains(c), steps), "k");
      |log| == 3 && log[1].Claimed? && log[2].Settled? && log[2].worker == log[1].worker && log[2].attempt < log[1].attempt
  {
    ExtendTracks(TwiceClaimable(c), [], Claimed(0, 1, 0, false));
    assert [] + [Claimed(0, 1, 0, false)] == [Claimed(0, 1, 0, false)];
    StaleSettlement(c);
    var a, b, e := ClaimOne(0, 1, "k", c.claimLeaseMs, true), Return(0, 0, Returned(Complete(None)), 0),
                   Settle(0, 0, true, Looping);
    ThreeSteps(TwoDrains(c), a, b, e);
    steps := [a, b, e];
  }

  // ---------------------------------------------------------------- histories of reachable states

  lemma {:induction false} LinkAt(log: seq<Event>, i: nat)
    requires Chain(log) && i < |log|
    ensures Chain(log[..i]) && Link(log[..i], log[i])
  {
    if i < |log| - 1 {
      LinkAt(Init(log), i);
      assert Init(log)[..i] == log[..i];
    } else {
      assert log[..i] == Init(log);
    }
  }

  /** Histories only grow, so what holds of every history holds of every outcome ever accepted. */
  lemma {:induction false} HistoriesGrow(s: System, steps: seq<Step>, k: Key)
    requires Inv(s) && RunFrom(s, steps) && k in s.log
    ensures k in After(s, steps).log && s.log[k] <= After(s, steps).log[k]
    decreases |steps|
  {
    if steps != [] {
      var t := Apply(s, steps[0]);
      assert RecordOk(s, k);
      assert k in t.log && s.log[k] <= t.log[k];
      StepKeepsInv(s, steps[0]);
      HistoriesGrow(t, steps[1..], k);
    }
  }

  /** Every accepted outcome directly follows the claim of the attempt that produced it. */
  lemma AcceptedByItsOwnClaim(steps: seq<Step>, k: Key, i: nat)
    requires RunFrom(EMPTY, steps) && k in After(EMPTY, steps).log
    requires i < |After(EMPTY, steps).log[k]| && After(EMPTY, steps).log[k][i].Settled?
    ensures var log := After(EMPTY, steps).log[k];
      i > 0 && log[i-1].Claimed? && log[i-1].worker == log[i].worker && log[i-1].attempt == log[i].attempt
  {
    ReachableInv(steps);
    var s := After(EMPTY, steps);
    assert RecordOk(s, k);
    LinkAt(s.log[k], i);
    assert Last(s.log[k][..i]) == s.log[k][i-1];
  }

  lemma {:induction false} ProgressSince(log: seq<Event>, i: nat)
    requires i < |log| && log[i].Settled?
    requires forall j :: i < j < |log| ==> log[j].Claimed?
    ensures ProgressAfter(log) == Left(log[i])
  {
    if i < |log| - 1 {
      ProgressSince(Init(log), i);
    }
  }

  lemma {:induction false} NoProgressYet(log: seq<Event>)
    requires forall j :: 0 <= j < |log| ==> log[j].Claimed?
    ensures ProgressAfter(log) == None
  {
    if log != [] { NoProgressYet(Init(log)); }
  }

  /** Linear history: each accepted outcome's handler saw exactly what the previous accepted one left. */
  lemma LinearHistory(steps: seq<Step>, k: Key, i: nat, j: nat)
    requires RunFrom(EMPTY, steps) && k in After(EMPTY, steps).log
    requires i < j < |After(EMPTY, steps).log[k]|
    requires After(EMPTY, steps).log[k][i].Settled? && After(EMPTY, steps).log[k][j].Settled?
    requires forall m :: i < m < j ==> After(EMPTY, steps).log[k][m].Claimed?
    ensures After(EMPTY, steps).log[k][j].saw == Left(After(EMPTY, steps).log[k][i])
  {
    ReachableInv(steps);
    var s := After(EMPTY, steps);
    assert RecordOk(s, k);
    LinkAt(s.log[k], j);
    ProgressSince(s.log[k][..j], i);
  }

  /** The first accepted outcome's handler saw no progress. */
  lemma HistoryStartsEmpty(steps: seq<Step>, k: Key, j: nat)
    requires RunFrom(EMPTY, steps) && k in After(EMPTY, steps).log
    requires j < |After(EMPTY, steps).log[k]| && After(EMPTY, steps).log[k][j].Settled?
    requires forall m :: 0 <= m < j ==> After(EMPTY, steps).log[k][m].Claimed?
    ensures After(EMPTY, steps).log[k][j].saw == None
  {
    ReachableInv(steps);
    var s := After(EMPTY, steps);
    assert RecordOk(s, k);
    LinkAt(s.log[k], j);
    NoProgressYet(s.log[k][..j]);
  }

  // ---------------------------------------------------------------- accounting

  lemma {:induction false} EveryClaimIsAccountedFor(log: seq<Event>)
    requires Chain(log)
    ensures Claims(log) == Outcomes(log) + Reclaims(log) + if log != [] && Last(log).Claimed? then 1 else 0
  {
    if log != [] { EveryClaimIsAccountedFor(Init(log)); }
  }

  /** In every reachable state: a claim is present exactly while processing, every attempt is accounted for,
      and the ambiguity counter counts the accepted ambiguous outcomes. */
  lemma Accounting(steps: seq<Step>, k: Key)
    requires RunFrom(EMPTY, steps) && k in After(EMPTY, steps).records
    ensures var s := After(EMPTY, steps);
      && k in s.log
      && (s.records[k].status == Processing <==> s.records[k].claim.Some?)
      && s.records[k].attempts == Outcomes(s.log[k]) + Reclaims(s.log[k]) + (if s.records[k].status == Processing then 1 else 0)
      && s.records[k].ambiguity == Ambiguities(s.log[k])
      && s.records[k].progress == ProgressAfter(s.log[k])
  {
    ReachableInv(steps);
    var s := After(EMPTY, steps);
    assert RecordOk(s, k);
    EveryClaimIsAccountedFor(s.log[k]);
  }

  lemma TerminalStep(s: System, step: Step, k: Key)
    requires Enabled(s, step) && k in s.records && k in s.log
    requires s.records[k].status == Completed || s.records[k].status == Failed
    ensures k in Apply(s, step).records && Apply(s, step).records[k] == s.records[k]
    ensures k in Apply(s, step).log && Apply(s, step).log[k] == s.log[k]
  {
    match step {
      case ClaimOne(w, d, key, at, reported) => assert key != k;
      case Settle(w, d, committed, next) => TerminalSettle(s, w, PhaseOf(s, w, d), k);
      case _ =>
    }
  }

  lemma TerminalSettle(s: System, w: WorkerId, p: Phase, k: Key)
    requires w in s.workers && p.Settling? && k in s.records && k in s.log
    requires s.records[k].status == Completed || s.records[k].status == Failed
    ensures var t := ApplySettle(s, w, p);
      k in t.records && t.records[k] == s.records[k] && k in t.log && t.log[k] == s.log[k]
  {
  }

  /** Completed and failed records never change again. */
  lemma {:induction false} SettledForGood(s: System, steps: seq<Step>, k: Key)
    requires Inv(s) && RunFrom(s, steps) && k in s.records
    requires s.records[k].status == Completed || s.records[k].status == Failed
    ensures k in After(s, steps).records && After(s, steps).records[k] == s.records[k]
    ensures k in s.log && k in After(s, steps).log && After(s, steps).log[k] == s.log[k]
    decreases |steps|
  {
    assert RecordOk(s, k);
    if steps != [] {
      StepKeepsInv(s, steps[0]);
      TerminalStep(s, steps[0], k);
      SettledForGood(Apply(s, steps[0]), steps[1..], k);
    }
  }

  /** At most one accepted outcome is final, and nothing follows it. */
  lemma NothingAfterFinal(steps: seq<Step>, k: Key, i: nat)
    requires RunFrom(EMPTY, steps) && k in After(EMPTY, steps).log
    requires i + 1 < |After(EMPTY, steps).log[k]| && After(EMPTY, steps).log[k][i].Settled?
    ensures !Final(After(EMPTY, steps).log[k][i].outcome)
  {
    ReachableInv(steps);
    var s := After(EMPTY, steps);
    assert RecordOk(s, k);
    var log := s.log[k];
    LinkAt(log, i + 1);
    assert Last(log[..i + 1]) == log[i];
  }

  /** Backoff: the claim after a failed n-th attempt reads a clock value no earlier than the settlement's plus
      the larger of the handler's own wait and the capped exponential delay. */
  lemma BackoffIsWaitedOut(steps: seq<Step>, k: Key, i: nat)
    requires RunFrom(EMPTY, steps) && k in After(EMPTY, steps).log
    requires i + 1 < |After(EMPTY, steps).log[k]|
    requires After(EMPTY, steps).log[k][i].Settled? && After(EMPTY, steps).log[k][i].outcome.Threw?
    ensures var log := After(EMPTY, steps).log[k];
      var e := log[i];
      && log[i + 1].Claimed? && !log[i + 1].reclaim && log[i + 1].attempt == e.attempt + 1
      && e.attempt >= 1
      && log[i + 1].at >= e.at + RetryAfter(e.outcome.error)
      && log[i + 1].at >= e.at + Min(e.config.retryMaxMs, e.config.retryBaseMs * Pow2(Min(20, e.attempt - 1)))
  {
    ReachableInv(steps);
    var s := After(EMPTY, steps);
    assert RecordOk(s, k);
    var log := s.log[k];
    LinkAt(log, i);
    LinkAt(log, i + 1);
    var before, upTo := log[..i], log[..i + 1];
    assert Init(upTo) == before && Last(upTo) == log[i];
    assert Last(before) == log[i - 1];
    AttemptNumber(before);
    assert log[i].attempt == Claims(before) == Claims(upTo);
  }

  /** The last claim carries the number of claims so far. */
  lemma AttemptNumber(log: seq<Event>)
    requires Chain(log) && log != [] && Last(log).Claimed?
    ensures Last(log).attempt == Claims(log) >= 1
  {
  }

  // ---------------------------------------------------------------- what an outcome leaves

  /** In every reachable state the last accepted event alone says what the record is: completed exactly after a
      handler returned completion, failed exactly after a permanent error or a schema violation, claimed exactly
      after a claim, and waiting otherwise; and `Stands` says what its other fields then are. */
  lemma LastEventDecides(steps: seq<Step>, k: Key)
    requires RunFrom(EMPTY, steps) && k in After(EMPTY, steps).records
    ensures var s := After(EMPTY, steps);
      && k in s.log && Stands(s.records[k], s.log[k])
      && var log, status := s.log[k], s.records[k].status;
      && (status == Completed <==>
            log != [] && Last(log).Settled? && Last(log).outcome.Returned? && Last(log).outcome.value.Complete?)
      && (status == Failed <==>
            (log != [] && Last(log).Settled? && Last(log).outcome.Threw?
             && (Last(log).outcome.error.PermanentDelivery? || Last(log).outcome.error.SchemaViolation?)))
      && (status == Processing <==> log != [] && Last(log).Claimed?)
  {
    ReachableInv(steps);
    assert RecordOk(After(EMPTY, steps), k);
  }

  /** The payload stays until the record is completed; key and creation time stay for good. */
  lemma {:induction false} RunKeepsPayload(s: System, steps: seq<Step>, k: Key)
    requires Inv(s) && RunFrom(s, steps) && k in s.records
    ensures k in After(s, steps).records
    ensures var r := After(s, steps).records[k];
      && r.key == s.records[k].key && r.createdAt == s.records[k].createdAt
      && (r.status != Completed ==> r.payload == s.records[k].payload)
    decreases |steps|
  {
    if steps != [] {
      var t := Apply(s, steps[0]);
      StepKeepsInv(s, steps[0]);
      StepKeepsPayload(s, steps[0], k);
      RunKeepsPayload(t, steps[1..], k);
      if t.records[k].status == Completed { SettledForGood(t, steps[1..], k); }
    }
  }

  lemma StepKeepsPayload(s: System, step: Step, k: Key)
    requires Enabled(s, step) && k in s.records
    ensures k in Apply(s, step).records && SameButSettled(s.records[k], Apply(s, step).records[k])
  {
    if step.Settle? { SettleKeepsPayload(s, step.w, PhaseOf(s, step.w, step.d), k); }
  }

  ghost predicate SameButSettled(r: Record, t: Record) {
    t.key == r.key && t.createdAt == r.createdAt && (t.status == Completed || t.payload == r.payload)
  }

  lemma SettleKeepsPayload(s: System, w: WorkerId, p: Phase, k: Key)
    requires w in s.workers && p.Settling? && k in s.records
    ensures var t := ApplySettle(s, w, p).records; k in t && SameButSettled(s.records[k], t[k])
  {
    if Owned(s.records[k], w) { SettleDoes(s.workers[w].config, s.records[k], p.outcome, p.at); }
  }

  // ---------------------------------------------------------------- whose time has come

  /** From when on the record can be claimed, if ever, by its last accepted event alone: a new one from its creation, a
      claimed one from the end of its lease, one that made progress at once, and a failed attempt's after the larger
      of the handler's own wait and the capped exponential delay. */
  function ClaimableFrom(r: Record, log: seq<Event>): Option<Time> {
    if log == [] then Some(r.createdAt)
    else
      match Last(log)
      case Claimed(_, _, _, _) => if r.claim.Some? then Some(r.claim.value.leaseUntil) else None
      case Settled(_, c, attempt, at, outcome, _) =>
        var delay := Min(c.retryMaxMs, c.retryBaseMs * Pow2(Max(0, Min(20, attempt - 1))));
        match outcome
        case Returned(Complete(_)) => None
        case Returned(Progress(_)) => Some(at)
        case Threw(PermanentDelivery(_)) => None
        case Threw(SchemaViolation(_)) => None
        case Threw(RetryAfterDelivery(_, wait)) => Some(if wait > delay then at + wait else at + delay)
        case Threw(_) => Some(at + delay)
  }

  /** In every reachable state a drain that is looping can claim a record exactly from that time on. */
  lemma ClaimableIff(steps: seq<Step>, w: WorkerId, d: DrainId, k: Key, at: Time, reported: bool)
    requires RunFrom(EMPTY, steps)
    requires InPhase(After(EMPTY, steps), w, d) && PhaseOf(After(EMPTY, steps), w, d).Looping? && k in After(EMPTY, steps).records
    ensures var s := After(EMPTY, steps);
      && k in s.log
      && var from := ClaimableFrom(s.records[k], s.log[k]);
      (Enabled(s, ClaimOne(w, d, k, at, reported)) <==> from.Some? && at >= from.value)
  {
    ReachableInv(steps);
    assert RecordOk(After(EMPTY, steps), k);
  }

  // ---------------------------------------------------------------- every delivery can finish

  lemma Cons(s: System, step: Step, rest: seq<Step>)
    requires Enabled(s, step) && RunFrom(Apply(s, step), rest)
    ensures RunFrom(s, [step] + rest) && After(s, [step] + rest) == After(Apply(s, step), rest)
  {
    assert ([step] + rest)[1..] == rest;
  }

  lemma {:induction false} FreshWorker(used: set<WorkerId>) returns (w: WorkerId)
    ensures forall u :: u in used ==> u < w
    decreases |used|
  {
    if used == {} {
      w := 0;
    } else {
      var u :| u in used;
      var below := FreshWorker(used - {u});
      w := if below <= u then u + 1 else below;
      assert forall v :: v in used ==> v == u || v in used - {u};
    }
  }

  /** A new worker starts its first drain. */
  lemma Starts(s: System, w: WorkerId, c: ValidConfig)
    requires Inv(s) && w !in s.used
    ensures Enabled(s, Spawn(w, c)) && Enabled(Apply(s, Spawn(w, c)), Arrive(w, 0))
    ensures var t := Apply(Apply(s, Spawn(w, c)), Arrive(w, 0));
      t.records == s.records && InPhase(t, w, 0) && PhaseOf(t, w, 0) == Looping && t.workers[w].config == c
  {
  }

  /** It claims the record and delivers it. */
  lemma Delivers(s: System, w: WorkerId, k: Key, at: Time) returns (steps: seq<Step>)
    requires InPhase(s, w, 0) && PhaseOf(s, w, 0) == Looping && k in s.records && s.records[k].key == k && Due(s.records[k], at)
    ensures RunFrom(s, steps) && k in After(s, steps).records && After(s, steps).records[k].status == Completed
  {
    var a, b, e := ClaimOne(w, 0, k, at, true), Return(w, 0, Returned(Complete(None)), at), Settle(w, 0, true, Looping);
    var t := Apply(Apply(s, a), b);
    assert PhaseOf(t, w, 0).Settling? && PhaseOf(t, w, 0).seen.key == k && Owned(t.records[k], w);
    SettleDoes(t.workers[w].config, t.records[k], Returned(Complete(None)), at);
    ThreeSteps(s, a, b, e);
    steps := [a, b, e];
  }

  /** What a drain past its wait does next to get to its end. */
  function NextOf(s: System, w: WorkerId, d: DrainId): Step
    requires InPhase(s, w, d)
  {
    match PhaseOf(s, w, d)
    case Handling(_) => Return(w, d, Returned(Complete(None)), 0)
    case Settling(_, outcome, _) => Settle(w, d, true, if outcome.Threw? then Unwinding else Looping)
    case Looping => StopLooping(w, d)
    case _ => Leave(w, d)
  }

  function Distance(p: Phase): nat {
    match p
    case Handling(_) => 4
    case Settling(_, _, _) => 3
    case Looping => 2
    case _ => 1
  }

  lemma NextWorks(s: System, w: WorkerId, d: DrainId)
    requires InPhase(s, w, d) && PhaseOf(s, w, d).Delivering()
    ensures Enabled(s, NextOf(s, w, d))
    ensures var t := Apply(s, NextOf(s, w, d));
      && w in t.workers
      && (forall e :: e in s.workers[w].drains && e != d ==>
            e in t.workers[w].drains && t.workers[w].drains[e] == s.workers[w].drains[e])
      && if PhaseOf(s, w, d).Unwinding?
         then d !in t.workers[w].drains && (s.workers[w].draining == Some(d) ==> t.workers[w].draining.None?)
         else InPhase(t, w, d) && PhaseOf(t, w, d).Delivering() && Distance(PhaseOf(t, w, d)) < Distance(PhaseOf(s, w, d))
  {
  }

  /** A drain past its wait can always end, whatever it is doing, and then those that wait for it can go on. */
  lemma {:induction false} DrainCanEnd(s: System, w: WorkerId, d: DrainId) returns (steps: seq<Step>)
    requires Inv(s) && InPhase(s, w, d) && PhaseOf(s, w, d).Delivering()
    ensures RunFrom(s, steps)
    ensures var t := After(s, steps);
      && w in t.workers && d !in t.workers[w].drains && t.workers[w].draining.None?
      && forall e :: e in s.workers[w].drains && s.workers[w].drains[e].Waiting? ==> Enabled(t, Wake(w, e))
    decreases Distance(PhaseOf(s, w, d))
  {
    var step := NextOf(s, w, d);
    assert WorkerOk(s, w);
    NextWorks(s, w, d);
    var t := Apply(s, step);
    var rest := [];
    if PhaseOf(s, w, d).Unwinding? {
      assert RunFrom(t, []) && After(t, []) == t;
    } else {
      StepKeepsInv(s, step);
      rest := DrainCanEnd(t, w, d);
    }
    Cons(s, step, rest);
    steps := [step] + rest;
  }

  /** So can one whose claim reached the store without an answer: its record waits for the end of the lease. */
  lemma UnansweredClaim(s: System, w: WorkerId, d: DrainId, k: Key, at: Time)
    requires Enabled(s, ClaimOne(w, d, k, at, false))
    ensures var t := Apply(s, ClaimOne(w, d, k, at, false));
      && Enabled(t, Leave(w, d)) && t.records[k].status == Processing
      && forall now :: Due(t.records[k], now) <==> now >= at + s.workers[w].config.claimLeaseMs
  {
  }

  /** Nothing gets stuck: from any state the workers can reach, even if one more of them crashes at once, a record that
      waits or is claimed can still be delivered and completed. */
  lemma DeliveryCanFinish(before: seq<Step>, k: Key, crash: Option<WorkerId>, c: ValidConfig) returns (steps: seq<Step>)
    requires RunFrom(EMPTY, before) && k in After(EMPTY, before).records
    requires After(EMPTY, before).records[k].status == Pending || After(EMPTY, before).records[k].status == Processing
    requires crash.Some? ==> crash.value in After(EMPTY, before).workers
    ensures RunFrom(After(EMPTY, before), steps)
    ensures crash.Some? ==> steps != [] && steps[0] == Crash(crash.value)
    ensures var t := After(After(EMPTY, before), steps); k in t.records && t.records[k].status == Completed
  {
    ReachableInv(before);
    var s := After(EMPTY, before);
    if crash.Some? {
      StepKeepsInv(s, Crash(crash.value));
      var rest := Recovers(Apply(s, Crash(crash.value)), k, c);
      Cons(s, Crash(crash.value), rest);
      steps := [Crash(crash.value)] + rest;
    } else {
      steps := Recovers(s, k, c);
    }
  }

  lemma Recovers(s: System, k: Key, c: ValidConfig) returns (steps: seq<Step>)
    requires Inv(s) && k in s.records && (s.records[k].status == Pending || s.records[k].status == Processing)
    ensures RunFrom(s, steps) && k in After(s, steps).records && After(s, steps).records[k].status == Completed
  {
    assert RecordOk(s, k);
    var w := FreshWorker(s.used);
    Starts(s, w, c);
    var t := Apply(s, Spawn(w, c));
    var at := if s.records[k].status == Pending then s.records[k].nextAttemptAt else s.records[k].claim.value.leaseUntil;
    var rest := Delivers(Apply(t, Arrive(w, 0)), w, k, at);
    Cons(t, Arrive(w, 0), rest);
    Cons(s, Spawn(w, c), [Arrive(w, 0)] + rest);
    steps := [Spawn(w, c)] + ([Arrive(w, 0)] + rest);
  }

  // ---------------------------------------------------------------- idempotent enqueue

  /** No step changes what work a record stands for. */
  lemma StepKeepsWork(s: System, step: Step, k: Key)
    requires Enabled(s, step) && k in s.records
    ensures k in Apply(s, step).records
    ensures Apply(s, step).records[k].kind == s.records[k].kind && Apply(s, step).records[k].payloadHash == s.records[k].payloadHash
  {
    if step.Settle? { SettleKeepsWork(s, step.w, PhaseOf(s, step.w, step.d), k); }
  }

  lemma SettleKeepsWork(s: System, w: WorkerId, p: Phase, k: Key)
    requires w in s.workers && p.Settling? && k in s.records
    ensures var t := ApplySettle(s, w, p).records;
      k in t && t[k].kind == s.records[k].kind && t[k].payloadHash == s.records[k].payloadHash
  {
  }

  lemma {:induction false} RunKeepsWork(s: System, steps: seq<Step>, k: Key)
    requires RunFrom(s, steps) && k in s.records
    ensures k in After(s, steps).records
    ensures var r := After(s, steps).records[k]; r.kind == s.records[k].kind && r.payloadHash == s.records[k].payloadHash
    decreases |steps|
  {
    if steps != [] {
      StepKeepsWork(s, steps[0], k);
      RunKeepsWork(Apply(s, steps[0]), steps[1..], k);
    }
  }

  /** Idempotency over runs: once work was added under a key, then at every later moment, whether the record waits, is
      claimed, retried, completed or failed, enqueueing under the key is accepted exactly for the same kind and the
      same payload value, hands the record back, and changes nothing. */
  lemma ReenqueueIsIdempotent(before: seq<Step>, after: seq<Step>, hash: Hash, rank: Collation, key: Key,
                              kind: string, payload: Json, at: Time, kind': string, payload': Json, now: Time)
    requires RunFrom(EMPTY, before) && key !in After(EMPTY, before).records
    requires var add := Add(key, kind, payload, PayloadHash(hash, rank, payload), at);
      RunFrom(Apply(After(EMPTY, before), add), after)
    requires WellFormed(payload) && WellFormed(payload') && TieFree(rank, payload)
    requires NoCollision(hash, Canonical(rank, payload), Canonical(rank, payload'))
    ensures var add := Add(key, kind, payload, PayloadHash(hash, rank, payload), at);
      var records := After(Apply(After(EMPTY, before), add), after).records;
      var (again, then') := EnqueueInto(records, hash, rank, key, kind', payload', now);
      && then' == records
      && (again.Ok? <==> kind == kind' && Meaning(payload) == Meaning(payload'))
      && (again.Ok? ==> key in records && again.value == records[key])
  {
    var s := Apply(After(EMPTY, before), Add(key, kind, payload, PayloadHash(hash, rank, payload), at));
    RunKeepsWork(s, after, key);
    ReenqueueAcceptsSameWork(After(s, after).records, hash, rank, key, kind, payload, kind', payload', now);
  }
}
