/** src/lib/delivery/outbox.ts */
module Outbox {
  // The durable delivery outbox: the records of its store file and what each transaction does to a record.
  // OutboxRuns composes the steps of many workers, OutboxWorker is the object whose methods take them.

  import opened Wrappers
  import opened CanonicalJson
  import Text

  type Key = string
  type WorkerId = nat
  type Time = int
  type Hash = string -> string

  const MAX_SAFE_INTEGER := 0x1f_ffff_ffff_ffff

  datatype ErrorClass = Transient | Ambiguous | Permanent
  datatype Status = Pending | Processing | Completed | Failed
  datatype Claim = Claim(worker: WorkerId, leaseUntil: Time)
  datatype DeliveryError = DeliveryError(cls: ErrorClass, message: string, at: Time)

  datatype Record = Record(
    key: Key,
    kind: string,
    payload: Json,
    payloadHash: string,
    status: Status,
    attempts: nat,
    createdAt: Time,
    updatedAt: Time,
    nextAttemptAt: Time,
    progress: Option<Json>,
    result: Option<Json>,
    lastError: Option<DeliveryError>,
    ambiguity: nat,
    claim: Option<Claim>,
    completedAt: Option<Time>,
    failedAt: Option<Time>)

  datatype Config = Config(retryBaseMs: int, retryMaxMs: int, claimLeaseMs: int, pollMaxMs: int) {
    predicate Valid() {
      && IsPositiveInteger(retryBaseMs) && IsPositiveInteger(retryMaxMs)
      && IsPositiveInteger(claimLeaseMs) && IsPositiveInteger(pollMaxMs)
      && retryBaseMs <= retryMaxMs
    }
  }

  type ValidConfig = c: Config | c.Valid() witness Config(1, 1, 1, 1)

  predicate IsPositiveInteger(n: int) { 0 < n <= MAX_SAFE_INTEGER }

  datatype Options = Options(
    retryBaseMs: Option<int>, retryMaxMs: Option<int>, claimLeaseMs: Option<int>, pollMaxMs: Option<int>)

  function OrDefault(o: Option<int>, n: int): (r: int)
    ensures o == Some(r) || (o == None && r == n)
  {
    if o.Some? then o.value else n
  }

  /** What the constructor makes of its options: a second, an hour, two minutes and half a minute unless told otherwise. */
  function Configure(o: Options): (r: Result<Config, string>)
    ensures var base, max := OrDefault(o.retryBaseMs, 1_000), OrDefault(o.retryMaxMs, 3_600_000);
      var lease, poll := OrDefault(o.claimLeaseMs, 120_000), OrDefault(o.pollMaxMs, 30_000);
      && (r.Ok? <==> 1 <= base <= max < 0x20_0000_0000_0000 && 1 <= lease < 0x20_0000_0000_0000 && 1 <= poll < 0x20_0000_0000_0000)
      && (r.Ok? ==> r.value == Config(base, max, lease, poll) && r.value.Valid())
  {
    var c := Config(OrDefault(o.retryBaseMs, 1_000), OrDefault(o.retryMaxMs, 60 * 60_000),
                    OrDefault(o.claimLeaseMs, 2 * 60_000), OrDefault(o.pollMaxMs, 30_000));
    if !IsPositiveInteger(c.retryBaseMs) then Err("outbox retryBaseMs must be a positive integer")
    else if !IsPositiveInteger(c.retryMaxMs) then Err("outbox retryMaxMs must be a positive integer")
    else if !IsPositiveInteger(c.claimLeaseMs) then Err("outbox claimLeaseMs must be a positive integer")
    else if !IsPositiveInteger(c.pollMaxMs) then Err("outbox pollMaxMs must be a positive integer")
    else if c.retryMaxMs < c.retryBaseMs then Err("outbox retryMaxMs must be at least retryBaseMs")
    else Ok(c)
  }

  // ---------------------------------------------------------------- what a handler does

  datatype StepResult = Complete(result: Option<Json>) | Progress(progress: Json)

  datatype Thrown =
    | PermanentDelivery(message: string)
    | AmbiguousDelivery(message: string)
    | RetryAfterDelivery(message: string, retryAfterMs: nat)
    | SchemaViolation(message: string)
    | OtherError(message: string)

  datatype Outcome = Returned(value: StepResult) | Threw(error: Thrown)

  function ClassifyError(e: Thrown): ErrorClass {
    match e
    case PermanentDelivery(_) => Permanent
    case AmbiguousDelivery(_) => Ambiguous
    case SchemaViolation(_) => Permanent
    case _ => Transient
  }

  function RetryAfter(e: Thrown): nat {
    if e.RetryAfterDelivery? then e.retryAfterMs else 0
  }

  /** The outcome ends the record's life. */
  predicate Final(o: Outcome) {
    (o.Returned? && o.value.Complete?) || (o.Threw? && (o.error.PermanentDelivery? || o.error.SchemaViolation?))
  }

  // ---------------------------------------------------------------- transactions on one record

  function Pow2(n: nat): (p: nat)
    ensures p >= 1
  {
    if n == 0 then 1 else 2 * Pow2(n - 1)
  }

  function Max(a: int, b: int): (m: int)
    ensures a <= m && b <= m && (m == a || m == b)
  {
    if a >= b then a else b
  }

  function Min(a: int, b: int): (m: int)
    ensures m <= a && m <= b && (m == a || m == b)
  {
    if a <= b then a else b
  }

  function RetryDelay(c: ValidConfig, attempts: int): int {
    var exponent := Max(0, Min(20, attempts - 1));
    Min(c.retryMaxMs, c.retryBaseMs * Pow2(exponent))
  }

  function NewRecord(key: Key, kind: string, payload: Json, payloadHash: string, now: Time): Record {
    Record(key, kind, payload, payloadHash, Pending, 0, now, now, now, None, None, None, 0, None, None, None)
  }

  /** A pending record whose time has come, or a claimed one whose lease ran out. */
  predicate Due(r: Record, now: Time) {
    match r.status
    case Pending => r.nextAttemptAt <= now
    case Processing => r.claim.Some? && r.claim.value.leaseUntil <= now
    case _ => false
  }

  function ClaimRecord(r: Record, w: WorkerId, now: Time, leaseMs: int): Record {
    r.(status := Processing, attempts := r.attempts + 1, updatedAt := now, claim := Some(Claim(w, now + leaseMs)))
  }

  /** The ownership test of every settlement and renewal: the worker id only, not the attempt. */
  predicate Owned(r: Record, w: WorkerId) {
    r.status == Processing && r.claim.Some? && r.claim.value.worker == w
  }

  function RenewRecord(r: Record, w: WorkerId, now: Time, leaseMs: int): Record {
    r.(updatedAt := now, claim := Some(Claim(w, now + leaseMs)))
  }

  function SettleRecord(c: ValidConfig, r: Record, o: Outcome, now: Time): Record {
    match o
    case Returned(Progress(p)) =>
      r.(status := Pending, progress := Some(p), updatedAt := now, nextAttemptAt := now,
         claim := None, lastError := None)
    case Returned(Complete(result)) =>
      r.(status := Completed, payload := Null, updatedAt := now, completedAt := Some(now),
         claim := None, lastError := None, progress := None,
         result := if result.Some? then result else r.result)
    case Threw(e) =>
      var cls := ClassifyError(e);
      var failure := DeliveryError(cls, e.message, now);
      if cls == Permanent then
        r.(status := Failed, updatedAt := now, failedAt := Some(now), claim := None, lastError := Some(failure))
      else
        r.(status := Pending, updatedAt := now,
           nextAttemptAt := now + Max(RetryDelay(c, r.attempts), RetryAfter(e)),
           claim := None, lastError := Some(failure),
           ambiguity := if cls == Ambiguous then r.ambiguity + 1 else r.ambiguity)
  }

  /** The first failure waits the base, each further one twice as long up to the configured maximum, and from the
      21st on the wait is the same. */
  lemma {:induction false} RetryDelayGrows(c: ValidConfig, m: nat, n: nat)
    requires 1 <= m <= n
    ensures c.retryBaseMs <= RetryDelay(c, m) <= RetryDelay(c, n) <= c.retryMaxMs
    ensures RetryDelay(c, 1) == c.retryBaseMs
    ensures n <= 20 ==> RetryDelay(c, n + 1) == Min(c.retryMaxMs, 2 * RetryDelay(c, n))
    ensures n >= 21 ==> RetryDelay(c, n) == RetryDelay(c, 21)
  {
    var a, b := Max(0, Min(20, m - 1)), Max(0, Min(20, n - 1));
    Pow2Grows(a, b);
    Scaled(c.retryBaseMs, 1, Pow2(a));
    Scaled(c.retryBaseMs, Pow2(a), Pow2(b));
    if n <= 20 { Doubled(c.retryBaseMs, n - 1); }
  }

  lemma Doubled(base: nat, n: nat)
    ensures base * Pow2(n + 1) == 2 * (base * Pow2(n))
  {
  }

  lemma Scaled(base: nat, p: nat, q: nat)
    requires p <= q
    ensures base * p <= base * q
  {
  }

  lemma {:induction false} Pow2Grows(a: nat, b: nat)
    requires a <= b
    ensures Pow2(a) <= Pow2(b)
  {
    if a < b { Pow2Grows(a, b - 1); }
  }

  // ---------------------------------------------------------------- choosing what to claim

  type Store = map<Key, Record>

  /** The record is one the claimer may take at all: the key asked for, and a kind it has a handler for. */
  predicate Wanted(r: Record, supported: set<string>, onlyKey: Option<Key>) {
    (onlyKey == None || onlyKey == Some(r.key)) && r.kind in supported
  }

  predicate Eligible(r: Record, now: Time, supported: set<string>, onlyKey: Option<Key>) {
    && (onlyKey.Some? ==> r.key == onlyKey.value)
    && r.kind in supported
    && Due(r, now)
  }

  /** The first eligible record with the least `nextAttemptAt`, in file order. */
  function Earliest(records: Store, order: seq<Key>, now: Time, supported: set<string>, onlyKey: Option<Key>): (k: Option<Key>)
    requires forall x :: x in order ==> x in records
    ensures k.Some? ==> k.value in order && Eligible(records[k.value], now, supported, onlyKey)
    ensures k.Some? ==> forall x :: x in order && Eligible(records[x], now, supported, onlyKey) ==>
      records[k.value].nextAttemptAt <= records[x].nextAttemptAt
    ensures k.None? ==> forall x :: x in order ==> !Eligible(records[x], now, supported, onlyKey)
    ensures k.Some? ==> Wanted(records[k.value], supported, onlyKey)
    ensures forall x :: x in order && Wanted(records[x], supported, onlyKey) ==>
      var r := records[x];
      (r.status == Pending && r.nextAttemptAt <= now)
      || (r.status == Processing && r.claim.Some? && r.claim.value.leaseUntil <= now) ==>
      k.Some? && records[k.value].nextAttemptAt <= r.nextAttemptAt
  {
    if order == [] then None
    else
      var rest := Earliest(records, order[1..], now, supported, onlyKey);
      if Eligible(records[order[0]], now, supported, onlyKey) &&
         (rest.None? || records[order[0]].nextAttemptAt <= records[rest.value].nextAttemptAt)
      then Some(order[0]) else rest
  }

  /** Ties go to the record that comes first in the file. */
  lemma {:induction false} EarliestBreaksTies(records: Store, order: seq<Key>, now: Time, supported: set<string>,
                                              onlyKey: Option<Key>, i: nat)
    requires forall x :: x in order ==> x in records
    requires i < |order| && Eligible(records[order[i]], now, supported, onlyKey)
    ensures var k := Earliest(records, order, now, supported, onlyKey);
      k.Some? && (records[order[i]].nextAttemptAt == records[k.value].nextAttemptAt ==> k.value in order[..i + 1])
  {
    if i > 0 {
      EarliestBreaksTies(records, order[1..], now, supported, onlyKey, i - 1);
      assert order[1..][..i] == order[1..i + 1];
      assert order[..i + 1] == [order[0]] + order[1..i + 1];
    }
  }

  // ---------------------------------------------------------------- enqueue

  function PayloadHash(hash: Hash, rank: Collation, payload: Json): string {
    hash(Canonical(rank, payload))
  }

  function EnqueueHashed(records: Store, key: Key, kind: string, payload: Json, payloadHash: string, now: Time)
    : (Result<Record, string>, Store)
  {
    if key in records then
      var existing := records[key];
      if existing.kind != kind || existing.payloadHash != payloadHash then
        (Err("outbox idempotency key was reused with different work"), records)
      else (Ok(existing), records)
    else
      var created := NewRecord(key, kind, payload, payloadHash, now);
      (Ok(created), records[key := created])
  }

  /** The enqueue transaction: the record handed back and the store after it. */
  function EnqueueInto(records: Store, hash: Hash, rank: Collation, key: Key, kind: string, payload: Json, now: Time)
    : (Result<Record, string>, Store)
  {
    EnqueueHashed(records, key, kind, payload, PayloadHash(hash, rank, payload), now)
  }

  /** The hash keeps these two payload texts apart. */
  ghost predicate NoCollision(hash: Hash, s: string, t: string) {
    hash(s) == hash(t) ==> s == t
  }

  /** Whatever has become of the record meanwhile, enqueueing under its key is accepted exactly for the kind and the
      payload value it was made with, hands the record back, and never changes the store. */
  lemma ReenqueueAcceptsSameWork(records: Store, hash: Hash, rank: Collation, key: Key,
                                 kind: string, payload: Json, kind': string, payload': Json, now: Time)
    requires key in records && records[key].kind == kind && records[key].payloadHash == PayloadHash(hash, rank, payload)
    requires WellFormed(payload) && WellFormed(payload') && TieFree(rank, payload)
    requires NoCollision(hash, Canonical(rank, payload), Canonical(rank, payload'))
    ensures var (again, after) := EnqueueInto(records, hash, rank, key, kind', payload', now);
      && after == records
      && (again.Ok? <==> kind == kind' && Meaning(payload) == Meaning(payload'))
      && (again.Ok? ==> again.value == records[key])
  {
    TextIsIdentity(rank, payload, payload');
  }

  // ---------------------------------------------------------------- renewals

  /** What a worker keeps of a running delivery. */
  datatype Active = Active(confirmedUntil: Time, aborted: bool)

  function RenewalPeriod(leaseMs: int): int {
    Max(1, leaseMs / 3)
  }

  /** What one renewal tick at `now` leaves of the running delivery's bookkeeping. */
  function AfterTick(a: Active, now: Time, renewed: bool, leaseMs: int): Active {
    if renewed then a.(confirmedUntil := now + leaseMs)
    else if now + RenewalPeriod(leaseMs) >= a.confirmedUntil then a.(aborted := true)
    else a
  }
}
