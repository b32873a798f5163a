/** src/lib/delivery/outbox.ts */
module OutboxWorker {
  // The outbox worker over its store file. Each method is the code between two awaits with the transaction it makes,
  // and moves the system of OutboxRuns by the steps it names.

  import opened Wrappers
  import opened CanonicalJson
  import opened Outbox
  import opened OutboxRuns
  import Lease
  import Text

  /** The shared store file, in the system of all workers. `order` is the order of its keys. */
  class OutboxFile {
    var order: seq<Key>
    var records: Store
    ghost var around: System

    ghost function View(): System
      reads this
    {
      around.(records := records)
    }

    ghost predicate Valid()
      reads this
    {
      && (forall k :: k in order <==> k in records)
      && (forall i, j :: 0 <= i < j < |order| ==> order[i] != order[j])
      && (forall k :: k in records ==> records[k].key == k)
    }

    constructor ()
      ensures Valid() && View() == EMPTY
    {
      order, records := [], map[];
      around := EMPTY;
    }

    method Append(k: Key, record: Record)
      requires Valid() && k !in records && record.key == k
      modifies this`order, this`records
      ensures Valid() && records == old(records)[k := record]
    {
      order := order + [k];
      records := records[k := record];
    }
  }

  // ---------------------------------------------------------------- one record and its lease

  /** The lease machine's holder is the record's claim. */
  ghost predicate ShowsClaim(l: Lease.State, records: Store, k: Key) {
    l.holder == if k in records && records[k].status == Processing then records[k].claim else None
  }

  /** The store after the ownership-checked settlement. */
  function AfterSettle(c: ValidConfig, records: Store, w: WorkerId, k: Key, outcome: Outcome, now: Time): Store {
    if k in records && Owned(records[k], w) then records[k := SettleRecord(c, records[k], outcome, now)] else records
  }

  /** The store after the ownership-checked renewal. */
  function AfterRenewal(leaseMs: int, records: Store, w: WorkerId, k: Key, now: Time): Store {
    if k in records && Owned(records[k], w) then records[k := RenewRecord(records[k], w, now, leaseMs)] else records
  }

  /** A settlement is a Settle of the lease machine. */
  lemma SettleShows(t: Lease.Timing, l: Lease.State, c: ValidConfig, records: Store, w: WorkerId, k: Key, outcome: Outcome, now: Time)
    requires ShowsClaim(l, records, k) && w in l.handlers
    ensures ShowsClaim(Lease.Apply(t, l, Lease.Settle(w)), AfterSettle(c, records, w, k, outcome, now), k)
  {
  }

  /** A renewal is a Tick of it. */
  lemma RenewShows(t: Lease.Timing, l: Lease.State, records: Store, w: WorkerId, k: Key)
    requires ShowsClaim(l, records, k) && w in l.handlers
    ensures ShowsClaim(Lease.Apply(t, l, Lease.Tick(w, true, true)), AfterRenewal(t.leaseMs, records, w, k, l.now), k)
    ensures Lease.IsHolder(l, w) <==> k in records && Owned(records[k], w)
  {
  }

  /** And a claim of a due record is a Take, where the worker has no delivery of it yet. */
  lemma ClaimShows(t: Lease.Timing, l: Lease.State, records: Store, w: WorkerId, k: Key)
    requires ShowsClaim(l, records, k) && w !in l.handlers && w !in l.claimed && k in records && Due(records[k], l.now)
    ensures Lease.Enabled(t, l, Lease.Take(w))
    ensures ShowsClaim(Lease.Apply(t, l, Lease.Take(w)), records[k := ClaimRecord(records[k], w, l.now, t.leaseMs)], k)
  {
  }

  /** The worker's claim on the record is the one in the store. */
  ghost predicate HoldsClaim(records: Store, w: WorkerId, k: Key) {
    k in records && records[k].status == Processing && records[k].claim.Some? && records[k].claim.value.worker == w
  }

  /** A settlement writes exactly while the worker's claim stands, and then to this record alone, as its outcome says. */
  ghost predicate Settlement(c: ValidConfig, before: Store, after: Store, w: WorkerId, k: Key, outcome: Outcome, now: Time) {
    if HoldsClaim(before, w, k) then
      && k in after && after == before[k := after[k]]
      && SettledAs(after[k], c, before[k].attempts, now, outcome, before[k].progress) && SameWork(before[k], after[k])
    else after == before
  }

  lemma AfterSettleIsSettlement(c: ValidConfig, records: Store, w: WorkerId, k: Key, outcome: Outcome, now: Time)
    ensures Settlement(c, records, AfterSettle(c, records, w, k, outcome, now), w, k, outcome, now)
  {
    if k in records { SettleDoes(c, records[k], outcome, now); }
  }

  // ---------------------------------------------------------------- what is claimed next

  /** Only wanted work whose time has come is claimed: the earliest there is, and some whenever there is some. */
  ghost predicate IsNext(w: WorkerId, leaseMs: int, before: Store, supported: set<string>, onlyKey: Option<Key>, now: Time,
                         claimed: Option<Record>)
  {
    && (claimed.Some? ==>
          && claimed.value.key in before
          && var r := before[claimed.value.key];
          && (onlyKey == None || onlyKey == Some(r.key)) && r.kind in supported
          && ((r.status == Pending && r.nextAttemptAt <= now) ||
              (r.status == Processing && r.claim.Some? && r.claim.value.leaseUntil <= now))
          && claimed.value == r.(status := Processing, attempts := r.attempts + 1, updatedAt := now,
                                 claim := Some(Claim(w, now + leaseMs))))
    && forall k :: k in before && Wanted(before[k], supported, onlyKey) ==>
         var r := before[k];
         (r.status == Pending && r.nextAttemptAt <= now)
         || (r.status == Processing && r.claim.Some? && r.claim.value.leaseUntil <= now) ==>
         claimed.Some? && claimed.value.nextAttemptAt <= r.nextAttemptAt
  }

  lemma EarliestIsNext(w: WorkerId, leaseMs: int, records: Store, order: seq<Key>, supported: set<string>, onlyKey: Option<Key>,
                       now: Time)
    requires (forall k :: k in order <==> k in records) && (forall k :: k in records ==> records[k].key == k)
    requires Earliest(records, order, now, supported, onlyKey).Some?
    ensures var k := Earliest(records, order, now, supported, onlyKey).value;
      IsNext(w, leaseMs, records, supported, onlyKey, now, Some(ClaimRecord(records[k], w, now, leaseMs)))
  {
  }

  lemma NothingIsNext(w: WorkerId, leaseMs: int, records: Store, order: seq<Key>, supported: set<string>, onlyKey: Option<Key>,
                      now: Time)
    requires forall k :: k in order <==> k in records
    requires supported == {} || Earliest(records, order, now, supported, onlyKey).None?
    ensures IsNext(w, leaseMs, records, supported, onlyKey, now, None)
  {
  }

  type Handler = nat

  class DurableOutbox {
    const workerId: WorkerId
    const config: ValidConfig
    const store: OutboxFile
    var handlers: map<string, Handler>
    var active: map<Key, Active>
    var renewing: set<Key>
    var running: bool
    var timer: bool
    var draining: Option<DrainId>

    /** This object is the worker of that id, and its `#draining` is the worker's. */
    ghost predicate Valid()
      reads this, store
    {
      && store.Valid()
      && workerId in store.View().workers
      && store.View().workers[workerId].config == config
      && store.View().workers[workerId].draining == draining
      && renewing <= active.Keys && (timer ==> running)
    }

    constructor (workerId: WorkerId, config: ValidConfig, store: OutboxFile)
      requires store.Valid() && Enabled(store.View(), Spawn(workerId, config))
      modifies store
      ensures Valid() && this.workerId == workerId && this.config == config && this.store == store
      ensures store.View() == Apply(old(store.View()), Spawn(workerId, config))
      ensures handlers == map[] && active == map[] && !running && !timer
    {
      this.workerId, this.config, this.store := workerId, config, store;
      handlers, active, renewing, running, timer, draining := map[], map[], {}, false, false, None;
      new;
      store.around := Apply(store.View(), Spawn(workerId, config));
    }

    /** `#wake`: a drain is due at once, if the worker runs. */
    method Wake()
      modifies this`timer
      ensures timer == (old(timer) || running)
    {
      if !running { return; }
      timer := true;
    }

    method Register(kind: string, handler: Handler) returns (r: Result<(), string>)
      modifies this`handlers, this`timer
      ensures var k := Text.Trim(kind);
        && (r.Ok? <==> k != "" && k !in old(handlers))
        && handlers == (if r.Ok? then old(handlers)[k := handler] else old(handlers))
        && timer == (old(timer) || (r.Ok? && running))
    {
      var normalized := Text.Trim(kind);
      if normalized == "" { return Err("outbox delivery kind must not be empty"); }
      if normalized in handlers { return Err("outbox delivery kind already registered"); }
      handlers := handlers[normalized := handler];
      if running { Wake(); }
      r := Ok(());
    }

    /** Empty keys and kinds and reused keys change nothing; new work is one Add step. */
    method Enqueue(hash: Hash, rank: Collation, idempotencyKey: string, kind: string, payload: Json, now: Time)
      returns (r: Result<Record, string>)
      requires Valid()
      modifies store, this`timer
      ensures Valid()
      ensures var k, n := Text.Trim(idempotencyKey), Text.Trim(kind);
        if k == "" || n == "" then r.Err? && store.View() == old(store.View())
        else
          && r == EnqueueInto(old(store.records), hash, rank, k, n, payload, now).0
          && store.View() == (if k in old(store.records) then old(store.View())
                              else Apply(old(store.View()), Add(k, n, payload, PayloadHash(hash, rank, payload), now)))
          && (k !in old(store.records) ==>
                && r.Ok? && k in store.records && store.records[k] == r.value && Stands(r.value, [])
                && r.value.key == k && r.value.kind == n && r.value.payload == payload && r.value.createdAt == now)
      ensures timer == (old(timer) || (r.Ok? && running))
    {
      var k, n := Text.Trim(idempotencyKey), Text.Trim(kind);
      if k == "" { return Err("outbox idempotency key is required"); }
      if n == "" { return Err("outbox delivery kind is required"); }
      r := EnqueueManaged(k, n, payload, PayloadHash(hash, rank, payload), now);
      if r.Ok? && running { Wake(); }
    }

    /** The transaction of `enqueue`. */
    method EnqueueManaged(k: Key, kind: string, payload: Json, payloadHash: string, now: Time) returns (r: Result<Record, string>)
      requires Valid()
      modifies store
      ensures Valid() && r == EnqueueHashed(old(store.records), k, kind, payload, payloadHash, now).0
      ensures store.View() == if k in old(store.records) then old(store.View())
                              else Apply(old(store.View()), Add(k, kind, payload, payloadHash, now))
    {
      if k in store.records {
        var existing := store.records[k];
        if existing.kind != kind || existing.payloadHash != payloadHash {
          return Err("outbox idempotency key was reused with different work");
        }
        return Ok(existing);
      }
      var created := AddRecord(k, kind, payload, payloadHash, now);
      r := Ok(created);
    }

    method AddRecord(k: Key, kind: string, payload: Json, payloadHash: string, now: Time) returns (created: Record)
      requires Valid() && k !in store.records
      modifies store
      ensures Valid() && created == NewRecord(k, kind, payload, payloadHash, now)
      ensures store.View() == Apply(old(store.View()), Add(k, kind, payload, payloadHash, now))
    {
      created := NewRecord(k, kind, payload, payloadHash, now);
      store.around := Apply(store.View(), Add(k, kind, payload, payloadHash, now));
      store.Append(k, created);
    }

    /** `#drain` up to its first await: it waits while another drain is in progress, and otherwise is the one. */
    method BeginDrain(d: DrainId) returns (waits: bool)
      requires Valid() && Enabled(store.View(), Arrive(workerId, d))
      modifies store`around, this`draining
      ensures Valid() && store.View() == Apply(old(store.View()), Arrive(workerId, d))
      ensures waits <==> PhaseOf(store.View(), workerId, d).Waiting?
    {
      store.around := Apply(store.View(), Arrive(workerId, d));
      if draining.Some? { return true; }
      draining := Some(d);
      waits := false;
    }

    /** The waiting drain finds that the other has ended. */
    method ResumeDrain(d: DrainId)
      requires Valid() && Enabled(store.View(), OutboxRuns.Wake(workerId, d))
      modifies store`around, this`draining
      ensures Valid() && store.View() == Apply(old(store.View()), OutboxRuns.Wake(workerId, d))
    {
      store.around := Apply(store.View(), OutboxRuns.Wake(workerId, d));
      draining := Some(d);
    }

    /** The `finally` of `#drain`. */
    method EndDrain(d: DrainId)
      requires Valid() && Enabled(store.View(), Leave(workerId, d))
      modifies store`around, this`draining
      ensures Valid() && store.View() == Apply(old(store.View()), Leave(workerId, d))
    {
      store.around := Apply(store.View(), Leave(workerId, d));
      if draining == Some(d) { draining := None; }
    }

    /** Claims the earliest eligible record, or ends the loop. */
    method ClaimNext(ghost d: DrainId, onlyKey: Option<Key>, now: Time) returns (claimed: Option<Record>)
      requires Valid() && InPhase(store.View(), workerId, d) && PhaseOf(store.View(), workerId, d).Looping?
      modifies store
      ensures Valid()
      ensures var k := Earliest(old(store.records), old(store.order), now, handlers.Keys, onlyKey);
        if k.None? then claimed.None? && store.View() == Apply(old(store.View()), StopLooping(workerId, d))
        else
          && Due(old(store.records)[k.value], now)
          && store.View() == Apply(old(store.View()), ClaimOne(workerId, d, k.value, now, true))
          && PhaseOf(store.View(), workerId, d) == Handling(store.records[k.value])
          && claimed == Some(store.records[k.value])
      ensures claimed.None? ==> PhaseOf(store.View(), workerId, d) == Unwinding
      ensures IsNext(workerId, config.claimLeaseMs, old(store.records), handlers.Keys, onlyKey, now, claimed)
    {
      var selected := if |handlers| == 0 then None else Earliest(store.records, store.order, now, handlers.Keys, onlyKey);
      if selected.None? {
        NothingIsNext(workerId, config.claimLeaseMs, store.records, store.order, handlers.Keys, onlyKey, now);
        store.around := Apply(store.View(), StopLooping(workerId, d));
        return None;
      }
      EarliestIsNext(workerId, config.claimLeaseMs, store.records, store.order, handlers.Keys, onlyKey, now);
      var updated := ClaimManaged(d, selected.value, now);
      claimed := Some(updated);
    }

    /** The claim's own write. */
    method ClaimManaged(ghost d: DrainId, k: Key, now: Time) returns (updated: Record)
      requires Valid() && Enabled(store.View(), ClaimOne(workerId, d, k, now, true))
      modifies store
      ensures Valid() && updated == ClaimRecord(old(store.records)[k], workerId, now, config.claimLeaseMs)
      ensures store.View() == Apply(old(store.View()), ClaimOne(workerId, d, k, now, true))
      ensures k in store.records && store.records[k] == updated && PhaseOf(store.View(), workerId, d) == Handling(updated)
    {
      updated := ClaimRecord(store.records[k], workerId, now, config.claimLeaseMs);
      store.around := Apply(store.View(), ClaimOne(workerId, d, k, now, true));
      store.records := store.records[k := updated];
    }

    // ---------------------------------------------------------------- one delivery and its lease

    /** The lease machine of one record shows its claim and this worker's bookkeeping of it. */
    ghost predicate Shows(l: Lease.State, k: Key)
      reads this, store
    {
      && ShowsClaim(l, store.records, k)
      && (workerId in l.handlers <==> k in active)
      && (k in active ==> l.handlers[workerId].active == active[k])
    }

    /** The lease timing of this worker. */
    ghost predicate Timed(t: Lease.Timing) { t.leaseMs == config.claimLeaseMs }

    /** `#runClaimed` up to the handler's call: a Start of the lease machine. */
    method BeginRun(record: Record, now: Time, ghost t: Lease.Timing, ghost l: Lease.State)
      requires Valid() && Timed(t) && Shows(l, record.key) && l.now == now && Lease.Enabled(t, l, Lease.Start(workerId))
      modifies this`active, this`renewing
      ensures Valid() && Shows(Lease.Apply(t, l, Lease.Start(workerId)), record.key)
      ensures record.key in renewing && active - {record.key} == old(active) - {record.key}
    {
      active := active[record.key := Active(now + config.claimLeaseMs, false)];
      renewing := renewing + {record.key};
    }

    /** One renewal whose transaction runs at once: a Tick and its landing, and a Tick of the lease machine. */
    method RenewClaim(ghost d: DrainId, record: Record, now: Time, ghost t: Lease.Timing, ghost l: Lease.State)
      requires Valid() && Enabled(store.View(), Tick(workerId, d, now)) && PhaseOf(store.View(), workerId, d).seen == record
      requires record.key in active && Timed(t) && Shows(l, record.key) && l.now == now
      modifies store, this`active
      ensures Valid()
      ensures store.View() == Apply(Apply(old(store.View()), Tick(workerId, d, now)), Land(workerId, Renewal(record.key, now)))
      ensures Lease.Enabled(t, l, Lease.Tick(workerId, true, true))
      ensures Shows(Lease.Apply(t, l, Lease.Tick(workerId, true, true)), record.key)
      ensures active - {record.key} == old(active) - {record.key} && record.key in active
      ensures var k, a := record.key, old(active)[record.key];
        if HoldsClaim(old(store.records), workerId, k) then
          && active[k].confirmedUntil == now + config.claimLeaseMs && active[k].aborted == a.aborted
          && store.records == old(store.records)[k := old(store.records)[k].(updatedAt := now,
               claim := Some(Claim(workerId, now + config.claimLeaseMs)))]
        else
          && store.records == old(store.records) && active[k].confirmedUntil == a.confirmedUntil
          && (active[k].aborted <==> a.aborted || a.confirmedUntil - now <= Max(1, config.claimLeaseMs / 3))
    {
      RenewShows(t, l, store.records, workerId, record.key);
      var renewed := RenewManaged(d, record, now);
      active := active[record.key := AfterTick(active[record.key], now, renewed, config.claimLeaseMs)];
    }

    /** The transaction of `#renewClaim`. */
    method RenewManaged(ghost d: DrainId, record: Record, now: Time) returns (renewed: bool)
      requires Valid() && Enabled(store.View(), Tick(workerId, d, now)) && PhaseOf(store.View(), workerId, d).seen == record
      modifies store
      ensures Valid()
      ensures store.View() == Apply(Apply(old(store.View()), Tick(workerId, d, now)), Land(workerId, Renewal(record.key, now)))
      ensures store.records == AfterRenewal(config.claimLeaseMs, old(store.records), workerId, record.key, now)
      ensures renewed <==> record.key in old(store.records) && Owned(old(store.records)[record.key], workerId)
    {
      var k := record.key;
      renewed := false;
      store.around := Apply(Apply(store.View(), Tick(workerId, d, now)), Land(workerId, Renewal(k, now)));
      if k in store.records && Owned(store.records[k], workerId) {
        store.records := store.records[k := RenewRecord(store.records[k], workerId, now, config.claimLeaseMs)];
        renewed := true;
      }
    }

    /** The handler has returned or thrown: the settlement, and the end of the delivery. */
    method SettleRun(ghost d: DrainId, record: Record, outcome: Outcome, now: Time, ghost t: Lease.Timing, ghost l: Lease.State)
      requires Valid() && Enabled(store.View(), Return(workerId, d, outcome, now)) && PhaseOf(store.View(), workerId, d).seen == record
      requires record.key in active && Timed(t) && Shows(l, record.key)
      modifies store, this`active, this`renewing
      ensures Valid()
      ensures store.View() == Apply(Apply(old(store.View()), Return(workerId, d, outcome, now)), Settle(workerId, d, true, Looping))
      ensures Settlement(config, old(store.records), store.records, workerId, record.key, outcome, now)
      ensures Lease.Enabled(t, l, Lease.Settle(workerId))
      ensures Shows(Lease.Apply(t, l, Lease.Settle(workerId)), record.key)
      ensures active - {record.key} == old(active) - {record.key} && record.key !in renewing
    {
      SettleShows(t, l, config, store.records, workerId, record.key, outcome, now);
      UpdateOwned(d, record, outcome, now);
      active := active - {record.key};
      renewing := renewing - {record.key};
    }

    /** The ownership-checked write shared by both settlements: a Return and its Settle. */
    method UpdateOwned(ghost d: DrainId, record: Record, outcome: Outcome, now: Time)
      requires Valid() && Enabled(store.View(), Return(workerId, d, outcome, now)) && PhaseOf(store.View(), workerId, d).seen == record
      modifies store
      ensures Valid()
      ensures store.View() == Apply(Apply(old(store.View()), Return(workerId, d, outcome, now)), Settle(workerId, d, true, Looping))
      ensures Settlement(config, old(store.records), store.records, workerId, record.key, outcome, now)
      ensures store.records == AfterSettle(config, old(store.records), workerId, record.key, outcome, now)
    {
      var k := record.key;
      AfterSettleIsSettlement(config, store.records, workerId, k, outcome, now);
      store.around := Apply(Apply(store.View(), Return(workerId, d, outcome, now)), Settle(workerId, d, true, Looping));
      if k !in store.records { return; }
      if !Owned(store.records[k], workerId) { return; }
      store.records := store.records[k := SettleRecord(config, store.records[k], outcome, now)];
    }

    /** Every running delivery's signal is aborted and no renewal or wake is left; the store stays as it is. */
    method Stop()
      requires Valid()
      modifies this`running, this`active, this`renewing, this`timer
      ensures Valid() && !running && !timer && renewing == {}
      ensures active.Keys == old(active).Keys
      ensures forall k :: k in active ==> active[k] == old(active)[k].(aborted := true)
    {
      if !running && |active| == 0 { return; }
      running := false;
      timer := false;
      renewing := {};
      active := map k | k in active :: active[k].(aborted := true);
    }
  }
}
