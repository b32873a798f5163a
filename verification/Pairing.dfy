/** src/lib/pairing/pairing-store.ts */
module Pairing {
  // Device pairing: single-use codes, and the redemption journal that keeps the pairing file and the token store in
  // step across crashes, failed writes and retries.
  //
  // Every managed write holds one lock, so transactions do not overlap; a crash anywhere ends the transaction and
  // frees the lock. Codes and tokens are fresh when they are made.

  import opened Wrappers

  type CodeHash = nat
  type Token = nat
  type Time = int

  datatype Redemption =
    | Reserved(token: Token, deviceId: string, name: string, reservedAt: Time)
    | Completed(token: Token, deviceId: string, name: string, reservedAt: Time, completedAt: Time)

  datatype Pairing = Pairing(code: CodeHash, identityId: string, createdAt: Time, expiresAt: Time, redemption: Option<Redemption>)

  type File = seq<Pairing>

  predicate IsExpired(p: Pairing, now: Time) { p.expiresAt <= now }

  predicate IsReserved(p: Pairing) { p.redemption.Some? && p.redemption.value.Reserved? }

  predicate IsCompleted(p: Pairing) { p.redemption.Some? && p.redemption.value.Completed? }

  function LivePairings(file: File, now: Time): File {
    if file == [] then []
    else (if IsExpired(file[0], now) then [] else [file[0]]) + LivePairings(file[1..], now)
  }

  function Without(file: File, identityId: string): File {
    if file == [] then []
    else (if file[0].identityId == identityId then [] else [file[0]]) + Without(file[1..], identityId)
  }

  function Find(file: File, code: CodeHash): (r: Option<Pairing>)
    ensures r.Some? ==> r.value in file && r.value.code == code
    ensures r.None? ==> forall p :: p in file ==> p.code != code
  {
    if file == [] then None else if file[0].code == code then Some(file[0]) else Find(file[1..], code)
  }

  function Replace(file: File, p: Pairing): File {
    seq(|file|, i requires 0 <= i < |file| => if file[i].code == p.code then p else file[i])
  }

  function WithoutRedemption(p: Pairing): Pairing { p.(redemption := None) }

  function Complete(r: Redemption, now: Time): Redemption {
    Completed(r.token, r.deviceId, r.name, r.reservedAt, now)
  }

  /** The create transaction's new file: expired codes and the identity's older code are gone. */
  function Issue(file: File, code: CodeHash, identityId: string, now: Time, ttl: nat): File {
    Without(LivePairings(file, now), identityId) + [Pairing(code, identityId, now, now + ttl, None)]
  }

  /** The consume transaction: the pairing it takes, and the file without it and without expired codes. */
  function Consume(file: File, code: CodeHash, now: Time): (Option<Pairing>, File) {
    if file == [] then (None, [])
    else if IsExpired(file[0], now) then Consume(file[1..], code, now)
    else if file[0].redemption.None? && file[0].code == code then (Some(file[0]), LivePairings(file[1..], now))
    else
      var (taken, rest) := Consume(file[1..], code, now);
      (taken, [file[0]] + rest)
  }

  // ---------------------------------------------------------------- the transaction machine

  /** Where a redemption is between two file operations. */
  datatype Phase = Persisting | Checking | RollingBack | Completing

  datatype Txn = Txn(live: File, pairing: Pairing, reserved: Redemption, now: Time, phase: Phase)

  /** `minted` says which pairing a token was prepared for; `returned` and `consumed` are what callers got. */
  datatype World = World(
    file: File,
    tokens: set<Token>,
    txn: Option<Txn>,
    issued: set<CodeHash>,
    minted: map<Token, CodeHash>,
    returned: set<(CodeHash, Token)>,
    consumed: multiset<CodeHash>)

  const START := World([], {}, None, {}, map[], {}, multiset{})

  /** What `prepare` hands back. */
  datatype Prepared = Prepared(token: Token, deviceId: string, name: string)

  datatype Step =
    | Create(code: CodeHash, identityId: string, now: Time, ttl: nat)
    | Take(code: CodeHash, now: Time)
    | Begin(code: CodeHash, now: Time, authorized: bool, prepared: Prepared, landed: bool)
    | Persist(stored: bool, threw: bool)
    | Check(failed: bool)
    | RollBack(landed: bool)
    | Finish(landed: bool, delivered: bool)
    | Crash

  /** The fate of `Begin` before any token is touched. */
  predicate NeedsReservation(s: World, code: CodeHash, now: Time, authorized: bool) {
    var p := Find(LivePairings(s.file, now), code);
    p.Some? && authorized && p.value.redemption.None?
  }

  predicate Enabled(s: World, step: Step) {
    match step
    case Create(code, _, _, _) => s.txn.None? && code !in s.issued
    case Take(_, _) => s.txn.None?
    case Begin(code, now, authorized, prepared, _) =>
      s.txn.None? && (NeedsReservation(s, code, now, authorized) ==> prepared.token !in s.minted)
    case Persist(_, _) => s.txn.Some? && s.txn.value.phase == Persisting
    case Check(_) => s.txn.Some? && s.txn.value.phase == Checking
    case RollBack(_) => s.txn.Some? && s.txn.value.phase == RollingBack
    case Finish(_, _) => s.txn.Some? && s.txn.value.phase == Completing
    case Crash => s.txn.Some?
  }

  function Apply(s: World, step: Step): World
    requires Enabled(s, step)
  {
    match step
    case Create(code, identityId, now, ttl) =>
      s.(file := Issue(s.file, code, identityId, now, ttl), issued := s.issued + {code})
    case Take(code, now) =>
      var (taken, rest) := Consume(s.file, code, now);
      s.(file := rest, consumed := if taken.Some? then s.consumed + multiset{code} else s.consumed)
    case Begin(code, now, authorized, prepared, landed) => ApplyBegin(s, code, now, authorized, prepared, landed)
    case Persist(stored, threw) =>
      var t := s.txn.value;
      s.(tokens := if stored || !threw then s.tokens + {t.reserved.token} else s.tokens,
         txn := Some(t.(phase := if threw then Checking else Completing)))
    case Check(failed) =>
      var t := s.txn.value;
      s.(txn := if failed then None
                else Some(t.(phase := if t.reserved.token in s.tokens then Completing else RollingBack)))
    case RollBack(landed) =>
      var t := s.txn.value;
      s.(file := if landed then Replace(t.live, WithoutRedemption(t.pairing)) else s.file, txn := None)
    case Finish(landed, delivered) =>
      var t := s.txn.value;
      s.(file := if landed then Replace(t.live, t.pairing.(redemption := Some(Complete(t.reserved, t.now)))) else s.file,
         returned := if landed && delivered then s.returned + {(t.pairing.code, t.reserved.token)} else s.returned,
         txn := None)
    case Crash => s.(txn := None)
  }

  /** Everything up to the first external effect. `landed` says whether the write of this segment, if it makes
      one, reached the file; if not the call threw and nothing changed. A file without expired pairings is not
      written again just to drop them. */
  function ApplyBegin(s: World, code: CodeHash, now: Time, authorized: bool, prepared: Prepared, landed: bool): World {
    var live := LivePairings(s.file, now);
    match Find(live, code)
    case None => if landed then s.(file := live) else s
    case Some(p) =>
      if !authorized then
        if landed then s.(file := if IsReserved(p) then Replace(live, WithoutRedemption(p)) else live) else s
      else if IsCompleted(p) then
        if landed || |live| == |s.file| then s.(file := live, returned := s.returned + {(code, p.redemption.value.token)}) else s
      else if p.redemption.Some? then
        s.(txn := Some(Txn(live, p, p.redemption.value, now, Persisting)))
      else
        var reserved := Reserved(prepared.token, prepared.deviceId, prepared.name, now);
        var t := s.(minted := s.minted[prepared.token := code]);
        if landed then
          t.(file := Replace(live, p.(redemption := Some(reserved))), txn := Some(Txn(live, p, reserved, now, Persisting)))
        else t
  }

  // ---------------------------------------------------------------- what the journal keeps

  /** The stored tokens that were prepared for one code. */
  ghost predicate StoredFor(s: World, code: CodeHash, t: Token) {
    t in s.tokens && t in s.minted && s.minted[t] == code
  }

  ghost predicate NoneStored(s: World, code: CodeHash) {
    forall t :: t in s.tokens && t in s.minted ==> s.minted[t] != code
  }

  ghost predicate OnlyStored(s: World, code: CodeHash, only: Token) {
    forall t :: t in s.tokens && t in s.minted ==> s.minted[t] == code ==> t == only
  }

  /** A pairing's journal entry accounts for every token stored for its code. */
  ghost predicate PairingOk(s: World, p: Pairing) {
    && p.code in s.issued && s.consumed[p.code] == 0
    && match p.redemption
       case None => NoneStored(s, p.code)
       case Some(r) =>
         && OnlyStored(s, p.code, r.token)
         && r.token in s.minted && s.minted[r.token] == p.code
         && (r.Completed? ==> r.token in s.tokens)
  }

  ghost predicate Distinct(file: File) {
    forall i, j :: 0 <= i < j < |file| ==> file[i].code != file[j].code
  }

  ghost predicate AtMostOneToken(s: World) {
    forall t, u :: t in s.tokens && u in s.tokens && t in s.minted && u in s.minted && s.minted[t] == s.minted[u] ==> t == u
  }

  /** The transaction in progress works on a reservation that is in the file, beside an unchanged rest. */
  ghost predicate TxnOk(s: World, t: Txn) {
    && Distinct(t.live)
    && t.pairing in t.live
    && (exists p :: p in s.file && p.code == t.pairing.code && p.redemption == Some(t.reserved))
    && t.reserved.Reserved?
    && (forall p :: p in t.live && p.code != t.pairing.code ==> p in s.file)
    && (t.phase == Completing ==> t.reserved.token in s.tokens)
    && (t.phase == RollingBack ==> t.reserved.token !in s.tokens)
  }

  ghost predicate Inv(s: World) {
    && Distinct(s.file)
    && (forall p :: p in s.file ==> PairingOk(s, p))
    && (forall t :: t in s.tokens ==> t in s.minted)
    && (forall t :: t in s.minted ==> s.minted[t] in s.issued)
    && AtMostOneToken(s)
    && (forall r :: r in s.returned ==> StoredFor(s, r.0, r.1))
    && (forall c :: s.consumed[c] <= 1)
    && (forall c :: s.consumed[c] > 0 ==> c in s.issued && NoneStored(s, c))
    && (s.txn.Some? ==> TxnOk(s, s.txn.value))
  }

  // ---------------------------------------------------------------- list facts

  lemma {:induction false} LiveFacts(file: File, now: Time)
    requires Distinct(file)
    ensures Distinct(LivePairings(file, now))
    ensures forall p :: p in LivePairings(file, now) <==> p in file && !IsExpired(p, now)
  {
    if file != [] {
      LiveFacts(file[1..], now);
      var rest := LivePairings(file[1..], now);
      assert file == [file[0]] + file[1..];
      forall i | 0 <= i < |rest| ensures rest[i].code != file[0].code { assert rest[i] in file[1..]; }
    }
  }

  lemma {:induction false} WithoutFacts(file: File, identityId: string)
    requires Distinct(file)
    ensures Distinct(Without(file, identityId))
    ensures forall p :: p in Without(file, identityId) <==> p in file && p.identityId != identityId
  {
    if file != [] {
      WithoutFacts(file[1..], identityId);
      var rest := Without(file[1..], identityId);
      assert file == [file[0]] + file[1..];
      forall i | 0 <= i < |rest| ensures rest[i].code != file[0].code { assert rest[i] in file[1..]; }
    }
  }

  /** Issuing keeps exactly the live pairings of the other identities, and adds the one new pairing. */
  lemma IssueFacts(file: File, code: CodeHash, identityId: string, now: Time, ttl: nat)
    requires Distinct(file) && forall p :: p in file ==> p.code != code
    ensures var after := Issue(file, code, identityId, now, ttl);
      && Distinct(after)
      && (forall p :: p in after <==>
           (p in file && !IsExpired(p, now) && p.identityId != identityId) || p == Pairing(code, identityId, now, now + ttl, None))
  {
    LiveFacts(file, now);
    WithoutFacts(LivePairings(file, now), identityId);
    var kept := Without(LivePairings(file, now), identityId);
    assert forall p :: p in kept ==> p.code != code;
    assert Pairing(code, identityId, now, now + ttl, None) in Issue(file, code, identityId, now, ttl);
  }

  lemma {:induction false} ConsumeFacts(file: File, code: CodeHash, now: Time)
    requires Distinct(file)
    ensures var (taken, rest) := Consume(file, code, now);
      && Distinct(rest)
      && (taken.Some? ==> taken.value in file && taken.value.code == code && taken.value.redemption.None? && !IsExpired(taken.value, now))
      && (taken.None? ==> forall p :: p in file && p.code == code && !IsExpired(p, now) ==> p.redemption.Some?)
      && (forall p :: p in rest <==> p in file && !IsExpired(p, now) && taken != Some(p))
      && (taken.Some? ==> forall p :: p in rest ==> p.code != code)
  {
    if file != [] {
      assert file == [file[0]] + file[1..];
      ConsumeFacts(file[1..], code, now);
      LiveFacts(file[1..], now);
      var (taken, rest) := Consume(file[1..], code, now);
      forall i | 0 <= i < |rest| ensures rest[i].code != file[0].code { assert rest[i] in file[1..]; }
    }
  }

  lemma ReplaceFacts(file: File, p: Pairing)
    requires Distinct(file)
    ensures Distinct(Replace(file, p))
    ensures forall q :: q in Replace(file, p) ==> q == p || (q in file && q.code != p.code)
    ensures forall q :: q in file ==> if q.code == p.code then p in Replace(file, p) else q in Replace(file, p)
  {
    forall q | q in file ensures if q.code == p.code then p in Replace(file, p) else q in Replace(file, p) {
      var i :| 0 <= i < |file| && file[i] == q;
      assert Replace(file, p)[i] == if q.code == p.code then p else q;
    }
  }

  // ---------------------------------------------------------------- every step keeps the journal

  /** A refusal that drops a reservation whose token has already reached the token store. */
  predicate DropsStoredToken(s: World, step: Step) {
    step.Begin? && !step.authorized && step.landed &&
    var p := Find(LivePairings(s.file, step.now), step.code);
    p.Some? && IsReserved(p.value) && p.value.redemption.value.token in s.tokens
  }

  /** A file whose entries come from the old one keeps the journal in order. */
  lemma FileKeeps(s: World, file: File)
    requires Inv(s) && Distinct(file) && forall p :: p in file ==> PairingOk(s, p)
    ensures Inv(s.(file := file, txn := None))
  {
    var t := s.(file := file, txn := None);
    forall p | p in file ensures PairingOk(t, p) { assert PairingOk(s, p); }
  }

  lemma CreateKeeps(s: World, step: Step)
    requires Inv(s) && Enabled(s, step) && step.Create?
    ensures Inv(Apply(s, step))
  {
    var live := LivePairings(s.file, step.now);
    var kept := Without(live, step.identityId);
    var t := Apply(s, step);
    LiveFacts(s.file, step.now);
    WithoutFacts(live, step.identityId);
    forall i | 0 <= i < |kept| ensures kept[i].code != step.code {
      assert kept[i] in live;
      assert PairingOk(s, kept[i]);
    }
    forall p | p in t.file ensures PairingOk(t, p) {
      if p in kept { assert p in live && PairingOk(s, p); }
    }
  }

  lemma TakeKeeps(s: World, step: Step)
    requires Inv(s) && Enabled(s, step) && step.Take?
    ensures Inv(Apply(s, step))
  {
    var t := Apply(s, step);
    ConsumeFacts(s.file, step.code, step.now);
    var (taken, rest) := Consume(s.file, step.code, step.now);
    if taken.Some? { assert PairingOk(s, taken.value); }
    forall p | p in t.file ensures PairingOk(t, p) { assert PairingOk(s, p); }
  }

  lemma ReserveKeeps(s: World, p: Pairing, reserved: Redemption, live: File, now: Time)
    requires Inv(s) && s.txn.None? && live == LivePairings(s.file, now) && p in live && p.redemption.None?
    requires reserved.Reserved? && reserved.token !in s.minted
    ensures Inv(s.(minted := s.minted[reserved.token := p.code]))
    ensures Inv(s.(minted := s.minted[reserved.token := p.code],
                   file := Replace(live, p.(redemption := Some(reserved))),
                   txn := Some(Txn(live, p, reserved, now, Persisting))))
  {
    LiveFacts(s.file, now);
    var q := p.(redemption := Some(reserved));
    ReplaceFacts(live, q);
    assert PairingOk(s, p);
    var t := s.(minted := s.minted[reserved.token := p.code]);
    forall r | r in s.file ensures PairingOk(t, r) { assert PairingOk(s, r); }
    var u := t.(file := Replace(live, q), txn := Some(Txn(live, p, reserved, now, Persisting)));
    forall r | r in u.file ensures PairingOk(u, r) {
      if r != q { assert r in live && PairingOk(t, r); }
    }
    assert q in u.file;
    assert TxnOk(u, u.txn.value);
  }

  lemma RefusalKeeps(s: World, live: File, p: Pairing)
    requires Inv(s) && Distinct(live) && (forall q :: q in live ==> PairingOk(s, q))
    requires p in live && IsReserved(p) && p.redemption.value.token !in s.tokens
    ensures Inv(s.(file := Replace(live, WithoutRedemption(p)), txn := None))
  {
    var q := WithoutRedemption(p);
    ReplaceFacts(live, q);
    assert PairingOk(s, q);
    FileKeeps(s, Replace(live, q));
  }

  lemma ResumeKeeps(s: World, live: File, p: Pairing, now: Time)
    requires Inv(s) && Distinct(live) && (forall q :: q in live ==> q in s.file)
    requires p in live && IsReserved(p)
    ensures Inv(s.(txn := Some(Txn(live, p, p.redemption.value, now, Persisting))))
  {
    var t := s.(txn := Some(Txn(live, p, p.redemption.value, now, Persisting)));
    forall q | q in t.file ensures PairingOk(t, q) { assert PairingOk(s, q); }
    assert p in s.file;
    assert TxnOk(t, t.txn.value);
  }

  lemma BeginKeeps(s: World, step: Step)
    requires Inv(s) && Enabled(s, step) && step.Begin? && !DropsStoredToken(s, step)
    ensures Inv(Apply(s, step))
  {
    var live := LivePairings(s.file, step.now);
    LiveFacts(s.file, step.now);
    FileKeeps(s, live);
    assert s == s.(txn := None) && s.(file := live) == s.(file := live, txn := None);
    var found := Find(live, step.code);
    if found.Some? {
      var p := found.value;
      if !step.authorized {
        if step.landed && IsReserved(p) { RefusalKeeps(s, live, p); }
      } else if IsCompleted(p) {
        ReplayKeeps(s, live, p);
      } else if p.redemption.Some? {
        ResumeKeeps(s, live, p, step.now);
      } else {
        var reserved := Reserved(step.prepared.token, step.prepared.deviceId, step.prepared.name, step.now);
        ReserveKeeps(s, p, reserved, live, step.now);
      }
    }
  }

  lemma ReplayKeeps(s: World, live: File, p: Pairing)
    requires Inv(s) && Inv(s.(file := live, txn := None)) && p in live && IsCompleted(p)
    ensures Inv(s.(file := live, txn := None, returned := s.returned + {(p.code, p.redemption.value.token)}))
  {
    var t := s.(file := live, txn := None);
    var u := t.(returned := s.returned + {(p.code, p.redemption.value.token)});
    assert PairingOk(t, p);
    forall q | q in u.file ensures PairingOk(u, q) { assert PairingOk(t, q); }
    forall r | r in u.returned ensures StoredFor(u, r.0, r.1) {
      assert r in t.returned ==> StoredFor(t, r.0, r.1);
    }
  }

  lemma PersistKeeps(s: World, step: Step)
    requires Inv(s) && Enabled(s, step) && step.Persist?
    ensures Inv(Apply(s, step))
  {
    var x := s.txn.value;
    var t := Apply(s, step);
    var p :| p in s.file && p.code == x.pairing.code && p.redemption == Some(x.reserved);
    assert PairingOk(s, p);
    forall q | q in t.file ensures PairingOk(t, q) {
      assert PairingOk(s, q);
      SameCode(s.file, p, q);
    }
    forall r | r in t.returned ensures StoredFor(t, r.0, r.1) { assert StoredFor(s, r.0, r.1); }
    assert TxnOk(t, t.txn.value);
  }

  lemma SameCode(file: File, p: Pairing, q: Pairing)
    requires Distinct(file) && p in file && q in file
    ensures p.code == q.code ==> p == q
  {
  }

  lemma CheckKeeps(s: World, step: Step)
    requires Inv(s) && Enabled(s, step) && step.Check?
    ensures Inv(Apply(s, step))
  {
    var t := Apply(s, step);
    forall q | q in t.file ensures PairingOk(t, q) { assert PairingOk(s, q); }
  }

  /** Writing the transaction's snapshot back with a settled entry for its own pairing. */
  lemma WriteBackKeeps(s: World, q: Pairing)
    requires Inv(s) && s.txn.Some? && q.code == s.txn.value.pairing.code && PairingOk(s, q)
    ensures Inv(s.(file := Replace(s.txn.value.live, q), txn := None))
  {
    var x := s.txn.value;
    ReplaceFacts(x.live, q);
    forall r | r in Replace(x.live, q) ensures PairingOk(s, r) {
      if r != q { assert r in s.file; }
    }
    FileKeeps(s, Replace(x.live, q));
  }

  lemma RollBackKeeps(s: World, step: Step)
    requires Inv(s) && Enabled(s, step) && step.RollBack?
    ensures Inv(Apply(s, step))
  {
    var x := s.txn.value;
    var p :| p in s.file && p.code == x.pairing.code && p.redemption == Some(x.reserved);
    assert PairingOk(s, p);
    assert PairingOk(s, WithoutRedemption(x.pairing));
    WriteBackKeeps(s, WithoutRedemption(x.pairing));
    FileKeeps(s, s.file);
  }

  lemma FinishKeeps(s: World, step: Step)
    requires Inv(s) && Enabled(s, step) && step.Finish?
    ensures Inv(Apply(s, step))
  {
    var x := s.txn.value;
    var p :| p in s.file && p.code == x.pairing.code && p.redemption == Some(x.reserved);
    assert PairingOk(s, p);
    var q := x.pairing.(redemption := Some(Complete(x.reserved, x.now)));
    assert PairingOk(s, q);
    WriteBackKeeps(s, q);
    FileKeeps(s, s.file);
    var t := s.(file := Replace(x.live, q), txn := None);
    ReplaceFacts(x.live, q);
    assert q in t.file;
    ReplayKeeps(t, t.file, q);
  }

  lemma StepKeeps(s: World, step: Step)
    requires Inv(s) && Enabled(s, step) && !DropsStoredToken(s, step)
    ensures Inv(Apply(s, step))
  {
    match step
    case Create(_, _, _, _) => CreateKeeps(s, step);
    case Take(_, _) => TakeKeeps(s, step);
    case Begin(_, _, _, _, _) => BeginKeeps(s, step);
    case Persist(_, _) => PersistKeeps(s, step);
    case Check(_) => CheckKeeps(s, step);
    case RollBack(_) => RollBackKeeps(s, step);
    case Finish(_, _) => FinishKeeps(s, step);
    case Crash => FileKeeps(s, s.file);
  }

  // ---------------------------------------------------------------- runs

  ghost predicate RunFrom(s: World, steps: seq<Step>)
    decreases |steps|
  {
    steps == [] || (Enabled(s, steps[0]) && RunFrom(Apply(s, steps[0]), steps[1..]))
  }

  ghost function After(s: World, steps: seq<Step>): World
    requires RunFrom(s, steps)
    decreases |steps|
  {
    if steps == [] then s else After(Apply(s, steps[0]), steps[1..])
  }

  /** No refusal of the run drops a reservation whose token is stored. */
  ghost predicate NoDrops(s: World, steps: seq<Step>)
    requires RunFrom(s, steps)
    decreases |steps|
  {
    steps == [] || (!DropsStoredToken(s, steps[0]) && NoDrops(Apply(s, steps[0]), steps[1..]))
  }

  lemma {:induction false} RunKeeps(s: World, steps: seq<Step>)
    requires Inv(s) && RunFrom(s, steps) && NoDrops(s, steps)
    ensures Inv(After(s, steps))
    decreases |steps|
  {
    if steps != [] {
      StepKeeps(s, steps[0]);
      RunKeeps(Apply(s, steps[0]), steps[1..]);
    }
  }

  /** Crash-safe redemption: every success for one pairing returned the same token, that token is in the token
      store, and it is the only token ever stored for the pairing. */
  lemma OneTokenPerPairing(steps: seq<Step>, code: CodeHash, t: Token, u: Token)
    requires RunFrom(START, steps) && NoDrops(START, steps)
    requires (code, t) in After(START, steps).returned
    requires (code, u) in After(START, steps).returned || StoredFor(After(START, steps), code, u)
    ensures t == u && StoredFor(After(START, steps), code, t)
  {
    RunKeeps(START, steps);
    var s := After(START, steps);
    assert StoredFor(s, code, t);
    assert (code, u) in s.returned ==> StoredFor(s, code, u);
  }

  /** Without any success too, no pairing ever gets a second token into the store. */
  lemma NoSecondToken(steps: seq<Step>, code: CodeHash, t: Token, u: Token)
    requires RunFrom(START, steps) && NoDrops(START, steps)
    requires StoredFor(After(START, steps), code, t) && StoredFor(After(START, steps), code, u)
    ensures t == u
  {
    RunKeeps(START, steps);
  }

  /** A code is consumed at most once, and a consumed code never has a stored token. */
  lemma ConsumedOnce(steps: seq<Step>, code: CodeHash)
    requires RunFrom(START, steps) && NoDrops(START, steps)
    ensures After(START, steps).consumed[code] <= 1
    ensures After(START, steps).consumed[code] == 1 ==> NoneStored(After(START, steps), code)
  {
    RunKeeps(START, steps);
  }

  // ---------------------------------------------------------------- the refusal, exactly

  lemma {:induction false} RunTwo(s: World, a: Step, b: Step)
    requires Enabled(s, a) && Enabled(Apply(s, a), b)
    ensures RunFrom(s, [a, b]) && After(s, [a, b]) == Apply(Apply(s, a), b)
  {
    var t, u := Apply(s, a), Apply(Apply(s, a), b);
    assert RunFrom(u, []) && After(u, []) == u;
    assert [b][1..] == [];
    assert RunFrom(t, [b]) && After(t, [b]) == u;
    assert [a, b][1..] == [b];
  }

  lemma {:induction false} Extend(s: World, steps: seq<Step>, step: Step)
    requires RunFrom(s, steps) && Enabled(After(s, steps), step)
    ensures RunFrom(s, steps + [step]) && After(s, steps + [step]) == Apply(After(s, steps), step)
    decreases |steps|
  {
    if steps == [] {
      assert RunFrom(Apply(s, step), []);
      assert (steps + [step])[1..] == [];
    } else {
      Extend(Apply(s, steps[0]), steps[1..], step);
      assert (steps + [step])[1..] == steps[1..] + [step];
    }
  }

  lemma {:induction false} FreshToken(used: set<Token>) returns (t: Token)
    ensures forall u :: u in used ==> u < t
    decreases |used|
  {
    if used == {} {
      t := 0;
    } else {
      var u :| u in used;
      var below := FreshToken(used - {u});
      t := if below <= u then u + 1 else below;
      assert forall v :: v in used ==> v == u || v in used - {u};
    }
  }

  /** From here on, whatever happens short of another such refusal, no pairing gets two tokens. */
  ghost predicate SafeFromHere(s: World) {
    forall steps :: RunFrom(s, steps) && NoDrops(s, steps) ==> AtMostOneToken(After(s, steps))
  }

  lemma FindMember(file: File, p: Pairing)
    requires Distinct(file) && p in file
    ensures Find(file, p.code) == Some(p)
  {
    SameCode(file, p, Find(file, p.code).value);
  }

  /** After a drop, one more redemption of the same code stores a second token. */
  lemma DropCostsAToken(s: World, step: Step) returns (steps: seq<Step>)
    requires Inv(s) && Enabled(s, step) && DropsStoredToken(s, step)
    ensures RunFrom(Apply(s, step), steps) && NoDrops(Apply(s, step), steps)
    ensures !AtMostOneToken(After(Apply(s, step), steps))
  {
    var t := Apply(s, step);
    var live := LivePairings(s.file, step.now);
    LiveFacts(s.file, step.now);
    var p := Find(live, step.code).value;
    var q := WithoutRedemption(p);
    ReplaceFacts(live, q);
    assert PairingOk(s, p);
    assert t.file == Replace(live, q) && q in t.file;
    LiveFacts(t.file, step.now);
    FindMember(LivePairings(t.file, step.now), q);
    var second := FreshToken(t.minted.Keys);
    var a, b := Begin(step.code, step.now, true, Prepared(second, "d", "l"), true), Persist(true, false);
    RunTwo(t, a, b);
    steps := [a, b];
    assert [a, b][1..] == [b];
    assert !DropsStoredToken(Apply(t, a), b);
    assert NoDrops(Apply(Apply(t, a), b), []) && NoDrops(Apply(t, a), [b]);
    var first, u := p.redemption.value.token, After(t, steps);
    assert first in u.tokens && second in u.tokens && u.minted[first] == step.code == u.minted[second];
  }

  /** Refusing an open reservation is harmless for ever after exactly when its token has not been stored. */
  lemma RefusalSafeIff(s: World, step: Step)
    requires Inv(s) && Enabled(s, step)
    requires step.Begin? && !step.authorized && step.landed
    requires Find(LivePairings(s.file, step.now), step.code).Some?
    requires IsReserved(Find(LivePairings(s.file, step.now), step.code).value)
    ensures SafeFromHere(Apply(s, step)) <==>
      Find(LivePairings(s.file, step.now), step.code).value.redemption.value.token !in s.tokens
  {
    if DropsStoredToken(s, step) {
      var steps := DropCostsAToken(s, step);
    } else {
      StepKeeps(s, step);
      forall steps | RunFrom(Apply(s, step), steps) && NoDrops(Apply(s, step), steps)
        ensures AtMostOneToken(After(Apply(s, step), steps))
      {
        RunKeeps(Apply(s, step), steps);
      }
    }
  }

  /** Such refusals can happen: the process dies between storing the token and completing the journal, and the
      identity is unmapped for the next attempt. */
  lemma DropIsReachable() returns (steps: seq<Step>, refusal: Step)
    ensures RunFrom(START, steps) && NoDrops(START, steps)
    ensures Enabled(After(START, steps), refusal) && DropsStoredToken(After(START, steps), refusal)
  {
    var p := Pairing(0, "i", 0, 10, None);
    var q := p.(redemption := Some(Reserved(7, "d", "l", 1)));
    var a, b := Create(0, "i", 0, 10), Begin(0, 1, true, Prepared(7, "d", "l"), true);
    var s1 := Apply(START, a);
    assert s1.file == [p] && LivePairings([p], 1) == [p] && Replace([p], q) == [q];
    var s2 := Apply(s1, b);
    assert s2.file == [q] && s2.txn.Some?;
    var c, d := Persist(true, true), Crash;
    RunFour(START, a, b, c, d);
    steps := [a, b, c, d];
    refusal := Begin(0, 2, false, Prepared(8, "d", "l"), true);
    assert LivePairings([q], 2) == [q];
  }

  lemma RunFour(s: World, a: Step, b: Step, c: Step, d: Step)
    requires Enabled(s, a) && Enabled(Apply(s, a), b) && Enabled(Apply(Apply(s, a), b), c)
    requires Enabled(Apply(Apply(Apply(s, a), b), c), d)
    requires !DropsStoredToken(s, a) && !DropsStoredToken(Apply(s, a), b) && !c.Begin? && !d.Begin?
    ensures RunFrom(s, [a, b, c, d]) && NoDrops(s, [a, b, c, d])
    ensures After(s, [a, b, c, d]) == Apply(Apply(Apply(Apply(s, a), b), c), d)
  {
    var s2 := Apply(Apply(s, a), b);
    RunTwo(s2, c, d);
    assert [c, d][1..] == [d] && [d][1..] == [];
    assert NoDrops(Apply(s2, c), [d]);
    assert NoDrops(s2, [c, d]);
    assert [b, c, d][1..] == [c, d] && [a, b, c, d][1..] == [b, c, d];
  }

  // ---------------------------------------------------------------- the store object

  /** What the consume loop has yet to return when it kept `remaining`, took `consumed` and has `rest` to go. */
  function Ahead(consumed: Option<Pairing>, remaining: File, rest: File, code: CodeHash, now: Time): (Option<Pairing>, File) {
    if consumed.Some? then (consumed, remaining + LivePairings(rest, now))
    else (Consume(rest, code, now).0, remaining + Consume(rest, code, now).1)
  }

  lemma AheadStep(consumed: Option<Pairing>, remaining: File, rest: File, code: CodeHash, now: Time)
    requires rest != []
    ensures var p := rest[0];
      Ahead(consumed, remaining, rest, code, now) ==
        if IsExpired(p, now) then Ahead(consumed, remaining, rest[1..], code, now)
        else if p.redemption.None? && consumed.None? && p.code == code then Ahead(Some(p), remaining, rest[1..], code, now)
        else Ahead(consumed, remaining + [p], rest[1..], code, now)
  {
    var p := rest[0];
    assert rest == [p] + rest[1..];
    assert remaining + ([p] + Consume(rest[1..], code, now).1) == remaining + [p] + Consume(rest[1..], code, now).1;
    assert remaining + ([p] + LivePairings(rest[1..], now)) == remaining + [p] + LivePairings(rest[1..], now);
    assert [] + LivePairings(rest[1..], now) == LivePairings(rest[1..], now);
  }

  lemma {:induction false} LiveMembers(file: File, now: Time)
    ensures forall p :: p in LivePairings(file, now) <==> p in file && now < p.expiresAt
    ensures |LivePairings(file, now)| == |file| <==> forall p :: p in file ==> now < p.expiresAt
  {
    if file != [] {
      assert file == [file[0]] + file[1..];
      LiveLength(file[1..], now);
      LiveMembers(file[1..], now);
    }
  }

  lemma {:induction false} WithoutMembers(file: File, identityId: string)
    ensures forall p :: p in Without(file, identityId) <==> p in file && p.identityId != identityId
  {
    if file != [] {
      assert file == [file[0]] + file[1..];
      WithoutMembers(file[1..], identityId);
    }
  }

  lemma {:induction false} TakesLive(file: File, code: CodeHash, now: Time)
    ensures var taken := Consume(file, code, now).0;
      if taken.Some? then taken.value in file && taken.value.code == code && now < taken.value.expiresAt && taken.value.redemption == None
      else forall p :: p in file && p.code == code && now < p.expiresAt ==> p.redemption.Some?
  {
    if file != [] {
      assert file == [file[0]] + file[1..];
      TakesLive(file[1..], code, now);
    }
  }

  /** How the outside calls and file writes of one redemption turn out. */
  datatype Fate = Fate(
    authorized: bool,
    prepared: Prepared,
    reserveLands: bool,
    persistStores: bool,
    persistThrows: bool,
    checkThrows: bool,
    lastWriteLands: bool)

  datatype Reply =
    | Invalid
    | Rejected(identityId: string)
    | Success(identityId: string, token: Token)
    | Failed

  /** The first pairing of the file that has the code and has not expired, and where it is. */
  ghost predicate FirstLive(file: File, code: CodeHash, now: Time, i: int) {
    && 0 <= i < |file| && file[i].code == code && now < file[i].expiresAt
    && forall j :: 0 <= j < i ==> file[j].code != code || file[j].expiresAt <= now
  }

  lemma {:induction false} FindsFirstLive(file: File, code: CodeHash, now: Time) returns (i: int)
    requires Find(LivePairings(file, now), code).Some?
    ensures FirstLive(file, code, now, i) && Find(LivePairings(file, now), code).value == file[i]
  {
    if file[0].code == code && now < file[0].expiresAt {
      i := 0;
    } else {
      FindSkips(file, code, now);
      i := FindsFirstLive(file[1..], code, now);
      FirstLiveShifts(file, code, now, i);
      i := i + 1;
    }
  }

  lemma FindSkips(file: File, code: CodeHash, now: Time)
    requires file != [] && (file[0].code == code ==> file[0].expiresAt <= now)
    ensures Find(LivePairings(file, now), code) == Find(LivePairings(file[1..], now), code)
  {
    if now < file[0].expiresAt { FindPast(file[0], LivePairings(file[1..], now), code); }
    assert [] + LivePairings(file[1..], now) == LivePairings(file[1..], now);
  }

  lemma FindPast(p: Pairing, rest: File, code: CodeHash)
    requires p.code != code
    ensures Find([p] + rest, code) == Find(rest, code)
  {
    assert ([p] + rest)[1..] == rest;
  }

  lemma FirstLiveShifts(file: File, code: CodeHash, now: Time, i: int)
    requires file != [] && !(file[0].code == code && now < file[0].expiresAt) && FirstLive(file[1..], code, now, i)
    ensures FirstLive(file, code, now, i + 1)
  {
    forall j | 0 <= j < i + 1 ensures file[j].code != code || file[j].expiresAt <= now {
      assert j > 0 ==> file[j] == file[1..][j - 1];
    }
  }

  /** Whether the token counts as stored after `persist` and, if that threw, the check. */
  predicate Stored(token: Token, tokens: set<Token>, fate: Fate) {
    !fate.persistThrows || (!fate.checkThrows && (fate.persistStores || token in tokens))
  }

  /** How a redemption ends that has a reservation in the file. */
  function EndOf(p: Pairing, token: Token, deviceId: string, name: string, at: Time, tokens: set<Token>, now: Time, fate: Fate)
    : (Reply, Option<Redemption>)
  {
    if Stored(token, tokens, fate) && fate.lastWriteLands then
      (Success(p.identityId, token), Some(Completed(token, deviceId, name, at, now)))
    else if !Stored(token, tokens, fate) && !fate.checkThrows && fate.lastWriteLands then (Failed, None)
    else (Failed, Some(Reserved(token, deviceId, name, at)))
  }

  /** What redeeming a live pairing comes to, case by case: the reply, and the journal entry it leaves. `prunes` says
      that other pairings have expired, so that the file is written even where the entry stays. */
  function Redeemed(p: Pairing, prunes: bool, tokens: set<Token>, now: Time, fate: Fate): (Reply, Option<Redemption>) {
    match p.redemption
    case None =>
      if !fate.authorized then (if prunes && !fate.reserveLands then Failed else Rejected(p.identityId), None)
      else if !fate.reserveLands then (Failed, None)
      else EndOf(p, fate.prepared.token, fate.prepared.deviceId, fate.prepared.name, now, tokens, now, fate)
    case Some(Reserved(token, deviceId, name, at)) =>
      if !fate.authorized then
        if fate.reserveLands then (Rejected(p.identityId), None) else (Failed, p.redemption)
      else EndOf(p, token, deviceId, name, at, tokens, now, fate)
    case Some(Completed(token, _, _, _, _)) =>
      if prunes && !fate.reserveLands then (Failed, p.redemption)
      else if fate.authorized then (Success(p.identityId, token), p.redemption)
      else (Rejected(p.identityId), p.redemption)
  }

  /** The transaction answers as the first live pairing with the code requires, and leaves that pairing's entry so;
      without one the code is invalid. */
  ghost predicate Answers(before: File, tokens: set<Token>, after: File, code: CodeHash, now: Time, fate: Fate, reply: Reply) {
    var prunes := exists p :: p in before && p.expiresAt <= now;
    if forall p :: p in before && p.code == code ==> p.expiresAt <= now
    then reply == if prunes && !fate.reserveLands then Failed else Invalid
    else exists i :: FirstLive(before, code, now, i) && AnswersFor(before[i], prunes, tokens, after, now, fate, reply)
  }

  ghost predicate AnswersFor(p: Pairing, prunes: bool, tokens: set<Token>, after: File, now: Time, fate: Fate, reply: Reply) {
    reply == Redeemed(p, prunes, tokens, now, fate).0 && p.(redemption := Redeemed(p, prunes, tokens, now, fate).1) in after
  }

  /** The entry and the reply that a redemption with this reservation in the file ends with. */
  ghost predicate EndsAs(p: Pairing, reserved: Redemption, tokens: set<Token>, after: File, now: Time, fate: Fate, reply: Reply)
    requires reserved.Reserved?
  {
    var (answer, entry) := EndOf(p, reserved.token, reserved.deviceId, reserved.name, reserved.reservedAt, tokens, now, fate);
    reply == answer && p.(redemption := entry) in after
  }

  /** The same in the terms of the code. */
  ghost predicate Concludes(before: File, tokens: set<Token>, after: File, code: CodeHash, now: Time, fate: Fate, reply: Reply) {
    var live := LivePairings(before, now);
    match Find(live, code)
    case None => reply == if |live| != |before| && !fate.reserveLands then Failed else Invalid
    case Some(p) => AnswersFor(p, |live| != |before|, tokens, after, now, fate, reply)
  }

  lemma ConcludesIsAnswer(before: File, tokens: set<Token>, after: File, code: CodeHash, now: Time, fate: Fate, reply: Reply)
    requires Concludes(before, tokens, after, code, now, fate, reply)
    ensures Answers(before, tokens, after, code, now, fate, reply)
  {
    LiveMembers(before, now);
    if Find(LivePairings(before, now), code).Some? {
      var i := FindsFirstLive(before, code, now);
      assert before[i] in before;
    }
  }

  lemma {:induction false} LiveLength(file: File, now: Time)
    ensures |LivePairings(file, now)| <= |file|
    ensures |LivePairings(file, now)| == |file| ==> LivePairings(file, now) == file
    ensures forall p :: p in LivePairings(file, now) ==> p in file
  {
    if file != [] {
      assert file == [file[0]] + file[1..];
      LiveLength(file[1..], now);
    }
  }

  lemma ReplaceHolds(file: File, p: Pairing, q: Pairing)
    requires p in file && q.code == p.code
    ensures q in Replace(file, q)
  {
    var i :| 0 <= i < |file| && file[i] == p;
    assert Replace(file, q)[i] == q;
  }

  /** What a reader of the reply can rely on: an identity named is that of a live pairing with the code, and a success
      comes exactly of an authorized one whose token is or counts as stored and whose writes landed. */
  lemma AnswersSay(before: File, tokens: set<Token>, after: File, code: CodeHash, now: Time, fate: Fate, reply: Reply)
    requires Answers(before, tokens, after, code, now, fate, reply)
    ensures reply.Success? || reply.Rejected? ==>
      exists p :: p in before && p.code == code && now < p.expiresAt && reply.identityId == p.identityId
    ensures reply.Invalid? <==>
      && (forall p :: p in before && p.code == code ==> p.expiresAt <= now)
      && (fate.reserveLands || forall p :: p in before ==> now < p.expiresAt)
    ensures reply.Success? ==> fate.authorized
    ensures reply.Rejected? ==> !fate.authorized
    ensures (exists p :: p in before && p.code == code && now < p.expiresAt) &&
            fate.reserveLands && fate.lastWriteLands && !fate.persistThrows
            ==> if fate.authorized then reply.Success? else reply.Rejected?
  {
    if !(forall p :: p in before && p.code == code ==> p.expiresAt <= now) {
      var prunes := exists p :: p in before && p.expiresAt <= now;
      var i :| FirstLive(before, code, now, i) && AnswersFor(before[i], prunes, tokens, after, now, fate, reply);
      assert before[i] in before;
      RedeemedSays(before[i], prunes, tokens, now, fate);
    }
  }

  lemma RedeemedSays(p: Pairing, prunes: bool, tokens: set<Token>, now: Time, fate: Fate)
    ensures var reply := Redeemed(p, prunes, tokens, now, fate).0;
      && !reply.Invalid? && (reply.Success? || reply.Rejected? ==> reply.identityId == p.identityId)
      && (reply.Success? ==> fate.authorized) && (reply.Rejected? ==> !fate.authorized)
      && (fate.reserveLands && fate.lastWriteLands && !fate.persistThrows ==> reply.Success? || reply.Rejected?)
  {
  }

  /** The pairing file and the token store, in the world of all transactions. */
  class PairingStore {
    var file: File
    var tokens: set<Token>
    ghost var around: World

    ghost function View(): World
      reads this
    {
      around.(file := file, tokens := tokens)
    }

    constructor ()
      ensures View() == START
    {
      file, tokens := [], {};
      around := START;
    }

    method CreatePairing(code: CodeHash, identityId: string, now: Time, ttl: nat)
      requires Enabled(View(), Create(code, identityId, now, ttl))
      modifies this
      ensures View() == Apply(old(View()), Create(code, identityId, now, ttl))
      ensures forall p :: p in file <==>
        p == Pairing(code, identityId, now, now + ttl, None)
        || (p in old(file) && now < p.expiresAt && p.identityId != identityId)
    {
      around := Apply(View(), Create(code, identityId, now, ttl));
      LiveMembers(file, now);
      WithoutMembers(LivePairings(file, now), identityId);
      var live := LivePairings(file, now);
      var kept := Without(live, identityId);
      file := kept + [Pairing(code, identityId, now, now + ttl, None)];
    }

    /** The loop keeps every live pairing except the first unredeemed one with the code. */
    method ConsumePairing(code: CodeHash, now: Time) returns (identityId: Option<string>)
      requires Enabled(View(), Take(code, now))
      modifies this
      ensures View() == Apply(old(View()), Take(code, now))
      ensures var taken := Consume(old(file), code, now).0;
        identityId == if taken.Some? then Some(taken.value.identityId) else None
      ensures View().consumed == old(View()).consumed + if identityId.Some? then multiset{code} else multiset{}
      ensures identityId.Some? ==> exists p :: p in old(file) && p.code == code && now < p.expiresAt && p.redemption == None
                                               && identityId.value == p.identityId
      ensures identityId.None? ==> forall p :: p in old(file) && p.code == code && now < p.expiresAt ==> p.redemption.Some?
    {
      around := Apply(View(), Take(code, now));
      TakesLive(file, code, now);
      var consumed: Option<Pairing> := None;
      var remaining: File := [];
      assert file[0..] == file && remaining + Consume(file, code, now).1 == Consume(file, code, now).1;
      for i := 0 to |file|
        invariant file == old(file) && tokens == old(tokens) && around == Apply(old(View()), Take(code, now))
        invariant Consume(file, code, now) == Ahead(consumed, remaining, file[i..], code, now)
        invariant |remaining| <= i && (|remaining| == i ==> remaining == file[..i])
      {
        var pairing := file[i];
        AheadStep(consumed, remaining, file[i..], code, now);
        assert file[i..][1..] == file[i + 1..];
        if IsExpired(pairing, now) { continue; }
        if pairing.redemption.Some? {
          remaining := remaining + [pairing];
          continue;
        }
        if consumed.None? && pairing.code == code {
          consumed := Some(pairing);
          continue;
        }
        remaining := remaining + [pairing];
      }
      assert file[|file|..] == [] && remaining + [] == remaining;
      assert |remaining| == |file| ==> remaining == file;
      if consumed.None? && |remaining| == |file| { return None; }
      file := remaining;
      identityId := if consumed.Some? then Some(consumed.value.identityId) else None;
    }

    /** One whole redemption, with every outside call and write going as `fate` says. The file and the token
        store move exactly as the returned run of machine steps, and a success is one the machine returned. */
    method RedeemPairingTransaction(code: CodeHash, now: Time, fate: Fate)
      returns (reply: Reply, ghost steps: seq<Step>)
      requires Enabled(View(), Begin(code, now, fate.authorized, fate.prepared, fate.reserveLands))
      modifies this
      ensures RunFrom(old(View()), steps) && View() == After(old(View()), steps) && View().txn.None?
      ensures steps != [] && steps[0] == Begin(code, now, fate.authorized, fate.prepared, fate.reserveLands)
      ensures View().returned == old(View()).returned + if reply.Success? then {(code, reply.token)} else {}
      ensures reply.Invalid? ==> Find(LivePairings(old(file), now), code).None?
      ensures reply.Rejected? ==> !fate.authorized
      ensures Answers(old(file), old(tokens), file, code, now, fate, reply)
    {
      reply, steps := RedeemSteps(code, now, fate, View());
      around := After(old(View()), steps);
      ConcludesIsAnswer(old(file), old(tokens), file, code, now, fate, reply);
    }

    method RedeemSteps(code: CodeHash, now: Time, fate: Fate, ghost w: World)
      returns (reply: Reply, ghost steps: seq<Step>)
      requires w.file == file && w.tokens == tokens
      requires Enabled(w, Begin(code, now, fate.authorized, fate.prepared, fate.reserveLands))
      modifies this`file, this`tokens
      ensures RunFrom(w, steps) && After(w, steps).file == file && After(w, steps).tokens == tokens
      ensures After(w, steps).txn.None?
      ensures steps != [] && steps[0] == Begin(code, now, fate.authorized, fate.prepared, fate.reserveLands)
      ensures After(w, steps).returned == w.returned + if reply.Success? then {(code, reply.token)} else {}
      ensures reply.Invalid? ==> Find(LivePairings(old(file), now), code).None?
      ensures reply.Rejected? ==> !fate.authorized
      ensures Concludes(old(file), old(tokens), file, code, now, fate, reply)
    {
      steps := [];
      var live := LivePairings(file, now);
      var found := Find(live, code);
      Extend(w, steps, Begin(code, now, fate.authorized, fate.prepared, fate.reserveLands));
      steps := steps + [Begin(code, now, fate.authorized, fate.prepared, fate.reserveLands)];
      LiveLength(file, now);
      if found.None? {
        if |live| != |file| {
          if !fate.reserveLands { return Failed, steps; }
          file := live;
        }
        return Invalid, steps;
      }
      var pairing := found.value;
      if !fate.authorized {
        reply := Refuse(live, pairing, fate);
        return;
      }
      if IsCompleted(pairing) {
        if |live| != |file| {
          if !fate.reserveLands { return Failed, steps; }
          file := live;
        }
        return Success(pairing.identityId, pairing.redemption.value.token), steps;
      }
      var reserved;
      if pairing.redemption.Some? {
        reserved := pairing.redemption.value;
      } else {
        reserved := Reserved(fate.prepared.token, fate.prepared.deviceId, fate.prepared.name, now);
        if !fate.reserveLands { return Failed, steps; }
        ReplaceHolds(live, pairing, pairing.(redemption := Some(reserved)));
        file := Replace(live, pairing.(redemption := Some(reserved)));
      }
      reply, steps := PersistAndComplete(live, pairing, reserved, now, fate, w, steps);
    }

    /** The human may not pair: an open reservation is dropped, and expired pairings go. */
    method Refuse(live: File, pairing: Pairing, fate: Fate) returns (reply: Reply)
      requires pairing in live && pairing in file && (|live| == |file| ==> live == file)
      modifies this`file
      ensures reply == if (IsReserved(pairing) || |live| != |old(file)|) && !fate.reserveLands then Failed else Rejected(pairing.identityId)
      ensures file == if !fate.reserveLands then old(file) else if IsReserved(pairing) then Replace(live, WithoutRedemption(pairing)) else live
      ensures pairing.(redemption := if IsReserved(pairing) && fate.reserveLands then None else pairing.redemption) in file
    {
      ReplaceHolds(live, pairing, WithoutRedemption(pairing));
      if IsReserved(pairing) {
        if !fate.reserveLands { return Failed; }
        file := Replace(live, WithoutRedemption(pairing));
      } else if |live| != |file| {
        if !fate.reserveLands { return Failed; }
        file := live;
      }
      reply := Rejected(pairing.identityId);
    }

    /** From `persist` on. */
    method PersistAndComplete(live: File, pairing: Pairing, reserved: Redemption, now: Time, fate: Fate, ghost w: World,
                              ghost before: seq<Step>)
      returns (reply: Reply, ghost steps: seq<Step>)
      requires RunFrom(w, before) && before != []
      requires var s := After(w, before);
        s.file == file && s.tokens == tokens && s.txn == Some(Txn(live, pairing, reserved, now, Persisting))
      requires pairing in live && reserved.Reserved? && pairing.(redemption := Some(reserved)) in file
      modifies this`file, this`tokens
      ensures RunFrom(w, steps) && After(w, steps).file == file && After(w, steps).tokens == tokens
      ensures After(w, steps).txn.None? && steps != [] && steps[0] == before[0]
      ensures After(w, steps).returned == After(w, before).returned + if reply.Success? then {(pairing.code, reply.token)} else {}
      ensures EndsAs(pairing, reserved, old(tokens), file, now, fate, reply)
    {
      steps := before;
      Extend(w, steps, Persist(fate.persistStores, fate.persistThrows));
      steps := steps + [Persist(fate.persistStores, fate.persistThrows)];
      if fate.persistStores || !fate.persistThrows { tokens := tokens + {reserved.token}; }
      if fate.persistThrows {
        Extend(w, steps, Check(fate.checkThrows));
        steps := steps + [Check(fate.checkThrows)];
        if fate.checkThrows { return Failed, steps; }
        if reserved.token !in tokens {
          Extend(w, steps, RollBack(fate.lastWriteLands));
          steps := steps + [RollBack(fate.lastWriteLands)];
          if fate.lastWriteLands {
            ReplaceHolds(live, pairing, WithoutRedemption(pairing));
            file := Replace(live, WithoutRedemption(pairing));
          }
          return Failed, steps;
        }
      }
      Extend(w, steps, Finish(fate.lastWriteLands, true));
      steps := steps + [Finish(fate.lastWriteLands, true)];
      if !fate.lastWriteLands { return Failed, steps; }
      ReplaceHolds(live, pairing, pairing.(redemption := Some(Complete(reserved, now))));
      file := Replace(live, pairing.(redemption := Some(Complete(reserved, now))));
      reply := Success(pairing.identityId, reserved.token);
    }
  }
}
