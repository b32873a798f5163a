/** src/lib/identity/resolver.ts */
module IdentityCache {
  // The stat-keyed cache of `humans.json` over any number of directories and under concurrent loads, and the check
  // that makes the identities it holds unambiguous.
  //
  // A load runs in segments: read the clock and perhaps answer from the cache; stat the file; compare the key; read
  // the file; store what was read. Other loads, changes of the file and the clock come in between.

  import opened Wrappers

  // ---------------------------------------------------------------- the identities

  datatype Platform = Discord | Github

  const PLATFORMS: seq<Platform> := [Discord, Github]

  /** A configured human and the immutable account ids it claims. */
  datatype Human = Human(id: string, accounts: map<Platform, string>)

  type Config = seq<Human>

  const EMPTY: Config := []

  /** The account a human claims on a platform, lower-cased; none when it is missing or empty. */
  function Account(lower: string -> string, h: Human, p: Platform): Option<string> {
    if p in h.accounts && lower(h.accounts[p]) != "" then Some(lower(h.accounts[p])) else None
  }

  /** Two humans share neither id nor platform account. */
  ghost predicate Clear(lower: string -> string, a: Human, b: Human) {
    && lower(a.id) != lower(b.id)
    && forall p :: Account(lower, a, p).Some? ==> Account(lower, a, p) != Account(lower, b, p)
  }

  ghost predicate Unique(lower: string -> string, c: Config) {
    forall i, j :: 0 <= i < j < |c| ==> Clear(lower, c[i], c[j])
  }

  lemma Listed(p: Platform)
    ensures p == PLATFORMS[0] || p == PLATFORMS[1]
  {
    match p
    case Discord =>
    case Github =>
  }

  ghost predicate IdSeen(lower: string -> string, c: Config, n: nat, id: string)
    requires n <= |c|
  {
    exists k :: 0 <= k < n && lower(c[k].id) == id
  }

  ghost predicate AccountSeen(lower: string -> string, c: Config, n: nat, p: Platform, a: string)
    requires n <= |c|
  {
    exists k :: 0 <= k < n && Account(lower, c[k], p) == Some(a)
  }

  /** The collected sets hold exactly what the first n humans claim. */
  ghost predicate Collected(lower: string -> string, c: Config, n: nat, ids: set<string>, accounts: map<Platform, set<string>>)
    requires n <= |c|
  {
    && (forall id :: id in ids <==> IdSeen(lower, c, n, id))
    && (forall p: Platform :: p in accounts)
    && (forall p, a :: a in accounts[p] <==> AccountSeen(lower, c, n, p, a))
  }

  lemma CollectsOneMore(lower: string -> string, c: Config, n: nat, ids: set<string>,
                        before: map<Platform, set<string>>, after: map<Platform, set<string>>)
    requires n < |c| && Collected(lower, c, n, ids, before) && forall p: Platform :: p in after
    requires lower(c[n].id) !in ids && forall p :: Claimed(lower, before, after, c[n], p)
    requires Unique(lower, c[..n])
    ensures Collected(lower, c, n + 1, ids + {lower(c[n].id)}, after)
    ensures Unique(lower, c[..n + 1])
  {
    forall id ensures IdSeen(lower, c, n + 1, id) <==> IdSeen(lower, c, n, id) || id == lower(c[n].id) {
      if IdSeen(lower, c, n + 1, id) {
        var k :| 0 <= k < n + 1 && lower(c[k].id) == id;
      }
      if IdSeen(lower, c, n, id) {
        var k :| 0 <= k < n && lower(c[k].id) == id;
      }
    }
    forall p, a ensures a in after[p] <==> AccountSeen(lower, c, n + 1, p, a) { OneMoreAccount(lower, c, n, before, after, p, a); }
    forall i | 0 <= i < n ensures Clear(lower, c[i], c[n]) {
      assert IdSeen(lower, c, n, lower(c[i].id));
      forall p | Account(lower, c[i], p).Some? ensures Account(lower, c[i], p) != Account(lower, c[n], p) {
        assert AccountSeen(lower, c, n, p, Account(lower, c[i], p).value);
        assert Claimed(lower, before, after, c[n], p);
      }
    }
    forall i, j | 0 <= i < j < n + 1 ensures Clear(lower, c[i], c[j]) {
      if j < n { assert c[i] == c[..n][i] && c[j] == c[..n][j]; assert Clear(lower, c[..n][i], c[..n][j]); }
    }
  }

  lemma OneMoreAccount(lower: string -> string, c: Config, n: nat,
                       before: map<Platform, set<string>>, after: map<Platform, set<string>>, p: Platform, a: string)
    requires n < |c| && p in before && p in after && Claimed(lower, before, after, c[n], p)
    requires a in before[p] <==> AccountSeen(lower, c, n, p, a)
    ensures a in after[p] <==> AccountSeen(lower, c, n + 1, p, a)
  {
    if AccountSeen(lower, c, n + 1, p, a) {
      var k :| 0 <= k < n + 1 && Account(lower, c[k], p) == Some(a);
      if k < n { assert AccountSeen(lower, c, n, p, a); }
    }
    if AccountSeen(lower, c, n, p, a) {
      var k :| 0 <= k < n && Account(lower, c[k], p) == Some(a);
      assert AccountSeen(lower, c, n + 1, p, a);
    }
    if Account(lower, c[n], p) == Some(a) { assert AccountSeen(lower, c, n + 1, p, a); }
  }

  /** Throws exactly on a config in which two humans share an id or a platform account. */
  method AssertUniqueIdentities(lower: string -> string, config: Config) returns (ok: bool)
    ensures ok <==> Unique(lower, config)
  {
    var ids: set<string> := {};
    var accounts: map<Platform, set<string>> := map[Discord := {}, Github := {}];
    forall p: Platform ensures p in accounts { Listed(p); }
    for i := 0 to |config|
      invariant Collected(lower, config, i, ids, accounts)
      invariant Unique(lower, config[..i])
    {
      var human := config[i];
      var id := lower(human.id);
      if id in ids {
        IdClash(lower, config, i);
        return false;
      }
      ghost var before := accounts;
      ok, accounts := ClaimAccounts(lower, human, accounts);
      if !ok {
        AccountClash(lower, config, i, before, ids);
        return;
      }
      CollectsOneMore(lower, config, i, ids, before, accounts);
      ids := ids + {id};
    }
    assert config[..|config|] == config;
    return true;
  }

  lemma IdClash(lower: string -> string, c: Config, n: nat)
    requires n < |c| && IdSeen(lower, c, n, lower(c[n].id))
    ensures !Unique(lower, c)
  {
    var k :| 0 <= k < n && lower(c[k].id) == lower(c[n].id);
    assert !Clear(lower, c[k], c[n]);
  }

  lemma AccountClash(lower: string -> string, c: Config, n: nat, before: map<Platform, set<string>>, ids: set<string>)
    requires n < |c| && Collected(lower, c, n, ids, before) && exists p :: Taken(lower, before, c[n], p)
    ensures !Unique(lower, c)
  {
    var p :| Taken(lower, before, c[n], p);
    var a := Account(lower, c[n], p).value;
    assert AccountSeen(lower, c, n, p, a);
    var k :| 0 <= k < n && Account(lower, c[k], p) == Some(a);
    assert !Clear(lower, c[k], c[n]);
  }

  /** The inner loop over the platforms. */
  method ClaimAccounts(lower: string -> string, human: Human, before: map<Platform, set<string>>)
    returns (ok: bool, accounts: map<Platform, set<string>>)
    requires forall p: Platform :: p in before
    ensures forall p: Platform :: p in accounts
    ensures ok ==> forall p :: Claimed(lower, before, accounts, human, p)
    ensures !ok ==> exists p :: Taken(lower, before, human, p)
  {
    accounts := before;
    for j := 0 to |PLATFORMS|
      invariant forall p: Platform :: p in accounts
      invariant forall q :: 0 <= q < j ==> Claimed(lower, before, accounts, human, PLATFORMS[q])
      invariant forall q :: j <= q < |PLATFORMS| ==> accounts[PLATFORMS[q]] == before[PLATFORMS[q]]
    {
      var platform := PLATFORMS[j];
      var account := Account(lower, human, platform);
      if account.Some? {
        if account.value in accounts[platform] {
          assert Taken(lower, before, human, platform);
          return false, accounts;
        }
        accounts := accounts[platform := accounts[platform] + {account.value}];
      }
    }
    ok := true;
    forall p: Platform ensures Claimed(lower, before, accounts, human, p) { Listed(p); }
  }

  predicate Taken(lower: string -> string, accounts: map<Platform, set<string>>, h: Human, p: Platform) {
    Account(lower, h, p).Some? && p in accounts && Account(lower, h, p).value in accounts[p]
  }

  /** The human's account on the platform was free and is now taken. */
  ghost predicate Claimed(lower: string -> string, before: map<Platform, set<string>>, after: map<Platform, set<string>>,
                          h: Human, p: Platform)
    requires p in before && p in after
  {
    match Account(lower, h, p)
    case None => after[p] == before[p]
    case Some(a) => a !in before[p] && after[p] == before[p] + {a}
  }

  predicate Matches(lower: string -> string, h: Human, p: Platform, userId: string) {
    p in h.accounts && h.accounts[p] != "" && lower(h.accounts[p]) == lower(userId)
  }

  function FindHumanIdentityByPlatformId(lower: string -> string, c: Config, p: Platform, userId: string): Option<Human> {
    if c == [] then None
    else if Matches(lower, c[0], p, userId) then Some(c[0])
    else FindHumanIdentityByPlatformId(lower, c[1..], p, userId)
  }

  /** In an accepted config the resolution does not depend on the order: it finds h exactly when h is a human there
      that matches. */
  lemma {:induction false} ResolvesTheOnlyMatch(lower: string -> string, c: Config, p: Platform, userId: string, h: Human)
    requires Unique(lower, c) && forall s :: lower(s) == "" ==> s == ""
    ensures FindHumanIdentityByPlatformId(lower, c, p, userId) == Some(h) <==> h in c && Matches(lower, h, p, userId)
  {
    if c != [] {
      forall i, j | 0 <= i < j < |c[1..]| ensures Clear(lower, c[1..][i], c[1..][j]) {
        assert Clear(lower, c[i + 1], c[j + 1]);
      }
      ResolvesTheOnlyMatch(lower, c[1..], p, userId, h);
      assert c == [c[0]] + c[1..];
      if h in c[1..] && Matches(lower, h, p, userId) {
        var j :| 0 <= j < |c[1..]| && c[1..][j] == h;
        assert Clear(lower, c[0], c[j + 1]);
        assert Account(lower, h, p).Some?;
      }
    }
  }

  // ---------------------------------------------------------------- the files and the cache

  /** One candidate file: absent, or a version with its own stamp and the config it holds; none when it cannot be read,
      does not parse or is ambiguous, and loading it throws. */
  datatype Entry = Absent | File(stamp: nat, content: Option<Config>)

  /** One entry for each configured directory, in the order in which they are looked up. */
  type Snapshot = seq<Entry>

  type Key = seq<Option<nat>>

  function Part(e: Entry): Option<nat> {
    if e.Absent? then None else Some(e.stamp)
  }

  /** What the stats of all directories add up to. */
  function KeyOf(files: Snapshot): (key: Key)
    ensures |key| == |files| && forall d :: 0 <= d < |files| ==> key[d] == Part(files[d])
  {
    seq(|files|, d requires 0 <= d < |files| => Part(files[d]))
  }

  /** The first file present decides; without any the identities are empty. */
  function Content(files: Snapshot): Option<Config> {
    if files == [] then Some(EMPTY) else if files[0].File? then files[0].content else Content(files[1..])
  }

  method StatKey(files: Snapshot) returns (key: Key)
    ensures key == KeyOf(files)
  {
    var parts: Key := [];
    for d := 0 to |files|
      invariant |parts| == d && forall i :: 0 <= i < d ==> parts[i] == Part(files[i])
    {
      parts := parts + [if files[d].Absent? then None else Some(files[d].stamp)];
    }
    return parts;
  }

  method LoadHumanIdentities(files: Snapshot) returns (loaded: Option<Config>)
    ensures loaded == Content(files)
  {
    assert files[0..] == files;
    for d := 0 to |files|
      invariant Content(files) == Content(files[d..])
    {
      assert files[d..][1..] == files[d + 1..];
      if files[d].File? { return files[d].content; }
    }
    return Some(EMPTY);
  }

  /** The files as they were from `since` on. */
  datatype Moment = Moment(files: Snapshot, since: int)

  type History = seq<Moment>

  /** A stamp is never used again: between two moments at which a file has the same stamp it did not change. */
  ghost predicate Lasting(h: History, i: nat, j: nat, k: nat, d: nat) {
    (&& i <= j <= k < |h| && d < |h[i].files| && d < |h[j].files| && d < |h[k].files|
     && h[i].files[d].File? && Part(h[i].files[d]) == Part(h[k].files[d])) ==> h[j].files[d] == h[i].files[d]
  }

  ghost predicate WellDated(h: History, now: int) {
    && h != []
    && (forall i, j :: 0 <= i < j < |h| ==> h[i].since <= h[j].since && |h[i].files| == |h[j].files|)
    && h[|h| - 1].since <= now
    && (forall i, j, k, d :: Lasting(h, i, j, k, d))
  }

  /** Equal keys at two moments mean equal files. */
  lemma SameKeySameFiles(h: History, now: int, i: nat, k: nat)
    requires WellDated(h, now) && i < |h| && k < |h| && KeyOf(h[i].files) == KeyOf(h[k].files)
    ensures h[i].files == h[k].files
  {
    if i <= k { SameKeyLater(h, now, i, k); } else { SameKeyLater(h, now, k, i); }
  }

  lemma SameKeyLater(h: History, now: int, i: nat, k: nat)
    requires WellDated(h, now) && i <= k < |h| && KeyOf(h[i].files) == KeyOf(h[k].files)
    ensures h[i].files == h[k].files
  {
    assert |KeyOf(h[i].files)| == |KeyOf(h[k].files)|;
    forall d: nat | d < |h[i].files| ensures h[i].files[d] == h[k].files[d] {
      assert KeyOf(h[i].files)[d] == KeyOf(h[k].files)[d];
      assert Lasting(h, i, k, k, d);
    }
  }

  /** The fields of the store. */
  datatype Store = Store(cache: Config, cacheKey: Option<Key>, checkedAt: int)

  const INITIAL := Store(EMPTY, None, 0)

  predicate WithinTtl(s: Store, ttl: int, now: int) {
    ttl > 0 && s.cacheKey.Some? && now - s.checkedAt < ttl
  }

  // ---------------------------------------------------------------- concurrent loads

  /** An answer: the load that last checked it started at `asOf`, when moment `from` was the latest; `until` is the
      latest moment when it was given; `checked` says that this load checked it itself. */
  datatype Stage =
    | Statting
    | Statted(seen: nat)
    | Reading(seen: nat)
    | HasRead(seen: nat, read: nat)
    | Answered(config: Config, asOf: int, from: nat, until: nat, checked: bool)
    | Threw

  /** `began` is the latest moment when the load started. */
  datatype Load = Load(start: int, began: nat, stage: Stage)

  /** `keyOf` and `readFrom` name the moments the cache's key and content were taken from, `checkedFrom` the latest
      one when the load started that last checked them. */
  datatype World = World(now: int, history: History, store: Store, loads: seq<Load>, keyOf: nat, readFrom: nat, checkedFrom: nat)
  {
    function Latest(): nat { if history == [] then 0 else |history| - 1 }
  }

  datatype Event =
    | Tick(to: int)
    | Change(files: Snapshot)
    | Begin
    | Stat(i: nat, ok: bool)
    | Compare(i: nat)
    | Read(i: nat, ok: bool)
    | Finish(i: nat)

  predicate At(w: World, i: nat) { i < |w.loads| }

  ghost predicate Enabled(w: World, e: Event) {
    match e
    case Tick(to) => w.now <= to
    case Change(files) => WellDated(w.history + [Moment(files, w.now)], w.now)
    case Begin => true
    case Stat(i, _) => At(w, i) && w.loads[i].stage.Statting?
    case Compare(i) => At(w, i) && w.loads[i].stage.Statted? && w.loads[i].stage.seen < |w.history|
    case Read(i, ok) =>
      At(w, i) && w.loads[i].stage.Reading? && w.history != [] && (ok ==> Content(w.history[w.Latest()].files).Some?)
    case Finish(i) =>
      (&& At(w, i) && w.loads[i].stage.HasRead? && w.loads[i].stage.seen < |w.history|
       && w.loads[i].stage.read < |w.history| && Content(w.history[w.loads[i].stage.read].files).Some?)
  }

  function Go(w: World, i: nat, stage: Stage): World
    requires At(w, i)
  {
    w.(loads := w.loads[i := w.loads[i].(stage := stage)])
  }

  /** The comparison finds the cached key unchanged. */
  predicate Hits(w: World, i: nat) {
    && At(w, i) && w.loads[i].stage.Statted? && w.loads[i].stage.seen < |w.history|
    && w.store.cacheKey == Some(KeyOf(w.history[w.loads[i].stage.seen].files))
  }

  ghost function Apply(w: World, e: Event, ttl: int): World
    requires Enabled(w, e)
  {
    match e
    case Tick(to) => w.(now := to)
    case Change(files) => w.(history := w.history + [Moment(files, w.now)])
    case Begin =>
      var stage := if WithinTtl(w.store, ttl, w.now)
                   then Answered(w.store.cache, w.store.checkedAt, w.checkedFrom, w.Latest(), false) else Statting;
      w.(loads := w.loads + [Load(w.now, w.Latest(), stage)])
    case Stat(i, ok) => Go(w, i, if ok && w.history != [] then Statted(w.Latest()) else Threw)
    case Compare(i) =>
      var l := w.loads[i];
      if Hits(w, i) then
        Go(w, i, Answered(w.store.cache, l.start, l.began, w.Latest(), true))
          .(store := w.store.(checkedAt := l.start), checkedFrom := l.began)
      else Go(w, i, Reading(l.stage.seen))
    case Read(i, ok) =>
      Go(w, i, if ok then HasRead(w.loads[i].stage.seen, w.Latest()) else Threw)
    case Finish(i) =>
      var l := w.loads[i];
      var c := Content(w.history[l.stage.read].files).value;
      Go(w, i, Answered(c, l.start, l.began, w.Latest(), true))
        .(store := Store(c, Some(KeyOf(w.history[l.stage.seen].files)), l.start),
          keyOf := l.stage.seen, readFrom := l.stage.read, checkedFrom := l.began)
  }

  /** The cache is not the content its key stands for: the files changed between the stat and the read. */
  ghost predicate Poisoned(w: World) {
    w.store.cacheKey.Some? && w.keyOf < |w.history| && Content(w.history[w.keyOf].files) != Some(w.store.cache)
  }

  ghost predicate Initial(w: World) {
    w.store == INITIAL && w.loads == [] && WellDated(w.history, w.now)
  }

  ghost predicate Run(ws: seq<World>, es: seq<Event>, ttl: int) {
    && |ws| == |es| + 1
    && (forall i :: 0 <= i < |es| ==> Enabled(ws[i], es[i]) && ws[i + 1] == Apply(ws[i], es[i], ttl))
  }

  /** No load is answered by key from a poisoned cache. */
  ghost predicate NoPoisonedHit(w: World, e: Event) {
    e.Compare? && Hits(w, e.i) ==> !Poisoned(w)
  }

  // ---------------------------------------------------------------- the invariant

  /** The moment was the latest at time m. */
  predicate Dated(h: History, p: nat, m: int) {
    p < |h| && (p + 1 < |h| ==> m <= h[p + 1].since)
  }

  /** The config was the files' content at one of these moments. */
  ghost predicate Served(h: History, c: Config, from: nat, until: nat) {
    exists v :: from <= v <= until && v < |h| && Content(h[v].files) == Some(c)
  }

  ghost predicate StoreOk(w: World) {
    w.store.cacheKey.Some? ==>
      && w.keyOf <= w.readFrom < |w.history|
      && w.store.cacheKey == Some(KeyOf(w.history[w.keyOf].files))
      && Dated(w.history, w.checkedFrom, w.store.checkedAt) && w.store.checkedAt <= w.now
      && Served(w.history, w.store.cache, w.checkedFrom, w.Latest())
      && exists i :: ChecksFor(w, i)
  }

  /** The load whose start the store remembers completed a check. */
  predicate ChecksFor(w: World, i: nat) {
    At(w, i) && w.loads[i].start == w.store.checkedAt && w.loads[i].stage.Answered? && w.loads[i].stage.checked
  }

  ghost predicate LoadOk(h: History, now: int, l: Load, ttl: int) {
    && l.start <= now && Dated(h, l.began, l.start)
    && match l.stage
       case Statting => true
       case Statted(v) => l.began <= v < |h|
       case Reading(v) => l.began <= v < |h|
       case HasRead(v, r) => l.began <= v <= r < |h| && Content(h[r].files).Some?
       case Answered(c, asOf, from, until, checked) =>
         && Served(h, c, from, until) && Dated(h, from, asOf) && asOf <= now && until < |h|
         && (if checked then from == l.began && asOf == l.start else ttl > 0 && l.start - ttl < asOf)
       case Threw => true
  }

  ghost predicate Inv(w: World, ttl: int) {
    && WellDated(w.history, w.now)
    && StoreOk(w)
    && forall i :: 0 <= i < |w.loads| ==> LoadOk(w.history, w.now, w.loads[i], ttl)
  }

  lemma StaysDated(h: History, x: Moment, p: nat, m: int)
    requires Dated(h, p, m) && m <= x.since
    ensures Dated(h + [x], p, m)
  {
  }

  lemma StaysServed(h: History, x: Moment, c: Config, from: nat, until: nat, later: nat)
    requires Served(h, c, from, until) && until <= later
    ensures Served(h + [x], c, from, later)
  {
    var v :| from <= v <= until && v < |h| && Content(h[v].files) == Some(c);
    assert (h + [x])[v] == h[v];
  }

  lemma LoadStaysOk(h: History, x: Moment, now: int, l: Load, ttl: int)
    requires LoadOk(h, now, l, ttl) && x.since == now
    ensures LoadOk(h + [x], now, l, ttl)
  {
    StaysDated(h, x, l.began, l.start);
    if l.stage.Answered? {
      StaysDated(h, x, l.stage.from, l.stage.asOf);
      StaysServed(h, x, l.stage.config, l.stage.from, l.stage.until, l.stage.until);
    }
  }

  lemma GoKeepsLoads(w: World, i: nat, stage: Stage, ttl: int)
    requires Inv(w, ttl) && At(w, i) && LoadOk(w.history, w.now, w.loads[i].(stage := stage), ttl)
    ensures forall k :: 0 <= k < |Go(w, i, stage).loads| ==> LoadOk(w.history, w.now, Go(w, i, stage).loads[k], ttl)
  {
  }

  /** Moving on a load that has not answered keeps the load that checked. */
  lemma GoKeepsCheck(w: World, i: nat, stage: Stage)
    requires At(w, i) && !w.loads[i].stage.Answered? && StoreOk(w)
    ensures StoreOk(Go(w, i, stage))
  {
    if w.store.cacheKey.Some? {
      var k :| ChecksFor(w, k);
      assert ChecksFor(Go(w, i, stage), k);
    }
  }

  lemma TickKeeps(w: World, to: int, ttl: int)
    requires Inv(w, ttl) && Enabled(w, Tick(to))
    ensures Inv(Apply(w, Tick(to), ttl), ttl)
  {
    if w.store.cacheKey.Some? {
      var k :| ChecksFor(w, k);
      assert ChecksFor(Apply(w, Tick(to), ttl), k);
    }
  }

  lemma ChangeKeeps(w: World, files: Snapshot, ttl: int)
    requires Inv(w, ttl) && Enabled(w, Change(files))
    ensures Inv(Apply(w, Change(files), ttl), ttl)
  {
    var x := Moment(files, w.now);
    var n := Apply(w, Change(files), ttl);
    if w.store.cacheKey.Some? {
      var k :| ChecksFor(w, k);
      assert ChecksFor(n, k);
      StaysDated(w.history, x, w.checkedFrom, w.store.checkedAt);
      StaysServed(w.history, x, w.store.cache, w.checkedFrom, w.Latest(), n.Latest());
    }
    forall k | 0 <= k < |n.loads| ensures LoadOk(n.history, n.now, n.loads[k], ttl) {
      LoadStaysOk(w.history, x, w.now, w.loads[k], ttl);
    }
  }

  lemma BeginKeeps(w: World, ttl: int)
    requires Inv(w, ttl)
    ensures Inv(Apply(w, Begin, ttl), ttl)
  {
    if w.store.cacheKey.Some? {
      var k :| ChecksFor(w, k);
      assert ChecksFor(Apply(w, Begin, ttl), k);
    }
  }

  /** Answering under an unchanged key: the cached content is the files' content at the moment of the stat. */
  lemma HitIsFresh(w: World, v: nat)
    requires WellDated(w.history, w.now) && StoreOk(w) && !Poisoned(w)
    requires v < |w.history| && w.store.cacheKey == Some(KeyOf(w.history[v].files))
    ensures Content(w.history[v].files) == Some(w.store.cache)
  {
    SameKeySameFiles(w.history, w.now, w.keyOf, v);
  }

  lemma CompareKeeps(w: World, i: nat, ttl: int)
    requires Inv(w, ttl) && Enabled(w, Compare(i)) && NoPoisonedHit(w, Compare(i))
    ensures Inv(Apply(w, Compare(i), ttl), ttl)
  {
    var l := w.loads[i];
    if Hits(w, i) {
      HitIsFresh(w, l.stage.seen);
      assert Served(w.history, w.store.cache, l.began, w.Latest());
      GoKeepsLoads(w, i, Answered(w.store.cache, l.start, l.began, w.Latest(), true), ttl);
      assert ChecksFor(Apply(w, Compare(i), ttl), i);
    } else {
      GoKeepsLoads(w, i, Reading(l.stage.seen), ttl);
      GoKeepsCheck(w, i, Reading(l.stage.seen));
    }
  }

  lemma FinishKeeps(w: World, i: nat, ttl: int)
    requires Inv(w, ttl) && Enabled(w, Finish(i))
    ensures Inv(Apply(w, Finish(i), ttl), ttl)
  {
    var l := w.loads[i];
    var c := Content(w.history[l.stage.read].files).value;
    assert LoadOk(w.history, w.now, l, ttl);
    assert Served(w.history, c, l.began, w.Latest());
    GoKeepsLoads(w, i, Answered(c, l.start, l.began, w.Latest(), true), ttl);
    assert ChecksFor(Apply(w, Finish(i), ttl), i);
  }

  lemma StepKeepsInv(w: World, e: Event, ttl: int)
    requires Inv(w, ttl) && Enabled(w, e) && NoPoisonedHit(w, e)
    ensures Inv(Apply(w, e, ttl), ttl)
  {
    match e
    case Tick(to) => TickKeeps(w, to, ttl);
    case Change(files) => ChangeKeeps(w, files, ttl);
    case Begin => BeginKeeps(w, ttl);
    case Stat(i, ok) =>
      var stage := if ok && w.history != [] then Statted(w.Latest()) else Threw;
      GoKeepsLoads(w, i, stage, ttl);
      GoKeepsCheck(w, i, stage);
    case Compare(i) => CompareKeeps(w, i, ttl);
    case Read(i, ok) =>
      var stage := if ok then HasRead(w.loads[i].stage.seen, w.Latest()) else Threw;
      GoKeepsLoads(w, i, stage, ttl);
      GoKeepsCheck(w, i, stage);
    case Finish(i) => FinishKeeps(w, i, ttl);
  }

  lemma {:induction false} RunKeepsInv(ws: seq<World>, es: seq<Event>, ttl: int)
    requires Run(ws, es, ttl) && Initial(ws[0]) && forall i :: 0 <= i < |es| ==> NoPoisonedHit(ws[i], es[i])
    ensures Inv(ws[|ws| - 1], ttl)
  {
    if es != [] {
      RunKeepsInv(ws[..|es|], es[..|es| - 1], ttl);
      StepKeepsInv(ws[|es| - 1], es[|es| - 1], ttl);
    }
  }

  /** The answer was the files' content at moment v: not before the latest moment at the load's start when the TTL is
      not positive, and otherwise at some time later than start - TTL. */
  ghost predicate Current(h: History, l: Load, ttl: int, v: nat)
    requires l.stage.Answered?
  {
    && v < |h| && v <= l.stage.until && Content(h[v].files) == Some(l.stage.config)
    && (ttl <= 0 ==> l.began <= v)
    && (ttl > 0 && v + 1 < |h| ==> l.start - ttl < h[v + 1].since)
  }

  /** Freshness: however loads, file changes and failures interleave, as long as no load is answered by key from a
      poisoned cache, every answer was the files' content within the TTL. */
  lemma AnswersAreFresh(ws: seq<World>, es: seq<Event>, ttl: int, i: nat)
    requires Run(ws, es, ttl) && Initial(ws[0]) && forall k :: 0 <= k < |es| ==> NoPoisonedHit(ws[k], es[k])
    requires At(ws[|ws| - 1], i) && ws[|ws| - 1].loads[i].stage.Answered?
    ensures var h, l := ws[|ws| - 1].history, ws[|ws| - 1].loads[i]; exists v :: Current(h, l, ttl, v)
  {
    RunKeepsInv(ws, es, ttl);
    var h, l := ws[|ws| - 1].history, ws[|ws| - 1].loads[i];
    assert LoadOk(h, ws[|ws| - 1].now, l, ttl);
    var v :| l.stage.from <= v <= l.stage.until && v < |h| && Content(h[v].files) == Some(l.stage.config);
    assert v + 1 < |h| ==> h[l.stage.from + 1].since <= h[v + 1].since;
    assert Current(h, l, ttl, v);
  }

  /** A failed reload never extends the cache's life: the age of the cache counts from the start of a load that
      completed its check. */
  lemma AgeCountsFromACheck(ws: seq<World>, es: seq<Event>, ttl: int)
    requires Run(ws, es, ttl) && Initial(ws[0]) && forall k :: 0 <= k < |es| ==> NoPoisonedHit(ws[k], es[k])
    requires ws[|ws| - 1].store.cacheKey.Some?
    ensures var w := ws[|ws| - 1]; exists i :: ChecksFor(w, i)
  {
    RunKeepsInv(ws, es, ttl);
  }

  /** An unchanged key answers with the files' present content exactly when the cache is not poisoned. */
  lemma HitIsCurrentIff(w: World, ttl: int, i: nat)
    requires Inv(w, ttl) && Hits(w, i) && w.loads[i].stage.seen == w.Latest()
    ensures Content(w.history[w.Latest()].files) == Some(w.store.cache) <==> !Poisoned(w)
  {
    SameKeySameFiles(w.history, w.now, w.keyOf, w.Latest());
  }

  // ---------------------------------------------------------------- when a cache goes stale

  /** Every file the cached key names is still the one it named, so the key comes back when the others go. */
  ghost predicate CanReturn(w: World) {
    && w.keyOf < |w.history|
    && forall d :: 0 <= d < |w.history[w.keyOf].files| && w.history[w.keyOf].files[d].File? ==>
         d < |w.history[w.Latest()].files| && w.history[w.Latest()].files[d] == w.history[w.keyOf].files[d]
  }

  /** Only the clock, the files and load n go on, and that load does not read the files. */
  ghost predicate Undisturbed(es: seq<Event>, n: nat) {
    forall k :: 0 <= k < |es| ==> es[k].Tick? || es[k].Change? || es[k].Begin? || (es[k].Stat? && es[k].i == n) || es[k] == Compare(n)
  }

  /** The answer was not the files' content at any time since `delay` before the load's start. */
  ghost predicate Stale(h: History, l: Load, delay: int)
    requires l.stage.Answered?
  {
    forall v: nat :: Dated(h, v, l.start - delay) ==> Content(h[v].files) != Some(l.stage.config)
  }

  ghost predicate StaleAnswer(w: World, n: nat, delay: int) {
    At(w, n) && w.loads[n].stage.Answered? && Stale(w.history, w.loads[n], delay)
  }

  /** The next load can be answered from the cache as it is now with identities gone for longer than the delay. */
  ghost predicate GoesStale(w: World, ttl: int, delay: int) {
    exists ws: seq<World>, es: seq<Event> :: Run(ws, es, ttl) && ws[0] == w && Undisturbed(es, |w.loads|) && StaleAnswer(ws[|ws| - 1], |w.loads|, delay)
  }

  /** When the files become again what the cached key names, a load beginning later than the delay still answers
      with the cache. */
  lemma PoisonGoesStale(w: World, ttl: int, delay: nat)
    requires WellDated(w.history, w.now) && w.store.cacheKey.Some? && Poisoned(w) && CanReturn(w)
    requires w.store.cacheKey == Some(KeyOf(w.history[w.keyOf].files))
    ensures GoesStale(w, ttl, delay)
  {
    var n := |w.loads|;
    var files := w.history[w.keyOf].files;
    var wait := if delay + 1 < ttl + w.store.checkedAt - w.now then ttl + w.store.checkedAt - w.now else delay + 1;
    KeyReturns(w);
    var w1 := Apply(w, Change(files), ttl);
    var w2 := Apply(w1, Tick(w.now + wait), ttl);
    var w3 := Apply(w2, Begin, ttl);
    var w4 := Apply(w3, Stat(n, true), ttl);
    assert Hits(w4, n);
    var w5 := Apply(w4, Compare(n), ttl);
    var es := [Change(files), Tick(w.now + wait), Begin, Stat(n, true), Compare(n)];
    StaleAfter(w.history, Moment(files, w.now), w5.loads[n], w.now, delay);
    assert Run([w, w1, w2, w3, w4, w5], es, ttl);
    assert StaleAnswer(w5, n, delay);
  }

  lemma KeyReturns(w: World)
    requires WellDated(w.history, w.now) && CanReturn(w)
    ensures WellDated(w.history + [Moment(w.history[w.keyOf].files, w.now)], w.now)
  {
    var h := w.history;
    var g := h + [Moment(h[w.keyOf].files, w.now)];
    var m := w.Latest();
    assert |h[m].files| == |h[w.keyOf].files|;
    forall i: nat, j: nat, k: nat, d: nat ensures Lasting(g, i, j, k, d) {
      var k' := if k == |h| then m else k;
      var j' := if j == |h| then m else j;
      if i < |h| && j <= k { assert Lasting(h, i, j', k', d); }
    }
  }

  lemma StaleAfter(h: History, x: Moment, l: Load, now: int, delay: nat)
    requires WellDated(h, now) && x.since == now && l.stage.Answered? && now + delay < l.start
    requires Content(x.files) != Some(l.stage.config)
    ensures Stale(h + [x], l, delay)
  {
    var g := h + [x];
    assert forall j :: 0 <= j < |g| ==> g[j].since <= now;
    forall v: nat | Dated(g, v, l.start - delay) ensures Content(g[v].files) != Some(l.stage.config) {
      assert v == |g| - 1;
    }
  }

  /** What an undisturbed run keeps of the state it started from. */
  ghost predicate Follows(w: World, x: World, ttl: int) {
    var n := |w.loads|;
    && x.store.cache == w.store.cache && x.store.cacheKey == w.store.cacheKey
    && Later(w, x) && n <= |x.loads|
    && (At(x, n) ==> ByKeyOrYoung(w, x, x.loads[n], ttl))
    && ((At(x, n) && x.loads[n].stage.Answered?) || x.store.checkedAt == w.store.checkedAt)
  }

  ghost predicate Later(w: World, x: World) {
    && w.history <= x.history && WellDated(x.history, x.now) && w.now <= x.now
    && forall k :: |w.history| <= k < |x.history| ==> w.now <= x.history[k].since
  }

  /** The load has not answered, or answered within the TTL, or found the cached key. */
  ghost predicate ByKeyOrYoung(w: World, x: World, l: Load, ttl: int) {
    && w.Latest() <= l.began && Dated(x.history, l.began, l.start) && l.start <= x.now
    && match l.stage
       case Statting => true
       case Statted(v) => l.began <= v < |x.history|
       case Reading(_) => true
       case HasRead(_, _) => false
       case Answered(c, _, _, _, checked) =>
         c == w.store.cache && w.store.cacheKey.Some? &&
         if checked then FoundKey(w, x, l.began) else l.start - w.store.checkedAt < ttl
       case Threw => true
  }

  /** The cached key was the files' key at some moment after w. */
  ghost predicate FoundKey(w: World, x: World, began: nat) {
    exists v :: began <= v < |x.history| && w.store.cacheKey == Some(KeyOf(x.history[v].files))
  }

  lemma ByKeyStays(w: World, x: World, y: World, l: Load, ttl: int)
    requires ByKeyOrYoung(w, x, l, ttl) && x.now <= y.now
    requires y.history == x.history || exists files :: y.history == x.history + [Moment(files, x.now)]
    ensures ByKeyOrYoung(w, y, l, ttl)
  {
    if l.stage.Answered? && l.stage.checked {
      var v :| l.began <= v < |x.history| && w.store.cacheKey == Some(KeyOf(x.history[v].files));
      assert y.history[v] == x.history[v];
    }
  }

  lemma FollowStep(w: World, x: World, e: Event, ttl: int)
    requires WellDated(w.history, w.now) && Follows(w, x, ttl) && Enabled(x, e)
    requires e.Tick? || e.Change? || e.Begin? || (e.Stat? && e.i == |w.loads|) || e == Compare(|w.loads|)
    ensures Follows(w, Apply(x, e, ttl), ttl)
  {
    var n := |w.loads|;
    var y := Apply(x, e, ttl);
    if At(x, n) && !e.Stat? && !e.Compare? { ByKeyStays(w, x, y, x.loads[n], ttl); }
    if e == Compare(n) && Hits(x, n) {
      assert FoundKey(w, y, x.loads[n].began);
    }
  }

  lemma {:induction false} RunFollows(ws: seq<World>, es: seq<Event>, ttl: int)
    requires Run(ws, es, ttl) && WellDated(ws[0].history, ws[0].now) && Undisturbed(es, |ws[0].loads|)
    ensures Follows(ws[0], ws[|ws| - 1], ttl)
  {
    if es != [] {
      RunFollows(ws[..|es|], es[..|es| - 1], ttl);
      FollowStep(ws[0], ws[|es| - 1], es[|es| - 1], ttl);
    }
  }

  /** An answer within the TTL is not stale. */
  lemma YoungIsNotStale(w: World, x: World, l: Load, ttl: int, delay: nat)
    requires Inv(w, ttl) && w.store.cacheKey.Some? && Later(w, x) && ttl <= delay
    requires l.stage.Answered? && l.stage.config == w.store.cache && l.start - w.store.checkedAt < ttl
    ensures !Stale(x.history, l, delay)
  {
    var v :| w.checkedFrom <= v <= w.Latest() && v < |w.history| && Content(w.history[v].files) == Some(w.store.cache);
    assert x.history[v] == w.history[v];
    assert v + 1 < |w.history| ==> w.history[w.checkedFrom + 1].since <= w.history[v + 1].since == x.history[v + 1].since;
    assert Dated(x.history, v, l.start - delay);
  }

  /** A stale answer under the cached key needs a poisoned cache whose key came back. */
  lemma StaleByKey(w: World, x: World, l: Load, ttl: int, delay: nat)
    requires Inv(w, ttl) && w.store.cacheKey.Some? && Later(w, x)
    requires ByKeyOrYoung(w, x, l, ttl) && l.stage.Answered? && l.stage.checked && Stale(x.history, l, delay)
    ensures Poisoned(w) && CanReturn(w)
  {
    var h := x.history;
    var v :| l.began <= v < |h| && w.store.cacheKey == Some(KeyOf(h[v].files));
    LaterIsDated(h, x.now, l.began, l.start, v, delay);
    assert h[w.keyOf] == w.history[w.keyOf];
    SameKeySameFiles(h, x.now, w.keyOf, v);
    FilesReturned(w, x, v);
  }

  lemma LaterIsDated(h: History, now: int, p: nat, m: int, v: nat, delay: nat)
    requires WellDated(h, now) && Dated(h, p, m) && p <= v < |h|
    ensures Dated(h, v, m - delay)
  {
    assert v + 1 < |h| ==> h[p + 1].since <= h[v + 1].since;
  }

  /** What is as the key named it at both ends was so all the time. */
  lemma FilesReturned(w: World, x: World, v: nat)
    requires WellDated(w.history, w.now) && Later(w, x) && w.keyOf < |w.history| && w.Latest() <= v < |x.history|
    requires x.history[v].files == w.history[w.keyOf].files
    ensures CanReturn(w)
  {
    var h := x.history;
    assert h[w.keyOf] == w.history[w.keyOf] && h[w.Latest()] == w.history[w.Latest()];
    assert w.keyOf < w.Latest() ==> |h[w.keyOf].files| == |h[w.Latest()].files|;
    forall d: nat | d < |h[w.keyOf].files| && h[w.keyOf].files[d].File?
      ensures h[w.Latest()].files[d] == h[w.keyOf].files[d]
    {
      assert Lasting(h, w.keyOf, w.Latest(), v, d);
    }
  }

  /** Exactly when the cache is not the content its key stands for and the key can come back, the next load can be
      answered with identities that are gone, after any delay not shorter than the TTL. */
  lemma GoesStaleIff(w: World, ttl: int, delay: nat)
    requires Inv(w, ttl) && w.store.cacheKey.Some? && ttl <= delay
    ensures GoesStale(w, ttl, delay) <==> Poisoned(w) && CanReturn(w)
  {
    if Poisoned(w) && CanReturn(w) { PoisonGoesStale(w, ttl, delay); }
    if GoesStale(w, ttl, delay) {
      var ws: seq<World>, es: seq<Event> :| Run(ws, es, ttl) && ws[0] == w && Undisturbed(es, |w.loads|) && StaleAnswer(ws[|ws| - 1], |w.loads|, delay);
      RunFollows(ws, es, ttl);
      var x := ws[|ws| - 1];
      var l := x.loads[|w.loads|];
      if l.stage.checked { StaleByKey(w, x, l, ttl, delay); } else { YoungIsNotStale(w, x, l, ttl, delay); }
    }
  }

  /** One load that finds a directory's file missing just before it appears poisons the cache, whatever the TTL and
      whatever the other directories hold. */
  lemma PoisonIsReachable(others: Snapshot, c: Config, ttl: int) returns (ws: seq<World>, es: seq<Event>)
    requires Content(others) != Some(c)
    ensures Run(ws, es, ttl) && Initial(ws[0]) && Poisoned(ws[|ws| - 1]) && CanReturn(ws[|ws| - 1])
    ensures forall i :: 0 <= i < |es| ==> NoPoisonedHit(ws[i], es[i])
  {
    Appearing(others, File(1, Some(c)));
    ws, es := PoisonRun([Absent] + others, [File(1, Some(c))] + others, c, ttl);
  }

  /** A load that stats the one snapshot and reads the other. */
  lemma PoisonRun(missing: Snapshot, appeared: Snapshot, c: Config, ttl: int) returns (ws: seq<World>, es: seq<Event>)
    requires WellDated([Moment(missing, 0)], 0) && WellDated([Moment(missing, 0)] + [Moment(appeared, 0)], 0)
    requires Content(missing) != Some(c) && Content(appeared) == Some(c)
    requires forall d :: 0 <= d < |missing| && missing[d].File? ==> d < |appeared| && appeared[d] == missing[d]
    ensures Run(ws, es, ttl) && Initial(ws[0]) && Poisoned(ws[|ws| - 1]) && CanReturn(ws[|ws| - 1])
    ensures forall i :: 0 <= i < |es| ==> NoPoisonedHit(ws[i], es[i])
  {
    var w0 := World(0, [Moment(missing, 0)], INITIAL, [], 0, 0, 0);
    var w1 := Apply(w0, Begin, ttl);
    var w2 := Apply(w1, Stat(0, true), ttl);
    assert w2.loads == [Load(0, 0, Statted(0))];
    var w3 := Apply(w2, Compare(0), ttl);
    assert w3.loads == [Load(0, 0, Reading(0))];
    var w4 := Apply(w3, Change(appeared), ttl);
    var w5 := Apply(w4, Read(0, true), ttl);
    assert w5.loads == [Load(0, 0, HasRead(0, 1))];
    es := [Begin, Stat(0, true), Compare(0), Change(appeared), Read(0, true), Finish(0)];
    ws := [w0, w1, w2, w3, w4, w5, Apply(w5, Finish(0), ttl)];
  }

  lemma Appearing(others: Snapshot, file: Entry)
    requires file.File?
    ensures var missing, appeared := [Absent] + others, [file] + others;
      && WellDated([Moment(missing, 0)], 0) && WellDated([Moment(missing, 0)] + [Moment(appeared, 0)], 0)
      && Content(missing) == Content(others) && Content(appeared) == file.content
      && forall d :: 0 <= d < |missing| && missing[d].File? ==> d < |appeared| && appeared[d] == missing[d]
  {
    var missing, appeared := [Absent] + others, [file] + others;
    assert missing[1..] == others && appeared[1..] == others;
    assert forall d :: 1 <= d < |missing| ==> missing[d] == appeared[d];
    var h := [Moment(missing, 0)] + [Moment(appeared, 0)];
    forall i: nat, j: nat, k: nat, d: nat ensures Lasting(h, i, j, k, d) && Lasting([Moment(missing, 0)], i, j, k, d) {
      if i == 0 && d > 0 && d < |missing| { assert missing[d] == appeared[d]; }
    }
  }

  // ---------------------------------------------------------------- the store

  /** What the load has answered, if it has. */
  function AnswerOf(w: World, i: nat): Option<Config> {
    if At(w, i) && w.loads[i].stage.Answered? then Some(w.loads[i].stage.config) else None
  }

  /** `load`, segment by segment, among everything else that happens. A load that fails in between calls nothing
      more. */
  class HumanIdentityStore {
    const ttlMs: int
    var cache: Config
    var cacheKey: Option<Key>
    var checkedAt: int
    ghost var around: World

    ghost function View(): World
      reads this
    {
      around.(store := Store(cache, cacheKey, checkedAt))
    }

    constructor (ttlMs: int, ghost files: Snapshot, ghost now: int)
      ensures this.ttlMs == ttlMs && View() == World(now, [Moment(files, now)], INITIAL, [], 0, 0, 0)
    {
      this.ttlMs := ttlMs;
      cache, cacheKey, checkedAt := EMPTY, None, 0;
      around := World(now, [Moment(files, now)], INITIAL, [], 0, 0, 0);
    }

    /** Up to the first await. */
    method BeginLoad(now: int) returns (answer: Option<Config>)
      requires now == View().now
      modifies this
      ensures View() == Apply(old(View()), Begin, ttlMs)
      ensures answer == AnswerOf(View(), |old(View()).loads|)
    {
      around := Apply(View(), Begin, ttlMs);
      if ttlMs > 0 && cacheKey.Some? && now - checkedAt < ttlMs { return Some(cache); }
      return None;
    }

    /** After the stat: an unchanged key answers and renews the check as of the load's own start. */
    method AfterStat(ghost i: nat, now: int, key: Key) returns (answer: Option<Config>)
      requires Enabled(View(), Compare(i)) && now == View().loads[i].start
      requires key == KeyOf(View().history[View().loads[i].stage.seen].files)
      modifies this
      ensures View() == Apply(old(View()), Compare(i), ttlMs)
      ensures answer == AnswerOf(View(), i)
    {
      around := Apply(View(), Compare(i), ttlMs);
      if cacheKey == Some(key) {
        checkedAt := now;
        return Some(cache);
      }
      return None;
    }

    /** After the read: what was read replaces the cache, under the key seen before. */
    method AfterRead(ghost i: nat, now: int, key: Key, loaded: Config) returns (answer: Config)
      requires Enabled(View(), Finish(i)) && now == View().loads[i].start
      requires key == KeyOf(View().history[View().loads[i].stage.seen].files)
      requires Content(View().history[View().loads[i].stage.read].files) == Some(loaded)
      modifies this
      ensures View() == Apply(old(View()), Finish(i), ttlMs)
      ensures AnswerOf(View(), i) == Some(answer)
    {
      around := Apply(View(), Finish(i), ttlMs);
      cache := loaded;
      cacheKey := Some(key);
      checkedAt := now;
      return cache;
    }
  }
}
