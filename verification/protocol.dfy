// The replication protocol as small steps: storage writers, broadcast workers,
// Refresh calls, connections with their message queues, and clients.
//
// Guards stand for the locks of stream/stream.go.  A worker between Enter and
// Leave holds the stream lock for reading, so steps that take it for writing
// (Subscribe, Commit, Close) need NoBroadcast; a worker between LockPool and
// Unlock holds that pool's lock.  Storage is not locked by any of them: writes
// interleave with every read, and a read during which a visible key changed
// may return anything.
module Protocol {
  import opened Common
  import opened Text
  import opened Json
  import opened Messages
  import opened Patching
  import Key
  import Numerals

  // What a server is configured with.  matches is key.Match, kept as a parameter
  // because nothing here depends on what it is (Globbing says what it is).
  // read is getFilteredData: the filtered text of a path given the stored
  // entries that match it, or no text when the read filter rejects it.
  datatype Env = Env(lib: Library, mode: Mode, matches: (string, string) -> bool,
                     read: (string, map<string, Text>) -> Option<Text>)

  predicate Peer(env: Env, a: string, b: string) {
    env.matches(a, b) || env.matches(b, a)
  }

  ghost predicate Globbing(env: Env) {
    forall p: string, k: string :: env.matches(p, k) <==> Key.Match(p, k)
  }

  // hist records every datum the cache ever held by version; no step consults it.
  datatype Pool = Pool(key: string, version: int, data: Text, conns: seq<nat>, hist: map<int, Text>)

  // presented is the version the client asked to resume from; honest records
  // that it really held the datum of that version.
  datatype Conn = Conn(key: string, pool: nat, cache: Text, queue: seq<Frame>, open: bool,
                       presented: string, honest: bool)

  datatype Worker =
    | Idle
    | Received(path: string)
    | At(path: string, i: nat)
    | Reading(path: string, i: nat, torn: bool)
    | Holding(path: string, i: nat, data: Text)
    | Sending(path: string, i: nat, frame: Frame, rest: seq<nat>)

  // A Refresh call: reading the data, holding it, having found no cached
  // version, and (for a subscription) about to write the initial snapshot.
  datatype Phase =
    | Fetching(torn: bool)
    | Fetched(raw: Text, stale: bool)
    | Uncached(raw: Text, stale: bool)
    | Writing(frame: Frame)

  // quiet records that nothing has interfered with the subscription so far.
  datatype Fetch = Fetch(key: string, conn: Option<nat>, phase: Phase, quiet: bool)

  datatype State = State(
    store: map<string, Text>,
    writers: map<nat, string>,
    workers: seq<Worker>,
    pools: seq<Pool>,
    conns: map<nat, Conn>,
    fetches: map<nat, Fetch>,
    now: int)

  datatype Action =
    | Begin(w: nat, path: string)
    | Mutate(w: nat, key: string, value: Option<Text>)
    | Send(w: nat, n: nat)
    | Drop(w: nat)
    | Enter(n: nat)
    | Skip(n: nat)
    | LockPool(n: nat)
    | Read(n: nat, result: Option<Text>)
    | Patch(n: nat, t: int)
    | Write(n: nat)
    | Unlock(n: nat)
    | Leave(n: nat)
    | Subscribe(c: nat, f: nat, key: string, presented: string, cache: Text)
    | StartFetch(f: nat, key: string)
    | FetchRead(f: nat, result: Option<Text>)
    | FetchVersion(f: nat)
    | Commit(f: nat, t: int)
    | InitialWrite(f: nat)
    | Close(c: nat)
    | Disconnect(c: nat)
    | Deliver(c: nat)

  // ------------------------------------------------------------- reading data

  type FullText = t: Text | t != [] witness [0]

  // What a client is sent in place of no data at all.
  const EMPTY_OBJECT: FullText := Ascii("{ \"created\": 0, \"updated\": 0, \"index\": \"\", \"data\": \"e30=\" }")

  function OrEmptyObject(t: Text): Text {
    if t == [] then EMPTY_OBJECT else t
  }

  function Visible(env: Env, store: map<string, Text>, path: string): map<string, Text> {
    map k | k in store && env.matches(path, k) :: store[k]
  }

  function Fresh(env: Env, store: map<string, Text>, path: string): Option<Text> {
    env.read(path, Visible(env, store, path))
  }

  // The cache, when there is one, is what a read would give now.
  ghost predicate Clean(env: Env, store: map<string, Text>, p: Pool) {
    p.data == [] || match Fresh(env, store, p.key)
                    case None => true
                    case Some(d) => Same(env.lib, p.data, OrEmptyObject(d))
  }

  // findPool: the first pool with the key, or -1.
  function Find(pools: seq<Pool>, key: string): (i: int)
    ensures -1 <= i < |pools|
    ensures i >= 0 ==> pools[i].key == key
    ensures i == -1 ==> forall j :: 0 <= j < |pools| ==> pools[j].key != key
    decreases |pools|
  {
    if pools == [] then -1
    else if pools[0].key == key then 0
    else
      var rest := Find(pools[1..], key);
      assert forall j :: 0 < j < |pools| ==> pools[j] == pools[1..][j - 1];
      if rest == -1 then -1 else rest + 1
  }

  function Without(conns: seq<nat>, c: nat): (r: seq<nat>)
    ensures forall x :: x in r <==> x in conns && x != c
    ensures NoRepeats(conns) ==> NoRepeats(r)
  {
    if conns == [] then []
    else
      var rest := Without(conns[..|conns| - 1], c);
      var last := conns[|conns| - 1];
      assert conns == conns[..|conns| - 1] + [last];
      assert NoRepeats(conns) ==> last !in conns[..|conns| - 1] && NoRepeats(conns[..|conns| - 1]);
      if last == c then rest else rest + [last]
  }

  predicate NoRepeats(s: seq<nat>) {
    forall i, j :: 0 <= i < j < |s| ==> s[i] != s[j]
  }

  // -------------------------------------------------------------------- locks

  predicate InStream(w: Worker) {
    !w.Idle? && !w.Received?
  }

  predicate InPool(w: Worker) {
    w.Reading? || w.Holding? || w.Sending?
  }

  predicate HasPool(w: Worker, i: nat) {
    InPool(w) && w.i == i
  }

  predicate NoBroadcast(workers: seq<Worker>) {
    forall n :: 0 <= n < |workers| ==> !InStream(workers[n])
  }

  predicate PoolFree(workers: seq<Worker>, i: nat) {
    forall n :: 0 <= n < |workers| ==> !HasPool(workers[n], i)
  }

  // --------------------------------------------------------------- monitoring

  function TearWorker(env: Env, pools: seq<Pool>, w: Worker, key: string): Worker {
    if w.Reading? && w.i < |pools| && env.matches(pools[w.i].key, key) then w.(torn := true) else w
  }

  function TearFetch(env: Env, f: Fetch, key: string): Fetch {
    if !env.matches(f.key, key) then f
    else
      match f.phase
      case Fetching(_) => f.(phase := Fetching(true), quiet := false)
      case Fetched(raw, _) => f.(phase := Fetched(raw, true), quiet := false)
      case Uncached(raw, _) => f.(phase := Uncached(raw, true), quiet := false)
      case Writing(_) => f.(quiet := false)
  }

  // A key changes: reads under way that can see it may return anything.
  function TearWorkers(env: Env, pools: seq<Pool>, workers: seq<Worker>, key: string): seq<Worker> {
    seq(|workers|, n requires 0 <= n < |workers| => TearWorker(env, pools, workers[n], key))
  }

  function TearFetches(env: Env, fetches: map<nat, Fetch>, key: string): map<nat, Fetch> {
    map f | f in fetches :: TearFetch(env, fetches[f], key)
  }

  function Unquiet(env: Env, f: Fetch, path: string): Fetch {
    if Peer(env, f.key, path) then f.(quiet := false) else f
  }

  function UnquietAll(env: Env, fetches: map<nat, Fetch>, path: string): map<nat, Fetch> {
    map f | f in fetches :: Unquiet(env, fetches[f], path)
  }

  predicate NoFetchFor(fetches: map<nat, Fetch>, c: nat) {
    forall f <- fetches :: fetches[f].conn != Some(c)
  }

  // No event that the pool would be broadcast for is on its way.
  ghost predicate NothingOutstanding(env: Env, s: State, key: string) {
    && (forall w <- s.writers :: !Peer(env, key, s.writers[w]))
    && (forall n :: 0 <= n < |s.workers| && !s.workers[n].Idle? ==> !Peer(env, key, s.workers[n].path))
  }

  // The presented text names no version to come, and if it names a past one
  // of this pool the client holds that version's datum.
  ghost predicate Honest(env: Env, s: State, key: string, presented: string, cache: Text) {
    var i := Find(s.pools, key);
    forall v: int :: presented == Numerals.FormatInt(v) ==>
      v <= s.now && (i >= 0 && v in s.pools[i].hist ==> Same(env.lib, cache, s.pools[i].hist[v]))
  }

  // -------------------------------------------------------------------- steps

  ghost predicate Enabled(env: Env, s: State, a: Action) {
    match a
    case Begin(w, _) => w !in s.writers
    case Mutate(w, key, _) => w in s.writers && env.matches(s.writers[w], key)
    case Send(w, n) => w in s.writers && s.writers[w] != "" && n < |s.workers| && s.workers[n].Idle?
    case Drop(w) => w in s.writers
    case Enter(n) => n < |s.workers| && s.workers[n].Received?
    case Skip(n) => n < |s.workers| && s.workers[n].At? && s.workers[n].i < |s.pools|
                    && !Peer(env, s.pools[s.workers[n].i].key, s.workers[n].path)
    case LockPool(n) => n < |s.workers| && s.workers[n].At? && s.workers[n].i < |s.pools|
                        && Peer(env, s.pools[s.workers[n].i].key, s.workers[n].path) && PoolFree(s.workers, s.workers[n].i)
    case Read(n, result) => n < |s.workers| && s.workers[n].Reading? && s.workers[n].i < |s.pools|
                            && (s.workers[n].torn || result == Fresh(env, s.store, s.pools[s.workers[n].i].key))
    case Patch(n, t) => n < |s.workers| && s.workers[n].Holding? && s.workers[n].i < |s.pools| && t > s.now
    case Write(n) => n < |s.workers| && s.workers[n].Sending? && s.workers[n].rest != []
    case Unlock(n) => n < |s.workers| && s.workers[n].Sending? && s.workers[n].rest == []
    case Leave(n) => n < |s.workers| && s.workers[n].At? && s.workers[n].i >= |s.pools|
    case Subscribe(c, f, key, _, _) =>
      key != "" && c !in s.conns && f !in s.fetches && NoBroadcast(s.workers)
      && NoFetchFor(s.fetches, c)
    case StartFetch(f, key) => key != "" && f !in s.fetches
    case FetchRead(f, result) => f in s.fetches && s.fetches[f].phase.Fetching?
                                 && (s.fetches[f].phase.torn || result == Fresh(env, s.store, s.fetches[f].key))
    case FetchVersion(f) => f in s.fetches && s.fetches[f].phase.Fetched?
                            && var i := Find(s.pools, s.fetches[f].key); i >= 0 ==> PoolFree(s.workers, i)
    case Commit(f, t) => f in s.fetches && s.fetches[f].phase.Uncached? && t > s.now && NoBroadcast(s.workers)
    case InitialWrite(f) => f in s.fetches && s.fetches[f].phase.Writing? && s.fetches[f].conn.Some?
    case Close(c) => c in s.conns && NoBroadcast(s.workers)
    case Disconnect(c) => c in s.conns
    case Deliver(c) => c in s.conns && s.conns[c].open && s.conns[c].queue != []
  }

  // Storage: a Set or Del call, one key of it, and its event handed to an idle
  // worker, or never sent (NoBroadcastKeys, a history pivot, inactive storage).
  ghost function NextBegin(env: Env, s: State, w: nat, path: string): State {
    s.(writers := s.writers[w := path],
       fetches := UnquietAll(env, s.fetches, path))
  }

  ghost function NextMutate(env: Env, s: State, w: nat, key: string, value: Option<Text>): State
    requires w in s.writers
  {
    s.(store := if value.Some? then s.store[key := value.value] else s.store - {key},
       workers := TearWorkers(env, s.pools, s.workers, key),
       fetches := TearFetches(env, s.fetches, key))
  }

  function NextDrop(s: State, w: nat): State {
    s.(writers := s.writers - {w})
  }

  // The pool once its cache is replaced.
  function Renewed(p: Pool, data: Text, t: int): Pool {
    p.(version := t, data := data, hist := p.hist[t := data])
  }

  // Broadcast: the cache is replaced and the frame for every connection of the
  // pool is fixed in one go; the writes follow one by one.
  ghost function NextPatch(env: Env, s: State, n: nat, t: int): State
    requires n < |s.workers| && s.workers[n].Holding? && s.workers[n].i < |s.pools|
  {
    var Holding(path, i, data) := s.workers[n];
    var pool := s.pools[i];
    var o := Choose(env.lib, env.mode, pool.data, data);
    s.(workers := s.workers[n := Sending(path, i, Frame(o.payload, o.snapshot, t), pool.conns)],
       pools := s.pools[i := Renewed(pool, data, t)],
       now := t)
  }

  ghost function Push(conns: map<nat, Conn>, c: nat, frame: Frame): map<nat, Conn> {
    if c in conns && conns[c].open then conns[c := conns[c].(queue := conns[c].queue + [frame])] else conns
  }

  // The broadcast's message goes to the next connection of the pool.
  ghost function NextWrite(s: State, n: nat): State
    requires n < |s.workers| && s.workers[n].Sending? && s.workers[n].rest != []
  {
    var Sending(path, i, frame, rest) := s.workers[n];
    s.(workers := s.workers[n := Sending(path, i, frame, rest[1..])], conns := Push(s.conns, rest[0], frame))
  }

  function WithConn(pools: seq<Pool>, key: string, c: nat): seq<Pool> {
    var i := Find(pools, key);
    if i >= 0 then pools[i := pools[i].(conns := pools[i].conns + [c])]
    else pools + [Pool(key, 0, [], [c], map[])]
  }

  // ws: register first, then fetch.
  ghost function NextSubscribe(env: Env, s: State, c: nat, f: nat, key: string, presented: string, cache: Text): State {
    var i := Find(s.pools, key);
    var at := if i >= 0 then i else |s.pools|;
    s.(pools := WithConn(s.pools, key, c),
       conns := s.conns[c := Conn(key, at, cache, [], true, presented, Honest(env, s, key, presented, cache))],
       fetches := s.fetches[f := Fetch(key, Some(c), Fetching(false), NothingOutstanding(env, s, key))])
  }

  ghost function NextFetchRead(env: Env, s: State, f: nat, result: Option<Text>): State
    requires f in s.fetches && s.fetches[f].phase.Fetching?
  {
    var fetch := s.fetches[f];
    if result.None? then s.(fetches := s.fetches - {f})
    else
      var i := Find(s.pools, fetch.key);
      s.(fetches := s.fetches[f := fetch.(phase := Fetched(OrEmptyObject(result.value), fetch.phase.torn),
                                          quiet := fetch.quiet && i >= 0 && Clean(env, s.store, s.pools[i]))])
  }

  // The end of a fetch, once the version is known: a plain read is done, and so
  // is a subscription that presented this very version; otherwise the snapshot
  // is left to be written.
  ghost function Finish(s: State, f: nat, raw: Text, version: int): State
    requires f in s.fetches
  {
    var fetch := s.fetches[f];
    if fetch.conn.None? then s.(fetches := s.fetches - {f})
    else if fetch.conn.value in s.conns && s.conns[fetch.conn.value].presented == Numerals.FormatInt(version) then
      s.(fetches := s.fetches - {f})
    else s.(fetches := s.fetches[f := fetch.(phase := Writing(Frame(raw, true, version)))])
  }

  ghost function NextFetchVersion(s: State, f: nat): State
    requires f in s.fetches && s.fetches[f].phase.Fetched?
  {
    var Fetched(raw, stale) := s.fetches[f].phase;
    var i := Find(s.pools, s.fetches[f].key);
    if i == -1 || s.pools[i].data == [] then s.(fetches := s.fetches[f := s.fetches[f].(phase := Uncached(raw, stale))])
    else Finish(s, f, raw, s.pools[i].version)
  }

  // setCache, creating the pool when there is none.
  function PoolFor(pools: seq<Pool>, key: string): Pool {
    var i := Find(pools, key);
    if i >= 0 then pools[i] else Pool(key, 0, [], [], map[])
  }

  function WithPool(pools: seq<Pool>, pool: Pool): seq<Pool> {
    var i := Find(pools, pool.key);
    if i >= 0 then pools[i := pool] else pools + [pool]
  }

  // Other subscriptions to the key stay quiet only if the cache is current.
  function UnquietOthers(fetches: map<nat, Fetch>, key: string, f: nat, stale: bool): map<nat, Fetch> {
    map g | g in fetches :: if fetches[g].key == key && g != f && stale then fetches[g].(quiet := false) else fetches[g]
  }

  ghost function NextCommit(env: Env, s: State, f: nat, t: int): State
    requires f in s.fetches && s.fetches[f].phase.Uncached?
  {
    var key, raw := s.fetches[f].key, s.fetches[f].phase.raw;
    var pool := Renewed(PoolFor(s.pools, key), raw, t);
    var fetches := UnquietOthers(s.fetches, key, f, !Clean(env, s.store, pool));
    Finish(s.(pools := WithPool(s.pools, pool), fetches := fetches, now := t), f, raw, t)
  }

  // The handshake ends with the snapshot.
  ghost function NextInitialWrite(s: State, f: nat): State
    requires f in s.fetches && s.fetches[f].phase.Writing? && s.fetches[f].conn.Some?
  {
    s.(fetches := s.fetches - {f}, conns := Push(s.conns, s.fetches[f].conn.value, s.fetches[f].phase.frame))
  }

  ghost function NextClose(s: State, c: nat): State
    requires c in s.conns
  {
    var i := Find(s.pools, s.conns[c].key);
    s.(pools := if i >= 0 then s.pools[i := s.pools[i].(conns := Without(s.pools[i].conns, c))] else s.pools,
       conns := s.conns - {c})
  }

  // A client that cannot apply a message gives the connection up.
  ghost function NextDeliver(env: Env, s: State, c: nat): State
    requires c in s.conns && s.conns[c].queue != []
  {
    var conn := s.conns[c];
    var p := Receive(env.lib, conn.queue[0], conn.cache);
    s.(conns := s.conns[c := conn.(cache := p.cache, queue := conn.queue[1..], open := !p.failed)])
  }

  ghost function Next(env: Env, s: State, a: Action): State
    requires Enabled(env, s, a)
  {
    match a
    case Begin(w, path) => NextBegin(env, s, w, path)
    case Mutate(w, key, value) => NextMutate(env, s, w, key, value)
    case Send(w, n) => s.(writers := s.writers - {w}, workers := s.workers[n := Received(s.writers[w])])
    case Drop(w) => NextDrop(s, w)
    case Enter(n) => s.(workers := s.workers[n := At(s.workers[n].path, 1)])
    case Skip(n) => s.(workers := s.workers[n := At(s.workers[n].path, s.workers[n].i + 1)])
    case LockPool(n) =>
      var At(path, i) := s.workers[n];
      s.(workers := s.workers[n := Reading(path, i, false)])
    case Read(n, result) =>
      var Reading(path, i, _) := s.workers[n];
      s.(workers := s.workers[n := if result.Some? then Holding(path, i, result.value) else At(path, i + 1)])
    case Patch(n, t) => NextPatch(env, s, n, t)
    case Write(n) => NextWrite(s, n)
    case Unlock(n) => s.(workers := s.workers[n := At(s.workers[n].path, s.workers[n].i + 1)])
    case Leave(n) => s.(workers := s.workers[n := Idle])
    case Subscribe(c, f, key, presented, cache) => NextSubscribe(env, s, c, f, key, presented, cache)
    case StartFetch(f, key) => s.(fetches := s.fetches[f := Fetch(key, None, Fetching(false), false)])
    case FetchRead(f, result) => NextFetchRead(env, s, f, result)
    case FetchVersion(f) => NextFetchVersion(s, f)
    case Commit(f, t) => NextCommit(env, s, f, t)
    case InitialWrite(f) => NextInitialWrite(s, f)
    case Close(c) => NextClose(s, c)
    case Disconnect(c) => s.(conns := s.conns[c := s.conns[c].(open := false)])
    case Deliver(c) => NextDeliver(env, s, c)
  }

  // A server as InitClock leaves it: one pool, the clock's, and idle workers.
  ghost predicate Init(s: State) {
    && s.writers == map[] && s.conns == map[] && s.fetches == map[]
    && s.pools == [Pool("", 0, [], [], map[])]
    && (forall n :: 0 <= n < |s.workers| ==> s.workers[n].Idle?)
    && s.now >= 0
  }

  // s' is reached from s by the given steps.
  ghost predicate Run(env: Env, s: State, actions: seq<Action>, s': State)
    decreases |actions|
  {
    if actions == [] then s' == s
    else Enabled(env, s, actions[0]) && Run(env, Next(env, s, actions[0]), actions[1..], s')
  }

  lemma {:induction false} RunAppend(env: Env, s: State, first: seq<Action>, mid: State, second: seq<Action>, s': State)
    requires Run(env, s, first, mid) && Run(env, mid, second, s')
    ensures Run(env, s, first + second, s')
    decreases |first|
  {
    if first == [] {
      assert first + second == second;
    } else {
      assert (first + second)[1..] == first[1..] + second;
      RunAppend(env, Next(env, s, first[0]), first[1..], mid, second, s');
    }
  }

  lemma Chain(env: Env, s: State, a: Action, mid: State, actions: seq<Action>, s': State)
    requires Enabled(env, s, a) && mid == Next(env, s, a) && Run(env, mid, actions, s')
    ensures Run(env, s, [a] + actions, s')
  {
    assert ([a] + actions)[1..] == actions;
  }

  // ----------------------------------------------------- the table of pools

  ghost predicate DistinctKeys(pools: seq<Pool>) {
    forall i, j :: 0 <= i < j < |pools| ==> pools[i].key != pools[j].key
  }

  ghost predicate TableInv(pools: seq<Pool>) {
    && |pools| > 0 && pools[0].key == "" && pools[0].conns == []
    && DistinctKeys(pools)
    && (forall i :: 0 <= i < |pools| ==> NoRepeats(pools[i].conns))
  }

  ghost predicate Registered(pools: seq<Pool>, c: nat, conn: Conn) {
    conn.pool < |pools| && pools[conn.pool].key == conn.key && c in pools[conn.pool].conns
  }

  // Every registered connection is in the pool of its key, and only there.
  ghost predicate ConnInv(pools: seq<Pool>, conns: map<nat, Conn>) {
    && (forall i, c :: 0 <= i < |pools| && c in pools[i].conns ==> c in conns && conns[c].pool == i)
    && (forall c <- conns :: Registered(pools, c, conns[c]))
  }

  // A worker inside a pool peers with it, is alone in it, and only writes to
  // its connections, each at most once.
  ghost predicate WorkerInv(env: Env, pools: seq<Pool>, w: Worker) {
    && (w.At? ==> w.i >= 1)
    && (w.Reading? || w.Holding? || w.Sending? ==> 1 <= w.i < |pools| && Peer(env, pools[w.i].key, w.path))
    && (w.Sending? ==> NoRepeats(w.rest) && forall c <- w.rest :: c in pools[w.i].conns)
  }

  ghost predicate PoolLocks(workers: seq<Worker>) {
    forall n, m :: 0 <= n < m < |workers| && InPool(workers[n]) && InPool(workers[m]) ==> workers[n].i != workers[m].i
  }

  ghost predicate WorkersInv(env: Env, pools: seq<Pool>, workers: seq<Worker>) {
    (forall n :: 0 <= n < |workers| ==> WorkerInv(env, pools, workers[n])) && PoolLocks(workers)
  }

  ghost predicate FetchOk(pools: seq<Pool>, conns: map<nat, Conn>, f: Fetch) {
    && f.key != ""
    && (f.phase.Writing? ==> f.conn.Some? && f.phase.frame.snapshot)
    && (f.conn.Some? ==> Find(pools, f.key) >= 0 && (f.conn.value in conns ==> conns[f.conn.value].key == f.key))
  }

  ghost predicate FetchInv(pools: seq<Pool>, conns: map<nat, Conn>, fetches: map<nat, Fetch>) {
    && (forall f <- fetches :: FetchOk(pools, conns, fetches[f]))
    && (forall f, g :: f in fetches && g in fetches && f != g && fetches[f].conn.Some? ==> fetches[f].conn != fetches[g].conn)
  }

  // A pool's history holds its cache under its version; no version is ahead
  // of the clock.
  ghost predicate PoolInv(p: Pool, now: int) {
    && p.version <= now
    && (forall v <- p.hist :: v <= p.version)
    && (if p.hist == map[] then p.data == [] && p.version == 0
        else p.version in p.hist && p.hist[p.version] == p.data)
  }

  ghost predicate PoolsInv(pools: seq<Pool>, now: int) {
    now >= 0 && forall i :: 0 <= i < |pools| ==> PoolInv(pools[i], now)
  }

  ghost predicate Inv(env: Env, s: State) {
    && TableInv(s.pools) && ConnInv(s.pools, s.conns) && WorkersInv(env, s.pools, s.workers)
    && FetchInv(s.pools, s.conns, s.fetches) && PoolsInv(s.pools, s.now)
  }

  lemma FindIsUnique(pools: seq<Pool>, i: nat)
    requires i < |pools| && DistinctKeys(pools)
    ensures Find(pools, pools[i].key) == i
  {
  }

  // Pools are only ever appended: an index keeps its key and its history.
  ghost predicate Grows(p: Pool, q: Pool) {
    q.key == p.key && forall v <- p.hist :: v in q.hist && q.hist[v] == p.hist[v]
  }

  ghost predicate PoolsGrow(pools: seq<Pool>, pools': seq<Pool>) {
    |pools| <= |pools'| && forall i :: 0 <= i < |pools| ==> Grows(pools[i], pools'[i])
  }

  lemma FindIsStable(pools: seq<Pool>, pools': seq<Pool>, key: string)
    requires PoolsGrow(pools, pools') && DistinctKeys(pools') && Find(pools, key) >= 0
    ensures Find(pools', key) == Find(pools, key)
  {
    var i := Find(pools, key);
    assert Grows(pools[i], pools'[i]);
    FindIsUnique(pools', i);
  }

  lemma InitInv(env: Env, s: State)
    requires Init(s)
    ensures Inv(env, s)
  {
  }

  // ---------------------------------------------- what one step can change

  ghost predicate SameShape(pools: seq<Pool>, pools': seq<Pool>) {
    |pools'| == |pools| && forall i :: 0 <= i < |pools| ==> pools'[i].key == pools[i].key && pools'[i].conns == pools[i].conns
  }

  ghost predicate SameConnShape(conns: map<nat, Conn>, conns': map<nat, Conn>) {
    conns'.Keys == conns.Keys && forall c <- conns :: conns'[c].key == conns[c].key && conns'[c].pool == conns[c].pool
  }

  lemma ShapeKeepsTable(pools: seq<Pool>, pools': seq<Pool>)
    requires TableInv(pools) && SameShape(pools, pools')
    ensures TableInv(pools')
  {
  }

  lemma ShapeKeepsConns(pools: seq<Pool>, pools': seq<Pool>, conns: map<nat, Conn>, conns': map<nat, Conn>)
    requires ConnInv(pools, conns) && SameShape(pools, pools') && SameConnShape(conns, conns')
    ensures ConnInv(pools', conns')
  {
    forall c | c in conns' ensures Registered(pools', c, conns'[c]) {
      assert Registered(pools, c, conns[c]);
    }
  }

  lemma ShapeKeepsWorkers(env: Env, pools: seq<Pool>, pools': seq<Pool>, workers: seq<Worker>)
    requires WorkersInv(env, pools, workers) && SameShape(pools, pools')
    ensures WorkersInv(env, pools', workers)
  {
    forall n | 0 <= n < |workers| ensures WorkerInv(env, pools', workers[n]) {
      assert WorkerInv(env, pools, workers[n]);
    }
  }

  lemma GrowthKeepsFetches(pools: seq<Pool>, pools': seq<Pool>, conns: map<nat, Conn>, conns': map<nat, Conn>,
                           fetches: map<nat, Fetch>)
    requires FetchInv(pools, conns, fetches) && PoolsGrow(pools, pools') && DistinctKeys(pools')
    requires forall c <- conns' :: c in conns && conns'[c].key == conns[c].key
    ensures FetchInv(pools', conns', fetches)
  {
    forall f | f in fetches ensures FetchOk(pools', conns', fetches[f]) {
      assert FetchOk(pools, conns, fetches[f]);
      if fetches[f].conn.Some? {
        FindIsStable(pools, pools', fetches[f].key);
      }
    }
  }

  lemma OneWorker(env: Env, pools: seq<Pool>, workers: seq<Worker>, n: nat, w: Worker)
    requires WorkersInv(env, pools, workers) && n < |workers| && WorkerInv(env, pools, w)
    requires InPool(w) ==> (InPool(workers[n]) && workers[n].i == w.i) || PoolFree(workers, w.i)
    ensures WorkersInv(env, pools, workers[n := w])
  {
    var after := workers[n := w];
    forall m | 0 <= m < |after| ensures WorkerInv(env, pools, after[m]) {
      assert m != n ==> WorkerInv(env, pools, workers[m]);
    }
    forall j, k | 0 <= j < k < |after| && InPool(after[j]) && InPool(after[k]) ensures after[j].i != after[k].i {
      if InPool(w) && PoolFree(workers, w.i) {
        assert j != n ==> !HasPool(workers[j], w.i);
        assert k != n ==> !HasPool(workers[k], w.i);
      }
    }
  }

  lemma OneFetch(pools: seq<Pool>, conns: map<nat, Conn>, fetches: map<nat, Fetch>, f: nat, fetch: Fetch)
    requires FetchInv(pools, conns, fetches) && FetchOk(pools, conns, fetch)
    requires if f in fetches then fetch.conn == fetches[f].conn
             else fetch.conn.Some? ==> forall g <- fetches :: fetches[g].conn != fetch.conn
    ensures FetchInv(pools, conns, fetches[f := fetch])
  {
  }

  lemma LessFetches(pools: seq<Pool>, conns: map<nat, Conn>, fetches: map<nat, Fetch>, f: nat)
    requires FetchInv(pools, conns, fetches)
    ensures FetchInv(pools, conns, fetches - {f})
  {
  }

  ghost predicate SameFetchShape(fetches: map<nat, Fetch>, fetches': map<nat, Fetch>) {
    fetches'.Keys == fetches.Keys && forall f <- fetches ::
      && fetches'[f].key == fetches[f].key && fetches'[f].conn == fetches[f].conn
      && (fetches'[f].phase.Writing? ==> fetches'[f].phase == fetches[f].phase)
  }

  lemma ShapeKeepsFetches(pools: seq<Pool>, conns: map<nat, Conn>, fetches: map<nat, Fetch>, fetches': map<nat, Fetch>)
    requires FetchInv(pools, conns, fetches) && SameFetchShape(fetches, fetches')
    ensures FetchInv(pools, conns, fetches')
  {
    forall f | f in fetches' ensures FetchOk(pools, conns, fetches'[f]) {
      assert FetchOk(pools, conns, fetches[f]);
    }
  }

  // Steps that change neither the shape of the table nor any connection's place.
  lemma CalmInv(env: Env, s: State, s': State)
    requires Inv(env, s)
    requires SameShape(s.pools, s'.pools) && PoolsGrow(s.pools, s'.pools) && PoolsInv(s'.pools, s'.now)
    requires SameConnShape(s.conns, s'.conns) && SameFetchShape(s.fetches, s'.fetches)
    requires WorkersInv(env, s.pools, s'.workers)
    ensures Inv(env, s')
  {
    ShapeKeepsTable(s.pools, s'.pools);
    ShapeKeepsConns(s.pools, s'.pools, s.conns, s'.conns);
    ShapeKeepsWorkers(env, s.pools, s'.pools, s'.workers);
    GrowthKeepsFetches(s.pools, s'.pools, s.conns, s'.conns, s.fetches);
    ShapeKeepsFetches(s'.pools, s'.conns, s.fetches, s'.fetches);
  }

  lemma TornWorkers(env: Env, pools: seq<Pool>, workers: seq<Worker>, key: string)
    requires WorkersInv(env, pools, workers)
    ensures WorkersInv(env, pools, TearWorkers(env, pools, workers, key))
  {
    var torn := TearWorkers(env, pools, workers, key);
    forall n | 0 <= n < |torn| ensures WorkerInv(env, pools, torn[n]) {
      assert WorkerInv(env, pools, workers[n]);
    }
    forall n, m | 0 <= n < m < |torn| && InPool(torn[n]) && InPool(torn[m]) ensures torn[n].i != torn[m].i {
      assert InPool(workers[n]) && InPool(workers[m]);
    }
  }

  lemma TornFetches(env: Env, fetches: map<nat, Fetch>, key: string)
    ensures SameFetchShape(fetches, TearFetches(env, fetches, key))
  {
  }

  // While the stream lock is held for writing no worker is inside a pool.
  lemma NoWorkerInside(env: Env, pools: seq<Pool>, workers: seq<Worker>)
    requires NoBroadcast(workers)
    ensures WorkersInv(env, pools, workers)
  {
    assert forall n :: 0 <= n < |workers| ==> !InStream(workers[n]);
  }

  lemma MutateInv(env: Env, s: State, w: nat, key: string, value: Option<Text>)
    requires Inv(env, s) && w in s.writers
    ensures Inv(env, NextMutate(env, s, w, key, value))
    ensures NextMutate(env, s, w, key, value).pools == s.pools
  {
    TornWorkers(env, s.pools, s.workers, key);
    TornFetches(env, s.fetches, key);
    ShapeKeepsFetches(s.pools, s.conns, s.fetches, TearFetches(env, s.fetches, key));
  }

  // A worker moves on; at most one pool is touched, and keeps its shape.
  lemma WorkerStepInv(env: Env, s: State, n: nat, w: Worker)
    requires Inv(env, s) && n < |s.workers| && WorkerInv(env, s.pools, w)
    requires InPool(w) ==> (InPool(s.workers[n]) && s.workers[n].i == w.i) || PoolFree(s.workers, w.i)
    ensures Inv(env, s.(workers := s.workers[n := w]))
  {
    OneWorker(env, s.pools, s.workers, n, w);
  }

  lemma RenewedInv(p: Pool, data: Text, now: int, t: int)
    requires PoolInv(p, now) && t > now
    ensures PoolInv(Renewed(p, data, t), t) && Grows(p, Renewed(p, data, t))
  {
    assert t in p.hist[t := data];
  }

  lemma PatchInv(env: Env, s: State, n: nat, t: int)
    requires Inv(env, s) && Enabled(env, s, Patch(n, t))
    ensures Inv(env, NextPatch(env, s, n, t)) && PoolsGrow(s.pools, NextPatch(env, s, n, t).pools)
  {
    var s' := NextPatch(env, s, n, t);
    var Holding(path, i, data) := s.workers[n];
    assert WorkerInv(env, s.pools, s.workers[n]);
    OneWorker(env, s.pools, s.workers, n, s'.workers[n]);
    forall j | 0 <= j < |s'.pools| ensures PoolInv(s'.pools[j], s'.now) && Grows(s.pools[j], s'.pools[j]) {
      assert PoolInv(s.pools[j], s.now);
      if j == i {
        RenewedInv(s.pools[i], data, s.now, t);
      }
    }
    CalmInv(env, s, s');
  }

  lemma FinishInv(env: Env, s: State, f: nat, raw: Text, version: int)
    requires Inv(env, s) && f in s.fetches
    ensures Inv(env, Finish(s, f, raw, version)) && Finish(s, f, raw, version).pools == s.pools
  {
    var fetch := s.fetches[f];
    assert FetchOk(s.pools, s.conns, fetch);
    LessFetches(s.pools, s.conns, s.fetches, f);
    if fetch.conn.Some? {
      OneFetch(s.pools, s.conns, s.fetches, f, fetch.(phase := Writing(Frame(raw, true, version))));
    }
  }

  lemma FetchStepInv(env: Env, s: State, f: nat, fetch: Fetch)
    requires Inv(env, s) && f in s.fetches && !fetch.phase.Writing?
    requires fetch.key == s.fetches[f].key && fetch.conn == s.fetches[f].conn
    ensures Inv(env, s.(fetches := s.fetches[f := fetch]))
  {
    assert FetchOk(s.pools, s.conns, s.fetches[f]);
    OneFetch(s.pools, s.conns, s.fetches, f, fetch);
  }

  lemma FetchVersionInv(env: Env, s: State, f: nat)
    requires Inv(env, s) && f in s.fetches && s.fetches[f].phase.Fetched?
    ensures Inv(env, NextFetchVersion(s, f)) && NextFetchVersion(s, f).pools == s.pools
  {
    var Fetched(raw, stale) := s.fetches[f].phase;
    var i := Find(s.pools, s.fetches[f].key);
    if i == -1 || s.pools[i].data == [] {
      FetchStepInv(env, s, f, s.fetches[f].(phase := Uncached(raw, stale)));
    } else {
      FinishInv(env, s, f, raw, s.pools[i].version);
    }
  }

  lemma FetchReadInv(env: Env, s: State, f: nat, result: Option<Text>)
    requires Inv(env, s) && f in s.fetches && s.fetches[f].phase.Fetching?
    ensures Inv(env, NextFetchRead(env, s, f, result)) && NextFetchRead(env, s, f, result).pools == s.pools
  {
    var s' := NextFetchRead(env, s, f, result);
    if result.None? {
      LessFetches(s.pools, s.conns, s.fetches, f);
    } else {
      FetchStepInv(env, s, f, s'.fetches[f]);
    }
  }

  lemma SubscribeTable(pools: seq<Pool>, conns: map<nat, Conn>, c: nat, key: string, now: int)
    requires TableInv(pools) && ConnInv(pools, conns) && PoolsInv(pools, now) && key != "" && c !in conns
    ensures TableInv(WithConn(pools, key, c)) && PoolsGrow(pools, WithConn(pools, key, c))
    ensures PoolsInv(WithConn(pools, key, c), now)
  {
    var i := Find(pools, key);
    assert i != 0;
    if i >= 0 {
      assert c !in pools[i].conns;
    }
    forall j | 0 <= j < |WithConn(pools, key, c)| ensures PoolInv(WithConn(pools, key, c)[j], now) {
      assert j < |pools| ==> PoolInv(pools[j], now);
    }
  }

  lemma SubscribeConns(pools: seq<Pool>, conns: map<nat, Conn>, c: nat, key: string, conn: Conn)
    requires TableInv(pools) && ConnInv(pools, conns) && c !in conns
    requires conn.key == key && conn.pool == if Find(pools, key) >= 0 then Find(pools, key) else |pools|
    ensures ConnInv(WithConn(pools, key, c), conns[c := conn])
  {
    var after := WithConn(pools, key, c);
    forall d | d in conns ensures Registered(after, d, conns[d]) {
      assert Registered(pools, d, conns[d]);
    }
    forall j, d | 0 <= j < |after| && d in after[j].conns ensures d in conns[c := conn] && conns[c := conn][d].pool == j {
      assert d != c ==> j < |pools| && d in pools[j].conns;
      assert d == c && j < |pools| ==> d !in pools[j].conns;
    }
  }

  lemma SubscribeFetches(pools: seq<Pool>, conns: map<nat, Conn>, fetches: map<nat, Fetch>, c: nat, key: string,
                         conn: Conn, f: nat, fetch: Fetch)
    requires FetchInv(pools, conns, fetches) && c !in conns && f !in fetches
    requires forall g <- fetches :: fetches[g].conn != Some(c)
    requires DistinctKeys(WithConn(pools, key, c)) && PoolsGrow(pools, WithConn(pools, key, c))
    requires conn.key == key == fetch.key != "" && fetch.conn == Some(c) && fetch.phase.Fetching?
    ensures FetchInv(WithConn(pools, key, c), conns[c := conn], fetches[f := fetch])
  {
    var after := WithConn(pools, key, c);
    GrowthKeepsFetches(pools, after, conns, conns, fetches);
    forall g | g in fetches ensures FetchOk(after, conns[c := conn], fetches[g]) {
      assert FetchOk(after, conns, fetches[g]);
    }
    var i := Find(pools, key);
    assert after[if i >= 0 then i else |pools|].key == key;
    OneFetch(after, conns[c := conn], fetches, f, fetch);
  }

  lemma SubscribeInv(env: Env, s: State, c: nat, f: nat, key: string, presented: string, cache: Text)
    requires Inv(env, s) && Enabled(env, s, Subscribe(c, f, key, presented, cache))
    ensures Inv(env, NextSubscribe(env, s, c, f, key, presented, cache))
    ensures PoolsGrow(s.pools, NextSubscribe(env, s, c, f, key, presented, cache).pools)
  {
    var s' := NextSubscribe(env, s, c, f, key, presented, cache);
    assert s'.pools == WithConn(s.pools, key, c);
    SubscribeTable(s.pools, s.conns, c, key, s.now);
    SubscribeConns(s.pools, s.conns, c, key, s'.conns[c]);
    SubscribeFetches(s.pools, s.conns, s.fetches, c, key, s'.conns[c], f, s'.fetches[f]);
    NoWorkerInside(env, s'.pools, s.workers);
  }

  lemma CommitTable(pools: seq<Pool>, pool: Pool, now: int)
    requires TableInv(pools) && PoolsInv(pools, now) && pool.key != ""
    requires PoolInv(pool, pool.version) && pool.version >= now
    requires var i := Find(pools, pool.key);
      if i >= 0 then pool.conns == pools[i].conns && Grows(pools[i], pool) else pool.conns == []
    ensures TableInv(WithPool(pools, pool)) && PoolsGrow(pools, WithPool(pools, pool))
    ensures PoolsInv(WithPool(pools, pool), pool.version)
  {
    var after := WithPool(pools, pool);
    assert Find(pools, pool.key) != 0;
    forall j | 0 <= j < |after| ensures PoolInv(after[j], pool.version) {
      assert j < |pools| ==> PoolInv(pools[j], now);
    }
  }

  lemma CommitConns(pools: seq<Pool>, conns: map<nat, Conn>, pool: Pool)
    requires ConnInv(pools, conns)
    requires var i := Find(pools, pool.key); pool.conns == if i >= 0 then pools[i].conns else []
    ensures ConnInv(WithPool(pools, pool), conns)
  {
    var after := WithPool(pools, pool);
    forall c | c in conns ensures Registered(after, c, conns[c]) {
      assert Registered(pools, c, conns[c]);
    }
    forall j, d | 0 <= j < |after| && d in after[j].conns ensures d in conns && conns[d].pool == j {
      assert j < |pools| && d in pools[j].conns;
    }
  }

  lemma CommitFetches(pools: seq<Pool>, conns: map<nat, Conn>, fetches: map<nat, Fetch>, key: string, f: nat, stale: bool)
    requires FetchInv(pools, conns, fetches)
    ensures FetchInv(pools, conns, UnquietOthers(fetches, key, f, stale))
  {
    ShapeKeepsFetches(pools, conns, fetches, UnquietOthers(fetches, key, f, stale));
  }

  lemma CommitInv(env: Env, s: State, f: nat, t: int)
    requires Inv(env, s) && Enabled(env, s, Commit(f, t))
    ensures Inv(env, NextCommit(env, s, f, t)) && PoolsGrow(s.pools, NextCommit(env, s, f, t).pools)
  {
    var key, raw := s.fetches[f].key, s.fetches[f].phase.raw;
    assert FetchOk(s.pools, s.conns, s.fetches[f]);
    var p := PoolFor(s.pools, key);
    assert PoolInv(p, s.now);
    var pool := Renewed(p, raw, t);
    RenewedInv(p, raw, s.now, t);
    CommitTable(s.pools, pool, s.now);
    CommitConns(s.pools, s.conns, pool);
    var after := WithPool(s.pools, pool);
    GrowthKeepsFetches(s.pools, after, s.conns, s.conns, s.fetches);
    CommitFetches(after, s.conns, s.fetches, key, f, !Clean(env, s.store, pool));
    NoWorkerInside(env, after, s.workers);
    FinishInv(env, s.(pools := after, fetches := UnquietOthers(s.fetches, key, f, !Clean(env, s.store, pool)), now := t), f, raw, t);
  }

  lemma CloseTable(pools: seq<Pool>, conns: map<nat, Conn>, c: nat, i: nat, now: int)
    requires TableInv(pools) && ConnInv(pools, conns) && PoolsInv(pools, now) && c in conns && i == conns[c].pool
    ensures Find(pools, conns[c].key) == i && i < |pools|
    ensures var after := pools[i := pools[i].(conns := Without(pools[i].conns, c))];
      TableInv(after) && PoolsInv(after, now) && PoolsGrow(pools, after)
  {
    assert Registered(pools, c, conns[c]);
    FindIsUnique(pools, i);
    var after := pools[i := pools[i].(conns := Without(pools[i].conns, c))];
    forall j | 0 <= j < |after| ensures PoolInv(after[j], now) {
      assert PoolInv(pools[j], now);
    }
  }

  lemma CloseConns(pools: seq<Pool>, conns: map<nat, Conn>, c: nat, i: nat)
    requires TableInv(pools) && ConnInv(pools, conns) && c in conns && i == conns[c].pool < |pools|
    ensures ConnInv(pools[i := pools[i].(conns := Without(pools[i].conns, c))], conns - {c})
  {
    var after := pools[i := pools[i].(conns := Without(pools[i].conns, c))];
    forall d | d in conns - {c} ensures Registered(after, d, conns[d]) {
      assert Registered(pools, d, conns[d]);
    }
    forall j, d | 0 <= j < |after| && d in after[j].conns ensures d in conns - {c} && conns[d].pool == j {
      assert d in pools[j].conns;
    }
  }

  // Close finds the connection's pool and takes out exactly that connection.
  lemma CloseRemovesOne(s: State, c: nat, i: nat)
    requires TableInv(s.pools) && ConnInv(s.pools, s.conns) && c in s.conns && i == s.conns[c].pool < |s.pools|
    ensures c in s.pools[i].conns
    ensures NextClose(s, c).pools == s.pools[i := s.pools[i].(conns := Without(s.pools[i].conns, c))]
    ensures |NextClose(s, c).pools[i].conns| == |s.pools[i].conns| - 1
  {
    assert Registered(s.pools, c, s.conns[c]);
    FindIsUnique(s.pools, i);
    WithoutOne(s.pools[i].conns, c);
  }

  lemma CloseInv(env: Env, s: State, c: nat)
    requires Inv(env, s) && Enabled(env, s, Close(c))
    ensures Inv(env, NextClose(s, c)) && PoolsGrow(s.pools, NextClose(s, c).pools)
  {
    var i := s.conns[c].pool;
    assert Registered(s.pools, c, s.conns[c]);
    CloseTable(s.pools, s.conns, c, i, s.now);
    CloseConns(s.pools, s.conns, c, i);
    var after := s.pools[i := s.pools[i].(conns := Without(s.pools[i].conns, c))];
    NoWorkerInside(env, after, s.workers);
    GrowthKeepsFetches(s.pools, after, s.conns, s.conns - {c}, s.fetches);
  }

  lemma {:induction false} WithoutOne(conns: seq<nat>, c: nat)
    requires NoRepeats(conns)
    ensures |Without(conns, c)| == |conns| - if c in conns then 1 else 0
  {
    if conns != [] {
      var rest := conns[..|conns| - 1];
      assert conns == rest + [conns[|conns| - 1]];
      WithoutOne(rest, c);
    }
  }

  lemma ConnStepInv(env: Env, s: State, conns': map<nat, Conn>)
    requires Inv(env, s) && SameConnShape(s.conns, conns')
    ensures Inv(env, s.(conns := conns'))
  {
    ShapeKeepsConns(s.pools, s.pools, s.conns, conns');
    GrowthKeepsFetches(s.pools, s.pools, s.conns, conns', s.fetches);
  }

  lemma DoneFetchInv(env: Env, s: State, f: nat)
    requires Inv(env, s)
    ensures Inv(env, s.(fetches := s.fetches - {f}))
  {
    LessFetches(s.pools, s.conns, s.fetches, f);
  }

  lemma PushInv(env: Env, s: State, c: nat, frame: Frame)
    requires Inv(env, s)
    ensures Inv(env, s.(conns := Push(s.conns, c, frame)))
  {
    ConnStepInv(env, s, Push(s.conns, c, frame));
  }

  lemma InitialWriteInv(env: Env, s: State, f: nat)
    requires Inv(env, s) && f in s.fetches && s.fetches[f].phase.Writing? && s.fetches[f].conn.Some?
    ensures Inv(env, NextInitialWrite(s, f))
  {
    DoneFetchInv(env, s, f);
    PushInv(env, s.(fetches := s.fetches - {f}), s.fetches[f].conn.value, s.fetches[f].phase.frame);
  }

  lemma WriteInv(env: Env, s: State, n: nat)
    requires Inv(env, s) && n < |s.workers| && s.workers[n].Sending? && s.workers[n].rest != []
    ensures Inv(env, NextWrite(s, n))
  {
    var Sending(path, i, frame, rest) := s.workers[n];
    assert WorkerInv(env, s.pools, s.workers[n]);
    WorkerStepInv(env, s, n, Sending(path, i, frame, rest[1..]));
    PushInv(env, s.(workers := s.workers[n := Sending(path, i, frame, rest[1..])]), rest[0], frame);
  }

  lemma BeginInv(env: Env, s: State, w: nat, path: string)
    requires Inv(env, s)
    ensures Inv(env, NextBegin(env, s, w, path))
  {
    ShapeKeepsFetches(s.pools, s.conns, s.fetches, NextBegin(env, s, w, path).fetches);
  }

  ghost predicate MovesOneWorker(a: Action) {
    a.Send? || a.Enter? || a.Skip? || a.LockPool? || a.Read? || a.Unlock? || a.Leave?
  }

  lemma MoveInv(env: Env, s: State, a: Action)
    requires Inv(env, s) && Enabled(env, s, a) && MovesOneWorker(a)
    ensures Inv(env, Next(env, s, a)) && Next(env, s, a).pools == s.pools
  {
    assert WorkerInv(env, s.pools, s.workers[a.n]);
    var s' := Next(env, s, a);
    WorkerStepInv(env, s, a.n, s'.workers[a.n]);
  }

  ghost predicate OfConnections(a: Action) {
    a.Subscribe? || a.Close? || a.Disconnect? || a.Deliver? || a.InitialWrite? || a.Write?
  }

  lemma DisconnectInv(env: Env, s: State, c: nat)
    requires Inv(env, s) && Enabled(env, s, Disconnect(c))
    ensures Inv(env, Next(env, s, Disconnect(c)))
  {
    ConnStepInv(env, s, s.conns[c := s.conns[c].(open := false)]);
  }

  lemma DeliverInv(env: Env, s: State, c: nat)
    requires Inv(env, s) && c in s.conns && s.conns[c].queue != []
    ensures Inv(env, NextDeliver(env, s, c))
  {
    ConnStepInv(env, s, NextDeliver(env, s, c).conns);
  }

  lemma ConnectionStepInv(env: Env, s: State, a: Action)
    requires Inv(env, s) && Enabled(env, s, a) && OfConnections(a)
    ensures Inv(env, Next(env, s, a)) && PoolsGrow(s.pools, Next(env, s, a).pools)
  {
    if a.Write? {
      WriteInv(env, s, a.n);
    } else if a.Subscribe? {
      SubscribeInv(env, s, a.c, a.f, a.key, a.presented, a.cache);
    } else if a.InitialWrite? {
      InitialWriteInv(env, s, a.f);
    } else if a.Close? {
      CloseInv(env, s, a.c);
    } else if a.Disconnect? {
      DisconnectInv(env, s, a.c);
    } else {
      DeliverInv(env, s, a.c);
    }
  }

  ghost predicate OfFetches(a: Action) {
    a.StartFetch? || a.FetchRead? || a.FetchVersion? || a.Commit?
  }

  lemma StartFetchInv(env: Env, s: State, f: nat, key: string)
    requires Inv(env, s) && Enabled(env, s, StartFetch(f, key))
    ensures Inv(env, Next(env, s, StartFetch(f, key)))
  {
    OneFetch(s.pools, s.conns, s.fetches, f, Fetch(key, None, Fetching(false), false));
  }

  lemma FetchingStepInv(env: Env, s: State, a: Action)
    requires Inv(env, s) && Enabled(env, s, a) && OfFetches(a)
    ensures Inv(env, Next(env, s, a)) && PoolsGrow(s.pools, Next(env, s, a).pools)
  {
    if a.StartFetch? {
      StartFetchInv(env, s, a.f, a.key);
    } else if a.FetchRead? {
      FetchReadInv(env, s, a.f, a.result);
    } else if a.FetchVersion? {
      FetchVersionInv(env, s, a.f);
    } else {
      CommitInv(env, s, a.f, a.t);
    }
  }

  lemma StorageStepInv(env: Env, s: State, a: Action)
    requires Inv(env, s) && Enabled(env, s, a) && (a.Begin? || a.Mutate? || a.Drop?)
    ensures Inv(env, Next(env, s, a)) && PoolsGrow(s.pools, Next(env, s, a).pools)
  {
    match a {
      case Begin(w, path) => BeginInv(env, s, w, path);
      case Mutate(w, key, value) => MutateInv(env, s, w, key, value);
      case Drop(_) =>
    }
  }

  // Every step keeps the invariant; pools are never removed or renamed, and no
  // version of a pool ever changes its datum.
  lemma StepInv(env: Env, s: State, a: Action)
    requires Inv(env, s) && Enabled(env, s, a)
    ensures Inv(env, Next(env, s, a)) && PoolsGrow(s.pools, Next(env, s, a).pools)
  {
    if OfConnections(a) {
      ConnectionStepInv(env, s, a);
    } else if OfFetches(a) {
      FetchingStepInv(env, s, a);
    } else if MovesOneWorker(a) {
      MoveInv(env, s, a);
    } else if a.Patch? {
      PatchInv(env, s, a.n, a.t);
    } else {
      StorageStepInv(env, s, a);
    }
  }

  // ------------------------------------------------ what a step leaves alone

  lemma FinishKeeps(s: State, f: nat, raw: Text, version: int)
    requires f in s.fetches
    ensures var s' := Finish(s, f, raw, version);
      s'.pools == s.pools && s'.conns == s.conns && s'.workers == s.workers && s'.writers == s.writers
      && s'.store == s.store && s'.now == s.now
  {
  }

  lemma CommitEffect(env: Env, s: State, f: nat, t: int)
    requires Enabled(env, s, Commit(f, t))
    ensures var s' := NextCommit(env, s, f, t);
      && s'.conns == s.conns && s'.workers == s.workers && s'.store == s.store && s'.writers == s.writers && s'.now == t
      && s'.pools == WithPool(s.pools, Renewed(PoolFor(s.pools, s.fetches[f].key), s.fetches[f].phase.raw, t))
  {
  }

  lemma VersionEffect(s: State, f: nat)
    requires f in s.fetches && s.fetches[f].phase.Fetched?
    ensures var s' := NextFetchVersion(s, f);
      s'.pools == s.pools && s'.conns == s.conns && s'.workers == s.workers && s'.writers == s.writers
      && s'.store == s.store && s'.now == s.now
  {
    var i := Find(s.pools, s.fetches[f].key);
    if i >= 0 { FinishKeeps(s, f, s.fetches[f].phase.raw, s.pools[i].version); }
  }

  // What the steps leave alone: the pools, the connections, the fetches.
  lemma PoolsStay(env: Env, s: State, a: Action)
    requires Enabled(env, s, a) && !a.Patch? && !a.Subscribe? && !a.Commit? && !a.Close?
    ensures Next(env, s, a).pools == s.pools
  {
    if a.FetchVersion? {
      VersionEffect(s, a.f);
    }
  }

  lemma ConnsStay(env: Env, s: State, a: Action)
    requires Enabled(env, s, a) && !OfConnections(a)
    ensures Next(env, s, a).conns == s.conns
  {
    match a {
      case FetchVersion(f) => VersionEffect(s, f);
      case Commit(f, t) => CommitEffect(env, s, f, t);
      case _ =>
    }
  }

  // A step that is about no fetch leaves them all.
  lemma FetchesStay(env: Env, s: State, a: Action)
    requires Enabled(env, s, a) && !OfFetches(a) && !a.Subscribe? && !a.InitialWrite? && !a.Begin? && !a.Mutate?
    ensures Next(env, s, a).fetches == s.fetches
  {
  }

  lemma VersionPhases(s: State, f: nat, g: nat)
    requires f in s.fetches && s.fetches[f].phase.Fetched? && g != f && g in NextFetchVersion(s, f).fetches
    ensures g in s.fetches && NextFetchVersion(s, f).fetches[g].phase == s.fetches[g].phase
  {
  }

  lemma CommitPhases(env: Env, s: State, f: nat, t: int, g: nat)
    requires f in s.fetches && s.fetches[f].phase.Uncached? && g != f && g in NextCommit(env, s, f, t).fetches
    ensures g in s.fetches && NextCommit(env, s, f, t).fetches[g].phase == s.fetches[g].phase
  {
  }

  // -------------------------------------------------------------- whole runs

  lemma GrowthIsTransitive(p: seq<Pool>, q: seq<Pool>, r: seq<Pool>)
    requires PoolsGrow(p, q) && PoolsGrow(q, r)
    ensures PoolsGrow(p, r)
  {
    forall i | 0 <= i < |p| ensures Grows(p[i], r[i]) {
      assert Grows(p[i], q[i]) && Grows(q[i], r[i]);
    }
  }

  lemma {:induction false} RunInv(env: Env, s: State, actions: seq<Action>, s': State)
    requires Inv(env, s) && Run(env, s, actions, s')
    ensures Inv(env, s') && PoolsGrow(s.pools, s'.pools)
    decreases |actions|
  {
    if actions != [] {
      var mid := Next(env, s, actions[0]);
      StepInv(env, s, actions[0]);
      RunInv(env, mid, actions[1..], s');
      GrowthIsTransitive(s.pools, mid.pools, s'.pools);
    }
  }
}
