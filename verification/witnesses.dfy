// Runs that show the conditions of the protocol's theorems are needed: an
// overtaken Refresh, a delete whose glob crosses a pool's, an event that is not
// sent, and a subscription with a write in its window.  Each is a family: any server whose reads tell
// two contents of the store apart.
module Witnesses {
  import opened Common
  import opened Text
  import opened Json
  import opened Messages
  import opened Patching
  import opened Protocol
  import opened Replication
  import opened Freshness
  import opened Subscription
  import Key
  import Numerals
  import Refinement

  // With key holding value the path reads as full, without it as bare.
  ghost predicate Distinguishes(env: Env, path: string, key: string, value: Text, bare: Text, full: Text) {
    && path != "" && key != "" && env.matches(path, key)
    && env.read(path, map[]) == Some(bare) && env.read(path, map[key := value]) == Some(full)
    && bare != [] && full != [] && !Same(env.lib, bare, full) && !Same(env.lib, full, bare)
  }

  const CLOCK: Pool := Pool("", 0, [], [], map[])

  function Rest(store: map<string, Text>, pools: seq<Pool>, now: int): State {
    State(store, map[], [Idle], pools, map[], map[], now)
  }

  lemma Extend(env: Env, s: State, actions: seq<Action>, mid: State, a: Action)
    requires Run(env, s, actions, mid) && Enabled(env, mid, a)
    ensures Run(env, s, actions + [a], Next(env, mid, a))
  {
    assert [a][1..] == [];
    assert Run(env, mid, [a], Next(env, mid, a));
    RunAppend(env, s, actions, mid, [a], Next(env, mid, a));
  }

  lemma Join(env: Env, s: State, first: seq<Action>, mid: State, second: seq<Action>, s': State)
    requires Run(env, s, first, mid) && Run(env, mid, second, s')
    ensures Run(env, s, first + second, s')
  {
    RunAppend(env, s, first, mid, second, s');
  }

  lemma ReadsBare(env: Env, path: string, key: string, value: Text, bare: Text, full: Text)
    requires Distinguishes(env, path, key, value, bare, full)
    ensures Fresh(env, map[], path) == Some(bare) && Fresh(env, map[key := value], path) == Some(full)
  {
    assert Visible(env, map[], path) == map[];
    assert Visible(env, map[key := value], path) == map[key := value];
  }

  // -------------------------------------------------------- steps of a fetch

  lemma ReadStep(env: Env, s: State, f: nat, data: Text) returns (s': State)
    requires f in s.fetches && s.fetches[f].phase == Fetching(false) && data != [] && Fresh(env, s.store, s.fetches[f].key) == Some(data)
    ensures Run(env, s, [FetchRead(f, Some(data))], s') && s' == s.(fetches := s'.fetches) && s'.fetches.Keys == s.fetches.Keys
    ensures s'.fetches[f].key == s.fetches[f].key && s'.fetches[f].conn == s.fetches[f].conn && s'.fetches[f].phase == Fetched(data, false)
    ensures forall g :: g in s.fetches && g != f ==> s'.fetches[g] == s.fetches[g]
  {
    s' := NextFetchRead(env, s, f, Some(data));
    Extend(env, s, [], s, FetchRead(f, Some(data)));
  }

  // The pool has no cache yet.
  lemma UncachedStep(env: Env, s: State, f: nat, i: nat) returns (s': State)
    requires f in s.fetches && s.fetches[f].phase.Fetched? && NoBroadcast(s.workers)
    requires i < |s.pools| && Find(s.pools, s.fetches[f].key) == i && s.pools[i].data == []
    ensures Run(env, s, [FetchVersion(f)], s')
    ensures s' == s.(fetches := s.fetches[f := s.fetches[f].(phase := Uncached(s.fetches[f].phase.raw, s.fetches[f].phase.stale))])
  {
    assert PoolFree(s.workers, i) by {
      forall n | 0 <= n < |s.workers| ensures !HasPool(s.workers[n], i) {
        assert !InStream(s.workers[n]);
      }
    }
    s' := NextFetchVersion(s, f);
    Extend(env, s, [], s, FetchVersion(f));
  }

  lemma GreetStep(env: Env, s: State, f: nat) returns (s': State)
    requires f in s.fetches && s.fetches[f].phase.Writing? && s.fetches[f].conn.Some?
    ensures Run(env, s, [InitialWrite(f)], s') && s' == Next(env, s, InitialWrite(f))
    ensures s' == s.(fetches := s.fetches - {f}, conns := Push(s.conns, s.fetches[f].conn.value, s.fetches[f].phase.frame))
  {
    s' := Next(env, s, InitialWrite(f));
    Extend(env, s, [], s, InitialWrite(f));
  }

  // ------------------------------------------------- an overtaken Refresh

  // A plain read of a path nobody subscribes to: the data, then no version.
  lemma StartRead(env: Env, path: string, store: map<string, Text>, data: Text)
    requires path != "" && Fresh(env, store, path) == Some(data)
    ensures var s0 := Rest(store, [CLOCK], 0);
      Run(env, s0, [StartFetch(0, path)] + [FetchRead(0, Some(data))],
          s0.(fetches := map[0 := Fetch(path, None, Fetched(OrEmptyObject(data), false), false)]))
  {
    var s0 := Rest(store, [CLOCK], 0);
    var s1 := s0.(fetches := map[0 := Fetch(path, None, Fetching(false), false)]);
    assert Next(env, s0, StartFetch(0, path)) == s1;
    Extend(env, s0, [], s0, StartFetch(0, path));
    Extend(env, s0, [StartFetch(0, path)], s1, FetchRead(0, Some(data)));
    assert Next(env, s1, FetchRead(0, Some(data))).fetches == map[0 := Fetch(path, None, Fetched(OrEmptyObject(data), false), false)];
  }

  lemma ReadUncached(env: Env, path: string, store: map<string, Text>, data: Text)
    returns (actions: seq<Action>, s: State)
    requires path != "" && data != [] && Fresh(env, store, path) == Some(data)
    ensures Run(env, Rest(store, [CLOCK], 0), actions, s)
    ensures s == Rest(store, [CLOCK], 0).(fetches := map[0 := Fetch(path, None, Uncached(data, false), false)])
  {
    var s0 := Rest(store, [CLOCK], 0);
    StartRead(env, path, store, data);
    var mid := s0.(fetches := map[0 := Fetch(path, None, Fetched(data, false), false)]);
    assert Find([CLOCK], path) == -1;
    s := Next(env, mid, FetchVersion(0));
    assert s.fetches == map[0 := Fetch(path, None, Uncached(data, false), false)];
    Extend(env, s0, [StartFetch(0, path)] + [FetchRead(0, Some(data))], mid, FetchVersion(0));
    actions := [StartFetch(0, path)] + [FetchRead(0, Some(data))] + [FetchVersion(0)];
  }

  // One key of a Set or Del changes.
  lemma Changes(env: Env, s: State, path: string, key: string, value: Option<Text>) returns (s': State)
    requires s.writers == map[] && s.workers == [Idle] && env.matches(path, key)
    ensures Run(env, s, [Begin(0, path)] + [Mutate(0, key, value)], s')
    ensures s' == NextMutate(env, NextBegin(env, s, 0, path), 0, key, value)
    ensures s'.writers == map[0 := path] && s'.workers == [Idle] && s'.conns == s.conns && s'.now == s.now
  {
    var mid := NextBegin(env, s, 0, path);
    Extend(env, s, [], s, Begin(0, path));
    s' := NextMutate(env, mid, 0, key, value);
    assert s'.workers == [TearWorker(env, s.pools, Idle, key)];
    Extend(env, s, [Begin(0, path)], mid, Mutate(0, key, value));
  }

  // The event goes to the worker, which starts on the pools.
  lemma EventTaken(env: Env, s: State, path: string)
    requires s.writers == map[0 := path] && s.workers == [Idle] && path != ""
    ensures Run(env, s, [Send(0, 0)] + [Enter(0)], s.(writers := map[], workers := [At(path, 1)]))
  {
    var mid := s.(writers := map[], workers := [Received(path)]);
    assert s.writers - {0} == map[] && s.workers[0 := Received(path)] == [Received(path)];
    Extend(env, s, [], s, Send(0, 0));
    assert mid.workers[0 := At(path, 1)] == [At(path, 1)];
    Extend(env, s, [Send(0, 0)], mid, Enter(0));
  }

  lemma LeavesAll(env: Env, s: State, path: string)
    requires s.workers == [At(path, |s.pools|)]
    ensures Run(env, s, [Leave(0)], s.(workers := [Idle]))
  {
    assert s.workers[0 := Idle] == [Idle];
    Extend(env, s, [], s, Leave(0));
  }

  // A write of the key from start to end, with no pool to broadcast to.
  lemma WriteUnseen(env: Env, s: State, key: string, value: Text, stale: Text, path: string)
    returns (actions: seq<Action>, s': State)
    requires key != "" && env.matches(key, key) && env.matches(path, key)
    requires s == Rest(map[], [CLOCK], 0).(fetches := map[0 := Fetch(path, None, Uncached(stale, false), false)])
    ensures Run(env, s, actions, s')
    ensures s'.fetches == map[0 := Fetch(path, None, Uncached(stale, true), false)]
    ensures s'.store == map[key := value] && s'.writers == map[] && s'.workers == [Idle] && s'.conns == map[] && s'.now == 0
    ensures s'.pools == [CLOCK]
  {
    var changed := Changes(env, s, key, key, Some(value));
    assert changed.store == map[key := value];
    assert changed.fetches == map[0 := Fetch(path, None, Uncached(stale, true), false)];
    EventTaken(env, changed, key);
    var taken := changed.(writers := map[], workers := [At(key, 1)]);
    LeavesAll(env, taken, key);
    s' := taken.(workers := [Idle]);
    var first, second := [Begin(0, key)] + [Mutate(0, key, Some(value))], [Send(0, 0)] + [Enter(0)];
    Join(env, s, first, changed, second, taken);
    Join(env, s, first + second, taken, [Leave(0)], s');
    actions := first + second + [Leave(0)];
  }

  // The Refresh then stores what it read.
  lemma LateCommit(env: Env, s: State, path: string, bare: Text)
    requires s.fetches == map[0 := Fetch(path, None, Uncached(bare, true), false)] && s.workers == [Idle] && s.now == 0
    requires path != "" && |s.pools| == 1 && s.pools[0].key == "" && s.writers == map[]
    ensures var s' := NextCommit(env, s, 0, 1);
      && Run(env, s, [Commit(0, 1)], s') && Quiescent(s') && s'.store == s.store
      && |s'.pools| == 2 && s'.pools[1].key == path && s'.pools[1].data == bare
  {
    assert Find(s.pools, path) == -1;
    CommitEffect(env, s, 0, 1);
    Extend(env, s, [], s, Commit(0, 1));
  }

  // The write falls between the data's read and setCache; its event finds no
  // pool.  The server comes to rest with a cache that no event will correct.
  lemma OvertakenRefreshStaysStale(env: Env, path: string, key: string, value: Text, bare: Text, full: Text)
    returns (actions: seq<Action>, s: State)
    requires Distinguishes(env, path, key, value, bare, full) && env.matches(key, key)
    ensures Run(env, Rest(map[], [CLOCK], 0), actions, s) && Init(Rest(map[], [CLOCK], 0))
    ensures Quiescent(s) && |s.pools| == 2 && s.pools[1].key == path && !Clean(env, s.store, s.pools[1])
  {
    ReadsBare(env, path, key, value, bare, full);
    var s0 := Rest(map[], [CLOCK], 0);
    var first, s1 := ReadUncached(env, path, map[], bare);
    var second, s2 := WriteUnseen(env, s1, key, value, bare, path);
    LateCommit(env, s2, path, bare);
    s := NextCommit(env, s2, 0, 1);
    Join(env, s0, first, s1, second, s2);
    Join(env, s0, first + second, s2, [Commit(0, 1)], s);
    actions := first + second + [Commit(0, 1)];
  }

  // ------------------------------------------------- a subscriber left behind

  // A subscriber that comes while the Refresh of another still holds old data.
  ghost predicate Straggler(f: Fetch, path: string, bare: Text) {
    f.key == path && f.conn == None && f.phase == Uncached(bare, true)
  }

  lemma NewcomerRegisters(env: Env, s: State, path: string, bare: Text) returns (s': State)
    requires s.pools == [CLOCK] && s.workers == [Idle] && s.writers == map[] && s.conns == map[] && path != ""
    requires s.fetches.Keys == {0} && Straggler(s.fetches[0], path, bare)
    ensures Run(env, s, [Subscribe(7, 1, path, "", [])], s')
    ensures s' == s.(pools := [CLOCK, Pool(path, 0, [], [7], map[])], conns := s'.conns, fetches := s'.fetches)
    ensures s'.fetches.Keys == {0, 1} && Straggler(s'.fetches[0], path, bare)
    ensures s'.fetches[1].key == path && s'.fetches[1].conn == Some(7) && s'.fetches[1].phase == Fetching(false)
    ensures 7 in s'.conns && s'.conns[7].key == path && s'.conns[7].open && s'.conns[7].queue == [] && s'.conns[7].presented == ""
  {
    assert Find([CLOCK], path) == -1;
    s' := Next(env, s, Subscribe(7, 1, path, "", []));
    Extend(env, s, [], s, Subscribe(7, 1, path, "", []));
  }

  lemma NewcomerReads(env: Env, s: State, path: string, bare: Text, full: Text) returns (s': State)
    requires Fresh(env, s.store, path) == Some(full) && full != [] && path != ""
    requires s.pools == [CLOCK, Pool(path, 0, [], [7], map[])] && s.workers == [Idle]
    requires s.fetches.Keys == {0, 1} && Straggler(s.fetches[0], path, bare)
    requires s.fetches[1].key == path && s.fetches[1].conn == Some(7) && s.fetches[1].phase == Fetching(false)
    ensures Run(env, s, [FetchRead(1, Some(full))] + [FetchVersion(1)], s')
    ensures s' == s.(fetches := s'.fetches) && s'.fetches.Keys == {0, 1} && s'.fetches[0] == s.fetches[0]
    ensures s'.fetches[1].key == path && s'.fetches[1].conn == Some(7) && s'.fetches[1].phase == Uncached(full, false)
  {
    var mid := ReadStep(env, s, 1, full);
    s' := NewcomerFindsNothing(env, mid, path, full);
    Join(env, s, [FetchRead(1, Some(full))], mid, [FetchVersion(1)], s');
  }

  lemma NewcomerFindsNothing(env: Env, s: State, path: string, full: Text) returns (s': State)
    requires s.pools == [CLOCK, Pool(path, 0, [], [7], map[])] && s.workers == [Idle] && path != ""
    requires s.fetches.Keys == {0, 1} && s.fetches[1].key == path && s.fetches[1].phase == Fetched(full, false)
    ensures Run(env, s, [FetchVersion(1)], s') && s' == s.(fetches := s'.fetches)
    ensures s'.fetches.Keys == {0, 1} && s'.fetches[0] == s.fetches[0]
    ensures s'.fetches[1] == s.fetches[1].(phase := Uncached(full, false))
  {
    FindTwo(s.pools, path);
    s' := UncachedStep(env, s, 1, 1);
  }

  lemma NewcomerCommits(env: Env, s: State, path: string, bare: Text, full: Text) returns (s': State)
    requires s.pools == [CLOCK, Pool(path, 0, [], [7], map[])] && s.workers == [Idle] && s.now == 0 && path != ""
    requires s.fetches.Keys == {0, 1} && Straggler(s.fetches[0], path, bare)
    requires s.fetches[1].key == path && s.fetches[1].conn == Some(7) && s.fetches[1].phase == Uncached(full, false)
    requires 7 in s.conns && s.conns[7].presented == ""
    ensures Run(env, s, [Commit(1, 1)], s')
    ensures s'.store == s.store && s'.writers == s.writers && s'.workers == s.workers && s'.conns == s.conns && s'.now == 1
    ensures |s'.pools| == 2 && s'.pools[0].key == "" && s'.pools[1].key == path && s'.pools[1].data == full
    ensures s'.fetches.Keys == {0, 1} && Straggler(s'.fetches[0], path, bare)
    ensures s'.fetches[1].conn == Some(7) && s'.fetches[1].phase == Writing(Frame(full, true, 1))
  {
    FindTwo(s.pools, path);
    Numerals.FormatNatDigits(1);
    CommitEffect(env, s, 1, 1);
    s' := Next(env, s, Commit(1, 1));
    Extend(env, s, [], s, Commit(1, 1));
  }

  // It subscribes, up to its first message.
  lemma NewcomerArrives(env: Env, s: State, path: string, bare: Text, full: Text) returns (actions: seq<Action>, s': State)
    requires s.pools == [CLOCK] && s.workers == [Idle] && s.writers == map[] && s.conns == map[] && path != "" && s.now == 0
    requires s.fetches.Keys == {0} && Straggler(s.fetches[0], path, bare)
    requires Fresh(env, s.store, path) == Some(full) && full != []
    ensures Run(env, s, actions, s') && s'.store == s.store && s'.writers == map[] && s'.workers == [Idle] && s'.now == 1
    ensures |s'.pools| == 2 && s'.pools[0].key == "" && s'.pools[1].key == path && s'.pools[1].data == full
    ensures s'.fetches.Keys == {0, 1} && Straggler(s'.fetches[0], path, bare)
    ensures s'.fetches[1].conn == Some(7) && s'.fetches[1].phase == Writing(Frame(full, true, 1))
    ensures 7 in s'.conns && s'.conns[7].open && s'.conns[7].queue == [] && s'.conns[7].key == path
  {
    var s1 := NewcomerRegisters(env, s, path, bare);
    var s2 := NewcomerReads(env, s1, path, bare, full);
    s' := NewcomerCommits(env, s2, path, bare, full);
    var first, second := [Subscribe(7, 1, path, "", [])], [FetchRead(1, Some(full))] + [FetchVersion(1)];
    Join(env, s, first, s1, second, s2);
    Join(env, s, first + second, s2, [Commit(1, 1)], s');
    actions := first + second + [Commit(1, 1)];
  }

  // And its first message syncs it.
  lemma NewcomerIsSynced(env: Env, s: State, path: string, bare: Text, full: Text) returns (s': State)
    requires Lawful(env.lib) && Inv(env, s) && s.workers == [Idle]
    requires |s.pools| == 2 && s.pools[0].key == "" && s.pools[1].key == path != "" && s.pools[1].data == full
    requires s.fetches.Keys == {0, 1} && Straggler(s.fetches[0], path, bare)
    requires s.fetches[1].conn == Some(7) && s.fetches[1].phase == Writing(Frame(full, true, 1))
    requires 7 in s.conns && s.conns[7].open && s.conns[7].queue == [] && s.conns[7].key == path
    ensures Run(env, s, [InitialWrite(1)], s') && Synced(env, s', 7) && s'.conns[7].key == path
    ensures s' == s.(fetches := s'.fetches, conns := s'.conns) && s'.fetches.Keys == {0} && s'.fetches[0] == s.fetches[0]
  {
    NewcomerIsWritten(env, s, path, full);
    s' := GreetStep(env, s, 1);
  }

  lemma NewcomerIsWritten(env: Env, s: State, path: string, full: Text)
    requires Lawful(env.lib) && Inv(env, s) && s.workers == [Idle]
    requires |s.pools| == 2 && s.pools[0].key == "" && s.pools[1].key == path != "" && s.pools[1].data == full
    requires 1 in s.fetches && s.fetches[1].conn == Some(7) && s.fetches[1].phase == Writing(Frame(full, true, 1))
    requires 7 in s.conns && s.conns[7].open && s.conns[7].queue == [] && s.conns[7].key == path
    ensures Synced(env, Next(env, s, InitialWrite(1)), 7) && Next(env, s, InitialWrite(1)).conns[7].key == path
  {
    FindTwo(s.pools, path);
    PoolOfConn(env, s, 7);
    assert forall n: nat :: !SendingTo(s.workers, n, 7);
    InitialWriteSyncs(env, s, 1, 7);
    SameReflexive(env.lib, full);
  }

  // A plain read takes the old data and finds no cache; the key is written; a
  // subscriber comes and stores the new data.
  lemma NewcomerInBetween(env: Env, path: string, key: string, value: Text, bare: Text, full: Text)
    returns (actions: seq<Action>, s: State)
    requires Distinguishes(env, path, key, value, bare, full) && env.matches(key, key)
    ensures Run(env, Rest(map[], [CLOCK], 0), actions, s) && Fresh(env, s.store, path) == Some(full)
    ensures s.writers == map[] && s.workers == [Idle] && s.now == 1
    ensures |s.pools| == 2 && s.pools[0].key == "" && s.pools[1].key == path && s.pools[1].data == full
    ensures s.fetches.Keys == {0, 1} && Straggler(s.fetches[0], path, bare)
    ensures s.fetches[1].conn == Some(7) && s.fetches[1].phase == Writing(Frame(full, true, 1))
    ensures 7 in s.conns && s.conns[7].open && s.conns[7].queue == [] && s.conns[7].key == path
  {
    ReadsBare(env, path, key, value, bare, full);
    var s0 := Rest(map[], [CLOCK], 0);
    var first, s1 := ReadUncached(env, path, map[], bare);
    var second, s2 := WriteUnseen(env, s1, key, value, bare, path);
    Join(env, s0, first, s1, second, s2);
    var third, s3 := NewcomerArrives(env, s2, path, bare, full);
    Join(env, s0, first + second, s2, third, s3);
    actions, s := first + second + third, s3;
  }

  // The subscriber is synced; then the read stores what it took. The cache is
  // stale again, with no event to come, and the subscriber out of step with it.
  lemma LateCommitDesyncs(env: Env, path: string, key: string, value: Text, bare: Text, full: Text)
    returns (actions: seq<Action>, s: State)
    requires Lawful(env.lib) && Distinguishes(env, path, key, value, bare, full) && env.matches(key, key)
    ensures Run(env, Rest(map[], [CLOCK], 0), actions, s) && Init(Rest(map[], [CLOCK], 0))
    ensures Inv(env, s) && Quiescent(s) && Synced(env, s, 7) && Enabled(env, s, Commit(0, 2))
    ensures Overwrites(env, s, Commit(0, 2), 7) && !Synced(env, Next(env, s, Commit(0, 2)), 7)
    ensures LosesAt(env, s, Commit(0, 2), 1)
  {
    var s0 := Rest(map[], [CLOCK], 0);
    var first, mid := NewcomerInBetween(env, path, key, value, bare, full);
    InitInv(env, s0);
    RunInv(env, s0, first, mid);
    s := NewcomerIsSynced(env, mid, path, bare, full);
    Join(env, s0, first, mid, [InitialWrite(1)], s);
    actions := first + [InitialWrite(1)];
    RunInv(env, s0, actions, s);
    LateCommitParts(env, s, path, bare, full);
  }

  lemma LateCommitParts(env: Env, s: State, path: string, bare: Text, full: Text)
    requires Lawful(env.lib) && Inv(env, s) && Synced(env, s, 7) && s.conns[7].key == path && path != ""
    requires s.workers == [Idle] && s.writers == map[] && s.now == 1 && bare != [] && full != []
    requires |s.pools| == 2 && s.pools[0].key == "" && s.pools[1].key == path && s.pools[1].data == full
    requires s.fetches.Keys == {0} && Straggler(s.fetches[0], path, bare)
    requires Fresh(env, s.store, path) == Some(full) && !Same(env.lib, bare, full)
    ensures Quiescent(s) && Enabled(env, s, Commit(0, 2)) && Overwrites(env, s, Commit(0, 2), 7)
    ensures !Synced(env, Next(env, s, Commit(0, 2)), 7) && LosesAt(env, s, Commit(0, 2), 1)
  {
    FindTwo(s.pools, path);
    SyncStep(env, s, Commit(0, 2), 7);
  }

  // ------------------------------------------------- a crossing delete

  // A first subscription to the path: registered, read, no version found,
  // cache set, snapshot written.
  lemma FirstRegisters(env: Env, path: string, store: map<string, Text>) returns (s: State)
    requires path != ""
    ensures var a := Subscribe(0, 0, path, "", []);
      Enabled(env, Rest(store, [CLOCK], 0), a) && s == Next(env, Rest(store, [CLOCK], 0), a)
    ensures s.store == store && s.writers == map[] && s.workers == [Idle] && s.now == 0
    ensures s.pools == [CLOCK, Pool(path, 0, [], [0], map[])]
    ensures s.fetches.Keys == {0} && s.fetches[0].key == path && s.fetches[0].conn == Some(0)
    ensures s.fetches[0].phase == Fetching(false) && s.conns.Keys == {0} && s.conns[0].presented == ""
  {
    assert Find([CLOCK], path) == -1;
    s := Next(env, Rest(store, [CLOCK], 0), Subscribe(0, 0, path, "", []));
  }

  lemma FirstReads(env: Env, s: State, path: string, data: Text) returns (s': State)
    requires path != "" && data != [] && Fresh(env, s.store, path) == Some(data)
    requires s.pools == [CLOCK, Pool(path, 0, [], [0], map[])] && s.workers == [Idle]
    requires s.fetches.Keys == {0} && s.fetches[0].key == path && s.fetches[0].phase == Fetching(false)
    ensures Run(env, s, [FetchRead(0, Some(data))] + [FetchVersion(0)], s')
    ensures s' == s.(fetches := s'.fetches) && s'.fetches.Keys == {0} && s'.fetches[0].key == path
    ensures s'.fetches[0].conn == s.fetches[0].conn && s'.fetches[0].phase == Uncached(data, false)
  {
    var mid := ReadStep(env, s, 0, data);
    FindTwo(s.pools, path);
    s' := UncachedStep(env, mid, 0, 1);
    Join(env, s, [FetchRead(0, Some(data))], mid, [FetchVersion(0)], s');
  }

  lemma FirstCommits(env: Env, s: State, path: string, data: Text) returns (s': State)
    requires path != "" && s.now == 0 && s.writers == map[] && s.workers == [Idle]
    requires s.pools == [CLOCK, Pool(path, 0, [], [0], map[])]
    requires s.fetches.Keys == {0} && s.fetches[0].key == path && s.fetches[0].conn == Some(0)
    requires s.fetches[0].phase == Uncached(data, false) && s.conns.Keys == {0} && s.conns[0].presented == ""
    ensures Run(env, s, [Commit(0, 1)] + [InitialWrite(0)], s')
    ensures s'.store == s.store && s'.writers == map[] && s'.workers == [Idle] && s'.fetches == map[] && s'.now == 1
    ensures |s'.pools| == 2 && s'.pools[0].key == "" && s'.pools[1].key == path && s'.pools[1].data == data
    ensures s'.pools[1].conns == [0] && s'.conns.Keys == {0}
  {
    FindTwo(s.pools, path);
    Numerals.FormatNatDigits(1);
    CommitEffect(env, s, 0, 1);
    var mid := NextCommit(env, s, 0, 1);
    FirstIsWritten(env, s, path, data);
    Extend(env, s, [], s, Commit(0, 1));
    s' := GreetStep(env, mid, 0);
    assert s'.fetches == map[];
    Join(env, s, [Commit(0, 1)], mid, [InitialWrite(0)], s');
  }

  lemma FirstIsWritten(env: Env, s: State, path: string, data: Text)
    requires Enabled(env, s, Commit(0, 1)) && s.fetches.Keys == {0} && s.fetches[0].conn == Some(0)
    requires s.conns.Keys == {0} && s.conns[0].presented != Numerals.FormatInt(1)
    ensures var s' := NextCommit(env, s, 0, 1); s'.fetches.Keys == {0} && s'.fetches[0].phase.Writing? && s'.fetches[0].conn == Some(0)
  {
  }

  lemma FirstSubscription(env: Env, path: string, store: map<string, Text>, data: Text)
    returns (actions: seq<Action>, s: State)
    requires path != "" && data != [] && Fresh(env, store, path) == Some(data)
    ensures Run(env, Rest(store, [CLOCK], 0), actions, s)
    ensures s.store == store && s.writers == map[] && s.workers == [Idle] && s.fetches == map[] && s.now == 1
    ensures |s.pools| == 2 && s.pools[0].key == "" && s.pools[1].key == path && s.pools[1].data == data
    ensures s.pools[1].conns == [0] && s.conns.Keys == {0}
  {
    var s0, a := Rest(store, [CLOCK], 0), Subscribe(0, 0, path, "", []);
    var s1 := FirstRegisters(env, path, store);
    var s2 := FirstReads(env, s1, path, data);
    s := FirstCommits(env, s2, path, data);
    Chain(env, s0, a, s1, [FetchRead(0, Some(data))] + [FetchVersion(0)], s2);
    Join(env, s0, [a] + ([FetchRead(0, Some(data))] + [FetchVersion(0)]), s2, [Commit(0, 1)] + [InitialWrite(0)], s);
    actions := [a] + ([FetchRead(0, Some(data))] + [FetchVersion(0)]) + ([Commit(0, 1)] + [InitialWrite(0)]);
  }

  lemma FindTwo(pools: seq<Pool>, path: string)
    requires |pools| == 2 && pools[0].key == "" != path && pools[1].key == path
    ensures Find(pools, path) == 1
  {
  }

  lemma PassedBy(env: Env, s: State, path: string)
    requires s.workers == [At(path, 1)] && |s.pools| == 2 && !Peer(env, s.pools[1].key, path)
    ensures Run(env, s, [Skip(0)], s.(workers := [At(path, 2)]))
  {
    assert s.workers[0 := At(path, 2)] == [At(path, 2)];
    Extend(env, s, [], s, Skip(0));
  }

  lemma DeleteUnseen(env: Env, s: State, glob: string, key: string, path: string) returns (actions: seq<Action>, s': State)
    requires s.writers == map[] && s.workers == [Idle] && s.fetches == map[]
    requires |s.pools| == 2 && s.pools[1].key == path && glob != ""
    requires env.matches(glob, key) && !Peer(env, path, glob)
    ensures Run(env, s, actions, s') && Quiescent(s')
    ensures s'.store == s.store - {key} && |s'.pools| == 2 && s'.pools[1].key == path && s'.pools[1].data == s.pools[1].data
  {
    var changed := Changes(env, s, glob, key, None);
    EventTaken(env, changed, glob);
    var taken := changed.(writers := map[], workers := [At(glob, 1)]);
    PassedBy(env, taken, glob);
    var passed := taken.(workers := [At(glob, 2)]);
    LeavesAll(env, passed, glob);
    s' := passed.(workers := [Idle]);
    var first, second := [Begin(0, glob)] + [Mutate(0, key, None)], [Send(0, 0)] + [Enter(0)];
    Join(env, s, first, changed, second, taken);
    Join(env, s, first + second, taken, [Skip(0)], passed);
    Join(env, s, first + second + [Skip(0)], passed, [Leave(0)], s');
    actions := first + second + [Skip(0)] + [Leave(0)];
  }

  // For every pool path and glob that have a key in common and do not peer
  // there is a run in which the delete is lost on the pool for good.
  lemma CrossingDeleteStaysStale(env: Env, path: string, glob: string, key: string, value: Text, bare: Text, full: Text)
    returns (actions: seq<Action>, s: State)
    requires Distinguishes(env, path, key, value, bare, full)
    requires glob != "" && env.matches(glob, key) && !Peer(env, path, glob)
    ensures Run(env, Rest(map[key := value], [CLOCK], 0), actions, s) && Init(Rest(map[key := value], [CLOCK], 0))
    ensures Quiescent(s) && |s.pools| == 2 && s.pools[1].key == path && !Clean(env, s.store, s.pools[1])
  {
    ReadsBare(env, path, key, value, bare, full);
    var first, s1 := FirstSubscription(env, path, map[key := value], full);
    var second, s2 := DeleteUnseen(env, s1, glob, key, path);
    Join(env, Rest(map[key := value], [CLOCK], 0), first, s1, second, s2);
    assert map[key := value] - {key} == map[];
    actions, s := first + second, s2;
  }

  // ------------------------------------------------ an event that is not sent

  // For every pool path and key it matches there is a run in which the event of a
  // write of the key is not sent, and the pool keeps the data from before it.
  lemma UnsentEventStaysStale(env: Env, path: string, key: string, value: Text, bare: Text, full: Text)
    returns (actions: seq<Action>, s: State)
    requires Distinguishes(env, path, key, value, bare, full) && env.matches(key, key)
    ensures Run(env, Rest(map[], [CLOCK], 0), actions, s) && Init(Rest(map[], [CLOCK], 0))
    ensures Quiescent(s) && s.store == map[key := value] && |s.pools| == 2 && s.pools[1].key == path
    ensures !Clean(env, s.store, s.pools[1])
  {
    ReadsBare(env, path, key, value, bare, full);
    var first, s1 := FirstSubscription(env, path, map[], bare);
    var s2 := Changes(env, s1, key, key, Some(value));
    Join(env, Rest(map[], [CLOCK], 0), first, s1, [Begin(0, key)] + [Mutate(0, key, Some(value))], s2);
    s := NextDrop(s2, 0);
    actions := first + ([Begin(0, key)] + [Mutate(0, key, Some(value))]) + [Drop(0)];
    Extend(env, Rest(map[], [CLOCK], 0), first + ([Begin(0, key)] + [Mutate(0, key, Some(value))]), s2, Drop(0));
    assert map[][key := value] == map[key := value];
  }

  // ------------------------------------------ a write in the window

  // The next subscriber registers and reads its data.
  lemma SecondRegisters(env: Env, s: State, path: string) returns (s': State)
    requires path != "" && s.writers == map[] && s.workers == [Idle] && s.fetches == map[] && 7 !in s.conns
    requires |s.pools| == 2 && s.pools[0].key == "" && s.pools[1].key == path
    ensures Run(env, s, [Subscribe(7, 0, path, "", [])], s')
    ensures s' == s.(pools := s'.pools, conns := s'.conns, fetches := s'.fetches)
    ensures s'.fetches.Keys == {0} && s'.fetches[0].key == path && s'.fetches[0].conn == Some(7) && s'.fetches[0].phase == Fetching(false)
    ensures s'.pools == s.pools[1 := s.pools[1].(conns := s.pools[1].conns + [7])]
    ensures s'.conns.Keys == s.conns.Keys + {7} && s'.conns[7].queue == [] && s'.conns[7].open && s'.conns[7].pool == 1
    ensures s'.conns[7].presented == "" && s'.conns[7].key == path
  {
    FindTwo(s.pools, path);
    s' := Next(env, s, Subscribe(7, 0, path, "", []));
    Extend(env, s, [], s, Subscribe(7, 0, path, "", []));
  }

  lemma SecondSubscriber(env: Env, s: State, path: string, data: Text) returns (actions: seq<Action>, s': State)
    requires path != "" && data != [] && Fresh(env, s.store, path) == Some(data)
    requires s.writers == map[] && s.workers == [Idle] && s.fetches == map[] && 7 !in s.conns
    requires |s.pools| == 2 && s.pools[0].key == "" && s.pools[1].key == path && s.pools[1].data == data
    ensures Run(env, s, actions, s')
    ensures s'.store == s.store && s'.writers == map[] && s'.workers == [Idle] && s'.now == s.now
    ensures s'.fetches.Keys == {0} && s'.fetches[0].key == path && s'.fetches[0].conn == Some(7)
    ensures s'.fetches[0].phase == Fetched(data, false)
    ensures s'.pools == s.pools[1 := s.pools[1].(conns := s.pools[1].conns + [7])]
    ensures 7 in s'.conns && s'.conns[7].queue == [] && s'.conns[7].open && s'.conns[7].pool == 1 && s'.conns[7].presented == ""
    ensures s'.conns[7].key == path && s'.conns.Keys == s.conns.Keys + {7}
  {
    var mid := SecondRegisters(env, s, path);
    s' := ReadStep(env, mid, 0, data);
    actions := [Subscribe(7, 0, path, "", [])] + [FetchRead(0, Some(data))];
    Join(env, s, [Subscribe(7, 0, path, "", [])], mid, [FetchRead(0, Some(data))], s');
  }

  // The key is written and its event taken by the worker, up to the pool.
  lemma WriteSeen(env: Env, s: State, path: string, key: string, value: Text, stale: Text)
    returns (actions: seq<Action>, s': State)
    requires s.writers == map[] && s.workers == [Idle] && key != "" && env.matches(key, key) && env.matches(path, key)
    requires |s.pools| == 2 && s.pools[1].key == path
    requires s.fetches.Keys == {0} && s.fetches[0].key == path && s.fetches[0].phase == Fetched(stale, false)
    ensures Run(env, s, actions, s')
    ensures s'.store == s.store[key := value] && s'.writers == map[] && s'.workers == [At(key, 1)] && s'.now == s.now
    ensures s'.conns == s.conns && |s'.pools| == 2 && s'.pools[0].key == s.pools[0].key
    ensures s'.pools[1].key == path && s'.pools[1].data == s.pools[1].data && s'.pools[1].conns == s.pools[1].conns
    ensures s'.fetches.Keys == {0} && s'.fetches[0].key == path && s'.fetches[0].conn == s.fetches[0].conn
    ensures s'.fetches[0].phase == Fetched(stale, true)
  {
    var changed := Changes(env, s, key, key, Some(value));
    assert changed.fetches[0] == TearFetch(env, Unquiet(env, s.fetches[0], key), key);
    EventTaken(env, changed, key);
    s' := changed.(writers := map[], workers := [At(key, 1)]);
    var first, second := [Begin(0, key)] + [Mutate(0, key, Some(value))], [Send(0, 0)] + [Enter(0)];
    Join(env, s, first, changed, second, s');
    actions := first + second;
  }

  // The worker reads the new data and replaces the cache at time 2.
  lemma BroadcastPatch(env: Env, s: State, path: string, key: string, data: Text) returns (actions: seq<Action>, s': State)
    requires s.workers == [At(key, 1)] && env.matches(path, key) && s.now < 2
    requires |s.pools| == 2 && s.pools[0].key == "" && s.pools[1].key == path && s.pools[1].conns == [0, 7]
    requires Fresh(env, s.store, path) == Some(data)
    ensures Run(env, s, actions, s')
    ensures s'.store == s.store && s'.writers == s.writers && s'.conns == s.conns && s'.fetches == s.fetches
    ensures |s'.workers| == 1 && s'.workers[0].Sending? && s'.workers[0].rest == [0, 7] && s'.workers[0].i == 1
    ensures |s'.pools| == 2 && s'.pools[0].key == "" && s'.pools[1].key == path && s'.pools[1].data == data
    ensures s'.pools[1].version == 2
  {
    var s1 := Next(env, s, LockPool(0));
    assert s1.workers == [Reading(key, 1, false)];
    Extend(env, s, [], s, LockPool(0));
    var s2 := Next(env, s1, Read(0, Some(data)));
    assert s2.workers == [Holding(key, 1, data)];
    Extend(env, s, [LockPool(0)], s1, Read(0, Some(data)));
    s' := Next(env, s2, Patch(0, 2));
    Extend(env, s, [LockPool(0)] + [Read(0, Some(data))], s2, Patch(0, 2));
    actions := [LockPool(0)] + [Read(0, Some(data))] + [Patch(0, 2)];
  }

  lemma BroadcastWrites(env: Env, s: State) returns (actions: seq<Action>, s': State)
    requires |s.workers| == 1 && s.workers[0].Sending? && s.workers[0].rest == [0, 7] && s.workers[0].i == 1
    requires |s.pools| == 2 && 7 in s.conns && s.conns[7].open && s.conns[7].queue == []
    ensures Run(env, s, actions, s')
    ensures s'.store == s.store && s'.writers == s.writers && s'.fetches == s.fetches && s'.pools == s.pools
    ensures s'.workers == [Idle] && 7 in s'.conns && s'.conns[7] == s.conns[7].(queue := [s.workers[0].frame])
  {
    var Sending(path, i, frame, rest) := s.workers[0];
    var mid := s.(workers := s.workers[0 := At(path, 2)], conns := Refinement.PushAll(s.conns, rest, frame));
    var first := Refinement.WriteOut(env, s, 0, path, i, frame, rest, mid);
    assert mid.workers == [At(path, 2)];
    LeavesAll(env, mid, path);
    s' := mid.(workers := [Idle]);
    Join(env, s, first, mid, [Leave(0)], s');
    actions := first + [Leave(0)];
    PushedToBoth(s.conns, rest, frame);
  }

  lemma PushedToBoth(conns: map<nat, Conn>, rest: seq<nat>, frame: Frame)
    requires rest == [0, 7] && 7 in conns && conns[7].open && conns[7].queue == []
    ensures var conns' := Refinement.PushAll(conns, rest, frame);
      7 in conns' && conns'[7] == conns[7].(queue := [frame])
  {
    assert rest[1..] == [7] && [7][1..] == [];
    var one := Push(conns, 0, frame);
    assert Refinement.PushAll(one, [7], frame) == Refinement.PushAll(Push(one, 7, frame), [], frame) == Push(one, 7, frame);
  }

  // The handshake ends: old data go out under the cache's new version.
  lemma LateSnapshot(env: Env, s: State, path: string, stale: Text) returns (actions: seq<Action>, s': State)
    requires s.workers == [Idle] && s.writers == map[] && path != ""
    requires |s.pools| == 2 && s.pools[0].key == "" && s.pools[1].key == path && s.pools[1].data != [] && s.pools[1].version == 2
    requires 0 in s.fetches && s.fetches[0].key == path && s.fetches[0].conn == Some(7) && s.fetches[0].phase == Fetched(stale, true)
    requires 7 in s.conns && s.conns[7].open && s.conns[7].presented == ""
    ensures Run(env, s, actions, s') && Quiescent(s') && s'.pools == s.pools && 7 in s'.conns
    ensures s'.conns[7] == s.conns[7].(queue := s.conns[7].queue + [Frame(stale, true, 2)])
  {
    var mid := LateVersion(env, s, path, stale);
    s' := GreetStep(env, mid, 0);
    Join(env, s, [FetchVersion(0)], mid, [InitialWrite(0)], s');
    actions := [FetchVersion(0)] + [InitialWrite(0)];
  }

  lemma LateVersion(env: Env, s: State, path: string, stale: Text) returns (s': State)
    requires s.workers == [Idle] && path != ""
    requires |s.pools| == 2 && s.pools[0].key == "" && s.pools[1].key == path && s.pools[1].data != [] && s.pools[1].version == 2
    requires 0 in s.fetches && s.fetches[0].key == path && s.fetches[0].conn == Some(7) && s.fetches[0].phase == Fetched(stale, true)
    requires 7 in s.conns && s.conns[7].presented == ""
    ensures Run(env, s, [FetchVersion(0)], s') && s' == s.(fetches := s'.fetches)
    ensures 0 in s'.fetches && s'.fetches[0].conn == Some(7) && s'.fetches[0].phase == Writing(Frame(stale, true, 2))
  {
    FindTwo(s.pools, path);
    Numerals.FormatNatDigits(2);
    s' := Next(env, s, FetchVersion(0));
    Extend(env, s, [], s, FetchVersion(0));
  }

  lemma SnapshotLast(lib: Library, frame: Frame, stale: Text, version: int, cache: Text, data: Text)
    requires TrimBlind(lib) && !Same(lib, stale, data)
    ensures !Reaches(lib, cache, [frame, Frame(stale, true, version)], data)
  {
    var snap := Frame(stale, true, version);
    assert [frame, snap][1..] == [snap] && [snap][1..] == [];
    var p := Receive(lib, frame, cache);
    if !p.failed {
      assert Fold(lib, [snap], p.cache) == Patched(Trim(stale), false);
      if Same(lib, Trim(stale), data) {
        SameTrim(lib, stale);
        SameTransitive(lib, stale, Trim(stale), data);
      }
    }
  }

  // A subscriber that has read its data when the key is written.
  lemma WriteInTheWindow(env: Env, path: string, key: string, value: Text, bare: Text, full: Text)
    returns (actions: seq<Action>, s: State)
    requires Distinguishes(env, path, key, value, bare, full) && env.matches(key, key)
    ensures Run(env, Rest(map[], [CLOCK], 0), actions, s)
    ensures s.store == map[key := value] && s.writers == map[] && s.workers == [At(key, 1)] && s.now == 1
    ensures |s.pools| == 2 && s.pools[0].key == "" && s.pools[1].key == path && s.pools[1].conns == [0, 7]
    ensures s.fetches.Keys == {0} && s.fetches[0].key == path && s.fetches[0].conn == Some(7)
    ensures s.fetches[0].phase == Fetched(bare, true)
    ensures 7 in s.conns && s.conns[7].queue == [] && s.conns[7].open && s.conns[7].pool == 1 && s.conns[7].presented == ""
  {
    ReadsBare(env, path, key, value, bare, full);
    var s0 := Rest(map[], [CLOCK], 0);
    var as1, s1 := FirstSubscription(env, path, map[], bare);
    var as2, s2 := SecondSubscriber(env, s1, path, bare);
    Join(env, s0, as1, s1, as2, s2);
    var as3, s3 := WriteSeen(env, s2, path, key, value, bare);
    Join(env, s0, as1 + as2, s2, as3, s3);
    assert map[][key := value] == map[key := value];
    actions, s := as1 + as2 + as3, s3;
  }

  lemma TheRestOfIt(env: Env, s: State, path: string, key: string, bare: Text, full: Text)
    returns (actions: seq<Action>, s': State, frame: Frame)
    requires s.writers == map[] && s.workers == [At(key, 1)] && s.now == 1 && env.matches(path, key)
    requires path != "" && full != [] && Fresh(env, s.store, path) == Some(full)
    requires |s.pools| == 2 && s.pools[0].key == "" && s.pools[1].key == path && s.pools[1].conns == [0, 7]
    requires s.fetches.Keys == {0} && s.fetches[0].key == path && s.fetches[0].conn == Some(7)
    requires s.fetches[0].phase == Fetched(bare, true)
    requires 7 in s.conns && s.conns[7].queue == [] && s.conns[7].open && s.conns[7].pool == 1 && s.conns[7].presented == ""
    ensures Run(env, s, actions, s') && Quiescent(s')
    ensures |s'.pools| == 2 && s'.pools[1].data == full && s'.pools[1].version == 2
    ensures 7 in s'.conns && s'.conns[7].open && s'.conns[7].pool == 1 && s'.conns[7].queue == [frame, Frame(bare, true, 2)]
  {
    var as4, s4 := BroadcastPatch(env, s, path, key, full);
    var as5, s5 := BroadcastWrites(env, s4);
    Join(env, s, as4, s4, as5, s5);
    var as6, s6 := LateSnapshot(env, s5, path, bare);
    Join(env, s, as4 + as5, s5, as6, s6);
    actions, s', frame := as4 + as5 + as6, s6, s4.workers[0].frame;
  }

  // The store changes and is broadcast between the new subscriber's read and
  // its version: at rest, with the cache right, the subscriber folds its
  // messages to the old data, which it now believes to be the current version.
  lemma InterferedHandshakeIsNotSynced(env: Env, path: string, key: string, value: Text, bare: Text, full: Text)
    returns (actions: seq<Action>, s: State)
    requires Lawful(env.lib) && Distinguishes(env, path, key, value, bare, full) && env.matches(key, key)
    ensures Run(env, Rest(map[], [CLOCK], 0), actions, s) && Init(Rest(map[], [CLOCK], 0))
    ensures Quiescent(s) && |s.pools| == 2 && s.pools[1].data == full && s.pools[1].version == 2
    ensures 7 in s.conns && s.conns[7].open && s.conns[7].pool == 1 && !Synced(env, s, 7)
    ensures |s.conns[7].queue| == 2 && s.conns[7].queue[1] == Frame(bare, true, 2)
  {
    ReadsBare(env, path, key, value, bare, full);
    var first, mid := WriteInTheWindow(env, path, key, value, bare, full);
    var second, last, frame := TheRestOfIt(env, mid, path, key, bare, full);
    Join(env, Rest(map[], [CLOCK], 0), first, mid, second, last);
    actions, s := first + second, last;
    SnapshotLast(env.lib, frame, bare, 2, s.conns[7].cache, full);
    assert forall n: nat :: !SendingTo(s.workers, n, 7);
  }
}
