// Versions: each names one datum of its pool for good, so a client that resumes
// from the version it holds may be spared the initial snapshot.
module Versions {
  import opened Common
  import opened Text
  import opened Json
  import opened Messages
  import opened Patching
  import opened Protocol
  import opened Replication
  import Numerals

  // --------------------------------------------------- versions only go up

  // A pool's cache is replaced together with its version, by one above every
  // version given out before; otherwise both stay.
  ghost predicate Advances(p: Pool, q: Pool, now: int) {
    if q.version == p.version then q.data == p.data && q.hist == p.hist
    else now < q.version && q.hist == p.hist[q.version := q.data]
  }

  lemma CommitAdvances(env: Env, s: State, f: nat, t: int, i: nat)
    requires Inv(env, s) && Enabled(env, s, Commit(f, t)) && i < |s.pools|
    ensures i < |NextCommit(env, s, f, t).pools| && Advances(s.pools[i], NextCommit(env, s, f, t).pools[i], s.now)
    ensures s.fetches[f].key == s.pools[i].key ==> NextCommit(env, s, f, t).pools[i].version == t > s.pools[i].version
  {
    CommitEffect(env, s, f, t);
    assert PoolInv(s.pools[i], s.now);
    FindIsUnique(s.pools, i);
  }

  lemma FetchAdvances(env: Env, s: State, a: Action, i: nat)
    requires Inv(env, s) && Enabled(env, s, a) && i < |s.pools| && (a.Commit? || a.FetchVersion?)
    ensures i < |Next(env, s, a).pools| && Advances(s.pools[i], Next(env, s, a).pools[i], s.now)
    ensures s.now <= Next(env, s, a).now
  {
    if a.Commit? {
      CommitAdvances(env, s, a.f, a.t, i);
      CommitEffect(env, s, a.f, a.t);
    } else {
      assert PoolInv(s.pools[i], s.now);
      VersionEffect(s, a.f);
    }
  }

  lemma StepAdvances(env: Env, s: State, a: Action, i: nat)
    requires Inv(env, s) && Enabled(env, s, a) && i < |s.pools|
    ensures i < |Next(env, s, a).pools| && Advances(s.pools[i], Next(env, s, a).pools[i], s.now)
    ensures s.now <= Next(env, s, a).now
  {
    if a.Commit? || a.FetchVersion? {
      FetchAdvances(env, s, a, i);
    } else {
      OtherAdvances(env, s, a, i);
    }
  }

  lemma PatchAdvances(env: Env, s: State, n: nat, t: int, i: nat)
    requires Enabled(env, s, Patch(n, t)) && i < |s.pools| && PoolInv(s.pools[i], s.now)
    ensures i < |NextPatch(env, s, n, t).pools| && Advances(s.pools[i], NextPatch(env, s, n, t).pools[i], s.now)
    ensures s.now <= NextPatch(env, s, n, t).now
  {
  }

  lemma OtherAdvances(env: Env, s: State, a: Action, i: nat)
    requires Enabled(env, s, a) && i < |s.pools| && PoolInv(s.pools[i], s.now)
    requires !a.Commit? && !a.FetchVersion?
    ensures i < |Next(env, s, a).pools| && Advances(s.pools[i], Next(env, s, a).pools[i], s.now)
    ensures s.now <= Next(env, s, a).now
  {
    if a.Patch? {
      PatchAdvances(env, s, a.n, a.t, i);
    } else if !a.Subscribe? && !a.Close? {
      PoolsStay(env, s, a);
    }
  }

  // ------------------------------------------------ resuming from a version

  // An honest connection whose presented version is its pool's is synced, even
  // before its fetch has said so.
  ghost predicate PresentOk(env: Env, s: State, c: nat)
    requires c in s.conns
  {
    var conn := s.conns[c];
    conn.honest ==>
      && (forall v: int :: conn.presented == Numerals.FormatInt(v) ==> v <= s.now)
      && ((conn.open && conn.pool < |s.pools| && s.pools[conn.pool].version in s.pools[conn.pool].hist
           && conn.presented == Numerals.FormatInt(s.pools[conn.pool].version)) ==> Synced(env, s, c))
  }

  // A snapshot is only on its way to a client that presented another version
  // than the pool's present one.
  ghost predicate WritingOk(s: State, f: Fetch) {
    f.phase.Writing? && f.conn.Some? && f.conn.value in s.conns && s.conns[f.conn.value].honest
    && s.conns[f.conn.value].pool < |s.pools| ==>
      s.conns[f.conn.value].presented != Numerals.FormatInt(s.pools[s.conns[f.conn.value].pool].version)
  }

  ghost predicate PresentInv(env: Env, s: State) {
    && (forall c <- s.conns :: PresentOk(env, s, c))
    && (forall f <- s.fetches :: WritingOk(s, s.fetches[f]))
  }

  ghost predicate SameIdentity(a: Conn, b: Conn) {
    a.key == b.key && a.pool == b.pool && a.presented == b.presented && a.honest == b.honest && (b.open ==> a.open)
  }

  lemma IdentityIsKept(env: Env, s: State, a: Action, c: nat)
    requires Enabled(env, s, a) && c in s.conns && c in Next(env, s, a).conns
    ensures SameIdentity(s.conns[c], Next(env, s, a).conns[c])
  {
    if !OfConnections(a) {
      ConnsStay(env, s, a);
    }
  }

  lemma OnlySubscribeAdds(env: Env, s: State, a: Action, c: nat)
    requires Enabled(env, s, a) && c !in s.conns && c in Next(env, s, a).conns
    ensures a.Subscribe? && a.c == c
  {
    if !OfConnections(a) {
      ConnsStay(env, s, a);
    }
  }

  // Whoever overwrites a cache gives it a new version.
  lemma SameVersionIsNotOverwritten(env: Env, s: State, a: Action, c: nat)
    requires Inv(env, s) && Enabled(env, s, a) && c in s.conns
    requires var i := s.conns[c].pool; i < |s.pools| && i < |Next(env, s, a).pools| && Next(env, s, a).pools[i].version == s.pools[i].version
    ensures !Overwrites(env, s, a, c)
  {
    PoolOfConn(env, s, c);
    if a.Commit? {
      CommitAdvances(env, s, a.f, a.t, s.conns[c].pool);
    }
  }

  lemma OldConnPresent(env: Env, s: State, a: Action, c: nat)
    requires Lawful(env.lib) && Inv(env, s) && Enabled(env, s, a) && PresentInv(env, s)
    requires c in s.conns && c in Next(env, s, a).conns
    ensures PresentOk(env, Next(env, s, a), c)
  {
    var s' := Next(env, s, a);
    var i := s.conns[c].pool;
    IdentityIsKept(env, s, a, c);
    PoolOfConn(env, s, c);
    StepAdvances(env, s, a, i);
    assert PresentOk(env, s, c);
    if s.conns[c].honest && s'.conns[c].open && s'.pools[i].version == s.pools[i].version
       && s.conns[c].presented == Numerals.FormatInt(s.pools[i].version) && s.pools[i].version in s.pools[i].hist {
      assert a != Disconnect(c);
      NoOwnSnapshot(env, s, a, c);
      SameVersionIsNotOverwritten(env, s, a, c);
      SyncStep(env, s, a, c);
    }
  }

  lemma NoOwnSnapshot(env: Env, s: State, a: Action, c: nat)
    requires Enabled(env, s, a) && PresentInv(env, s) && c in s.conns && c in Next(env, s, a).conns && a != Disconnect(c)
    requires s.conns[c].honest && s.conns[c].pool < |s.pools|
    requires s.conns[c].presented == Numerals.FormatInt(s.pools[s.conns[c].pool].version)
    ensures !Parts(s, a, c)
  {
    if a.InitialWrite? {
      assert WritingOk(s, s.fetches[a.f]);
    }
  }

  lemma NewConnPresent(env: Env, s: State, c: nat, f: nat, key: string, presented: string, cache: Text)
    requires Inv(env, s) && Enabled(env, s, Subscribe(c, f, key, presented, cache))
    ensures PresentOk(env, NextSubscribe(env, s, c, f, key, presented, cache), c)
  {
    var s' := NextSubscribe(env, s, c, f, key, presented, cache);
    var i := Find(s.pools, key);
    NobodySends(s.workers, c);
    if i >= 0 {
      assert PoolInv(s.pools[i], s.now);
      assert s'.pools[i].data == s.pools[i].data && s'.conns[c].queue == [];
    }
  }

  // What an earlier fetch wrote or will write is unaffected by the others.
  lemma OldFetchWriting(env: Env, s: State, a: Action, f: nat)
    requires Inv(env, s) && Enabled(env, s, a) && PresentInv(env, s)
    requires f in s.fetches && f in Next(env, s, a).fetches
    requires Next(env, s, a).fetches[f].phase.Writing? ==>
      s.fetches[f].phase.Writing? && Next(env, s, a).fetches[f].conn == s.fetches[f].conn
    ensures WritingOk(Next(env, s, a), Next(env, s, a).fetches[f])
  {
    var s' := Next(env, s, a);
    var fetch := s'.fetches[f];
    if fetch.phase.Writing? && fetch.conn.Some? && fetch.conn.value in s'.conns {
      var c := fetch.conn.value;
      if c in s.conns {
        IdentityIsKept(env, s, a, c);
        PoolOfConn(env, s, c);
        StepAdvances(env, s, a, s.conns[c].pool);
        assert WritingOk(s, s.fetches[f]) && PresentOk(env, s, c);
      } else {
        OnlySubscribeAdds(env, s, a, c);
      }
    }
  }

  lemma StorageWriting(env: Env, s: State, a: Action, f: nat)
    requires Enabled(env, s, a) && f in Next(env, s, a).fetches && (a.Mutate? || a.Begin?)
    requires Next(env, s, a).fetches[f].phase.Writing?
    ensures f in s.fetches && s.fetches[f].phase.Writing?
  {
    match a {
      case Mutate(w, key, value) => assert Next(env, s, a).fetches[f] == TearFetch(env, s.fetches[f], key);
      case Begin(w, path) => assert Next(env, s, a).fetches[f] == Unquiet(env, s.fetches[f], path);
    }
  }

  // A fetch comes to write only from FetchVersion or Commit, with the version
  // that its pool then has.
  lemma NewWriting(env: Env, s: State, a: Action, f: nat)
    requires Enabled(env, s, a) && f in Next(env, s, a).fetches
    requires Next(env, s, a).fetches[f].phase.Writing? && (f in s.fetches ==> !s.fetches[f].phase.Writing?)
    ensures (a.FetchVersion? || a.Commit?) && a.f == f
  {
    if a.FetchVersion? {
      if a.f != f { VersionPhases(s, a.f, f); }
    } else if a.Commit? {
      if a.f != f { CommitPhases(env, s, a.f, a.t, f); }
    } else if a.Mutate? || a.Begin? {
      StorageWriting(env, s, a, f);
    } else {
      PlainWriting(env, s, a, f);
    }
  }

  lemma PlainWriting(env: Env, s: State, a: Action, f: nat)
    requires Enabled(env, s, a) && f in Next(env, s, a).fetches
    requires !a.FetchVersion? && !a.Commit? && !a.Mutate? && !a.Begin?
    requires Next(env, s, a).fetches[f].phase.Writing?
    ensures f in s.fetches && s.fetches[f].phase.Writing?
  {
    if !OfFetches(a) && !a.Subscribe? && !a.InitialWrite? {
      FetchesStay(env, s, a);
    }
  }

  lemma KeptWriting(env: Env, s: State, a: Action, f: nat)
    requires Enabled(env, s, a) && f in s.fetches && s.fetches[f].phase.Writing? && f in Next(env, s, a).fetches
    ensures Next(env, s, a).fetches[f].conn == s.fetches[f].conn
  {
    if a.Mutate? || a.Begin? {
      StorageKeepsConn(env, s, a, f);
    } else if a.FetchVersion? || a.Commit? {
      OthersKeepConn(env, s, a, f);
    } else if !a.StartFetch? && !a.FetchRead? && !a.Subscribe? && !a.InitialWrite? {
      FetchesStay(env, s, a);
    }
  }

  lemma OthersKeepConn(env: Env, s: State, a: Action, f: nat)
    requires Enabled(env, s, a) && (a.FetchVersion? || a.Commit?) && f in s.fetches && f in Next(env, s, a).fetches
    ensures Next(env, s, a).fetches[f].conn == s.fetches[f].conn
  {
    if a.Commit? {
      CommitKeepsConn(env, s, a.f, a.t, f);
    } else {
      VersionKeepsConn(s, a.f, f);
    }
  }

  lemma CommitKeepsConn(env: Env, s: State, g: nat, t: int, f: nat)
    requires g in s.fetches && s.fetches[g].phase.Uncached? && f in s.fetches && f in NextCommit(env, s, g, t).fetches
    ensures NextCommit(env, s, g, t).fetches[f].conn == s.fetches[f].conn
  {
  }

  lemma VersionKeepsConn(s: State, g: nat, f: nat)
    requires g in s.fetches && s.fetches[g].phase.Fetched? && f in s.fetches && f in NextFetchVersion(s, g).fetches
    ensures NextFetchVersion(s, g).fetches[f].conn == s.fetches[f].conn
  {
  }

  lemma StorageKeepsConn(env: Env, s: State, a: Action, f: nat)
    requires Enabled(env, s, a) && (a.Mutate? || a.Begin?) && f in s.fetches
    ensures f in Next(env, s, a).fetches && Next(env, s, a).fetches[f].conn == s.fetches[f].conn
  {
    assert a.Mutate? ==> Next(env, s, a).fetches[f] == TearFetch(env, s.fetches[f], a.key);
    assert a.Begin? ==> Next(env, s, a).fetches[f] == Unquiet(env, s.fetches[f], a.path);
  }

  lemma FinishWriting(env: Env, s: State, f: nat, raw: Text, version: int)
    requires Inv(env, s) && f in s.fetches && Find(s.pools, s.fetches[f].key) >= 0
    requires s.pools[Find(s.pools, s.fetches[f].key)].version == version
    ensures var s' := Finish(s, f, raw, version); f in s'.fetches ==> WritingOk(s', s'.fetches[f])
  {
    var fetch := s.fetches[f];
    assert FetchOk(s.pools, s.conns, fetch);
    if fetch.conn.Some? && fetch.conn.value in s.conns {
      PoolOfConn(env, s, fetch.conn.value);
    }
  }

  lemma VersionWriting(env: Env, s: State, f: nat)
    requires Inv(env, s) && Enabled(env, s, FetchVersion(f))
    ensures var s' := NextFetchVersion(s, f); f in s'.fetches ==> WritingOk(s', s'.fetches[f])
  {
    var i := Find(s.pools, s.fetches[f].key);
    if i >= 0 && s.pools[i].data != [] {
      FinishWriting(env, s, f, s.fetches[f].phase.raw, s.pools[i].version);
    }
  }

  lemma CommitWriting(env: Env, s: State, f: nat, t: int)
    requires Inv(env, s) && Enabled(env, s, Commit(f, t))
    ensures var s' := NextCommit(env, s, f, t); f in s'.fetches ==> WritingOk(s', s'.fetches[f])
  {
    var s' := NextCommit(env, s, f, t);
    CommitEffect(env, s, f, t);
    if f in s'.fetches && s.fetches[f].conn.Some? && s.fetches[f].conn.value in s.conns {
      var c := s.fetches[f].conn.value;
      assert FetchOk(s.pools, s.conns, s.fetches[f]);
      PoolOfConn(env, s, c);
      CommitAdvances(env, s, f, t, s.conns[c].pool);
    }
  }

  lemma ConnPresent(env: Env, s: State, a: Action, c: nat)
    requires Lawful(env.lib) && Inv(env, s) && Enabled(env, s, a) && PresentInv(env, s) && c in Next(env, s, a).conns
    ensures PresentOk(env, Next(env, s, a), c)
  {
    if c in s.conns {
      OldConnPresent(env, s, a, c);
    } else {
      OnlySubscribeAdds(env, s, a, c);
      NewConnPresent(env, s, c, a.f, a.key, a.presented, a.cache);
    }
  }

  lemma FetchPresent(env: Env, s: State, a: Action, f: nat)
    requires Inv(env, s) && Enabled(env, s, a) && PresentInv(env, s) && f in Next(env, s, a).fetches
    ensures WritingOk(Next(env, s, a), Next(env, s, a).fetches[f])
  {
    if Next(env, s, a).fetches[f].phase.Writing? {
      if f in s.fetches && s.fetches[f].phase.Writing? {
        KeptWriting(env, s, a, f);
        OldFetchWriting(env, s, a, f);
      } else {
        NewWriting(env, s, a, f);
        if a.Commit? { CommitWriting(env, s, f, a.t); } else { VersionWriting(env, s, f); }
      }
    }
  }

  lemma StepPresent(env: Env, s: State, a: Action)
    requires Lawful(env.lib) && Inv(env, s) && Enabled(env, s, a) && PresentInv(env, s)
    ensures PresentInv(env, Next(env, s, a))
  {
    var s' := Next(env, s, a);
    forall c | c in s'.conns ensures PresentOk(env, s', c) {
      ConnPresent(env, s, a, c);
    }
    forall f | f in s'.fetches ensures WritingOk(s', s'.fetches[f]) {
      FetchPresent(env, s, a, f);
    }
  }

  lemma {:induction false} RunPresent(env: Env, s: State, actions: seq<Action>, s': State)
    requires Lawful(env.lib) && Inv(env, s) && PresentInv(env, s) && Run(env, s, actions, s')
    ensures PresentInv(env, s') && Inv(env, s')
    decreases |actions|
  {
    if actions != [] {
      StepInv(env, s, actions[0]);
      StepPresent(env, s, actions[0]);
      RunPresent(env, Next(env, s, actions[0]), actions[1..], s');
    }
  }

  lemma SkipSyncs(env: Env, s: State, f: nat)
    requires Lawful(env.lib) && Inv(env, s) && PresentInv(env, s) && Enabled(env, s, FetchVersion(f))
    requires s.fetches[f].conn.Some? && f !in NextFetchVersion(s, f).fetches
    requires var c := s.fetches[f].conn.value; c in s.conns && s.conns[c].open && s.conns[c].honest
    ensures Synced(env, NextFetchVersion(s, f), s.fetches[f].conn.value)
  {
    var c := s.fetches[f].conn.value;
    assert FetchOk(s.pools, s.conns, s.fetches[f]);
    PoolOfConn(env, s, c);
    var i := Find(s.pools, s.fetches[f].key);
    assert PoolInv(s.pools[i], s.now);
    assert PresentOk(env, s, c);
    SyncStep(env, s, FetchVersion(f), c);
  }

  // In every reachable state: when the version read is the one the client
  // honestly presented, no snapshot is sent and none is needed.
  lemma SkippedSnapshotIsSound(env: Env, s: State, actions: seq<Action>, s': State, f: nat)
    requires Lawful(env.lib) && Init(s) && Run(env, s, actions, s') && Enabled(env, s', FetchVersion(f))
    requires s'.fetches[f].conn.Some? && f !in NextFetchVersion(s', f).fetches
    requires var c := s'.fetches[f].conn.value; c in s'.conns && s'.conns[c].open && s'.conns[c].honest
    ensures Synced(env, NextFetchVersion(s', f), s'.fetches[f].conn.value)
  {
    InitInv(env, s);
    RunPresent(env, s, actions, s');
    SkipSyncs(env, s', f);
  }

  // ------------------------------------------------- who presents honestly

  // A client that held a version's datum, presenting that version.
  lemma HolderIsHonest(env: Env, s: State, key: string, v: int, cache: Text)
    requires v <= s.now
    requires var i := Find(s.pools, key); i >= 0 && v in s.pools[i].hist ==> Same(env.lib, cache, s.pools[i].hist[v])
    ensures Honest(env, s, key, Numerals.FormatInt(v), cache)
  {
    forall u: int | Numerals.FormatInt(v) == Numerals.FormatInt(u) ensures u == v {
      Numerals.FormatIntInjective(v, u);
    }
  }

  // A client synced and drained at some version may resume from it at any
  // later time: over any run the version keeps its datum.
  lemma DrainedClientMayResume(env: Env, s: State, actions: seq<Action>, s': State, c: nat)
    requires Inv(env, s) && Run(env, s, actions, s') && Synced(env, s, c)
    requires s.conns[c].queue == [] && forall n: nat :: !SendingTo(s.workers, n, c)
    requires s.pools[s.conns[c].pool].data != []
    ensures Honest(env, s', s.conns[c].key, Numerals.FormatInt(s.pools[s.conns[c].pool].version), s.conns[c].cache)
  {
    var i := s.conns[c].pool;
    var v := s.pools[i].version;
    RunInv(env, s, actions, s');
    RunNow(env, s, actions, s');
    PoolOfConn(env, s, c);
    DrainedClientHoldsCache(env, s, c);
    assert PoolInv(s.pools[i], s.now);
    FindIsStable(s.pools, s'.pools, s.conns[c].key);
    assert Grows(s.pools[i], s'.pools[i]);
    HolderIsHonest(env, s', s.conns[c].key, v, s.conns[c].cache);
  }

  lemma {:induction false} RunNow(env: Env, s: State, actions: seq<Action>, s': State)
    requires Inv(env, s) && Run(env, s, actions, s')
    ensures s.now <= s'.now
    decreases |actions|
  {
    if actions != [] {
      StepAdvances(env, s, actions[0], 0);
      StepInv(env, s, actions[0]);
      RunNow(env, Next(env, s, actions[0]), actions[1..], s');
    }
  }
}
