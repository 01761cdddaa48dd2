// When a subscription starts out synced: its handshake is several steps, and
// the snapshot it ends with is right if nothing interfered with them.
module Subscription {
  import opened Common
  import opened Text
  import opened Json
  import opened Messages
  import opened Patching
  import opened Protocol
  import opened Replication
  import opened Freshness
  import opened Versions

  // ------------------------------------------------------- what interferes

  ghost predicate IsClean(env: Env, s: State, key: string) {
    var i := Find(s.pools, key);
    i >= 0 && Clean(env, s.store, s.pools[i])
  }

  // What setCache is about to store is not what a read would give.
  ghost predicate Spoils(env: Env, s: State, key: string, phase: Phase, t: int) {
    phase.Uncached? && !Clean(env, s.store, Renewed(PoolFor(s.pools, key), phase.raw, t))
  }

  // A write the pool would be broadcast for begins, a key it sees changes,
  // data are read while the cache is not current, or another Refresh of the
  // same key stores data that are not.
  ghost predicate Interferes(env: Env, s: State, a: Action, f: nat)
    requires Enabled(env, s, a) && f in s.fetches
  {
    var key := s.fetches[f].key;
    match a
    case Begin(_, path) => Peer(env, key, path)
    case Mutate(_, k, _) => env.matches(key, k)
    case FetchRead(g, _) => g == f && !IsClean(env, s, key)
    case Commit(g, t) => g != f && s.fetches[g].key == key && Spoils(env, s, key, s.fetches[g].phase, t)
    case _ => false
  }

  lemma CommitMonitor(env: Env, s: State, g: nat, t: int, f: nat)
    requires Enabled(env, s, Commit(g, t)) && f in s.fetches && f in NextCommit(env, s, g, t).fetches
    ensures var fetch := NextCommit(env, s, g, t).fetches[f];
      && (fetch.quiet <==> s.fetches[f].quiet && !Interferes(env, s, Commit(g, t), f))
      && fetch.key == s.fetches[f].key && fetch.conn == s.fetches[f].conn
  {
    var key := s.fetches[g].key;
    var pool := Renewed(PoolFor(s.pools, key), s.fetches[g].phase.raw, t);
    var others := UnquietOthers(s.fetches, key, g, !Clean(env, s.store, pool));
    var mid := s.(pools := WithPool(s.pools, pool), fetches := others, now := t);
    FinishKeepsMonitor(mid, g, s.fetches[g].phase.raw, t, f);
  }

  lemma FinishKeepsMonitor(s: State, g: nat, raw: Text, version: int, f: nat)
    requires g in s.fetches && f in Finish(s, g, raw, version).fetches
    ensures f in s.fetches && var fetch := Finish(s, g, raw, version).fetches[f];
      fetch.quiet == s.fetches[f].quiet && fetch.key == s.fetches[f].key && fetch.conn == s.fetches[f].conn
  {
  }

  lemma FetchMonitor(env: Env, s: State, a: Action, f: nat)
    requires Enabled(env, s, a) && f in s.fetches && f in Next(env, s, a).fetches
    requires a.Begin? || a.Mutate? || a.FetchRead?
    ensures Next(env, s, a).fetches[f].quiet <==> s.fetches[f].quiet && !Interferes(env, s, a, f)
    ensures Next(env, s, a).fetches[f].key == s.fetches[f].key && Next(env, s, a).fetches[f].conn == s.fetches[f].conn
  {
    match a {
      case Begin(w, path) => assert Next(env, s, a).fetches[f] == Unquiet(env, s.fetches[f], path);
      case Mutate(w, k, value) => assert Next(env, s, a).fetches[f] == TearFetch(env, s.fetches[f], k);
      case FetchRead(g, result) =>
    }
  }

  lemma OtherMonitor(env: Env, s: State, a: Action, f: nat)
    requires Enabled(env, s, a) && f in s.fetches && f in Next(env, s, a).fetches
    requires !a.Begin? && !a.Mutate? && !a.FetchRead? && !a.Commit? && !a.FetchVersion?
    ensures Next(env, s, a).fetches[f] == s.fetches[f]
  {
  }

  // The monitor is exactly that: a subscription is quiet as long as nothing
  // has interfered.
  lemma QuietUntilInterference(env: Env, s: State, a: Action, f: nat)
    requires Enabled(env, s, a) && f in s.fetches && f in Next(env, s, a).fetches
    ensures Next(env, s, a).fetches[f].quiet <==> s.fetches[f].quiet && !Interferes(env, s, a, f)
    ensures Next(env, s, a).fetches[f].key == s.fetches[f].key && Next(env, s, a).fetches[f].conn == s.fetches[f].conn
  {
    if a.Begin? || a.Mutate? || a.FetchRead? {
      FetchMonitor(env, s, a, f);
    } else if a.Commit? {
      CommitMonitor(env, s, a.f, a.t, f);
    } else if a.FetchVersion? {
      VersionKeepsOthers(s, a.f, f);
    } else {
      OtherMonitor(env, s, a, f);
    }
  }

  lemma VersionKeepsOthers(s: State, g: nat, f: nat)
    requires g in s.fetches && s.fetches[g].phase.Fetched? && f in s.fetches && f in NextFetchVersion(s, g).fetches
    ensures NextFetchVersion(s, g).fetches[f].quiet == s.fetches[f].quiet
    ensures NextFetchVersion(s, g).fetches[f].key == s.fetches[f].key
    ensures NextFetchVersion(s, g).fetches[f].conn == s.fetches[f].conn
  {
  }

  // ----------------------------------------------- what a quiet fetch knows

  ghost predicate IsFresh(env: Env, store: map<string, Text>, key: string, raw: Text) {
    Fresh(env, store, key).Some? && raw == OrEmptyObject(Fresh(env, store, key).value)
  }

  ghost predicate QuietPhase(env: Env, store: map<string, Text>, p: Pool, phase: Phase) {
    match phase
    case Fetching(torn) => !torn
    case Fetched(raw, _) => IsFresh(env, store, p.key, raw) && Clean(env, store, p)
    case Uncached(raw, _) => IsFresh(env, store, p.key, raw) && Clean(env, store, p)
    case Writing(frame) => IsFresh(env, store, p.key, frame.payload) && Clean(env, store, p) && p.data != []
  }

  ghost predicate QuietOk(env: Env, s: State, f: Fetch) {
    var i := Find(s.pools, f.key);
    f.quiet ==>
      && NothingOutstanding(env, s, f.key) && i >= 0 && QuietPhase(env, s.store, s.pools[i], f.phase)
      && f.conn.Some? && (f.conn.value in s.conns ==> s.conns[f.conn.value].queue == [])
  }

  // Data on the way to a cache are never empty.
  ghost predicate RawFull(s: State) {
    forall f <- s.fetches :: match s.fetches[f].phase
      case Fetched(raw, _) => raw != []
      case Uncached(raw, _) => raw != []
      case _ => true
  }

  ghost predicate QuietInv(env: Env, s: State) {
    RawFull(s) && forall f <- s.fetches :: QuietOk(env, s, s.fetches[f])
  }

  lemma FinishFull(s: State, f: nat, raw: Text, version: int)
    requires RawFull(s) && f in s.fetches
    ensures RawFull(Finish(s, f, raw, version))
  {
  }

  lemma StorageFull(env: Env, s: State, a: Action)
    requires Enabled(env, s, a) && RawFull(s) && (a.Mutate? || a.Begin?)
    ensures RawFull(Next(env, s, a))
  {
    match a {
      case Mutate(w, k, value) =>
        assert forall f <- s.fetches :: Next(env, s, a).fetches[f] == TearFetch(env, s.fetches[f], k);
      case Begin(w, path) =>
        assert forall f <- s.fetches :: Next(env, s, a).fetches[f] == Unquiet(env, s.fetches[f], path);
    }
  }

  lemma FetchFull(env: Env, s: State, a: Action)
    requires Enabled(env, s, a) && RawFull(s) && (a.FetchRead? || a.FetchVersion? || a.Commit?)
    ensures RawFull(Next(env, s, a))
  {
    match a {
      case FetchRead(f, result) =>
        assert result.Some? ==> OrEmptyObject(result.value) != [];
      case FetchVersion(f) =>
        var i := Find(s.pools, s.fetches[f].key);
        if i >= 0 && s.pools[i].data != [] { FinishFull(s, f, s.fetches[f].phase.raw, s.pools[i].version); }
      case Commit(f, t) =>
        var key, raw := s.fetches[f].key, s.fetches[f].phase.raw;
        var pool := Renewed(PoolFor(s.pools, key), raw, t);
        var mid := s.(pools := WithPool(s.pools, pool), fetches := UnquietOthers(s.fetches, key, f, !Clean(env, s.store, pool)), now := t);
        assert forall g <- s.fetches :: mid.fetches[g].phase == s.fetches[g].phase;
        FinishFull(mid, f, raw, t);
    }
  }

  lemma StepFull(env: Env, s: State, a: Action)
    requires Enabled(env, s, a) && RawFull(s)
    ensures RawFull(Next(env, s, a))
  {
    if a.Mutate? || a.Begin? {
      StorageFull(env, s, a);
    } else if a.FetchRead? || a.FetchVersion? || a.Commit? {
      FetchFull(env, s, a);
    } else {
      RestFull(env, s, a);
    }
  }

  lemma RestFull(env: Env, s: State, a: Action)
    requires Enabled(env, s, a) && RawFull(s)
    requires !a.Mutate? && !a.Begin? && !a.FetchRead? && !a.FetchVersion? && !a.Commit?
    ensures RawFull(Next(env, s, a))
  {
    if !OfFetches(a) && !a.Subscribe? && !a.InitialWrite? {
      FetchesStay(env, s, a);
    }
  }

  // ---------------------------------------------------- steps of the others

  // Nothing outstanding means no worker is inside the pool.
  lemma PoolIsFree(env: Env, s: State, key: string)
    requires Inv(env, s) && NothingOutstanding(env, s, key) && Find(s.pools, key) >= 0
    ensures PoolFree(s.workers, Find(s.pools, key))
  {
    var i := Find(s.pools, key);
    forall n | 0 <= n < |s.workers| ensures !HasPool(s.workers[n], i) {
      assert WorkerInv(env, s.pools, s.workers[n]);
    }
  }

  lemma NothingIsSent(env: Env, s: State, f: nat, c: nat)
    requires Inv(env, s) && f in s.fetches && s.fetches[f].conn == Some(c) && c in s.conns
    requires NothingOutstanding(env, s, s.fetches[f].key)
    ensures forall n: nat :: !SendingTo(s.workers, n, c)
    ensures s.conns[c].pool == Find(s.pools, s.fetches[f].key)
  {
    assert FetchOk(s.pools, s.conns, s.fetches[f]);
    PoolOfConn(env, s, c);
    PoolIsFree(env, s, s.fetches[f].key);
    forall n: nat ensures !SendingTo(s.workers, n, c) {
      if SendingTo(s.workers, n, c) {
        SenderIsInPool(env, s, n, c);
        assert HasPool(s.workers[n], s.conns[c].pool);
      }
    }
  }

  // Steps that leave the fetch itself alone.
  lemma OthersKeepQuiet(env: Env, s: State, s': State, f: nat)
    requires f in s.fetches && f in s'.fetches && QuietOk(env, s, s.fetches[f])
    requires s'.fetches[f].key == s.fetches[f].key && s'.fetches[f].conn == s.fetches[f].conn
    requires s'.fetches[f].quiet ==> s.fetches[f].quiet && s'.fetches[f].phase == s.fetches[f].phase
    requires s'.fetches[f].quiet ==> NothingOutstanding(env, s', s.fetches[f].key)
    requires s'.fetches[f].quiet ==> Fresh(env, s'.store, s.fetches[f].key) == Fresh(env, s.store, s.fetches[f].key)
    requires Find(s'.pools, s.fetches[f].key) == Find(s.pools, s.fetches[f].key)
    requires var i := Find(s.pools, s.fetches[f].key); i >= 0 ==> s'.pools[i].data == s.pools[i].data
    requires s'.fetches[f].quiet && s.fetches[f].conn.Some? && s.fetches[f].conn.value in s'.conns ==>
      s.fetches[f].conn.value in s.conns && s'.conns[s.fetches[f].conn.value].queue == s.conns[s.fetches[f].conn.value].queue
    ensures QuietOk(env, s', s'.fetches[f])
  {
  }

  lemma FindAfterStep(env: Env, s: State, a: Action, f: nat)
    requires Inv(env, s) && Enabled(env, s, a) && f in s.fetches && s.fetches[f].conn.Some?
    ensures Find(Next(env, s, a).pools, s.fetches[f].key) == Find(s.pools, s.fetches[f].key) >= 0
  {
    StepInv(env, s, a);
    assert FetchOk(s.pools, s.conns, s.fetches[f]);
    FindIsStable(s.pools, Next(env, s, a).pools, s.fetches[f].key);
  }

  lemma StillNothingOutstanding(env: Env, s: State, a: Action, key: string)
    requires Enabled(env, s, a) && NothingOutstanding(env, s, key) && (a.Begin? ==> !Peer(env, key, a.path))
    ensures NothingOutstanding(env, Next(env, s, a), key)
  {
    match a {
      case Mutate(w, k, value) =>
        assert forall n :: 0 <= n < |s.workers| ==>
          NextMutate(env, s, w, k, value).workers[n] == TearWorker(env, s.pools, s.workers[n], k);
      case Commit(f, t) => CommitEffect(env, s, f, t);
      case FetchVersion(f) => VersionEffect(s, f);
      case _ =>
    }
  }

  // Only its own first message, or a broadcast under way, puts a message into
  // the queue of a connection.
  lemma QueueGrowsBy(env: Env, s: State, a: Action, c: nat)
    requires Enabled(env, s, a) && c in s.conns && s.conns[c].queue == []
    requires a.Write? ==> !SendingTo(s.workers, a.n, c)
    requires a.InitialWrite? ==> a.f in s.fetches && s.fetches[a.f].conn != Some(c)
    ensures c in Next(env, s, a).conns ==> Next(env, s, a).conns[c].queue == []
  {
    if !OfConnections(a) {
      ConnsStay(env, s, a);
    }
  }

  // A connection is not registered twice for one subscription.
  lemma ConnIsOld(env: Env, s: State, a: Action, c: nat)
    requires Enabled(env, s, a) && c in Next(env, s, a).conns && !NoFetchFor(s.fetches, c)
    ensures c in s.conns
  {
    if c !in s.conns {
      OnlySubscribeAdds(env, s, a, c);
      assert false;
    }
  }

  // No message is queued for a connection whose subscription is quiet.
  lemma QueueStaysEmpty(env: Env, s: State, a: Action, f: nat)
    requires Inv(env, s) && Enabled(env, s, a) && f in s.fetches && f in Next(env, s, a).fetches
    requires s.fetches[f].quiet && QuietOk(env, s, s.fetches[f])
    requires s.fetches[f].conn.value in Next(env, s, a).conns
    ensures s.fetches[f].conn.value in s.conns
    ensures Next(env, s, a).conns[s.fetches[f].conn.value].queue == []
  {
    var c := s.fetches[f].conn.value;
    ConnIsOld(env, s, a, c);
    NothingIsSent(env, s, f, c);
    QueueGrowsBy(env, s, a, c);
  }

  // The pool's data change only by a broadcast, which cannot be under way, or
  // by a Commit.
  lemma PoolDataStay(env: Env, s: State, a: Action, key: string)
    requires Inv(env, s) && Enabled(env, s, a) && NothingOutstanding(env, s, key) && Find(s.pools, key) >= 0
    requires a.Commit? ==> s.fetches[a.f].key != key
    ensures var i := Find(s.pools, key); i < |Next(env, s, a).pools| && Next(env, s, a).pools[i].data == s.pools[i].data
  {
    PoolIsFree(env, s, key);
    FreePoolStays(env, s, a, key);
  }

  lemma FreePoolStays(env: Env, s: State, a: Action, key: string)
    requires Enabled(env, s, a) && Find(s.pools, key) >= 0 && PoolFree(s.workers, Find(s.pools, key))
    requires a.Commit? ==> s.fetches[a.f].key != key
    ensures var i := Find(s.pools, key); i < |Next(env, s, a).pools| && Next(env, s, a).pools[i].data == s.pools[i].data
  {
    if a.Patch? {
      assert !HasPool(s.workers[a.n], Find(s.pools, key));
    } else if a.Commit? {
      CommitEffect(env, s, a.f, a.t);
    } else if a.Subscribe? || a.Close? {
      RosterStepKeepsData(env, s, a, Find(s.pools, key));
    } else {
      PoolsStay(env, s, a);
    }
  }

  lemma RosterStepKeepsData(env: Env, s: State, a: Action, i: nat)
    requires Enabled(env, s, a) && (a.Subscribe? || a.Close?) && i < |s.pools|
    ensures i < |Next(env, s, a).pools| && Next(env, s, a).pools[i].data == s.pools[i].data
  {
  }

  ghost predicate OwnStep(s: State, a: Action, f: nat)
  {
    (a.FetchRead? || a.FetchVersion? || a.Commit?) && a.f == f
  }

  lemma PhaseStays(env: Env, s: State, a: Action, f: nat)
    requires Enabled(env, s, a) && f in s.fetches && f in Next(env, s, a).fetches && !OwnStep(s, a, f)
    requires a.Mutate? ==> !env.matches(s.fetches[f].key, a.key)
    ensures Next(env, s, a).fetches[f].phase == s.fetches[f].phase
  {
    match a {
      case Begin(w, path) => assert Next(env, s, a).fetches[f] == Unquiet(env, s.fetches[f], path);
      case Mutate(w, k, value) => assert Next(env, s, a).fetches[f] == TearFetch(env, s.fetches[f], k);
      case Commit(g, t) => CommitPhases(env, s, g, t, f);
      case FetchVersion(g) => VersionPhases(s, g, f);
      case _ =>
    }
  }

  lemma FreshStays(env: Env, s: State, a: Action, key: string)
    requires Enabled(env, s, a) && (a.Mutate? ==> !env.matches(key, a.key))
    ensures Fresh(env, Next(env, s, a).store, key) == Fresh(env, s.store, key)
  {
    match a {
      case Mutate(w, k, value) => InvisibleChange(env, s.store, key, k, value);
      case Commit(f, t) => CommitEffect(env, s, f, t);
      case FetchVersion(f) => VersionEffect(s, f);
      case _ =>
    }
  }

  lemma OtherStepQuiet(env: Env, s: State, a: Action, f: nat)
    requires Inv(env, s) && Enabled(env, s, a) && QuietInv(env, s)
    requires f in s.fetches && f in Next(env, s, a).fetches && !OwnStep(s, a, f)
    requires a.Commit? ==> s.fetches[a.f].key != s.fetches[f].key
    ensures QuietOk(env, Next(env, s, a), Next(env, s, a).fetches[f])
  {
    var s' := Next(env, s, a);
    QuietUntilInterference(env, s, a, f);
    if s'.fetches[f].quiet {
      var key := s.fetches[f].key;
      assert QuietOk(env, s, s.fetches[f]);
      PhaseStays(env, s, a, f);
      StillNothingOutstanding(env, s, a, key);
      FreshStays(env, s, a, key);
      FindAfterStep(env, s, a, f);
      PoolDataStay(env, s, a, key);
      if s.fetches[f].conn.value in s'.conns { QueueStaysEmpty(env, s, a, f); }
      OthersKeepQuiet(env, s, s', f);
    }
  }

  // --------------------------------------------------- steps of the fetch

  lemma ReadQuiet(env: Env, s: State, f: nat, result: Option<Text>)
    requires Enabled(env, s, FetchRead(f, result)) && QuietOk(env, s, s.fetches[f])
    ensures var s' := NextFetchRead(env, s, f, result); f in s'.fetches ==> QuietOk(env, s', s'.fetches[f])
  {
  }

  lemma VersionQuiet(env: Env, s: State, f: nat)
    requires Enabled(env, s, FetchVersion(f)) && QuietOk(env, s, s.fetches[f])
    ensures var s' := NextFetchVersion(s, f); f in s'.fetches ==> QuietOk(env, s', s'.fetches[f])
  {
    VersionEffect(s, f);
  }

  lemma CommittedPool(env: Env, s: State, g: nat, t: int, key: string)
    requires Enabled(env, s, Commit(g, t)) && s.fetches[g].key == key && Find(s.pools, key) >= 0
    ensures var i := Find(s.pools, key);
      i < |NextCommit(env, s, g, t).pools|
      && NextCommit(env, s, g, t).pools[i] == Renewed(PoolFor(s.pools, key), s.fetches[g].phase.raw, t)
  {
    CommitEffect(env, s, g, t);
  }

  lemma CommitPhase(env: Env, s: State, f: nat, t: int)
    requires Enabled(env, s, Commit(f, t)) && f in NextCommit(env, s, f, t).fetches
    ensures NextCommit(env, s, f, t).fetches[f].phase == Writing(Frame(s.fetches[f].phase.raw, true, t))
  {
  }

  // A Commit of the key, by this fetch or by another with current data.
  lemma CommitQuiet(env: Env, s: State, g: nat, t: int, f: nat)
    requires Inv(env, s) && Enabled(env, s, Commit(g, t)) && QuietInv(env, s)
    requires f in s.fetches && f in NextCommit(env, s, g, t).fetches && s.fetches[g].key == s.fetches[f].key
    ensures QuietOk(env, NextCommit(env, s, g, t), NextCommit(env, s, g, t).fetches[f])
  {
    var s' := NextCommit(env, s, g, t);
    var key := s.fetches[f].key;
    QuietUntilInterference(env, s, Commit(g, t), f);
    if s'.fetches[f].quiet {
      assert QuietOk(env, s, s.fetches[f]);
      FindAfterStep(env, s, Commit(g, t), f);
      StillNothingOutstanding(env, s, Commit(g, t), key);
      CommitEffect(env, s, g, t);
      CommittedPool(env, s, g, t, key);
      var q := s'.pools[Find(s.pools, key)];
      assert q.data == s.fetches[g].phase.raw != [];
      if f == g {
        CommitPhase(env, s, f, t);
        SameReflexive(env.lib, q.data);
        assert Clean(env, s'.store, q);
      } else {
        PhaseStays(env, s, Commit(g, t), f);
        assert Clean(env, s.store, q);
      }
    }
  }

  lemma SubscribeQuiet(env: Env, s: State, c: nat, f: nat, key: string, presented: string, cache: Text)
    requires Enabled(env, s, Subscribe(c, f, key, presented, cache))
    ensures var s' := NextSubscribe(env, s, c, f, key, presented, cache); QuietOk(env, s', s'.fetches[f])
  {
    var s' := NextSubscribe(env, s, c, f, key, presented, cache);
    var i := Find(s.pools, key);
    assert s'.pools[if i >= 0 then i else |s.pools|].key == key;
  }

  lemma NewFetch(env: Env, s: State, a: Action, f: nat)
    requires Enabled(env, s, a) && f !in s.fetches && f in Next(env, s, a).fetches
    ensures (a.Subscribe? || a.StartFetch?) && a.f == f
  {
    if a.FetchVersion? {
      VersionPhases(s, a.f, f);
    } else if a.Commit? {
      CommitPhases(env, s, a.f, a.t, f);
    } else if !OfFetches(a) && !a.Subscribe? && !a.InitialWrite? && !a.Begin? && !a.Mutate? {
      FetchesStay(env, s, a);
    }
  }

  // A fetch that was there before the step, or began with it.
  lemma FetchStepQuiet(env: Env, s: State, a: Action, f: nat)
    requires Inv(env, s) && Enabled(env, s, a) && f in s.fetches && f in Next(env, s, a).fetches && QuietInv(env, s)
    ensures QuietOk(env, Next(env, s, a), Next(env, s, a).fetches[f])
  {
    assert QuietOk(env, s, s.fetches[f]);
    if a.Commit? && s.fetches[a.f].key == s.fetches[f].key {
      CommitQuiet(env, s, a.f, a.t, f);
    } else if a.FetchRead? && a.f == f {
      ReadQuiet(env, s, f, a.result);
    } else if a.FetchVersion? && a.f == f {
      VersionQuiet(env, s, f);
    } else {
      OtherStepQuiet(env, s, a, f);
    }
  }

  lemma NewFetchQuiet(env: Env, s: State, a: Action, f: nat)
    requires Enabled(env, s, a) && f !in s.fetches && f in Next(env, s, a).fetches
    ensures QuietOk(env, Next(env, s, a), Next(env, s, a).fetches[f])
  {
    NewFetch(env, s, a, f);
    if a.Subscribe? {
      SubscribeQuiet(env, s, a.c, f, a.key, a.presented, a.cache);
    }
  }

  lemma StepQuiet(env: Env, s: State, a: Action)
    requires Inv(env, s) && Enabled(env, s, a) && QuietInv(env, s)
    ensures QuietInv(env, Next(env, s, a))
  {
    var s' := Next(env, s, a);
    StepFull(env, s, a);
    forall f | f in s'.fetches ensures QuietOk(env, s', s'.fetches[f]) {
      if f in s.fetches {
        FetchStepQuiet(env, s, a, f);
      } else {
        NewFetchQuiet(env, s, a, f);
      }
    }
  }

  lemma {:induction false} RunQuiet(env: Env, s: State, actions: seq<Action>, s': State)
    requires Inv(env, s) && QuietInv(env, s) && Run(env, s, actions, s')
    ensures QuietInv(env, s') && Inv(env, s')
    decreases |actions|
  {
    if actions != [] {
      StepInv(env, s, actions[0]);
      StepQuiet(env, s, actions[0]);
      RunQuiet(env, Next(env, s, actions[0]), actions[1..], s');
    }
  }

  // ------------------------------------------------------ the initial write

  // A snapshot alone leads to the data exactly when it holds them.
  lemma SnapshotReaches(lib: Library, cache: Text, frame: Frame, data: Text)
    requires Lawful(lib) && frame.snapshot
    ensures var p := Fold(lib, [frame], cache); !p.failed && (Same(lib, p.cache, data) <==> Same(lib, frame.payload, data))
  {
    assert [frame][1..] == [];
    assert Fold(lib, [frame], cache) == Patched(Trim(frame.payload), false);
    SameTrim(lib, frame.payload);
    SameIsMutual(lib, Trim(frame.payload), frame.payload, data);
    if Same(lib, frame.payload, data) { SameTransitive(lib, frame.payload, data, data); }
    if Same(lib, data, frame.payload) { SameTransitive(lib, data, frame.payload, frame.payload); }
  }

  // What a connection's initial snapshot does, wherever its client is: with no
  // broadcast under way to it, it syncs it exactly when the messages before it
  // apply and it holds what the cache holds; with one, exactly when they apply
  // and the broadcast's message takes the snapshot's data to the cache's.
  lemma InitialWriteSyncs(env: Env, s: State, f: nat, c: nat)
    requires Lawful(env.lib) && Inv(env, s) && Enabled(env, s, InitialWrite(f)) && s.fetches[f].conn == Some(c)
    requires c in s.conns && s.conns[c].open
    ensures var payload, data := s.fetches[f].phase.frame.payload, s.pools[s.conns[c].pool].data;
      var before := Fold(env.lib, s.conns[c].queue, s.conns[c].cache);
      var synced := Synced(env, Next(env, s, InitialWrite(f)), c);
      && ((forall n: nat :: !SendingTo(s.workers, n, c)) ==> (synced <==> !before.failed && Same(env.lib, payload, data)))
      && (forall n: nat :: SendingTo(s.workers, n, c) ==>
            (synced <==> !before.failed && Reaches(env.lib, Trim(payload), [s.workers[n].frame], data)))
  {
    var s' := Next(env, s, InitialWrite(f));
    var conn, frame := s.conns[c], s.fetches[f].phase.frame;
    assert FetchOk(s.pools, s.conns, s.fetches[f]);
    PoolOfConn(env, s, c);
    assert s'.conns[c] == conn.(queue := conn.queue + [frame]);
    QueuedSnapshot(env.lib, conn.cache, conn.queue, frame, s.pools[conn.pool].data);
    forall n: nat | SendingTo(s.workers, n, c) ensures
      Synced(env, s', c) <==> Reaches(env.lib, conn.cache, (conn.queue + [frame]) + [s.workers[n].frame], s.pools[conn.pool].data)
    {
      OnlySender(env, s, n, c);
      assert SendingTo(s'.workers, n, c);
    }
    forall n: nat | SendingTo(s.workers, n, c) ensures
      Reaches(env.lib, conn.cache, (conn.queue + [frame]) + [s.workers[n].frame], s.pools[conn.pool].data) <==>
      !Fold(env.lib, conn.queue, conn.cache).failed && Reaches(env.lib, Trim(frame.payload), [s.workers[n].frame], s.pools[conn.pool].data)
    {
      SnapshotThen(env.lib, conn.cache, conn.queue, frame, s.workers[n].frame, s.pools[conn.pool].data);
    }
  }

  lemma QueuedSnapshot(lib: Library, cache: Text, queue: seq<Frame>, frame: Frame, data: Text)
    requires Lawful(lib) && frame.snapshot
    ensures Reaches(lib, cache, queue + [frame], data) <==> !Fold(lib, queue, cache).failed && Same(lib, frame.payload, data)
  {
    FoldAppend(lib, queue, [frame], cache);
    SnapshotReaches(lib, Fold(lib, queue, cache).cache, frame, data);
  }

  lemma SnapshotThen(lib: Library, cache: Text, queue: seq<Frame>, frame: Frame, next: Frame, data: Text)
    requires frame.snapshot
    ensures Reaches(lib, cache, (queue + [frame]) + [next], data) <==>
            !Fold(lib, queue, cache).failed && Reaches(lib, Trim(frame.payload), [next], data)
  {
    FoldAppend(lib, queue + [frame], [next], cache);
    FoldAppend(lib, queue, [frame], cache);
    assert [frame][1..] == [];
  }

  lemma QuietWriteSyncs(env: Env, s: State, f: nat, c: nat)
    requires Lawful(env.lib) && Inv(env, s) && Enabled(env, s, InitialWrite(f))
    requires s.fetches[f].quiet && QuietOk(env, s, s.fetches[f]) && s.fetches[f].conn == Some(c) && c in s.conns && s.conns[c].open
    ensures Synced(env, Next(env, s, InitialWrite(f)), c)
  {
    NothingIsSent(env, s, f, c);
    InitialWriteSyncs(env, s, f, c);
    var payload, data := s.fetches[f].phase.frame.payload, s.pools[s.conns[c].pool].data;
    SameTransitive(env.lib, data, payload, payload);
  }

  // In every reachable state: a subscription that nothing interfered with is
  // synced by its initial write, whether Refresh found the cache or set it.
  lemma QuietSubscriptionIsSynced(env: Env, s: State, actions: seq<Action>, s': State, f: nat, c: nat)
    requires Lawful(env.lib) && Init(s) && Run(env, s, actions, s') && Enabled(env, s', InitialWrite(f))
    requires s'.fetches[f].quiet && s'.fetches[f].conn == Some(c) && c in s'.conns && s'.conns[c].open
    ensures Synced(env, Next(env, s', InitialWrite(f)), c)
  {
    InitInv(env, s);
    RunQuiet(env, s, actions, s');
    QuietWriteSyncs(env, s', f, c);
  }

  ghost predicate Undisturbed(env: Env, s: State, actions: seq<Action>, f: nat)
    decreases |actions|
  {
    f in s.fetches && (actions == [] ||
    (Enabled(env, s, actions[0]) && !Interferes(env, s, actions[0], f) && Undisturbed(env, Next(env, s, actions[0]), actions[1..], f)))
  }

  lemma {:induction false} UndisturbedStaysQuiet(env: Env, s: State, actions: seq<Action>, s': State, f: nat)
    requires Run(env, s, actions, s') && Undisturbed(env, s, actions, f) && s.fetches[f].quiet
    ensures f in s'.fetches && s'.fetches[f].quiet && s'.fetches[f].conn == s.fetches[f].conn
    decreases |actions|
  {
    if actions != [] {
      QuietUntilInterference(env, s, actions[0], f);
      UndisturbedStaysQuiet(env, Next(env, s, actions[0]), actions[1..], s', f);
    }
  }

  // The whole handshake, stated on the run: subscribe when no event for the
  // key is outstanding, let anything happen that does not interfere, write.
  lemma UndisturbedHandshakeSyncs(env: Env, s: State, before: seq<Action>, at: State, c: nat, f: nat, key: string,
                                  presented: string, cache: Text, during: seq<Action>, s': State)
    requires Lawful(env.lib) && Init(s) && Run(env, s, before, at)
    requires Enabled(env, at, Subscribe(c, f, key, presented, cache)) && NothingOutstanding(env, at, key)
    requires var registered := NextSubscribe(env, at, c, f, key, presented, cache);
      Run(env, registered, during, s') && Undisturbed(env, registered, during, f)
    requires Enabled(env, s', InitialWrite(f)) && c in s'.conns && s'.conns[c].open
    ensures Synced(env, Next(env, s', InitialWrite(f)), c)
  {
    var a := Subscribe(c, f, key, presented, cache);
    var registered := NextSubscribe(env, at, c, f, key, presented, cache);
    UndisturbedStaysQuiet(env, registered, during, s', f);
    Chain(env, at, a, registered, during, s');
    RunAppend(env, s, before, at, [a] + during, s');
    QuietSubscriptionIsSynced(env, s, before + ([a] + during), s', f, c);
  }
}
