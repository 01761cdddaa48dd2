// The replication invariant: a synced connection's client, once it has folded
// what is on its way, holds what its pool's cache holds.
module Replication {
  import opened Common
  import opened Text
  import opened Json
  import opened Messages
  import opened Patching
  import opened Protocol

  // The client side of a connection: one message after the other, giving up at
  // the first that does not apply.
  function Fold(lib: Library, frames: seq<Frame>, cache: Text): Patched
    decreases |frames|
  {
    if frames == [] then Patched(cache, false)
    else
      var p := Receive(lib, frames[0], cache);
      if p.failed then p else Fold(lib, frames[1..], p.cache)
  }

  lemma {:induction false} FoldAppend(lib: Library, f: seq<Frame>, g: seq<Frame>, cache: Text)
    ensures Fold(lib, f + g, cache) ==
            if Fold(lib, f, cache).failed then Fold(lib, f, cache) else Fold(lib, g, Fold(lib, f, cache).cache)
    decreases |f|
  {
    if f == [] {
      assert f + g == g;
    } else {
      assert (f + g)[1..] == f[1..] + g;
      var p := Receive(lib, f[0], cache);
      if !p.failed {
        FoldAppend(lib, f[1..], g, p.cache);
      }
    }
  }

  // Folding the frames takes the cache to the datum, without an error.
  ghost predicate Reaches(lib: Library, cache: Text, frames: seq<Frame>, data: Text) {
    !Fold(lib, frames, cache).failed && Same(lib, Fold(lib, frames, cache).cache, data)
  }

  // A broadcast is under way that has yet to write to the connection.
  ghost predicate SendingTo(workers: seq<Worker>, n: nat, c: nat) {
    n < |workers| && workers[n].Sending? && c in workers[n].rest
  }

  ghost predicate OnTrack(lib: Library, workers: seq<Worker>, c: nat, conn: Conn, data: Text) {
    && (forall n: nat :: SendingTo(workers, n, c) ==> Reaches(lib, conn.cache, conn.queue + [workers[n].frame], data))
    && ((forall n: nat :: !SendingTo(workers, n, c)) ==> Reaches(lib, conn.cache, conn.queue, data))
  }

  ghost predicate Synced(env: Env, s: State, c: nat) {
    && c in s.conns && s.conns[c].open && s.conns[c].pool < |s.pools|
    && OnTrack(env.lib, s.workers, c, s.conns[c], s.pools[s.conns[c].pool].data)
  }

  // Once nothing is on its way, a synced client simply holds the cache.
  lemma DrainedClientHoldsCache(env: Env, s: State, c: nat)
    requires Synced(env, s, c) && s.conns[c].queue == [] && forall n: nat :: !SendingTo(s.workers, n, c)
    ensures Same(env.lib, s.conns[c].cache, s.pools[s.conns[c].pool].data)
  {
  }

  // -------------------------------------------------------------- one step

  // setCache replaces a cache the connection follows by different data.
  ghost predicate Overwrites(env: Env, s: State, a: Action, c: nat)
    requires Enabled(env, s, a) && c in s.conns
  {
    a.Commit? && s.fetches[a.f].key == s.conns[c].key
    && var i := Find(s.pools, s.conns[c].key); i >= 0 && !Same(env.lib, s.fetches[a.f].phase.raw, s.pools[i].data)
  }

  lemma PoolOfConn(env: Env, s: State, c: nat)
    requires Inv(env, s) && c in s.conns
    ensures s.conns[c].pool < |s.pools| && Find(s.pools, s.conns[c].key) == s.conns[c].pool
    ensures c in s.pools[s.conns[c].pool].conns && s.pools[s.conns[c].pool].key == s.conns[c].key
  {
    assert Registered(s.pools, c, s.conns[c]);
    FindIsUnique(s.pools, s.conns[c].pool);
  }

  // A worker that writes to the connection is inside its pool.
  lemma SenderIsInPool(env: Env, s: State, n: nat, c: nat)
    requires Inv(env, s) && SendingTo(s.workers, n, c)
    ensures c in s.conns && s.workers[n].i == s.conns[c].pool
  {
    assert WorkerInv(env, s.pools, s.workers[n]);
  }

  lemma SoleSender(env: Env, s: State, n: nat, m: nat, c: nat)
    requires Inv(env, s) && SendingTo(s.workers, n, c) && m < |s.workers| && HasPool(s.workers[m], s.workers[n].i)
    ensures n == m
  {
  }

  ghost predicate SameSenders(workers: seq<Worker>, workers': seq<Worker>, c: nat) {
    forall n: nat ::
      && (SendingTo(workers', n, c) <==> SendingTo(workers, n, c))
      && (SendingTo(workers', n, c) ==> workers'[n].frame == workers[n].frame)
  }

  lemma Untouched(env: Env, s: State, s': State, c: nat)
    requires c in s.conns && c in s'.conns && s'.conns[c] == s.conns[c]
    requires s.conns[c].pool < |s.pools| <= |s'.pools|
    requires s'.pools[s.conns[c].pool].data == s.pools[s.conns[c].pool].data
    requires SameSenders(s.workers, s'.workers, c)
    ensures Synced(env, s', c) <==> Synced(env, s, c)
  {
    assert forall n: nat :: SendingTo(s'.workers, n, c) <==> SendingTo(s.workers, n, c);
  }

  lemma OneWorkerSenders(workers: seq<Worker>, n: nat, w: Worker, c: nat)
    requires n < |workers| && (workers[n].Sending? ==> c !in workers[n].rest) && (w.Sending? ==> c !in w.rest)
    ensures SameSenders(workers, workers[n := w], c)
  {
  }

  lemma FrameReaches(lib: Library, mode: Mode, cache: Text, queue: seq<Frame>, cached: Text, data: Text, t: int)
    requires Lawful(lib) && Reaches(lib, cache, queue, cached)
    ensures var o := Choose(lib, mode, cached, data);
      Reaches(lib, cache, queue + [Frame(o.payload, o.snapshot, t)], data)
  {
    var o := Choose(lib, mode, cached, data);
    var frame := Frame(o.payload, o.snapshot, t);
    ChoiceReplicates(lib, mode, cached, data, t, Fold(lib, queue, cache).cache);
    FoldAppend(lib, queue, [frame], cache);
    assert [frame][1..] == [];
  }

  lemma NobodyElseSends(env: Env, s: State, n: nat, c: nat)
    requires Inv(env, s) && n < |s.workers| && s.workers[n].Holding? && c in s.conns
    requires s.conns[c].pool == s.workers[n].i
    ensures forall m: nat :: !SendingTo(s.workers, m, c)
  {
    forall m: nat ensures !SendingTo(s.workers, m, c) {
      if SendingTo(s.workers, m, c) {
        SenderIsInPool(env, s, m, c);
        SoleSender(env, s, m, n, c);
      }
    }
  }

  // The frame fixed at Patch is the only one under way to the pool.
  lemma PatchOwnPool(env: Env, s: State, n: nat, t: int, c: nat)
    requires Lawful(env.lib) && Enabled(env, s, Patch(n, t)) && Synced(env, s, c)
    requires s.conns[c].pool == s.workers[n].i && c in s.pools[s.workers[n].i].conns
    requires forall m: nat :: !SendingTo(s.workers, m, c)
    ensures Synced(env, NextPatch(env, s, n, t), c)
  {
    var s' := NextPatch(env, s, n, t);
    var i := s.workers[n].i;
    FrameReaches(env.lib, env.mode, s.conns[c].cache, s.conns[c].queue, s.pools[i].data, s.workers[n].data, t);
    forall m: nat | SendingTo(s'.workers, m, c) ensures m == n {
      assert m != n ==> !SendingTo(s.workers, m, c);
    }
    assert SendingTo(s'.workers, n, c);
  }

  lemma PatchOtherPool(env: Env, s: State, n: nat, t: int, c: nat)
    requires Enabled(env, s, Patch(n, t)) && Synced(env, s, c)
    requires s.conns[c].pool != s.workers[n].i && c !in s.pools[s.workers[n].i].conns
    ensures Synced(env, NextPatch(env, s, n, t), c)
  {
    var s' := NextPatch(env, s, n, t);
    OneWorkerSenders(s.workers, n, s'.workers[n], c);
    Untouched(env, s, s', c);
  }

  lemma PatchReplicates(env: Env, s: State, n: nat, t: int, c: nat)
    requires Lawful(env.lib) && Inv(env, s) && Enabled(env, s, Patch(n, t)) && Synced(env, s, c)
    ensures Synced(env, NextPatch(env, s, n, t), c)
  {
    PoolOfConn(env, s, c);
    if s.conns[c].pool == s.workers[n].i {
      NobodyElseSends(env, s, n, c);
      PatchOwnPool(env, s, n, t, c);
    } else {
      PatchOtherPool(env, s, n, t, c);
    }
  }

  // The message under way to the connection is put into its queue.
  lemma WriteToOwn(env: Env, s: State, n: nat, c: nat)
    requires n < |s.workers| && s.workers[n].Sending? && s.workers[n].rest != [] && s.workers[n].rest[0] == c
    requires NoRepeats(s.workers[n].rest) && Synced(env, s, c)
    requires forall m: nat :: SendingTo(s.workers, m, c) ==> m == n
    ensures Synced(env, NextWrite(s, n), c)
  {
    var s' := NextWrite(s, n);
    assert SendingTo(s.workers, n, c);
    assert c !in s.workers[n].rest[1..];
    forall m: nat ensures !SendingTo(s'.workers, m, c) {
      assert m != n ==> !SendingTo(s.workers, m, c);
    }
  }

  lemma WriteToOther(env: Env, s: State, n: nat, c: nat)
    requires n < |s.workers| && s.workers[n].Sending? && s.workers[n].rest != [] && s.workers[n].rest[0] != c
    requires Synced(env, s, c)
    ensures Synced(env, NextWrite(s, n), c)
  {
    var s' := NextWrite(s, n);
    var rest := s.workers[n].rest;
    assert rest == [rest[0]] + rest[1..];
    assert SameSenders(s.workers, s'.workers, c);
    Untouched(env, s, s', c);
  }

  // The pool's lock makes a broadcast the only one that writes to a connection.
  lemma OnlySender(env: Env, s: State, n: nat, c: nat)
    requires Inv(env, s) && SendingTo(s.workers, n, c)
    ensures forall m: nat :: SendingTo(s.workers, m, c) ==> m == n
  {
    forall m: nat | SendingTo(s.workers, m, c) ensures m == n {
      SenderIsInPool(env, s, n, c);
      SenderIsInPool(env, s, m, c);
      SoleSender(env, s, n, m, c);
    }
  }

  lemma WriteReplicates(env: Env, s: State, n: nat, c: nat)
    requires Inv(env, s) && Enabled(env, s, Write(n)) && Synced(env, s, c)
    ensures Synced(env, NextWrite(s, n), c)
  {
    if c == s.workers[n].rest[0] {
      assert WorkerInv(env, s.pools, s.workers[n]);
      OnlySender(env, s, n, c);
      WriteToOwn(env, s, n, c);
    } else {
      WriteToOther(env, s, n, c);
    }
  }

  lemma DeliverTail(lib: Library, cache: Text, queue: seq<Frame>, tail: seq<Frame>, data: Text)
    requires queue != [] && Reaches(lib, cache, queue + tail, data)
    ensures var p := Receive(lib, queue[0], cache); !p.failed && Reaches(lib, p.cache, queue[1..] + tail, data)
  {
    assert (queue + tail)[1..] == queue[1..] + tail;
  }

  lemma DeliverReplicates(env: Env, s: State, c: nat)
    requires Enabled(env, s, Deliver(c)) && Synced(env, s, c)
    ensures Synced(env, NextDeliver(env, s, c), c)
  {
    var conn, data := s.conns[c], s.pools[s.conns[c].pool].data;
    assert conn.queue + [] == conn.queue && conn.queue[1..] + [] == conn.queue[1..];
    if n: nat :| SendingTo(s.workers, n, c) {
      forall m: nat | SendingTo(s.workers, m, c)
        ensures Reaches(env.lib, Receive(env.lib, conn.queue[0], conn.cache).cache, conn.queue[1..] + [s.workers[m].frame], data)
      {
        DeliverTail(env.lib, conn.cache, conn.queue, [s.workers[m].frame], data);
      }
      DeliverTail(env.lib, conn.cache, conn.queue, [s.workers[n].frame], data);
    } else {
      DeliverTail(env.lib, conn.cache, conn.queue, [], data);
    }
  }

  lemma NobodySends(workers: seq<Worker>, c: nat)
    requires NoBroadcast(workers)
    ensures forall n: nat :: !SendingTo(workers, n, c)
  {
    forall n: nat ensures !SendingTo(workers, n, c) {
      assert n < |workers| ==> !InStream(workers[n]);
    }
  }

  lemma SameIsMutual(lib: Library, x: Text, a: Text, b: Text)
    requires TrimBlind(lib) && Same(lib, x, a)
    ensures Same(lib, x, b) <==> Same(lib, b, a)
  {
    SameReflexive(lib, a);
    if Same(lib, x, b) {
      SameTransitive(lib, a, x, b) by { SameTransitive(lib, x, a, a); }
    }
    if Same(lib, b, a) {
      SameTransitive(lib, x, a, b) by { SameTransitive(lib, b, a, a); }
    }
  }

  // setCache keeps the connection synced exactly when it does not overwrite.
  lemma CommitReplicates(env: Env, s: State, f: nat, t: int, c: nat)
    requires Lawful(env.lib) && Inv(env, s) && Enabled(env, s, Commit(f, t)) && Synced(env, s, c)
    ensures Synced(env, NextCommit(env, s, f, t), c) <==> !Overwrites(env, s, Commit(f, t), c)
  {
    PoolOfConn(env, s, c);
    NobodySends(s.workers, c);
    CommitEffect(env, s, f, t);
    CommitCore(env, s, NextCommit(env, s, f, t), f, t, c);
  }

  lemma CommitCore(env: Env, s: State, s': State, f: nat, t: int, c: nat)
    requires TrimBlind(env.lib) && Synced(env, s, c) && Find(s.pools, s.conns[c].key) == s.conns[c].pool
    requires f in s.fetches && s.fetches[f].phase.Uncached? && forall n: nat :: !SendingTo(s.workers, n, c)
    requires s'.conns == s.conns && s'.workers == s.workers
    requires s'.pools == WithPool(s.pools, Renewed(PoolFor(s.pools, s.fetches[f].key), s.fetches[f].phase.raw, t))
    ensures Synced(env, s', c) <==>
            !(s.fetches[f].key == s.conns[c].key
              && !Same(env.lib, s.fetches[f].phase.raw, s.pools[s.conns[c].pool].data))
  {
    var conn := s.conns[c];
    if s.fetches[f].key == conn.key {
      assert s'.pools[conn.pool].data == s.fetches[f].phase.raw;
      SameIsMutual(env.lib, Fold(env.lib, conn.queue, conn.cache).cache, s.pools[conn.pool].data, s.fetches[f].phase.raw);
    } else {
      Untouched(env, s, s', c);
    }
  }

  // The steps that are about this connection alone and may break it.
  ghost predicate Parts(s: State, a: Action, c: nat) {
    a == Close(c) || a == Disconnect(c) || (a.InitialWrite? && a.f in s.fetches && s.fetches[a.f].conn == Some(c))
  }

  lemma ConnectionStepReplicates(env: Env, s: State, a: Action, c: nat)
    requires Enabled(env, s, a) && !Parts(s, a, c) && Synced(env, s, c)
    requires a.Close? || a.Disconnect? || a.InitialWrite? || (a.Deliver? && a.c != c)
    ensures Synced(env, Next(env, s, a), c)
  {
    Untouched(env, s, Next(env, s, a), c);
  }

  lemma SubscribeReplicates(env: Env, s: State, d: nat, f: nat, key: string, presented: string, cache: Text, c: nat)
    requires Enabled(env, s, Subscribe(d, f, key, presented, cache)) && Synced(env, s, c)
    ensures Synced(env, NextSubscribe(env, s, d, f, key, presented, cache), c)
  {
    Untouched(env, s, NextSubscribe(env, s, d, f, key, presented, cache), c);
  }

  lemma MoveReplicates(env: Env, s: State, a: Action, c: nat)
    requires Enabled(env, s, a) && Synced(env, s, c) && MovesOneWorker(a)
    ensures Synced(env, Next(env, s, a), c)
  {
    var s' := Next(env, s, a);
    OneWorkerSenders(s.workers, a.n, s'.workers[a.n], c);
    Untouched(env, s, s', c);
  }

  lemma OtherStepReplicates(env: Env, s: State, a: Action, c: nat)
    requires Enabled(env, s, a) && Synced(env, s, c)
    requires a.Begin? || a.Drop? || a.StartFetch? || a.FetchRead? || a.FetchVersion?
    ensures Synced(env, Next(env, s, a), c)
  {
    if a.FetchVersion? {
      VersionEffect(s, a.f);
    }
    Untouched(env, s, Next(env, s, a), c);
  }

  lemma MutateReplicates(env: Env, s: State, w: nat, key: string, value: Option<Text>, c: nat)
    requires w in s.writers && Synced(env, s, c)
    ensures Synced(env, NextMutate(env, s, w, key, value), c)
  {
    var s' := NextMutate(env, s, w, key, value);
    forall n: nat ensures SendingTo(s'.workers, n, c) <==> SendingTo(s.workers, n, c)
                  ensures SendingTo(s'.workers, n, c) ==> s'.workers[n].frame == s.workers[n].frame
    {
      assert n < |s.workers| ==> s'.workers[n] == TearWorker(env, s.pools, s.workers[n], key);
    }
    Untouched(env, s, s', c);
  }

  // The steps that touch neither the pool's data nor this connection's queue.
  lemma CalmStepReplicates(env: Env, s: State, a: Action, c: nat)
    requires Enabled(env, s, a) && !Parts(s, a, c) && Synced(env, s, c)
    requires !a.Patch? && !a.Write? && !a.Commit? && !(a.Deliver? && a.c == c)
    ensures Synced(env, Next(env, s, a), c)
  {
    if MovesOneWorker(a) {
      MoveReplicates(env, s, a, c);
    } else if a.Mutate? {
      MutateReplicates(env, s, a.w, a.key, a.value, c);
    } else if a.Subscribe? {
      SubscribeReplicates(env, s, a.c, a.f, a.key, a.presented, a.cache, c);
    } else if a.Close? || a.Disconnect? || a.InitialWrite? || a.Deliver? {
      ConnectionStepReplicates(env, s, a, c);
    } else {
      OtherStepReplicates(env, s, a, c);
    }
  }

  // A synced connection stays synced, and its client never sees an error,
  // through every step of everyone else.  The one exception is exact: a setCache
  // whose data differ from the cache it replaces.
  lemma SyncStep(env: Env, s: State, a: Action, c: nat)
    requires Lawful(env.lib) && Inv(env, s) && Enabled(env, s, a) && !Parts(s, a, c) && Synced(env, s, c)
    ensures Synced(env, Next(env, s, a), c) <==> !Overwrites(env, s, a, c)
  {
    if a.Patch? {
      PatchReplicates(env, s, a.n, a.t, c);
    } else if a.Write? {
      WriteReplicates(env, s, a.n, c);
    } else if a.Commit? {
      CommitReplicates(env, s, a.f, a.t, c);
    } else if a.Deliver? && a.c == c {
      DeliverReplicates(env, s, c);
    } else {
      CalmStepReplicates(env, s, a, c);
    }
  }

  // -------------------------------------------------------------- whole runs

  // The connection is let alone, and nobody overwrites its cache.
  ghost predicate Spares(env: Env, s: State, actions: seq<Action>, c: nat)
    decreases |actions|
  {
    actions == [] ||
    (Enabled(env, s, actions[0]) && c in s.conns && !Parts(s, actions[0], c) && !Overwrites(env, s, actions[0], c)
     && Spares(env, Next(env, s, actions[0]), actions[1..], c))
  }

  // Over any interleaving of writers, workers, fetches and other connections.
  lemma {:induction false} SyncRun(env: Env, s: State, actions: seq<Action>, s': State, c: nat)
    requires Lawful(env.lib) && Inv(env, s) && Run(env, s, actions, s')
    requires Synced(env, s, c) && Spares(env, s, actions, c)
    ensures Synced(env, s', c)
    decreases |actions|
  {
    if actions != [] {
      SyncStep(env, s, actions[0], c);
      StepInv(env, s, actions[0]);
      SyncRun(env, Next(env, s, actions[0]), actions[1..], s', c);
    }
  }
}
