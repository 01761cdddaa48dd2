// No lost update: a cache that is not what a read would give now has an event
// on its way to it, unless one of three kinds of step has lost it; and which
// steps those are, exactly.
module Freshness {
  import opened Common
  import opened Text
  import opened Json
  import opened Messages
  import opened Patching
  import opened Protocol
  import Key

  // The data are what a read of the path would give now.
  ghost predicate Current(env: Env, store: map<string, Text>, path: string, data: Text) {
    match Fresh(env, store, path)
    case None => false
    case Some(d) => Same(env.lib, OrEmptyObject(data), OrEmptyObject(d))
  }

  // The worker has yet to come to pool i with an event for it.
  ghost predicate Approaches(env: Env, key: string, w: Worker, i: nat) {
    match w
    case Idle => false
    case Received(path) => Peer(env, key, path)
    case At(path, j) => j <= i && Peer(env, key, path)
    case _ => w.i < i && Peer(env, key, w.path)
  }

  // It has, or is in the pool with a reading that is still current.
  ghost predicate Owes(env: Env, store: map<string, Text>, key: string, w: Worker, i: nat) {
    || Approaches(env, key, w, i)
    || (w.Reading? && w.i == i && !w.torn)
    || (w.Holding? && w.i == i && Current(env, store, key, w.data))
  }

  ghost predicate WriterPending(env: Env, writers: map<nat, string>, key: string) {
    exists w <- writers :: Peer(env, key, writers[w])
  }

  ghost predicate WorkerPending(env: Env, store: map<string, Text>, workers: seq<Worker>, key: string, i: nat) {
    exists n: nat :: n < |workers| && Owes(env, store, key, workers[n], i)
  }

  // An outstanding event: a write not yet handed over, or a worker on its way.
  ghost predicate Pending(env: Env, s: State, i: nat)
    requires i < |s.pools|
  {
    WriterPending(env, s.writers, s.pools[i].key) || WorkerPending(env, s.store, s.workers, s.pools[i].key, i)
  }

  // The worker is inside pool i with a reading that a later write overtook.
  ghost predicate CarriesStale(env: Env, store: map<string, Text>, key: string, w: Worker, i: nat) {
    HasPool(w, i) && ((w.Reading? && w.torn) || (w.Holding? && !Current(env, store, key, w.data)))
  }

  ghost predicate NoStale(env: Env, store: map<string, Text>, workers: seq<Worker>, key: string, i: nat) {
    forall n: nat :: n < |workers| ==> !CarriesStale(env, store, key, workers[n], i)
  }

  ghost predicate Settled(env: Env, s: State, i: nat)
    requires i < |s.pools|
  {
    Clean(env, s.store, s.pools[i]) && NoStale(env, s.store, s.workers, s.pools[i].key, i)
  }

  // Pool i has an event on its way, or needs none.
  ghost predicate Accounted(env: Env, s: State, i: nat) {
    i < |s.pools| && (Pending(env, s, i) || Settled(env, s, i))
  }

  ghost predicate AllAccounted(env: Env, s: State) {
    forall i: nat :: 1 <= i < |s.pools| ==> Accounted(env, s, i)
  }

  // ------------------------------------------------- the steps that lose updates

  // Some writer or some worker that is not in the pool yet owes it an event.
  ghost predicate Awaited(env: Env, s: State, i: nat)
    requires i < |s.pools|
  {
    WriterPending(env, s.writers, s.pools[i].key) || WorkerComing(env, s.workers, s.pools[i].key, i)
  }

  ghost predicate WorkerComing(env: Env, workers: seq<Worker>, key: string, i: nat) {
    exists n: nat :: n < |workers| && Approaches(env, key, workers[n], i)
  }

  // Somebody other than writer w does.
  ghost predicate OwedBesides(env: Env, s: State, w: nat, i: nat)
    requires i < |s.pools|
  {
    WriterPending(env, s.writers - {w}, s.pools[i].key) || WorkerPending(env, s.store, s.workers, s.pools[i].key, i)
  }

  function Changed(store: map<string, Text>, key: string, value: Option<Text>): map<string, Text> {
    if value.Some? then store[key := value.value] else store - {key}
  }

  // The worker is about to put into pool i what a read of the store gives.
  ghost predicate Brings(env: Env, store: map<string, Text>, key: string, w: Worker, i: nat) {
    w.Holding? && w.i == i && Current(env, store, key, w.data)
  }

  // Whatever is read of pool i, or already was, is what a read of the store
  // gives: nobody is reading, and what somebody read, or else the cache, is.
  ghost predicate Foreseen(env: Env, store: map<string, Text>, workers: seq<Worker>, p: Pool, i: nat) {
    && (forall n: nat :: n < |workers| && HasPool(workers[n], i) && !workers[n].Sending? ==> Brings(env, store, p.key, workers[n], i))
    && ((exists n: nat :: n < |workers| && Brings(env, store, p.key, workers[n], i)) || Clean(env, store, p))
  }

  // setCache with data that a read would give now.
  ghost predicate CommitIsCurrent(env: Env, s: State, f: nat)
    requires f in s.fetches && s.fetches[f].phase.Uncached?
  {
    s.fetches[f].phase.raw == [] || match Fresh(env, s.store, s.fetches[f].key)
      case None => true
      case Some(d) => Same(env.lib, s.fetches[f].phase.raw, OrEmptyObject(d))
  }

  // A step takes from pool i what it is owed: the event that is not sent was
  // the only one for a pool that needs it; a key that the pool sees changes,
  // the event of the change will pass the pool by, no other is to come, and the
  // change was not foreseen; or data that a write overtook are stored after
  // the event of that write is through.
  //
  // The first of the three all but says that the pool is left without an event
  // it needs.  A caller does not choose it: Drop stands for the paths through
  // the storage that send no event, which are the server's configuration and
  // state.  They are a key in NoBroadcastKeys and a storage that is not active
  // (memory.go:244, 264, 278, 290), a Pivot under "history" (memory.go:260-262),
  // and an event without a key, which the watcher ignores (katamari.go:204).
  ghost predicate LosesAt(env: Env, s: State, a: Action, i: nat)
    requires Enabled(env, s, a)
  {
    match a
    case Drop(w) =>
      i < |s.pools| && Peer(env, s.pools[i].key, s.writers[w]) && !OwedBesides(env, s, w, i) && !Settled(env, s, i)
    case Mutate(w, key, value) =>
      i < |s.pools| && env.matches(s.pools[i].key, key) && !Peer(env, s.pools[i].key, s.writers[w])
      && !Awaited(env, s, i) && !Foreseen(env, Changed(s.store, key, value), s.workers, s.pools[i], i)
    case Commit(f, _) =>
      i == Place(s.pools, s.fetches[f].key) && !CommitIsCurrent(env, s, f) && NothingOutstanding(env, s, s.fetches[f].key)
    case _ => false
  }

  // Where setCache finds or puts the pool of a key.
  function Place(pools: seq<Pool>, key: string): nat {
    var i := Find(pools, key);
    if i >= 0 then i else |pools|
  }

  ghost predicate Orderly(env: Env, s: State, a: Action)
    requires Enabled(env, s, a)
  {
    forall i: nat :: i >= 1 ==> !LosesAt(env, s, a, i)
  }

  // -------------------------------------------------------- storage steps

  lemma InvisibleChange(env: Env, store: map<string, Text>, path: string, key: string, value: Option<Text>)
    requires !env.matches(path, key)
    ensures var store' := if value.Some? then store[key := value.value] else store - {key};
      Fresh(env, store', path) == Fresh(env, store, path)
  {
    var store' := if value.Some? then store[key := value.value] else store - {key};
    assert Visible(env, store', path) == Visible(env, store, path);
  }

  // A change that the pool does not see, or whose event the pool will get.
  lemma HarmlessMutate(env: Env, s: State, w: nat, key: string, value: Option<Text>, i: nat)
    requires 1 <= i < |s.pools| && w in s.writers && Accounted(env, s, i)
    requires !env.matches(s.pools[i].key, key) || Peer(env, s.pools[i].key, s.writers[w])
    ensures Accounted(env, NextMutate(env, s, w, key, value), i)
  {
    var s' := NextMutate(env, s, w, key, value);
    var k := s.pools[i].key;
    if env.matches(k, key) {
      assert WriterPending(env, s'.writers, k);
    } else {
      InvisibleChange(env, s.store, k, key, value);
      forall n: nat | n < |s.workers|
        ensures Owes(env, s'.store, k, s'.workers[n], i) == Owes(env, s.store, k, s.workers[n], i)
        ensures CarriesStale(env, s'.store, k, s'.workers[n], i) == CarriesStale(env, s.store, k, s.workers[n], i)
      {
        assert s'.workers[n] == TearWorker(env, s.pools, s.workers[n], key);
      }
    }
  }

  // What the worker is for a pool that sees the change.
  lemma TornOwes(env: Env, pools: seq<Pool>, store: map<string, Text>, w: Worker, key: string, i: nat)
    requires i < |pools| && env.matches(pools[i].key, key)
    ensures var w' := TearWorker(env, pools, w, key);
      && Approaches(env, pools[i].key, w', i) == Approaches(env, pools[i].key, w, i)
      && (Owes(env, store, pools[i].key, w', i) <==> Approaches(env, pools[i].key, w, i) || Brings(env, store, pools[i].key, w, i))
      && (CarriesStale(env, store, pools[i].key, w', i) <==>
           HasPool(w, i) && !w.Sending? && !Brings(env, store, pools[i].key, w, i))
  {
  }

  lemma MissedMutate(env: Env, s: State, w: nat, key: string, value: Option<Text>, i: nat)
    requires 1 <= i < |s.pools| && w in s.writers && PoolLocks(s.workers)
    requires env.matches(s.pools[i].key, key) && !Peer(env, s.pools[i].key, s.writers[w])
    ensures Accounted(env, NextMutate(env, s, w, key, value), i) <==>
            Awaited(env, s, i) || Foreseen(env, Changed(s.store, key, value), s.workers, s.pools[i], i)
  {
    var s' := NextMutate(env, s, w, key, value);
    var p := s.pools[i];
    forall n: nat | n < |s.workers|
      ensures Owes(env, s'.store, p.key, s'.workers[n], i) <==>
              Approaches(env, p.key, s.workers[n], i) || Brings(env, s'.store, p.key, s.workers[n], i)
      ensures CarriesStale(env, s'.store, p.key, s'.workers[n], i) <==>
              HasPool(s.workers[n], i) && !s.workers[n].Sending? && !Brings(env, s'.store, p.key, s.workers[n], i)
    {
      assert s'.workers[n] == TearWorker(env, s.pools, s.workers[n], key);
      TornOwes(env, s.pools, s'.store, s.workers[n], key, i);
    }
    if WorkerComing(env, s.workers, p.key, i) {
      var n: nat :| n < |s.workers| && Approaches(env, p.key, s.workers[n], i);
      assert Owes(env, s'.store, p.key, s'.workers[n], i);
    }
    if n: nat :| n < |s.workers| && Brings(env, s'.store, p.key, s.workers[n], i) {
      assert Owes(env, s'.store, p.key, s'.workers[n], i);
      SoleOccupant(s.workers, n, i);
    }
  }

  lemma DropLoses(env: Env, s: State, w: nat, i: nat)
    requires 1 <= i < |s.pools| && Enabled(env, s, Drop(w)) && Accounted(env, s, i)
    ensures Accounted(env, NextDrop(s, w), i) <==> !LosesAt(env, s, Drop(w), i)
  {
    var k := s.pools[i].key;
    if WriterPending(env, s.writers, k) && !Peer(env, k, s.writers[w]) {
      var v :| v in s.writers && Peer(env, k, s.writers[v]);
      assert v in s.writers - {w};
    }
    if WriterPending(env, s.writers - {w}, k) {
      var v :| v in s.writers - {w} && Peer(env, k, (s.writers - {w})[v]);
      assert v in s.writers;
    }
  }

  lemma BeginAccounts(env: Env, s: State, w: nat, path: string, i: nat)
    requires 1 <= i < |s.pools| && w !in s.writers && Accounted(env, s, i)
    ensures Accounted(env, NextBegin(env, s, w, path), i)
  {
    var s' := NextBegin(env, s, w, path);
    var k := s.pools[i].key;
    if WriterPending(env, s.writers, k) {
      var v :| v in s.writers && Peer(env, k, s.writers[v]);
      assert v in s'.writers && s'.writers[v] == s.writers[v];
    }
  }

  lemma SendAccounts(env: Env, s: State, w: nat, n: nat, i: nat)
    requires 1 <= i < |s.pools| && Enabled(env, s, Send(w, n)) && Accounted(env, s, i)
    ensures Accounted(env, Next(env, s, Send(w, n)), i)
  {
    var s' := Next(env, s, Send(w, n));
    var k := s.pools[i].key;
    if WriterPending(env, s.writers, k) {
      var v :| v in s.writers && Peer(env, k, s.writers[v]);
      if v == w {
        assert Owes(env, s'.store, k, s'.workers[n], i);
      } else {
        assert v in s'.writers;
      }
    } else if WorkerPending(env, s.store, s.workers, k, i) {
      var m: nat :| m < |s.workers| && Owes(env, s.store, k, s.workers[m], i);
      assert s'.workers[m] == s.workers[m];
    } else {
      forall m: nat | m < |s'.workers| ensures !CarriesStale(env, s'.store, k, s'.workers[m], i) {
        assert m != n ==> s'.workers[m] == s.workers[m];
      }
    }
  }

  // ----------------------------------------------------- one worker's steps

  // What must hold of worker n before and after for pool i to stay accounted
  // for when only that worker moves.
  ghost predicate MovesSafely(env: Env, store: map<string, Text>, key: string, w: Worker, w': Worker, i: nat) {
    && (Owes(env, store, key, w, i) ==> Owes(env, store, key, w', i))
    && (CarriesStale(env, store, key, w', i) ==> CarriesStale(env, store, key, w, i))
  }

  lemma SafeMoveAccounts(env: Env, s: State, s': State, n: nat, i: nat)
    requires 1 <= i < |s.pools| == |s'.pools| && n < |s.workers| == |s'.workers| && Accounted(env, s, i)
    requires s'.store == s.store && s'.writers == s.writers && s'.workers == s.workers[n := s'.workers[n]]
    requires s'.pools[i].key == s.pools[i].key && s'.pools[i].data == s.pools[i].data
    requires MovesSafely(env, s.store, s.pools[i].key, s.workers[n], s'.workers[n], i)
    ensures Accounted(env, s', i)
  {
    var k := s.pools[i].key;
    if WorkerPending(env, s.store, s.workers, k, i) {
      var m: nat :| m < |s.workers| && Owes(env, s.store, k, s.workers[m], i);
      assert Owes(env, s'.store, k, s'.workers[m], i);
    } else if Settled(env, s, i) {
      forall m: nat | m < |s'.workers| ensures !CarriesStale(env, s'.store, k, s'.workers[m], i) {
        assert !CarriesStale(env, s.store, k, s.workers[m], i);
      }
    }
  }

  // The lock makes a worker the only one with anything to say about its pool.
  lemma SoleOccupant(workers: seq<Worker>, n: nat, i: nat)
    requires n < |workers| && HasPool(workers[n], i) && PoolLocks(workers)
    ensures forall m: nat :: m < |workers| && m != n ==> !HasPool(workers[m], i)
  {
  }

  lemma ReadAccounts(env: Env, s: State, n: nat, result: Option<Text>, i: nat)
    requires 1 <= i < |s.pools| && Enabled(env, s, Read(n, result)) && Accounted(env, s, i) && PoolLocks(s.workers)
    ensures Accounted(env, Next(env, s, Read(n, result)), i)
  {
    var s' := Next(env, s, Read(n, result));
    var Reading(path, j, torn) := s.workers[n];
    if i == j && result.None? && !torn {
      SoleOccupant(s.workers, n, i);
      forall m: nat | m < |s'.workers| ensures !CarriesStale(env, s'.store, s'.pools[i].key, s'.workers[m], i) {
        assert m != n ==> !HasPool(s.workers[m], i);
      }
    } else {
      SafeMoveAccounts(env, s, s', n, i);
    }
  }

  lemma PatchAccounts(env: Env, s: State, n: nat, t: int, i: nat)
    requires 1 <= i < |s.pools| && Enabled(env, s, Patch(n, t)) && Accounted(env, s, i) && PoolLocks(s.workers)
    ensures Accounted(env, NextPatch(env, s, n, t), i)
  {
    var s' := NextPatch(env, s, n, t);
    var Holding(path, j, data) := s.workers[n];
    var k := s.pools[i].key;
    if i == j {
      if Current(env, s.store, k, data) {
        SoleOccupant(s.workers, n, i);
        forall m: nat | m < |s'.workers| ensures !CarriesStale(env, s'.store, k, s'.workers[m], i) {
          assert m != n ==> !HasPool(s.workers[m], i);
        }
      } else {
        assert CarriesStale(env, s.store, k, s.workers[n], i);
        if WorkerPending(env, s.store, s.workers, k, i) {
          var m: nat :| m < |s.workers| && Owes(env, s.store, k, s.workers[m], i);
          assert m != n && Owes(env, s'.store, k, s'.workers[m], i);
        }
      }
    } else {
      SafeMoveAccounts(env, s, s', n, i);
    }
  }

  lemma LockPoolAccounts(env: Env, s: State, n: nat, i: nat)
    requires 1 <= i < |s.pools| && Enabled(env, s, LockPool(n)) && Accounted(env, s, i)
    ensures Accounted(env, Next(env, s, LockPool(n)), i)
  {
    var s' := Next(env, s, LockPool(n));
    if i == s.workers[n].i {
      assert Owes(env, s'.store, s'.pools[i].key, s'.workers[n], i);
    } else {
      SafeMoveAccounts(env, s, s', n, i);
    }
  }

  lemma WriteAccounts(env: Env, s: State, n: nat, i: nat)
    requires 1 <= i < |s.pools| && Enabled(env, s, Write(n)) && Accounted(env, s, i)
    ensures Accounted(env, Next(env, s, Write(n)), i)
  {
    SafeMoveAccounts(env, s, Next(env, s, Write(n)), n, i);
  }

  lemma WalkAccounts(env: Env, s: State, a: Action, i: nat)
    requires 1 <= i < |s.pools| && Enabled(env, s, a) && Accounted(env, s, i)
    requires a.Enter? || a.Skip? || a.Write? || a.Unlock? || a.Leave?
    ensures Accounted(env, Next(env, s, a), i)
  {
    if a.Write? {
      WriteAccounts(env, s, a.n, i);
    } else {
      SafeMoveAccounts(env, s, Next(env, s, a), a.n, i);
    }
  }

  // ------------------------------------------------- steps under the write lock

  lemma NoBroadcastNoStale(env: Env, store: map<string, Text>, workers: seq<Worker>, key: string, i: nat)
    requires NoBroadcast(workers)
    ensures NoStale(env, store, workers, key, i)
  {
    forall n: nat | n < |workers| ensures !CarriesStale(env, store, key, workers[n], i) {
      assert !InStream(workers[n]);
    }
  }

  lemma UntouchedAccounts(env: Env, s: State, s': State, i: nat)
    requires 1 <= i < |s.pools| <= |s'.pools| && Accounted(env, s, i)
    requires s'.store == s.store && s'.writers == s.writers && s'.workers == s.workers
    requires s'.pools[i].key == s.pools[i].key && s'.pools[i].data == s.pools[i].data
    ensures Accounted(env, s', i)
  {
  }

  lemma SubscribeAccounts(env: Env, s: State, c: nat, f: nat, key: string, presented: string, cache: Text, i: nat)
    requires Enabled(env, s, Subscribe(c, f, key, presented, cache))
    requires i < |s.pools| ==> 1 <= i && Accounted(env, s, i)
    requires i < |WithConn(s.pools, key, c)|
    ensures Accounted(env, NextSubscribe(env, s, c, f, key, presented, cache), i)
  {
    var s' := NextSubscribe(env, s, c, f, key, presented, cache);
    if i < |s.pools| {
      UntouchedAccounts(env, s, s', i);
    } else {
      NoBroadcastNoStale(env, s'.store, s'.workers, s'.pools[i].key, i);
    }
  }

  // Outside every broadcast, an event is on its way to a pool exactly when
  // something is outstanding for its key.
  lemma PendingOutside(env: Env, s: State, i: nat)
    requires i < |s.pools| && NoBroadcast(s.workers)
    ensures Pending(env, s, i) <==> !NothingOutstanding(env, s, s.pools[i].key)
  {
    var k := s.pools[i].key;
    forall n: nat | n < |s.workers|
      ensures Owes(env, s.store, k, s.workers[n], i) <==> !s.workers[n].Idle? && Peer(env, k, s.workers[n].path)
    {
      assert !InStream(s.workers[n]);
    }
    if w: nat :| w in s.writers && Peer(env, k, s.writers[w]) {
      assert WriterPending(env, s.writers, k);
    }
  }

  // setCache leaves its pool owed an event or settled, unless it stores
  // overtaken data with nothing outstanding.
  lemma CommitLoses(env: Env, s: State, f: nat, t: int, i: nat)
    requires Enabled(env, s, Commit(f, t)) && 1 <= i < |NextCommit(env, s, f, t).pools|
    requires i < |s.pools| ==> Accounted(env, s, i)
    ensures Accounted(env, NextCommit(env, s, f, t), i) <==> !LosesAt(env, s, Commit(f, t), i)
  {
    var s' := NextCommit(env, s, f, t);
    var key := s.fetches[f].key;
    CommitEffect(env, s, f, t);
    if i == Place(s.pools, key) {
      NoBroadcastNoStale(env, s'.store, s'.workers, key, i);
      PendingOutside(env, s', i);
      assert s'.pools[i].key == key && s'.pools[i].data == s.fetches[f].phase.raw;
    } else {
      UntouchedAccounts(env, s, s', i);
    }
  }

  lemma FetchAccounts(env: Env, s: State, a: Action, i: nat)
    requires 1 <= i < |s.pools| && Enabled(env, s, a) && Accounted(env, s, i)
    requires a.StartFetch? || a.FetchRead? || a.FetchVersion?
    ensures Accounted(env, Next(env, s, a), i)
  {
    if a.FetchVersion? {
      VersionEffect(s, a.f);
    }
    UntouchedAccounts(env, s, Next(env, s, a), i);
  }

  lemma ConnectionAccounts(env: Env, s: State, a: Action, i: nat)
    requires 1 <= i < |s.pools| && Enabled(env, s, a) && Accounted(env, s, i)
    requires a.InitialWrite? || a.Disconnect? || a.Deliver? || a.Close?
    ensures Accounted(env, Next(env, s, a), i)
  {
    UntouchedAccounts(env, s, Next(env, s, a), i);
  }

  // --------------------------------------------------------------- one step

  // A pool that is owed an event or settled stays so, except exactly when the
  // step loses it.
  lemma StepLoses(env: Env, s: State, a: Action, i: nat)
    requires PoolLocks(s.workers) && Enabled(env, s, a) && 1 <= i < |Next(env, s, a).pools|
    requires i < |s.pools| ==> Accounted(env, s, i)
    ensures Accounted(env, Next(env, s, a), i) <==> !LosesAt(env, s, a, i)
  {
    if a.Mutate? {
      if env.matches(s.pools[i].key, a.key) && !Peer(env, s.pools[i].key, s.writers[a.w]) {
        MissedMutate(env, s, a.w, a.key, a.value, i);
      } else {
        HarmlessMutate(env, s, a.w, a.key, a.value, i);
      }
    } else if a.Drop? {
      DropLoses(env, s, a.w, i);
    } else if a.Commit? {
      CommitLoses(env, s, a.f, a.t, i);
    } else {
      OtherStepAccounts(env, s, a, i);
    }
  }

  lemma OtherStepAccounts(env: Env, s: State, a: Action, i: nat)
    requires PoolLocks(s.workers) && Enabled(env, s, a) && 1 <= i < |Next(env, s, a).pools|
    requires i < |s.pools| ==> Accounted(env, s, i)
    requires !a.Mutate? && !a.Drop? && !a.Commit?
    ensures Accounted(env, Next(env, s, a), i)
  {
    match a {
      case Subscribe(c, f, key, presented, cache) => SubscribeAccounts(env, s, c, f, key, presented, cache, i);
      case Begin(w, path) => BeginAccounts(env, s, w, path, i);
      case Send(w, n) => SendAccounts(env, s, w, n, i);
      case Read(n, result) => ReadAccounts(env, s, n, result, i);
      case Patch(n, t) => PatchAccounts(env, s, n, t, i);
      case LockPool(n) => LockPoolAccounts(env, s, n, i);
      case _ => RestAccounts(env, s, a, i);
    }
  }

  lemma RestAccounts(env: Env, s: State, a: Action, i: nat)
    requires Enabled(env, s, a) && 1 <= i < |Next(env, s, a).pools|
    requires i < |s.pools| ==> Accounted(env, s, i)
    requires a.Enter? || a.Skip? || a.Write? || a.Unlock? || a.Leave? || a.StartFetch? || a.FetchRead? || a.FetchVersion?
             || a.InitialWrite? || a.Disconnect? || a.Deliver? || a.Close?
    ensures Accounted(env, Next(env, s, a), i)
  {
    if a.Enter? || a.Skip? || a.Write? || a.Unlock? || a.Leave? {
      WalkAccounts(env, s, a, i);
    } else if a.InitialWrite? || a.Disconnect? || a.Deliver? || a.Close? {
      ConnectionAccounts(env, s, a, i);
    } else {
      FetchAccounts(env, s, a, i);
    }
  }

  lemma PoolAccounts(env: Env, s: State, a: Action, i: nat)
    requires PoolLocks(s.workers) && Enabled(env, s, a) && AllAccounted(env, s) && 1 <= i < |Next(env, s, a).pools|
    ensures Accounted(env, Next(env, s, a), i) <==> !LosesAt(env, s, a, i)
  {
    assert i < |s.pools| ==> Accounted(env, s, i);
    StepLoses(env, s, a, i);
  }

  lemma StepAccounts(env: Env, s: State, a: Action)
    requires PoolLocks(s.workers) && Enabled(env, s, a) && AllAccounted(env, s)
    ensures AllAccounted(env, Next(env, s, a)) <==> Orderly(env, s, a)
  {
    var s' := Next(env, s, a);
    forall i: nat | 1 <= i < |s'.pools| ensures Accounted(env, s', i) <==> !LosesAt(env, s, a, i) {
      PoolAccounts(env, s, a, i);
    }
    forall i: nat | LosesAt(env, s, a, i) ensures i < |s'.pools| {
      LossIsInTable(env, s, a, i);
    }
  }

  lemma LossIsInTable(env: Env, s: State, a: Action, i: nat)
    requires Enabled(env, s, a) && LosesAt(env, s, a, i)
    ensures i < |Next(env, s, a).pools|
  {
    if a.Commit? {
      CommitEffect(env, s, a.f, a.t);
    }
  }

  // A loss is made good by the next write that the pool is broadcast for and by
  // the next broadcast to come to it.
  ghost predicate Repairs(env: Env, s: State, a: Action, i: nat)
    requires Enabled(env, s, a)
  {
    i < |s.pools| &&
    match a
    case Begin(_, path) => Peer(env, s.pools[i].key, path)
    case LockPool(n) => s.workers[n].i == i
    case _ => false
  }

  lemma RepairAccounts(env: Env, s: State, a: Action, i: nat)
    requires Enabled(env, s, a) && Repairs(env, s, a, i)
    ensures i < |Next(env, s, a).pools| && Accounted(env, Next(env, s, a), i)
  {
    var s' := Next(env, s, a);
    if a.Begin? {
      assert a.w in s'.writers && Peer(env, s'.pools[i].key, s'.writers[a.w]);
    } else {
      assert Owes(env, s'.store, s'.pools[i].key, s'.workers[a.n], i);
    }
  }

  // ----------------------------------------- when the three steps lose nothing

  // Writing or deleting a single key loses nothing, whatever the pools are.
  lemma SingleKeyIsOrderly(env: Env, s: State, w: nat, value: Option<Text>)
    requires w in s.writers && Enabled(env, s, Mutate(w, s.writers[w], value))
    ensures Orderly(env, s, Mutate(w, s.writers[w], value))
  {
  }

  // Nor does a glob delete, when its path and the pools' are of the class that
  // publish admits.
  lemma AdmissibleDeleteIsOrderly(env: Env, s: State, w: nat, key: string, value: Option<Text>)
    requires Globbing(env) && Enabled(env, s, Mutate(w, key, value))
    requires Key.Admissible(s.writers[w])
    requires forall i: nat :: 1 <= i < |s.pools| ==> Key.Admissible(s.pools[i].key)
    ensures Orderly(env, s, Mutate(w, key, value))
  {
    forall i: nat | 1 <= i < |s.pools| && env.matches(s.pools[i].key, key) ensures Peer(env, s.pools[i].key, s.writers[w]) {
      Key.AdmissiblePeersComplete(s.pools[i].key, s.writers[w]);
      assert Key.Match(s.pools[i].key, key) && Key.Match(s.writers[w], key);
    }
  }

  // One that does is on a path that overlaps the pool's and does not peer.
  lemma LosingDeleteCrosses(env: Env, s: State, w: nat, key: string, value: Option<Text>, i: nat)
    requires Globbing(env) && Enabled(env, s, Mutate(w, key, value)) && LosesAt(env, s, Mutate(w, key, value), i)
    ensures Key.Overlap(s.pools[i].key, s.writers[w]) && !Key.Peer(s.pools[i].key, s.writers[w])
  {
    Key.OverlapIffCommonKey(s.pools[i].key, s.writers[w]);
    assert Key.Match(s.pools[i].key, key) && Key.Match(s.writers[w], key);
  }

  // Data read by a Refresh that no visible write has overtaken are current.
  ghost predicate RawIsCurrent(env: Env, store: map<string, Text>, f: Fetch) {
    match f.phase
    case Fetched(raw, stale) => stale || Fresh(env, store, f.key) == Some(raw) || (Fresh(env, store, f.key) == Some([]) && raw == EMPTY_OBJECT)
    case Uncached(raw, stale) => stale || Fresh(env, store, f.key) == Some(raw) || (Fresh(env, store, f.key) == Some([]) && raw == EMPTY_OBJECT)
    case _ => true
  }

  ghost predicate RawInv(env: Env, s: State) {
    forall f <- s.fetches :: RawIsCurrent(env, s.store, s.fetches[f])
  }

  lemma MutateRaw(env: Env, s: State, w: nat, key: string, value: Option<Text>)
    requires w in s.writers && RawInv(env, s)
    ensures RawInv(env, NextMutate(env, s, w, key, value))
  {
    var s' := NextMutate(env, s, w, key, value);
    forall f | f in s'.fetches ensures RawIsCurrent(env, s'.store, s'.fetches[f]) {
      assert RawIsCurrent(env, s.store, s.fetches[f]);
      if !env.matches(s.fetches[f].key, key) {
        InvisibleChange(env, s.store, s.fetches[f].key, key, value);
      }
    }
  }

  lemma FinishRaw(env: Env, s: State, f: nat, raw: Text, version: int)
    requires f in s.fetches && RawInv(env, s)
    ensures RawInv(env, Finish(s, f, raw, version))
  {
  }

  lemma FetchRaw(env: Env, s: State, a: Action)
    requires Enabled(env, s, a) && RawInv(env, s) && (a.FetchRead? || a.FetchVersion? || a.Commit?)
    ensures RawInv(env, Next(env, s, a))
  {
    assert RawIsCurrent(env, s.store, s.fetches[a.f]);
    if a.Commit? {
      CommitRaw(env, s, a.f, a.t);
    } else if a.FetchVersion? {
      var i := Find(s.pools, s.fetches[a.f].key);
      if i >= 0 && s.pools[i].data != [] {
        FinishRaw(env, s, a.f, s.fetches[a.f].phase.raw, s.pools[i].version);
      }
    }
  }

  lemma CommitRaw(env: Env, s: State, f: nat, t: int)
    requires f in s.fetches && s.fetches[f].phase.Uncached? && RawInv(env, s)
    ensures RawInv(env, NextCommit(env, s, f, t))
  {
    var key, raw := s.fetches[f].key, s.fetches[f].phase.raw;
    var pool := Renewed(PoolFor(s.pools, key), raw, t);
    var mid := s.(pools := WithPool(s.pools, pool), fetches := UnquietOthers(s.fetches, key, f, !Clean(env, s.store, pool)), now := t);
    forall g | g in mid.fetches ensures RawIsCurrent(env, mid.store, mid.fetches[g]) {
      assert RawIsCurrent(env, s.store, s.fetches[g]);
    }
    FinishRaw(env, mid, f, raw, t);
  }

  lemma BeginRaw(env: Env, s: State, w: nat, path: string)
    requires RawInv(env, s)
    ensures RawInv(env, NextBegin(env, s, w, path))
  {
    var s' := NextBegin(env, s, w, path);
    forall f | f in s'.fetches ensures RawIsCurrent(env, s'.store, s'.fetches[f]) {
      assert RawIsCurrent(env, s.store, s.fetches[f]);
    }
  }

  lemma StepRaw(env: Env, s: State, a: Action)
    requires Enabled(env, s, a) && RawInv(env, s)
    ensures RawInv(env, Next(env, s, a))
  {
    if a.Mutate? {
      MutateRaw(env, s, a.w, a.key, a.value);
    } else if a.Begin? {
      BeginRaw(env, s, a.w, a.path);
    } else if a.FetchRead? || a.FetchVersion? || a.Commit? {
      FetchRaw(env, s, a);
    } else if !a.Subscribe? && !a.StartFetch? && !a.InitialWrite? {
      assert Next(env, s, a).fetches == s.fetches && Next(env, s, a).store == s.store;
    }
  }

  lemma {:induction false} RunRaw(env: Env, s: State, actions: seq<Action>, s': State)
    requires RawInv(env, s) && Run(env, s, actions, s')
    ensures RawInv(env, s')
    decreases |actions|
  {
    if actions != [] {
      StepRaw(env, s, actions[0]);
      RunRaw(env, Next(env, s, actions[0]), actions[1..], s');
    }
  }

  // setCache of data that no visible change has overtaken loses nothing.
  lemma CurrentCommitIsOrderly(env: Env, s: State, f: nat, t: int)
    requires RawInv(env, s) && Enabled(env, s, Commit(f, t)) && !s.fetches[f].phase.stale
    ensures Orderly(env, s, Commit(f, t))
  {
    assert RawIsCurrent(env, s.store, s.fetches[f]);
    SameReflexive(env.lib, s.fetches[f].phase.raw);
  }

  // No key that the path sees changes.
  ghost predicate NoneSeen(env: Env, path: string, actions: seq<Action>) {
    forall a <- actions :: a.Mutate? ==> !env.matches(path, a.key)
  }

  // The fetch, if it is one of the path, has not been overtaken.
  ghost predicate InTime(fetches: map<nat, Fetch>, f: nat, path: string) {
    f in fetches && fetches[f].key == path ==>
      match fetches[f].phase
      case Fetching(torn) => !torn
      case Fetched(_, stale) => !stale
      case Uncached(_, stale) => !stale
      case _ => true
  }

  lemma StaysInTime(env: Env, s: State, a: Action, f: nat, path: string)
    requires Enabled(env, s, a) && InTime(s.fetches, f, path) && (a.Mutate? ==> !env.matches(path, a.key))
    ensures InTime(Next(env, s, a).fetches, f, path)
  {
    if a.Mutate? || a.Begin? {
      StorageStaysInTime(env, s, a, f, path);
    } else if a.FetchVersion? || a.Commit? {
      FetchStaysInTime(env, s, a, f, path);
    }
  }

  lemma StorageStaysInTime(env: Env, s: State, a: Action, f: nat, path: string)
    requires Enabled(env, s, a) && InTime(s.fetches, f, path) && (a.Begin? || (a.Mutate? && !env.matches(path, a.key)))
    ensures InTime(Next(env, s, a).fetches, f, path)
  {
    if f in s.fetches {
      assert a.Mutate? ==> Next(env, s, a).fetches[f] == TearFetch(env, s.fetches[f], a.key);
      assert a.Begin? ==> Next(env, s, a).fetches[f] == Unquiet(env, s.fetches[f], a.path);
    }
  }

  lemma FetchStaysInTime(env: Env, s: State, a: Action, f: nat, path: string)
    requires Enabled(env, s, a) && InTime(s.fetches, f, path) && (a.FetchVersion? || a.Commit?)
    ensures InTime(Next(env, s, a).fetches, f, path)
  {
    if f in Next(env, s, a).fetches {
      if a.Commit? {
        CommitInTime(env, s, a.f, a.t, f);
      } else {
        VersionInTime(s, a.f, f);
      }
    }
  }

  // The phases of the others stay; its own goes on with the same data.
  lemma VersionInTime(s: State, g: nat, f: nat)
    requires g in s.fetches && s.fetches[g].phase.Fetched? && f in NextFetchVersion(s, g).fetches
    ensures f in s.fetches && var fetch := NextFetchVersion(s, g).fetches[f];
      fetch.key == s.fetches[f].key && (fetch.phase == s.fetches[f].phase || fetch.phase.Writing?
        || (f == g && fetch.phase == Uncached(s.fetches[f].phase.raw, s.fetches[f].phase.stale)))
  {
  }

  lemma CommitInTime(env: Env, s: State, g: nat, t: int, f: nat)
    requires g in s.fetches && s.fetches[g].phase.Uncached? && f in NextCommit(env, s, g, t).fetches
    ensures f in s.fetches && var fetch := NextCommit(env, s, g, t).fetches[f];
      fetch.key == s.fetches[f].key && (fetch.phase == s.fetches[f].phase || fetch.phase.Writing?)
  {
  }

  lemma {:induction false} RunInTime(env: Env, s: State, actions: seq<Action>, s': State, f: nat, path: string)
    requires Run(env, s, actions, s') && InTime(s.fetches, f, path) && NoneSeen(env, path, actions)
    ensures InTime(s'.fetches, f, path)
    decreases |actions|
  {
    if actions != [] {
      assert actions[0] in actions;
      StaysInTime(env, s, actions[0], f, path);
      RunInTime(env, Next(env, s, actions[0]), actions[1..], s', f, path);
    }
  }

  lemma InTimeCommitIsOrderly(env: Env, s: State, during: seq<Action>, s': State, path: string, f: nat, t: int)
    requires RawInv(env, s) && InTime(s.fetches, f, path) && Run(env, s, during, s') && NoneSeen(env, path, during)
    requires Enabled(env, s', Commit(f, t)) && s'.fetches[f].key == path
    ensures Orderly(env, s', Commit(f, t))
  {
    RunRaw(env, s, during, s');
    RunInTime(env, s, during, s', f, path);
    CurrentCommitIsOrderly(env, s', f, t);
  }

  // setCache of data that no visible change has overtaken since the fetch began
  // loses nothing.
  lemma UnovertakenCommitIsOrderly(env: Env, s: State, before: seq<Action>, at: State, start: Action,
                                   during: seq<Action>, s': State, f: nat, t: int)
    requires Init(s) && Run(env, s, before, at) && Enabled(env, at, start)
    requires (start.StartFetch? || start.Subscribe?) && start.f == f
    requires Run(env, Next(env, at, start), during, s') && NoneSeen(env, start.key, during)
    requires Enabled(env, s', Commit(f, t)) && s'.fetches[f].key == start.key
    ensures Orderly(env, s', Commit(f, t))
  {
    RunRaw(env, s, before, at);
    StepRaw(env, at, start);
    InTimeCommitIsOrderly(env, Next(env, at, start), during, s', start.key, f, t);
  }

  // The same from the read on, when no change fell into the read itself.
  lemma UnovertakenReadIsOrderly(env: Env, s: State, before: seq<Action>, at: State, result: Option<Text>,
                                 during: seq<Action>, s': State, f: nat, t: int)
    requires Init(s) && Run(env, s, before, at)
    requires f in at.fetches && at.fetches[f].phase == Fetching(false) && result == Fresh(env, at.store, at.fetches[f].key)
    requires Run(env, NextFetchRead(env, at, f, result), during, s') && NoneSeen(env, at.fetches[f].key, during)
    requires Enabled(env, s', Commit(f, t)) && s'.fetches[f].key == at.fetches[f].key
    ensures Orderly(env, s', Commit(f, t))
  {
    RunRaw(env, s, before, at);
    StepRaw(env, at, FetchRead(f, result));
    InTimeCommitIsOrderly(env, NextFetchRead(env, at, f, result), during, s', at.fetches[f].key, f, t);
  }

  // -------------------------------------------------------------- whole runs

  ghost predicate OrderlyRun(env: Env, s: State, actions: seq<Action>)
    decreases |actions|
  {
    actions == [] ||
    (Enabled(env, s, actions[0]) && Orderly(env, s, actions[0]) && OrderlyRun(env, Next(env, s, actions[0]), actions[1..]))
  }

  // What shows in the step itself, whatever is outstanding: a write is to a
  // single key, or a delete on a glob of the class that publish admits, with
  // the pools in that class too; an event that is not sent is for no pool; and
  // setCache stores no data that a visible change has overtaken.
  ghost predicate Careful(env: Env, s: State, a: Action)
    requires Enabled(env, s, a)
  {
    match a
    case Mutate(w, key, _) => key == s.writers[w] || AdmissibleAt(env, s, s.writers[w])
    case Drop(w) => forall i: nat :: 1 <= i < |s.pools| ==> !Peer(env, s.pools[i].key, s.writers[w])
    case Commit(f, _) => !s.fetches[f].phase.stale
    case _ => true
  }

  ghost predicate AdmissibleAt(env: Env, s: State, path: string) {
    Globbing(env) && Key.Admissible(path) && forall i: nat :: 1 <= i < |s.pools| ==> Key.Admissible(s.pools[i].key)
  }

  lemma CarefulIsOrderly(env: Env, s: State, a: Action)
    requires RawInv(env, s) && Enabled(env, s, a) && Careful(env, s, a)
    ensures Orderly(env, s, a)
  {
    if a.Mutate? {
      if a.key == s.writers[a.w] {
        SingleKeyIsOrderly(env, s, a.w, a.value);
      } else {
        AdmissibleDeleteIsOrderly(env, s, a.w, a.key, a.value);
      }
    } else if a.Commit? {
      CurrentCommitIsOrderly(env, s, a.f, a.t);
    }
  }

  ghost predicate CarefulRun(env: Env, s: State, actions: seq<Action>)
    decreases |actions|
  {
    actions == [] ||
    (Enabled(env, s, actions[0]) && Careful(env, s, actions[0]) && CarefulRun(env, Next(env, s, actions[0]), actions[1..]))
  }

  lemma {:induction false} CarefulRunIsOrderly(env: Env, s: State, actions: seq<Action>)
    requires RawInv(env, s) && CarefulRun(env, s, actions)
    ensures OrderlyRun(env, s, actions)
    decreases |actions|
  {
    if actions != [] {
      CarefulIsOrderly(env, s, actions[0]);
      StepRaw(env, s, actions[0]);
      CarefulRunIsOrderly(env, Next(env, s, actions[0]), actions[1..]);
    }
  }

  // In every state on the way each pool is owed an event or settled.
  ghost predicate AccountedThroughout(env: Env, s: State, actions: seq<Action>)
    decreases |actions|
  {
    AllAccounted(env, s) &&
    (actions == [] || (Enabled(env, s, actions[0]) && AccountedThroughout(env, Next(env, s, actions[0]), actions[1..])))
  }

  lemma {:induction false} RunAccounts(env: Env, s: State, actions: seq<Action>, s': State)
    requires Inv(env, s) && AllAccounted(env, s) && Run(env, s, actions, s')
    ensures AccountedThroughout(env, s, actions) <==> OrderlyRun(env, s, actions)
    ensures OrderlyRun(env, s, actions) ==> AllAccounted(env, s')
    decreases |actions|
  {
    if actions != [] {
      StepInv(env, s, actions[0]);
      StepAccounts(env, s, actions[0]);
      if AllAccounted(env, Next(env, s, actions[0])) {
        RunAccounts(env, Next(env, s, actions[0]), actions[1..], s');
      }
    }
  }

  // Every run keeps all pools owed or settled throughout exactly when none of
  // its steps loses an update.
  lemma NoLossIffOrderly(env: Env, s: State, actions: seq<Action>, s': State)
    requires Init(s) && Run(env, s, actions, s')
    ensures AccountedThroughout(env, s, actions) <==> OrderlyRun(env, s, actions)
  {
    InitInv(env, s);
    RunAccounts(env, s, actions, s');
  }

  // Pool i lost an update in the run, and nothing has repaired it since.
  ghost predicate LostIn(env: Env, s: State, actions: seq<Action>, i: nat, lost: bool)
    decreases |actions|
  {
    if actions == [] then lost
    else
      Enabled(env, s, actions[0]) &&
      LostIn(env, Next(env, s, actions[0]), actions[1..], i,
             LosesAt(env, s, actions[0], i) || (lost && !Repairs(env, s, actions[0], i)))
  }

  lemma {:induction false} RunLoses(env: Env, s: State, actions: seq<Action>, s': State, i: nat, lost: bool)
    requires Inv(env, s) && Run(env, s, actions, s') && 1 <= i < |s'.pools|
    requires lost || (i < |s.pools| ==> Accounted(env, s, i))
    ensures Accounted(env, s', i) || LostIn(env, s, actions, i, lost)
    decreases |actions|
  {
    if actions != [] {
      var a, next := actions[0], Next(env, s, actions[0]);
      StepInv(env, s, a);
      if lost && Repairs(env, s, a, i) {
        RepairAccounts(env, s, a, i);
      } else if !lost && i < |next.pools| {
        StepLoses(env, s, a, i);
      }
      RunLoses(env, next, actions[1..], s', i, LosesAt(env, s, a, i) || (lost && !Repairs(env, s, a, i)));
    }
  }

  // In every reachable state a pool's cache is what a read would give now, or an
  // event is on its way to it, or a step of the run lost the pool an update and
  // neither a write it is broadcast for nor a broadcast has come since.
  lemma NoLostUpdate(env: Env, s: State, actions: seq<Action>, s': State, i: nat)
    requires Init(s) && Run(env, s, actions, s') && 1 <= i < |s'.pools|
    ensures Clean(env, s'.store, s'.pools[i]) || Pending(env, s', i) || LostIn(env, s, actions, i, false)
  {
    InitInv(env, s);
    RunLoses(env, s, actions, s', i, false);
  }

  // A run that loses nothing has lost nothing on any pool.
  lemma {:induction false} OrderlyLosesNothing(env: Env, s: State, actions: seq<Action>, i: nat)
    requires OrderlyRun(env, s, actions) && i >= 1
    ensures !LostIn(env, s, actions, i, false)
    decreases |actions|
  {
    if actions != [] {
      OrderlyLosesNothing(env, Next(env, s, actions[0]), actions[1..], i);
    }
  }

  ghost predicate Quiescent(s: State) {
    s.writers == map[] && forall n: nat :: n < |s.workers| ==> s.workers[n].Idle?
  }

  // At rest a pool is accounted for exactly when its cache equals a fresh read.
  lemma AtRestAccountedIsClean(env: Env, s: State, i: nat)
    requires Quiescent(s) && i < |s.pools|
    ensures Accounted(env, s, i) <==> Clean(env, s.store, s.pools[i])
  {
  }

  lemma AllCleanAtRest(env: Env, s: State)
    requires Quiescent(s) && AllAccounted(env, s)
    ensures forall i: nat :: 1 <= i < |s.pools| ==> Clean(env, s.store, s.pools[i])
  {
    forall i: nat | 1 <= i < |s.pools| ensures Clean(env, s.store, s.pools[i]) {
      AtRestAccountedIsClean(env, s, i);
    }
  }

  // When a run that loses nothing comes to rest, every cache equals a fresh read.
  lemma QuiescentCachesAreFresh(env: Env, s: State, actions: seq<Action>, s': State)
    requires Init(s) && Run(env, s, actions, s') && OrderlyRun(env, s, actions) && Quiescent(s')
    ensures forall i: nat :: 1 <= i < |s'.pools| ==> Clean(env, s'.store, s'.pools[i])
  {
    InitInv(env, s);
    RunAccounts(env, s, actions, s');
    AllCleanAtRest(env, s');
  }

  // So does a run of careful steps.
  lemma CarefulRunsEndFresh(env: Env, s: State, actions: seq<Action>, s': State)
    requires Init(s) && Run(env, s, actions, s') && CarefulRun(env, s, actions) && Quiescent(s')
    ensures forall i: nat :: 1 <= i < |s'.pools| ==> Clean(env, s'.store, s'.pools[i])
  {
    CarefulRunIsOrderly(env, s, actions);
    QuiescentCachesAreFresh(env, s, actions, s');
  }
}
