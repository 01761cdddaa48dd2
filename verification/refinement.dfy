// The two models of a broadcast and of a handshake agree: what Stream.Broadcast and
// Filters.Server.Ws do in one go is what the worker and the subscription of
// Protocol do in their small steps when nobody interferes.
module Refinement {
  import opened Common
  import opened Text
  import opened Json
  import opened Messages
  import opened Patching
  import opened Protocol
  import Filters
  import Key
  import Numerals
  import S = Stream

  // The pools of the state machine, as the class sees them: a connection has
  // been sent what is in its queue.
  function Wires(queue: seq<Frame>): (sent: seq<string>)
    ensures |sent| == |queue| && forall k :: 0 <= k < |queue| ==> sent[k] == Wire(queue[k])
  {
    seq(|queue|, k requires 0 <= k < |queue| => Wire(queue[k]))
  }

  ghost function FeedOf(conns: map<nat, Conn>, c: nat): S.Feed {
    if c in conns then S.Feed(conns[c].open, Wires(conns[c].queue)) else S.Feed(false, [])
  }

  ghost function ViewOf(p: Pool, conns: map<nat, Conn>): (v: S.View)
    ensures v.key == p.key && v.version == p.version && v.data == p.data && |v.feeds| == |p.conns|
    ensures forall k :: 0 <= k < |p.conns| ==> v.feeds[k] == FeedOf(conns, p.conns[k])
  {
    S.View(p.key, p.version, p.data, seq(|p.conns|, k requires 0 <= k < |p.conns| => FeedOf(conns, p.conns[k])))
  }

  ghost function ViewsOf(pools: seq<Pool>, conns: map<nat, Conn>): (views: seq<S.View>)
    ensures |views| == |pools| && forall i :: 0 <= i < |pools| ==> views[i] == ViewOf(pools[i], conns)
  {
    seq(|pools|, i requires 0 <= i < |pools| => ViewOf(pools[i], conns))
  }

  // Every connection is in one pool, once.
  ghost predicate Apart(pools: seq<Pool>) {
    && (forall i :: 0 <= i < |pools| ==> NoRepeats(pools[i].conns))
    && (forall i, j, c :: 0 <= i < |pools| && 0 <= j < |pools| && c in pools[i].conns && c in pools[j].conns ==> i == j)
  }

  ghost function PushAll(conns: map<nat, Conn>, rest: seq<nat>, frame: Frame): map<nat, Conn> {
    if rest == [] then conns else PushAll(Push(conns, rest[0], frame), rest[1..], frame)
  }

  lemma PushFeeds(conns: map<nat, Conn>, c: nat, frame: Frame, d: nat)
    ensures FeedOf(Push(conns, c, frame), d) == if c == d then S.Fed(FeedOf(conns, d), Wire(frame)) else FeedOf(conns, d)
  {
    if c in conns && conns[c].open {
      assert Wires(conns[c].queue + [frame]) == Wires(conns[c].queue) + [Wire(frame)];
    }
  }

  lemma {:induction false} PushAllFeeds(conns: map<nat, Conn>, rest: seq<nat>, frame: Frame, d: nat)
    requires NoRepeats(rest)
    ensures FeedOf(PushAll(conns, rest, frame), d) == if d in rest then S.Fed(FeedOf(conns, d), Wire(frame)) else FeedOf(conns, d)
    decreases |rest|
  {
    if rest != [] {
      PushFeeds(conns, rest[0], frame, d);
      PushAllFeeds(Push(conns, rest[0], frame), rest[1..], frame, d);
      assert rest == [rest[0]] + rest[1..];
    }
  }

  lemma OneStep(env: Env, s: State, a: Action)
    requires Enabled(env, s, a)
    ensures Run(env, s, [a], Next(env, s, a))
  {
    assert [a][1..] == [];
  }

  lemma WriteStep(env: Env, s: State, n: nat, path: string, i: nat, frame: Frame, rest: seq<nat>)
    requires n < |s.workers| && s.workers[n] == Sending(path, i, frame, rest) && rest != []
    ensures Enabled(env, s, Write(n))
    ensures Next(env, s, Write(n)) ==
            s.(workers := s.workers[n := Sending(path, i, frame, rest[1..])], conns := Push(s.conns, rest[0], frame))
  {
  }

  lemma UnlockStep(env: Env, s: State, n: nat, path: string, i: nat, frame: Frame)
    requires n < |s.workers| && s.workers[n] == Sending(path, i, frame, [])
    ensures Run(env, s, [Unlock(n)], s.(workers := s.workers[n := At(path, i + 1)]))
  {
    OneStep(env, s, Unlock(n));
  }

  // The frame is written to one connection after the other.
  lemma {:induction false} WriteOut(env: Env, s: State, n: nat, path: string, i: nat, frame: Frame, rest: seq<nat>, s': State)
    returns (actions: seq<Action>)
    requires n < |s.workers| && s.workers[n] == Sending(path, i, frame, rest)
    requires s' == s.(workers := s.workers[n := At(path, i + 1)], conns := PushAll(s.conns, rest, frame))
    ensures Run(env, s, actions, s')
    decreases |rest|
  {
    if rest == [] {
      UnlockStep(env, s, n, path, i, frame);
      actions := [Unlock(n)];
    } else {
      WriteStep(env, s, n, path, i, frame, rest);
      var mid := Next(env, s, Write(n));
      assert mid.workers[n := At(path, i + 1)] == s'.workers;
      var later := WriteOut(env, mid, n, path, i, frame, rest[1..], s');
      Chain(env, s, Write(n), mid, later, s');
      actions := [Write(n)] + later;
    }
  }

  // What changes in the machine's pools when one of them is told news.
  lemma TellsOne(lib: Library, mode: Mode, pools: seq<Pool>, conns: map<nat, Conn>, i: nat, data: Text, t: int, pool: Pool)
    requires Apart(pools) && i < |pools|
    requires pool.key == pools[i].key && pool.version == t && pool.data == data && pool.conns == pools[i].conns
    ensures var o := Choose(lib, mode, pools[i].data, data);
      var conns' := PushAll(conns, pools[i].conns, Frame(o.payload, o.snapshot, t));
      ViewsOf(pools[i := pool], conns') == ViewsOf(pools, conns)[i := S.Told(lib, mode, ViewOf(pools[i], conns), Some(data), t)]
  {
    var o := Choose(lib, mode, pools[i].data, data);
    var frame := Frame(o.payload, o.snapshot, t);
    var conns' := PushAll(conns, pools[i].conns, frame);
    var told := S.Told(lib, mode, ViewOf(pools[i], conns), Some(data), t);
    forall j | 0 <= j < |pools| ensures ViewOf(pools[i := pool][j], conns') == if j == i then told else ViewOf(pools[j], conns) {
      forall k | 0 <= k < |pools[j].conns|
        ensures FeedOf(conns', pools[j].conns[k]) == if j == i then S.Fed(FeedOf(conns, pools[j].conns[k]), Wire(frame)) else FeedOf(conns, pools[j].conns[k])
      {
        PushAllFeeds(conns, pools[i].conns, frame, pools[j].conns[k]);
        assert pools[j].conns[k] in pools[j].conns;
      }
      if j == i {
        assert ViewOf(pool, conns').feeds == told.feeds;
      } else {
        assert ViewOf(pools[j], conns').feeds == ViewOf(pools[j], conns).feeds;
      }
    }
  }

  ghost predicate SamePlaces(pools: seq<Pool>, pools': seq<Pool>) {
    |pools'| == |pools| && forall i :: 0 <= i < |pools| ==> pools'[i].key == pools[i].key && pools'[i].conns == pools[i].conns
  }

  // The news for a pool, given what is stored.
  ghost function NewsFor(env: Env, store: map<string, Text>, key: string, path: string): Option<Text> {
    if Peer(env, key, path) then Fresh(env, store, key) else None
  }

  lemma LockAndRead(env: Env, s: State, n: nat, path: string, i: nat, data: Option<Text>) returns (actions: seq<Action>)
    requires n < |s.workers| && s.workers[n] == At(path, i) && i < |s.pools| && PoolFree(s.workers, i)
    requires Peer(env, s.pools[i].key, path) && data == Fresh(env, s.store, s.pools[i].key)
    ensures Run(env, s, actions, s.(workers := s.workers[n := if data.Some? then Holding(path, i, data.value) else At(path, i + 1)]))
  {
    var mid := Next(env, s, LockPool(n));
    OneStep(env, mid, Read(n, data));
    var last := Next(env, mid, Read(n, data));
    assert last.workers == s.workers[n := if data.Some? then Holding(path, i, data.value) else At(path, i + 1)];
    Chain(env, s, LockPool(n), mid, [Read(n, data)], last);
    actions := [LockPool(n)] + [Read(n, data)];
  }

  lemma PatchAndWrite(env: Env, s: State, n: nat, path: string, i: nat, data: Text, t: int) returns (actions: seq<Action>, s': State)
    requires n < |s.workers| && s.workers[n] == Holding(path, i, data) && i < |s.pools| && t > s.now
    ensures Run(env, s, actions, s')
    ensures var o := Choose(env.lib, env.mode, s.pools[i].data, data);
      s' == s.(workers := s.workers[n := At(path, i + 1)], pools := s.pools[i := Renewed(s.pools[i], data, t)], now := t,
               conns := PushAll(s.conns, s.pools[i].conns, Frame(o.payload, o.snapshot, t)))
  {
    var o := Choose(env.lib, env.mode, s.pools[i].data, data);
    var frame := Frame(o.payload, o.snapshot, t);
    var mid := Next(env, s, Action.Patch(n, t));
    s' := s.(workers := s.workers[n := At(path, i + 1)], pools := s.pools[i := Renewed(s.pools[i], data, t)], now := t,
             conns := PushAll(s.conns, s.pools[i].conns, frame));
    assert mid.workers[n := At(path, i + 1)] == s'.workers;
    var later := WriteOut(env, mid, n, path, i, frame, s.pools[i].conns, s');
    Chain(env, s, Action.Patch(n, t), mid, later, s');
    actions := [Action.Patch(n, t)] + later;
  }

  // The table after a pool's turn.
  ghost predicate TurnDone(env: Env, s: State, s': State, n: nat, path: string, i: nat, t: int)
    requires n < |s.workers| && i < |s.pools|
  {
    && s' == s.(workers := s.workers[n := At(path, i + 1)], pools := s'.pools, conns := s'.conns, now := s'.now)
    && SamePlaces(s.pools, s'.pools) && s'.now <= t
    && ViewsOf(s'.pools, s'.conns) ==
         ViewsOf(s.pools, s.conns)[i := S.Told(env.lib, env.mode, ViewOf(s.pools[i], s.conns), NewsFor(env, s.store, s.pools[i].key, path), t)]
  }

  lemma SkipTurn(env: Env, s: State, n: nat, path: string, i: nat, t: int) returns (actions: seq<Action>, s': State)
    requires n < |s.workers| && s.workers[n] == At(path, i) && i < |s.pools| && t > s.now && !Peer(env, s.pools[i].key, path)
    ensures Run(env, s, actions, s') && TurnDone(env, s, s', n, path, i, t)
  {
    OneStep(env, s, Skip(n));
    s' := Next(env, s, Skip(n));
    actions := [Skip(n)];
  }

  lemma FilteredTurn(env: Env, s: State, n: nat, path: string, i: nat, t: int) returns (actions: seq<Action>, s': State)
    requires n < |s.workers| && s.workers[n] == At(path, i) && i < |s.pools| && t > s.now && PoolFree(s.workers, i)
    requires Peer(env, s.pools[i].key, path) && Fresh(env, s.store, s.pools[i].key).None?
    ensures Run(env, s, actions, s') && TurnDone(env, s, s', n, path, i, t)
  {
    actions := LockAndRead(env, s, n, path, i, None);
    s' := s.(workers := s.workers[n := At(path, i + 1)]);
  }

  lemma ToldTurn(env: Env, s: State, n: nat, path: string, i: nat, t: int) returns (actions: seq<Action>, s': State)
    requires n < |s.workers| && s.workers[n] == At(path, i) && i < |s.pools| && t > s.now && PoolFree(s.workers, i) && Apart(s.pools)
    requires Peer(env, s.pools[i].key, path) && Fresh(env, s.store, s.pools[i].key).Some?
    ensures Run(env, s, actions, s') && TurnDone(env, s, s', n, path, i, t)
  {
    var data := Fresh(env, s.store, s.pools[i].key).value;
    var first := LockAndRead(env, s, n, path, i, Some(data));
    var mid := s.(workers := s.workers[n := Holding(path, i, data)]);
    var second, last := PatchAndWrite(env, mid, n, path, i, data, t);
    RunAppend(env, s, first, mid, second, last);
    actions, s' := first + second, last;
    TellsOne(env.lib, env.mode, s.pools, s.conns, i, data, t, s'.pools[i]);
    assert s'.pools == s.pools[i := s'.pools[i]] && s'.workers == s.workers[n := At(path, i + 1)];
  }

  lemma OneTurn(env: Env, s: State, n: nat, path: string, i: nat, t: int) returns (actions: seq<Action>, s': State)
    requires n < |s.workers| && s.workers[n] == At(path, i) && i < |s.pools| && t > s.now && PoolFree(s.workers, i) && Apart(s.pools)
    ensures Run(env, s, actions, s') && TurnDone(env, s, s', n, path, i, t)
  {
    if !Peer(env, s.pools[i].key, path) {
      actions, s' := SkipTurn(env, s, n, path, i, t);
    } else if Fresh(env, s.store, s.pools[i].key).None? {
      actions, s' := FilteredTurn(env, s, n, path, i, t);
    } else {
      actions, s' := ToldTurn(env, s, n, path, i, t);
    }
  }

  // ------------------------------------------------------------- the whole pass

  function Getter(env: Env, store: map<string, Text>): string -> Option<Text> {
    key => Fresh(env, store, key)
  }

  lemma TurnIsTurn(env: Env, store: map<string, Text>, v: S.View, i: nat, path: string, st: S.Stream, clock: nat -> int)
    requires Globbing(env) && st.lib == env.lib && st.mode == env.mode && i > 0
    ensures st.Turn(v, i, path, Getter(env, store), clock) == S.Told(env.lib, env.mode, v, NewsFor(env, store, v.key, path), clock(i))
  {
    assert env.matches(v.key, path) <==> Key.Match(v.key, path);
    assert env.matches(path, v.key) <==> Key.Match(path, v.key);
  }

  lemma Alone(workers: seq<Worker>, n: nat, w: Worker, i: nat)
    requires n < |workers| && !HasPool(workers[n], i) && NoBroadcast(workers[n := Idle])
    ensures PoolFree(workers, i) && NoBroadcast(workers[n := w][n := Idle])
  {
    forall m | 0 <= m < |workers| ensures !HasPool(workers[m], i) {
      assert m != n ==> !InStream(workers[n := Idle][m]);
    }
    assert workers[n := w][n := Idle] == workers[n := Idle];
  }

  ghost predicate Ticks(clock: nat -> int, now: int) {
    (forall i, j :: 0 <= i < j ==> clock(i) < clock(j)) && forall i :: i >= 1 ==> now < clock(i)
  }

  lemma {:induction false} Pass(env: Env, s: State, n: nat, path: string, i: nat, st: S.Stream, clock: nat -> int)
    returns (actions: seq<Action>, s': State)
    requires n < |s.workers| && s.workers[n] == At(path, i) && 1 <= i <= |s.pools| && NoBroadcast(s.workers[n := Idle])
    requires Apart(s.pools) && Globbing(env) && st.lib == env.lib && st.mode == env.mode
    requires (forall j, k :: i <= j < k ==> clock(j) < clock(k)) && forall j :: j >= i ==> s.now < clock(j)
    ensures Run(env, s, actions, s')
    ensures s' == s.(workers := s.workers[n := At(path, |s.pools|)], pools := s'.pools, conns := s'.conns, now := s'.now)
    ensures SamePlaces(s.pools, s'.pools)
    ensures var views, views' := ViewsOf(s.pools, s.conns), ViewsOf(s'.pools, s'.conns);
      forall j :: 0 <= j < |s.pools| ==>
        views'[j] == if j < i then views[j] else st.Turn(views[j], j, path, Getter(env, s.store), clock)
    decreases |s.pools| - i
  {
    if i == |s.pools| {
      actions, s' := [], s;
      assert s.workers[n := At(path, i)] == s.workers;
    } else {
      Alone(s.workers, n, At(path, i + 1), i);
      var first, mid := OneTurn(env, s, n, path, i, clock(i));
      TurnIsTurn(env, s.store, ViewOf(s.pools[i], s.conns), i, path, st, clock);
      var second, last := Pass(env, mid, n, path, i + 1, st, clock);
      RunAppend(env, s, first, mid, second, last);
      actions, s' := first + second, last;
      assert mid.workers[n := At(path, |s.pools|)] == s.workers[n := At(path, |s.pools|)];
    }
  }

  lemma WholePass(env: Env, s: State, n: nat, path: string, st: S.Stream, clock: nat -> int) returns (actions: seq<Action>, s': State)
    requires n < |s.workers| && s.workers[n] == At(path, 1) && |s.pools| > 0 && NoBroadcast(s.workers[n := Idle])
    requires Apart(s.pools) && Globbing(env) && st.lib == env.lib && st.mode == env.mode && Ticks(clock, s.now)
    ensures Run(env, s, actions, s')
    ensures s' == s.(workers := s.workers[n := At(path, |s.pools|)], pools := s'.pools, conns := s'.conns, now := s'.now)
    ensures |s'.pools| == |s.pools|
    ensures ViewsOf(s'.pools, s'.conns) == st.AllTold(ViewsOf(s.pools, s.conns), path, Getter(env, s.store), clock)
  {
    actions, s' := Pass(env, s, n, path, 1, st, clock);
    var views := ViewsOf(s.pools, s.conns);
    assert st.Turn(views[0], 0, path, Getter(env, s.store), clock) == views[0];
  }

  lemma EnterStep(env: Env, s: State, n: nat, path: string)
    requires n < |s.workers| && s.workers[n] == Received(path)
    ensures Run(env, s, [Enter(n)], s.(workers := s.workers[n := At(path, 1)]))
  {
    OneStep(env, s, Enter(n));
  }

  lemma LeaveStep(env: Env, s: State, n: nat, path: string)
    requires n < |s.workers| && s.workers[n] == At(path, |s.pools|)
    ensures Run(env, s, [Leave(n)], s.(workers := s.workers[n := Idle]))
  {
    OneStep(env, s, Leave(n));
  }

  lemma TableIsApart(pools: seq<Pool>, conns: map<nat, Conn>)
    requires TableInv(pools) && ConnInv(pools, conns)
    ensures Apart(pools)
  {
    forall i, j, c | 0 <= i < |pools| && 0 <= j < |pools| && c in pools[i].conns && c in pools[j].conns ensures i == j {
      assert conns[c].pool == i;
    }
  }

  // Left to itself, a worker that received an event turns the pools into exactly
  // what Stream.Broadcast makes of them for the same path, data and clock.
  lemma BroadcastRefines(env: Env, s: State, n: nat, path: string, st: S.Stream, clock: nat -> int) returns (actions: seq<Action>, s': State)
    requires TableInv(s.pools) && ConnInv(s.pools, s.conns)
    requires Globbing(env) && st.lib == env.lib && st.mode == env.mode
    requires n < |s.workers| && s.workers[n] == Received(path) && NoBroadcast(s.workers) && Ticks(clock, s.now)
    ensures Run(env, s, actions, s')
    ensures s'.workers == s.workers[n := Idle] && s'.store == s.store && s'.fetches == s.fetches && s'.writers == s.writers
    ensures ViewsOf(s'.pools, s'.conns) == st.AllTold(ViewsOf(s.pools, s.conns), path, Getter(env, s.store), clock)
  {
    TableIsApart(s.pools, s.conns);
    EnterStep(env, s, n, path);
    var entered := s.(workers := s.workers[n := At(path, 1)]);
    assert NoBroadcast(entered.workers[n := Idle]);
    var pass, passed := WholePass(env, entered, n, path, st, clock);
    LeaveStep(env, passed, n, path);
    s' := passed.(workers := passed.workers[n := Idle]);
    RunAppend(env, s, [Enter(n)], entered, pass, passed);
    RunAppend(env, s, [Enter(n)] + pass, passed, [Leave(n)], s');
    actions := ([Enter(n)] + pass) + [Leave(n)];
  }

  // ------------------------------------------------------------- the handshake

  // The end of a Refresh, and the initial write it may leave to be done, send the
  // connection what Filters.Server.Ws sends.
  lemma FinishGreets(env: Env, s: State, f: nat, c: nat, raw: Text, version: int) returns (actions: seq<Action>, s': State)
    requires f in s.fetches && s.fetches[f].conn == Some(c) && c in s.conns && s.conns[c].open && s.conns[c].queue == []
    ensures Run(env, Finish(s, f, raw, version), actions, s')
    ensures f !in s'.fetches && s' == s.(conns := s'.conns, fetches := s'.fetches) && c in s'.conns
    ensures Wires(s'.conns[c].queue) == Filters.Greeting(Some(S.Cache(version, raw)), s.conns[c].presented, true)
  {
    var done := Finish(s, f, raw, version);
    if s.conns[c].presented == Numerals.FormatInt(version) {
      actions, s' := [], done;
    } else {
      OneStep(env, done, InitialWrite(f));
      actions, s' := [InitialWrite(f)], NextInitialWrite(done, f);
      assert s'.conns[c].queue == [] + [Frame(raw, true, version)];
    }
  }

  // The pool of the key once the connection has joined it, and where it is.
  lemma JoinedPool(pools: seq<Pool>, key: string, c: nat) returns (j: nat)
    requires DistinctKeys(pools)
    ensures j < |WithConn(pools, key, c)| && Find(WithConn(pools, key, c), key) == j
    ensures if Find(pools, key) >= 0 then j == Find(pools, key) && WithConn(pools, key, c) == pools[j := pools[j].(conns := pools[j].conns + [c])]
            else j == |pools| && WithConn(pools, key, c) == pools + [Pool(key, 0, [], [c], map[])]
  {
    var after := WithConn(pools, key, c);
    j := if Find(pools, key) >= 0 then Find(pools, key) else |pools|;
    FindIsUnique(after, j);
  }

  // Registered, with its data read: nothing else has changed but the roster.
  lemma JoinAndRead(env: Env, s: State, c: nat, f: nat, key: string, presented: string, cache: Text, data: Text) returns (s': State)
    requires Enabled(env, s, Subscribe(c, f, key, presented, cache)) && Fresh(env, s.store, key) == Some(data)
    ensures Run(env, s, [Subscribe(c, f, key, presented, cache)] + [FetchRead(f, Some(data))], s')
    ensures s' == s.(pools := WithConn(s.pools, key, c), conns := s'.conns, fetches := s'.fetches)
    ensures c in s'.conns && s'.conns[c].open && s'.conns[c].queue == [] && s'.conns[c].presented == presented
    ensures f in s'.fetches && s'.fetches[f].key == key && s'.fetches[f].conn == Some(c)
    ensures s'.fetches[f].phase == Fetched(OrEmptyObject(data), false)
  {
    var joined := NextSubscribe(env, s, c, f, key, presented, cache);
    s' := NextFetchRead(env, joined, f, Some(data));
    OneStep(env, joined, FetchRead(f, Some(data)));
    Chain(env, s, Subscribe(c, f, key, presented, cache), joined, [FetchRead(f, Some(data))], s');
  }

  // With a cache: its version is read, and the cache stays.
  lemma CachedEnd(env: Env, s: State, f: nat, c: nat, raw: Text, j: nat) returns (actions: seq<Action>, s': State)
    requires f in s.fetches && s.fetches[f].conn == Some(c) && s.fetches[f].phase == Fetched(raw, false) && NoBroadcast(s.workers)
    requires c in s.conns && s.conns[c].open && s.conns[c].queue == []
    requires j < |s.pools| && Find(s.pools, s.fetches[f].key) == j && s.pools[j].data != []
    ensures Run(env, s, actions, s')
    ensures f !in s'.fetches && s' == s.(conns := s'.conns, fetches := s'.fetches) && c in s'.conns
    ensures Wires(s'.conns[c].queue) == Filters.Greeting(Some(S.Cache(s.pools[j].version, raw)), s.conns[c].presented, true)
  {
    NobodyInside(s.workers, j);
    var rest, last := FinishGreets(env, s, f, c, raw, s.pools[j].version);
    Chain(env, s, FetchVersion(f), NextFetchVersion(s, f), rest, last);
    actions, s' := [FetchVersion(f)] + rest, last;
  }

  lemma NobodyInside(workers: seq<Worker>, j: nat)
    requires NoBroadcast(workers)
    ensures PoolFree(workers, j)
  {
    forall n | 0 <= n < |workers| ensures !HasPool(workers[n], j) {
      assert !InStream(workers[n]);
    }
  }

  // Without one: what was read becomes the cache, at the time of the setCache.
  lemma UncachedEnd(env: Env, s: State, f: nat, c: nat, raw: Text, j: nat, t: int) returns (actions: seq<Action>, s': State)
    requires f in s.fetches && s.fetches[f].conn == Some(c) && s.fetches[f].phase == Fetched(raw, false) && NoBroadcast(s.workers)
    requires c in s.conns && s.conns[c].open && s.conns[c].queue == [] && t > s.now
    requires j < |s.pools| && Find(s.pools, s.fetches[f].key) == j && s.pools[j].data == []
    ensures Run(env, s, actions, s')
    ensures f !in s'.fetches && c in s'.conns
    ensures s' == s.(pools := s.pools[j := Renewed(s.pools[j], raw, t)], conns := s'.conns, fetches := s'.fetches, now := t)
    ensures Wires(s'.conns[c].queue) == Filters.Greeting(Some(S.Cache(t, raw)), s.conns[c].presented, true)
  {
    NobodyInside(s.workers, j);
    var mid := NextFetchVersion(s, f);
    var key := s.fetches[f].key;
    var pool := Renewed(s.pools[j], raw, t);
    var stored := mid.(pools := WithPool(mid.pools, pool), fetches := UnquietOthers(mid.fetches, key, f, !Clean(env, mid.store, pool)), now := t);
    assert NextCommit(env, mid, f, t) == Finish(stored, f, raw, t);
    var rest, last := FinishGreets(env, stored, f, c, raw, t);
    Chain(env, mid, Commit(f, t), NextCommit(env, mid, f, t), rest, last);
    Chain(env, s, FetchVersion(f), mid, [Commit(f, t)] + rest, last);
    actions, s' := [FetchVersion(f)] + ([Commit(f, t)] + rest), last;
  }

  lemma EitherEnd(env: Env, s: State, f: nat, c: nat, raw: Text, j: nat, t: int) returns (actions: seq<Action>, s': State)
    requires f in s.fetches && s.fetches[f].conn == Some(c) && s.fetches[f].phase == Fetched(raw, false) && NoBroadcast(s.workers)
    requires c in s.conns && s.conns[c].open && s.conns[c].queue == [] && t > s.now
    requires j < |s.pools| && Find(s.pools, s.fetches[f].key) == j
    ensures Run(env, s, actions, s') && f !in s'.fetches && c in s'.conns
    ensures s'.store == s.store && s'.writers == s.writers && s'.workers == s.workers
    ensures s'.pools == if s.pools[j].data != [] then s.pools else s.pools[j := Renewed(s.pools[j], raw, t)]
    ensures Wires(s'.conns[c].queue) == Filters.Greeting(Some(S.Cache(s'.pools[j].version, raw)), s.conns[c].presented, true)
  {
    if s.pools[j].data != [] {
      actions, s' := CachedEnd(env, s, f, c, raw, j);
    } else {
      actions, s' := UncachedEnd(env, s, f, c, raw, j, t);
    }
  }

  // The table with connection c appended to pool j, which is created when missing
  // and whose cache is raw, as of t, if it had none.
  ghost predicate Joined(pools: seq<Pool>, pools': seq<Pool>, key: string, c: nat, j: nat, raw: Text, t: int) {
    && j == (if Find(pools, key) >= 0 then Find(pools, key) else |pools|)
    && |pools'| == (if j < |pools| then |pools| else |pools| + 1) && pools'[j].key == key
    && (forall k :: 0 <= k < |pools| && k != j ==> pools'[k] == pools[k])
    && pools'[j].conns == (if j < |pools| then pools[j].conns else []) + [c]
    && var had := j < |pools| && pools[j].data != [];
    && pools'[j].version == (if had then pools[j].version else t)
    && pools'[j].data == (if had then pools[j].data else raw)
  }

  lemma JoinedEither(pools: seq<Pool>, pools': seq<Pool>, key: string, c: nat, j: nat, raw: Text, t: int)
    requires j == if Find(pools, key) >= 0 then Find(pools, key) else |pools|
    requires var mid := WithConn(pools, key, c); pools' == if mid[j].data != [] then mid else mid[j := Renewed(mid[j], raw, t)]
    ensures Joined(pools, pools', key, c, j, raw, t)
  {
  }

  // Left to itself, a subscription does what Filters.Server.Ws does: the connection
  // is appended to its pool, created when missing; the data read are the pool's
  // cache if it had none; and what is sent is the greeting for them under the
  // version the pool then has.
  lemma WsRefines(env: Env, s: State, c: nat, f: nat, key: string, presented: string, cache: Text, data: Text, t: int)
    returns (actions: seq<Action>, s': State, j: nat)
    requires DistinctKeys(s.pools) && Enabled(env, s, Subscribe(c, f, key, presented, cache))
    requires Fresh(env, s.store, key) == Some(data) && t > s.now
    ensures Run(env, s, actions, s') && f !in s'.fetches && s'.store == s.store && s'.writers == s.writers && s'.workers == s.workers
    ensures Joined(s.pools, s'.pools, key, c, j, OrEmptyObject(data), t)
    ensures c in s'.conns &&
      Wires(s'.conns[c].queue) == Filters.Greeting(Some(S.Cache(s'.pools[j].version, OrEmptyObject(data))), presented, true)
  {
    j := JoinedPool(s.pools, key, c);
    var first := [Subscribe(c, f, key, presented, cache)] + [FetchRead(f, Some(data))];
    var mid := JoinAndRead(env, s, c, f, key, presented, cache, data);
    var rest: seq<Action>;
    rest, s' := EitherEnd(env, mid, f, c, OrEmptyObject(data), j, t);
    RunAppend(env, s, first, mid, rest, s');
    actions := first + rest;
    JoinedEither(s.pools, s'.pools, key, c, j, OrEmptyObject(data), t);
  }
}
