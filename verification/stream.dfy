// stream/stream.go: the pools, their caches and connections, updated in place.
// Each method is what its lock makes one step; how such steps interleave is
// the subject of Protocol, and the order of the locks that of Locks.
module Stream {
  import opened Common
  import opened Text
  import opened Json
  import opened Messages
  import opened Patching
  import Key
  import Protocol

  datatype Cache = Cache(version: int, data: Text)

  // A websocket connection: the messages it took, whether the peer is still
  // there to take more, and whether the server closed it.
  class Conn {
    var sent: seq<string>
    var alive: bool
    var closed: bool

    constructor (alive: bool)
      ensures sent == [] && this.alive == alive && !closed
    {
      sent, this.alive, closed := [], alive, false;
    }
  }

  class Pool {
    const key: string
    var version: int
    var data: Text
    var connections: seq<Conn>

    constructor (key: string, version: int, data: Text, connections: seq<Conn>)
      ensures this.key == key && this.version == version && this.data == data && this.connections == connections
    {
      this.key, this.version, this.data, this.connections := key, version, data, connections;
    }
  }

  // A pool and what its connections have been sent, as a value.
  datatype Feed = Feed(alive: bool, sent: seq<string>)
  datatype View = View(key: string, version: int, data: Text, feeds: seq<Feed>)

  ghost function Feeds(conns: seq<Conn>): (feeds: seq<Feed>)
    reads conns
    ensures |feeds| == |conns| && forall k :: 0 <= k < |conns| ==> feeds[k] == Feed(conns[k].alive, conns[k].sent)
  {
    if conns == [] then []
    else
      var last := conns[|conns| - 1];
      Feeds(conns[..|conns| - 1]) + [Feed(last.alive, last.sent)]
  }

  twostate lemma FeedsStay(conns: seq<Conn>)
    requires forall c <- conns :: unchanged(c)
    ensures Feeds(conns) == old(Feeds(conns))
  {
    forall k | 0 <= k < |conns| ensures Feeds(conns)[k] == old(Feeds(conns))[k] {
      assert conns[k] in conns;
    }
  }

  ghost function Snap(p: Pool): View
    reads p, p.connections
  {
    View(p.key, p.version, p.data, Feeds(p.connections))
  }

  ghost function ConnsOf(pools: seq<Pool>): set<Conn>
    reads pools
  {
    set p, c | p in pools && c in p.connections :: c
  }

  // The table of pools as a value.
  ghost function Views(pools: seq<Pool>): (views: seq<View>)
    reads pools, ConnsOf(pools)
    ensures |views| == |pools| && forall i :: 0 <= i < |pools| ==> views[i] == Snap(pools[i])
  {
    if pools == [] then []
    else
      var last := pools[|pools| - 1];
      assert forall c <- last.connections :: c in ConnsOf(pools);
      Views(pools[..|pools| - 1]) + [Snap(last)]
  }

  function Fed(f: Feed, message: string): Feed {
    if f.alive then f.(sent := f.sent + [message]) else f
  }

  // A pool after its turn in a broadcast: with no news it stays; otherwise the
  // cache is the new data at the given time, and every connection still there
  // got one frame, which turns the old cache into them (Patching.ChoiceReplicates).
  function Told(lib: Library, mode: Mode, v: View, news: Option<Text>, now: int): View {
    match news
    case None => v
    case Some(data) =>
      var o := Choose(lib, mode, v.data, data);
      View(v.key, now, data, seq(|v.feeds|, k requires 0 <= k < |v.feeds| => Fed(v.feeds[k], Wire(Frame(o.payload, o.snapshot, now)))))
  }

  ghost predicate NoRepeats(conns: seq<Conn>) {
    forall i, j :: 0 <= i < j < |conns| ==> conns[i] != conns[j]
  }

  // The connections other than one, in their order.
  function Without(conns: seq<Conn>, c: Conn): seq<Conn> {
    if conns == [] then []
    else Without(conns[..|conns| - 1], c) + (if conns[|conns| - 1] == c then [] else [conns[|conns| - 1]])
  }

  lemma {:induction false} WithoutOne(conns: seq<Conn>, c: Conn)
    requires NoRepeats(conns)
    ensures NoRepeats(Without(conns, c))
    ensures forall d :: d in Without(conns, c) <==> d in conns && d != c
    ensures |Without(conns, c)| == |conns| - if c in conns then 1 else 0
  {
    if conns != [] {
      var rest, last := conns[..|conns| - 1], conns[|conns| - 1];
      assert conns == rest + [last] && last !in rest;
      WithoutOne(rest, c);
      assert last !in Without(rest, c);
    }
  }

  lemma {:induction false} WithoutAbsent(conns: seq<Conn>, c: Conn)
    requires c !in conns
    ensures Without(conns, c) == conns
  {
    if conns != [] {
      var rest, last := conns[..|conns| - 1], conns[|conns| - 1];
      assert conns == rest + [last];
      WithoutAbsent(rest, c);
    }
  }

  // The others keep their order: the connection is cut out where it was.
  lemma {:induction false} WithoutCutsOut(conns: seq<Conn>, i: nat)
    requires NoRepeats(conns) && i < |conns|
    ensures Without(conns, conns[i]) == conns[..i] + conns[i + 1..]
    decreases |conns|
  {
    var rest, last := conns[..|conns| - 1], conns[|conns| - 1];
    assert conns == rest + [last];
    if i == |rest| {
      WithoutAbsent(rest, last);
    } else {
      WithoutCutsOut(rest, i);
      assert rest[..i] == conns[..i] && rest[i + 1..] + [last] == conns[i + 1..];
    }
  }

  class Stream {
    const lib: Library
    const mode: Mode
    var pools: seq<Pool>

    ghost predicate Valid()
      reads this, pools
    {
      && (forall i, j :: 0 <= i < j < |pools| ==> pools[i] != pools[j] && pools[i].key != pools[j].key)
      && (forall i :: 0 <= i < |pools| ==> NoRepeats(pools[i].connections))
      && (forall i, j, c :: 0 <= i < |pools| && 0 <= j < |pools| && i != j && c in pools[i].connections ==>
            c !in pools[j].connections)
    }

    ghost predicate Unknown(client: Conn)
      reads this, pools
    {
      forall i :: 0 <= i < |pools| ==> client !in pools[i].connections
    }

    constructor (lib: Library, mode: Mode)
      ensures Valid() && pools == [] && this.lib == lib && this.mode == mode
    {
      this.lib, this.mode, pools := lib, mode, [];
    }

    // The first pool with the key.
    method FindPool(key: string) returns (i: int)
      ensures -1 <= i < |pools|
      ensures i >= 0 ==> pools[i].key == key && forall j :: 0 <= j < i ==> pools[j].key != key
      ensures i == -1 ==> forall j :: 0 <= j < |pools| ==> pools[j].key != key
    {
      i := -1;
      for j := 0 to |pools|
        invariant i == -1 && forall k :: 0 <= k < j ==> pools[k].key != key
      {
        if pools[j].key == key {
          i := j;
          break;
        }
      }
    }

    method InitClock()
      requires Valid()
      modifies this
      ensures Valid()
      ensures old(pools) != [] ==> pools == old(pools)
      ensures old(pools) == [] ==> |pools| == 1 && fresh(pools[0]) && pools[0].key == "" && pools[0].data == [] && pools[0].connections == []
    {
      if |pools| == 0 {
        var clock := new Pool("", 0, [], []);
        pools := [clock];
      }
    }

    // new: the connection joins the pool of its key, created when missing.
    method Register(key: string, client: Conn)
      requires Valid() && Unknown(client)
      modifies this, pools
      ensures Valid() && |old(pools)| <= |pools| <= |old(pools)| + 1 && old(pools) <= pools
      ensures forall i :: 0 <= i < |old(pools)| ==>
        && pools[i].version == old(pools[i].version) && pools[i].data == old(pools[i].data)
        && pools[i].connections == old(pools[i].connections) + if pools[i].key == key then [client] else []
      ensures |pools| > |old(pools)| <==> forall i :: 0 <= i < |old(pools)| ==> old(pools)[i].key != key
      ensures |pools| > |old(pools)| ==> var p := pools[|pools| - 1];
        fresh(p) && p.key == key && p.data == [] && p.version == 0 && p.connections == [client]
    {
      var i := FindPool(key);
      if i == -1 {
        var pool := new Pool(key, 0, [], [client]);
        pools := pools + [pool];
      } else {
        pools[i].connections := pools[i].connections + [client];
      }
    }

    // Close: exactly that connection leaves its pool; pools stay.
    method Close(key: string, client: Conn)
      requires Valid() && exists i :: 0 <= i < |pools| && pools[i].key == key && client in pools[i].connections
      modifies this, pools, client
      ensures Valid() && pools == old(pools) && client.closed
      ensures forall i :: 0 <= i < |pools| ==>
        && pools[i].version == old(pools[i].version) && pools[i].data == old(pools[i].data)
        && pools[i].connections ==
             if pools[i].key == key then Without(old(pools[i].connections), client) else old(pools[i].connections)
      ensures Unknown(client) && client.sent == old(client.sent)
    {
      var na: seq<Conn> := [];
      var i := FindPool(key);
      var connections := pools[i].connections;
      for j := 0 to |connections|
        invariant na == Without(connections[..j], client)
      {
        assert connections[..j + 1][..j] == connections[..j];
        if connections[j] != client {
          na := na + [connections[j]];
        }
      }
      assert connections[..|connections|] == connections;
      WithoutOne(connections, client);
      pools[i].connections := na;
      client.closed := true;
    }

    // Write: a connection whose peer is gone is closed.
    method Write(client: Conn, data: string, snapshot: bool, version: int)
      modifies client
      ensures client.alive == old(client.alive)
      ensures if client.alive then client.sent == old(client.sent) + [WriteText(data, snapshot, version)] && client.closed == old(client.closed)
              else client.sent == old(client.sent) && client.closed
    {
      if client.alive {
        client.sent := client.sent + [WriteText(data, snapshot, version)];
      } else {
        client.closed := true;
      }
    }

    // Patch: replaces the cache and says what to send for it: the data as a
    // snapshot, or the marshalled patch, and which of the two.
    method Patch(i: nat, data: Text, now: int) returns (payload: Text, snapshot: bool, version: int)
      requires i < |pools|
      modifies pools[i]
      ensures pools[i].connections == old(pools[i].connections)
      ensures pools[i].data == data && pools[i].version == now == version
      ensures Outcome(payload, snapshot) == Choose(lib, mode, old(pools[i].data), data)
      ensures snapshot ==> payload == data
      ensures mode.noPatch ==> snapshot
      ensures !mode.noPatch && !mode.forcePatch ==> |payload| <= |data|
      ensures !snapshot <==>
        && !mode.noPatch
        && var patch := lib.create(old(pools[i].data), data);
        && patch.Some? && lib.marshal(patch.value).Some?
        && (mode.forcePatch || |lib.marshal(patch.value).value| <= |data|)
      ensures !snapshot ==> payload == lib.marshal(lib.create(old(pools[i].data), data).value).value
    {
      if mode.noPatch {
        version := SetCacheAt(i, data, now);
        return data, true, version;
      }
      var patch := lib.create(pools[i].data, data);
      version := SetCacheAt(i, data, now);
      if patch.None? {
        return data, true, version;
      }
      var operations := lib.marshal(patch.value);
      if operations.None? {
        return data, true, version;
      }
      if !mode.forcePatch && |operations.value| > |data| {
        return data, true, version;
      }
      return operations.value, false, version;
    }

    method SetCacheAt(i: nat, data: Text, now: int) returns (version: int)
      requires i < |pools|
      modifies pools[i]
      ensures pools[i].connections == old(pools[i].connections)
      ensures pools[i].data == data && pools[i].version == now == version
    {
      pools[i].version := now;
      pools[i].data := data;
      return now;
    }

    // setCache: creates the pool when there is none.
    method SetCache(key: string, data: Text, now: int) returns (version: int)
      requires Valid()
      modifies this, pools
      ensures Valid() && version == now && old(pools) <= pools && |pools| <= |old(pools)| + 1
      ensures exists i :: 0 <= i < |pools| && pools[i].key == key && pools[i].data == data && pools[i].version == now
      ensures forall i :: 0 <= i < |old(pools)| ==> pools[i].connections == old(pools[i].connections)
      ensures forall i :: 0 <= i < |old(pools)| && pools[i].key != key ==>
        pools[i].data == old(pools[i].data) && pools[i].version == old(pools[i].version)
      ensures |pools| > |old(pools)| ==> pools[|old(pools)|].key == key && pools[|old(pools)|].connections == []
    {
      var i := FindPool(key);
      if i == -1 {
        var pool := new Pool(key, now, data, []);
        pools := pools + [pool];
        assert pools[|pools| - 1] == pool;
        return now;
      }
      version := SetCacheAt(i, data, now);
    }

    // The version of a cache that holds something.
    method GetCacheVersion(key: string) returns (r: Option<int>)
      requires Valid()
      ensures r.Some? <==> exists i :: 0 <= i < |pools| && pools[i].key == key && pools[i].data != []
      ensures forall i :: 0 <= i < |pools| && pools[i].key == key && pools[i].data != [] ==> r == Some(pools[i].version)
    {
      var i := FindPool(key);
      if i == -1 {
        return None;
      }
      if |pools[i].data| == 0 {
        return None;
      }
      return Some(pools[i].version);
    }

    // Refresh: freshly read data, under the version of the cache when there is
    // one (which then stays as it is), else as the new cache.
    method Refresh(path: string, get: string -> Option<Text>, now: int) returns (r: Option<Cache>)
      requires Valid()
      modifies this, pools
      ensures Valid() && (r.Some? <==> get(path).Some?) && old(pools) <= pools
      ensures r.Some? ==> r.value.data == Protocol.OrEmptyObject(get(path).value)
      ensures forall i :: 0 <= i < |old(pools)| && old(pools)[i].key == path && old(pools[i].data) != [] && r.Some? ==>
        r.value.version == old(pools[i].version) && pools == old(pools) && pools[i].data == old(pools[i].data)
      ensures r.Some? && (forall i :: 0 <= i < |old(pools)| && old(pools)[i].key == path ==> old(pools[i].data) == []) ==>
        r.value.version == now &&
        exists i :: 0 <= i < |pools| && pools[i].key == path && pools[i].data == r.value.data && pools[i].version == now
      ensures forall i :: 0 <= i < |old(pools)| && old(pools)[i].key != path ==>
        pools[i].data == old(pools[i].data) && pools[i].version == old(pools[i].version)
      ensures forall i :: 0 <= i < |old(pools)| ==> pools[i].connections == old(pools[i].connections)
      ensures |pools| <= |old(pools)| + 1
      ensures |pools| > |old(pools)| ==> pools[|old(pools)|].key == path && pools[|old(pools)|].connections == []
    {
      var result := get(path);
      if result.None? {
        return None;
      }
      var raw := Protocol.OrEmptyObject(result.value);
      var version := GetCacheVersion(path);
      if version.None? {
        var v := SetCache(path, raw, now);
        return Some(Cache(v, raw));
      }
      return Some(Cache(version.value, raw));
    }

    // broadcast: the message to every connection of the pool.
    method BroadcastTo(i: nat, data: string, snapshot: bool, version: int)
      requires Valid() && i < |pools|
      modifies pools[i].connections
      ensures forall k :: 0 <= k < |pools[i].connections| ==>
        Feed(pools[i].connections[k].alive, pools[i].connections[k].sent) ==
        Fed(Feed(old(pools[i].connections[k].alive), old(pools[i].connections[k].sent)), WriteText(data, snapshot, version))
    {
      var connections := pools[i].connections;
      for j := 0 to |connections|
        invariant forall k :: 0 <= k < j ==>
          Feed(connections[k].alive, connections[k].sent) ==
          Fed(Feed(old(connections[k].alive), old(connections[k].sent)), WriteText(data, snapshot, version))
        invariant forall k :: j <= k < |connections| ==>
          connections[k].sent == old(connections[k].sent) && connections[k].alive == old(connections[k].alive)
      {
        assert forall k :: 0 <= k < |connections| && k != j ==> connections[k] != connections[j];
        Write(connections[j], data, snapshot, version);
      }
    }

    // What a broadcast of the path has for a pool: nothing when the pool does
    // not peer with it or the read is filtered.
    ghost function News(key: string, path: string, get: string -> Option<Text>): Option<Text> {
      if Key.Peer(key, path) then get(key) else None
    }

    // One pool's turn in Broadcast.
    method BroadcastPool(i: nat, path: string, get: string -> Option<Text>, now: int, ghost after: View)
      requires Valid() && i < |pools|
      requires after == Told(lib, mode, Snap(pools[i]), News(pools[i].key, path, get), now)
      modifies pools[i], pools[i].connections
      ensures pools[i].connections == old(pools[i].connections)
      ensures Snap(pools[i]) == after
    {
      if Key.Peer(pools[i].key, path) {
        var data := get(pools[i].key);
        if data.Some? {
          var payload, snapshot, version := Patch(i, data.value, now);
          BroadcastTo(i, Encode(payload), snapshot, version);
        }
      }
    }

    // Pool 0 is the clock's and stays; every other pool has its turn, at its
    // own time.
    ghost function Turn(v: View, i: nat, path: string, get: string -> Option<Text>, clock: nat -> int): View {
      Told(lib, mode, v, if i == 0 then None else News(v.key, path, get), clock(i))
    }

    // The whole table after a broadcast.
    ghost function AllTold(views: seq<View>, path: string, get: string -> Option<Text>, clock: nat -> int): (after: seq<View>)
      ensures |after| == |views|
    {
      seq(|views|, i requires 0 <= i < |views| => Turn(views[i], i, path, get, clock))
    }

    // The views of all pools but one.
    twostate lemma OthersStay(i: nat)
      requires old(Valid()) && pools == old(pools) && i < |pools|
      requires forall p <- pools :: p != pools[i] ==> unchanged(p)
      requires forall c <- old(ConnsOf(pools)) :: c !in old(pools[i].connections) ==> unchanged(c)
      ensures forall j :: 0 <= j < |pools| && j != i ==> Snap(pools[j]) == old(Snap(pools[j]))
      ensures forall j :: 0 <= j < |pools| && j != i ==> pools[j].connections == old(pools[j].connections)
    {
      forall j | 0 <= j < |pools| && j != i
        ensures Snap(pools[j]) == old(Snap(pools[j]))
        ensures pools[j].connections == old(pools[j].connections)
      {
        assert old(pools[j] != pools[i]) && pools[j] in pools;
        assert unchanged(pools[j]);
        forall c | c in pools[j].connections ensures unchanged(c) {
          assert c in old(ConnsOf(pools));
        }
        FeedsStay(pools[j].connections);
      }
    }

    // The loop's body: pool i passes from before its turn to after it.
    method InTurn(i: nat, path: string, get: string -> Option<Text>, now: int, ghost before: seq<View>, ghost after: seq<View>)
      requires Valid() && i < |pools| == |before| == |after| && Passed(before, after, i)
      requires after[i] == Told(lib, mode, before[i], News(before[i].key, path, get), now)
      modifies pools[i], pools[i].connections
      ensures Passed(before, after, i + 1) && Valid()
      ensures forall j :: 0 <= j < |pools| ==> pools[j].connections == old(pools[j].connections)
    {
      BroadcastPool(i, path, get, now, after[i]);
      OthersStay(i);
    }

    ghost predicate Passed(before: seq<View>, after: seq<View>, i: nat)
      reads this, pools, ConnsOf(pools)
    {
      |before| == |after| == |pools| &&
      forall j :: 0 <= j < |pools| ==> SnapOf(j) == if j < i then after[j] else before[j]
    }

    ghost function SnapOf(j: nat): View
      requires j < |pools|
      reads this, pools, ConnsOf(pools)
    {
      assert forall c <- pools[j].connections :: c in ConnsOf(pools);
      Snap(pools[j])
    }

    // The second pool's turn is the first: the clock's pool stays.
    lemma ClockPassed(before: seq<View>, path: string, get: string -> Option<Text>, clock: nat -> int)
      requires |before| == |pools| && forall j :: 0 <= j < |pools| ==> before[j] == SnapOf(j)
      ensures Passed(before, AllTold(before, path, get, clock), 1)
    {
    }

    // Broadcast.  No connection is added, removed or moved.
    method Broadcast(path: string, get: string -> Option<Text>, clock: nat -> int)
      requires Valid()
      modifies pools, ConnsOf(pools)
      ensures Valid() && pools == old(pools)
      ensures forall i :: 0 <= i < |pools| ==> pools[i].connections == old(pools[i].connections)
      ensures Views(pools) == AllTold(old(Views(pools)), path, get, clock)
    {
      ghost var before := Views(pools);
      ghost var after := AllTold(before, path, get, clock);
      ClockPassed(before, path, get, clock);
      var i := 1;
      while i < |pools|
        invariant 1 <= i && pools == old(pools) && Valid()
        invariant forall j :: 0 <= j < |pools| ==> pools[j].connections == old(pools[j].connections)
        invariant Passed(before, after, i)
      {
        assert forall c :: c in pools[i].connections ==> c in old(ConnsOf(pools));
        assert after[i] == Turn(before[i], i, path, get, clock);
        InTurn(i, path, get, clock(i), before, after);
        i := i + 1;
      }
      AllPassed(before, after, i);
    }

    lemma AllPassed(before: seq<View>, after: seq<View>, i: nat)
      requires Passed(before, after, i) && i >= |pools|
      ensures Views(pools) == after
    {
    }
  }
}
