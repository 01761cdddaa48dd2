// filters.go, with the parts of katamari.go and ws.go that route through it:
// which filter applies to a key, and what static mode lets out.
module Filters {
  import opened Common
  import opened Text
  import Json
  import Key
  import Messages
  import Numerals
  import Protocol
  import Stream

  datatype Route<+A> = Route(path: string, apply: A)

  type Apply = (string, Text) -> Result<Text>
  type ApplyDelete = string -> Result<()>

  predicate Serves(route: string, path: string) {
    route == path || Key.Match(route, path)
  }

  // The filter in charge of a path: the first registered that serves it.
  predicate InCharge<A>(routes: seq<Route<A>>, path: string, i: nat) {
    && i < |routes| && Serves(routes[i].path, path)
    && forall j :: 0 <= j < i ==> !Serves(routes[j].path, path)
  }

  predicate Defined<A>(routes: seq<Route<A>>, path: string) {
    exists i :: 0 <= i < |routes| && Serves(routes[i].path, path)
  }

  // The loop each check begins with.
  method FindRoute<A>(routes: seq<Route<A>>, path: string) returns (index: int)
    ensures index == -1 <==> !Defined(routes, path)
    ensures index != -1 ==> 0 <= index && InCharge(routes, path, index)
  {
    index := -1;
    for i := 0 to |routes|
      invariant index == -1 && forall j :: 0 <= j < i ==> !Serves(routes[j].path, path)
    {
      if routes[i].path == path || Key.Match(routes[i].path, path) {
        index := i;
        break;
      }
    }
  }

  function RouteNotDefined(path: string): string {
    "route not defined, static mode, key:" + path
  }

  // router.check: the data as the filter in charge returns it; without one, an
  // error in static mode and the data as it is otherwise.
  method Check(routes: seq<Route<Apply>>, path: string, data: Text, staticMode: bool) returns (r: Result<Text>)
    ensures !Defined(routes, path) ==> r == if staticMode then Err(RouteNotDefined(path)) else Ok(data)
    ensures forall i: nat :: InCharge(routes, path, i) ==> r == routes[i].apply(path, data)
  {
    var index := FindRoute(routes, path);
    if index == -1 && !staticMode {
      return Ok(data);
    }
    if index == -1 && staticMode {
      return Err(RouteNotDefined(path));
    }
    return routes[index].apply(path, data);
  }

  // router.checkStatic: the same refusal, without applying anything.
  method CheckStatic(routes: seq<Route<Apply>>, path: string, staticMode: bool) returns (r: Result<()>)
    ensures r.Err? <==> staticMode && !Defined(routes, path)
    ensures r.Err? ==> r == Err(RouteNotDefined(path))
  {
    var index := FindRoute(routes, path);
    if index == -1 && staticMode {
      return Err(RouteNotDefined(path));
    }
    return Ok(());
  }

  // hooks.check.
  method CheckDelete(routes: seq<Route<ApplyDelete>>, path: string, staticMode: bool) returns (r: Result<()>)
    ensures !Defined(routes, path) ==> r == if staticMode then Err(RouteNotDefined(path)) else Ok(())
    ensures forall i: nat :: InCharge(routes, path, i) ==> r == routes[i].apply(path)
  {
    var index := FindRoute(routes, path);
    if index == -1 && !staticMode {
      return Ok(());
    }
    if index == -1 && staticMode {
      return Err(RouteNotDefined(path));
    }
    return routes[index].apply(path);
  }

  // watchers.check: which watcher is notified.
  method CheckAfter<A>(routes: seq<Route<A>>, path: string) returns (notified: Option<Route<A>>)
    ensures notified.None? <==> !Defined(routes, path)
    ensures forall i: nat :: InCharge(routes, path, i) ==> notified == Some(routes[i])
  {
    var index := FindRoute(routes, path);
    if index == -1 {
      return None;
    }
    return Some(routes[index]);
  }

  lemma ChargeIsUnique<A>(routes: seq<Route<A>>, path: string, i: nat, j: nat)
    requires InCharge(routes, path, i) && InCharge(routes, path, j)
    ensures i == j
  {
  }

  lemma {:induction false} DefinedHasCharge<A>(routes: seq<Route<A>>, path: string) returns (i: nat)
    requires Defined(routes, path)
    ensures InCharge(routes, path, i)
  {
    var n: nat :| n < |routes| && Serves(routes[n].path, path);
    i := 0;
    while !Serves(routes[i].path, path)
      invariant i <= n && forall j :: 0 <= j < i ==> !Serves(routes[j].path, path)
      decreases n - i
    {
      i := i + 1;
    }
  }

  // Whatever is registered later, a path keeps its filter: registrations only
  // append.
  lemma RegistrationsKeepCharge<A>(routes: seq<Route<A>>, later: seq<Route<A>>, path: string)
    requires Defined(routes, path)
    ensures Defined(routes + later, path)
    ensures forall i: nat :: InCharge(routes + later, path, i) <==> InCharge(routes, path, i)
  {
    var n := DefinedHasCharge(routes, path);
    assert forall j :: 0 <= j < |routes| ==> (routes + later)[j] == routes[j];
    assert InCharge(routes + later, path, n);
    forall i: nat | InCharge(routes + later, path, i) ensures InCharge(routes, path, i) {
      ChargeIsUnique(routes + later, path, i, n);
    }
  }

  // And a glob serves every key of the globs it serves: no key of a defined list
  // is undefined.
  lemma ListRouteServesEntries<A>(routes: seq<Route<A>>, path: string, key: string)
    requires Defined(routes, path) && Key.Match(path, key)
    ensures Defined(routes, key)
  {
    var i :| 0 <= i < |routes| && Serves(routes[i].path, path);
    if routes[i].path != path {
      Key.MatchTransitive(routes[i].path, path, key, false);
    }
    assert Serves(routes[i].path, key);
  }

  // check, as a function of its inputs.
  function Checked(routes: seq<Route<Apply>>, path: string, data: Text, staticMode: bool): (r: Result<Text>)
    ensures !Defined(routes, path) ==> r == if staticMode then Err(RouteNotDefined(path)) else Ok(data)
    ensures forall i: nat :: InCharge(routes, path, i) ==> r == routes[i].apply(path, data)
  {
    if routes == [] then (if staticMode then Err(RouteNotDefined(path)) else Ok(data))
    else if Serves(routes[0].path, path) then routes[0].apply(path, data)
    else
      assert forall i: nat :: InCharge(routes, path, i) ==> i > 0 && InCharge(routes[1..], path, i - 1);
      assert Defined(routes[1..], path) ==> Defined(routes, path) by {
        if Defined(routes[1..], path) {
          var j :| 0 <= j < |routes[1..]| && Serves(routes[1..][j].path, path);
          assert Serves(routes[j + 1].path, path);
        }
      }
      Checked(routes[1..], path, data, staticMode)
  }

  // What getFilteredData answers, given what the storage holds for each key.
  function FilteredData(routes: seq<Route<Apply>>, staticMode: bool, stored: string -> Text): string -> Option<Text> {
    key =>
      match Checked(routes, key, Protocol.OrEmptyObject(stored(key)), staticMode)
      case Ok(data) => Some(data)
      case Err(_) => None
  }

  // The answer is what the filter in charge makes of the stored text, or of the
  // empty object when nothing is stored, unless it refuses; with no filter in
  // charge it is that text itself, except in static mode.
  lemma AnswerIsFiltered(routes: seq<Route<Apply>>, staticMode: bool, stored: string -> Text, key: string)
    ensures var answer := FilteredData(routes, staticMode, stored)(key);
      var text := if stored(key) == [] then Protocol.EMPTY_OBJECT else stored(key);
      && (forall i: nat :: InCharge(routes, key, i) ==>
            match routes[i].apply(key, text) case Ok(data) => answer == Some(data) case Err(_) => answer == None)
      && ((forall i: nat :: i < |routes| ==> !Serves(routes[i].path, key)) ==> answer == if staticMode then None else Some(text))
  {
    if Defined(routes, key) {
      var i: nat :| i < |routes| && Serves(routes[i].path, key);
    }
  }

  // What is fetched: what the filter in charge makes of the stored text, or of the
  // empty object when nothing is stored, and nothing exactly when it refuses; with
  // no filter in charge that text itself, and in static mode nothing.  Where the
  // filter leaves no text the empty object stands in again.
  ghost predicate AsFiltered(routes: seq<Route<Apply>>, staticMode: bool, stored: string -> Text, key: string, entry: Option<Stream.Cache>) {
    var text := if stored(key) == [] then Protocol.EMPTY_OBJECT else stored(key);
    && (forall i: nat :: InCharge(routes, key, i) ==>
          match routes[i].apply(key, text)
          case Ok(data) => entry.Some? && entry.value.data == (if data == [] then Protocol.EMPTY_OBJECT else data)
          case Err(_) => entry.None?)
    && ((forall i: nat :: i < |routes| ==> !Serves(routes[i].path, key)) ==>
          if staticMode then entry.None? else entry.Some? && entry.value.data == text)
  }

  lemma UndefinedHasNoAnswer(routes: seq<Route<Apply>>, staticMode: bool, stored: string -> Text, key: string)
    ensures staticMode && !Defined(routes, key) ==> FilteredData(routes, staticMode, stored)(key).None?
  {
    AnswerIsFiltered(routes, staticMode, stored, key);
  }

  lemma EntryIsFiltered(routes: seq<Route<Apply>>, staticMode: bool, stored: string -> Text, key: string, entry: Option<Stream.Cache>)
    requires entry.Some? <==> FilteredData(routes, staticMode, stored)(key).Some?
    requires entry.Some? ==> entry.value.data == Protocol.OrEmptyObject(FilteredData(routes, staticMode, stored)(key).value)
    ensures AsFiltered(routes, staticMode, stored, key, entry)
  {
    AnswerIsFiltered(routes, staticMode, stored, key);
  }

  // So it is with what a broadcast of a path has for a pool that peers with it.
  lemma NewsIsFiltered(routes: seq<Route<Apply>>, staticMode: bool, stored: string -> Text, key: string, path: string, s: Stream.Stream)
    requires Key.Peer(key, path)
    ensures var news := s.News(key, path, FilteredData(routes, staticMode, stored));
      var text := if stored(key) == [] then Protocol.EMPTY_OBJECT else stored(key);
      && (forall i: nat :: InCharge(routes, key, i) ==>
            match routes[i].apply(key, text) case Ok(data) => news == Some(data) case Err(_) => news == None)
      && ((forall i: nat :: i < |routes| ==> !Serves(routes[i].path, key)) ==> news == if staticMode then None else Some(text))
  {
    AnswerIsFiltered(routes, staticMode, stored, key);
  }

  // A broadcast in static mode has news only for pools whose route is defined.
  lemma BroadcastsStayOnRoutes(routes: seq<Route<Apply>>, stored: string -> Text, key: string, path: string, s: Stream.Stream)
    requires s.News(key, path, FilteredData(routes, true, stored)).Some?
    ensures Defined(routes, key)
  {
    assert Checked(routes, key, Protocol.OrEmptyObject(stored(key)), true).Ok?;
  }

  // The message a subscription begins with, if any.
  function Greeting(entry: Option<Stream.Cache>, version: string, alive: bool): seq<string> {
    if entry.Some? && alive && version != Numerals.FormatInt(entry.value.version)
    then [Messages.Wire(Messages.Frame(entry.value.data, true, entry.value.version))] else []
  }

  // Nothing was sent to a client that is gone or presented the version; to every
  // other one message that leaves it with the data, whatever cache it brought along.
  ghost predicate Greeted(before: seq<string>, sent: seq<string>, entry: Option<Stream.Cache>, version: string, alive: bool) {
    && (entry.None? || !alive || version == Numerals.FormatInt(entry.value.version) ==> sent == before)
    && (entry.Some? && alive && version != Numerals.FormatInt(entry.value.version) ==>
          && |sent| == |before| + 1 && sent[..|before|] == before
          && forall lib: Json.Library, cache: Text ::
               Messages.PatchCache(lib, sent[|before|], cache) == Messages.Patched(Trim(entry.value.data), false))
  }

  lemma GreetingTells(before: seq<string>, sent: seq<string>, entry: Option<Stream.Cache>, version: string, alive: bool)
    requires sent == before + Greeting(entry, version, alive)
    ensures Greeted(before, sent, entry, version, alive)
  {
    if entry.Some? {
      Messages.WireRoundTrip(Messages.Frame(entry.value.data, true, entry.value.version));
    }
  }

  // A route opened for a path that no earlier one serves lets all data through.
  lemma OpenedRoutePasses(routes: seq<Route<Apply>>, name: string, path: string, data: Text, staticMode: bool)
    requires Serves(name, path) && !Defined(routes, path)
    ensures Checked(routes + [Route(name, NoopFilter)], path, data, staticMode) == Ok(data)
  {
    var all := routes + [Route(name, NoopFilter)];
    assert forall j :: 0 <= j < |routes| ==> all[j] == routes[j];
    assert InCharge(all, path, |routes|);
  }

  function NoopFilter(key: string, data: Text): Result<Text> {
    Ok(data)
  }

  function NoopHook(key: string): Result<()> {
    Ok(())
  }

  class Server {
    const staticMode: bool
    const stream: Stream.Stream
    var write: seq<Route<Apply>>
    var read: seq<Route<Apply>>
    var delete: seq<Route<ApplyDelete>>

    constructor (staticMode: bool, stream: Stream.Stream)
      ensures this.staticMode == staticMode && this.stream == stream && write == read == [] && delete == []
    {
      this.staticMode, this.stream, write, read, delete := staticMode, stream, [], [], [];
    }

    method ReadFilter(path: string, apply: Apply)
      modifies this`read
      ensures read == old(read) + [Route(path, apply)]
    {
      read := read + [Route(path, apply)];
    }

    method WriteFilter(path: string, apply: Apply)
      modifies this`write
      ensures write == old(write) + [Route(path, apply)]
    {
      write := write + [Route(path, apply)];
    }

    method DeleteFilter(path: string, apply: ApplyDelete)
      modifies this`delete
      ensures delete == old(delete) + [Route(path, apply)]
    {
      delete := delete + [Route(path, apply)];
    }

    method OpenFilter(name: string)
      modifies this
      ensures write == old(write) + [Route(name, NoopFilter)] && read == old(read) + [Route(name, NoopFilter)]
      ensures delete == old(delete) + [Route(name, NoopHook)]
      ensures forall path, data :: NoopFilter(path, data) == Ok(data)
      ensures forall path :: NoopHook(path) == Ok(())
    {
      WriteFilter(name, NoopFilter);
      ReadFilter(name, NoopFilter);
      DeleteFilter(name, NoopHook);
    }

    // In static mode every pool but the clock's is one of a defined read route.
    ghost predicate OnRoutes()
      reads this, stream, stream.pools
    {
      staticMode ==> forall i :: 1 <= i < |stream.pools| ==> Defined(read, stream.pools[i].key)
    }

    // What fetch does, for any way of getting the data that has none for a route
    // that is not defined in static mode.
    method FetchBy(key: string, get: string -> Option<Text>, now: int) returns (entry: Option<Stream.Cache>)
      requires stream.Valid() && stream.pools != [] && OnRoutes()
      requires staticMode && !Defined(read, key) ==> get(key).None?
      modifies stream, stream.pools
      ensures stream.Valid() && stream.pools != [] && OnRoutes()
      ensures entry.Some? <==> get(key).Some?
      ensures entry.Some? ==> entry.value.data == Protocol.OrEmptyObject(get(key).value)
      ensures old(stream.pools) <= stream.pools
      ensures forall i :: 0 <= i < |old(stream.pools)| ==> stream.pools[i].connections == old(stream.pools[i].connections)
      ensures entry.Some? ==> forall i :: 0 <= i < |old(stream.pools)| && old(stream.pools)[i].key == key ==>
        entry.value.version == if old(stream.pools[i].data) != [] then old(stream.pools[i].version) else now
    {
      var undefined := CheckStatic(read, key, staticMode);
      if undefined.Err? {
        return None;
      }
      entry := stream.Refresh(key, get, now);
    }

    // fetch: the current data under the pool's version.
    method Fetch(key: string, stored: string -> Text, now: int) returns (entry: Option<Stream.Cache>)
      requires stream.Valid() && stream.pools != [] && OnRoutes()
      modifies stream, stream.pools
      ensures stream.Valid() && stream.pools != [] && OnRoutes()
      ensures AsFiltered(read, staticMode, stored, key, entry)
      ensures old(stream.pools) <= stream.pools
      ensures forall i :: 0 <= i < |old(stream.pools)| ==> stream.pools[i].connections == old(stream.pools[i].connections)
      ensures entry.Some? ==> forall i :: 0 <= i < |old(stream.pools)| && old(stream.pools)[i].key == key ==>
        entry.value.version == if old(stream.pools[i].data) != [] then old(stream.pools[i].version) else now
    {
      var get := FilteredData(read, staticMode, stored);
      UndefinedHasNoAnswer(read, staticMode, stored, key);
      entry := FetchBy(key, get, now);
      EntryIsFiltered(read, staticMode, stored, key, entry);
    }

    method Join(key: string, client: Stream.Conn) returns (ghost i: nat)
      requires stream.Valid() && stream.pools != [] && stream.Unknown(client) && OnRoutes()
      requires staticMode ==> Defined(read, key)
      modifies stream, stream.pools
      ensures stream.Valid() && stream.pools != [] && OnRoutes()
      ensures i < |stream.pools| && stream.pools[i].key == key && client in stream.pools[i].connections
      ensures if i < |old(stream.pools)|
              then stream.pools[i] == old(stream.pools)[i] && stream.pools[i].data == old(stream.pools[i].data)
                   && stream.pools[i].version == old(stream.pools[i].version)
              else stream.pools[i].data == [] && forall j :: 0 <= j < |old(stream.pools)| ==> old(stream.pools)[j].key != key
      ensures forall p <- stream.pools :: p in old(stream.pools) || fresh(p)
    {
      stream.Register(key, client);
      i :| i < |stream.pools| && stream.pools[i].key == key && client in stream.pools[i].connections;
    }

    method Greet(client: Stream.Conn, entry: Stream.Cache, version: string)
      modifies client
      ensures client.alive == old(client.alive) && client.sent == old(client.sent) + Greeting(Some(entry), version, client.alive)
      ensures Greeted(old(client.sent), client.sent, Some(entry), version, client.alive)
    {
      ghost var before := client.sent;
      if version != Numerals.FormatInt(entry.version) {
        stream.Write(client, Messages.Encode(entry.data), true, entry.version);
      }
      GreetingTells(before, client.sent, Some(entry), version, client.alive);
    }

    // The rest of ws once the connection is in pool i.
    method Serve(key: string, version: string, client: Stream.Conn, stored: string -> Text, now: int, ghost i: nat)
      returns (entry: Option<Stream.Cache>)
      requires stream.Valid() && OnRoutes()
      requires i < |stream.pools| && stream.pools[i].key == key && client in stream.pools[i].connections
      modifies stream, stream.pools, client
      ensures stream.Valid() && OnRoutes()
      ensures i < |stream.pools| && stream.pools[i].key == key && client in stream.pools[i].connections
      ensures AsFiltered(read, staticMode, stored, key, entry)
      ensures entry.Some? ==> entry.value.version == if old(stream.pools[i].data) != [] then old(stream.pools[i].version) else now
      ensures client.alive == old(client.alive) && client.sent == old(client.sent) + Greeting(entry, version, client.alive)
      ensures Greeted(old(client.sent), client.sent, entry, version, client.alive)
    {
      entry := Fetch(key, stored, now);
      assert stream.pools[i] == old(stream.pools)[i];
      if entry.Some? {
        Greet(client, entry.value, version);
      }
    }

    // ws, up to its read loop, with nobody else at work: the connection joins its
    // pool and is sent what was read, unless it says it has that version. When
    // the read is refused it stays in the pool.
    method Ws(key: string, version: string, client: Stream.Conn, stored: string -> Text, now: int) returns (entry: Option<Stream.Cache>)
      requires stream.Valid() && stream.pools != [] && stream.Unknown(client) && OnRoutes()
      modifies stream, stream.pools, client
      ensures stream.Valid() && OnRoutes()
      ensures staticMode && !Defined(read, key) ==>
        entry.None? && unchanged(stream) && unchanged(stream.pools) && unchanged(client)
      ensures !(staticMode && !Defined(read, key)) ==>
        exists i :: 0 <= i < |stream.pools| && stream.pools[i].key == key && client in stream.pools[i].connections
      ensures AsFiltered(read, staticMode, stored, key, entry)
      ensures entry.Some? ==> forall i :: 0 <= i < |old(stream.pools)| && old(stream.pools)[i].key == key && old(stream.pools[i].data) != [] ==>
        entry.value.version == old(stream.pools[i].version)
      ensures entry.Some? && (forall i :: 0 <= i < |old(stream.pools)| && old(stream.pools)[i].key == key ==> old(stream.pools[i].data) == []) ==>
        entry.value.version == now
      ensures client.alive == old(client.alive) && client.sent == old(client.sent) + Greeting(entry, version, client.alive)
      ensures Greeted(old(client.sent), client.sent, entry, version, client.alive)
    {
      var undefined := CheckStatic(read, key, staticMode);
      if undefined.Err? {
        UndefinedHasNoAnswer(read, staticMode, stored, key);
        EntryIsFiltered(read, staticMode, stored, key, None);
        return None;
      }
      ghost var i := Join(key, client);
      assert forall k :: 0 <= k < |stream.pools| ==> stream.pools[k] in old(stream.pools) || fresh(stream.pools[k]);
      entry := Serve(key, version, client, stored, now, i);
    }
  }
}
