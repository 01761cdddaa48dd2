// client/subscribe.go: the receive loop, which carries its cache over messages
// and reconnections.
module Client {
  import opened Common
  import opened Text
  import opened Json
  import opened Messages
  import opened Patching
  import Numerals

  // How a cache is read: as a list of objects or as one, and each object's data
  // as a value of the subscriber's type.
  datatype Reader<!O, +T> = Reader(isList: bool, list: Text -> Option<seq<O>>, one: Text -> Option<O>, item: O -> Option<T>)

  // The values of those objects that have one.
  function Items<O, T>(reader: Reader<O, T>, objects: seq<O>): seq<T> {
    if objects == [] then []
    else
      var rest := Items(reader, objects[..|objects| - 1]);
      match reader.item(objects[|objects| - 1])
      case None => rest
      case Some(item) => rest + [item]
  }

  // What the subscriber is shown for a cache; none when it cannot be read.
  function View<O, T>(reader: Reader<O, T>, cache: Text): Option<seq<T>> {
    if reader.isList then
      match reader.list(cache)
      case None => None
      case Some(objects) => Some(Items(reader, objects))
    else
      match reader.one(cache)
      case None => None
      case Some(o) =>
        match reader.item(o)
        case None => None
        case Some(item) => Some([item])
  }

  // What one connection's messages leave in the cache, and the callbacks made: it
  // is given up at the first message that fails or leaves an unreadable cache.
  function Session<O, T>(lib: Library, reader: Reader<O, T>, messages: seq<string>, cache: Text): (Text, seq<seq<T>>) {
    if messages == [] then (cache, [])
    else
      var p := PatchCache(lib, messages[0], cache);
      if p.failed then (p.cache, [])
      else
        match View(reader, p.cache)
        case None => (p.cache, [])
        case Some(view) =>
          var (last, views) := Session(lib, reader, messages[1..], p.cache);
          (last, [view] + views)
  }

  function Sessions<O, T>(lib: Library, reader: Reader<O, T>, sessions: seq<seq<string>>, cache: Text): (Text, seq<seq<T>>) {
    if sessions == [] then (cache, [])
    else
      var (left, views) := Session(lib, reader, sessions[0], cache);
      var (last, later) := Sessions(lib, reader, sessions[1..], left);
      (last, views + later)
  }

  // The result of one message: of a list, which is readable exactly when it
  // decodes, the values of the objects that have one, in the list's order (shown
  // names their places); of a single object its one value, or nothing.
  method Read<O, T>(reader: Reader<O, T>, cache: Text) returns (view: Option<seq<T>>, ghost shown: seq<nat>)
    ensures view == View(reader, cache)
    ensures reader.isList ==> (view.Some? <==> reader.list(cache).Some?)
    ensures reader.isList && view.Some? ==> var objects := reader.list(cache).value;
      && |view.value| == |shown|
      && (forall j, k :: 0 <= j < k < |shown| ==> shown[j] < shown[k])
      && (forall k :: 0 <= k < |shown| ==> shown[k] < |objects| && reader.item(objects[shown[k]]) == Some(view.value[k]))
      && (forall i :: 0 <= i < |objects| && reader.item(objects[i]).Some? ==> i in shown)
    ensures !reader.isList ==> (view.Some? <==> reader.one(cache).Some? && reader.item(reader.one(cache).value).Some?)
    ensures !reader.isList && view.Some? ==> view.value == [reader.item(reader.one(cache).value).value]
  {
    var result: seq<T> := [];
    shown := [];
    if reader.isList {
      var objects := reader.list(cache);
      if objects.None? {
        return None, [];
      }
      for i := 0 to |objects.value|
        invariant result == Items(reader, objects.value[..i])
        invariant |result| == |shown| && forall j, k :: 0 <= j < k < |shown| ==> shown[j] < shown[k]
        invariant forall k :: 0 <= k < |shown| ==> shown[k] < i && reader.item(objects.value[shown[k]]) == Some(result[k])
        invariant forall j :: 0 <= j < i && reader.item(objects.value[j]).Some? ==> j in shown
      {
        assert objects.value[..i + 1][..i] == objects.value[..i];
        var item := reader.item(objects.value[i]);
        if item.None? {
          continue;
        }
        result := result + [item.value];
        shown := shown + [i];
      }
      assert objects.value[..|objects.value|] == objects.value;
      return Some(result), shown;
    }
    var o := reader.one(cache);
    if o.None? {
      return None, [];
    }
    var item := reader.item(o.value);
    if item.None? {
      return None, [];
    }
    return Some([item.value]), [];
  }

  // Each of the first messages is patched into the cache that the one before it
  // left, and shown.
  ghost predicate Shows<O, T>(lib: Library, reader: Reader<O, T>, messages: seq<string>, held: seq<Text>, callbacks: seq<seq<T>>) {
    && |callbacks| <= |messages| && |held| == |callbacks| + 1
    && forall k :: 0 <= k < |callbacks| ==>
         PatchCache(lib, messages[k], held[k]) == Patched(held[k + 1], false) && View(reader, held[k + 1]) == Some(callbacks[k])
  }

  lemma ShowsOneMore<O, T>(lib: Library, reader: Reader<O, T>, messages: seq<string>, held: seq<Text>, callbacks: seq<seq<T>>,
                           cache: Text, view: seq<T>)
    requires Shows(lib, reader, messages, held, callbacks) && |callbacks| < |messages|
    requires PatchCache(lib, messages[|callbacks|], held[|callbacks|]) == Patched(cache, false) && View(reader, cache) == Some(view)
    ensures Shows(lib, reader, messages, held + [cache], callbacks + [view])
  {
  }

  // The message that ends a connection leaves the cache.
  ghost predicate Ends<O, T>(lib: Library, reader: Reader<O, T>, message: string, before: Text, cache: Text) {
    var p := PatchCache(lib, message, before);
    cache == p.cache && (p.failed || View(reader, p.cache).None?)
  }

  lemma {:induction false} ShownIsSession<O, T>(lib: Library, reader: Reader<O, T>, messages: seq<string>, held: seq<Text>,
                                                callbacks: seq<seq<T>>, cache: Text)
    requires Shows(lib, reader, messages, held, callbacks)
    requires if |callbacks| == |messages| then cache == held[|callbacks|]
             else Ends(lib, reader, messages[|callbacks|], held[|callbacks|], cache)
    ensures Session(lib, reader, messages, held[0]) == (cache, callbacks)
    decreases |messages|
  {
    if callbacks != [] {
      var rest: seq<seq<T>> := callbacks[1..];
      forall k | 0 <= k < |rest|
        ensures PatchCache(lib, messages[1..][k], held[1..][k]) == Patched(held[1..][k + 1], false)
        ensures View(reader, held[1..][k + 1]) == Some(rest[k])
      {
        assert messages[1..][k] == messages[k + 1] && held[1..][k] == held[k + 1] && rest[k] == callbacks[k + 1];
      }
      ShownIsSession(lib, reader, messages[1..], held[1..], rest, cache);
      assert callbacks == [callbacks[0]] + rest;
    }
  }

  // The inner loop of Subscribe, on one connection. Each message is patched into
  // the cache that the one before it left (held names them), and shown; the
  // first that fails, or leaves what cannot be read, is the last.
  method Receives<O, T>(lib: Library, reader: Reader<O, T>, messages: seq<string>, carried: Text)
    returns (cache: Text, callbacks: seq<seq<T>>, ghost held: seq<Text>)
    ensures (cache, callbacks) == Session(lib, reader, messages, carried)
    ensures |callbacks| <= |messages| && |held| == |callbacks| + 1 && held[0] == carried
    ensures forall k :: 0 <= k < |callbacks| ==>
      PatchCache(lib, messages[k], held[k]) == Patched(held[k + 1], false) && View(reader, held[k + 1]) == Some(callbacks[k])
    ensures |callbacks| == |messages| ==> cache == held[|callbacks|]
    ensures |callbacks| < |messages| ==> var p := PatchCache(lib, messages[|callbacks|], held[|callbacks|]);
      cache == p.cache && (p.failed || View(reader, p.cache).None?)
  {
    cache, callbacks, held := carried, [], [carried];
    var j := 0;
    while j < |messages|
      invariant j == |callbacks| && Shows(lib, reader, messages, held, callbacks) && held[0] == carried && held[j] == cache
    {
      var p := PatchCache(lib, messages[j], cache);
      cache := p.cache;
      if p.failed {
        break;
      }
      var view, _ := Read(reader, cache);
      if view.None? {
        break;
      }
      ShowsOneMore(lib, reader, messages, held, callbacks, cache, view.value);
      callbacks, held := callbacks + [view.value], held + [cache];
      j := j + 1;
    }
    ShownIsSession(lib, reader, messages, held, callbacks, cache);
  }

  lemma {:induction false} ConcatGrows<T>(parts: seq<seq<T>>, last: seq<T>)
    ensures Concat(parts + [last]) == Concat(parts) + last
    decreases |parts|
  {
    if parts == [] {
      assert ([] + [last])[1..] == [];
    } else {
      assert (parts + [last])[1..] == parts[1..] + [last];
      ConcatGrows(parts[1..], last);
    }
  }

  // Every connection begins with the cache that the one before it left.
  ghost predicate Carries<O, T>(lib: Library, reader: Reader<O, T>, sessions: seq<seq<string>>, carried: seq<Text>,
                                parts: seq<seq<seq<T>>>)
  {
    && |carried| == |sessions| + 1 && |parts| == |sessions|
    && forall i :: 0 <= i < |sessions| ==> Session(lib, reader, sessions[i], carried[i]) == (carried[i + 1], parts[i])
  }

  lemma {:induction false} CarriedIsSessions<O, T>(lib: Library, reader: Reader<O, T>, sessions: seq<seq<string>>,
                                                   carried: seq<Text>, parts: seq<seq<seq<T>>>)
    requires Carries(lib, reader, sessions, carried, parts)
    ensures Sessions(lib, reader, sessions, carried[0]) == (carried[|sessions|], Concat(parts))
    decreases |sessions|
  {
    if sessions != [] {
      CarriedIsSessions(lib, reader, sessions[1..], carried[1..], parts[1..]);
    }
  }

  // Subscribe, given the messages that each of its connections delivers before
  // it breaks, up to the closing of the last. Every connection begins with the
  // cache that the one before it left (carried names them), the first with none.
  method Subscribe<O, T>(lib: Library, reader: Reader<O, T>, sessions: seq<seq<string>>)
    returns (cache: Text, callbacks: seq<seq<T>>, ghost carried: seq<Text>, ghost parts: seq<seq<seq<T>>>)
    ensures (cache, callbacks) == Sessions(lib, reader, sessions, [])
    ensures |carried| == |sessions| + 1 && carried[0] == [] && carried[|sessions|] == cache
    ensures |parts| == |sessions| && callbacks == Concat(parts)
    ensures forall i :: 0 <= i < |sessions| ==> Session(lib, reader, sessions[i], carried[i]) == (carried[i + 1], parts[i])
  {
    cache, callbacks, carried, parts := [], [], [[]], [];
    for i := 0 to |sessions|
      invariant Carries(lib, reader, sessions[..i], carried, parts) && carried[0] == [] && carried[i] == cache
      invariant callbacks == Concat(parts)
    {
      var views: seq<seq<T>>;
      ghost var held: seq<Text>;
      cache, views, held := Receives(lib, reader, sessions[i], cache);
      ConcatGrows(parts, views);
      CarryOn(lib, reader, sessions[..i], carried, parts, sessions[i], cache, views);
      assert sessions[..i + 1] == sessions[..i] + [sessions[i]];
      callbacks, carried, parts := callbacks + views, carried + [cache], parts + [views];
    }
    assert sessions[..|sessions|] == sessions;
    CarriedIsSessions(lib, reader, sessions, carried, parts);
  }

  lemma CarryOn<O, T>(lib: Library, reader: Reader<O, T>, sessions: seq<seq<string>>, carried: seq<Text>, parts: seq<seq<seq<T>>>,
                      messages: seq<string>, cache: Text, views: seq<seq<T>>)
    requires Carries(lib, reader, sessions, carried, parts)
    requires Session(lib, reader, messages, carried[|sessions|]) == (cache, views)
    ensures Carries(lib, reader, sessions + [messages], carried + [cache], parts + [views])
  {
  }

  // -------------------------------------------------------------- reconnection

  // The subscriber dials without naming a version, so that the server begins with
  // a snapshot; it makes the cache carried over immaterial.
  lemma SnapshotForgets<O, T>(lib: Library, reader: Reader<O, T>, data: Text, version: int, messages: seq<string>, cache: Text, other: Text)
    requires messages != [] && messages[0] == Wire(Frame(data, true, version))
    ensures Session(lib, reader, messages, cache) == Session(lib, reader, messages, other)
  {
    ReceiveIsPatchCache(lib, Frame(data, true, version), cache);
    ReceiveIsPatchCache(lib, Frame(data, true, version), other);
  }

  // A patch that does not apply is seen: nothing more is shown on the connection,
  // and its cache goes over to the next as it was.
  lemma OutOfStepEnds<O, T>(lib: Library, reader: Reader<O, T>, f: Frame, messages: seq<string>, cache: Text)
    requires messages != [] && messages[0] == Wire(f) && !f.snapshot && Trim(f.payload) != EMPTY_PATCH
    requires var patch := lib.decode(Trim(f.payload)); patch.Ok? && patch.value.Some? && lib.apply(patch.value.value, cache).Err?
    ensures Session(lib, reader, messages, cache) == (cache, [])
  {
    WireRoundTrip(f);
    PatchFails(lib, messages[0], cache);
  }

  // No message is given up on.
  predicate Survives<O, T>(lib: Library, reader: Reader<O, T>, messages: seq<string>, cache: Text) {
    messages == [] ||
    var p := PatchCache(lib, messages[0], cache);
    !p.failed && View(reader, p.cache).Some? && Survives(lib, reader, messages[1..], p.cache)
  }

  lemma SessionStep<O, T>(lib: Library, reader: Reader<O, T>, message: string, rest: seq<string>, cache: Text, next: Text)
    requires PatchCache(lib, message, cache) == Patched(next, false) && View(reader, next).Some?
    ensures Session(lib, reader, [message] + rest, cache) ==
            (Session(lib, reader, rest, next).0, [View(reader, next).value] + Session(lib, reader, rest, next).1)
  {
    assert ([message] + rest)[1..] == rest;
  }

  lemma SurvivesStep<O, T>(lib: Library, reader: Reader<O, T>, message: string, rest: seq<string>, cache: Text, next: Text)
    requires PatchCache(lib, message, cache) == Patched(next, false) && View(reader, next).Some?
    ensures Survives(lib, reader, [message] + rest, cache) == Survives(lib, reader, rest, next)
  {
    assert ([message] + rest)[1..] == rest;
  }

  // The second part goes on where the first, if it survives, ends.
  function Joined<T>(survives: bool, first: (Text, seq<seq<T>>), second: (Text, seq<seq<T>>)): (Text, seq<seq<T>>) {
    if survives then (second.0, first.1 + second.1) else first
  }

  lemma JoinedStep<T>(survives: bool, first: (Text, seq<seq<T>>), second: (Text, seq<seq<T>>), view: seq<T>)
    ensures var j := Joined(survives, first, second);
      Joined(survives, (first.0, [view] + first.1), second) == (j.0, [view] + j.1)
  {
    assert [view] + (first.1 + second.1) == ([view] + first.1) + second.1;
  }

  lemma {:induction false} SessionAppends<O, T>(lib: Library, reader: Reader<O, T>, first: seq<string>, second: seq<string>, cache: Text)
    ensures Session(lib, reader, first + second, cache) ==
            Joined(Survives(lib, reader, first, cache), Session(lib, reader, first, cache),
                   Session(lib, reader, second, Session(lib, reader, first, cache).0))
    decreases |first|
  {
    if first == [] {
      assert first + second == second;
      assert [] + Session(lib, reader, second, cache).1 == Session(lib, reader, second, cache).1;
    } else {
      var message, rest := first[0], first[1..];
      assert first == [message] + rest && first + second == [message] + (rest + second);
      var p := PatchCache(lib, message, cache);
      if !p.failed && View(reader, p.cache).Some? {
        SessionAppends(lib, reader, rest, second, p.cache);
        SessionStep(lib, reader, message, rest, cache, p.cache);
        SessionStep(lib, reader, message, rest + second, cache, p.cache);
        SurvivesStep(lib, reader, message, rest, cache, p.cache);
        JoinedStep(Survives(lib, reader, rest, p.cache), Session(lib, reader, rest, p.cache),
                   Session(lib, reader, second, Session(lib, reader, rest, p.cache).0), View(reader, p.cache).value);
      }
    }
  }

  // Whatever comes before it, a snapshot that is reached starts the connection
  // afresh: the callbacks from it on are those of a connection that begins with
  // it, from an empty cache.
  lemma SnapshotStartsAfresh<O, T>(lib: Library, reader: Reader<O, T>, early: seq<string>, data: Text, version: int,
                                   later: seq<string>, cache: Text)
    ensures var greeted := [Wire(Frame(data, true, version))] + later;
      Session(lib, reader, early + greeted, cache) ==
      Joined(Survives(lib, reader, early, cache), Session(lib, reader, early, cache), Session(lib, reader, greeted, []))
  {
    var greeted := [Wire(Frame(data, true, version))] + later;
    SessionAppends(lib, reader, early, greeted, cache);
    SnapshotForgets(lib, reader, data, version, greeted, Session(lib, reader, early, cache).0, []);
  }

  ghost predicate Greeted(messages: seq<string>) {
    messages != [] ==> exists data: Text, version: int :: messages[0] == Wire(Frame(data, true, version))
  }

  function Concat<T>(parts: seq<seq<T>>): seq<T> {
    if parts == [] then [] else parts[0] + Concat(parts[1..])
  }

  // However often it reconnects, the callbacks are those of the connections each
  // taken alone, from an empty cache.
  lemma {:induction false} SessionsStandAlone<O, T>(lib: Library, reader: Reader<O, T>, sessions: seq<seq<string>>, cache: Text)
    requires forall m <- sessions :: Greeted(m)
    ensures Sessions(lib, reader, sessions, cache).1 ==
            Concat(seq(|sessions|, i requires 0 <= i < |sessions| => Session(lib, reader, sessions[i], []).1))
    decreases |sessions|
  {
    if sessions != [] {
      var m, rest := sessions[0], sessions[1..];
      assert m in sessions;
      if m != [] {
        var data: Text, version: int :| m[0] == Wire(Frame(data, true, version));
        SnapshotForgets(lib, reader, data, version, m, cache, []);
      }
      SessionsStandAlone(lib, reader, rest, Session(lib, reader, m, cache).0);
      var alone := seq(|sessions|, i requires 0 <= i < |sessions| => Session(lib, reader, sessions[i], []).1);
      assert alone[1..] == seq(|rest|, i requires 0 <= i < |rest| => Session(lib, reader, rest[i], []).1);
    }
  }

  // ------------------------------------------------------- from pool to callback

  // The messages a pool sends for the data it is given one after the other, each
  // with its version.
  function Sent(lib: Library, mode: Mode, pool: Text, history: seq<(Text, int)>): (messages: seq<string>)
    ensures |messages| == |history|
    decreases |history|
  {
    if history == [] then []
    else
      var o := Choose(lib, mode, pool, history[0].0);
      [Wire(Frame(o.payload, o.snapshot, history[0].1))] + Sent(lib, mode, history[0].0, history[1..])
  }

  // A reader that reads texts by the JSON value they stand for.
  ghost predicate ReadsValues<O, T>(lib: Library, reader: Reader<O, T>) {
    forall x: Text, y: Text :: Same(lib, x, y) ==> View(reader, x) == View(reader, y)
  }

  // One message of the pool, received by a client that had its old data.
  lemma MessageShowsData<O, T>(lib: Library, mode: Mode, reader: Reader<O, T>, pool: Text, data: Text, version: int, cache: Text)
    returns (next: Text)
    requires Lawful(lib) && ReadsValues(lib, reader) && Same(lib, cache, pool)
    ensures var o := Choose(lib, mode, pool, data);
      PatchCache(lib, Wire(Frame(o.payload, o.snapshot, version)), cache) == Patched(next, false)
    ensures Same(lib, next, data) && View(reader, next) == View(reader, data)
  {
    var o := Choose(lib, mode, pool, data);
    var f := Frame(o.payload, o.snapshot, version);
    ChoiceReplicates(lib, mode, pool, data, version, cache);
    ReceiveIsPatchCache(lib, f, cache);
    next := Receive(lib, f, cache).cache;
  }

  lemma SessionStops<O, T>(lib: Library, reader: Reader<O, T>, message: string, rest: seq<string>, cache: Text, next: Text)
    requires PatchCache(lib, message, cache) == Patched(next, false) && View(reader, next).None?
    ensures Session(lib, reader, [message] + rest, cache).1 == []
  {
  }

  // How many of the data, from the first on, the subscriber can read.
  function Readable<O, T>(reader: Reader<O, T>, history: seq<(Text, int)>): (n: nat)
    ensures n <= |history| && forall k :: 0 <= k < n ==> View(reader, history[k].0).Some?
    ensures n < |history| ==> View(reader, history[n].0).None?
  {
    if history == [] || View(reader, history[0].0).None? then 0 else 1 + Readable(reader, history[1..])
  }

  // The callbacks are the views of the data, up to the first that cannot be read.
  ghost predicate Tell<O, T>(reader: Reader<O, T>, history: seq<(Text, int)>, callbacks: seq<seq<T>>) {
    && |callbacks| == Readable(reader, history)
    && forall k :: 0 <= k < |callbacks| ==> Some(callbacks[k]) == View(reader, history[k].0)
  }

  lemma TellOneMore<O, T>(reader: Reader<O, T>, data: Text, version: int, history: seq<(Text, int)>, callbacks: seq<seq<T>>)
    requires Tell(reader, history, callbacks) && View(reader, data).Some?
    ensures Tell(reader, [(data, version)] + history, [View(reader, data).value] + callbacks)
  {
    var all := [(data, version)] + history;
    assert all[1..] == history;
    forall k | 1 <= k <= |callbacks| ensures Some(([View(reader, data).value] + callbacks)[k]) == View(reader, all[k].0) {
      assert all[k] == history[k - 1];
    }
  }

  lemma {:induction false} SessionFollowsPool<O, T>(lib: Library, mode: Mode, reader: Reader<O, T>, pool: Text, history: seq<(Text, int)>, cache: Text)
    requires Lawful(lib) && ReadsValues(lib, reader) && Same(lib, cache, pool)
    ensures Tell(reader, history, Session(lib, reader, Sent(lib, mode, pool, history), cache).1)
    decreases |history|
  {
    if history != [] {
      var (data, version) := history[0];
      var o := Choose(lib, mode, pool, data);
      var next := MessageShowsData(lib, mode, reader, pool, data, version, cache);
      var message, rest := Wire(Frame(o.payload, o.snapshot, version)), Sent(lib, mode, data, history[1..]);
      if View(reader, data).Some? {
        SessionStep(lib, reader, message, rest, cache, next);
        SessionFollowsPool(lib, mode, reader, data, history[1..], next);
        TellOneMore(reader, data, version, history[1..], Session(lib, reader, rest, next).1);
        assert [(data, version)] + history[1..] == history;
      } else {
        SessionStops(lib, reader, message, rest, cache, next);
      }
    }
  }

  // A connection greeted with the pool's data is shown that and then, one callback
  // for each, all the data the pool was given since, up to the first that the
  // subscriber cannot read: whatever the patch mode, and whatever cache it brought
  // along.
  lemma CallbacksTellHistory<O, T>(lib: Library, mode: Mode, reader: Reader<O, T>, first: Text, version: int, history: seq<(Text, int)>, cache: Text)
    requires Lawful(lib) && ReadsValues(lib, reader)
    ensures Tell(reader, [(first, version)] + history,
                 Session(lib, reader, [Wire(Frame(first, true, version))] + Sent(lib, mode, first, history), cache).1)
  {
    var f := Frame(first, true, version);
    ReceiveIsPatchCache(lib, f, cache);
    SameTrim(lib, first);
    assert View(reader, Trim(first)) == View(reader, first);
    if View(reader, first).Some? {
      SessionStep(lib, reader, Wire(f), Sent(lib, mode, first, history), cache, Trim(first));
      SessionFollowsPool(lib, mode, reader, first, history, Trim(first));
      TellOneMore(reader, first, version, history, Session(lib, reader, Sent(lib, mode, first, history), Trim(first)).1);
    } else {
      SessionStops(lib, reader, Wire(f), Sent(lib, mode, first, history), cache, Trim(first));
    }
  }
}
