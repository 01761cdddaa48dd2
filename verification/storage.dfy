// The state machine's storage steps and reads are those of the in-memory store
// and of the read filters.
module StorageSteps {
  import opened Common
  import opened Text
  import opened Json
  import opened Patching
  import opened Protocol
  import Filters
  import Key
  import Memory
  import Recency

  // ------------------------------------------------------------------- writes

  // Set: one key changes, to the entry that Set stores. The event is then handed
  // over (Send) or, when the key is not announced, never sent (Drop).
  lemma SetIsSteps(env: Env, s: State, w: nat, codec: Memory.Codec, path: string, data: string, now: int)
    returns (actions: seq<Action>, s': State)
    requires Globbing(env) && w !in s.writers
    ensures Run(env, s, actions, s') && s'.store == Memory.SetIn(codec, s.store, path, data, now)
    ensures s'.writers == s.writers[w := path]
  {
    var value := Memory.SetIn(codec, s.store, path, data, now)[path];
    var begun := NextBegin(env, s, w, path);
    assert Key.Match(path, path) && env.matches(path, path);
    actions, s' := [Begin(w, path)] + [Mutate(w, path, Some(value))], NextMutate(env, begun, w, path, Some(value));
    OneChange(env, begun, w, path, Some(value));
    Chain(env, s, Begin(w, path), begun, [Mutate(w, path, Some(value))], s');
  }

  lemma OneChange(env: Env, s: State, w: nat, key: string, value: Option<Text>)
    requires w in s.writers && env.matches(s.writers[w], key)
    ensures Run(env, s, [Mutate(w, key, value)], NextMutate(env, s, w, key, value))
  {
    assert [Mutate(w, key, value)][1..] == [];
  }

  // Del: the keys it selects go one by one, in whatever order they come.
  lemma {:induction false} DelIsSteps(env: Env, s: State, w: nat, path: string, keys: seq<string>)
    returns (actions: seq<Action>, s': State)
    requires Globbing(env) && w in s.writers && s.writers[w] == path
    requires forall k :: k in keys ==> Key.Match(path, k)
    requires forall k <- s.store :: Key.Match(path, k) ==> k in keys
    ensures Run(env, s, actions, s') && s'.store == Memory.DelFrom(s.store, path) && s'.writers == s.writers
    decreases |keys|
  {
    if keys == [] {
      actions, s' := [], s;
      assert s.store == Memory.DelFrom(s.store, path);
    } else {
      var k := keys[0];
      assert k in keys && Key.Match(path, k) && env.matches(path, k);
      var mid := NextMutate(env, s, w, k, None);
      assert forall j :: j in keys[1..] ==> j in keys;
      var rest, last := DelIsSteps(env, mid, w, path, keys[1..]);
      assert Memory.DelFrom(mid.store, path) == Memory.DelFrom(s.store, path);
      Chain(env, s, Mutate(w, k, None), mid, rest, last);
      actions, s' := [Mutate(w, k, None)] + rest, last;
    }
  }

  lemma {:induction false} Listed(keys: set<string>) returns (list: seq<string>)
    ensures forall k :: k in list <==> k in keys
    decreases keys
  {
    if keys == {} {
      list := [];
    } else {
      var k :| k in keys;
      var rest := Listed(keys - {k});
      list := [k] + rest;
    }
  }

  // And some order there is, so that every Del is a run.
  lemma EveryDelIsSteps(env: Env, s: State, w: nat, path: string) returns (actions: seq<Action>, s': State)
    requires Globbing(env) && w !in s.writers
    ensures Run(env, s, actions, s') && s'.store == Memory.DelFrom(s.store, path) && s'.writers == s.writers[w := path]
  {
    var begun := NextBegin(env, s, w, path);
    var keys := Listed(set k | k in s.store && Key.Match(path, k));
    var rest, last := DelIsSteps(env, begun, w, path, keys);
    Chain(env, s, Begin(w, path), begun, rest, last);
    actions, s' := [Begin(w, path)] + rest, last;
  }

  // -------------------------------------------------------------------- reads

  ghost predicate Lists(codec: Memory.Codec, entries: map<string, Text>, keys: seq<string>, list: seq<Memory.Object<string>>) {
    Memory.Enumerates(Memory.Raw(codec, entries, entries.Keys), keys, list) && Memory.Descending(list)
  }

  // One listing of the entries; the only one when no two were written at a time.
  ghost function Listing(codec: Memory.Codec, entries: map<string, Text>): seq<Memory.Object<string>> {
    if exists keys, list :: Lists(codec, entries, keys, list) then
      var keys, list :| Lists(codec, entries, keys, list);
      list
    else []
  }

  // Storage.Get on the entries that the path matches; nothing when there is none.
  ghost function Stored(codec: Memory.Codec, path: string, entries: map<string, Text>): Text {
    if '*' in path then codec.encodeList(Listing(codec, entries))
    else if path in entries then entries[path] else []
  }

  ghost function Read(codec: Memory.Codec, routes: seq<Filters.Route<Filters.Apply>>, staticMode: bool, path: string,
                      entries: map<string, Text>): Option<Text> {
    Filters.FilteredData(routes, staticMode, p requires true => Stored(codec, p, entries))(path)
  }

  // The server that the in-memory store and the read filters make.
  ghost function ServerEnv(lib: Library, mode: Mode, codec: Memory.Codec, routes: seq<Filters.Route<Filters.Apply>>, staticMode: bool): Env {
    Env(lib, mode, (p, k) => Key.Match(p, k), (path, entries) => Read(codec, routes, staticMode, path, entries))
  }

  ghost predicate DistinctRecencies<T>(f: map<string, Memory.Object<T>>) {
    forall k, l :: k in f && l in f && Memory.Recency(f[k]) == Memory.Recency(f[l]) ==> k == l
  }

  // As is so whenever the store came about by Sets and Dels under an increasing
  // clock.
  lemma ClockKeepsRecenciesApart(codec: Memory.Codec, calls: seq<Recency.Timed>, path: string)
    requires Memory.Lawful(codec) && Recency.Increasing(calls)
    ensures var mem := Recency.Play(codec, calls); DistinctRecencies(Memory.Raw(codec, mem, Memory.Matching(mem, path)))
  {
    var mem := Recency.Play(codec, calls);
    var f := Memory.Raw(codec, mem, Memory.Matching(mem, path));
    forall k, l | k in f && l in f && Memory.Recency(f[k]) == Memory.Recency(f[l]) ensures k == l {
      LastWritesApart(codec, calls, k, l);
    }
  }

  lemma LastWritesApart(codec: Memory.Codec, calls: seq<Recency.Timed>, k: string, l: string)
    requires Memory.Lawful(codec) && Recency.Increasing(calls)
    requires var mem := Recency.Play(codec, calls);
      && k in mem && codec.decode(mem[k]).Some? && l in mem && codec.decode(mem[l]).Some?
      && Memory.Recency(codec.decode(mem[k]).value) == Memory.Recency(codec.decode(mem[l]).value)
    ensures k == l
  {
    var f, i := Recency.EntryTellsLife(codec, calls, k);
    var g, j := Recency.EntryTellsLife(codec, calls, l);
    Recency.RecencyIsLastWrite(codec, calls, k, f, i);
    Recency.RecencyIsLastWrite(codec, calls, l, g, j);
    assert calls[i].t == calls[j].t;
  }

  lemma ListingLists(codec: Memory.Codec, entries: map<string, Text>, keys: seq<string>, list: seq<Memory.Object<string>>)
    returns (ks: seq<string>)
    requires Lists(codec, entries, keys, list)
    ensures Lists(codec, entries, ks, Listing(codec, entries))
  {
    ks :| Lists(codec, entries, ks, Listing(codec, entries));
  }

  lemma AllAreTop<T>(f: map<string, Memory.Object<T>>, keys: seq<string>, list: seq<Memory.Object<T>>)
    requires Memory.Enumerates(f, keys, list) && Memory.Descending(list)
    ensures Memory.TopOf(f, |f|, keys, list)
  {
    Memory.EnumerationIsTop(f, keys, list, |f|);
    assert keys[..|list|] == keys && list[..|list|] == list;
  }

  lemma OneOrder<T>(f: map<string, Memory.Object<T>>, ks: seq<string>, xs: seq<Memory.Object<T>>, ls: seq<string>, ys: seq<Memory.Object<T>>)
    requires Memory.Enumerates(f, ks, xs) && Memory.Descending(xs) && Memory.Enumerates(f, ls, ys) && Memory.Descending(ys)
    requires DistinctRecencies(f)
    ensures xs == ys
  {
    AllAreTop(f, ks, xs);
    AllAreTop(f, ls, ys);
    Recency.ListingIsUnique(f, |f|, ks, xs, ls, ys);
  }

  lemma ListingIsTheListing(codec: Memory.Codec, mem: map<string, Text>, path: string, keys: seq<string>, list: seq<Memory.Object<string>>)
    requires var f := Memory.Raw(codec, mem, Memory.Matching(mem, path));
      Memory.Enumerates(f, keys, list) && Memory.Descending(list) && DistinctRecencies(f)
    ensures Listing(codec, map k | k in mem && Key.Match(path, k) :: mem[k]) == list
  {
    var entries := map k | k in mem && Key.Match(path, k) :: mem[k];
    var f := Memory.Raw(codec, entries, entries.Keys);
    assert Memory.Raw(codec, mem, Memory.Matching(mem, path)) == f;
    assert Lists(codec, entries, keys, list);
    var ks := ListingLists(codec, entries, keys, list);
    OneOrder(f, keys, list, ks, Listing(codec, entries));
  }

  // What the machine reads is what getFilteredData answers on what Get returns,
  // for a store whose listed entries were all written at different times.
  lemma FreshIsFilteredGet(lib: Library, mode: Mode, codec: Memory.Codec, routes: seq<Filters.Route<Filters.Apply>>, staticMode: bool,
                           mem: map<string, Text>, path: string, data: Result<Text>, list: seq<Memory.Object<string>>,
                           keys: seq<string>, stored: string -> Text)
    requires '*' !in path ==> data == if path in mem then Ok(mem[path]) else Err("katamari: not found")
    requires '*' in path ==> data == Ok(codec.encodeList(list))
    requires '*' in path ==> var f := Memory.Raw(codec, mem, Memory.Matching(mem, path));
      Memory.Enumerates(f, keys, list) && Memory.Descending(list) && DistinctRecencies(f)
    requires stored(path) == if data.Ok? then data.value else []
    ensures Fresh(ServerEnv(lib, mode, codec, routes, staticMode), mem, path) ==
            Filters.FilteredData(routes, staticMode, stored)(path)
    ensures var answer := Fresh(ServerEnv(lib, mode, codec, routes, staticMode), mem, path);
      var text := if stored(path) == [] then EMPTY_OBJECT else stored(path);
      && (forall i: nat :: Filters.InCharge(routes, path, i) ==>
            match routes[i].apply(path, text) case Ok(data) => answer == Some(data) case Err(_) => answer == None)
      && (!Filters.Defined(routes, path) ==> answer == if staticMode then None else Some(text))
  {
    Filters.AnswerIsFiltered(routes, staticMode, stored, path);
    var env := ServerEnv(lib, mode, codec, routes, staticMode);
    var entries := Visible(env, mem, path);
    assert entries == map k | k in mem && Key.Match(path, k) :: mem[k];
    if '*' in path {
      ListingIsTheListing(codec, mem, path, keys, list);
    } else {
      assert Key.Match(path, path);
    }
    assert Stored(codec, path, entries) == stored(path);
  }
}
