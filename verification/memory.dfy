// memory.go and objects/objects.go: the in-memory store, its listings and the
// events it emits.
module Memory {
  import opened Common
  import opened Text
  import Base64
  import Key
  import Numerals

  // ----------------------------------------------------------------- objects

  // Stored with its data in base64 text, listed with the data decoded.
  datatype Object<+T> = Object(created: int, updated: int, index: string, data: T)

  // The JSON codec of stored objects and of lists of them, as a contract: what it
  // encoded it decodes.
  datatype Codec = Codec(
    encode: Object<string> -> Text,
    decode: Text -> Option<Object<string>>,
    encodeList: seq<Object<string>> -> Text,
    decodeList: Text -> Option<seq<Object<string>>>)

  ghost predicate Lawful(codec: Codec) {
    && (forall o: Object<string> :: codec.decode(codec.encode(o)) == Some(o))
    && (forall os: seq<Object<string>> :: codec.decodeList(codec.encodeList(os)) == Some(os))
  }

  // The later of the two times.
  function Recency<T>(o: Object<T>): int {
    if o.updated > o.created then o.updated else o.created
  }

  // The object with its base64 data decoded.
  function Plain(o: Object<string>): Option<Object<Text>> {
    match Base64.Decode(o.data)
    case None => None
    case Some(data) => Some(Object(o.created, o.updated, o.index, data))
  }

  // objects.Decode: a text that is no object, or whose data is no base64, fails.
  function Decode(codec: Codec, raw: Text): Option<Object<Text>> {
    match codec.decode(raw)
    case None => None
    case Some(o) => Plain(o)
  }

  // The data of a list element, before and after DecodeListData has been there.
  datatype Data = Encoded(text: string) | Decoded(bytes: Text)

  ghost predicate FirstDecode(objects: seq<Object<Data>>, n: nat)
    requires n <= |objects|
  {
    forall i :: 0 <= i < n ==> objects[i].data.Encoded? && Base64.Decode(objects[i].data.text).Some?
  }

  // DecodeListData: decodes in place, one after the other, up to the first
  // failure, and leaves the rest as it was.
  method DecodeListData(objects: array<Object<Data>>) returns (ok: bool)
    requires forall i :: 0 <= i < objects.Length ==> objects[i].data.Encoded?
    modifies objects
    ensures ok <==> FirstDecode(old(objects[..]), objects.Length)
    ensures forall i :: 0 <= i < objects.Length ==>
      if FirstDecode(old(objects[..]), i + 1)
      then objects[i] == old(objects[i]).(data := Decoded(Base64.Decode(old(objects[i]).data.text).value))
      else objects[i] == old(objects[i])
  {
    ok := true;
    ghost var was := objects[..];
    for i := 0 to objects.Length
      invariant ok && FirstDecode(was, i)
      invariant forall j :: 0 <= j < i ==> objects[j] == was[j].(data := Decoded(Base64.Decode(was[j].data.text).value))
      invariant forall j :: i <= j < objects.Length ==> objects[j] == was[j]
    {
      var aux := Base64.Decode(objects[i].data.text);
      if aux.None? {
        ok := false;
        break;
      }
      objects[i] := Object(objects[i].created, objects[i].updated, objects[i].index, Decoded(aux.value));
    }
  }

  // ---------------------------------------------------------------- listings

  ghost predicate NoRepeats(keys: seq<string>) {
    forall i, j :: 0 <= i < j < |keys| ==> keys[i] != keys[j]
  }

  // The objects are some of those of f, under the given keys.
  ghost predicate Among<T>(f: map<string, Object<T>>, keys: seq<string>, objects: seq<Object<T>>) {
    && |keys| == |objects| && NoRepeats(keys)
    && forall i :: 0 <= i < |keys| ==> keys[i] in f && objects[i] == f[keys[i]]
  }

  // All of those of f, each once.
  ghost predicate Enumerates<T>(f: map<string, Object<T>>, keys: seq<string>, objects: seq<Object<T>>) {
    Among(f, keys, objects) && forall k <- f :: k in keys
  }

  // Never a more recently written object after a less recent one.
  ghost predicate Descending<T>(objects: seq<Object<T>>) {
    forall i, j :: 0 <= i < j < |objects| ==> Recency(objects[i]) >= Recency(objects[j])
  }

  // The limit most recent of f, most recent first.
  ghost predicate TopOf<T>(f: map<string, Object<T>>, limit: nat, keys: seq<string>, objects: seq<Object<T>>) {
    && Among(f, keys, objects) && Descending(objects)
    && |objects| == (if limit < |f| then limit else |f|)
    && (forall k, i :: k in f && k !in keys && 0 <= i < |objects| ==> Recency(f[k]) <= Recency(objects[i]))
  }

  // sort.Slice(res, objects.Sort(res)), with the keys taken along.
  method SortByRecency<T>(objects: seq<Object<T>>, ghost keys: seq<string>, ghost f: map<string, Object<T>>)
    returns (sorted: seq<Object<T>>, ghost order: seq<string>)
    requires Enumerates(f, keys, objects)
    ensures Enumerates(f, order, sorted) && Descending(sorted)
  {
    sorted, order := [], [];
    for i := 0 to |objects|
      invariant Among(f, order, sorted) && Descending(sorted) && |sorted| == i
      invariant forall k :: k in order <==> k in keys[..i]
    {
      var x := objects[i];
      var p := 0;
      while p < |sorted| && Recency(sorted[p]) >= Recency(x)
        invariant 0 <= p <= |sorted|
        invariant forall q :: 0 <= q < p ==> Recency(sorted[q]) >= Recency(x)
      {
        p := p + 1;
      }
      assert keys[i] !in keys[..i];
      assert keys[..i + 1] == keys[..i] + [keys[i]];
      InsertKeeps(f, order, sorted, keys[i], p);
      sorted := sorted[..p] + [x] + sorted[p..];
      order := order[..p] + [keys[i]] + order[p..];
    }
    assert keys[..|keys|] == keys;
  }

  lemma InsertKeeps<T>(f: map<string, Object<T>>, keys: seq<string>, objects: seq<Object<T>>, k: string, p: nat)
    requires Among(f, keys, objects) && Descending(objects) && k in f && k !in keys && p <= |keys|
    requires forall q :: 0 <= q < p ==> Recency(objects[q]) >= Recency(f[k])
    requires p < |objects| ==> Recency(objects[p]) < Recency(f[k])
    ensures Among(f, keys[..p] + [k] + keys[p..], objects[..p] + [f[k]] + objects[p..])
    ensures Descending(objects[..p] + [f[k]] + objects[p..])
    ensures forall j :: j in keys[..p] + [k] + keys[p..] <==> j in keys || j == k
  {
    assert keys == keys[..p] + keys[p..];
  }

  lemma {:induction false} KeysAreDomain<T>(f: map<string, Object<T>>, keys: seq<string>)
    requires NoRepeats(keys) && forall k :: k in keys <==> k in f
    ensures |keys| == |f|
    decreases |keys|
  {
    if keys != [] {
      var last, rest := keys[|keys| - 1], keys[..|keys| - 1];
      assert keys == rest + [last];
      var g := f - {last};
      assert g.Keys == f.Keys - {last};
      KeysAreDomain(g, rest);
    } else {
      assert f.Keys == {};
    }
  }

  // What comes after the first n is no more recent than they are.
  lemma RestIsBelow<T>(f: map<string, Object<T>>, keys: seq<string>, objects: seq<Object<T>>, n: nat, k: string, i: nat)
    requires Enumerates(f, keys, objects) && Descending(objects) && i < n <= |objects| && k in f && k !in keys[..n]
    ensures Recency(f[k]) <= Recency(objects[i])
  {
    assert k in keys;
    var j :| 0 <= j < |keys| && keys[j] == k;
    assert forall q :: 0 <= q < n ==> keys[q] in keys[..n];
    assert objects[j] == f[k];
  }

  lemma AmongFirst<T>(f: map<string, Object<T>>, keys: seq<string>, objects: seq<Object<T>>, n: nat)
    requires Among(f, keys, objects) && Descending(objects) && n <= |objects|
    ensures Among(f, keys[..n], objects[..n]) && Descending(objects[..n])
  {
  }

  lemma AmongOneMore<T>(f: map<string, Object<T>>, keys: seq<string>, objects: seq<Object<T>>, k: string)
    requires Among(f, keys, objects) && k in f && k !in keys
    ensures Among(f, keys + [k], objects + [f[k]])
  {
  }

  lemma EnumerationIsTop<T>(f: map<string, Object<T>>, keys: seq<string>, objects: seq<Object<T>>, limit: nat)
    requires Enumerates(f, keys, objects) && Descending(objects)
    ensures |objects| == |f|
    ensures var n := if limit < |objects| then limit else |objects|; TopOf(f, limit, keys[..n], objects[..n])
  {
    KeysAreDomain(f, keys);
    var n := if limit < |objects| then limit else |objects|;
    AmongFirst(f, keys, objects, n);
    forall k, i | k in f && k !in keys[..n] && 0 <= i < n ensures Recency(f[k]) <= Recency(objects[..n][i]) {
      RestIsBelow(f, keys, objects, n, k, i);
    }
  }

  // ------------------------------------------------------------- the storage

  datatype StorageEvent = StorageEvent(key: string, operation: string)

  // The time a key was built with, or 0 (katamari keys end with it).
  function CreatedOf(k: string): int {
    var paths := Key.Split(k);
    Key.Decode(paths[|paths| - 1])
  }

  ghost function Matching(mem: map<string, Text>, path: string): set<string> {
    set k | k in mem && Key.Match(path, k)
  }

  ghost function InRange(mem: map<string, Text>, path: string, from: int, to: int): set<string> {
    set k | k in mem && Key.Match(path, k) && from <= CreatedOf(k) <= to
  }

  // The objects stored at the given keys, as far as they decode.
  ghost function Decodable(codec: Codec, mem: map<string, Text>, keys: set<string>): map<string, Object<Text>> {
    map k | k in keys && k in mem && Decode(codec, mem[k]).Some? :: Decode(codec, mem[k]).value
  }

  ghost function Raw(codec: Codec, mem: map<string, Text>, keys: set<string>): map<string, Object<string>> {
    map k | k in keys && k in mem && codec.decode(mem[k]).Some? :: codec.decode(mem[k]).value
  }

  // The timestamps of the next Set: created is kept while the key lives.
  function Stamps(codec: Codec, mem: map<string, Text>, path: string, now: int): (int, int) {
    if path !in mem then (now, 0)
    else
      match codec.decode(mem[path])
      case None => (now, 0)
      case Some(o) => (o.created, now)
  }

  function SetIn(codec: Codec, mem: map<string, Text>, path: string, data: string, now: int): map<string, Text> {
    var (created, updated) := Stamps(codec, mem, path, now);
    mem[path := codec.encode(Object(created, updated, Key.LastIndex(path), data))]
  }

  function DelFrom(mem: map<string, Text>, path: string): map<string, Text> {
    map k | k in mem && !Key.Match(path, k) :: mem[k]
  }

  // What Peek tells the next Set: the creation time that the key's entry was
  // given first, however often it is set again, until a Del takes it.
  lemma CreationIsKept(codec: Codec, mem: map<string, Text>, path: string, data: string, now: int, key: string, later: int)
    requires Lawful(codec)
    ensures Stamps(codec, SetIn(codec, mem, path, data, now), key, later) ==
            if key == path then (Stamps(codec, mem, path, now).0, later) else Stamps(codec, mem, key, later)
    ensures Stamps(codec, DelFrom(mem, path), key, later) ==
            if Key.Match(path, key) then (later, 0) else Stamps(codec, mem, key, later)
  {
    var (created, updated) := Stamps(codec, mem, path, now);
    var o := Object(created, updated, Key.LastIndex(path), data);
    assert codec.decode(codec.encode(o)) == Some(o);
  }

  class MemoryStorage {
    const codec: Codec
    var mem: map<string, Text>
    var noBroadcastKeys: seq<string>
    var active: bool
    var events: seq<StorageEvent>

    constructor (codec: Codec, noBroadcastKeys: seq<string>)
      ensures mem == map[] && events == [] && active && this.codec == codec && this.noBroadcastKeys == noBroadcastKeys
    {
      this.codec, this.noBroadcastKeys := codec, noBroadcastKeys;
      mem, events, active := map[], [], true;
    }

    // Whether a change of the path is announced.
    ghost predicate Announced(path: string)
      reads this
    {
      active && forall i :: 0 <= i < |noBroadcastKeys| ==> !Key.Peer(noBroadcastKeys[i], path)
    }

    method Announce(path: string, operation: string)
      modifies this`events
      ensures if active && !(exists i :: 0 <= i < |noBroadcastKeys| && Key.Peer(noBroadcastKeys[i], path))
              then events == old(events) + [StorageEvent(path, operation)] else events == old(events)
      ensures events == old(events) + if Announced(path) then [StorageEvent(path, operation)] else []
    {
      var silent := Key.Contains(noBroadcastKeys, path);
      if !silent && active {
        events := events + [StorageEvent(path, operation)];
      }
    }

    method Peek(key: string, now: int) returns (created: int, updated: int)
      ensures (created, updated) == Stamps(codec, mem, key, now)
    {
      if key !in mem {
        return now, 0;
      }
      var previous := codec.decode(mem[key]);
      if previous.None? {
        return now, 0;
      }
      return previous.value.created, now;
    }

    // One event per eligible write, after the entry is stored.
    method Set(path: string, data: string, now: int) returns (index: string)
      modifies this`mem, this`events
      ensures index == Key.LastIndex(path) && mem == SetIn(codec, old(mem), path, data, now)
      ensures events == old(events) + if Announced(path) then [StorageEvent(path, "set")] else []
    {
      index := Key.LastIndex(path);
      var created, updated := Peek(path, now);
      mem := mem[path := codec.encode(Object(created, updated, index, data))];
      Announce(path, "set");
    }

    // Forces the timestamps; writes under "history" are silent.
    method Pivot(path: string, data: string, created: int, updated: int) returns (index: string)
      modifies this`mem, this`events
      ensures index == Key.LastIndex(path)
      ensures mem == old(mem)[path := codec.encode(Object(created, updated, index, data))]
      ensures events == old(events) +
        if Announced(path) && !(|path| > 8 && path[..7] == "history") then [StorageEvent(path, "set")] else []
    {
      index := Key.LastIndex(path);
      mem := mem[path := codec.encode(Object(created, updated, index, data))];
      if |path| > 8 && path[0..7] == "history" {
        return;
      }
      Announce(path, "set");
    }

    // Deleting an absent key is an error; a glob deletes what it matches, even
    // nothing, and is announced once under its own path.
    method Del(path: string) returns (ok: bool)
      modifies this`mem, this`events
      ensures ok <==> '*' in path || path in old(mem)
      ensures '*' in path ==> forall k :: k in mem <==> k in old(mem) && !Key.Match(path, k)
      ensures '*' !in path ==> forall k :: k in mem <==> k in old(mem) && k != path
      ensures forall k <- mem :: mem[k] == old(mem)[k]
      ensures mem == DelFrom(old(mem), path)
      ensures events == old(events) + if ok && Announced(path) then [StorageEvent(path, "del")] else []
    {
      if '*' !in path {
        if path !in mem {
          return false;
        }
        mem := mem - {path};
        Announce(path, "del");
        return true;
      }
      var range := mem.Keys;
      while range != {}
        invariant range <= old(mem).Keys && mem.Keys <= old(mem).Keys && events == old(events)
        invariant forall k <- mem :: mem[k] == old(mem)[k]
        invariant forall k <- old(mem) :: k in mem <==> k in range || !Key.Match(path, k)
        decreases range
      {
        var k :| k in range;
        if Key.Match(path, k) {
          mem := mem - {k};
        }
        range := range - {k};
      }
      Announce(path, "del");
      return true;
    }

    // The keys of a path built within a time range, in any order.
    method KeysRange(path: string, from: int, to: int) returns (r: Result<seq<string>>)
      ensures r.Ok? <==> '*' in path && from <= to
      ensures r.Ok? ==> NoRepeats(r.value)
      ensures r.Ok? ==> forall k :: k in r.value <==> k in mem && Key.Match(path, k) && from <= CreatedOf(k) <= to
    {
      if '*' !in path {
        return Err("katamari: invalid pattern");
      }
      if to < from {
        return Err("katamari: invalid range");
      }
      var keys: seq<string> := [];
      var range := mem.Keys;
      while range != {}
        invariant range <= mem.Keys && NoRepeats(keys)
        invariant forall k :: k in keys <==> k in InRange(mem, path, from, to) && k !in range
        decreases range
      {
        var k :| k in range;
        var created := CreatedOf(k);
        if Key.Match(path, k) && !(created < from || created > to) {
          keys := keys + [k];
        }
        range := range - {k};
      }
      return Ok(keys);
    }

    // A single entry as stored, or the text of the raw listing of a glob, most
    // recent first.
    method Get(path: string) returns (data: Result<Text>, ghost list: seq<Object<string>>, ghost keys: seq<string>)
      ensures '*' !in path ==> data == if path in mem then Ok(mem[path]) else Err("katamari: not found")
      ensures '*' in path ==> data == Ok(codec.encodeList(list))
      ensures '*' in path ==> Enumerates(Raw(codec, mem, Matching(mem, path)), keys, list) && Descending(list)
    {
      list, keys := [], [];
      if '*' !in path {
        if path !in mem {
          return Err("katamari: not found"), [], [];
        }
        return Ok(mem[path]), [], [];
      }
      ghost var all := Raw(codec, mem, Matching(mem, path));
      var res: seq<Object<string>> := [];
      var range := mem.Keys;
      while range != {}
        invariant range <= mem.Keys && Among(all, keys, res)
        invariant forall k :: k in keys <==> k in all && k !in range
        decreases range
      {
        var k :| k in range;
        if Key.Match(path, k) {
          var entry := codec.decode(mem[k]);
          if entry.Some? {
            AmongOneMore(all, keys, res, k);
            res := res + [entry.value];
            keys := keys + [k];
          }
        }
        range := range - {k};
      }
      res, keys := SortByRecency(res, keys, all);
      return Ok(codec.encodeList(res)), res, keys;
    }

    method GetN(path: string, limit: int) returns (r: Result<seq<Object<Text>>>, ghost keys: seq<string>)
      ensures r.Ok? <==> '*' in path && limit > 0
      ensures r.Ok? ==> TopOf(Decodable(codec, mem, Matching(mem, path)), limit, keys, r.value)
    {
      keys := [];
      if '*' !in path {
        return Err("katamari: invalid pattern"), [];
      }
      if limit <= 0 {
        return Err("katamari: invalid limit"), [];
      }
      ghost var all := Decodable(codec, mem, Matching(mem, path));
      var list: seq<Object<Text>> := [];
      var range := mem.Keys;
      while range != {}
        invariant range <= mem.Keys && Among(all, keys, list)
        invariant forall k :: k in keys <==> k in all && k !in range
        decreases range
      {
        var k :| k in range;
        if Key.Match(path, k) {
          var entry := Decode(codec, mem[k]);
          if entry.Some? {
            AmongOneMore(all, keys, list, k);
            list := list + [entry.value];
            keys := keys + [k];
          }
        }
        range := range - {k};
      }
      list, keys := SortByRecency(list, keys, all);
      EnumerationIsTop(all, keys, list, limit);
      if |list| > limit {
        return Ok(list[..limit]), keys[..limit];
      }
      assert list[..|list|] == list && keys[..|list|] == keys;
      return Ok(list), keys;
    }

    method GetNRange(path: string, limit: int, from: int, to: int) returns (r: Result<seq<Object<Text>>>, ghost keys: seq<string>)
      ensures r.Ok? <==> '*' in path && limit > 0
      ensures r.Ok? ==> TopOf(Decodable(codec, mem, InRange(mem, path, from, to)), limit, keys, r.value)
    {
      keys := [];
      if '*' !in path {
        return Err("katamari: invalid pattern"), [];
      }
      if limit <= 0 {
        return Err("katamari: invalid limit"), [];
      }
      ghost var all := Decodable(codec, mem, InRange(mem, path, from, to));
      var list: seq<Object<Text>> := [];
      var range := mem.Keys;
      while range != {}
        invariant range <= mem.Keys && Among(all, keys, list)
        invariant forall k :: k in keys <==> k in all && k !in range
        decreases range
      {
        var k :| k in range;
        var created := CreatedOf(k);
        if Key.Match(path, k) && !(created < from || created > to) {
          var entry := Decode(codec, mem[k]);
          if entry.Some? {
            AmongOneMore(all, keys, list, k);
            list := list + [entry.value];
            keys := keys + [k];
          }
        }
        range := range - {k};
      }
      list, keys := SortByRecency(list, keys, all);
      EnumerationIsTop(all, keys, list, limit);
      if |list| > limit {
        return Ok(list[..limit]), keys[..limit];
      }
      assert list[..|list|] == list && keys[..|list|] == keys;
      return Ok(list), keys;
    }
  }
}
