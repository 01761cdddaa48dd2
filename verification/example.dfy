// A server with the real globs and the small JSON Patch library, on which the
// runs of Witnesses can be seen: nothing they suppose is out of reach.
module Example {
  import opened Common
  import opened Text
  import opened Json
  import opened Patching
  import opened Protocol
  import Freshness
  import JsonText
  import Key
  import Memory
  import Replication
  import Witnesses

  // Reads a path as null while nothing is stored under it, and as true otherwise.
  ghost function Server(mode: Mode): Env {
    Env(JsonText.Instance(), mode, (p, k) => Key.Match(p, k),
        (p, entries) => Some(JsonText.Print(if entries == map[] then Null else Bool(true))))
  }

  lemma ServerIsOrdinary(mode: Mode)
    ensures Lawful(Server(mode).lib) && Globbing(Server(mode))
  {
    JsonText.InstanceIsLawful();
  }

  lemma NullIsNotTrue(mode: Mode, path: string, key: string, value: Text)
    requires path != "" && key != "" && Key.Match(path, key)
    ensures Witnesses.Distinguishes(Server(mode), path, key, value, JsonText.Print(Null), JsonText.Print(Bool(true)))
  {
    JsonText.ParsePrint(Null);
    JsonText.ParsePrint(Bool(true));
    JsonText.PrintIsTrimmed(Null);
    JsonText.PrintIsTrimmed(Bool(true));
    var entries := map[key := value];
    assert key in entries && entries != map[];
  }

  // "a/b" is stored and "*/b" subscribed to; after a delete of "a/*" and every
  // event dealt with, the subscribers of "*/b" still see "a/b".
  lemma CrossingDeleteIsLost(mode: Mode, value: Text) returns (actions: seq<Action>, s: State)
    ensures Run(Server(mode), Witnesses.Rest(map["a/b" := value], [Witnesses.CLOCK], 0), actions, s)
    ensures Freshness.Quiescent(s) && |s.pools| == 2 && s.pools[1].key == "*/b" && !Clean(Server(mode), s.store, s.pools[1])
  {
    Key.CrossingGlobsDoNotPeer();
    NullIsNotTrue(mode, "*/b", "a/b", value);
    actions, s := Witnesses.CrossingDeleteStaysStale(Server(mode), "*/b", "a/*", "a/b", value,
                                                     JsonText.Print(Null), JsonText.Print(Bool(true)));
  }

  // A write between a subscription's read and its first message leaves the
  // subscriber behind under the version of the newer data; any glob will do.
  lemma SubscriberLeftBehind(mode: Mode, path: string, key: string, value: Text) returns (actions: seq<Action>, s: State)
    requires path != "" && key != "" && Key.Match(path, key)
    ensures Run(Server(mode), Witnesses.Rest(map[], [Witnesses.CLOCK], 0), actions, s)
    ensures Freshness.Quiescent(s) && 7 in s.conns && s.conns[7].open && !Replication.Synced(Server(mode), s, 7)
  {
    ServerIsOrdinary(mode);
    NullIsNotTrue(mode, path, key, value);
    assert Key.Match(key, key);
    actions, s := Witnesses.InterferedHandshakeIsNotSynced(Server(mode), path, key, value,
                                                           JsonText.Print(Null), JsonText.Print(Bool(true)));
  }

  // ------------------------------------------------------ a codec of objects

  function Codes(s: string): Json {
    Arr(seq(|s|, i requires 0 <= i < |s| => Num(s[i] as int)))
  }

  function ObjectJson(o: Memory.Object<string>): Json {
    Arr([Num(o.created), Num(o.updated), Codes(o.index), Codes(o.data)])
  }

  ghost predicate Encodes(t: Text, o: Memory.Object<string>) {
    t == JsonText.Print(ObjectJson(o))
  }

  ghost function DecodeObject(t: Text): Option<Memory.Object<string>> {
    if exists o :: Encodes(t, o) then
      var o :| Encodes(t, o);
      Some(o)
    else None
  }

  function ListJson(os: seq<Memory.Object<string>>): Json {
    Arr(seq(|os|, i requires 0 <= i < |os| => ObjectJson(os[i])))
  }

  ghost predicate EncodesList(t: Text, os: seq<Memory.Object<string>>) {
    t == JsonText.Print(ListJson(os))
  }

  ghost function DecodeObjects(t: Text): Option<seq<Memory.Object<string>>> {
    if exists os :: EncodesList(t, os) then
      var os :| EncodesList(t, os);
      Some(os)
    else None
  }

  // Stored objects as JSON texts, so that the contract of Memory is met.
  ghost function Codec(): Memory.Codec {
    Memory.Codec(o => JsonText.Print(ObjectJson(o)), t => DecodeObject(t),
                 os => JsonText.Print(ListJson(os)), t => DecodeObjects(t))
  }

  lemma CodesUnique(s: string, t: string)
    requires Codes(s) == Codes(t)
    ensures s == t
  {
    assert |Codes(s).items| == |s| && |Codes(t).items| == |t|;
    forall i | 0 <= i < |s| ensures s[i] == t[i] {
      assert Codes(s).items[i] == Num(s[i] as int) && Codes(t).items[i] == Num(t[i] as int);
    }
  }

  lemma ObjectUnique(p: Memory.Object<string>, o: Memory.Object<string>)
    requires ObjectJson(p) == ObjectJson(o)
    ensures p == o
  {
    var a, b := ObjectJson(p).items, ObjectJson(o).items;
    assert a[0] == b[0] && a[1] == b[1] && a[2] == b[2] && a[3] == b[3];
    CodesUnique(p.index, o.index);
    CodesUnique(p.data, o.data);
  }

  lemma ListUnique(ps: seq<Memory.Object<string>>, os: seq<Memory.Object<string>>)
    requires ListJson(ps) == ListJson(os)
    ensures ps == os
  {
    assert |ListJson(ps).items| == |ps| && |ListJson(os).items| == |os|;
    forall i | 0 <= i < |ps| ensures ps[i] == os[i] {
      assert ListJson(ps).items[i] == ObjectJson(ps[i]) && ListJson(os).items[i] == ObjectJson(os[i]);
      ObjectUnique(ps[i], os[i]);
    }
  }

  lemma PrintedAlike(v: Json, w: Json)
    requires JsonText.Print(v) == JsonText.Print(w)
    ensures v == w
  {
    assert JsonText.Print(v) + [] == JsonText.Print(w) + [];
    JsonText.PrintUnique(v, w, [], []);
  }

  lemma CodecIsLawful()
    ensures Memory.Lawful(Codec())
  {
    forall o: Memory.Object<string> ensures Codec().decode(Codec().encode(o)) == Some(o) {
      var t := Codec().encode(o);
      assert Encodes(t, o);
      var p := DecodeObject(t).value;
      PrintedAlike(ObjectJson(p), ObjectJson(o));
      ObjectUnique(p, o);
    }
    forall os: seq<Memory.Object<string>> ensures Codec().decodeList(Codec().encodeList(os)) == Some(os) {
      var t := Codec().encodeList(os);
      assert EncodesList(t, os);
      var ps := DecodeObjects(t).value;
      PrintedAlike(ListJson(ps), ListJson(os));
      ListUnique(ps, os);
    }
  }

  // A late setCache desyncs a subscriber that was in step; any glob will do.
  lemma SubscriberDesynced(mode: Mode, path: string, key: string, value: Text) returns (actions: seq<Action>, s: State)
    requires path != "" && key != "" && Key.Match(path, key)
    ensures Run(Server(mode), Witnesses.Rest(map[], [Witnesses.CLOCK], 0), actions, s)
    ensures Replication.Synced(Server(mode), s, 7) && Enabled(Server(mode), s, Commit(0, 2))
    ensures !Replication.Synced(Server(mode), Next(Server(mode), s, Commit(0, 2)), 7)
  {
    ServerIsOrdinary(mode);
    NullIsNotTrue(mode, path, key, value);
    assert Key.Match(key, key);
    actions, s := Witnesses.LateCommitDesyncs(Server(mode), path, key, value, JsonText.Print(Null), JsonText.Print(Bool(true)));
  }
}
