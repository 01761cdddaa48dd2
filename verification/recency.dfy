// What whole runs of the store keep: timestamps, the order of listings, and
// how the limited and ranged listings agree.
module Recency {
  import opened Common
  import opened Text
  import opened Memory
  import Base64
  import Key
  import Numerals

  // ------------------------------------------------------ runs of Set and Del

  datatype Call = Set(path: string, data: string) | Del(path: string)

  datatype Timed = Timed(t: int, call: Call)

  // The store after the calls, from an empty one (see MemoryStorage.Set, Del).
  function Play(codec: Codec, calls: seq<Timed>): map<string, Text> {
    if calls == [] then map[]
    else
      var mem, last := Play(codec, calls[..|calls| - 1]), calls[|calls| - 1];
      match last.call
      case Set(path, data) => SetIn(codec, mem, path, data, last.t)
      case Del(path) => DelFrom(mem, path)
  }

  ghost predicate Increasing(calls: seq<Timed>) {
    && (forall i :: 0 <= i < |calls| ==> calls[i].t > 0)
    && (forall i, j :: 0 <= i < j < |calls| ==> calls[i].t < calls[j].t)
  }

  predicate Sets(c: Timed, k: string) {
    c.call.Set? && c.call.path == k
  }

  predicate Deletes(c: Timed, k: string) {
    c.call.Del? && Key.Match(c.call.path, k)
  }

  // The present life of a key: its first Set since it was last absent, and its
  // last Set.
  ghost predicate Life(calls: seq<Timed>, k: string, first: nat, last: nat) {
    && first <= last < |calls| && Sets(calls[first], k) && Sets(calls[last], k)
    && (forall j :: first < j < |calls| ==> !Deletes(calls[j], k))
    && (forall j :: last < j < |calls| ==> !Sets(calls[j], k))
    && (forall j :: 0 <= j < first && Sets(calls[j], k) ==> DeletedBetween(calls, k, j, first))
  }

  ghost predicate DeletedBetween(calls: seq<Timed>, k: string, i: nat, j: nat) {
    exists d :: i < d < j && d < |calls| && Deletes(calls[d], k)
  }

  ghost predicate Alive(calls: seq<Timed>, k: string) {
    exists first: nat, last: nat :: Life(calls, k, first, last)
  }

  lemma LifeExtends(calls: seq<Timed>, c: Timed, k: string, first: nat, last: nat)
    requires Life(calls, k, first, last) && !Deletes(c, k)
    ensures Life(calls + [c], k, first, if Sets(c, k) then |calls| else last)
  {
    forall j | 0 <= j < first && Sets((calls + [c])[j], k) ensures DeletedBetween(calls + [c], k, j, first) {
      assert DeletedBetween(calls, k, j, first);
      var d :| j < d < first && d < |calls| && Deletes(calls[d], k);
      assert Deletes((calls + [c])[d], k);
    }
  }

  // Every Set of an absent key was followed by a delete.
  lemma {:induction false} AbsentWasDeleted(codec: Codec, calls: seq<Timed>, k: string, j: nat)
    requires k !in Play(codec, calls) && j < |calls| && Sets(calls[j], k)
    ensures DeletedBetween(calls, k, j, |calls|)
    decreases |calls|
  {
    var before, c := calls[..|calls| - 1], calls[|calls| - 1];
    if Deletes(c, k) {
      assert j < |calls| - 1;
    } else {
      assert j < |before| && k !in Play(codec, before);
      AbsentWasDeleted(codec, before, k, j);
      var d :| j < d < |before| && Deletes(before[d], k);
      assert Deletes(calls[d], k);
    }
  }

  // A stored entry is the trace of its key's life: created at the first Set,
  // updated at the last if that is another, holding what the last one wrote.
  lemma {:induction false} EntryTellsLife(codec: Codec, calls: seq<Timed>, k: string) returns (first: nat, last: nat)
    requires Lawful(codec) && k in Play(codec, calls)
    ensures Life(calls, k, first, last)
    ensures codec.decode(Play(codec, calls)[k]) ==
            Some(Object(calls[first].t, if first == last then 0 else calls[last].t, Key.LastIndex(k), calls[last].call.data))
    decreases |calls|
  {
    var before, c := calls[..|calls| - 1], calls[|calls| - 1];
    assert calls == before + [c];
    if Sets(c, k) {
      if k in Play(codec, before) {
        var f, l := EntryTellsLife(codec, before, k);
        LifeExtends(before, c, k, f, l);
        first, last := f, |before|;
      } else {
        first, last := |before|, |before|;
        forall j | 0 <= j < first && Sets(calls[j], k) ensures DeletedBetween(calls, k, j, first) {
          AbsentWasDeleted(codec, before, k, j);
          var d :| j < d < |before| && Deletes(before[d], k);
          assert Deletes(calls[d], k);
        }
      }
    } else {
      first, last := EntryTellsLife(codec, before, k);
      LifeExtends(before, c, k, first, last);
    }
  }

  lemma {:induction false} LivingIsStored(codec: Codec, calls: seq<Timed>, k: string, first: nat, last: nat)
    requires Life(calls, k, first, last)
    ensures k in Play(codec, calls)
    decreases |calls|
  {
    var before, c := calls[..|calls| - 1], calls[|calls| - 1];
    assert calls == before + [c];
    if !Sets(c, k) {
      forall j | 0 <= j < first && Sets(before[j], k) ensures DeletedBetween(before, k, j, first) {
        assert DeletedBetween(calls, k, j, first);
        var d :| j < d < first && d < |calls| && Deletes(calls[d], k);
        assert Deletes(before[d], k);
      }
      assert forall j :: first < j < |before| ==> before[j] == calls[j];
      LivingIsStored(codec, before, k, first, last);
    }
  }

  lemma LifeIsUnique(calls: seq<Timed>, k: string, f: nat, l: nat, f': nat, l': nat)
    requires Life(calls, k, f, l) && Life(calls, k, f', l')
    ensures f == f' && l == l'
  {
    assert f < f' ==> DeletedBetween(calls, k, f, f');
    assert f' < f ==> DeletedBetween(calls, k, f', f);
  }

  // A Del ends the life of every key its path matches: none of them is stored
  // again before its next Set.  The others live on.
  lemma DelEndsLives(codec: Codec, calls: seq<Timed>, d: nat, path: string, k: string)
    requires Lawful(codec) && d < |calls| && calls[d].call == Del(path)
    requires Key.Match(path, k) && forall j :: d < j < |calls| ==> !Sets(calls[j], k)
    ensures !Alive(calls, k) && k !in Play(codec, calls)
  {
    if Alive(calls, k) {
      var first: nat, last: nat :| Life(calls, k, first, last);
      assert Deletes(calls[d], k);
      assert false;
    }
    StoredIffAlive(codec, calls, k);
  }

  lemma {:induction false} LivesOn(calls: seq<Timed>, later: seq<Timed>, k: string)
    requires Alive(calls, k) && forall j :: 0 <= j < |later| ==> !Deletes(later[j], k)
    ensures Alive(calls + later, k)
    decreases |later|
  {
    if later == [] {
      assert calls + later == calls;
    } else {
      var first: nat, last: nat :| Life(calls, k, first, last);
      LifeExtends(calls, later[0], k, first, last);
      LivesOn(calls + [later[0]], later[1..], k);
      MovedOver(calls, later);
    }
  }

  lemma MovedOver(calls: seq<Timed>, later: seq<Timed>)
    requires later != []
    ensures (calls + [later[0]]) + later[1..] == calls + later
  {
  }

  lemma OthersLiveOn(codec: Codec, calls: seq<Timed>, later: seq<Timed>, k: string)
    requires Lawful(codec) && Alive(calls, k)
    requires forall c <- later :: c.call.Del? ==> !Key.Match(c.call.path, k)
    ensures Alive(calls + later, k) && k in Play(codec, calls + later)
  {
    LivesOn(calls, later, k);
    StoredIffAlive(codec, calls + later, k);
  }

  // Under an increasing clock an entry's recency is the time of its last Set.
  lemma RecencyIsLastWrite(codec: Codec, calls: seq<Timed>, k: string, first: nat, last: nat)
    requires Lawful(codec) && Increasing(calls) && Life(calls, k, first, last)
    ensures k in Play(codec, calls) && codec.decode(Play(codec, calls)[k]).Some?
    ensures Recency(codec.decode(Play(codec, calls)[k]).value) == calls[last].t
  {
    LivingIsStored(codec, calls, k, first, last);
    var f, l := EntryTellsLife(codec, calls, k);
    LifeIsUnique(calls, k, first, last, f, l);
  }

  // Get on a glob: exactly the living entries it matches.
  lemma ListingHoldsTheLiving(codec: Codec, calls: seq<Timed>, path: string, keys: seq<string>, list: seq<Object<string>>)
    requires Lawful(codec) && Increasing(calls)
    requires var mem := Play(codec, calls); Enumerates(Raw(codec, mem, Matching(mem, path)), keys, list)
    ensures forall k :: k in keys <==> Key.Match(path, k) && Alive(calls, k)
  {
    var mem := Play(codec, calls);
    var all := Raw(codec, mem, Matching(mem, path));
    assert forall k :: k in keys <==> k in all;
    forall k ensures k in all <==> Key.Match(path, k) && Alive(calls, k) {
      StoredIffAlive(codec, calls, k);
    }
  }

  lemma StoredIffAlive(codec: Codec, calls: seq<Timed>, k: string)
    requires Lawful(codec)
    ensures k in Play(codec, calls) <==> Alive(calls, k)
    ensures k in Play(codec, calls) ==> codec.decode(Play(codec, calls)[k]).Some?
  {
    if k in Play(codec, calls) {
      var f, l := EntryTellsLife(codec, calls, k);
    }
    if Alive(calls, k) {
      var f: nat, l: nat :| Life(calls, k, f, l);
      LivingIsStored(codec, calls, k, f, l);
    }
  }

  // Each listed object is the trace of its key's life.
  lemma ListingTellsLives(codec: Codec, calls: seq<Timed>, path: string, keys: seq<string>, list: seq<Object<string>>,
                          i: nat, first: nat, last: nat)
    requires Lawful(codec)
    requires var mem := Play(codec, calls); Enumerates(Raw(codec, mem, Matching(mem, path)), keys, list)
    requires i < |keys| && Life(calls, keys[i], first, last)
    ensures list[i] == Object(calls[first].t, if first == last then 0 else calls[last].t, Key.LastIndex(keys[i]), calls[last].call.data)
  {
    var f, l := EntryTellsLife(codec, calls, keys[i]);
    LifeIsUnique(calls, keys[i], first, last, f, l);
  }

  // GetN with room for all lists the living keys it matches whose last Set wrote
  // base64 text, and what it lists holds what that text stands for.
  lemma PlainListingTellsLives(codec: Codec, calls: seq<Timed>, path: string, limit: nat, keys: seq<string>, list: seq<Object<Text>>,
                               k: string, first: nat, last: nat)
    requires Lawful(codec) && Life(calls, k, first, last) && Key.Match(path, k)
    requires var f := Decodable(codec, Play(codec, calls), Matching(Play(codec, calls), path)); TopOf(f, limit, keys, list) && limit >= |f|
    ensures match Base64.Decode(calls[last].call.data)
      case None => k !in keys
      case Some(data) => k in keys && forall i :: 0 <= i < |keys| && keys[i] == k ==>
        list[i] == Object(calls[first].t, if first == last then 0 else calls[last].t, Key.LastIndex(k), data)
  {
    var mem := Play(codec, calls);
    var f := Decodable(codec, mem, Matching(mem, path));
    LivingIsStored(codec, calls, k, first, last);
    var a, b := EntryTellsLife(codec, calls, k);
    LifeIsUnique(calls, k, first, last, a, b);
    LargeLimitListsAll(f, limit, keys, list);
    assert k in f <==> Base64.Decode(calls[last].call.data).Some?;
  }

  // And strictly in the order of their last writes, latest first.
  lemma ListingFollowsWrites(codec: Codec, calls: seq<Timed>, path: string, keys: seq<string>, list: seq<Object<string>>,
                             i: nat, j: nat, f: nat, l: nat, f': nat, l': nat)
    requires Lawful(codec) && Increasing(calls)
    requires var mem := Play(codec, calls); Enumerates(Raw(codec, mem, Matching(mem, path)), keys, list) && Descending(list)
    requires i < j < |keys| && Life(calls, keys[i], f, l) && Life(calls, keys[j], f', l')
    ensures calls[l].t > calls[l'].t
  {
    RecencyIsLastWrite(codec, calls, keys[i], f, l);
    RecencyIsLastWrite(codec, calls, keys[j], f', l');
    assert Recency(list[i]) >= Recency(list[j]);
    assert keys[i] != keys[j];
  }

  // Whatever times were forced on them, objects are listed by the later of their
  // two times.
  lemma DescendingByLaterTime<T>(objects: seq<Object<T>>)
    ensures Descending(objects) <==> forall i, j :: 0 <= i < j < |objects| ==>
      || (objects[i].created >= objects[j].created && objects[i].created >= objects[j].updated)
      || (objects[i].updated >= objects[j].created && objects[i].updated >= objects[j].updated)
  {
    if Descending(objects) {
      forall i, j | 0 <= i < j < |objects|
        ensures (objects[i].created >= objects[j].created && objects[i].created >= objects[j].updated)
             || (objects[i].updated >= objects[j].created && objects[i].updated >= objects[j].updated)
      {
        assert Recency(objects[i]) >= Recency(objects[j]);
      }
    }
  }

  // ---------------------------------------------- one listing, whatever order

  // The order in which a map is ranged over, and how equal elements are sorted,
  // can only show among objects of equal recency.
  lemma TopsAgree<T>(f: map<string, Object<T>>, limit: nat, ks: seq<string>, xs: seq<Object<T>>, ls: seq<string>, ys: seq<Object<T>>,
                     i: nat)
    requires TopOf(f, limit, ks, xs) && TopOf(f, limit, ls, ys) && i < |xs|
    ensures |xs| == |ys| && Recency(xs[i]) == Recency(ys[i])
  {
    NotAbove(f, limit, ks, xs, ls, ys, i);
    NotAbove(f, limit, ls, ys, ks, xs, i);
  }

  // Rank by rank the recencies are the same; every key more recent than the last
  // listed is in both listings; and with room for all, both list the same keys.
  lemma TopsShareKeys<T>(f: map<string, Object<T>>, limit: nat, ks: seq<string>, xs: seq<Object<T>>, ls: seq<string>, ys: seq<Object<T>>,
                         k: string)
    requires TopOf(f, limit, ks, xs) && TopOf(f, limit, ls, ys) && k in f
    requires limit >= |f| || (xs != [] && Recency(f[k]) > Recency(xs[|xs| - 1]))
    ensures k in ks && k in ls
  {
    if limit >= |f| {
      LargeLimitListsAll(f, limit, ks, xs);
      LargeLimitListsAll(f, limit, ls, ys);
    } else {
      TopsAgree(f, limit, ks, xs, ls, ys, |xs| - 1);
    }
  }

  // What one lists up to a place above the i-th of the other, the other lists
  // before its i-th.
  lemma HigherIsEarlier<T>(f: map<string, Object<T>>, limit: nat, ks: seq<string>, xs: seq<Object<T>>, ls: seq<string>, ys: seq<Object<T>>,
                           i: nat, j: nat)
    requires TopOf(f, limit, ks, xs) && TopOf(f, limit, ls, ys) && j <= i < |xs|
    requires Recency(xs[i]) > Recency(ys[i])
    ensures ks[j] in ls[..i]
  {
    assert xs[j] == f[ks[j]] && Recency(xs[j]) >= Recency(xs[i]);
    assert ks[j] in ls;
    var m :| 0 <= m < |ls| && ls[m] == ks[j];
    assert ys[m] == f[ks[j]];
    assert ls[..i][m] == ks[j];
  }

  // Were the i-th of one above the i-th of the other, the first i + 1 keys of
  // one would all have to be among the first i of the other.
  lemma NotAbove<T>(f: map<string, Object<T>>, limit: nat, ks: seq<string>, xs: seq<Object<T>>, ls: seq<string>, ys: seq<Object<T>>,
                    i: nat)
    requires TopOf(f, limit, ks, xs) && TopOf(f, limit, ls, ys) && i < |xs|
    ensures |xs| == |ys| && Recency(xs[i]) <= Recency(ys[i])
  {
    if Recency(xs[i]) > Recency(ys[i]) {
      forall k | k in ks[..i + 1] ensures k in ls[..i] {
        var j :| 0 <= j < i + 1 && ks[..i + 1][j] == k;
        HigherIsEarlier(f, limit, ks, xs, ls, ys, i, j);
      }
      Pigeonhole(ks[..i + 1], ls[..i]);
      assert false;
    }
  }

  lemma {:induction false} Pigeonhole(xs: seq<string>, ys: seq<string>)
    requires NoRepeats(xs) && forall x :: x in xs ==> x in ys
    ensures |xs| <= |ys|
    decreases |xs|
  {
    if xs != [] {
      var x := xs[|xs| - 1];
      assert x in xs;
      var j :| 0 <= j < |ys| && ys[j] == x;
      var rest, others := xs[..|xs| - 1], ys[..j] + ys[j + 1..];
      forall z | z in rest ensures z in others {
        assert z in xs && z != x;
        var m :| 0 <= m < |ys| && ys[m] == z;
        assert if m < j then others[m] == z else others[m - 1] == z;
      }
      Pigeonhole(rest, others);
    }
  }

  // With distinct recencies, as an increasing clock gives, there is one listing.
  lemma ListingIsUnique<T>(f: map<string, Object<T>>, limit: nat, ks: seq<string>, xs: seq<Object<T>>, ls: seq<string>, ys: seq<Object<T>>)
    requires TopOf(f, limit, ks, xs) && TopOf(f, limit, ls, ys)
    requires forall k, l :: k in f && l in f && Recency(f[k]) == Recency(f[l]) ==> k == l
    ensures ks == ls && xs == ys
  {
    forall i | 0 <= i < |xs| ensures |ls| == |ks| && ks[i] == ls[i] && xs[i] == ys[i] {
      TopsAgree(f, limit, ks, xs, ls, ys, i);
      assert ks[i] in f && ls[i] in f;
    }
  }

  lemma LargeLimitListsAll<T>(f: map<string, Object<T>>, limit: nat, keys: seq<string>, objects: seq<Object<T>>)
    requires TopOf(f, limit, keys, objects) && limit >= |f|
    ensures Enumerates(f, keys, objects)
  {
    forall k | k in f ensures k in keys {
      if k !in keys {
        var without := f - {k};
        assert without.Keys == f.Keys - {k};
        assert forall j :: j in keys ==> j in without;
        FewerKeys(without, keys);
      }
    }
  }

  lemma {:induction false} FewerKeys<T>(f: map<string, Object<T>>, keys: seq<string>)
    requires NoRepeats(keys) && forall k :: k in keys ==> k in f
    ensures |keys| <= |f|
    decreases |keys|
  {
    if keys != [] {
      var last := keys[|keys| - 1];
      var rest := f - {last};
      assert rest.Keys == f.Keys - {last};
      FewerKeys(rest, keys[..|keys| - 1]);
    }
  }

  // --------------------------------------------------------- ranged listings

  // GetNRange with room enough: exactly the decodable objects at the keys that
  // KeysRange returns.
  lemma RangeAgreesWithKeys(codec: Codec, mem: map<string, Text>, path: string, from: int, to: int, limit: nat,
                            listed: seq<string>, keys: seq<string>, objects: seq<Object<Text>>)
    requires NoRepeats(listed) && forall k :: k in listed <==> k in InRange(mem, path, from, to)
    requires TopOf(Decodable(codec, mem, InRange(mem, path, from, to)), limit, keys, objects) && limit >= |listed|
    ensures forall k :: k in keys <==> k in listed && Decode(codec, mem[k]).Some?
    ensures forall i :: 0 <= i < |keys| ==> keys[i] in mem && Decode(codec, mem[keys[i]]) == Some(objects[i])
  {
    var f := Decodable(codec, mem, InRange(mem, path, from, to));
    DomainWithin(f, listed);
    LargeLimitListsAll(f, limit, keys, objects);
    forall k ensures k in keys <==> k in listed && Decode(codec, mem[k]).Some? {
      if k in listed && Decode(codec, mem[k]).Some? {
        assert k in f;
      }
      if k in keys {
        var i :| 0 <= i < |keys| && keys[i] == k;
        assert k in f;
      }
    }
  }

  lemma {:induction false} DomainWithin<T>(f: map<string, Object<T>>, listed: seq<string>)
    requires forall k <- f :: k in listed
    ensures |f| <= |listed|
    decreases |listed|
  {
    if listed == [] {
      assert f.Keys == {};
    } else {
      var last := listed[|listed| - 1];
      var g := f - {last};
      assert g.Keys == f.Keys - {last};
      DomainWithin(g, listed[..|listed| - 1]);
    }
  }

  // Over the full 64-bit range GetNRange and GetN list the same, except for the
  // order among entries of equal recency and the choice among those that tie
  // for the last place.
  lemma FullRangeIsGetN(codec: Codec, mem: map<string, Text>, path: string, limit: nat, ks: seq<string>, xs: seq<Object<Text>>,
                        ls: seq<string>, ys: seq<Object<Text>>)
    requires TopOf(Decodable(codec, mem, InRange(mem, path, -Numerals.TWO_63, Numerals.TWO_63 - 1)), limit, ks, xs)
    requires TopOf(Decodable(codec, mem, Matching(mem, path)), limit, ls, ys)
    ensures |xs| == |ys| && forall i :: 0 <= i < |xs| ==> Recency(xs[i]) == Recency(ys[i])
    ensures var f := Decodable(codec, mem, Matching(mem, path));
      && (forall k :: k in f && xs != [] && Recency(f[k]) > Recency(xs[|xs| - 1]) ==> k in ks && k in ls)
      && (limit >= |f| ==> forall k :: (k in ks <==> k in f) && (k in ls <==> k in f))
  {
    assert InRange(mem, path, -Numerals.TWO_63, Numerals.TWO_63 - 1) == Matching(mem, path);
    var f := Decodable(codec, mem, Matching(mem, path));
    forall i | 0 <= i < |xs| ensures |xs| == |ys| && Recency(xs[i]) == Recency(ys[i]) {
      TopsAgree(f, limit, ks, xs, ls, ys, i);
    }
    forall k | k in f && (limit >= |f| || (xs != [] && Recency(f[k]) > Recency(xs[|xs| - 1]))) ensures k in ks && k in ls {
      TopsShareKeys(f, limit, ks, xs, ls, ys, k);
    }
  }

  lemma {:induction false} SplitEndsWithIndex(s: string)
    ensures Key.Split(s)[|Key.Split(s)| - 1] == Key.LastIndex(s)
  {
    if s != "" {
      SplitEndsWithIndex(s[1..]);
      LastIndexOfTail(s);
      LastOfSplit(s);
      if |Key.Split(s[1..])| == 1 {
        SplitOfOneSegment(s[1..]);
        assert s == [s[0]] + s[1..];
      }
    }
  }

  lemma LastOfSplit(s: string)
    requires s != ""
    ensures var rest := Key.Split(s[1..]);
      Key.Split(s)[|Key.Split(s)| - 1] == if s[0] != '/' && |rest| == 1 then [s[0]] + rest[0] else rest[|rest| - 1]
  {
  }

  lemma {:induction false} SplitOfOneSegment(s: string)
    requires |Key.Split(s)| == 1
    ensures Key.Split(s) == [s]
  {
    if s != "" {
      SplitOfOneSegment(s[1..]);
      assert s == [s[0]] + s[1..];
    }
  }

  lemma {:induction false} LastIndexOfTail(s: string)
    requires s != ""
    ensures Key.LastIndex(s) == if s[0] != '/' && |Key.Split(s[1..])| == 1 then s else Key.LastIndex(s[1..])
    decreases |s|
  {
    if |s| == 1 {
      assert s[1..] == "" && s[..0] == "";
    } else {
      var t := s[..|s| - 1];
      LastIndexOfTail(t);
      assert s[1..][..|s[1..]| - 1] == t[1..];
      SplitGrows(t[1..], s[|s| - 1]);
      assert t[1..] + [s[|s| - 1]] == s[1..];
      if s[|s| - 1] != '/' && s[0] != '/' && |Key.Split(s[1..])| == 1 {
        assert s == t + [s[|s| - 1]];
      }
    }
  }

  lemma {:induction false} SplitGrows(s: string, c: char)
    ensures |Key.Split(s + [c])| == |Key.Split(s)| + if c == '/' then 1 else 0
  {
    if s == "" {
      assert s + [c] == [c] && [c][1..] == "";
    } else {
      assert (s + [c])[1..] == s[1..] + [c];
      SplitGrows(s[1..], c);
    }
  }

  // The time a range is about is read from what follows the key's last slash.
  lemma CreatedIsLastIndex(k: string)
    ensures CreatedOf(k) == Key.Decode(Key.LastIndex(k))
  {
    SplitEndsWithIndex(k);
  }

  // A published entry falls into a range exactly by its publishing time.
  lemma PublishedInRange(codec: Codec, mem: map<string, Text>, u: string, now: int, from: int, to: int)
    requires '*' !in u && Key.IsValid(u + "/*") && 0 <= now < Numerals.TWO_63
    requires Key.Build(u + "/*", now) in mem
    ensures Key.Build(u + "/*", now) in InRange(mem, u + "/*", from, to) <==> from <= now <= to
  {
    Key.PublishedKeyRoundTrip(u, now);
    SplitEndsWithIndex(Key.Build(u + "/*", now));
  }

  // ------------------------------------------------ whom a change concerns

  // The entries that Get on a path reads.
  ghost function Seen(mem: map<string, Text>, path: string): map<string, Text> {
    map k | k in mem && Key.Match(path, k) :: mem[k]
  }

  // A Set that shows in Get of a pool's key selects that pool for its broadcast.
  lemma SetSelectsViewers(codec: Codec, mem: map<string, Text>, pool: string, path: string, data: string, now: int)
    ensures Seen(SetIn(codec, mem, path, data, now), pool) != Seen(mem, pool) ==> Key.Peer(pool, path)
  {
    var mem' := SetIn(codec, mem, path, data, now);
    if Key.Match(pool, path) {
      Key.WriteReachesEveryViewer(pool, path);
    } else {
      assert Seen(mem', pool) == Seen(mem, pool);
    }
  }

  // So does a Del, when both are of the class that publish admits.
  lemma DelSelectsViewers(mem: map<string, Text>, pool: string, path: string)
    requires Key.Admissible(pool) && Key.Admissible(path)
    ensures Seen(DelFrom(mem, path), pool) != Seen(mem, pool) ==> Key.Peer(pool, path)
  {
    if forall k <- mem :: !(Key.Match(pool, k) && Key.Match(path, k)) {
      assert Seen(DelFrom(mem, path), pool) == Seen(mem, pool);
    } else {
      var k :| k in mem && Key.Match(pool, k) && Key.Match(path, k);
      assert Key.Match(pool, k) && Key.Match(path, k);
      Key.AdmissiblePeersComplete(pool, path);
    }
  }
}
