// Stream.Patch: what a broadcast sends for new data, and why a client cannot
// tell which of the patch modes the server runs in.
module Patching {
  import opened Common
  import opened Text
  import opened Json
  import opened Messages
  import Numerals

  // NoPatch wins when both flags are set.
  datatype Mode = Mode(noPatch: bool, forcePatch: bool)

  datatype Outcome = Outcome(payload: Text, snapshot: bool)

  // The branches of Patch, in order: no patch wanted, patch not created, patch
  // not marshalled, patch larger than the data, patch.
  function Choose(lib: Library, mode: Mode, cached: Text, data: Text): Outcome {
    if mode.noPatch then Outcome(data, true)
    else
      match lib.create(cached, data)
      case None => Outcome(data, true)
      case Some(patch) =>
        match lib.marshal(patch)
        case None => Outcome(data, true)
        case Some(operations) =>
          if !mode.forcePatch && |operations| > |data| then Outcome(data, true)
          else Outcome(operations, false)
  }

  // Whatever Patch chose, a client that had the old data now has the new.
  lemma ChoiceReplicates(lib: Library, mode: Mode, cached: Text, data: Text, version: int, client: Text)
    requires Lawful(lib) && Same(lib, client, cached)
    ensures var o := Choose(lib, mode, cached, data);
      var p := Receive(lib, Frame(o.payload, o.snapshot, version), client);
      !p.failed && Same(lib, p.cache, data)
  {
    var o := Choose(lib, mode, cached, data);
    if o.snapshot {
      SameTrim(lib, data);
    } else {
      assert Carries(lib, o.payload, cached, data);
      var sent := Trim(o.payload);
      if sent == EMPTY_PATCH {
        SameTransitive(lib, client, cached, data);
      } else {
        assert Applies(lib, lib.decode(sent).value.value, client, data);
      }
    }
  }

  // A pool that receives the given data one after the other, and a client of it.
  function ClientAfter(lib: Library, mode: Mode, pool: Text, client: Text, history: seq<Text>): Patched
    decreases |history|
  {
    if history == [] then Patched(client, false)
    else
      var o := Choose(lib, mode, pool, history[0]);
      var p := Receive(lib, Frame(o.payload, o.snapshot, 0), client);
      if p.failed then p else ClientAfter(lib, mode, history[0], p.cache, history[1..])
  }

  lemma {:induction false} ClientTracksPool(lib: Library, mode: Mode, pool: Text, client: Text, history: seq<Text>)
    requires Lawful(lib) && Same(lib, client, pool)
    ensures var p := ClientAfter(lib, mode, pool, client, history);
      !p.failed && Same(lib, p.cache, if history == [] then pool else history[|history| - 1])
    decreases |history|
  {
    if history != [] {
      ChoiceReplicates(lib, mode, pool, history[0], 0, client);
      var o := Choose(lib, mode, pool, history[0]);
      var p := Receive(lib, Frame(o.payload, o.snapshot, 0), client);
      ClientTracksPool(lib, mode, history[0], p.cache, history[1..]);
    }
  }

  // After any number of messages, clients under any two modes hold the same.
  lemma PatchModeIsUnobservable(lib: Library, m: Mode, n: Mode, pool: Text, x: Text, y: Text, history: seq<Text>)
    requires Lawful(lib) && Same(lib, x, pool) && Same(lib, y, pool)
    ensures var p, q := ClientAfter(lib, m, pool, x, history), ClientAfter(lib, n, pool, y, history);
      !p.failed && !q.failed && Same(lib, p.cache, q.cache)
  {
    var p, q := ClientAfter(lib, m, pool, x, history), ClientAfter(lib, n, pool, y, history);
    var last := if history == [] then pool else history[|history| - 1];
    ClientTracksPool(lib, m, pool, x, history);
    ClientTracksPool(lib, n, pool, y, history);
    SameTransitive(lib, p.cache, last, q.cache);
  }

  // The payload bytes that a pool's connections are each sent for the given data.
  function Traffic(lib: Library, mode: Mode, pool: Text, history: seq<Text>): nat
    decreases |history|
  {
    if history == [] then 0
    else |Choose(lib, mode, pool, history[0]).payload| + Traffic(lib, mode, history[0], history[1..])
  }

  // Over any history the default mode sends no more than snapshots alone would,
  // and no more than forced patches would.
  lemma {:induction false} DefaultModeSendsLeast(lib: Library, other: Mode, pool: Text, history: seq<Text>)
    ensures Traffic(lib, Mode(false, false), pool, history) <= Traffic(lib, other, pool, history)
    decreases |history|
  {
    if history != [] {
      DefaultModeSendsLeast(lib, other, history[0], history[1..]);
    }
  }

  // With no patch wanted every message is the data, byte for byte.
  lemma {:induction false} NoPatchSendsData(lib: Library, force: bool, pool: Text, history: seq<Text>)
    ensures Traffic(lib, Mode(true, force), pool, history) == Bytes(history)
    decreases |history|
  {
    if history != [] {
      NoPatchSendsData(lib, force, history[0], history[1..]);
    }
  }

  function Bytes(history: seq<Text>): nat {
    if history == [] then 0 else |history[0]| + Bytes(history[1..])
  }

  // PatchCache with its first two tests exchanged.
  function ShortcutFirst(lib: Library, message: Message, cache: Text): Patched {
    if message.data == EMPTY_PATCH then Patched(cache, false)
    else FoldMessage(lib, message, cache)
  }

  // The flag is tested before the empty-patch shortcut because an emptied list is
  // broadcast as the snapshot "[]". With the tests exchanged a client would follow
  // the pool exactly when it is not sent that, or had the new data already.
  lemma SnapshotFlagComesFirst(lib: Library, mode: Mode, cached: Text, data: Text, version: int, client: Text)
    requires Lawful(lib) && Same(lib, client, cached)
    ensures var o := Choose(lib, mode, cached, data);
      var p := ShortcutFirst(lib, Message(Trim(o.payload), Numerals.FormatInt(version), o.snapshot), client);
      !p.failed && Same(lib, p.cache, data) <==> (o.snapshot && Trim(data) == EMPTY_PATCH ==> Same(lib, client, data))
  {
    ChoiceReplicates(lib, mode, cached, data, version, client);
  }
}
