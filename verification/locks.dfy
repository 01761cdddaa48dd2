// stream/stream.go and stream/clock.go: who holds which lock. Any number of
// threads run the calls of the stream, one lock operation or critical section
// a step, in any order.
module Locks {
  import opened Common
  import Key

  type Thread = nat
  type Conn = nat

  // A read-write lock that lets no new reader in while a writer waits for the
  // readers to leave, as sync.RWMutex does.
  datatype RWLock = RWLock(writer: Option<Thread>, pending: Option<Thread>, readers: set<Thread>)

  const FREE: RWLock := RWLock(None, None, {})

  datatype Call =
    | New(key: string, client: Conn)
    | Close(key: string, client: Conn)
    | SetCache(key: string)
    | GetCacheVersion(key: string)
    | Broadcast(path: string)
    | BroadcastClock
    | Write(client: Conn)

  // Where a thread is in its call.
  datatype Pc =
    | Idle
    | Want(call: Call)                               // before taking the stream lock
    | Pending(call: Call)                            // writing call: waits for the readers to leave
    | Inside(call: Call)                             // writing call: before the critical section
    | Leaving(call: Call)                            // writing call: after it
    | At(call: Call, i: nat)                         // reading call: looks at pool i
    | WantPool(call: Call, i: nat)
    | PendingPool(call: Call, i: nat)
    | InPool(call: Call, i: nat)                     // holds the lock of pool i
    | Sending(call: Call, i: nat, todo: seq<Conn>)   // before the lock of the next connection
    | Writing(call: Call, i: nat, todo: seq<Conn>)   // holds it
    | Done(call: Call)                               // reading call: before leaving

  datatype State = State(
    keys: seq<string>,
    conns: seq<seq<Conn>>,
    caches: seq<nat>,          // how often each cache was set
    stream: RWLock,
    pools: seq<RWLock>,
    sockets: map<Conn, Thread>,
    threads: seq<Pc>)

  predicate Exclusive(call: Call) {
    call.New? || call.Close? || call.SetCache?
  }

  predicate Shared(call: Call) {
    call.GetCacheVersion? || call.Broadcast? || call.BroadcastClock?
  }

  // ------------------------------------------------------------------- steps

  function FindFrom(keys: seq<string>, key: string, i: nat): (r: Option<nat>)
    requires i <= |keys|
    ensures r.None? ==> key !in keys[i..]
    ensures r.Some? ==> i <= r.value < |keys| && keys[r.value] == key
    decreases |keys| - i
  {
    if i == |keys| then None else if keys[i] == key then Some(i) else FindFrom(keys, key, i + 1)
  }

  // A call may start when the thread is idle. Close is called for a connection
  // that New returned, so its pool is there.
  predicate CanCall(s: State, t: Thread, call: Call) {
    t < |s.threads| && s.threads[t].Idle? && (call.Close? ==> call.key in s.keys)
  }

  function Start(s: State, t: Thread, call: Call): State
    requires CanCall(s, t, call)
  {
    s.(threads := s.threads[t := if call.Write? then Sending(call, 0, [call.client]) else Want(call)])
  }

  predicate CanRead(lock: RWLock) {
    lock.writer.None? && lock.pending.None?
  }

  predicate CanAnnounce(lock: RWLock) {
    lock.writer.None? && lock.pending.None?
  }

  predicate CanWrite(lock: RWLock) {
    lock.readers == {}
  }

  // Whether thread t can take its next step: all but taking a lock always can.
  predicate CanStep(s: State, t: Thread) {
    && t < |s.threads|
    && match s.threads[t]
       case Idle => false
       case Want(call) => if Exclusive(call) then CanAnnounce(s.stream) else CanRead(s.stream)
       case Pending(_) => CanWrite(s.stream)
       case WantPool(call, i) => i < |s.pools| && if call.Broadcast? then CanAnnounce(s.pools[i]) else CanRead(s.pools[i])
       case PendingPool(_, i) => i < |s.pools| && CanWrite(s.pools[i])
       case Sending(_, _, todo) => todo == [] || todo[0] !in s.sockets
       case _ => true
  }

  // The critical section of a writing call: the table with a connection added,
  // removed, or a cache set; a pool is created where there is none.
  function Edit(s: State, call: Call): State
    requires |s.keys| == |s.conns| == |s.caches| == |s.pools| && Exclusive(call)
  {
    match FindFrom(s.keys, call.key, 0)
    case None =>
      if call.Close? then s
      else s.(keys := s.keys + [call.key], conns := s.conns + [if call.New? then [call.client] else []],
              caches := s.caches + [if call.New? then 0 else 1], pools := s.pools + [FREE])
    case Some(i) =>
      match call
      case New(_, client) => s.(conns := s.conns[i := s.conns[i] + [client]])
      case Close(_, client) => s.(conns := s.conns[i := Others(s.conns[i], client)])
      case SetCache(_) => s.(caches := s.caches[i := s.caches[i] + 1])
  }

  function Others(conns: seq<Conn>, client: Conn): seq<Conn> {
    if conns == [] then [] else (if conns[0] == client then [] else [conns[0]]) + Others(conns[1..], client)
  }

  // The next step of thread t; filtered says whether a broadcast's read of the
  // pool's data fails.
  function Step(s: State, t: Thread, filtered: bool): State
    requires Wellformed(s) && CanStep(s, t)
  {
    match s.threads[t]
    case Idle => s
    case Want(call) =>
      if Exclusive(call) then s.(stream := s.stream.(pending := Some(t)), threads := s.threads[t := Pending(call)])
      else s.(stream := s.stream.(readers := s.stream.readers + {t}),
              threads := s.threads[t := At(call, if call.Broadcast? then 1 else 0)])
    case Pending(call) => s.(stream := RWLock(Some(t), None, s.stream.readers), threads := s.threads[t := Inside(call)])
    case Inside(call) => Edit(s, call).(threads := s.threads[t := Leaving(call)])
    case Leaving(call) => s.(stream := s.stream.(writer := None), threads := s.threads[t := Idle])
    case At(call, i) => s.(threads := s.threads[t := Look(s, call, i)])
    case WantPool(call, i) =>
      if call.Broadcast? then s.(pools := s.pools[i := s.pools[i].(pending := Some(t))], threads := s.threads[t := PendingPool(call, i)])
      else s.(pools := s.pools[i := s.pools[i].(readers := s.pools[i].readers + {t})], threads := s.threads[t := InPool(call, i)])
    case PendingPool(call, i) =>
      s.(pools := s.pools[i := RWLock(Some(t), None, s.pools[i].readers)], threads := s.threads[t := InPool(call, i)])
    case InPool(call, i) =>
      if call.GetCacheVersion? then
        s.(pools := s.pools[i := s.pools[i].(readers := s.pools[i].readers - {t})], threads := s.threads[t := Done(call)])
      else if filtered then
        s.(pools := s.pools[i := s.pools[i].(writer := None)], threads := s.threads[t := At(call, i + 1)])
      else s.(caches := s.caches[i := s.caches[i] + 1], threads := s.threads[t := Sending(call, i, s.conns[i])])
    case Sending(call, i, todo) =>
      if todo != [] then s.(sockets := s.sockets[todo[0] := t], threads := s.threads[t := Writing(call, i, todo)])
      else if call.Broadcast? then
        s.(pools := s.pools[i := s.pools[i].(writer := None)], threads := s.threads[t := At(call, i + 1)])
      else s.(threads := s.threads[t := if call.Write? then Idle else Done(call)])
    case Writing(call, i, todo) => s.(sockets := s.sockets - {todo[0]}, threads := s.threads[t := Sending(call, i, todo[1..])])
    case Done(call) => s.(stream := s.stream.(readers := s.stream.readers - {t}), threads := s.threads[t := Idle])
  }

  // Under the stream's read lock: which pool to lock next, if any.
  function Look(s: State, call: Call, i: nat): Pc
    requires |s.conns| == |s.keys| > 0
  {
    match call
    case GetCacheVersion(key) => (
      match FindFrom(s.keys, key, 0)
      case None => Done(call)
      case Some(p) => WantPool(call, p))
    case Broadcast(path) =>
      if i >= |s.keys| then Done(call)
      else if Key.Peer(s.keys[i], path) then WantPool(call, i)
      else At(call, i + 1)
    case _ => Sending(call, 0, s.conns[0])
  }

  // ------------------------------------------------------------- the invariant

  datatype Lock = StreamLock | PoolLock(i: nat)
  datatype Hold = Out | Waits | Writes | Reads

  // How a thread holds a read-write lock, by where it is.
  function HoldOf(pc: Pc, lock: Lock): Hold {
    match lock
    case StreamLock => (
      match pc
      case Pending(_) => Waits
      case Inside(_) => Writes
      case Leaving(_) => Writes
      case Idle => Out
      case Want(_) => Out
      case _ => if pc.call.Write? then Out else Reads)
    case PoolLock(i) => (
      match pc
      case PendingPool(_, j) => if i == j then Waits else Out
      case InPool(call, j) => if i != j then Out else if call.Broadcast? then Writes else Reads
      case Sending(call, j, _) => if i == j && call.Broadcast? then Writes else Out
      case Writing(call, j, _) => if i == j && call.Broadcast? then Writes else Out
      case _ => Out)
  }

  predicate HoldsSocket(pc: Pc, c: Conn) {
    pc.Writing? && pc.todo != [] && pc.todo[0] == c
  }

  // A call only locks the pools it is about: a broadcast those that peer with its
  // path, GetCacheVersion the one of its key.
  predicate Concerns(call: Call, key: string) {
    (call.Broadcast? && Key.Peer(key, call.path)) || (call.GetCacheVersion? && key == call.key)
  }

  predicate Sane(s: State, pc: Pc) {
    match pc
    case Idle => true
    case Want(call) => !call.Write? && (call.Close? ==> call.key in s.keys)
    case Pending(call) => Exclusive(call) && (call.Close? ==> call.key in s.keys)
    case Inside(call) => Exclusive(call) && (call.Close? ==> call.key in s.keys)
    case Leaving(call) => Exclusive(call)
    case At(call, i) => Shared(call) && (call.Broadcast? ==> 1 <= i <= |s.keys|)
    case WantPool(call, i) => i < |s.keys| && Concerns(call, s.keys[i])
    case PendingPool(call, i) => call.Broadcast? && i < |s.keys| && Concerns(call, s.keys[i])
    case InPool(call, i) => i < |s.keys| && Concerns(call, s.keys[i])
    case Sending(call, i, _) => (call.Broadcast? || call.BroadcastClock? || call.Write?) && i < |s.keys|
    case Writing(call, i, todo) => (call.Broadcast? || call.BroadcastClock? || call.Write?) && i < |s.keys| && todo != []
    case Done(call) => Shared(call)
  }

  ghost predicate Wellformed(s: State) {
    && |s.keys| == |s.conns| == |s.caches| == |s.pools| > 0
    && forall t :: 0 <= t < |s.threads| ==> Sane(s, s.threads[t])
  }

  // The lock's own record is what the threads hold, and a writer is alone.
  ghost predicate Agrees(lock: RWLock, threads: seq<Pc>, id: Lock) {
    && (forall t: Thread :: t < |threads| ==> (lock.writer == Some(t) <==> HoldOf(threads[t], id).Writes?))
    && (forall t: Thread :: t < |threads| ==> (lock.pending == Some(t) <==> HoldOf(threads[t], id).Waits?))
    && (forall t: Thread :: t < |threads| ==> (t in lock.readers <==> HoldOf(threads[t], id).Reads?))
    && (lock.writer.Some? ==> lock.writer.value < |threads| && lock.pending.None? && lock.readers == {})
    && (lock.pending.Some? ==> lock.pending.value < |threads|)
    && (forall t <- lock.readers :: t < |threads|)
  }

  ghost predicate SocketsAgree(sockets: map<Conn, Thread>, threads: seq<Pc>) {
    && (forall c <- sockets :: sockets[c] < |threads|)
    && (forall c, t: Thread :: t < |threads| ==> (HoldsSocket(threads[t], c) <==> c in sockets && sockets[c] == t))
  }

  ghost predicate Inv(s: State) {
    && Wellformed(s)
    && Agrees(s.stream, s.threads, StreamLock)
    && (forall i :: 0 <= i < |s.pools| ==> Agrees(s.pools[i], s.threads, PoolLock(i)))
    && SocketsAgree(s.sockets, s.threads)
  }

  // A started server: the clock's pool, and nobody in a call.
  function Init(threads: nat): State {
    State([""], [[]], [0], FREE, [FREE], map[], seq(threads, _ => Idle))
  }

  lemma InitInv(threads: nat)
    ensures Inv(Init(threads))
  {
  }

  lemma StartInv(s: State, t: Thread, call: Call)
    requires Inv(s) && CanCall(s, t, call)
    ensures Inv(Start(s, t, call))
  {
    var s' := Start(s, t, call);
    forall i | 0 <= i < |s'.pools| ensures Agrees(s'.pools[i], s'.threads, PoolLock(i)) {
      assert Agrees(s.pools[i], s.threads, PoolLock(i));
    }
  }

  lemma AgreesApart(lock: RWLock, threads: seq<Pc>, t: Thread, pc: Pc, id: Lock)
    requires Agrees(lock, threads, id) && t < |threads| && HoldOf(pc, id) == HoldOf(threads[t], id)
    ensures Agrees(lock, threads[t := pc], id)
  {
  }

  lemma Announces(lock: RWLock, threads: seq<Pc>, t: Thread, pc: Pc, id: Lock)
    requires Agrees(lock, threads, id) && t < |threads| && HoldOf(threads[t], id).Out? && HoldOf(pc, id).Waits?
    requires CanAnnounce(lock)
    ensures Agrees(lock.(pending := Some(t)), threads[t := pc], id)
  {
  }

  lemma Enters(lock: RWLock, threads: seq<Pc>, t: Thread, pc: Pc, id: Lock)
    requires Agrees(lock, threads, id) && t < |threads| && HoldOf(threads[t], id).Waits? && HoldOf(pc, id).Writes?
    requires CanWrite(lock)
    ensures Agrees(RWLock(Some(t), None, lock.readers), threads[t := pc], id)
  {
    assert lock.pending == Some(t);
  }

  lemma Joins(lock: RWLock, threads: seq<Pc>, t: Thread, pc: Pc, id: Lock)
    requires Agrees(lock, threads, id) && t < |threads| && HoldOf(threads[t], id).Out? && HoldOf(pc, id).Reads?
    requires CanRead(lock)
    ensures Agrees(lock.(readers := lock.readers + {t}), threads[t := pc], id)
  {
  }

  lemma ReaderLeaves(lock: RWLock, threads: seq<Pc>, t: Thread, pc: Pc, id: Lock)
    requires Agrees(lock, threads, id) && t < |threads| && HoldOf(threads[t], id).Reads? && HoldOf(pc, id).Out?
    ensures Agrees(lock.(readers := lock.readers - {t}), threads[t := pc], id)
  {
  }

  lemma WriterLeaves(lock: RWLock, threads: seq<Pc>, t: Thread, pc: Pc, id: Lock)
    requires Agrees(lock, threads, id) && t < |threads| && HoldOf(threads[t], id).Writes? && HoldOf(pc, id).Out?
    ensures Agrees(lock.(writer := None), threads[t := pc], id)
  {
    assert lock.writer == Some(t);
  }

  lemma StreamTurn(s: State, t: Thread, filtered: bool)
    requires Wellformed(s) && Agrees(s.stream, s.threads, StreamLock) && CanStep(s, t)
    ensures Agrees(Step(s, t, filtered).stream, Step(s, t, filtered).threads, StreamLock)
  {
    var s', pc := Step(s, t, filtered), s.threads[t];
    var pc' := s'.threads[t];
    StepGrows(s, t, filtered);
    assert Sane(s, pc);
    match pc
    case Want(call) =>
      if Exclusive(call) {
        Announces(s.stream, s.threads, t, pc', StreamLock);
      } else {
        Joins(s.stream, s.threads, t, pc', StreamLock);
      }
    case Pending(_) => Enters(s.stream, s.threads, t, pc', StreamLock);
    case Leaving(_) => WriterLeaves(s.stream, s.threads, t, pc', StreamLock);
    case Done(_) => ReaderLeaves(s.stream, s.threads, t, pc', StreamLock);
    case _ => AgreesApart(s.stream, s.threads, t, pc', StreamLock);
  }

  lemma PoolEntered(s: State, t: Thread, filtered: bool, i: nat)
    requires Wellformed(s) && CanStep(s, t) && (s.threads[t].WantPool? || s.threads[t].PendingPool?)
    requires i < |s.pools| && Agrees(s.pools[i], s.threads, PoolLock(i))
    ensures Agrees(Step(s, t, filtered).pools[i], Step(s, t, filtered).threads, PoolLock(i))
  {
    var lock, pc, pc' := s.pools[i], s.threads[t], Step(s, t, filtered).threads[t];
    assert Sane(s, pc);
    if i != pc.i {
      AgreesApart(lock, s.threads, t, pc', PoolLock(i));
    } else if pc.PendingPool? {
      Enters(lock, s.threads, t, pc', PoolLock(i));
    } else if pc.call.Broadcast? {
      Announces(lock, s.threads, t, pc', PoolLock(i));
    } else {
      Joins(lock, s.threads, t, pc', PoolLock(i));
    }
  }

  lemma PoolLeft(s: State, t: Thread, filtered: bool, i: nat)
    requires Wellformed(s) && CanStep(s, t) && (s.threads[t].InPool? || s.threads[t].Sending?)
    requires i < |s.pools| && Agrees(s.pools[i], s.threads, PoolLock(i))
    ensures Agrees(Step(s, t, filtered).pools[i], Step(s, t, filtered).threads, PoolLock(i))
  {
    var lock, pc, pc' := s.pools[i], s.threads[t], Step(s, t, filtered).threads[t];
    assert Sane(s, pc);
    if HoldOf(pc', PoolLock(i)) == HoldOf(pc, PoolLock(i)) {
      AgreesApart(lock, s.threads, t, pc', PoolLock(i));
    } else if pc.call.Broadcast? {
      WriterLeaves(lock, s.threads, t, pc', PoolLock(i));
    } else {
      ReaderLeaves(lock, s.threads, t, pc', PoolLock(i));
    }
  }

  lemma PoolTurn(s: State, t: Thread, filtered: bool, i: nat)
    requires Wellformed(s) && CanStep(s, t) && i < |Step(s, t, filtered).pools|
    requires i < |s.pools| ==> Agrees(s.pools[i], s.threads, PoolLock(i))
    ensures Agrees(Step(s, t, filtered).pools[i], Step(s, t, filtered).threads, PoolLock(i))
  {
    var s', pc := Step(s, t, filtered), s.threads[t];
    assert Sane(s, pc);
    if i >= |s.pools| {
      assert s'.pools[i] == FREE && s'.threads == s.threads[t := s'.threads[t]];
      forall u: Thread | u < |s'.threads| ensures HoldOf(s'.threads[u], PoolLock(i)).Out? {
        assert Sane(s, s.threads[u]);
      }
    } else if pc.WantPool? || pc.PendingPool? {
      PoolEntered(s, t, filtered, i);
    } else if pc.InPool? || pc.Sending? {
      PoolLeft(s, t, filtered, i);
    } else {
      AgreesApart(s.pools[i], s.threads, t, s'.threads[t], PoolLock(i));
    }
  }

  lemma SocketsTurn(s: State, t: Thread, filtered: bool)
    requires Wellformed(s) && SocketsAgree(s.sockets, s.threads) && CanStep(s, t)
    ensures SocketsAgree(Step(s, t, filtered).sockets, Step(s, t, filtered).threads)
  {
    var s', pc := Step(s, t, filtered), s.threads[t];
    assert Sane(s, pc);
    StepGrows(s, t, filtered);
    if pc.Writing? {
      Lets(s.sockets, s.threads, t, s'.threads[t]);
    } else if pc.Sending? && pc.todo != [] {
      Takes(s.sockets, s.threads, t, s'.threads[t]);
    } else {
      Unconcerned(s.sockets, s.threads, t, s'.threads[t]);
    }
  }

  lemma Lets(sockets: map<Conn, Thread>, threads: seq<Pc>, t: Thread, pc: Pc)
    requires SocketsAgree(sockets, threads) && t < |threads| && threads[t].Writing? && threads[t].todo != [] && !pc.Writing?
    ensures SocketsAgree(sockets - {threads[t].todo[0]}, threads[t := pc])
  {
    assert HoldsSocket(threads[t], threads[t].todo[0]);
  }

  lemma Takes(sockets: map<Conn, Thread>, threads: seq<Pc>, t: Thread, pc: Pc)
    requires SocketsAgree(sockets, threads) && t < |threads| && !threads[t].Writing?
    requires pc.Writing? && pc.todo != [] && pc.todo[0] !in sockets
    ensures SocketsAgree(sockets[pc.todo[0] := t], threads[t := pc])
  {
    assert !HoldsSocket(threads[t], pc.todo[0]);
  }

  lemma Unconcerned(sockets: map<Conn, Thread>, threads: seq<Pc>, t: Thread, pc: Pc)
    requires SocketsAgree(sockets, threads) && t < |threads| && !threads[t].Writing? && !pc.Writing?
    ensures SocketsAgree(sockets, threads[t := pc])
  {
    var after := threads[t := pc];
    forall c, u: Thread | u < |threads| ensures HoldsSocket(after[u], c) <==> c in sockets && sockets[c] == u {
      assert HoldsSocket(threads[u], c) <==> c in sockets && sockets[c] == u;
    }
  }

  lemma SaneGrows(s: State, s': State, pc: Pc)
    requires Sane(s, pc) && s.keys <= s'.keys
    ensures Sane(s', pc)
  {
  }

  lemma EditGrows(s: State, call: Call)
    requires |s.keys| == |s.conns| == |s.caches| == |s.pools| > 0 && Exclusive(call)
    ensures var s' := Edit(s, call);
      s.keys <= s'.keys && |s'.keys| == |s'.conns| == |s'.caches| == |s'.pools| && s'.threads == s.threads
      && s'.stream == s.stream && s'.sockets == s.sockets
  {
  }

  lemma StepGrows(s: State, t: Thread, filtered: bool)
    requires Wellformed(s) && CanStep(s, t)
    ensures var s' := Step(s, t, filtered);
      s.keys <= s'.keys && |s'.keys| == |s'.conns| == |s'.caches| == |s'.pools| && |s'.threads| == |s.threads|
      && s'.threads == s.threads[t := s'.threads[t]]
  {
    assert Sane(s, s.threads[t]);
    if s.threads[t].Inside? {
      EditGrows(s, s.threads[t].call);
    }
  }

  lemma OwnTurn(s: State, t: Thread, filtered: bool)
    requires Wellformed(s) && CanStep(s, t) && s.keys <= Step(s, t, filtered).keys
    ensures Sane(Step(s, t, filtered), Step(s, t, filtered).threads[t])
  {
    assert Sane(s, s.threads[t]);
    if s.threads[t].Inside? {
      EditGrows(s, s.threads[t].call);
    }
  }

  lemma SaneTurn(s: State, t: Thread, filtered: bool)
    requires Wellformed(s) && CanStep(s, t)
    ensures Wellformed(Step(s, t, filtered))
  {
    var s' := Step(s, t, filtered);
    StepGrows(s, t, filtered);
    OwnTurn(s, t, filtered);
    forall u | 0 <= u < |s'.threads| ensures Sane(s', s'.threads[u]) {
      if u != t {
        assert s'.threads[u] == s.threads[u];
        SaneGrows(s, s', s.threads[u]);
      }
    }
  }

  lemma StepInv(s: State, t: Thread, filtered: bool)
    requires Inv(s) && CanStep(s, t)
    ensures Inv(Step(s, t, filtered))
  {
    SaneTurn(s, t, filtered);
    StreamTurn(s, t, filtered);
    forall i: nat | i < |Step(s, t, filtered).pools|
      ensures Agrees(Step(s, t, filtered).pools[i], Step(s, t, filtered).threads, PoolLock(i))
    {
      PoolTurn(s, t, filtered, i);
    }
    SocketsTurn(s, t, filtered);
  }

  ghost predicate StepsTo(s: State, s': State) {
    exists t: Thread, filtered: bool :: Wellformed(s) && CanStep(s, t) && s' == Step(s, t, filtered)
  }

  ghost predicate StartsTo(s: State, s': State) {
    exists t: Thread, call: Call :: CanCall(s, t, call) && s' == Start(s, t, call)
  }

  // Whatever calls are made by however many threads in whatever order.
  lemma {:induction false} ReachableInv(run: seq<State>, threads: nat)
    requires run != [] && run[0] == Init(threads)
    requires forall k :: 0 <= k < |run| - 1 ==> StepsTo(run[k], run[k + 1]) || StartsTo(run[k], run[k + 1])
    ensures Inv(run[|run| - 1])
  {
    if |run| == 1 {
      InitInv(threads);
    } else {
      var s, s' := run[|run| - 2], run[|run| - 1];
      ReachableInv(run[..|run| - 1], threads);
      if StepsTo(s, s') {
        var t: Thread, filtered: bool :| CanStep(s, t) && s' == Step(s, t, filtered);
        StepInv(s, t, filtered);
      } else {
        var t: Thread, call: Call :| CanCall(s, t, call) && s' == Start(s, t, call);
        StartInv(s, t, call);
      }
    }
  }

  // -------------------------------------------------------------- no data race

  // What the next step of a thread reads and writes.
  datatype Place = Table | Connections(i: nat) | CacheOf(i: nat) | Socket(client: Conn)

  predicate WritesNext(s: State, t: Thread, place: Place)
    requires t < |s.threads|
  {
    match s.threads[t]
    case Inside(call) => !place.Socket?
    case InPool(call, i) => call.Broadcast? && place == CacheOf(i)
    case Writing(_, _, todo) => todo != [] && place == Socket(todo[0])
    case _ => false
  }

  predicate ReadsNext(s: State, t: Thread, place: Place)
    requires t < |s.threads|
  {
    match s.threads[t]
    case Inside(call) => !place.Socket?
    case At(call, i) => place.Table? || (call.BroadcastClock? && place == Connections(0))
    case InPool(call, i) => place == CacheOf(i) || (call.Broadcast? && place == Connections(i)) || place.Table?
    case WantPool(_, _) => place.Table?
    case PendingPool(_, _) => place.Table?
    case _ => false
  }

  lemma OneHolder(s: State, t: Thread, u: Thread, c: Conn)
    requires Inv(s) && t < |s.threads| && u < |s.threads| && t != u && HoldsSocket(s.threads[t], c)
    ensures !HoldsSocket(s.threads[u], c)
  {
    assert s.sockets[c] == t;
  }

  // No two threads are about to touch one place with a write among them.
  lemma NoRace(s: State, t: Thread, u: Thread, place: Place)
    requires Inv(s) && t < |s.threads| && u < |s.threads| && t != u
    requires WritesNext(s, t, place)
    ensures !WritesNext(s, u, place) && !ReadsNext(s, u, place)
  {
    assert Sane(s, s.threads[t]) && Sane(s, s.threads[u]);
    match s.threads[t]
    case Inside(_) => assert s.stream.writer == Some(t);
    case InPool(_, i) =>
      assert t in s.stream.readers;
      assert Agrees(s.pools[i], s.threads, PoolLock(i));
      assert s.pools[i].writer == Some(t);
    case Writing(_, _, todo) =>
      OneHolder(s, t, u, todo[0]);
  }

  // While a thread holds a lock, the others leave alone what it guards: the
  // sections under it are as good as atomic.
  lemma SectionsAreStable(s: State, t: Thread, u: Thread, filtered: bool)
    requires Inv(s) && t < |s.threads| && t != u && CanStep(s, u)
    ensures var s' := Step(s, u, filtered);
      && s'.threads[t] == s.threads[t]
      && (HoldOf(s.threads[t], StreamLock).Reads? ==> s'.keys == s.keys && s'.conns == s.conns)
      && (HoldOf(s.threads[t], StreamLock).Writes? ==> s'.keys == s.keys && s'.conns == s.conns && s'.caches == s.caches)
      && (forall i: nat :: i < |s.pools| && (HoldOf(s.threads[t], PoolLock(i)).Reads? || HoldOf(s.threads[t], PoolLock(i)).Writes?) ==>
            s'.caches[i] == s.caches[i] && s'.conns[i] == s.conns[i])
  {
    assert Sane(s, s.threads[t]) && Sane(s, s.threads[u]);
    match s.threads[u]
    case Inside(_) => assert s.stream.writer == Some(u);
    case InPool(_, i) =>
      assert u in s.stream.readers;
      assert Agrees(s.pools[i], s.threads, PoolLock(i));
    case _ =>
  }

  // A step changes no place that it does not declare.
  lemma ChangesAreDeclared(s: State, t: Thread, filtered: bool, i: nat)
    requires Inv(s) && CanStep(s, t) && i < |s.keys|
    ensures var s' := Step(s, t, filtered);
      && (s'.keys != s.keys ==> WritesNext(s, t, Table))
      && (s'.conns[i] != s.conns[i] ==> WritesNext(s, t, Connections(i)))
      && (s'.caches[i] != s.caches[i] ==> WritesNext(s, t, CacheOf(i)))
  {
    assert Sane(s, s.threads[t]);
  }

  // ------------------------------------------------------------- no deadlock

  // A thread that only waits for a read-write lock is let in, or the lock is
  // held by a thread further down the order stream, pool, connection.
  ghost predicate SomeoneCanStep(s: State) {
    exists t: Thread :: CanStep(s, t)
  }

  ghost predicate AllIdle(s: State) {
    forall t :: 0 <= t < |s.threads| ==> s.threads[t].Idle?
  }

  // No connection is waited for in vain.
  lemma SocketsMove(s: State, t: Thread)
    requires Inv(s) && t < |s.threads| && s.threads[t].Sending?
    ensures SomeoneCanStep(s)
  {
    var todo := s.threads[t].todo;
    if todo == [] || todo[0] !in s.sockets {
      assert CanStep(s, t);
    } else {
      var u := s.sockets[todo[0]];
      assert HoldsSocket(s.threads[u], todo[0]);
      assert CanStep(s, u);
    }
  }

  // Who holds a pool's lock is at work in it or at its connections.
  lemma PoolHolderMoves(s: State, t: Thread, i: nat)
    requires Inv(s) && t < |s.threads| && (HoldOf(s.threads[t], PoolLock(i)).Reads? || HoldOf(s.threads[t], PoolLock(i)).Writes?)
    ensures SomeoneCanStep(s)
  {
    if s.threads[t].Sending? {
      SocketsMove(s, t);
    } else {
      assert CanStep(s, t);
    }
  }

  lemma PoolMoves(s: State, i: nat)
    requires Inv(s) && i < |s.pools| && s.pools[i] != FREE
    ensures SomeoneCanStep(s)
  {
    var lock := s.pools[i];
    assert Agrees(lock, s.threads, PoolLock(i));
    if lock.readers != {} {
      var u :| u in lock.readers;
      PoolHolderMoves(s, u, i);
    } else if lock.writer.Some? {
      PoolHolderMoves(s, lock.writer.value, i);
    } else {
      var u := lock.pending.value;
      assert HoldOf(s.threads[u], PoolLock(i)).Waits?;
      assert Sane(s, s.threads[u]);
      assert CanStep(s, u);
    }
  }

  lemma ReaderMoves(s: State, t: Thread)
    requires Inv(s) && t < |s.threads| && HoldOf(s.threads[t], StreamLock).Reads?
    ensures SomeoneCanStep(s)
  {
    var pc := s.threads[t];
    assert Sane(s, pc);
    if pc.Sending? {
      SocketsMove(s, t);
    } else if (pc.WantPool? || pc.PendingPool?) && s.pools[pc.i] != FREE {
      PoolMoves(s, pc.i);
    } else {
      assert pc.PendingPool? ==> CanWrite(s.pools[pc.i]);
      assert CanStep(s, t);
    }
  }

  lemma StreamMoves(s: State)
    requires Inv(s) && s.stream != FREE
    ensures SomeoneCanStep(s)
  {
    if s.stream.readers != {} {
      var u :| u in s.stream.readers;
      ReaderMoves(s, u);
    } else if s.stream.writer.Some? {
      assert CanStep(s, s.stream.writer.value);
    } else {
      assert CanStep(s, s.stream.pending.value);
    }
  }

  // As long as a call is under way, some thread can take a step.
  lemma NoDeadlock(s: State)
    requires Inv(s) && !AllIdle(s)
    ensures SomeoneCanStep(s)
  {
    var t :| 0 <= t < |s.threads| && !s.threads[t].Idle?;
    var pc := s.threads[t];
    if s.stream != FREE {
      StreamMoves(s);
    } else if pc.Sending? {
      SocketsMove(s, t);
    } else {
      assert HoldOf(pc, StreamLock).Out?;
      assert CanStep(s, t);
    }
  }

  // -------------------------------------------------------------- every call ends

  // What a broadcast has left to do from pool i on.
  function Work(conns: seq<seq<Conn>>, i: nat): (w: nat)
    ensures i < |conns| ==> w == 6 + 2 * |conns[i]| + Work(conns, i + 1)
    decreases if i < |conns| then |conns| - i else 0
  {
    if i >= |conns| then 0 else 6 + 2 * |conns[i]| + Work(conns, i + 1)
  }

  // The steps a thread inside the stream lock, or writing to one connection, has
  // at most left.
  function Left(pc: Pc, conns: seq<seq<Conn>>): nat {
    match pc
    case Idle => 0
    case Want(_) => 0
    case Pending(_) => 0
    case Inside(_) => 2
    case Leaving(_) => 1
    case At(call, i) =>
      if call.Broadcast? then 2 + Work(conns, i)
      else if call.GetCacheVersion? then 5
      else 4 + if |conns| > 0 then 2 * |conns[0]| else 0
    case WantPool(call, i) => if call.Broadcast? then 6 + 2 * (if i < |conns| then |conns[i]| else 0) + 1 + Work(conns, i + 1) else 4
    case PendingPool(_, i) => 6 + 2 * (if i < |conns| then |conns[i]| else 0) + Work(conns, i + 1)
    case InPool(call, i) => if call.Broadcast? then 5 + 2 * (if i < |conns| then |conns[i]| else 0) + Work(conns, i + 1) else 3
    case Sending(call, i, todo) => 3 + 2 * |todo| + if call.Broadcast? then Work(conns, i + 1) else 0
    case Writing(call, i, todo) => 2 + 2 * |todo| + if call.Broadcast? then Work(conns, i + 1) else 0
    case Done(_) => 1
  }

  function Queued(pc: Pc): nat {
    match pc
    case Want(_) => 2
    case Pending(_) => 1
    case _ => 0
  }

  function Sum(xs: seq<nat>): nat {
    if xs == [] then 0 else xs[0] + Sum(xs[1..])
  }

  lemma {:induction false} SumDrops(xs: seq<nat>, ys: seq<nat>, t: nat)
    requires |xs| == |ys| && t < |xs| && ys[t] < xs[t]
    requires forall u :: 0 <= u < |xs| && u != t ==> ys[u] == xs[u]
    ensures Sum(ys) < Sum(xs)
  {
    if t == 0 {
      assert xs[1..] == ys[1..];
    } else {
      SumDrops(xs[1..], ys[1..], t - 1);
    }
  }

  function QueueLength(s: State): nat {
    Sum(seq(|s.threads|, t requires 0 <= t < |s.threads| => Queued(s.threads[t])))
  }

  function StepsLeft(s: State): nat {
    Sum(seq(|s.threads|, t requires 0 <= t < |s.threads| => Left(s.threads[t], s.conns)))
  }

  // A step takes a thread out of the queue for the stream's lock, or a step
  // nearer to the end of its call.
  lemma StepLeavesLess(s: State, t: Thread, filtered: bool)
    requires Inv(s) && CanStep(s, t)
    ensures var s' := Step(s, t, filtered);
      QueueLength(s') < QueueLength(s) || (QueueLength(s') == QueueLength(s) && StepsLeft(s') < StepsLeft(s))
  {
    var s', pc := Step(s, t, filtered), s.threads[t];
    assert Sane(s, pc);
    var qs, qs' := seq(|s.threads|, u requires 0 <= u < |s.threads| => Queued(s.threads[u])), seq(|s'.threads|, u requires 0 <= u < |s'.threads| => Queued(s'.threads[u]));
    if pc.Want? || pc.Pending? {
      SumDrops(qs, qs', t);
    } else {
      assert qs == qs';
      var ls, ls' := seq(|s.threads|, u requires 0 <= u < |s.threads| => Left(s.threads[u], s.conns)), seq(|s'.threads|, u requires 0 <= u < |s'.threads| => Left(s'.threads[u], s'.conns));
      forall u | 0 <= u < |s.threads| && u != t ensures ls[u] == ls'[u] {
        OthersLeft(s, t, u, filtered);
      }
      OwnLeft(s, t, filtered);
      SumDrops(ls, ls', t);
    }
  }

  lemma OthersLeft(s: State, t: Thread, u: Thread, filtered: bool)
    requires Inv(s) && CanStep(s, t) && u < |s.threads| && u != t
    ensures Left(Step(s, t, filtered).threads[u], Step(s, t, filtered).conns) == Left(s.threads[u], s.conns)
  {
    SectionsAreStable(s, u, t, filtered);
    assert Sane(s, s.threads[u]);
  }

  lemma OwnLeft(s: State, t: Thread, filtered: bool)
    requires Wellformed(s) && CanStep(s, t) && !s.threads[t].Want? && !s.threads[t].Pending?
    ensures Left(Step(s, t, filtered).threads[t], Step(s, t, filtered).conns) < Left(s.threads[t], s.conns)
  {
    assert Sane(s, s.threads[t]);
  }

  ghost predicate Run(run: seq<State>) {
    run != [] && forall k :: 0 <= k < |run| - 1 ==> StepsTo(run[k], run[k + 1])
  }

  lemma RunExtends(s: State, rest: seq<State>)
    requires Run(rest) && StepsTo(s, rest[0])
    ensures Run([s] + rest)
  {
  }

  // Whatever state the calls have reached, all of them can still return.
  lemma {:induction false} AllCallsReturn(s: State) returns (run: seq<State>)
    requires Inv(s)
    ensures Run(run) && run[0] == s && AllIdle(run[|run| - 1])
    decreases QueueLength(s), StepsLeft(s)
  {
    if AllIdle(s) {
      run := [s];
    } else {
      NoDeadlock(s);
      var t: Thread :| CanStep(s, t);
      var s' := Step(s, t, false);
      StepInv(s, t, false);
      StepLeavesLess(s, t, false);
      var rest := AllCallsReturn(s');
      assert StepsTo(s, s');
      RunExtends(s, rest);
      run := [s] + rest;
    }
  }

  ghost predicate StepAt(run: nat -> State, j: nat) {
    StepsTo(run(j), run(j + 1))
  }

  // And however the threads are scheduled, without new calls they come to an end.
  lemma {:induction false} NoEndlessRun(run: nat -> State, k: nat)
    requires Inv(run(k)) && forall j: nat :: j >= k ==> StepAt(run, j)
    ensures false
    decreases QueueLength(run(k)), StepsLeft(run(k))
  {
    var s, s' := run(k), run(k + 1);
    assert StepAt(run, k);
    var t: Thread, filtered: bool :| CanStep(s, t) && s' == Step(s, t, filtered);
    StepInv(s, t, filtered);
    StepLeavesLess(s, t, filtered);
    NoEndlessRun(run, k + 1);
  }
}
