// client/subscribeMultiple.go: several subscriptions folded into one state. The
// number of subscriptions is arbitrary; the program has it for 2, 3 and 4.
module Multi {
  import opened Common

  // How many lists wait in the channel of a subscription before it blocks.
  const CAPACITY := 10

  datatype MultiState<+T> = MultiState(data: seq<T>, updated: bool)

  // One receive of the state manager: from which channel, and the list.
  datatype Arrival<+T> = Arrival(from: nat, data: seq<T>)

  // The last list that came from a subscription; the empty list before the first.
  function Latest<T>(arrivals: seq<Arrival<T>>, i: nat): seq<T> {
    if arrivals == [] then []
    else
      var last := arrivals[|arrivals| - 1];
      if last.from == i then last.data else Latest(arrivals[..|arrivals| - 1], i)
  }

  // A callback for each arrival: every subscription's latest list, and a flag for
  // the one that brought it.
  ghost predicate CallsOf<T>(n: nat, arrivals: seq<Arrival<T>>, calls: seq<seq<MultiState<T>>>) {
    && |calls| == |arrivals|
    && (forall k :: 0 <= k < |calls| ==> |calls[k]| == n)
    && (forall k, j :: 0 <= k < |calls| && 0 <= j < n ==> calls[k][j].data == Latest(arrivals[..k + 1], j))
    && (forall k, j :: 0 <= k < |calls| && 0 <= j < n ==> (calls[k][j].updated <==> j == arrivals[k].from))
  }

  // The state manager, given what its select takes, in order: the callbacks it
  // makes.
  method Manage<T>(n: nat, arrivals: seq<Arrival<T>>) returns (calls: seq<seq<MultiState<T>>>)
    requires forall a <- arrivals :: a.from < n
    ensures CallsOf(n, arrivals, calls)
  {
    calls := [];
    var states: seq<seq<T>> := seq(n, _ => []);
    for k := 0 to |arrivals|
      invariant |calls| == k && |states| == n
      invariant forall j :: 0 <= j < n ==> states[j] == Latest(arrivals[..k], j)
      invariant forall m :: 0 <= m < k ==> |calls[m]| == n
      invariant forall m, j :: 0 <= m < k && 0 <= j < n ==> calls[m][j].data == Latest(arrivals[..m + 1], j)
      invariant forall m, j :: 0 <= m < k && 0 <= j < n ==> (calls[m][j].updated <==> j == arrivals[m].from)
    {
      var a := arrivals[k];
      assert a in arrivals && arrivals[..k + 1][..k] == arrivals[..k];
      states := states[a.from := a.data];
      calls := calls + [seq(n, j requires 0 <= j < n && n == |states| => MultiState(states[j], j == a.from))];
    }
  }

  // ------------------------------------------------- any interleaving of channels

  // sent: what each subscription put into its channel since the start; channels:
  // what is still in there; arrivals: what the manager took out.
  datatype Hub<T> = Hub(sent: seq<seq<seq<T>>>, channels: seq<seq<seq<T>>>, arrivals: seq<Arrival<T>>, cancelled: bool, stopped: bool)

  // A subscription sends, blocking while its channel is full; once the context is
  // cancelled it may drop its list instead, and the manager may stop.
  datatype Step<T> = Send(i: nat, data: seq<T>) | DropSend(i: nat, data: seq<T>) | Receive(i: nat) | Cancel | Stop

  predicate Enabled<T>(h: Hub<T>, s: Step<T>)
    requires |h.sent| == |h.channels|
  {
    match s
    case Send(i, _) => i < |h.channels| && |h.channels[i]| < CAPACITY
    case DropSend(i, _) => i < |h.channels| && h.cancelled
    case Receive(i) => i < |h.channels| && h.channels[i] != [] && !h.stopped
    case Cancel => true
    case Stop => h.cancelled
  }

  function Next<T>(h: Hub<T>, s: Step<T>): Hub<T>
    requires |h.sent| == |h.channels| && Enabled(h, s)
  {
    match s
    case Send(i, data) => h.(sent := h.sent[i := h.sent[i] + [data]], channels := h.channels[i := h.channels[i] + [data]])
    case DropSend(_, _) => h
    case Receive(i) => h.(channels := h.channels[i := h.channels[i][1..]], arrivals := h.arrivals + [Arrival(i, h.channels[i][0])])
    case Cancel => h.(cancelled := true)
    case Stop => h.(stopped := true)
  }

  function Init<T>(n: nat): (h: Hub<T>) {
    Hub(seq(n, _ => []), seq(n, _ => []), [], false, false)
  }

  // What the manager took from one channel.
  function Taken<T>(arrivals: seq<Arrival<T>>, i: nat): seq<seq<T>> {
    if arrivals == [] then []
    else
      var last := arrivals[|arrivals| - 1];
      Taken(arrivals[..|arrivals| - 1], i) + if last.from == i then [last.data] else []
  }

  ghost predicate Inv<T>(n: nat, h: Hub<T>) {
    && |h.sent| == |h.channels| == n
    && (forall a <- h.arrivals :: a.from < n)
    && (forall i :: 0 <= i < n ==> |h.channels[i]| <= CAPACITY)
    && (forall i :: 0 <= i < n ==> Taken(h.arrivals, i) + h.channels[i] == h.sent[i])
  }

  lemma NextInv<T>(n: nat, h: Hub<T>, s: Step<T>)
    requires Inv(n, h) && Enabled(h, s)
    ensures Inv(n, Next(h, s))
  {
    var h' := Next(h, s);
    forall i | 0 <= i < n ensures Taken(h'.arrivals, i) + h'.channels[i] == h'.sent[i] {
      assert Taken(h.arrivals, i) + h.channels[i] == h.sent[i];
      match s
      case Send(j, data) =>
        if i == j {
          assert Taken(h.arrivals, i) + (h.channels[i] + [data]) == (Taken(h.arrivals, i) + h.channels[i]) + [data];
        }
      case Receive(j) =>
        assert h'.arrivals[..|h'.arrivals| - 1] == h.arrivals;
        if i == j {
          assert h.channels[i] == [h.channels[i][0]] + h.channels[i][1..];
        }
      case _ =>
    }
  }

  ghost predicate StepsTo<T(!new)>(h: Hub<T>, h': Hub<T>) {
    |h.sent| == |h.channels| && exists s: Step<T> :: Enabled(h, s) && h' == Next(h, s)
  }

  ghost predicate Run<T(!new)>(n: nat, run: seq<Hub<T>>) {
    run != [] && run[0] == Init(n) && forall k :: 0 <= k < |run| - 1 ==> StepsTo(run[k], run[k + 1])
  }

  lemma InitInv<T>(n: nat)
    ensures Inv<T>(n, Init(n))
  {
  }

  lemma {:induction false} RunInv<T(!new)>(n: nat, run: seq<Hub<T>>)
    requires Run(n, run)
    ensures Inv(n, run[|run| - 1])
    decreases |run|
  {
    if |run| == 1 {
      InitInv<T>(n);
    } else {
      var h, h' := run[|run| - 2], run[|run| - 1];
      RunInv(n, run[..|run| - 1]);
      assert StepsTo(h, h');
      var s: Step<T> :| Enabled(h, s) && h' == Next(h, s);
      NextInv(n, h, s);
    }
  }

  // ---------------------------------------------------------------- callbacks

  // The lists of the callbacks flagged for one subscription, in order.
  function Flagged<T>(calls: seq<seq<MultiState<T>>>, i: nat): seq<seq<T>>
    requires forall c <- calls :: i < |c|
  {
    if calls == [] then []
    else
      var last := calls[|calls| - 1];
      Flagged(calls[..|calls| - 1], i) + if last[i].updated then [last[i].data] else []
  }

  ghost predicate FlagsOne<T>(call: seq<MultiState<T>>) {
    exists j :: 0 <= j < |call| && call[j].updated && forall m :: 0 <= m < |call| && call[m].updated ==> m == j
  }

  lemma {:induction false} FlaggedIsTaken<T>(n: nat, arrivals: seq<Arrival<T>>, calls: seq<seq<MultiState<T>>>, i: nat)
    requires CallsOf(n, arrivals, calls) && i < n
    ensures Flagged(calls, i) == Taken(arrivals, i)
    decreases |calls|
  {
    if calls != [] {
      var before: seq<Arrival<T>>, rest: seq<seq<MultiState<T>>> := arrivals[..|arrivals| - 1], calls[..|calls| - 1];
      forall k, j | 0 <= k < |rest| && 0 <= j < n ensures rest[k][j].data == Latest(before[..k + 1], j) {
        assert before[..k + 1] == arrivals[..k + 1];
      }
      FlaggedIsTaken(n, before, rest, i);
      assert arrivals[..|calls|] == arrivals;
    }
  }

  // Whatever the interleaving: the callbacks flagged for a subscription are, in
  // order, a prefix of what it sent, at most ten short of it; and every callback
  // flags exactly one.
  lemma CallbacksFollowSubscriptions<T(!new)>(n: nat, run: seq<Hub<T>>, calls: seq<seq<MultiState<T>>>, i: nat)
    requires Run(n, run) && CallsOf(n, run[|run| - 1].arrivals, calls) && i < n
    ensures var h := run[|run| - 1];
      && |h.sent| == n
      && Flagged(calls, i) <= h.sent[i] && |h.sent[i]| <= |Flagged(calls, i)| + CAPACITY
      && forall c <- calls :: FlagsOne(c)
  {
    var h := run[|run| - 1];
    RunInv(n, run);
    FlaggedIsTaken(n, h.arrivals, calls, i);
    forall c: seq<MultiState<T>> | c in calls ensures FlagsOne(c) {
      var k :| 0 <= k < |calls| && calls[k] == c;
      var j := h.arrivals[k].from;
      assert h.arrivals[k] in h.arrivals;
      assert c[j].updated;
    }
  }

  // And every other field shows the list last flagged for it, or none yet.
  lemma {:induction false} FieldsHoldLast<T>(n: nat, arrivals: seq<Arrival<T>>, calls: seq<seq<MultiState<T>>>, i: nat)
    requires CallsOf(n, arrivals, calls) && i < n && calls != []
    ensures var flagged := Flagged(calls, i);
      calls[|calls| - 1][i].data == if flagged == [] then [] else flagged[|flagged| - 1]
  {
    FlaggedIsTaken(n, arrivals, calls, i);
    assert arrivals[..|arrivals|] == arrivals;
    LatestIsLastTaken(arrivals, i);
  }

  lemma {:induction false} LatestIsLastTaken<T>(arrivals: seq<Arrival<T>>, i: nat)
    ensures var taken := Taken(arrivals, i); Latest(arrivals, i) == if taken == [] then [] else taken[|taken| - 1]
    decreases |arrivals|
  {
    if arrivals != [] {
      LatestIsLastTaken(arrivals[..|arrivals| - 1], i);
    }
  }
}
