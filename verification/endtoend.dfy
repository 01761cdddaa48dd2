// From the store to the subscriber: a pool's cache is what a read gives
// (Freshness), and a synced client holds what its pool's cache holds
// (Replication), so a subscriber ends up with the data that are stored.
module EndToEnd {
  import opened Common
  import opened Text
  import opened Json
  import opened Messages
  import opened Protocol
  import opened Replication
  import opened Freshness
  import opened Subscription

  // What a client has been delivered and holds is what a read would give.
  ghost predicate HoldsTheStore(env: Env, s: State, c: nat)
    requires c in s.conns
  {
    match Fresh(env, s.store, s.conns[c].key)
    case None => true
    case Some(d) => Same(env.lib, s.conns[c].cache, OrEmptyObject(d))
  }

  lemma NobodySendsAtRest(s: State, c: nat)
    requires Quiescent(s)
    ensures forall n: nat :: !SendingTo(s.workers, n, c)
  {
  }

  lemma CleanGivesFresh(env: Env, store: map<string, Text>, p: Pool, cache: Text)
    requires Lawful(env.lib) && p.data != [] && Clean(env, store, p) && Same(env.lib, cache, p.data) && Fresh(env, store, p.key).Some?
    ensures Same(env.lib, cache, OrEmptyObject(Fresh(env, store, p.key).value))
  {
    SameTransitive(env.lib, cache, p.data, OrEmptyObject(Fresh(env, store, p.key).value));
  }

  lemma OwnPool(env: Env, s: State, c: nat)
    requires Inv(env, s) && c in s.conns
    ensures 1 <= s.conns[c].pool < |s.pools| && s.pools[s.conns[c].pool].key == s.conns[c].key
  {
    PoolOfConn(env, s, c);
  }

  // A synced client that has been sent everything, at rest, holds what a read
  // gives, unless its own pool lost an update that nothing has repaired since.
  lemma SyncedAtRestHoldsTheStore(env: Env, s: State, actions: seq<Action>, s': State, c: nat)
    requires Lawful(env.lib) && Init(s) && Run(env, s, actions, s') && Quiescent(s')
    requires Synced(env, s', c) && s'.conns[c].queue == [] && s'.pools[s'.conns[c].pool].data != []
    requires !LostIn(env, s, actions, s'.conns[c].pool, false)
    ensures HoldsTheStore(env, s', c)
  {
    InitInv(env, s);
    RunInv(env, s, actions, s');
    OwnPool(env, s', c);
    NoLostUpdate(env, s, actions, s', s'.conns[c].pool);
    AtRestAccountedIsClean(env, s', s'.conns[c].pool);
    NobodySendsAtRest(s', c);
    DrainedClientHoldsCache(env, s', c);
    if Fresh(env, s'.store, s'.conns[c].key).Some? {
      CleanGivesFresh(env, s'.store, s'.pools[s'.conns[c].pool], s'.conns[c].cache);
    }
  }

  // In particular after a run that lost no update on any pool.
  lemma SyncedAfterOrderlyRunHoldsTheStore(env: Env, s: State, actions: seq<Action>, s': State, c: nat)
    requires Lawful(env.lib) && Init(s) && Run(env, s, actions, s') && OrderlyRun(env, s, actions) && Quiescent(s')
    requires Synced(env, s', c) && s'.conns[c].queue == [] && s'.pools[s'.conns[c].pool].data != []
    ensures HoldsTheStore(env, s', c)
  {
    InitInv(env, s);
    RunInv(env, s, actions, s');
    OwnPool(env, s', c);
    OrderlyLosesNothing(env, s, actions, s'.conns[c].pool);
    SyncedAtRestHoldsTheStore(env, s, actions, s', c);
  }

  // The run of one subscriber: the server up to its registration, the handshake
  // with nothing interfering, the first message, and whatever comes after.
  function Story(before: seq<Action>, start: Action, during: seq<Action>, f: nat, after: seq<Action>): seq<Action> {
    before + ([start] + (during + ([InitialWrite(f)] + after)))
  }

  lemma StoryRuns(env: Env, s: State, before: seq<Action>, at: State, start: Action, during: seq<Action>, written: State, f: nat,
                  after: seq<Action>, s': State)
    requires Run(env, s, before, at) && Enabled(env, at, start) && Run(env, Next(env, at, start), during, written)
    requires Enabled(env, written, InitialWrite(f)) && Run(env, Next(env, written, InitialWrite(f)), after, s')
    ensures Run(env, s, Story(before, start, during, f, after), s')
  {
    var greeted := Next(env, written, InitialWrite(f));
    Chain(env, written, InitialWrite(f), greeted, after, s');
    RunAppend(env, Next(env, at, start), during, written, [InitialWrite(f)] + after, s');
    Chain(env, at, start, Next(env, at, start), during + ([InitialWrite(f)] + after), s');
    RunAppend(env, s, before, at, [start] + (during + ([InitialWrite(f)] + after)), s');
  }

  lemma GreetingRuns(env: Env, s: State, before: seq<Action>, at: State, start: Action, during: seq<Action>, written: State, f: nat)
    requires Run(env, s, before, at) && Enabled(env, at, start) && Run(env, Next(env, at, start), during, written)
    requires Enabled(env, written, InitialWrite(f))
    ensures Run(env, s, before + ([start] + (during + [InitialWrite(f)])), NextInitialWrite(written, f))
  {
    var greeted := Next(env, written, InitialWrite(f));
    assert [InitialWrite(f)] + [] == [InitialWrite(f)];
    Chain(env, written, InitialWrite(f), greeted, [], greeted);
    RunAppend(env, Next(env, at, start), during, written, [InitialWrite(f)], greeted);
    Chain(env, at, start, Next(env, at, start), during + [InitialWrite(f)], greeted);
    RunAppend(env, s, before, at, [start] + (during + [InitialWrite(f)]), greeted);
  }

  // A handshake that nothing interfered with, up to its initial write.
  ghost predicate Undisputed(env: Env, s: State, before: seq<Action>, at: State, start: Action, during: seq<Action>, written: State) {
    && Init(s) && Run(env, s, before, at)
    && start.Subscribe? && Enabled(env, at, start) && NothingOutstanding(env, at, start.key)
    && Run(env, Next(env, at, start), during, written) && Undisturbed(env, Next(env, at, start), during, start.f)
    && Enabled(env, written, InitialWrite(start.f)) && start.c in written.conns && written.conns[start.c].open
  }

  lemma HandshakeSyncs(env: Env, s: State, before: seq<Action>, at: State, start: Action, during: seq<Action>, written: State)
    requires Lawful(env.lib) && Undisputed(env, s, before, at, start, during, written)
    ensures Synced(env, NextInitialWrite(written, start.f), start.c)
  {
    UndisturbedHandshakeSyncs(env, s, before, at, start.c, start.f, start.key, start.presented, start.cache, during, written);
  }

  lemma GreetedStaysSynced(env: Env, s: State, first: seq<Action>, mid: State, second: seq<Action>, s': State, c: nat)
    requires Lawful(env.lib) && Init(s) && Run(env, s, first, mid) && Synced(env, mid, c)
    requires Run(env, mid, second, s') && Spares(env, mid, second, c)
    ensures Synced(env, s', c)
  {
    InitInv(env, s);
    RunInv(env, s, first, mid);
    SyncRun(env, mid, second, s', c);
  }

  // What one subscriber needs: such a handshake, nobody overwriting its cache
  // afterwards, and everything delivered in the end.
  ghost predicate ServedWell(env: Env, s: State, before: seq<Action>, at: State, start: Action, during: seq<Action>,
                             written: State, after: seq<Action>, s': State)
  {
    && Undisputed(env, s, before, at, start, during, written)
    && var greeted := NextInitialWrite(written, start.f);
    && Run(env, greeted, after, s') && Spares(env, greeted, after, start.c)
    && Quiescent(s') && start.c in s'.conns && s'.conns[start.c].queue == []
    && s'.conns[start.c].pool < |s'.pools| && s'.pools[s'.conns[start.c].pool].data != []
  }

  lemma ServedWellIsSynced(env: Env, s: State, before: seq<Action>, at: State, start: Action, during: seq<Action>,
                           written: State, after: seq<Action>, s': State)
    requires Lawful(env.lib) && ServedWell(env, s, before, at, start, during, written, after, s')
    ensures Synced(env, s', start.c)
  {
    HandshakeSyncs(env, s, before, at, start, during, written);
    GreetingRuns(env, s, before, at, start, during, written, start.f);
    GreetedStaysSynced(env, s, before + ([start] + (during + [InitialWrite(start.f)])), NextInitialWrite(written, start.f),
                       after, s', start.c);
  }

  lemma ServedWellRuns(env: Env, s: State, before: seq<Action>, at: State, start: Action, during: seq<Action>,
                       written: State, after: seq<Action>, s': State)
    requires ServedWell(env, s, before, at, start, during, written, after, s')
    ensures Run(env, s, Story(before, start, during, start.f, after), s')
  {
    StoryRuns(env, s, before, at, start, during, written, start.f, after, s');
  }

  // Such a subscriber holds, when all has come to rest, what a read would give,
  // unless its own pool lost an update that nothing has repaired since: whatever
  // the writers, the workers and the other subscribers did, and whatever other
  // pools lost, in the meantime.
  lemma SubscriberEndsWithTheData(env: Env, s: State, before: seq<Action>, at: State, start: Action, during: seq<Action>,
                                  written: State, after: seq<Action>, s': State)
    requires Lawful(env.lib) && ServedWell(env, s, before, at, start, during, written, after, s')
    requires !LostIn(env, s, Story(before, start, during, start.f, after), s'.conns[start.c].pool, false)
    ensures HoldsTheStore(env, s', start.c)
  {
    ServedWellIsSynced(env, s, before, at, start, during, written, after, s');
    ServedWellRuns(env, s, before, at, start, during, written, after, s');
    SyncedAtRestHoldsTheStore(env, s, Story(before, start, during, start.f, after), s', start.c);
  }

  // It does if the run lost no update on any pool.
  lemma OrderlyRunServesSubscriber(env: Env, s: State, before: seq<Action>, at: State, start: Action, during: seq<Action>,
                                   written: State, after: seq<Action>, s': State)
    requires Lawful(env.lib) && ServedWell(env, s, before, at, start, during, written, after, s')
    requires OrderlyRun(env, s, Story(before, start, during, start.f, after))
    ensures HoldsTheStore(env, s', start.c)
  {
    ServedWellIsSynced(env, s, before, at, start, during, written, after, s');
    ServedWellRuns(env, s, before, at, start, during, written, after, s');
    SyncedAfterOrderlyRunHoldsTheStore(env, s, Story(before, start, during, start.f, after), s', start.c);
  }

  // And so if every step was of the harmless kinds.
  lemma CarefulRunServesSubscriber(env: Env, s: State, before: seq<Action>, at: State, start: Action, during: seq<Action>,
                                   written: State, after: seq<Action>, s': State)
    requires Lawful(env.lib) && ServedWell(env, s, before, at, start, during, written, after, s')
    requires CarefulRun(env, s, Story(before, start, during, start.f, after))
    ensures HoldsTheStore(env, s', start.c)
  {
    CarefulRunIsOrderly(env, s, Story(before, start, during, start.f, after));
    OrderlyRunServesSubscriber(env, s, before, at, start, during, written, after, s');
  }
}
