# Katamari, verified

Katamari keeps JSON documents under slash-separated keys and lets websocket clients subscribe to
keys and globs. This project models its core in Dafny and proves what the core is for: a subscriber
ends up with the data that are stored, whatever the writers, the broadcast workers and the other
subscribers do in the meantime (`EndToEnd.SubscriberEndsWithTheData`). That needs a handshake nothing
interferes with, a cache nobody overwrites and no unrepaired loss of an update on the subscriber's own
pool; what each of the three comes to is proved as an exact condition on single steps, and for each
there is a run that breaks it. `CarefulRunServesSubscriber` needs only what shows in each step itself.

`dafny verify dfyconfig.toml` checks everything.

## How the model is laid out

| files | what they model |
|---|---|
| `key`, `numerals` | the glob algebra, timestamped keys, base-16 numbers |
| `base64`, `text`, `messages` | the wire: what `Write` concatenates and `DecodeBuffer` reads, and the client's `PatchCache` |
| `json`, `jsontext` | the contract of the JSON Patch library, and a small concrete library that meets it |
| `patching` | `Stream.Patch`: snapshot or patch |
| `stream` | the `Stream`, `Pool` and `Conn` classes, updated in place |
| `protocol` | the server as a state machine of small steps: writers, workers, Refresh calls, queues, clients |
| `replication`, `freshness`, `versions`, `subscription`, `endtoend` | its safety properties over all runs, and what they give together |
| `witnesses`, `example` | runs that show where the code falls short, on a concrete server |
| `refinement` | the state machine's worker and handshake do what `Stream.Broadcast` and `Server.Ws` do |
| `locks` | who holds which mutex: no data race, no deadlock, every call returns |
| `memory`, `recency` | the in-memory store, its listings and what they say about the past |
| `storage` | the store and the read filters do what the state machine's storage steps and reads do |
| `filters` | filter routing, static mode, `fetch` and the `ws` handshake |
| `client`, `multi` | the receive loop of `Subscribe`, and the fold of several subscriptions |

Data are compared the way a client can tell them apart: equal once newlines are trimmed, or equal as
JSON values (`Json.Same`). The JSON Patch library is a parameter with one law (`Json.Lawful`); it is
not an empty one, since `JsonText.InstanceIsLawful` gives a library that keeps it. Likewise the clock is an
input that strictly increases, and read filters are deterministic functions that may refuse.

In `Protocol` nothing is atomic that the code does not make so. A subscription registers, reads, looks
for a version, stores a cache or not, and writes its first message in separate steps; a worker locks a
pool, reads, patches and writes in separate steps; a storage call changes one key at a time and hands
its event over later; and a read during which a visible key changes may return anything. The lock
steps that justify what is left atomic are the subject of `Locks` (`SectionsAreStable`).

## What turned out to be false of the code

* **A cache can stay stale for good.** `Refresh` reads, finds no version, and then stores what it read
  even when a write has changed the data since. `OvertakenRefreshStaysStale` is such a run. A `setCache`
  loses an update exactly when a read would give other data by then and no event is outstanding for
  its pool; with one outstanding, the next broadcast puts it right. Two other steps can: an event that
  is not sent though the pool needs it and no other is to come (`UnsentEventStaysStale`), and a change that
  a pool sees but whose event passes it by, again with no other to come (`LosesAt`). `StepLoses` proves for every step that it
  loses an update of a pool exactly when it is one of these, `NoLossIffOrderly` that a run keeps every
  pool owed an event or current throughout exactly when none of its steps is, and `NoLostUpdate` that a
  stale pool with no event to come has met one, and no broadcast since. Data that no visible change
  overtakes between the start of the fetch and `setCache` lose nothing (`UnovertakenCommitIsOrderly`),
  nor do writes of single keys, whatever the pools (`CarefulIsOrderly`, `CarefulRunsEndFresh`).
* **Deleting a glob can pass subscribers by.** `*/b` and `a/*` share `a/b` and do not peer
  (`CrossingGlobsDoNotPeer`), so a delete of one is lost on the other (`CrossingDeleteIsLost`). It cannot
  happen between paths of the class that `publish` admits (`AdmissiblePeersComplete`), and it happens only
  between paths that overlap and do not peer (`LosingDeleteCrosses`). The delete route and
  subscriptions admit all valid keys, so nothing enforces that class.
* **A subscription can start out of step.** `Refresh` pairs data read earlier with the version the cache
  has now, so a write in that window leaves the client with old data that it believes to be current
  (`SubscriberLeftBehind`). `UndisturbedHandshakeSyncs` says when it cannot, and `InitialWriteSyncs`
  exactly when the first message syncs a client, with frames queued before it or a broadcast under way or
  not.
* **A subscriber in step can be left behind.** A plain read that found no cache stores its data late, over
  a cache that a subscriber has since been synced with: the cache changes and the subscriber is not
  told (`LateCommitDesyncs`, `SubscriberDesynced`). `SyncStep` proves that this is the only way.
* **`Build` keeps a star that does not stand alone.** `ab*` is admitted by `publish` and stored under
  that very name (`BuildFreshIffStarAlone`).
* **Keys of two characters are invalid**: the regular expression wants one character or at least three
  (`ValidLengths`).
* **A refused read leaves the connection registered**: `ws` returns after `New` without closing it
  (`Server.Ws`).

## Model

| member | source | states |
|---|---|---|
| `Key.Contains` | key/key.go:71-78 | true exactly when some listed path peers with the key |
| `Key.ValidLengths` | key/key.go:12-21 | there are valid keys of every length but none and two |
| `Key.ValidBySegments` | key/key.go:12-21 | valid exactly when not two characters long and made of nonempty segments of letters, digits and stars, no two stars in a row |
| `Key.AdmissibleShape` | rest.go:40-43 | publish admits exactly the valid paths with no star or one at the end |
| `Key.MatchIsPortable` | key/key.go:24-38 | equality shortcut, star test, filepath.Match and slash count together are one wildcard match whose stars stop at `/`, whether or not the platform's stars cross it |
| `Key.MatchBySegments` | key/key.go:31-37 | matching is matching segment by segment |
| `Key.MatchReflexive` | key/key.go:25-27 | every path matches itself |
| `Key.MatchTransitive` | key/key.go:24-38 | pattern subsumption is sound: if p matches q read as a literal, p matches all that q matches |
| `Key.MatchAntisymmetric` | key/key.go:15-38 | two valid paths that match each other are equal |
| `Key.DoubleStarBreaksAntisymmetry` | key/key.go:16-18 | what antisymmetry would lose without the `**` test |
| `Key.OverlapIffCommonKey` | key/key.go:24-42 | two patterns overlap exactly when some key matches both |
| `Key.AdmissiblePeersComplete` | rest.go:43 | within the class publish admits, two paths peer exactly when some key matches both |
| `Key.CrossingGlobsDoNotPeer` | key/key.go:40-42 | `*/b` and `a/*` share `a/b` and do not peer |
| `Key.PublishedKeyRoundTrip` | key/key.go:45-68 | a published list entry's key is valid, star-free, matched by its path, and decodes to the publishing time |
| `Key.BuildInjective` | key/key.go:50-58 | two publishes to one list get the same key exactly when they share a time |
| `Key.BuildKeepsAttachedStar` | key/key.go:57 | a star not preceded by a slash is kept |
| `Key.BuildFreshIffStarAlone` | key/key.go:50-58 | a pattern gets a star-free key exactly when its star stands alone after a slash |
| `Key.BuildKeepsIff` | key/key.go:50-58 | a path is its own key exactly when no star of it follows a slash, so always when it has none |
| `Key.NotATime` | key/key.go:61-68 | what is no base-16 number counts as time 0 |
| `Numerals.Positional` | key/key.go:56 | a number is printed with the digits 0-9a-f, base 16, most significant first |
| `Numerals.ParseFormatInt` | key/key.go:61-68 | base-16 parsing inverts printing for all 64-bit times |
| `Numerals.FormatIntInjective` | stream/stream.go:241 | no two versions print alike |
| `Base64.DecodeEncode` | messages/messages.go:23-37 | decoding inverts encoding, for all byte data |
| `Base64.EncodeSymbols` | messages/messages.go:23-25 | encoded text has no quote, backslash or control character |
| `Base64.EncodeIsBase64` | messages/messages.go:23-25 | three bytes as one number are encoded by its four base-64 digits in the standard alphabet |
| `Base64.EncodePads` | messages/messages.go:23-25 | one or two bytes left over are encoded as if zero bytes followed, and padded |
| `Base64.DecodeAccepts` | messages/messages.go:34 | exactly whole quanta of the alphabet are decoded, with up to two paddings at the end |
| `Text.TrimCutsNewlines` | messages/messages.go:38 | only newlines are cut off, and all of them, on both sides |
| `Messages.ReadWrittenObject` | stream/stream.go:239-243 | the text Write concatenates is a JSON object with exactly those three members |
| `Messages.DecodeAnyObject` | messages/messages.go:28-41 | in any order of members the last of a name counts, a missing one is empty or false, and a message is refused exactly when a member is of the wrong type or the data are no base64 |
| `Messages.LastOfAName` | messages/messages.go:30-33 | which member of a name that is |
| `Messages.WireRoundTrip` | messages/messages.go:28-41 | what DecodeBuffer returns for what Write wrote: the flag, the printed version, the data without outer newlines |
| `Messages.ReceiveIsPatchCache` | messages/messages.go:82-106 | PatchCache on a written frame is folding the frame into the cache |
| `Messages.PatchFails` | messages/messages.go:82-106 | an error exactly when the message cannot be read, or is a patch that cannot be read or does not apply; the cache is then unchanged |
| `JsonText.InstanceIsLawful` | messages/messages.go:96-105 | the library contract is met by a concrete parser, differ, printer and applier |
| `Patching.ChoiceReplicates` | stream/stream.go:206-232 | whichever branch Patch takes, a client that had the old data then has the new, without an error |
| `Patching.ClientTracksPool` | stream/stream.go:206-232 | the same over any history of a pool |
| `Patching.PatchModeIsUnobservable` | katamari.go:318-319 | clients under any two patch modes hold the same data after every message |
| `Patching.DefaultModeSendsLeast` | stream/stream.go:226-231 | over any history the default mode sends no more payload than any other mode |
| `Patching.NoPatchSendsData` | stream/stream.go:208-211 | without patches every payload is as long as the data, whatever the other flag |
| `Patching.SnapshotFlagComesFirst` | messages/messages.go:88-94 | with the snapshot flag tested after the `[]` shortcut, a client would follow the pool exactly when it is not sent `[]` as a snapshot, or had the new data already |
| `Stream.WithoutCutsOut` | stream/stream.go:153-157 | filtering a connection out cuts it out where it was: the others stay, in their order |
| `Stream.Stream.FindPool` | stream/stream.go:79-89 | the first pool with the key, or -1 when there is none |
| `Stream.Stream.InitClock` | stream/stream.go:91-97 | an empty table gets the clock's pool, another stays |
| `Stream.Stream.Register` | stream/stream.go:117-144 | the connection is appended to the pool of its key, created at the end when missing; all else stays |
| `Stream.Stream.Close` | stream/stream.go:147-165 | exactly that connection leaves, the order of the others kept; no pool goes |
| `Stream.Stream.Write` | stream/stream.go:235-249 | one frame to a live connection, and a dead one is closed |
| `Stream.Stream.Patch` | stream/stream.go:206-232 | the cache is replaced at the given time; a snapshot carries the data and a patch the marshalled operations; a patch is sent exactly when it is wanted, can be made, and is forced or no longer than the data |
| `Stream.Stream.SetCache` | stream/stream.go:272-292 | the cache of the key's pool, created when missing, is set; no other is |
| `Stream.Stream.GetCacheVersion` | stream/stream.go:295-309 | the version of a cache that holds something, else an error |
| `Stream.Stream.Refresh` | stream/stream.go:311-331 | fresh data under the existing version with the cache left as it is, or set as a new cache |
| `Stream.Stream.Broadcast` | stream/stream.go:168-191 | the caches of exactly the peering pools from index 1 whose read succeeds change, and their connections get one frame each |
| `Protocol.InitInv` | stream/stream.go:91-97 | a started server meets the invariant |
| `Protocol.StepInv` | stream/stream.go:117-191 | every step keeps it: pool 0 is the clock, keys are distinct, each connection is in the pool of its key and no other, workers exclude each other in a pool, versions never lead the clock; pools are never removed nor a version's datum changed |
| `Protocol.RunInv` | stream/stream.go:117-191 | the same over all runs |
| `Replication.CommitReplicates` | stream/stream.go:272-292 | a synced connection survives a setCache exactly when it does not store different data |
| `Replication.SyncStep` | stream/stream.go:168-249 | through every step of everyone else a connection stays synced, except exactly when a setCache overwrites its cache by different data |
| `Replication.SyncRun` | stream/stream.go:168-249 | the same over any interleaving |
| `Protocol.CloseRemovesOne` | stream/stream.go:147-165 | Close finds the connection's pool and takes out exactly that connection |
| `Freshness.StepLoses` | stream/stream.go:168-191 | a pool owed an event or current stays so through a step exactly when the step is not one of the three that lose its update |
| `Freshness.RepairAccounts` | stream/stream.go:173-175 | the next write a pool is broadcast for, and the next broadcast to come to it, makes a loss good |
| `Freshness.AdmissibleDeleteIsOrderly` | memory.go:284-293 | a glob delete loses nothing among paths that publish admits |
| `Freshness.LosingDeleteCrosses` | memory.go:284-293 | one that loses a pool's update is on a path that overlaps the pool's and does not peer with it |
| `Freshness.UnovertakenCommitIsOrderly` | stream/stream.go:311-326 | over runs: a setCache loses nothing when no key its path sees changed since its fetch began |
| `Freshness.UnovertakenReadIsOrderly` | stream/stream.go:311-326 | nor when none changed since its read, if none did during the read |
| `Freshness.NoLossIffOrderly` | katamari.go:184-212 | over runs: every pool is owed an event or current throughout exactly when no step loses an update |
| `Freshness.CarefulIsOrderly` | stream/stream.go:311-326 | a write of one key, a glob delete among paths that publish admits, a withheld event that is for no pool, and a setCache of data that nothing overtook lose nothing |
| `Freshness.CarefulRunsEndFresh` | katamari.go:184-212 | a run of such steps leaves every cache, at rest, equal to a fresh read |
| `Freshness.QuiescentCachesAreFresh` | stream/stream.go:168-191 | a run that loses no update leaves every cache, at rest, equal to a fresh read |
| `Versions.CommitAdvances` | stream/stream.go:264-292 | a setCache gives the pool a greater version |
| `Versions.StepAdvances` | stream/stream.go:264-269 | every step leaves a pool's version and data, or gives both anew, later than anything before |
| `Versions.StepPresent` | ws.go:33-35 | every step keeps: who honestly presents the pool's version is synced |
| `Versions.SkippedSnapshotIsSound` | ws.go:33-35 | in every reachable state, a connection whose initial snapshot is skipped because it presented the version is synced |
| `Versions.HolderIsHonest` | ws.go:13 | a client that held a version's datum presents it honestly |
| `Versions.DrainedClientMayResume` | ws.go:33-35 | a client synced at a version may resume from it at any later time |
| `Subscription.QuietUntilInterference` | ws.go:21-35 | a subscription stops being quiet exactly at a step that interferes |
| `Subscription.InitialWriteSyncs` | ws.go:34 | the initial snapshot syncs a connection exactly when the messages before it apply and it holds what the cache holds, or, with a broadcast under way, when that broadcast's message takes it there |
| `Subscription.QuietSubscriptionIsSynced` | stream/stream.go:311-331 | in every reachable state the initial write of a quiet subscription syncs it, whether Refresh found the cache or set it |
| `Subscription.UndisturbedHandshakeSyncs` | ws.go:21-35 | the whole handshake on a run: nothing outstanding at the start and no interference until the write |
| `EndToEnd.SyncedAtRestHoldsTheStore` | katamari.go:184-212 | at rest, a synced client that was delivered everything holds what a read of the store gives, unless its own pool lost an update that nothing has repaired since |
| `EndToEnd.SyncedAfterOrderlyRunHoldsTheStore` | katamari.go:184-212 | in particular after a run in which no step loses an update of any pool |
| `EndToEnd.SubscriberEndsWithTheData` | ws.go:11-38 | the same for every subscriber whose handshake nothing interfered with and whose cache nobody overwrote, whatever else happened and whatever other pools lost |
| `EndToEnd.OrderlyRunServesSubscriber` | ws.go:11-38 | in particular when no step of the run loses an update of any pool |
| `EndToEnd.CarefulRunServesSubscriber` | ws.go:11-38 | and when every step is one of the harmless kinds of `CarefulIsOrderly` |
| `Witnesses.OvertakenRefreshStaysStale` | stream/stream.go:322-326 | a run that ends at rest with a stale cache: a write between the read and setCache |
| `Witnesses.LateCommitDesyncs` | stream/stream.go:322-326 | a run in which a synced subscriber is left behind: a plain read stores old data over the cache it is synced with |
| `Witnesses.CrossingDeleteStaysStale` | stream/stream.go:173 | for every pool and glob that share a key and do not peer, a run in which the delete is lost |
| `Witnesses.UnsentEventStaysStale` | memory.go:244-246 | for every pool and key it matches, a run in which the event of a write is not sent and the pool keeps the old data |
| `Witnesses.InterferedHandshakeIsNotSynced` | stream/stream.go:322-330 | a run that ends at rest with a fresh cache and a new subscriber that holds old data under its version |
| `Example.CrossingDeleteIsLost` | key/key.go:40-42 | such a run for `*/b`, `a/*` and `a/b`, on a concrete server |
| `Example.SubscriberLeftBehind` | ws.go:27-34 | such a run for every glob and key, on a concrete server |
| `Example.SubscriberDesynced` | stream/stream.go:322-326 | such a run for every glob and key, on a concrete server |
| `Example.CodecIsLawful` | objects/objects.go:130-135 | the contract of the storage codec is met by a concrete one |
| `Refinement.TellsOne` | stream/stream.go:194-199 | one pool told its news, in the machine and in the class |
| `Refinement.BroadcastRefines` | stream/stream.go:168-191 | a worker left to itself makes of the pools what Stream.Broadcast makes of them |
| `Refinement.WsRefines` | ws.go:11-38 | a subscription left to itself joins, caches and sends what Server.Ws does |
| `Locks.InitInv` | stream/stream.go:91-97 | nobody holds anything at the start |
| `Locks.StepInv` | stream/stream.go:117-309 | every step keeps the locks' own record equal to what the threads hold, and writers alone; a call only locks pools it concerns |
| `Locks.ReachableInv` | stream/stream.go:117-309 | for any number of threads making any calls in any order |
| `Locks.NoRace` | stream/stream.go:174-187 | no two threads are about to touch one cache, table, connection list or socket with a write among them |
| `Locks.ChangesAreDeclared` | stream/stream.go:264-269 | no step changes a place that it is not said to write |
| `Locks.SectionsAreStable` | stream/stream.go:168-191 | what a held lock guards is left alone by all other threads |
| `Locks.NoDeadlock` | stream/stream.go:117-309 | while a call is under way some thread can step |
| `Locks.StepLeavesLess` | stream/stream.go:117-309 | a step shortens the queue for the stream lock or the work inside it |
| `Locks.AllCallsReturn` | stream/clock.go:10-23 | from every reachable state all calls under way can return |
| `Locks.NoEndlessRun` | stream/stream.go:168-191 | and no schedule goes on for ever without new calls |
| `Memory.DecodeListData` | objects/objects.go:115-127 | elements are decoded in place up to the first failure, the rest stay; success exactly when all decode |
| `Memory.SortByRecency` | objects/objects.go:31-37 | a permutation, never a less recent object before a more recent one |
| `Memory.EnumerationIsTop` | memory.go:164-170 | the first n of the sorted list are the n most recent |
| `Memory.CreationIsKept` | memory.go:218-230 | what Peek answers over Sets and Dels: a key keeps the creation time it was given first until a Del takes it, and no other key's changes it |
| `Memory.MemoryStorage.Set` | memory.go:233-248 | one entry stored under the right times, one event if announced |
| `Memory.MemoryStorage.Pivot` | memory.go:251-268 | forced times, and silence under history |
| `Memory.MemoryStorage.Del` | memory.go:271-294 | exactly the keys that a glob matches go, or the one key itself, and the rest keep their values; one event, under the path itself; an absent key is an error |
| `Memory.MemoryStorage.KeysRange` | memory.go:81-106 | exactly the matching keys built in the range, once each; the two errors |
| `Memory.MemoryStorage.Get` | memory.go:109-137 | the entry as stored, or the encoding of exactly the decodable matching entries, most recent first |
| `Memory.MemoryStorage.GetN` | memory.go:140-171 | the limit most recent decodable matches; the two errors |
| `Memory.MemoryStorage.GetNRange` | memory.go:174-215 | the same within a range of times |
| `Recency.EntryTellsLife` | memory.go:218-248 | after any Sets and Dels an entry shows its key's first Set since it was last absent, and the last |
| `Recency.StoredIffAlive` | memory.go:233-294 | a key is stored exactly while it is alive, and what is stored decodes |
| `Recency.DelEndsLives` | memory.go:271-294 | after a Del no key its path matches is stored or alive until its next Set |
| `Recency.OthersLiveOn` | memory.go:271-294 | a key that no Del matches stays stored |
| `Recency.LifeIsUnique` | memory.go:218-230 | a key has one present life |
| `Recency.RecencyIsLastWrite` | objects/objects.go:23-37 | an entry's recency is the time of its last Set |
| `Recency.ListingHoldsTheLiving` | memory.go:115-134 | a listing holds exactly the living matches |
| `Recency.ListingFollowsWrites` | memory.go:134 | strictly in the order of their last writes, latest first |
| `Recency.DescendingByLaterTime` | objects/objects.go:30-37 | whatever times were forced on them, objects are listed by the later of their two times |
| `Recency.ListingTellsLives` | memory.go:109-137 | each object listed by Get shows its key's first and last Set and what the last one wrote |
| `Recency.PlainListingTellsLives` | memory.go:140-171 | GetN lists the living keys whose last Set wrote base64 text, with that text decoded |
| `Recency.TopsAgree` | memory.go:164-170 | two listings of one store have the same recencies, rank by rank |
| `Recency.TopsShareKeys` | memory.go:164-170 | both hold every key more recent than the last one listed, and with room for all the same keys |
| `Recency.ListingIsUnique` | memory.go:164-170 | with distinct recencies there is one listing |
| `Recency.LargeLimitListsAll` | memory.go:166-170 | a large enough limit omits nothing |
| `Recency.RangeAgreesWithKeys` | memory.go:174-215 | GetNRange with room enough lists exactly the decodable objects at the keys KeysRange returns |
| `Recency.FullRangeIsGetN` | memory.go:195-199 | over the full 64-bit range GetNRange and GetN list the same keys except among ties for the last place, in the same order except among ties |
| `Recency.SetSelectsViewers` | memory.go:233-248 | a Set that shows in a pool's Get peers with the pool, whatever its pattern |
| `Recency.DelSelectsViewers` | memory.go:271-294 | so does a Del, among paths that publish admits |
| `Recency.PublishedInRange` | memory.go:95-99 | a published entry is in a range exactly when its publishing time is |
| `Recency.CreatedIsLastIndex` | memory.go:95-96 | the time a range is about is read from what follows the key's last slash |
| `StorageSteps.SetIsSteps` | memory.go:233-248 | a Set is a storage call of the state machine that changes its one key |
| `StorageSteps.EveryDelIsSteps` | memory.go:284-289 | a Del is one that changes the keys it selects, one by one |
| `StorageSteps.FreshIsFilteredGet` | katamari.go:184-194 | what the state machine reads of a path is what the filter in charge makes of what Get returns, or of the empty object; nothing when it refuses |
| `StorageSteps.ClockKeepsRecenciesApart` | memory.go:218-248 | after any Sets and Dels under an increasing clock no two listed entries tie, so the listing read is the only one |
| `Filters.FindRoute` | filters.go:107-113 | the first route that equals or matches the path |
| `Filters.Check` | filters.go:162-180 | the filter in charge is applied; without one, an error in static mode, else the data |
| `Filters.CheckStatic` | filters.go:142-160 | refuses exactly when check would report an undefined route |
| `Filters.CheckDelete` | filters.go:122-140 | the same for delete hooks |
| `Filters.CheckAfter` | filters.go:106-120 | the watcher in charge is notified, or nobody |
| `Filters.RegistrationsKeepCharge` | filters.go:56-87 | a served path keeps its filter whatever is registered later |
| `Filters.ListRouteServesEntries` | filters.go:165 | a defined list route serves every key of the list |
| `Filters.Checked` | filters.go:162-180 | check as a function: the filter in charge, the error, or the data |
| `Filters.BroadcastsStayOnRoutes` | katamari.go:184-194 | in static mode a broadcast has news only for pools of defined routes |
| `Filters.AnswerIsFiltered` | katamari.go:184-194 | getFilteredData answers what the filter in charge makes of the stored text or of the empty object, nothing when it refuses, and without a filter the text itself outside static mode |
| `Filters.NewsIsFiltered` | katamari.go:196-205 | so does a broadcast for every pool that peers with its path |
| `Filters.OpenedRoutePasses` | filters.go:94-104 | an opened route lets all data of the paths it serves first through unchanged |
| `Filters.Server.OpenFilter` | filters.go:100-104 | one no-op of each kind, after the earlier ones |
| `Filters.Server.Fetch` | katamari.go:174-181 | what the filter in charge makes of the stored text, under the version of the pool's cache or a new one; nothing when it refuses or the route is undefined in static mode; pools stay on defined routes |
| `Filters.Server.Ws` | ws.go:11-38 | the handshake alone: refused without a trace, or joined and, unless it presented the version, sent one message that leaves any client with what was fetched |
| `Client.Read` | client/subscribe.go:92-137 | a list shows, in its order, the values of exactly the objects that have one, and cannot be read exactly when it does not decode; a single object shows its one value or cannot be read |
| `Client.Receives` | client/subscribe.go:84-145 | each message is patched into what the one before it left, and shown; the first that fails or cannot be read ends the connection |
| `Client.Subscribe` | client/subscribe.go:60-158 | the same over reconnections: each begins with the cache the one before it left, the first with none |
| `Client.SnapshotForgets` | client/subscribe.go:95 | a connection that begins with a snapshot does not depend on the cache carried over |
| `Client.OutOfStepEnds` | client/subscribe.go:88-93 | a patch that does not apply ends the connection, shows nothing more and leaves the cache as it was |
| `Client.SnapshotStartsAfresh` | client/subscribe.go:84-145 | whatever a connection delivers first, from a snapshot on its callbacks are those of a connection that begins with it, if it gets there |
| `Client.SessionFollowsPool` | messages/messages.go:82-134 | a client in step with a pool makes one callback for each datum the pool is given, showing it, up to the first it cannot read |
| `Client.CallbacksTellHistory` | messages/messages.go:82-134 | greeted with a snapshot, a subscriber is shown the pool's data from then on, up to the first it cannot read, whatever the patch mode and its old cache |
| `Multi.Manage` | client/subscribeMultiple.go:23-37 | each callback shows every subscription's latest list and flags the one that brought it |
| `Multi.NextInv` | client/subscribeMultiple.go:39-52 | what was taken and what waits in a channel is what was sent, and at most ten wait |
| `Multi.RunInv` | client/subscribeMultiple.go:23-52 | over any interleaving of sends, receives and cancellation |
| `Multi.CallbacksFollowSubscriptions` | client/subscribeMultiple.go:69-98 | the callbacks flagged for a subscription are a prefix of what it sent, at most ten short, and every callback flags exactly one |
| `Multi.FieldsHoldLast` | client/subscribeMultiple.go:139-179 | every field shows the list last flagged for it |

## Left out

- HTTP and websocket plumbing, routing, CORS, timeouts, audit, signals: a connection is a queue of frames that can be closed or lost.
- Read loops, deadlines and socket errors of `Stream.Read` and `Stream.Write` beyond "the peer is gone"; the 15 second write deadline is why a held connection lock is let go in `Locks`.
- The internals of the JSON Patch and JSON libraries: a contract, with one concrete instance. `DecodeBuffer` reads flat objects without string escapes, with exact member names and no others of another type; base64 decoding does not skip newlines.
- `filepath.Match` is modelled for `*` and literal characters; `?`, `[` and backslash cannot occur in valid keys.
- The storage codec is a contract (what it encoded it decodes, objects and lists of them), with one concrete instance.
- `sort.Slice` is modelled by an insertion sort on values: any sort that the contract of `SortByRecency` admits will do, and the order among ties is left open.
- `Clear`, `Keys`, storage start and close, `io/`, `fuzz.go`: no invariant that spans operations.
- Clock connections are in the pool table of the class and in `Locks`, but never subscribe in `Protocol`, where a subscription's key is not empty.
- In `Protocol` an event that storage does not send (`NoBroadcastKeys`, a history pivot, inactive storage) is a `Drop` step, free to happen; which calls drop is the subject of `Memory`.
- User callbacks and filter bodies are functions that do not call back into the server.
- Dialling, sleeps and retry counts of `client.Subscribe`; a run is the list of messages its connections deliver.
- Cancelled senders of `SubscribeMultiple` may drop lists; "sent" means put into the channel.
- Stream.Stream.Broadcast: runs alone, each pool at its own time; how it interleaves is `Protocol`.
- Filters.Server.Ws: runs alone and writes the first message itself; that the state machine's handshake left alone does the same is `Refinement.WsRefines`, the interleaved handshake is `Subscription`.
- Freshness.NoLostUpdate: has a third case, because the code does lose updates; `LosesAt` says at which steps, and a pool whose cache is an empty text counts as having none, as it does for `GetCacheVersion`.
- Client.SessionsStandAlone: wants each connection to begin with a snapshot; a broadcast may reach a new connection before its snapshot, and `SnapshotStartsAfresh` says what the callbacks are then.
- StorageSteps.FreshIsFilteredGet: wants the listed entries to be of different recencies, as an increasing clock makes them; among ties two reads of a glob may list in different orders, which a `read` that is a function does not show.
- Refinement.BroadcastRefines: is about a worker nobody interferes with.
