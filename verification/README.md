# Reactive Trader: the event log, its readers and the service client

A Dafny model of the parts of Reactive Trader whose guarantees rest on each other.

* **Write side.** `EventLog`, `Store`, `Aggregates`, `Repository`, `TradeIds`, `Execution`: an append-only
  log with expected versions, event-sourced aggregates, the paged load, the single or batched save, the
  Hi/Lo ids and the two-phase execution of one trade. `Engines` puts any number of providers, engines and
  reference-data writers on one log, each code segment between two awaits one atomic step.
* **Read side.** `EventCache`, `CacheTheory`, `CacheRuns`, `CacheQueues`: the cache that folds the log and
  serves each client a snapshot and then deltas, generic over what a concrete cache supplies. `TradeCache` and
  `PairCache` are the two caches. `Blotter`, `Analytics` with `AnalyticsFeed` and `Positions`, and
  `ReferenceClient` are what their messages end up in.
* **Service client.** `Connection`, `Discovery`, `Sessions`, `Operations`: epochs of the connection, heartbeats with
  timeouts folded into a dictionary, and operations that choose, call and watch an instance.
* **Smaller pieces.** `StreamServer` and `StreamAcks` (the subscription table), `Launcher` (`LaunchOrKill`),
  `Pricing` and `Quotes`.
* **Step by step.** `EngineSteps`, `CacheSteps`, `Feeds` and `OperationSteps` say of every step of every run what
  it adds to the log, sends or ends, in terms of what happened and not of the step functions.

A run is a list of steps, and a step that is not possible in a state changes nothing, so a lemma about
`Run(steps)` is about every reachable state. What the original updates in place is a class whose methods
are tied to the step functions the runs are made of. In `Store` the field `upcoming` foretells what other
writers append during the coming awaits, so a statement about any `upcoming` covers any interference.

The results compose: unique ids make the log well formed (`Engines.LogIsWellFormed`), a well-formed log
makes the caches total (`TradeCache.TradesTotal`, `PairCache.PairsTotal`), a total cache makes client views
exact (`CacheRuns.ViewIsTheDictionary`), and exact views make blotter rows and analytics totals equal the
log (`Blotter.BlotterShowsTheLog`, `AnalyticsFeed.TotalsAgreeWithTheLog`).

What turned out not to hold is stated with its exact condition, mostly with a run that shows it:

* Trade ids repeat once the counter passes 42949672 hi values (`TradeIds.IdsUniqueExactly`), because
  `hi * 100 + lo` is 32-bit arithmetic although the result is a 64-bit id.
* A caught-up callback of an earlier connection that runs while the current one is still loading declares
  an unfinished dictionary fresh; a check of the generation, which the callback lacks, would be enough
  (`CacheRuns.CoversExactlyWhenUndisturbed`, `CacheRuns.GuardWouldSuffice`, `CacheRuns.LateCaughtUp`).
* The browser keeps pairs that were disabled while it was away (`ReferenceClient.WhatIsHeld`,
  `ReferenceClient.RightExactlyWhenSettled`, `ReferenceClient.KeepsADisabledPair`).
* An operation has a heartbeat timer of its own, so it can outlive its instance in the dictionary by up
  to one timeout (`Operations.TimersCoincide`, `Operations.OpenWhileDown`); and after an immediate first
  pick a second one can tie it to an instance it never called, and end it with that one
  (`Operations.StrangerExactly`, `Operations.EndedByAStrangerExactly`, `Operations.EndedByAStranger`).
* A subscription id used twice breaks the guarantees of the stream server in two cases: where sessions are
  required, because the watch of a request whose id is taken is left behind, and where a source goes on
  calling after it was disposed. Otherwise it does no harm (`StreamServer.SilentSafeExactly`,
  `StreamServer.SafeExactlyWhenDistinct`).
* Marking at the side of the market can flatter a position in dollars
  (`Analytics.UsdConservativeExactly`), and quotes are inverted for a negative mid
  (`Pricing.OrderedExactly`, `Pricing.NegativeMidIsInverted`).

`dafny verify dfyconfig.toml` checks the whole project.

## Model

| member | source | states |
|---|---|---|
| Engines.AllIdsDistinct | src/server/Adaptive.ReactiveTrader.Server.TradeExecution/TradeIdProvider.cs:38-100 | Over every interleaving of any number of providers at their awaits, two refills in flight on one included: lo stays in 1..100, no ticket is issued twice, so no hi is installed twice, and the ids differ pairwise while the hi values fit |
| Engines.LogIsWellFormed | src/server/Adaptive.ReactiveTrader.Server.TradeExecution/TradeExecutionEngine.cs:29-100 | Over every interleaving each trade stream is a prefix of created, completed or created, rejected, each pair stream alternates, no trade save ever meets an unexpected version, and a settled call wrote exactly its two events |
| Engines.WellFormedPrefix | src/server/Adaptive.ReactiveTrader.Server.TradeExecution/TradeExecutionEngine.cs:50-58 | What is well formed at the end was well formed at every earlier moment of the global order |
| Engines.TicketsInEveryRun | src/server/Adaptive.ReactiveTrader.Server.TradeExecution/TradeIdProvider.cs:44-58 | The invariant behind the ids: hi values landed, held and used are pairwise apart, over every run |
| Engines.StreamsInEveryRun | src/server/Adaptive.ReactiveTrader.Server.TradeExecution/TradeExecutionEngine.cs:50-58 | The invariant behind the log: what each call relies on about its own stream is not disturbed by any other call |
| EngineSteps.EachHiServesInOrder | src/server/Adaptive.ReactiveTrader.Server.TradeExecution/TradeIdProvider.cs:44-58 | In every run each hi value serves lo values 1, 2, 3 and so on in this order, up to 100 at most, and a provider stands where its hi value does |
| EngineSteps.RefillsExactly | src/server/Adaptive.ReactiveTrader.Server.TradeExecution/TradeIdProvider.cs:44-53 | A call takes the next ticket of the hi value its provider holds, and starts to fetch another, in three tries, exactly if it holds none or all of 1..100 were served |
| EngineSteps.ReadsToTheEnd | src/server/Adaptive.ReactiveTrader.EventStore/Domain/Repository.cs:52-70 | The counter is read in pages of 500 until the end of the stream as it then is |
| EngineSteps.IncrementsExactly | src/server/Adaptive.ReactiveTrader.Server.TradeExecution/TradeIdProvider.cs:61-100 | The increment lands exactly if nothing came after what was read, its event number is then the hi value; otherwise the call reads again or, at its third conflict, gives up |
| EngineSteps.InstallsExactly | src/server/Adaptive.ReactiveTrader.Server.TradeExecution/TradeIdProvider.cs:46-53 | A hi value that arrived replaces whatever the provider held, and its first ticket is handed out |
| EngineSteps.CreationLands | src/server/Adaptive.ReactiveTrader.Server.TradeExecution/TradeExecutionEngine.cs:41-50 | In every run the save of a new trade lands as one event at the end of the log, with its terms, under its own id |
| EngineSteps.OutcomeLands | src/server/Adaptive.ReactiveTrader.Server.TradeExecution/TradeExecutionEngine.cs:52-101 | So does the save of the outcome: GBPJPY is rejected with its reason, every other pair completed |
| EngineSteps.PairsLand | src/server/Adaptive.ReactiveTrader.Server.ReferenceDataWrite/Domain/CurrencyPair.cs:12-50 | A writer that loaded the whole stream adds the one event its command calls for, told by how long that stream is; one that was overtaken adds nothing |
| TradeIds.IdsUniqueExactly | src/server/Adaptive.ReactiveTrader.Server.TradeExecution/TradeIdProvider.cs:53 | The 32-bit arithmetic keeps ids of different tickets apart if and only if at most 42949672 hi values are in use; the next one repeats the very first ids |
| TradeIds.IdPositiveExactly | src/server/Adaptive.ReactiveTrader.Server.TradeExecution/TradeIdProvider.cs:53 | An id is the plain hi*100+lo, and positive, exactly below the 32-bit limit |
| TradeIds.TradeIdProvider.BeginNextId | src/server/Adaptive.ReactiveTrader.Server.TradeExecution/TradeIdProvider.cs:44-53 | The segment up to the first await: the next id, or nothing and an unchanged provider when a hi is needed |
| TradeIds.TradeIdProvider.FinishNextId | src/server/Adaptive.ReactiveTrader.Server.TradeExecution/TradeIdProvider.cs:46-53 | The segment after the await installs the hi whatever other calls did to the fields meanwhile |
| TradeIds.GetHiValueFromEventStore | src/server/Adaptive.ReactiveTrader.Server.TradeExecution/TradeIdProvider.cs:82-100 | One attempt either lands its own increment last and answers its event number, or changes nothing and the counter moved on by other writers |
| TradeIds.GetNextHiValue | src/server/Adaptive.ReactiveTrader.Server.TradeExecution/TradeIdProvider.cs:61-80 | At most three attempts; failing means at least three events of other writers landed in the counter; the hi is the event number of its own increment |
| Execution.CreateTrade | src/server/Adaptive.ReactiveTrader.Server.TradeExecution/TradeExecutionEngine.cs:41-50 | The first save: the stream is exactly the creation, or it existed already |
| Execution.DelayedSettle | src/server/Adaptive.ReactiveTrader.Server.TradeExecution/TradeExecutionEngine.cs:52-58 | After the delay, with any interference, a successful second save leaves exactly creation and outcome; a conflict means the stream holds something else after the creation |
| Execution.ExecuteTrade | src/server/Adaptive.ReactiveTrader.Server.TradeExecution/TradeExecutionEngine.cs:29-100 | The two-phase save: a result means exactly two events with the outcome the pair calls for; a conflict at the creation means others had written the stream and this call nothing; one at the settlement, that others wrote after its creation |
| EventLog.AppendExtendsOneStream | src/server/Adaptive.ReactiveTrader.EventStore/Domain/Repository.cs:112-116 | A successful append extends its own stream right after the expected version and no other stream |
| EventLog.SameBaseOneWinner | src/server/Adaptive.ReactiveTrader.EventStore/Domain/Repository.cs:85-116 | Of two writers with the same base at most one wins, whatever is written between |
| Repository.YieldBatchElements | src/server/Adaptive.ReactiveTrader.EventStore/Domain/EnumerableExtensions.cs:18-26 | A batch takes consecutive elements off the one shared enumerator and leaves it at the last one taken |
| Repository.Batch | src/server/Adaptive.ReactiveTrader.EventStore/Domain/EnumerableExtensions.cs:7-16 | The batches split the events in order, all full but the last, one batch exactly when the events fit one |
| Repository.ReadPage | src/server/Adaptive.ReactiveTrader.EventStore/Domain/Repository.cs:52-70 | One page keeps the copy a prefix of the stream, the whole stream exactly at the end of it |
| Repository.GetById | src/server/Adaptive.ReactiveTrader.EventStore/Domain/Repository.cs:37-74 | With appends between the pages the loaded copy is computed from the whole stream as it is at the last page, and the loop ends once the stream stops growing; missing and deleted streams are told apart |
| Repository.CommitBatches | src/server/Adaptive.ReactiveTrader.EventStore/Domain/Repository.cs:119-138 | All batches land together under the version check, or none |
| Repository.SaveAsync | src/server/Adaptive.ReactiveTrader.EventStore/Domain/Repository.cs:76-157 | A save appends exactly the pending events, in order and at once, right after the event the copy was computed from; a failed save changes neither stream nor aggregate |
| Repository.SaveThenLoad | src/server/Adaptive.ReactiveTrader.EventStore/Domain/Repository.cs:37-157 | Save then load gives back state and version |
| Aggregates.Aggregate.ApplyStored | src/server/Adaptive.ReactiveTrader.EventStore/Domain/AggregateBase.cs:12-16 | A stored event moves state and version together |
| Aggregates.Aggregate.RaiseEvent | src/server/Adaptive.ReactiveTrader.EventStore/Domain/AggregateBase.cs:28-32 | A raised event is applied and kept pending; the state stays the replay of stored and pending events |
| Aggregates.Aggregate.ClearPendingEvents | src/server/Adaptive.ReactiveTrader.EventStore/Domain/AggregateBase.cs:23-26 | After a save the pending events are part of the base |
| Aggregates.CreatePair | src/server/Adaptive.ReactiveTrader.Server.ReferenceDataWrite/Domain/CurrencyPair.cs:12-20 | A new pair has its creation pending and is not active |
| Aggregates.ActivatePair | src/server/Adaptive.ReactiveTrader.Server.ReferenceDataWrite/Domain/CurrencyPair.cs:31-39 | Activation raises one event exactly for a created pair that is not active |
| Aggregates.DeactivatePair | src/server/Adaptive.ReactiveTrader.Server.ReferenceDataWrite/Domain/CurrencyPair.cs:41-50 | Deactivation clears the flag by hand and by its event, and the state is still the replay |
| Aggregates.PairStateOf | src/server/Adaptive.ReactiveTrader.Server.ReferenceDataWrite/Domain/CurrencyPair.cs:52-70 | Whether a pair is active is the parity of its stream |
| Aggregates.DecideKeepsLifecycle | src/server/Adaptive.ReactiveTrader.Server.ReferenceDataWrite/Domain/CurrencyPair.cs:31-50 | Whatever a command raises keeps the stream alternating |
| EventCache.EventStoreCache.Initialize | src/server/Adaptive.ReactiveTrader.EventStore/EventStoreCache.cs:101-126 | A connect clears the container, starts a new subscription and sends every client back to subscribe |
| EventCache.EventStoreCache.Disconnected | src/server/Adaptive.ReactiveTrader.EventStore/EventStoreCache.cs:66-76 | A disconnect leaves the container stale and sends each live client the departure notice, and one that waits for the loop nothing; a container that was not stale is pushed first |
| EventCache.EventStoreCache.HandleEvent | src/server/Adaptive.ReactiveTrader.EventStore/EventStoreCache.cs:116-124 | An event: the cache first, then the push, then the clients that were live before it |
| EventCache.EventStoreCache.CaughtUp | src/server/Adaptive.ReactiveTrader.EventStore/EventStoreCache.cs:159-172 | Caught up: not stale, pushed, whoever follows goes live |
| EventCache.EventStoreCache.GetOutputStream | src/server/Adaptive.ReactiveTrader.EventStore/EventStoreCache.cs:94-99 | A new client waits for the event loop: it gets nothing before its subscription runs there |
| EventCache.EventStoreCache.StartClient | src/server/Adaptive.ReactiveTrader.EventStore/EventStoreCache.cs:128-145 | A subscription replays the subject: its own empty value until something was published, the container by reference after |
| CacheTheory.EventKeeps | src/server/Adaptive.ReactiveTrader.EventStore/EventStoreCache.cs:116-145 | One event extends each live client by exactly its delta and nobody else |
| CacheRuns.EveryRunIsOk | src/server/Adaptive.ReactiveTrader.EventStore/EventStoreCache.cs:43-193 | The client invariant holds in every run of connects, disconnects, events, caught-up callbacks and client steps |
| CacheRuns.NoGapNoDuplicate | src/server/Adaptive.ReactiveTrader.EventStore/EventStoreCache.cs:94-145 | In every run over a log the projection accepts: no callback throws, the dictionary is the fold of the prefix delivered in this connection, and after a fresh snapshot a client has that snapshot and one delta for each later event, in order |
| CacheRuns.FreshMeansLive | src/server/Adaptive.ReactiveTrader.EventStore/EventStoreCache.cs:137-140 | A client is past the snapshot phase exactly when it got a snapshot that is not stale since the last connect |
| CacheSteps.DisconnectTells | src/server/Adaptive.ReactiveTrader.EventStore/EventStoreCache.cs:66-76 | Over every run, of a disconnect: the cache is stale after it; a live client is sent exactly the departure notice, one that follows the container first the stale container if it was not stale, one that waits for the loop nothing; phases, dictionary and log stay |
| CacheSteps.ConnectTells | src/server/Adaptive.ReactiveTrader.EventStore/EventStoreCache.cs:101-126 | Of a connect: the dictionary is empty and stale, all events are delivered anew, every client is sent nothing and has to subscribe again |
| CacheSteps.CaughtUpTells | src/server/Adaptive.ReactiveTrader.EventStore/EventStoreCache.cs:159-172 | Of a caught-up callback: who follows the container is sent it fresh and is live from there, nobody else is sent anything |
| CacheSteps.DeliverTells | src/server/Adaptive.ReactiveTrader.EventStore/EventStoreCache.cs:116-145 | Of the next event of the log: the dictionary is updated or the handler throws; a live client is sent its delta if that is one to be sent, one that follows the container is shown it again if the cache was caught up |
| CacheSteps.StartTells | src/server/Adaptive.ReactiveTrader.EventStore/EventStoreCache.cs:128-145 | Of a subscription that runs: it is sent the container at once, fresh and then it is live, or stale and then it waits; an empty one if nothing was published yet |
| CacheSteps.JoinAndLeave | src/server/Adaptive.ReactiveTrader.EventStore/EventStoreCache.cs:94-99 | Clients come and go without any effect on the others |
| CacheSteps.StaleUntilCaughtUp | src/server/Adaptive.ReactiveTrader.EventStore/EventStoreCache.cs:66-76 | Once stale the cache stays stale through every run without a caught-up callback |
| CacheSteps.NobodyGoesLiveBetween | src/server/Adaptive.ReactiveTrader.EventStore/EventStoreCache.cs:137-140 | So a client that starts after a disconnect and before a caught-up callback is shown a stale container and does not go live |
| CacheSteps.ServedWhileFresh | src/server/Adaptive.ReactiveTrader.EventStore/EventStoreCache.cs:137-141 | While the container is not stale every client whose subscription has run got its fresh snapshot, so the stale container of a disconnect reaches none of them |
| CacheRuns.ViewIsTheDictionary | src/server/Adaptive.ReactiveTrader.EventStore/EventStoreCache.cs:94-145 | A client that folds all its messages holds the view of the dictionary after each step once it got a fresh snapshot |
| CacheRuns.EveryMessageIsGood | src/server/Adaptive.ReactiveTrader.EventStore/EventStoreCache.cs:128-145 | What is true of every dictionary and its snapshots and deltas is true of every message ever sent |
| CacheRuns.CoversExactlyWhenUndisturbed | src/server/Adaptive.ReactiveTrader.EventStore/EventStoreCache.cs:159-172 | The container marked not stale has all the log held at the connect, throughout a run, if and only if no caught-up callback of an earlier subscription runs while the current one is loading; one of the current subscription is always safe |
| CacheRuns.GuardWouldSuffice | src/server/Adaptive.ReactiveTrader.EventStore/EventStoreCache.cs:161-171 | With a check of the generation in the callback, which the code lacks, every run covers the log |
| CacheRuns.FreshSnapshotsAreComplete | src/server/Adaptive.ReactiveTrader.EventStore/EventStoreCache.cs:137-172 | For the clients: if no such callback runs, the fresh snapshot each client got shows all the log held at the connect, and one delta each the rest |
| CacheQueues.OwnCaughtUpIsGenuine | src/server/Adaptive.ReactiveTrader.EventStore/EventStoreCache.cs:156-174 | On the event loop with a queue for each subscription: when the caught-up callback of the current one is next, all the events held at its start were delivered |
| CacheQueues.QueuesRefineRuns | src/server/Adaptive.ReactiveTrader.EventStore/EventStoreCache.cs:147-193 | Every run of the loop with its queues, events of stopped subscriptions falling on deaf ears, is a run of the cache as the other results have it |
| CacheQueues.QueuesCoverExactly | src/server/Adaptive.ReactiveTrader.EventStore/EventStoreCache.cs:147-193 | The condition on the queues themselves: no caught-up item of an earlier subscription is taken while the current one is loading |
| CacheRuns.LateCaughtUp | src/server/Adaptive.ReactiveTrader.EventStore/EventStoreCache.cs:161-171 | A caught-up callback of the first connection after the second connect publishes an empty dictionary as not stale |
| TradeCache.UpdateRows | src/server/Adaptive.ReactiveTrader.Server.Common/TradeCache.cs:75-105 | An event changes the row of its own id and no other |
| TradeCache.TradesAt | src/server/Adaptive.ReactiveTrader.Server.Common/TradeCache.cs:75-105 | At every prefix of a well-formed log the dictionary exists and has one row for each created trade, as that stream says |
| TradeCache.TradesTotal | src/server/Adaptive.ReactiveTrader.Server.Common/TradeCache.cs:75-105 | Adding and looking up rows never throws on any prefix of a well-formed log |
| TradeCache.TradesFaithful | src/server/Adaptive.ReactiveTrader.Server.Common/TradeCache.cs:42-73 | Each delta moves a client view as the update moves the dictionary |
| TradeCache.ClientsSeeTheLog | src/server/Adaptive.ReactiveTrader.Server.Common/TradeCache.cs:32-111 | From the engines to the clients: over every interleaving and every cache run, clients past a fresh snapshot hold exactly the rows of the delivered prefix |
| Feeds.TakesExactly | src/server/Adaptive.ReactiveTrader.Server.Common/TradeCache.cs:75-105 | The handler takes the dictionary to another exactly when the event calls for that: a creation without a row adds a pending one at the end, an outcome sets the status of its row; it throws on all others |
| Feeds.TradesInOrder | src/server/Adaptive.ReactiveTrader.Server.Common/TradeCache.cs:75-93 | On every log of the engines the rows are in the order in which the trades were created |
| Feeds.TradesAtStart | src/server/Adaptive.ReactiveTrader.Server.Common/TradeCache.cs:42-45 | Whoever subscribes is first sent all rows as one state of the world, marked stale or not as the cache then is; no rows before anything was published |
| Feeds.TradesAtDisconnect | src/server/Adaptive.ReactiveTrader.Server.Common/TradeCache.cs:107-110 | A client that is not waiting for the loop is sent exactly one empty stale message, no state of the world |
| Feeds.TradesAtEvent | src/server/Adaptive.ReactiveTrader.Server.Common/TradeCache.cs:47-73 | A live client is sent exactly one row for each event of a trade, the one the dictionary has after it, and nothing for any other event |
| PairCache.PairsAt | src/server/Adaptive.ReactiveTrader.Server.ReferenceDataRead/CurrencyPairCache.cs:56-82 | At every prefix of a well-formed log the dictionary has exactly the created pairs, each row equal to what the write side would load, enabled exactly when that is active |
| PairCache.PairsTotal | src/server/Adaptive.ReactiveTrader.Server.ReferenceDataRead/CurrencyPairCache.cs:56-82 | No update throws on any prefix of a well-formed log |
| PairCache.SnapshotShows | src/server/Adaptive.ReactiveTrader.Server.ReferenceDataRead/CurrencyPairCache.cs:42-54 | A snapshot applied to nothing gives exactly the enabled pairs |
| PairCache.PairsFaithful | src/server/Adaptive.ReactiveTrader.Server.ReferenceDataRead/CurrencyPairCache.cs:84-108 | Added and removed deltas move the view of enabled pairs as the events move the dictionary, although creations and changes are suppressed |
| PairCache.ClientsSeeTheEnabled | src/server/Adaptive.ReactiveTrader.Server.ReferenceDataRead/CurrencyPairCache.cs:37-123 | From the writers to the clients: a client that starts over at a fresh snapshot and follows the deltas holds exactly the enabled pairs |
| Feeds.PairsAtStart | src/server/Adaptive.ReactiveTrader.Server.ReferenceDataRead/CurrencyPairCache.cs:42-54 | Whoever subscribes is first sent one addition for each enabled pair and nothing else, marked stale or not |
| Feeds.PairsAtDisconnect | src/server/Adaptive.ReactiveTrader.Server.ReferenceDataRead/CurrencyPairCache.cs:100-103 | A client that is not waiting for the loop is sent exactly one empty stale message |
| Feeds.PairsAtEvent | src/server/Adaptive.ReactiveTrader.Server.ReferenceDataRead/CurrencyPairCache.cs:84-128 | A live client is sent one addition for an activation, one removal for a deactivation, and nothing for a creation, a change or another event |
| ReferenceClient.ReferenceDataService.UpdateCache | src/client/src/services/referenceDataService.js:82-97 | The handler applies every update in order and has loaded once any update came |
| ReferenceClient.WhatIsHeld | src/client/src/services/referenceDataService.js:82-97 | What the browser really holds after a fresh snapshot: the enabled pairs and whatever it held before and was not told about since; it holds exactly the enabled pairs if and only if it was told about everything it held |
| ReferenceClient.RightExactlyWhenSettled | src/client/src/services/referenceDataService.js:82-97 | The same condition on the log: it holds exactly the enabled pairs if and only if each pair it held before is enabled at the point the snapshot shows, or was switched on or off after it |
| ReferenceClient.KeepsADisabledPair | src/client/src/services/referenceDataService.js:82-97 | A run in which a deactivated pair stays in the browser after a reconnect |
| Blotter.BlotterModel.OnTradesUpdate | src/client/src/ui/blotter/model/blotterModel.js:106-129 | The handler: a snapshot replaces the list, an update replaces a row in place or puts a new one on top |
| Blotter.BlotterModel.OnServiceStatus | src/client/src/ui/blotter/model/blotterModel.js:142-147 | Losing the service clears the list |
| Blotter.NewestFirstRows | src/client/src/ui/blotter/model/blotterModel.js:109-110 | A snapshot gives the same trades, highest id first |
| Blotter.TakeOneRows | src/client/src/ui/blotter/model/blotterModel.js:112-122 | One update keeps ids distinct and adds exactly its own: the row with its id is replaced where it stands, or a new one marked as new goes on top |
| Blotter.SnapshotRows | src/server/Adaptive.ReactiveTrader.Server.Blotter/BlotterServiceHost.cs:38-45 | After a fresh snapshot the list is the last 50 trades of the dictionary, each as the dictionary has it |
| Blotter.CutToFifty | src/server/Adaptive.ReactiveTrader.Server.Blotter/BlotterServiceHost.cs:38-45 | Of a state of the world at most the last 50 trades are sent on, not marked stale if cut; any other message as it is |
| Blotter.TailKeepsCurrent | src/client/src/ui/blotter/model/blotterModel.js:111-122 | Every later delta keeps the rows current and adds its trade, clears or not |
| Blotter.BlotterShowsTheLog | src/server/Adaptive.ReactiveTrader.Server.Blotter/BlotterServiceHost.cs:37-45 | End to end through the truncation, from any rows left by an earlier stream: ids are always distinct, rows equal the server rows, and until cleared the list holds the newest 50 of the snapshot and every trade with an event since |
| Analytics.CurrencyPairTracker.OnTrade | src/server/Adaptive.ReactiveTrader.Server.Analytics/CurrencyPairTracker.cs:26-44 | A completed trade moves the base total by its notional and the counter total by notional times rate, up when bought and down when sold, and the count by one, then marks; others change nothing |
| Analytics.CurrencyPairTracker.OnPrice | src/server/Adaptive.ReactiveTrader.Server.Analytics/CurrencyPairTracker.cs:46-84 | When the prices are there the base profit is what is left of the base total once the counter total is closed at the side price; without them nothing changes |
| Analytics.TotalsOrderFree | src/server/Adaptive.ReactiveTrader.Server.Analytics/CurrencyPairTracker.cs:26-41 | Totals depend on the multiset of trades only |
| Analytics.TotalsAreTheSums | src/server/Adaptive.ReactiveTrader.Server.Analytics/CurrencyPairTracker.cs:31-41 | Totals are notional bought less notional sold, notional times rate bought less sold, and the number of trades, each added up by itself |
| Analytics.SideIsConservative | src/server/Adaptive.ReactiveTrader.Server.Analytics/CurrencyPairTracker.cs:58-62 | Marking at the side of the market never shows more base profit than at mid when base and counter share a sign |
| Analytics.SideConservativeExactly | src/server/Adaptive.ReactiveTrader.Server.Analytics/CurrencyPairTracker.cs:58-62 | It never does for any quotes if and only if the signs agree |
| Analytics.UsdConservativeExactly | src/server/Adaptive.ReactiveTrader.Server.Analytics/CurrencyPairTracker.cs:64-74 | After conversion to dollars it holds for every rate if and only if a long position does not lose at mid, or a short one does not gain at its side |
| Analytics.UsdSideCanFlatter | src/server/Adaptive.ReactiveTrader.Server.Analytics/CurrencyPairTracker.cs:71-73 | A losing long position that looks better at the side of the market than at mid |
| Analytics.AnalyticsEngine.OnTrade | src/server/Adaptive.ReactiveTrader.Server.Analytics/AnalyticsEngine.cs:54-65 | A trade reaches the tracker of its pair, made on first use, and a report is published |
| Analytics.AnalyticsEngine.OnPrice | src/server/Adaptive.ReactiveTrader.Server.Analytics/AnalyticsEngine.cs:67-75 | A price is cached and marks the tracker of its own pair only |
| Analytics.AnalyticsEngine.ResetAll | src/server/Adaptive.ReactiveTrader.Server.Analytics/AnalyticsEngine.cs:44-52 | A reset forgets trackers and history and publishes |
| Analytics.HandleTracker | src/server/Adaptive.ReactiveTrader.Server.Analytics/AnalyticsEngine.cs:54-124 | One input touches the tracker of one pair |
| Analytics.EngineTotals | src/server/Adaptive.ReactiveTrader.Server.Analytics/AnalyticsEngine.cs:44-124 | In every run that does not throw each tracker holds what the completed trades of its pair since the last reset bought less what they sold, in base and in counter currency, and their number, and reports the position of the last trade or price that found its prices |
| Analytics.FailsExactly | src/server/Adaptive.ReactiveTrader.Server.Analytics/CurrencyPairTracker.cs:12-16 | A handler throws in a run if and only if some input names a pair of less than three letters or marks one at a side price of zero |
| Analytics.HistoryIsTheWindow | src/server/Adaptive.ReactiveTrader.Server.Analytics/AnalyticsEngine.cs:77-113 | With a clock that does not run backwards, the pruned history is the end of the publish log since the last reset, from the first point not older than 900000 ms on, in time order and ending with the current point |
| Positions.ReportedPosition | src/server/Adaptive.ReactiveTrader.Server.Analytics/CurrencyPairTracker.cs:46-84 | Over every run, of each input: a completed trade or price of a pair that finds the prices it needs sets its position so that (base - profit) * s is the counter total, s the bid for a base total of at least 0 and the ask otherwise, and the dollar profit is the same for a USD pair or converted at that side of the first three letters against USD; symbol, amount and wasTraded too; a reset clears it, all else leaves it |
| Positions.ReportConservativeExactly | src/server/Adaptive.ReactiveTrader.Server.Analytics/CurrencyPairTracker.cs:58-62 | The profit the engine reports is at most that at mid, whatever price of the pair comes next, if and only if base and counter total have the same sign |
| Positions.UsdReportConservativeExactly | src/server/Adaptive.ReactiveTrader.Server.Analytics/CurrencyPairTracker.cs:64-74 | The reported dollar profit is at most that at mid, whatever rate comes before the price, if and only if a long position does not lose at mid, or a short one does not gain at its side |
| Positions.QuotedInDollars | src/server/Adaptive.ReactiveTrader.Server.Analytics/CurrencyPairTracker.cs:71-73 | A pair quoted in dollars is converted with its own price: its dollar profit is the value of what is held at its side less what was paid, never more than at mid, under no condition |
| Positions.PublishedTotal | src/server/Adaptive.ReactiveTrader.Server.Analytics/AnalyticsEngine.cs:93-103 | Each publication adds the sum of the dollar profits reported for the pairs traded since the last reset, each counted once; a pair that was only priced does not count, and a price publishes nothing |
| AnalyticsFeed.EachCompletionOnce | src/server/Adaptive.ReactiveTrader.Server.Analytics/AnalyticsServiceHost.cs:45-48 | With no disconnect after the first connect each completed trade of the delivered log is fed exactly once, however snapshot and deltas split it, and none before the fresh snapshot |
| AnalyticsFeed.DictionaryHasTheCompleted | src/server/Adaptive.ReactiveTrader.Server.Common/TradeCache.cs:94-101 | The completed rows of the dictionary are the completed trades of the log |
| AnalyticsFeed.DeltasFeedTheRest | src/server/Adaptive.ReactiveTrader.Server.Analytics/AnalyticsServiceHost.cs:45-48 | Completed trades in the snapshot and in the deltas after it together are those of the dictionary |
| AnalyticsFeed.TotalsAgreeWithTheLog | src/server/Adaptive.ReactiveTrader.Server.Analytics/AnalyticsServiceHost.cs:45-48 | From the engines to the positions, for inputs that make no handler throw: tracker totals are what the completed trades of the log bought less what they sold, in both currencies, and their number |
| Discovery.ServiceInstances.OnStatus | src/client/src/system/service/serviceObservableExtensions.js:45-55 | A status reaches the dictionary and its observers exactly when it differs from the last one of its instance |
| Discovery.ServiceInstances.OnHeartbeat | src/client/src/system/service/serviceObservableExtensions.js:155-158 | A heartbeat restarts the timer of its instance and is shown |
| Discovery.ServiceInstances.OnTimeout | src/client/src/system/service/serviceObservableExtensions.js:142-151 | A missed heartbeat shows the instance down, once |
| Discovery.ServiceInstances.OnConnectionOpened | src/client/src/system/service/connection.js:93-101 | An open begins an epoch and arms the timer that ends a long session |
| Discovery.ServiceInstances.OnConnectionClosed | src/client/src/system/service/serviceClient.js:84-106 | A close of a connected session ends the epoch: a new empty dictionary is pushed and no timer is left; a close without a session pushes nothing |
| Discovery.ServiceInstances.OnSessionTimer | src/client/src/system/service/connection.js:235-246 | The timer closes the session only if nobody has called disconnect already; the epoch ends with the close event, not here |
| Discovery.RunAgrees | src/client/src/system/service/serviceClient.js:76-109 | In every run dictionary, timers and order agree with the last heartbeats heard in the epoch, told independently |
| Discovery.ShownExactly | src/client/src/system/service/serviceClient.js:76-109 | Once due timers were run an instance shows up exactly when a heartbeat of it came in this epoch less than 3000 ms ago, with the load of its last heartbeat, and the service is up exactly when some instance is |
| Discovery.NeverDownTooEarly | src/client/src/system/service/serviceObservableExtensions.js:135-171 | Late timers or not, an instance shown down was silent for the whole timeout |
| Discovery.PushedExactlyOnChange | src/client/src/system/service/serviceClient.js:96 | Observers are pushed a dictionary exactly when it shows something new, and at the end of an epoch |
| Discovery.DueMeansUp | src/client/src/system/service/serviceObservableExtensions.js:142-151 | In every run a due timer belongs to an instance that is shown up, which its handler relies on |
| Sessions.ConnectionAgrees | src/client/src/system/service/connection.js:89-129 | In every run the status is that of the last open or close heard, the wish to connect is the last word of the user unless the session ran out since, and the session timer is due 900000 ms after the last open of the epoch |
| Sessions.TimersCanRun | src/client/src/system/service/serviceObservableExtensions.js:135-171 | From every reachable state the due timers can be run until none is due, and then exactly the instances heard in this epoch less than 3000 ms ago show up |
| Operations.LeastLoadedIsLeast | src/client/src/system/service/serviceObservableExtensions.js:87-89 | Stable sort and find give an instance exactly when one is up, the least loaded, and of equals the one heard first |
| Operations.Operation.constructor | src/client/src/system/service/serviceClient.js:119-127 | A new operation is replayed the last dictionary at once, and stays subscribed if that found an instance |
| Operations.Operation.HandleDictionary | src/client/src/system/service/serviceObservableExtensions.js:86-100 | A pushed dictionary: pick, or fail when not waiting, or go on waiting |
| Operations.Operation.HandleStatus | src/client/src/system/service/serviceClient.js:187-220 | A status that is down ends the operation, the first that is up makes its call |
| Operations.Operation.HandleAnswer | src/client/src/system/service/serviceClient.js:135-147 | A failed call ends an open operation of either kind, an answer completes a request and leaves a stream open, and an operation that ended keeps its end |
| Operations.Operation.HandleMonitorTimeout | src/client/src/system/service/serviceObservableExtensions.js:145-149 | The timer of a watched instance reports it down, which ends the operation |
| Operations.RunsTheService | src/client/src/system/service/serviceClient.js:119-230 | Operations observe the pipeline and never change it |
| Operations.AtMostOneCall | src/client/src/system/service/serviceClient.js:119-230 | Over its whole life an operation makes at most one call although it may pick twice |
| Operations.EndIsFinal | src/client/src/system/service/serviceClient.js:119-230 | An ended operation does nothing more; a call is never replaced |
| Operations.CallGoesToTheLeastLoaded | src/client/src/system/service/serviceObservableExtensions.js:79-107 | The call goes to an instance then up with no more load than any other that is up |
| Operations.CallGoesToALiveInstance | src/client/src/system/service/serviceObservableExtensions.js:79-107 | With due timers run, that instance was heard in this epoch less than 3000 ms ago |
| Operations.OpenMeansWatched | src/client/src/system/service/serviceObservableExtensions.js:92-96 | An open operation was picked, or its instance heard, less than 3000 ms ago |
| Operations.TimersCoincide | src/client/src/system/service/serviceObservableExtensions.js:92-96 | The timer of an open operation is the dictionary timer exactly when the instance was heard since the pick, and later otherwise |
| Operations.MonitorEndsExactly | src/client/src/system/service/serviceClient.js:187-189 | The timer of an operation ends it exactly when neither pick nor heartbeat came for 3000 ms |
| Operations.PipelineEndsExactly | src/client/src/system/service/serviceObservableExtensions.js:97-103 | The only two ways a push ends an open operation |
| OperationSteps.EndsExactly | src/client/src/system/service/serviceClient.js:119-230 | Over every run, of each step: an open operation ends exactly if it looks for an instance, does not wait and a dictionary without one is pushed (NoService); its epoch ends after its call (ConnectionLost); a timer of it is run after 3000 ms with neither pick nor heartbeat (InstanceDown); its call fails (CallFailed) or, for a request, is answered (Completed); or it is disposed (Disposed) |
| OperationSteps.OnlyItsEnd | src/client/src/system/service/serviceClient.js:135-147 | A step that is not of the pipeline changes nothing but the end of the operation it is for: so an answer to a stream and an answer without a call change nothing |
| OperationSteps.OperationsStay | src/client/src/system/service/serviceClient.js:119-230 | Operations come by their start only, never go, and once ended stay as they are |
| OperationSteps.StartsExactly | src/client/src/system/service/serviceObservableExtensions.js:79-107 | An operation started while an instance is up calls the least loaded one at once, watches it for 3000 ms and takes one more dictionary; with none up it waits, or ends with NoService if it may not |
| OperationSteps.PicksExactly | src/client/src/system/service/serviceObservableExtensions.js:85-96 | A pushed dictionary with an instance up is picked from by every open operation that still listens, which then watches the least loaded and calls it if it called none; nothing else picks or calls |
| Operations.OpenWhileDown | src/client/src/system/service/serviceObservableExtensions.js:92-96 | An operation still open while its service shows down with every due timer run |
| Operations.EndedByAStrangerExactly | src/client/src/system/service/serviceClient.js:187-189 | When a timer ends an operation, the instance it called was heard less than 3000 ms ago if and only if the timer is that of a second pick, on another instance, and that of the first pick is not due too |
| Operations.StrangerExactly | src/client/src/system/service/serviceObservableExtensions.js:83-96 | An operation watches an instance it never called if and only if it was started while the service was up, was open when a dictionary with an instance up was next pushed, and another instance was then least loaded |
| Operations.EndedByAStranger | src/client/src/system/service/serviceObservableExtensions.js:83-96 | The second pick lets an operation end with an instance it never called |
| StreamServer.RequestStreamServer.ProcessSubscription | src/server/Adaptive.ReactiveTrader.Messaging/Abstraction/RequestStreamServer.cs:64-169 | A request on every path: unreadable, no client id, no session, id taken, handler returns or throws |
| StreamServer.RequestStreamServer.RunHandler | src/server/Adaptive.ReactiveTrader.Messaging/Abstraction/RequestStreamServer.cs:123-165 | The callbacks a handler makes before it returns, and the source that is added afterwards, disposed at once if the subscription is gone already |
| StreamServer.RequestStreamServer.OnCallback | src/server/Adaptive.ReactiveTrader.Messaging/Abstraction/RequestStreamServer.cs:134-150 | An update, failure or completion of the source |
| StreamServer.RequestStreamServer.ProcessUnsubscription | src/server/Adaptive.ReactiveTrader.Messaging/Abstraction/RequestStreamServer.cs:188-202 | Unsubscribing removes and disposes at most once |
| StreamServer.RequestStreamServer.SendMessage | src/server/Adaptive.ReactiveTrader.Messaging/Abstraction/RequestStreamServer.cs:283-296 | A message that cannot be published ends the subscription |
| StreamServer.RequestStreamServer.OnSessionDestroyed | src/server/Adaptive.ReactiveTrader.Messaging/Abstraction/RequestStreamServer.cs:91-101 | Losing the session, while the watch is not disposed, disposes and removes |
| StreamServer.OneTerminalOneDisposal | src/server/Adaptive.ReactiveTrader.Messaging/Abstraction/RequestStreamServer.cs:64-296 | Over every run with fresh ids: at most one terminal message, nothing after it but the acknowledgement, and a source disposed exactly once unless it had ended itself |
| StreamServer.SaidExactly | src/server/Adaptive.ReactiveTrader.Messaging/Abstraction/RequestStreamServer.cs:64-296 | A subscriber is sent exactly what an account without flags, tables and disposables says: updates in order up to the first end, and at most one last word |
| StreamAcks.AcksExactly | src/server/Adaptive.ReactiveTrader.Messaging/Abstraction/RequestStreamServer.cs:64-169 | Over every run with fresh ids, from the requests alone: one acknowledgement for each that gets as far as its handler, whatever the handler does, and none for any other; sessions are watched exactly for those that could be read and named their client, where sessions are required |
| StreamServer.GoneStaysGone | src/server/Adaptive.ReactiveTrader.Messaging/Abstraction/RequestStreamServer.cs:204-228 | A subscription that is gone stays gone and is sent nothing but an acknowledgement it is owed |
| StreamServer.SafeExactlyWhenDistinct | src/server/Adaptive.ReactiveTrader.Messaging/Abstraction/RequestStreamServer.cs:64-296 | Where sources may go on calling after they were disposed: for any list of ids, every run whose requests use these ids in order keeps the guarantees of OneTerminalOneDisposal if and only if the ids are pairwise distinct |
| StreamServer.SilentSafeExactly | src/server/Adaptive.ReactiveTrader.Messaging/Abstraction/RequestStreamServer.cs:64-296 | Where sources keep silent once they ended or were disposed: the same if and only if no session is required or the ids are pairwise distinct |
| StreamServer.SilentSourcesAreSafe | src/server/Adaptive.ReactiveTrader.Messaging/Abstraction/RequestStreamServer.cs:64-296 | Without sessions and with silent sources every run keeps the guarantees, however often ids are used |
| StreamServer.RepeatedIdStrands | src/server/Adaptive.ReactiveTrader.Messaging/Abstraction/RequestStreamServer.cs:103-121 | For any list with a repeated id a run in which a session is lost: the watch of the request whose id was taken is left behind, and removes the entry of the first one without disposing its source |
| StreamServer.RepeatedIdBreaks | src/server/Adaptive.ReactiveTrader.Messaging/Abstraction/RequestStreamServer.cs:121 | For any list with a repeated id a run in which the first client with it gets two terminal messages, from a source that calls after it was disposed |
| StreamServer.ReusedId | src/server/Adaptive.ReactiveTrader.Messaging/Abstraction/RequestStreamServer.cs:121 | What it looks like with one id used twice and such a source: the first client gets updates and a second terminal message after its first, and the second client loses its subscription |
| Launcher.LaunchOrKill.SwitchOver | src/server/Adaptive.ReactiveTrader.Common/ConnectedExtensions.cs:37-49 | The previous instance is disposed before the factory of the next runs |
| Launcher.LiveIsWanted | src/server/Adaptive.ReactiveTrader.Common/ConnectedExtensions.cs:18-24 | One source: one instance at a time, each disposed exactly once before the next is built, the live one built from the latest value |
| Launcher.LiveIsLatestBoth | src/server/Adaptive.ReactiveTrader.Common/ConnectedExtensions.cs:37-49 | Two sources: the same, live exactly while both are connected and built from the latest values of both |
| Launcher.EachValueBuilds | src/server/Adaptive.ReactiveTrader.Common/ConnectedExtensions.cs:18-24 | What was built is one instance for each value while connected, from it and in order: an equal value builds anew |
| Launcher.EachPairBuilds | src/server/Adaptive.ReactiveTrader.Common/ConnectedExtensions.cs:37-49 | With two sources one for each notification of either that finds both connected, from the latest values of both |
| Pricing.Sequence | src/server/Adaptive.ReactiveTrader.Server.Pricing/MeanReversionRandomWalkPriceGenerator.cs:31-50 | The loop quotes the walk shock by shock until a conversion overflows |
| Quotes.QuotedExactly | src/server/Adaptive.ReactiveTrader.Server.Pricing/MeanReversionRandomWalkPriceGenerator.cs:52-57 | A price is quoted as v if and only if v is the price cut towards zero to a whole tick, one tick being a tenth for each digit, and that many ticks fit 32 bits |
| Quotes.ThrowsExactly | src/server/Adaptive.ReactiveTrader.Server.Pricing/MeanReversionRandomWalkPriceGenerator.cs:55 | The conversion throws exactly from one tick beyond the 32-bit range on, on both sides |
| Quotes.OneMoreDigit | src/server/Adaptive.ReactiveTrader.Server.Pricing/MeanReversionRandomWalkPriceGenerator.cs:52-57 | Without digits a quote is the whole number towards zero; with one digit more it is a tenth of the quote of ten times the price |
| Quotes.QuoteExactly | src/server/Adaptive.ReactiveTrader.Server.Pricing/MeanReversionRandomWalkPriceGenerator.cs:40-48 | A quote is the exact mid and the two sides computed from it, each cut by itself |
| Quotes.NewWalkInTicks | src/server/Adaptive.ReactiveTrader.Server.Pricing/MeanReversionRandomWalkPriceGenerator.cs:18-27 | A new generator has a volatility of so many ticks and at its initial price a half spread of the drawn number of ticks; none is made exactly for an initial price of zero |
| Quotes.MidIsInitialAndLeft | src/server/Adaptive.ReactiveTrader.Server.Pricing/MeanReversionRandomWalkPriceGenerator.cs:38 | The mid in closed form: the initial price plus every shock times the volatility, discounted by the same factor for each step after it |
| Pricing.MidStaysNear | src/server/Adaptive.ReactiveTrader.Server.Pricing/MeanReversionRandomWalkPriceGenerator.cs:38 | For bounded shocks and a reversion in (0,1] the mid stays within R*vol/k of the initial price forever |
| Pricing.ConstantShocks | src/server/Adaptive.ReactiveTrader.Server.Pricing/MeanReversionRandomWalkPriceGenerator.cs:38 | That bound is the best: constant shocks approach it geometrically |
| Pricing.OrderedExactly | src/server/Adaptive.ReactiveTrader.Server.Pricing/MeanReversionRandomWalkPriceGenerator.cs:44-46 | Bid, mid and ask are in order exactly when the mid is not negative or so near to zero that both sides truncate to the same tick |
| Pricing.SpreadWithinOneTick | src/server/Adaptive.ReactiveTrader.Server.Pricing/MeanReversionRandomWalkPriceGenerator.cs:52-57 | Truncation moves the spread by less than a tick at every price that is not negative, if and only if the half spread is at most the whole price |
| Pricing.HalfSpreadOfNewWalk | src/server/Adaptive.ReactiveTrader.Server.Pricing/MeanReversionRandomWalkPriceGenerator.cs:18-27 | For a generator as it is made that means an initial price of at least as many ticks as the half spread |
| Pricing.QuotesAreSound | src/server/Adaptive.ReactiveTrader.Server.Pricing/MeanReversionRandomWalkPriceGenerator.cs:31-57 | A walk that cannot reach zero is quoted in order forever |
| Pricing.SpreadStaysSound | src/server/Adaptive.ReactiveTrader.Server.Pricing/MeanReversionRandomWalkPriceGenerator.cs:31-57 | And, when the half spread is at most the whole price, with its spread within one tick forever |
| Pricing.NegativeMidIsInverted | src/server/Adaptive.ReactiveTrader.Server.Pricing/MeanReversionRandomWalkPriceGenerator.cs:44-46 | Below zero the bid is quoted above the ask |

## Left out

- WAMP, autobahn, the Event Store client, JSON, logging and configuration: events and messages are datatypes, serialization is the identity except where it may fail in `StreamServer`.
- Connection failures of the store: a call that dies is the step `DropCall`, whatever it had written stays; the single-process methods of `Store` always get an answer.
- A transaction checks the expected version when it commits; what the Event Store does between start and commit is not part of this model.
- Decimals are reals: rounding and overflow of the 128-bit decimal type are not modelled; the conversion to a 32-bit integer in `Pricing.Format` is.
- Threads inside an atomic segment: callbacks of the event loops, of the stream server's lock and of the browser run one at a time.
- Saves with no pending events, which the assertion at Repository.cs line 110 rules out, are a precondition of `SaveAsync`.
- Loading a `Trade` by id: its default identifier already contains an id, so the stream name would be wrong; no code does it.
- Batch laziness: the consumer reads each batch out before it asks for the next, as `GetEventBatches` does.
- Retry after an event handler of a cache threw: the loop is taken as dead, as `failed` says; the theorems show it does not happen on logs the writers can produce.
- Startup of the cache: clients subscribe after the connection handler was installed.
- Event callbacks of a stopped store subscription fall on deaf ears; its caught-up callback does not. A store that announces the live phase before it handed over what the log held is not modelled.
- The `since`, `seen`, `generation` and `failed` fields of the cache and the counters, `started` and `sent` lists of the stream server are history for the statements, not fields of the original.
- Dictionaries enumerate in the order of insertion.
- Analytics across a reconnect: snapshots are fed again and nothing calls `Reset`, so totals count twice; `EachCompletionOnce` is about runs with no disconnect after the first connect.
- The list of positions in a published report and the lock around it: only the history and the trackers are kept. The engine holds tracker values, not `CurrencyPairTracker` objects.
- The stale flag of a cut blotter snapshot is always false, as in the code; nothing is claimed about it.
- Highlighting and notifications of the blotter; a client is taken to handle messages as they are sent.
- A time stamp of an instance in the dictionary may be that of an older heartbeat with the same load; it is not modelled. Loads are integers.
- The payload topic of a stream operation: only the remote call, its answer and the end of the operation are modelled.
- Heartbeats of other service types, which the pipeline filters out, and stream requests of an unknown kind, which the server logs.
- Instance ids that look like array indices, which a browser would enumerate first.
- Operations of a disposed service client, and the sharing of `serviceStatusStream`.
- The server's choice of serialization and publication failures is an input of each step in `StreamServer`; a request handler is its list of callbacks and whether it throws.
- Two `LaunchOrKill` in a chain: each is modelled on its own; the downstream instance is disposed after the upstream one it was built from.
- Random numbers and clocks are inputs. React views, OpenFin, regions, charts and retry delays are not modelled.
- BeginNextId: does not model that an id's 32-bit value is widened to 64 bits, because the value is the same.
- ExecuteTrade: says nothing of the trade and value dates, which come with the terms as parameters.
- SpreadStaysSound: asks for a half spread of at most the whole price, because `SpreadWithinOneTick` shows the spread claim fails otherwise.
- EachCompletionOnce: says nothing of the order of the trades, because totals do not depend on it.
