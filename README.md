# Warehouse aggregate, event-sourced, in Dafny

This project models the event-sourced `Warehouse` aggregate of WarehouseManagement. It covers the aggregate's location ledger, its replay and publishing base (`AggregateRoot`), and the two copies of the small `Result` wrapper.

The warehouse keeps three maps:
- batch id to warehouse total;
- location id to `Location`, where a location has a name and its own batch id to quantity ledger;
- batch id to `Batch`, which holds a name and `IsPharma`.

Its state changes only by handling one of six events. A command works in three steps: it validates against the maps, applies events, and hands them to an event sink.

The model has two layers:

- **Imperative classes.** `Locations.Location` and `Aggregate.Warehouse` hold the fields the C# code updates in place. Their methods are the handlers, with the same branches and the same order of checks. A C# exception is a returned `Option<Exception>`, where `None` means the call returned normally.
  - The sink is the ghost field `published`. Every publish call appends to it.
  - `Values.First(name == N)` becomes `FindLocation`. It loops over the key set in an unspecified order, much as dictionary order is unspecified.
- **Value functions.** `WarehouseModel` defines the same behaviour on values:
  - `Attempt` handles one event;
  - `Replay` is the left fold over the events that stops at the first exception;
  - `Receive`, `Ship`, `Move`, `Assemble` and `Dispatch` are the commands, each returning a `Step` (final state, events published, exception).

Every method is proved to produce exactly the `View()`, `published` and exception that its function gives. The properties themselves are lemmas about those functions (modules `ReplayFacts`, `CommandFacts` and `Scenarios`).

A lookup by name returns its answer as a ghost out-parameter `site`. The contract says `site` is an admissible answer (`Located`), so every property holds whichever location with that name the dictionary yields first.

## How the two copies of the aggregate are modelled

The WarehouseManagement copy has the same fields, replay, `HandleAndPublish` overloads, `Handle(Event)` dispatch and `Execute(Command)` dispatch as the domain copy.
- Both copies run on the one class `Aggregate.Warehouse`.
- The rows below cite the domain copy. The WarehouseManagement lines are `src/WarehouseManagement/Warehouse.cs:16-20` (constructor), `:27-34` and `:44-48` (publishing), `:50-81` (dispatch) and `:83-104` (`Execute`).
- What this copy adds is a null check on the command object. Module `Management` models that check.
- The domain copy's `Execute(Command)` dispatches to overloads that are not part of this model. The public `ReceiveBatch`/`ShipBatch`/`MoveBatch`/`AssembleBatch` methods act as those overloads.
- The private event handlers appear twice, in `src/Core.Domain/Warehouse.cs:103-158` and in `src/Core.Domain/Warehouse.EventHandlers.cs`. They are the same code and are modelled once.

## Behaviour of the code worth knowing

- **`AddBatch` of a batch already present.** Test L005 is titled "QuantityOfBatch returns sum of added and removed batches". On a batch that is already present, though, the code computes the sum and then stores the batch id in the entry (`src/Core.Domain/Location.cs:21-22`). See `Ledgers.AddToPresentStoresId`.
- **`RemovedBatch`.** The handler always removes the batch's warehouse total (`src/Core.Domain/Warehouse.EventHandlers.cs:28`). When the event's quantity exceeds the total, the handler first stores the difference (lines 22-27); the removal then discards it. See `ReplayFacts.RemovedBatchDrops`.
- **Publishing.** Receive, Ship and Move call `HandleAndPublish` once per event (`src/Core.Domain/Warehouse.cs:33-34`, `51-52` and `72-73`). The first event can therefore be applied and published before the second throws. See `CommandFacts.ShipPartial` and `CommandFacts.MovePartial`.
- **Assembly failing partway.** Assemble applies the whole list (`HandleAndPublish(events)`, `src/Extensions/AggregateRoot.cs:22-29`) before publishing it. An exception partway through leaves some events applied and none published. See `CommandFacts.AssembleNotRecorded`.
- **Sign of components.** The validation loop compares the holding with perUnit x quantity but never checks the sign (`src/Core.Domain/Warehouse.cs:88-90`). A negative component passes validation whenever the holding is not negative. If the batch is held at Assemble, its `RemovedBatchFromLocation` then raises the holding (`CommandFacts.AssembleNegativeComponent`). If it is not held, that removal throws KeyNotFound at `Location.RemoveBatch`'s indexer, and nothing is published (`CommandFacts.AssembleNegativeAbsent`).
- **Null components.** A null element of `From` throws `NullReferenceException` at `source.Quantity` (`src/Core.Domain/Warehouse.cs:88`), before any event is applied. See `CommandFacts.NullComponentThrows`.
- **Moving more than the source holds.** Move makes no check that the source holds the quantity. `RemoveBatch` then deletes the source's entry. See `CommandFacts.MoveMoreThanHeld`.
- **`CreatedLocation`.** The handler keys the new location by `evt.Id`, but `CreatedLocation` declares only `LocationId`. The `Event` base class is not part of this model. The model keys the new location by the event's location id, which is what the tests expect.

## Model

| member | source | states |
|---|---|---|
| Ledgers.QuantityOf | src/Core.Domain/Location.cs:43-50 | on a positive ledger the answer is never negative, and it is 0 exactly when the batch is absent; RemoveWhatWasAdded, RemoveLessThanAdded and AddToPresentStoresId give its values after updates |
| Ledgers.NoKeysNoSize | src/Core.Domain/Location.cs:12-15 | an empty ledger (count 0) is one with no key, so IsEmpty means no batch is contained |
| Ledgers.Added | src/Core.Domain/Location.cs:17-28 | adding a batch makes it contained; an absent batch gets the quantity, a present one gets its own id; every other entry is kept |
| Ledgers.Removed | src/Core.Domain/Location.cs:30-41 | when more than q is held the holding drops by q and the key set stays; otherwise the entry goes; every other entry is kept |
| Ledgers.AddedKeepsPositive | src/Core.Domain/Location.cs:17-28 | with positive id and quantity, adding keeps every holding strictly positive |
| Ledgers.RemovedKeepsPositive | src/Core.Domain/Location.cs:30-41 | removing any quantity keeps every holding strictly positive |
| Ledgers.ZeroIffAbsent | src/Core.Domain/Location.cs:43-55 | on a positive ledger QuantityOfBatch is 0 exactly when ContainsBatch is false |
| Ledgers.RemoveWhatWasAdded | src/Core.Domain/Location.cs:17-50 | adding an absent batch and removing the same quantity restores the ledger, and QuantityOfBatch is 0 |
| Ledgers.RemoveLessThanAdded | src/Core.Domain/Location.cs:17-50 | adding q2 of an absent batch and removing a smaller q1 leaves q2 - q1 |
| Ledgers.AddToPresentStoresId | src/Core.Domain/Location.cs:19-23 | adding to a present batch is not additive: QuantityOfBatch becomes the batch id |
| Locations.Location.constructor | src/Core.Domain/Location.cs:8-15 | a new location has the given id and name and an empty ledger, so IsEmpty holds |
| Locations.Location.IsEmpty | src/Core.Domain/Location.cs:12-15 | a location is empty exactly when it contains no batch |
| Locations.Location.QuantityOfBatch | src/Core.Domain/Location.cs:43-50 | on a positive ledger the quantity is never negative, and it is 0 exactly when ContainsBatch is false |
| Locations.Location.ContainsBatch | src/Core.Domain/Location.cs:52-55 | a location that contains a batch has a non-empty ledger, so IsEmpty is false |
| Locations.Location.AddBatch | src/Core.Domain/Location.cs:17-28 | the ledger becomes Added of the old one; the batch is contained, the location is not empty, and no other batch becomes contained |
| Locations.Location.RemoveBatch | src/Core.Domain/Location.cs:30-41 | throws KeyNotFound, changing nothing, exactly when the batch is absent; otherwise the ledger becomes Removed of the old one |
| WarehouseModel.Attempt | src/Core.Domain/Warehouse.EventHandlers.cs:7-62 | a handler that throws leaves the whole state as it was |
| WarehouseModel.Replay | src/Extensions/AggregateRoot.cs:31-37 | defines replay as the left fold of Attempt that stops at the first exception; ReplayAppend, ReplayStopsAtFailure and ReplayThrough state its properties |
| WarehouseModel.Publish | src/Extensions/AggregateRoot.cs:39-43 | an event that throws is neither applied nor published; otherwise exactly [evt] is published |
| WarehouseModel.PublishAll | src/Extensions/AggregateRoot.cs:22-29 | the whole list is published when no event threw and nothing otherwise; on success the state is the replay's |
| WarehouseModel.Then | src/Core.Domain/Warehouse.cs:33-34 | a second HandleAndPublish runs only if the first returned; the log keeps what was published and gains at most the one event |
| WarehouseModel.Located | src/Core.Domain/Warehouse.cs:32 | defines the admissible answers of First: a location with the name, or none when no location has it |
| WarehouseModel.Receive | src/Core.Domain/Warehouse.cs:27-35 | nothing published means nothing changed; a success publishes two events, and no call publishes more |
| WarehouseModel.Ship | src/Core.Domain/Warehouse.cs:37-53 | nothing published means nothing changed; a success publishes two events, and no call publishes more |
| WarehouseModel.Move | src/Core.Domain/Warehouse.cs:55-74 | nothing published means nothing changed; a success publishes two events, and no call publishes more |
| WarehouseModel.Shortfall | src/Core.Domain/Warehouse.cs:86-93 | when the validation loop throws nothing, no component was null (ShortfallNoneIff gives the whole condition) |
| WarehouseModel.Components | src/Core.Domain/Warehouse.cs:86-96 | the removal list has two events per component |
| WarehouseModel.AssemblyEvents | src/Core.Domain/Warehouse.cs:85-98 | defines the published list as the removal pairs followed by the new batch; AssemblyEventsLayout states its layout |
| WarehouseModel.Assemble | src/Core.Domain/Warehouse.cs:76-101 | an assembly that throws has published nothing; one that succeeds has published at least the two events of the new batch |
| WarehouseModel.Dispatch | src/Core.Domain/Warehouse.cs:193-214 | defines what Execute does with each kind of command; ExecuteRoutes and CommandKeepsStocked state its properties |
| WarehouseModel.ShortfallFirst | src/Core.Domain/Warehouse.cs:86-93 | once a prefix of the component list throws, the whole list throws that same exception |
| ReplayFacts.ReplaySingle | src/Extensions/AggregateRoot.cs:31-37 | replaying one event is handling it |
| ReplayFacts.ReplayAppend | src/Extensions/AggregateRoot.cs:31-37 | replaying E1 ++ E2 is replaying E2 from the state E1 left, unless E1 threw |
| ReplayFacts.ReplayStopsAtFailure | src/Extensions/AggregateRoot.cs:31-37 | once a prefix throws, the later events are never handled |
| ReplayFacts.ReplayThrough | src/Extensions/AggregateRoot.cs:31-37 | a replay whose events all succeed ends in the state reached by handling them one by one |
| ReplayFacts.BatchesPersist | src/Core.Domain/Warehouse.EventHandlers.cs:53-62 | a registered batch keeps its name and IsPharma through any replay |
| ReplayFacts.LocationsPersist | src/Core.Domain/Warehouse.EventHandlers.cs:31-39 | a created location is never removed and keeps its name through any replay |
| ReplayFacts.AttemptKeepsStocked | src/Core.Domain/Warehouse.EventHandlers.cs:41-51 | an event with positive batch id and quantity keeps every location ledger positive |
| ReplayFacts.ReplayKeepsStocked | src/Extensions/AggregateRoot.cs:31-37 | replaying such events keeps every ledger positive |
| ReplayFacts.AddedBatchAdds | src/Core.Domain/Warehouse.EventHandlers.cs:7-17 | the batch's total becomes (old total or 0) + q; every other total, the locations and the batches are kept |
| ReplayFacts.RemovedBatchDrops | src/Core.Domain/Warehouse.EventHandlers.cs:19-29 | succeeds exactly when the batch has a total, and then the batch has no total at all, whatever q is; everything else is kept |
| ReplayFacts.CreatedLocationAdds | src/Core.Domain/Warehouse.EventHandlers.cs:31-39 | succeeds exactly when the id is unused, and adds an empty location with the event's name under it |
| ReplayFacts.LedgerEventsAreLocal | src/Core.Domain/Warehouse.EventHandlers.cs:41-51 | both ledger events need the location (a removal also needs the batch there) and change only that location's ledger: totals, batches, names and other ledgers are kept |
| ReplayFacts.RegisteredBatchAdds | src/Core.Domain/Warehouse.EventHandlers.cs:53-62 | succeeds exactly when the id is unused, and stores the event's name and IsPharma |
| Aggregate.Warehouse.constructor | src/Extensions/AggregateRoot.cs:17-20 | a new warehouse is empty and has published nothing |
| Aggregate.Warehouse.Replaying | src/Extensions/AggregateRoot.cs:11-15 | constructing with events gives Replay of them from the empty state, and publishes nothing |
| Aggregate.Warehouse.HandleAddedBatch | src/Core.Domain/Warehouse.EventHandlers.cs:7-17 | the new view is what Attempt gives for AddedBatch |
| Aggregate.Warehouse.HandleRemovedBatch | src/Core.Domain/Warehouse.EventHandlers.cs:19-29 | the new view and the exception are what Attempt gives for RemovedBatch |
| Aggregate.Warehouse.HandleCreatedLocation | src/Core.Domain/Warehouse.EventHandlers.cs:31-39 | the new view and the exception are what Attempt gives for CreatedLocation; the only new Location object is fresh |
| Aggregate.Warehouse.HandleAddedBatchToLocation | src/Core.Domain/Warehouse.EventHandlers.cs:41-45 | the new view and the exception are what Attempt gives; only the one Location object changes |
| Aggregate.Warehouse.HandleRemovedBatchFromLocation | src/Core.Domain/Warehouse.EventHandlers.cs:47-51 | the new view and the exception are what Attempt gives; only the one Location object changes |
| Aggregate.Warehouse.HandleRegisteredBatch | src/Core.Domain/Warehouse.EventHandlers.cs:53-62 | the new view and the exception are what Attempt gives for RegisteredBatch |
| Aggregate.Warehouse.Handle | src/Core.Domain/Warehouse.cs:160-191 | each event kind goes to its own handler, so the new view is Attempt's; nothing is published |
| Aggregate.Warehouse.HandleAll | src/Extensions/AggregateRoot.cs:31-37 | the loop leaves the view that Replay gives, stopping at the first exception |
| Aggregate.Warehouse.HandleAndPublish | src/Extensions/AggregateRoot.cs:39-43 | handles the event, then appends [evt] to the log, and only if handling did not throw |
| Aggregate.Warehouse.HandleAndPublishAll | src/Extensions/AggregateRoot.cs:22-29 | handles every event in order, then appends the whole list in one call, and only if no event threw |
| Aggregate.Warehouse.FindLocation | src/Core.Domain/Warehouse.cs:32 | returns a location carrying the name, or None exactly when no location carries it |
| Aggregate.Warehouse.ReceiveBatch | src/Core.Domain/Warehouse.cs:27-35 | after positive arguments the looked-up site is admissible, and the new view, the log and the exception are Receive's |
| Aggregate.Warehouse.ShipBatch | src/Core.Domain/Warehouse.cs:37-53 | after positive arguments the looked-up site is admissible, and the new view, the log and the exception are Ship's |
| Aggregate.Warehouse.MoveBatch | src/Core.Domain/Warehouse.cs:55-74 | the new view, the log and the exception are Move's |
| Aggregate.Warehouse.AssembleBatch | src/Core.Domain/Warehouse.cs:76-101 | the validation loop's invariant ties its list to Components and its checks, null components included, to Shortfall; the new view, the log and the exception are Assemble's |
| Aggregate.Warehouse.Execute | src/Core.Domain/Warehouse.cs:193-214 | routes the four handled kinds to their handlers; null and every other kind change nothing and publish nothing |
| Management.ExecuteReceive | src/WarehouseManagement/Warehouse.CommandHandlers.cs:11-20 | a null command throws ArgumentNull before anything changes; otherwise it is Receive |
| Management.ExecuteShip | src/WarehouseManagement/Warehouse.CommandHandlers.cs:22-39 | a null command throws ArgumentNull before anything changes; otherwise it is Ship |
| Management.ExecuteMove | src/WarehouseManagement/Warehouse.CommandHandlers.cs:68-88 | a null command throws ArgumentNull before anything changes; otherwise it is Move |
| Management.ReceiveOrNull | src/WarehouseManagement/Warehouse.CommandHandlers.cs:11-20 | defines the null check in front of Receive; NullRejected and ExecuteRoutes state its properties |
| Management.ShipOrNull | src/WarehouseManagement/Warehouse.CommandHandlers.cs:22-39 | defines the null check in front of Ship; NullRejected and ExecuteRoutes state its properties |
| Management.MoveOrNull | src/WarehouseManagement/Warehouse.CommandHandlers.cs:68-88 | defines the null check in front of Move; NullRejected and ExecuteRoutes state its properties |
| Management.NullRejected | src/WarehouseManagement/Warehouse.CommandHandlers.cs:13 | every handler, Assemble's included, rejects a null command with nothing applied or published |
| Management.ExecuteRoutes | src/WarehouseManagement/Warehouse.cs:83-104 | a present command is handled exactly as its own handler handles it; any other kind leaves state and log unchanged |
| CommandFacts.ReceiveEmitsPair | src/Core.Domain/Warehouse.cs:32-34 | once the Receive location is found, Receive succeeds, publishes exactly [AddedBatch(b,q), AddedBatchToLocation(receive,b,q)], adds q to the total and puts the batch in Receive's ledger |
| CommandFacts.ReceiveRejects | src/Core.Domain/Warehouse.cs:29-32 | Receive fails exactly when an argument is not positive or no location is named Receive, and then nothing changes and nothing is published |
| CommandFacts.ShipRejected | src/Core.Domain/Warehouse.cs:42-49 | with no Ship location, or with less at Ship than requested, Ship fails with that reason and changes and publishes nothing |
| CommandFacts.ShipEmitsPair | src/Core.Domain/Warehouse.cs:51-52 | when Ship holds enough, Ship succeeds exactly when the batch has a total; it then publishes [RemovedBatchFromLocation(ship,b,q), RemovedBatch(b,q)], leaves Ship holding q less, and the total entry is gone |
| CommandFacts.ShipPartial | src/Core.Domain/Warehouse.cs:51-52 | with no total entry, the removal from Ship is applied and published, and then the command throws KeyNotFound |
| CommandFacts.MoveRejectsArguments | src/Core.Domain/Warehouse.cs:57-62 | each non-positive argument is reported in order, then an unregistered batch throws KeyNotFound, all before any event |
| CommandFacts.MovePharmaIntoNonEmpty | src/Core.Domain/Warehouse.cs:63-70 | a pharma batch moved into a location that holds anything is rejected with nothing changed |
| CommandFacts.MoveNonPharmaSkipsCheck | src/Core.Domain/Warehouse.cs:63-73 | for a non-pharma batch the destination's contents make no difference: the move goes straight to the two events |
| CommandFacts.MoveEmitsPair | src/Core.Domain/Warehouse.cs:72-73 | past the checks, Move succeeds exactly when the source holds the batch (in any amount) and the destination exists, and publishes the remove/add pair |
| CommandFacts.MoveMoreThanHeld | src/Core.Domain/Warehouse.cs:72-73 | no check is made that the source holds q: moving more than it holds succeeds and empties the source's entry |
| CommandFacts.MovePartial | src/Core.Domain/Warehouse.cs:72-73 | a non-pharma move into a missing destination publishes the removal and then throws KeyNotFound |
| CommandFacts.ShortfallNoneIff | src/Core.Domain/Warehouse.cs:86-93 | validation passes exactly when every component is non-null and held at Assemble in perUnit x quantity |
| CommandFacts.NullComponentThrows | src/Core.Domain/Warehouse.cs:86-88 | the first null component, after components that pass, makes the loop throw NullReferenceException |
| CommandFacts.AssembleAllOrNothing | src/Core.Domain/Warehouse.cs:85-100 | if any component is null or lacks stock, Assemble applies and publishes nothing |
| CommandFacts.ComponentsAt | src/Core.Domain/Warehouse.cs:86-96 | pair i of the removal list is for component i, with amount perUnit x quantity |
| CommandFacts.AssemblyEventsLayout | src/Core.Domain/Warehouse.cs:85-100 | the list has 2 x components + 2 events: the removal pairs in input order, then AddedBatch and AddedBatchToLocation at Assemble |
| CommandFacts.AssemblePublishesOnce | src/Core.Domain/Warehouse.cs:100 | Assemble publishes the whole list in one call or nothing, and the whole list whenever it succeeds |
| CommandFacts.AssembleNegativeComponent | src/Core.Domain/Warehouse.cs:88-94 | a component with a negative per-unit quantity passes validation, and the assembly then raises the holding from 3 to 8 |
| CommandFacts.AssembleNegativeAbsent | src/Core.Domain/Location.cs:30-32 | a negative component of a batch not held at Assemble passes validation, and its removal then throws KeyNotFound with nothing changed or published |
| CommandFacts.PublishRecorded | src/Extensions/AggregateRoot.cs:39-43 | what one publish call logged replays to the state it reached |
| CommandFacts.ThenRecorded | src/Extensions/AggregateRoot.cs:39-43 | a further single publish keeps the log replaying to the state |
| CommandFacts.CommandsRecorded | src/Core.Domain/Warehouse.cs:27-74 | even when they throw halfway, Receive, Ship and Move have published exactly the events they applied |
| CommandFacts.AssembleRecordedIff | src/Core.Domain/Warehouse.cs:76-101 | Assemble's log replays to its state except when events were applied but none published |
| CommandFacts.AssembleNotRecorded | src/Core.Domain/Warehouse.cs:94-100 | a list naming one batch twice passes validation, throws KeyNotFound on the second RemovedBatch, and leaves a changed state with nothing published |
| CommandFacts.ComponentsSound | src/Core.Domain/Warehouse.cs:94-95 | no event of the removal list is an AddedBatchToLocation, so each is Sound for the ledger invariant |
| CommandFacts.ThenKeepsStocked | src/Core.Domain/Warehouse.EventHandlers.cs:41-51 | a further single publish keeps every ledger positive |
| CommandFacts.ReceiveKeepsStocked | src/Core.Domain/Warehouse.cs:27-35 | Receive keeps every location ledger positive |
| CommandFacts.ShipKeepsStocked | src/Core.Domain/Warehouse.cs:37-53 | Ship keeps every location ledger positive |
| CommandFacts.MoveKeepsStocked | src/Core.Domain/Warehouse.cs:55-74 | Move keeps every location ledger positive, even when more is moved than the source holds |
| CommandFacts.AssembleKeepsStocked | src/Core.Domain/Warehouse.cs:76-101 | Assemble keeps every location ledger positive, negative components included |
| CommandFacts.CommandKeepsStocked | src/Core.Domain/Warehouse.cs:193-214 | no command puts a non-positive quantity into a location's ledger |
| Scenarios.ReplaySite | src/UnitTests.Domain/WarehouseTests.cs:18-21 | the four CreatedLocation events give the four empty named locations |
| Scenarios.SiteLookup | src/Core.Domain/Warehouse.cs:32 | with unique names the lookup has only one admissible answer |
| Scenarios.W001 | src/UnitTests.Domain/WarehouseTests.cs:13-28 | receiving 10 of batch 1 publishes AddedBatch(1,10) then AddedBatchToLocation(1,1,10) |
| Scenarios.W002 | src/UnitTests.Domain/WarehouseTests.cs:30-46 | shipping 7 of 10 publishes the removal pair; Ship then holds 3 and the batch has no total |
| Scenarios.AssembleChecks | src/UnitTests.Domain/WarehouseTests.cs:48-79 | the W003 order passes validation and builds the six expected events |
| Scenarios.ReplayAssembled | src/UnitTests.Domain/WarehouseTests.cs:48-79 | the six events apply without exception to the W003 stock |
| Scenarios.W003 | src/UnitTests.Domain/WarehouseTests.cs:48-79 | the assembly publishes the six events in the documented order |
| Scenarios.W004 | src/UnitTests.Domain/WarehouseTests.cs:81-93 | shipping 7 when Ship holds 5 fails with nothing changed |
| Scenarios.W005 | src/UnitTests.Domain/WarehouseTests.cs:95-102 | an empty warehouse cannot ship: there is no Ship location |
| Scenarios.W006 | src/UnitTests.Domain/WarehouseTests.cs:104-122 | a pharma batch may not be moved to a location holding another batch |
| Scenarios.W007 | src/UnitTests.Domain/WarehouseTests.cs:124-143 | a pharma batch moves into an empty location with the remove/add pair |
| Scenarios.AddThenRemoveLess | src/Tests.WarehouseManagement/LocationTests.cs:70-87 | on a new Location, adding q2 and removing a smaller q1 leaves q2 - q1, still contained |
| Scenarios.AddThenRemoveSame | src/Tests.WarehouseManagement/LocationTests.cs:89-129 | on a new Location, adding and removing the same quantity leaves every batch at 0, none contained, the location empty |
| CoreResults.Result.IsSuccess | src/Core.Extensions/Result.cs:42-48 | defines success as the Ok case |
| CoreResults.Result.IsFailure | src/Core.Extensions/Result.cs:34-40 | defines failure as the negation of IsSuccess |
| CoreResults.Result.Errors | src/Core.Extensions/Result.cs:22-32 | gives the errors of a failure; it requires a failure, where the C# getter throws on a success |
| CoreResults.ValueResult.IsSuccess | src/Core.Extensions/Result.cs:42-48 | defines success as the OkWith case |
| CoreResults.ValueResult.IsFailure | src/Core.Extensions/Result.cs:34-40 | defines failure as the negation of IsSuccess |
| CoreResults.ValueResult.Errors | src/Core.Extensions/Result.cs:22-32 | gives the errors of a failure; it requires a failure |
| CoreResults.ValueResult.Value | src/Core.Extensions/Result.cs:86-96 | gives the value of a success; it requires a success, where the C# getter throws on a failure |
| CoreResults.Success | src/Core.Extensions/Result.cs:50-53 | a success has IsSuccess true and IsFailure false |
| CoreResults.Fail | src/Core.Extensions/Result.cs:55-58 | a failure has IsFailure true, IsSuccess false, and Errors equal to the given errors |
| CoreResults.SuccessWith | src/Core.Extensions/Result.cs:60-63 | a success with a value reports success and gives back that value |
| CoreResults.FailWith | src/Core.Extensions/Result.cs:65-68 | a failure with a value type reports failure and carries the given errors |
| CoreResults.ResultIsMade | src/Core.Extensions/Result.cs:34-48 | IsFailure is the negation of IsSuccess, and every result is Success() or Fail of its own errors |
| CoreResults.ValueResultIsMade | src/Core.Extensions/Result.cs:86-96 | likewise with a value: every success is Success(its Value) |
| Results.Succeeded | src/Extensions/Result.cs:42-48 | defines success on the shared result type |
| Results.Failed | src/Extensions/Result.cs:34-40 | defines failure as the negation of Succeeded |
| Results.Errors | src/Extensions/Result.cs:22-32 | gives the errors of a failure; it requires a failure |
| Results.SucceededWith | src/Extensions/Result.cs:42-48 | defines success for a result with a value |
| Results.FailedWith | src/Extensions/Result.cs:34-40 | defines failure for a result with a value as the negation of SucceededWith |
| Results.ErrorsOf | src/Extensions/Result.cs:22-32 | gives the errors of a failed result with a value; it requires a failure |
| Results.Value | src/Extensions/Result.cs:88-98 | gives the value of a success; it requires a success, where the C# getter throws on a failure |
| Results.Success | src/Extensions/Result.cs:50-53 | a success has Succeeded true and Failed false |
| Results.Failure | src/Extensions/Result.cs:55-58 | a failure has Failed true, Succeeded false, and Errors equal to the given errors |
| Results.SuccessWith | src/Extensions/Result.cs:61-64 | a success with a value reports success and gives back that value |
| Results.FailureWith | src/Extensions/Result.cs:66-69 | a failure with a value type reports failure and carries the given errors |
| Results.ResultIsMade | src/Extensions/Result.cs:34-48 | Failed is the negation of Succeeded, and every result is Success() or Failure of its own errors |
| Results.ValueResultIsMade | src/Extensions/Result.cs:88-98 | likewise with a value: every success is Success(its Value) |

Accessors that throw on the wrong kind of result have the matching precondition:
- `Errors` requires a failure.
- `Value` requires a success.

## Left out

- CreateLocation and RegisterBatch: these commands have no implementation in the modelled files (only tests mention them). Their events are modelled, through `CreatedLocation` and `RegisteredBatch`.
- 32-bit arithmetic: quantities and ids are unbounded integers. `source.Quantity * order.Quantity` and the additions can overflow in C#, and the model does not capture that overflow.
- The event sink and the mediator: publishing appends to the ghost `published` log. The returned `Task`, asynchrony and sink failures are not modelled.
- Exception messages: the model keeps the exception kind and the quantities reported (`NotEnough(requested, available)`), not the formatted text.
  - The C# `paramName` casing differs between the two copies (`quantity` against `Quantity`), and the model does not keep it.
- Unknown event or command kinds: events are a closed datatype, so an event no handler matches cannot arise. Any other command kind is the single `OtherCommand`.
- The value objects (`BatchId`, `LocationId`, `Error`'s base class): ids are plain integers and errors are a two-field datatype.
- `Batch.Id` is not stored: a batch is keyed by its id, so the stored value holds only its name and `IsPharma`.
- `Location.ToString` and the formatted messages that use it are not modelled.
- The order of `Values.First`: the model proves properties for every admissible answer. It does not fix which of two equally named locations a dictionary returns.
- Aggregate.Warehouse.AssembleBatch: one method models both assembly handlers, because an `AssembleOrder` value stands for both the domain `BatchAssembleOrder` and the WarehouseManagement `AssembleBatch` command.
