# Todo service: a verified model of the in-memory CRUD store

The repository implements a Todo service twice, with the same operation
bodies. `TodoService.Core/TodoService.cs` is the modern copy and has an
injected dependency. `TodoServiceLibrary/TodoService.cs` is the legacy copy.
Each copy keeps a static `List<TodoItem>` seeded with two records. Five
operations act on that list in place:

- `GetTodoItem`: the first item with the id, or null.
- `GetAllTodoItems`: the live list itself.
- `AddTodoItem`: sets the id to the count before insertion plus one and appends.
- `UpdateTodoItem`: overwrites the title and flag of the first match.
- `DeleteTodoItem`: removes every match.

The model is imperative, like the source:

- `TodoItem` is a class, because the store keeps the caller's own objects and
  changes their fields.
- The backing list is one `TodoList` object with a `seq<TodoItem>` field.
  `GetAllTodoItems` returns that very object, so a change a caller makes
  through it, such as the `Clear` the unit tests do, is a change to the store.
- The static field becomes one `TodoList` that is handed to every service
  instance when it is built. Dafny has no mutable static state.

The files:

- `todo_items.dfy` (`TodoItems`): the record class and its value view `Record`.
- `todo_lists.dfy` (`TodoLists`): the list class and the two queries the
  service runs over it. `FirstWithId` is `FirstOrDefault(i => i.Id == id)`.
  `WithoutId` is `RemoveAll(i => i.Id == id)`.
- `todo_contract.dfy` (`TodoContract`): the effect of each mutating operation
  of `ITodoService`, written once as a two-state predicate. Both copies are
  proved to have exactly these effects.
- `todo_core.dfy` (`TodoCore`) and `todo_legacy.dfy` (`TodoLegacy`): the two
  services.
- `todo_records.dfy` (`TodoRecords`): an independent reference model on plain
  values, with `SeedRecords`, `AddRecord`, `UpdateRecord`, `DeleteRecords` and
  `ApplyAll`. It also has the lemmas that tie the object searches to it.
- `todo_replay.dfy` (`TodoReplay`): runs each copy through any sequence of
  operations starting from its own seed. It proves the records equal
  `ApplyAll(SeedRecords(), ops)`, so the two copies have the same effect.
- `todo_service_tests.dfy` (`TodoServiceTests`): each unit test as a method
  whose postcondition is what the test asserts. It also has the id-collision,
  live-list and shared-object behaviours.

Ids are not unique. `DistinctIds` holds on the seed, and
`DeleteThenAddDuplicatesAnId` reaches a state where it fails. No invariant
assumes uniqueness.

`GetTodoItem` and `GetAllTodoItems` do not call the injected dependency. Only
`GetData` does (TodoService.Core/TodoService.cs:27-31, 49-57). So the model's
get operations read the list and nothing else.

## Model

| member | source | states |
|---|---|---|
| `TodoItems.TodoItem.constructor` | TodoService.Core/ITodoService.cs:15-23 | a new record holds exactly the id, title and flag it was initialised with |
| `TodoLists.TodoList.Seeded` | TodoService.Core/TodoService.cs:43-47 | the static list starts as two distinct new objects holding (1, "Learn WCF", true) and (2, "Build Todo App", false), in that order; the legacy copy's seed at TodoServiceLibrary/TodoService.cs:13-17 is the same |
| `TodoLists.FirstWithId` | TodoService.Core/TodoService.cs:49-52 | the result is the object at the first position whose id matches, or null exactly when no position matches |
| `TodoLists.FirstWithIdUnique` | TodoService.Core/TodoService.cs:51 | at most one object satisfies the first-match specification, so the lookup is deterministic |
| `TodoLists.WithoutId` | TodoService.Core/TodoService.cs:75-78 | afterwards no element has the id; every element without the id survives; nothing is added; on a miss the list is returned unchanged |
| `TodoLists.WithoutIdAppend` | TodoService.Core/TodoService.cs:77 | removal commutes with concatenation, so the survivors keep their original relative order |
| `TodoLists.TodoList.Add` | TodoService.Core/TodoService.cs:62 | `List.Add` appends the caller's object at the end |
| `TodoLists.TodoList.Clear` | TodoServiceLibrary.Tests/TodoServiceTests.cs:18 | `List.Clear`, applied by callers to the list that get-all hands out, empties the store |
| `TodoLists.TodoList.RemoveAllWithId` | TodoService.Core/TodoService.cs:77 | the list becomes its elements without the id, in order |
| `TodoCore.TodoService.constructor` | TodoService.Core/TodoService.cs:18-22 | a service built with a dependency keeps that dependency and shares the one static list |
| `TodoCore.NewTodoService` | TodoService.Core/TodoService.cs:20 | building a service fails exactly when the dependency is null, and the failure is an argument-null error naming `demo`; otherwise it succeeds with a new service that keeps the dependency and the shared list |
| `TodoCore.TodoService.GetTodoItem` | TodoService.Core/TodoService.cs:49-52 | returns the first record with the id, or null when none has it; changes nothing |
| `TodoCore.TodoService.GetAllTodoItems` | TodoService.Core/TodoService.cs:54-57 | returns the backing list object itself, not a copy |
| `TodoCore.TodoService.AddTodoItem` | TodoService.Core/TodoService.cs:59-63 | the caller's object gets id = count before insertion + 1 and is appended; its title and flag and every other record are unchanged; only the list and that object are written |
| `TodoCore.TodoService.UpdateTodoItem` | TodoService.Core/TodoService.cs:65-73 | the first record with the item's id takes its title and flag and keeps its id; the list and all other records are unchanged; with no match nothing changes; only that record is written |
| `TodoCore.TodoService.DeleteTodoItem` | TodoService.Core/TodoService.cs:75-78 | the list becomes its records without the id, in order; no record's fields change |
| `TodoLegacy.TodoService.constructor` | TodoServiceLibrary/TodoService.cs:11-17 | the implicit constructor: the service uses the static list |
| `TodoLegacy.TodoService.GetTodoItem` | TodoServiceLibrary/TodoService.cs:19-22 | the same first-match-or-null result as the modern copy; changes nothing |
| `TodoLegacy.TodoService.GetAllTodoItems` | TodoServiceLibrary/TodoService.cs:24-27 | returns the backing list object itself |
| `TodoLegacy.TodoService.AddTodoItem` | TodoServiceLibrary/TodoService.cs:29-33 | the same `TodoContract.Added` effect and frame as the modern copy |
| `TodoLegacy.TodoService.UpdateTodoItem` | TodoServiceLibrary/TodoService.cs:35-43 | the same `TodoContract.Updated` effect and frame as the modern copy |
| `TodoLegacy.TodoService.DeleteTodoItem` | TodoServiceLibrary/TodoService.cs:45-48 | the same `TodoContract.Deleted` effect and frame as the modern copy |
| `TodoRecords.IndexOfId` | TodoService.Core/TodoService.cs:51 | reference search on values: the first position with the id, or -1 exactly when none has it |
| `TodoRecords.FirstWithIdMatchesIndex` | TodoService.Core/TodoService.cs:51 | the object search finds the object at the position the value search gives, and null exactly when that is -1 |
| `TodoRecords.WithoutIdMatchesDelete` | TodoService.Core/TodoService.cs:77 | removing objects by id gives the records that deleting records by id gives |
| `TodoRecords.WithoutIdKeepsNoSharing` | TodoService.Core/TodoService.cs:77 | removal never makes one object appear twice |
| `TodoRecords.DeleteRecordsSpec` | TodoService.Core/TodoService.cs:77 | a record survives deletion exactly when it was present and has another id; on a miss nothing changes |
| `TodoRecords.DeleteThenAddRepeatsAnId` | TodoService.Core/TodoService.cs:59-78 | on the seed, delete 1 then add leaves two records with id 2 |
| `TodoReplay.AddCore` | TodoService.Core/TodoService.cs:59-63 | a new object that is appended to the list; the add changes the records as the reference `AddRecord` does, whatever id was supplied |
| `TodoReplay.UpdateCore` | TodoService.Core/TodoService.cs:65-73 | while no object is stored twice, an update changes the records as the reference `UpdateRecord` does |
| `TodoReplay.DeleteCore` | TodoService.Core/TodoService.cs:75-78 | a delete changes the records as the reference `DeleteRecords` does |
| `TodoReplay.StepCore` | TodoService.Core/TodoService.cs:49-78 | one call of any mutating kind, including a clear through get-all, changes the records as the reference `Apply` does |
| `TodoReplay.ReplayCore` | TodoService.Core/TodoService.cs:43-78 | any sequence of calls from the modern copy's seed ends with `ApplyAll(SeedRecords(), ops)` |
| `TodoReplay.AddLegacy` | TodoServiceLibrary/TodoService.cs:29-33 | the legacy add appends a new object and agrees with `AddRecord` |
| `TodoReplay.UpdateLegacy` | TodoServiceLibrary/TodoService.cs:35-43 | the legacy update agrees with `UpdateRecord` |
| `TodoReplay.DeleteLegacy` | TodoServiceLibrary/TodoService.cs:45-48 | the legacy delete agrees with `DeleteRecords` |
| `TodoReplay.StepLegacy` | TodoServiceLibrary/TodoService.cs:19-48 | one legacy call agrees with `Apply` |
| `TodoReplay.ReplayLegacy` | TodoServiceLibrary/TodoService.cs:13-48 | any sequence of calls from the legacy seed ends with `ApplyAll(SeedRecords(), ops)`, the same records as the modern copy |
| `TodoServiceTests.TestInitialize` | TodoServiceLibrary.Tests/TodoServiceTests.cs:13-23 | whatever an earlier test left in the static list, clearing it through get-all and adding two items leaves the store as exactly those two objects, with ids 1 and 2 whatever ids they carried |
| `TodoServiceTests.NewFixture` | TodoServiceLibrary.Tests/TodoServiceTests.cs:13-23 | the test setup run on the static list as the service starts: the store is two new objects holding (1, "Initial Item 1", false) and (2, "Initial Item 2", true) |
| `TodoServiceTests.GetAllTodoItemsReturnsAllItems` | TodoServiceLibrary.Tests/TodoServiceTests.cs:25-36 | get-all yields two items titled "Initial Item 1" and "Initial Item 2" |
| `TodoServiceTests.GetTodoItemWithValidIdReturnsCorrectItem` | TodoServiceLibrary.Tests/TodoServiceTests.cs:38-48 | get(1) is non-null with title "Initial Item 1" and id 1 |
| `TodoServiceTests.GetTodoItemWithInvalidIdReturnsNull` | TodoServiceLibrary.Tests/TodoServiceTests.cs:50-58 | get(999) is null |
| `TodoServiceTests.AddTodoItemAddsNewItemAndAssignsId` | TodoServiceLibrary.Tests/TodoServiceTests.cs:60-75 | the added item is in the store and is the first element titled "Buy groceries", the one `Find` returns; it has id 3 and is not completed |
| `TodoServiceTests.UpdateTodoItemWithValidIdUpdatesItem` | TodoServiceLibrary.Tests/TodoServiceTests.cs:77-91 | after update(1, "Updated Item", true), get(1) has that title and is completed |
| `TodoServiceTests.UpdateTodoItemWithInvalidIdDoesNotUpdateAnything` | TodoServiceLibrary.Tests/TodoServiceTests.cs:93-108 | the "initial" list the test captures is the same live object as the final one, so its two counts always agree; the count taken before the update is also 2, and record 1 is unchanged after update(999) |
| `TodoServiceTests.DeleteTodoItemWithValidIdDeletesItem` | TodoServiceLibrary.Tests/TodoServiceTests.cs:110-122 | after delete(1), get(1) is null and the one remaining item is "Initial Item 2" |
| `TodoServiceTests.DeleteTodoItemWithInvalidIdDoesNotThrowException` | TodoServiceLibrary.Tests/TodoServiceTests.cs:124-130 | delete(999) is a silent no-op: the records are as before |
| `TodoServiceTests.DeleteThenAddDuplicatesAnId` | TodoService.Core/TodoService.cs:59-78 | on the seed, delete(1) then add gives the new object id 2, equal to the remaining record's, so ids are no longer distinct |
| `TodoServiceTests.GetAllTodoItemsIsLive` | TodoService.Core/TodoService.cs:54-57 | a list obtained from get-all before an add shows the added record |
| `TodoServiceTests.AddingOneObjectTwiceSharesIt` | TodoService.Core/TodoService.cs:59-63 | adding one object twice stores it at two positions, and the second id assignment (4) is seen at both |

## Left out

- `GetData` and `DoWork` (TodoService.Core/TodoService.cs:27-36) are left out. They only write to the console and format an integer as text; neither touches the store.
- `DeprecatedDependencyInjectionDemo` is kept only as an opaque non-null object. Its logger and data-access members write to the console.
- Console output in the service constructor is left out.
- Concurrency is left out. The single-instance service shares the static list with no locking; the model covers sequential calls only.
- Static state is passed to each constructor instead of being global. Dafny has no mutable static fields. Two service instances built over one `TodoList` share it exactly as the static field is shared.
- Null arguments are not modelled. A null `TodoItem` passed to add or update, and a null `Title`, would raise `NullReferenceException` or be stored as null in C#. The Dafny types exclude them.
- Ids are unbounded integers. `Count + 1` overflows a 32-bit `int` only with more than two billion records, so the model does not wrap.
- `TodoReplay.ReplayCore`: proved only for calls that pass new objects. The value model cannot express one object stored twice. That case is covered separately by `AddingOneObjectTwiceSharesIt`.
- `TodoReplay.ReplayLegacy`: the same restriction to new objects.
- Hosting (WCF, SoapCore, net.tcp), the test client, the Entity Framework dependency and the mock-based tests are transport or I/O and are not part of this model.
