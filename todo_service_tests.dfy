/** The unit tests of the service, one method each, with what each test
    asserts stated as the method's postcondition; and the behaviours that
    follow from count-based ids and from the shared, live list. The tests
    build the service with the one-argument constructor, which is the
    modern copy's. */
module TodoServiceTests {
  import opened TodoItems
  import opened TodoLists
  import opened TodoCore

  /** The test fixture: a service over the static list, cleared through the
      list that `GetAllTodoItems` returns, then two records added. Whatever
      the static list held before (an earlier test may have left anything)
      and whatever ids the two records carry, the store ends up as exactly
      those two records, with ids 1 and 2. */
  method TestInitialize(todoItems: TodoList, id1: int, id2: int)
    returns (service: TodoService, item1: TodoItem, item2: TodoItem)
    modifies todoItems
    ensures fresh(service) && fresh(item1) && fresh(item2)
    ensures service.todoItems == todoItems
    ensures todoItems.elems == [item1, item2] && item1 != item2
    ensures item1.Value() == Record(1, "Initial Item 1", false)
    ensures item2.Value() == Record(2, "Initial Item 2", true)
  {
    var demo := new DeprecatedDependencyInjectionDemo();
    service := new TodoService(demo, todoItems);
    var all := service.GetAllTodoItems();
    all.Clear();
    item1 := new TodoItem(id1, "Initial Item 1", false);
    item2 := new TodoItem(id2, "Initial Item 2", true);
    service.AddTodoItem(item1);
    service.AddTodoItem(item2);
  }

  /** A fixture over a static list in the state the service starts in. */
  method NewFixture() returns (service: TodoService, item1: TodoItem, item2: TodoItem)
    ensures fresh(service) && fresh(service.todoItems) && fresh(item1) && fresh(item2)
    ensures service.todoItems.elems == [item1, item2] && item1 != item2
    ensures item1.Value() == Record(1, "Initial Item 1", false)
    ensures item2.Value() == Record(2, "Initial Item 2", true)
  {
    var todoItems := new TodoList.Seeded();
    service, item1, item2 := TestInitialize(todoItems, 1, 2);
  }

  method GetAllTodoItemsReturnsAllItems() returns (items: TodoList)
    ensures |items.elems| == 2
    ensures items.elems[0].title == "Initial Item 1" && items.elems[1].title == "Initial Item 2"
  {
    var service, item1, item2 := NewFixture();
    items := service.GetAllTodoItems();
  }

  method GetTodoItemWithValidIdReturnsCorrectItem() returns (item: TodoItem?)
    ensures item != null && item.title == "Initial Item 1" && item.id == 1
  {
    var service, item1, item2 := NewFixture();
    item := service.GetTodoItem(1);
    assert service.todoItems.elems[0] == item1;
    FirstWithIdUnique(service.todoItems.elems, 1, item, item1);
  }

  method GetTodoItemWithInvalidIdReturnsNull() returns (item: TodoItem?)
    ensures item == null
  {
    var service, item1, item2 := NewFixture();
    item := service.GetTodoItem(999);
    FirstWithIdUnique(service.todoItems.elems, 999, item, null);
  }

  /** The added record is in the store and is the one `Find` returns for
      its title: the first element titled "Buy groceries". It has id 3 and
      is not completed; the id the caller left unset (zero) is overwritten. */
  method AddTodoItemAddsNewItemAndAssignsId() returns (items: TodoList, added: TodoItem)
    ensures added in items.elems
    ensures exists k :: 0 <= k < |items.elems| && items.elems[k] == added &&
              (forall j :: 0 <= j < k ==> items.elems[j].title != "Buy groceries")
    ensures added.Value() == Record(3, "Buy groceries", false)
  {
    var service, item1, item2 := NewFixture();
    var newItem := new TodoItem(0, "Buy groceries", false);
    service.AddTodoItem(newItem);
    items := service.GetAllTodoItems();
    assert items.elems == [item1, item2, newItem];
    added := newItem;
    assert items.elems[2] == added;
  }

  method UpdateTodoItemWithValidIdUpdatesItem() returns (retrieved: TodoItem?)
    ensures retrieved != null && retrieved.title == "Updated Item" && retrieved.isCompleted
  {
    var service, item1, item2 := NewFixture();
    var updatedItem := new TodoItem(1, "Updated Item", true);
    service.UpdateTodoItem(updatedItem);
    retrieved := service.GetTodoItem(1);
    FirstWithIdUnique(service.todoItems.elems, 1, retrieved, item1);
  }

  /** Updating an id that no record has changes neither the count nor any
      record. The list captured "before" the update is the live list, the
      same object as the one obtained after, so the test's two counts are
      read from one list and always agree; the count taken before the update
      is a separate fact. */
  method UpdateTodoItemWithInvalidIdDoesNotUpdateAnything()
    returns (initialItems: TodoList, finalItems: TodoList,
             countBefore: nat, initialCount: nat, finalCount: nat, original: TodoItem?)
    ensures initialItems == finalItems
    ensures initialCount == finalCount == countBefore == 2
    ensures original != null && original.Value() == Record(1, "Initial Item 1", false)
  {
    var service, item1, item2 := NewFixture();
    var updatedItem := new TodoItem(999, "Nonexistent", true);
    initialItems := service.GetAllTodoItems();
    countBefore := |initialItems.elems|;
    service.UpdateTodoItem(updatedItem);
    finalItems := service.GetAllTodoItems();
    initialCount := |initialItems.elems|;
    finalCount := |finalItems.elems|;
    original := service.GetTodoItem(1);
    FirstWithIdUnique(service.todoItems.elems, 1, original, item1);
  }

  method DeleteTodoItemWithValidIdDeletesItem() returns (deleted: TodoItem?, items: TodoList)
    ensures deleted == null
    ensures |items.elems| == 1 && items.elems[0].title == "Initial Item 2"
  {
    var service, item1, item2 := NewFixture();
    service.DeleteTodoItem(1);
    assert service.todoItems.elems == [item2];
    deleted := service.GetTodoItem(1);
    FirstWithIdUnique(service.todoItems.elems, 1, deleted, null);
    items := service.GetAllTodoItems();
  }

  /** Deleting an id that no record has is a silent no-op. */
  method DeleteTodoItemWithInvalidIdDoesNotThrowException() returns (items: seq<Record>)
    ensures items == [Record(1, "Initial Item 1", false), Record(2, "Initial Item 2", true)]
  {
    var service, item1, item2 := NewFixture();
    service.DeleteTodoItem(999);
    items := Values(service.todoItems.elems);
  }

  /** Count-based ids collide: on the seeded list, deleting id 1 and then
      adding gives the new record id 2, the id of the record that remains. */
  method DeleteThenAddDuplicatesAnId() returns (remaining: TodoItem, added: TodoItem, all: seq<TodoItem>)
    ensures all == [remaining, added] && remaining != added
    ensures remaining.id == 2 && added.id == 2
    ensures !DistinctIds(all)
  {
    var todoItems := new TodoList.Seeded();
    assert DistinctIds(todoItems.elems);
    var demo := new DeprecatedDependencyInjectionDemo();
    var service := new TodoService(demo, todoItems);
    remaining := todoItems.elems[1];
    service.DeleteTodoItem(1);
    assert todoItems.elems == [remaining];
    added := new TodoItem(0, "Z", false);
    service.AddTodoItem(added);
    all := todoItems.elems;
    assert all[0].id == all[1].id;
  }

  /** `GetAllTodoItems` returns the live list: a record added afterwards is
      seen through the list obtained before. */
  method GetAllTodoItemsIsLive() returns (earlier: TodoList, added: TodoItem)
    ensures |earlier.elems| == 3 && earlier.elems[2] == added && added.id == 3
  {
    var service, item1, item2 := NewFixture();
    earlier := service.GetAllTodoItems();
    added := new TodoItem(0, "X", false);
    service.AddTodoItem(added);
  }

  /** The store keeps the caller's object: adding the same object twice puts
      it in the list twice, and the second add rewrites the id seen at both
      positions. */
  method AddingOneObjectTwiceSharesIt() returns (all: seq<TodoItem>)
    ensures |all| == 4 && all[2] == all[3]
    ensures all[0].id == 1 && all[1].id == 2 && all[2].id == 4 && all[3].id == 4
  {
    var todoItems := new TodoList.Seeded();
    var demo := new DeprecatedDependencyInjectionDemo();
    var service := new TodoService(demo, todoItems);
    var item := new TodoItem(0, "X", false);
    service.AddTodoItem(item);
    service.AddTodoItem(item);
    all := todoItems.elems;
  }
}
