/** Both copies of the service, driven through any sequence of calls from
    their own seeded static list, hold exactly the records the reference
    model computes. So the two copies have the same effect on the store.
    Every add and update passes a new object, so no object ever sits in the
    list twice; that is what lets the value model describe the list. */
module TodoReplay {
  import opened TodoItems
  import opened TodoLists
  import opened TodoRecords
  import TodoCore
  import TodoLegacy

  /** An add on the modern copy, with a new object. */
  method AddCore(service: TodoCore.TodoService, suppliedId: int, title: string, isCompleted: bool)
    returns (item: TodoItem)
    requires NoSharing(service.todoItems.elems)
    modifies service.todoItems
    ensures fresh(item) && service.todoItems.elems == old(service.todoItems.elems) + [item]
    ensures NoSharing(service.todoItems.elems)
    ensures Values(service.todoItems.elems) == AddRecord(old(Values(service.todoItems.elems)), title, isCompleted)
  {
    ghost var before := service.todoItems.elems;
    ghost var recs := Values(before);
    item := new TodoItem(suppliedId, title, isCompleted);
    service.AddTodoItem(item);
    assert service.todoItems.elems == before + [item];
    forall k | 0 <= k < |before| ensures service.todoItems.elems[k].Value() == recs[k] {
      assert service.todoItems.elems[k] == before[k] && before[k] != item;
    }
  }

  /** An update on the modern copy, with a new object carrying the target id. */
  method UpdateCore(service: TodoCore.TodoService, id: int, title: string, isCompleted: bool)
    requires NoSharing(service.todoItems.elems)
    modifies service.todoItems.elems
    ensures service.todoItems.elems == old(service.todoItems.elems)
    ensures Values(service.todoItems.elems) == UpdateRecord(old(Values(service.todoItems.elems)), id, title, isCompleted)
  {
    var item := new TodoItem(id, title, isCompleted);
    FirstWithIdMatchesIndex(service.todoItems.elems, id);
    service.UpdateTodoItem(item);
  }

  /** A delete on the modern copy. */
  method DeleteCore(service: TodoCore.TodoService, id: int)
    requires NoSharing(service.todoItems.elems)
    modifies service.todoItems
    ensures NoSharing(service.todoItems.elems)
    ensures Values(service.todoItems.elems) == DeleteRecords(old(Values(service.todoItems.elems)), id)
    ensures forall k :: 0 <= k < |service.todoItems.elems| ==> service.todoItems.elems[k] in old(service.todoItems.elems)
  {
    WithoutIdMatchesDelete(service.todoItems.elems, id);
    WithoutIdKeepsNoSharing(service.todoItems.elems, id);
    service.DeleteTodoItem(id);
  }

  /** One call on the modern copy; a clear goes through the list that
      `GetAllTodoItems` returns. */
  method StepCore(service: TodoCore.TodoService, op: Op)
    requires NoSharing(service.todoItems.elems)
    modifies service.todoItems, service.todoItems.elems
    ensures NoSharing(service.todoItems.elems)
    ensures Values(service.todoItems.elems) == Apply(old(Values(service.todoItems.elems)), op)
    ensures forall k :: 0 <= k < |service.todoItems.elems| ==> service.todoItems.elems[k] in old(service.todoItems.elems) || fresh(service.todoItems.elems[k])
  {
    match op
    case AddOp(suppliedId, title, isCompleted) =>
      var item := AddCore(service, suppliedId, title, isCompleted);
    case UpdateOp(id, title, isCompleted) => UpdateCore(service, id, title, isCompleted);
    case DeleteOp(id) => DeleteCore(service, id);
    case ClearOp =>
      var all := service.GetAllTodoItems();
      all.Clear();
  }

  /** The modern copy, driven through `ops` from its own seeded static list,
      ends with the records the reference model computes. */
  method ReplayCore(ops: seq<Op>) returns (records: seq<Record>)
    ensures records == ApplyAll(SeedRecords(), ops)
  {
    var todoItems := new TodoList.Seeded();
    var demo := new TodoCore.DeprecatedDependencyInjectionDemo();
    var service := new TodoCore.TodoService(demo, todoItems);
    var i := 0;
    while i < |ops|
      invariant 0 <= i <= |ops|
      invariant fresh(todoItems) && service.todoItems == todoItems
      invariant forall k :: 0 <= k < |todoItems.elems| ==> fresh(todoItems.elems[k])
      invariant NoSharing(todoItems.elems)
      invariant Values(todoItems.elems) == ApplyAll(SeedRecords(), ops[..i])
    {
      assert ops[..i + 1][..i] == ops[..i];
      StepCore(service, ops[i]);
      i := i + 1;
    }
    assert ops[..|ops|] == ops;
    records := Values(todoItems.elems);
  }

  /** An add on the legacy copy, with a new object. */
  method AddLegacy(service: TodoLegacy.TodoService, suppliedId: int, title: string, isCompleted: bool)
    returns (item: TodoItem)
    requires NoSharing(service.todoItems.elems)
    modifies service.todoItems
    ensures fresh(item) && service.todoItems.elems == old(service.todoItems.elems) + [item]
    ensures NoSharing(service.todoItems.elems)
    ensures Values(service.todoItems.elems) == AddRecord(old(Values(service.todoItems.elems)), title, isCompleted)
  {
    ghost var before := service.todoItems.elems;
    ghost var recs := Values(before);
    item := new TodoItem(suppliedId, title, isCompleted);
    service.AddTodoItem(item);
    assert service.todoItems.elems == before + [item];
    forall k | 0 <= k < |before| ensures service.todoItems.elems[k].Value() == recs[k] {
      assert service.todoItems.elems[k] == before[k] && before[k] != item;
    }
  }

  /** An update on the legacy copy, with a new object carrying the target id. */
  method UpdateLegacy(service: TodoLegacy.TodoService, id: int, title: string, isCompleted: bool)
    requires NoSharing(service.todoItems.elems)
    modifies service.todoItems.elems
    ensures service.todoItems.elems == old(service.todoItems.elems)
    ensures Values(service.todoItems.elems) == UpdateRecord(old(Values(service.todoItems.elems)), id, title, isCompleted)
  {
    var item := new TodoItem(id, title, isCompleted);
    FirstWithIdMatchesIndex(service.todoItems.elems, id);
    service.UpdateTodoItem(item);
  }

  /** A delete on the legacy copy. */
  method DeleteLegacy(service: TodoLegacy.TodoService, id: int)
    requires NoSharing(service.todoItems.elems)
    modifies service.todoItems
    ensures NoSharing(service.todoItems.elems)
    ensures Values(service.todoItems.elems) == DeleteRecords(old(Values(service.todoItems.elems)), id)
    ensures forall k :: 0 <= k < |service.todoItems.elems| ==> service.todoItems.elems[k] in old(service.todoItems.elems)
  {
    WithoutIdMatchesDelete(service.todoItems.elems, id);
    WithoutIdKeepsNoSharing(service.todoItems.elems, id);
    service.DeleteTodoItem(id);
  }

  /** One call on the legacy copy; a clear goes through the list that
      `GetAllTodoItems` returns. */
  method StepLegacy(service: TodoLegacy.TodoService, op: Op)
    requires NoSharing(service.todoItems.elems)
    modifies service.todoItems, service.todoItems.elems
    ensures NoSharing(service.todoItems.elems)
    ensures Values(service.todoItems.elems) == Apply(old(Values(service.todoItems.elems)), op)
    ensures forall k :: 0 <= k < |service.todoItems.elems| ==> service.todoItems.elems[k] in old(service.todoItems.elems) || fresh(service.todoItems.elems[k])
  {
    match op
    case AddOp(suppliedId, title, isCompleted) =>
      var item := AddLegacy(service, suppliedId, title, isCompleted);
    case UpdateOp(id, title, isCompleted) => UpdateLegacy(service, id, title, isCompleted);
    case DeleteOp(id) => DeleteLegacy(service, id);
    case ClearOp =>
      var all := service.GetAllTodoItems();
      all.Clear();
  }

  /** The legacy copy, driven through `ops` from its own seeded static list,
      ends with the records the reference model computes. */
  method ReplayLegacy(ops: seq<Op>) returns (records: seq<Record>)
    ensures records == ApplyAll(SeedRecords(), ops)
  {
    var todoItems := new TodoList.Seeded();
    var service := new TodoLegacy.TodoService(todoItems);
    var i := 0;
    while i < |ops|
      invariant 0 <= i <= |ops|
      invariant fresh(todoItems) && service.todoItems == todoItems
      invariant forall k :: 0 <= k < |todoItems.elems| ==> fresh(todoItems.elems[k])
      invariant NoSharing(todoItems.elems)
      invariant Values(todoItems.elems) == ApplyAll(SeedRecords(), ops[..i])
    {
      assert ops[..i + 1][..i] == ops[..i];
      StepLegacy(service, ops[i]);
      i := i + 1;
    }
    assert ops[..|ops|] == ops;
    records := Values(todoItems.elems);
  }
}
