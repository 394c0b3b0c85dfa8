/** The modern copy of the service: `TodoService` with an injected
    dependency. The static `_todoItems` list of the source is one `TodoList`
    object that every service instance is handed when it is built. */
module TodoCore {
  import opened TodoItems
  import opened TodoLists
  import TodoContract

  /** The injected collaborator. Its members only write to the console, so
      it is kept as an opaque object. */
  class DeprecatedDependencyInjectionDemo {
    constructor () {}
  }

  /** The one exception the core throws. */
  datatype Error = ArgumentNull(paramName: string)

  datatype Result<T> = Success(value: T) | Failure(error: Error)

  class TodoService {
    const demo: DeprecatedDependencyInjectionDemo
    /** The shared static list. */
    const todoItems: TodoList

    constructor (demo: DeprecatedDependencyInjectionDemo, todoItems: TodoList)
      ensures this.demo == demo && this.todoItems == todoItems
    {
      this.demo := demo;
      this.todoItems := todoItems;
    }

    /** The first record with that id, or null; nothing changes. */
    method GetTodoItem(id: int) returns (r: TodoItem?)
      ensures IsFirstWithId(todoItems.elems, id, r)
    {
      r := FirstWithId(todoItems.elems, id);
    }

    /** The live backing list, not a copy. */
    method GetAllTodoItems() returns (items: TodoList)
      ensures items == todoItems
    {
      items := todoItems;
    }

    method AddTodoItem(item: TodoItem)
      modifies todoItems, item
      ensures TodoContract.Added(todoItems, item)
    {
      item.id := |todoItems.elems| + 1;
      todoItems.Add(item);
    }

    method UpdateTodoItem(item: TodoItem)
      modifies FirstWithIdFrame(todoItems.elems, item.id)
      ensures TodoContract.Updated(todoItems, item)
    {
      var existingItem := FirstWithId(todoItems.elems, item.id);
      if existingItem != null {
        existingItem.title := item.title;
        existingItem.isCompleted := item.isCompleted;
      }
    }

    method DeleteTodoItem(id: int)
      modifies todoItems
      ensures TodoContract.Deleted(todoItems, id)
    {
      todoItems.RemoveAllWithId(id);
    }
  }

  /** The constructor's null guard: building a service fails with an
      argument error exactly when the dependency is absent. */
  method NewTodoService(demo: DeprecatedDependencyInjectionDemo?, todoItems: TodoList)
    returns (r: Result<TodoService>)
    ensures r.Failure? <==> demo == null
    ensures r.Failure? ==> r.error == ArgumentNull("demo")
    ensures r.Success? ==> fresh(r.value) && r.value.demo == demo && r.value.todoItems == todoItems
  {
    if demo == null {
      r := Failure(ArgumentNull("demo"));
    } else {
      var service := new TodoService(demo, todoItems);
      r := Success(service);
    }
  }
}
