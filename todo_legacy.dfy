/** The legacy copy of the service, `TodoServiceLibrary.TodoService`: the
    same static list and the same five operation bodies, and no explicit
    constructor. Its methods are proved to have the same effects as the
    modern copy's, stated once in `TodoContract`. */
module TodoLegacy {
  import opened TodoItems
  import opened TodoLists
  import TodoContract

  class TodoService {
    /** The shared static list. */
    const todoItems: TodoList

    /** The implicit default constructor; the static list it sees is passed in. */
    constructor (todoItems: TodoList)
      ensures this.todoItems == todoItems
    {
      this.todoItems := todoItems;
    }

    /** The first record with that id, or null; nothing changes. */
    method GetTodoItem(id: int) returns (r: TodoItem?)
      ensures IsFirstWithId(todoItems.elems, id, r)
    {
      r := FirstWithId(todoItems.elems, id);
    }

    /** The live backing list, not a copy. */
    method GetAllTodoItems() returns (items: TodoList)
      ensures items == todoItems
    {
      items := todoItems;
    }

    method AddTodoItem(item: TodoItem)
      modifies todoItems, item
      ensures TodoContract.Added(todoItems, item)
    {
      item.id := |todoItems.elems| + 1;
      todoItems.Add(item);
    }

    method UpdateTodoItem(item: TodoItem)
      modifies FirstWithIdFrame(todoItems.elems, item.id)
      ensures TodoContract.Updated(todoItems, item)
    {
      var existingItem := FirstWithId(todoItems.elems, item.id);
      if existingItem != null {
        existingItem.title := item.title;
        existingItem.isCompleted := item.isCompleted;
      }
    }

    method DeleteTodoItem(id: int)
      modifies todoItems
      ensures TodoContract.Deleted(todoItems, id)
    {
      todoItems.RemoveAllWithId(id);
    }
  }
}
