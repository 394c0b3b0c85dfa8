/** The operation set of `ITodoService`, stated once as the effect each
    mutating operation has on the backing list and on the records. Both
    copies of the service are proved to have exactly these effects. The
    read operations are specified by `TodoLists.IsFirstWithId` and by
    returning the backing list itself. */
module TodoContract {
  import opened TodoItems
  import opened TodoLists

  /** Every record in `s` other than `except` holds what it held before. */
  twostate predicate OthersUnchanged(s: seq<TodoItem>, except: TodoItem?)
    reads s
  {
    forall k :: 0 <= k < |s| && s[k] != except ==> s[k].Value() == old(s[k].Value())
  }

  /** `AddTodoItem(item)`: the caller's own object is given the id
      "count before insertion plus one" and is appended; its title and flag,
      and every other record, are as they were. */
  twostate predicate Added(list: TodoList, item: TodoItem)
    reads list, list.elems, item
  {
    && list.elems == old(list.elems) + [item]
    && item.Value() == Record(|old(list.elems)| + 1, old(item.title), old(item.isCompleted))
    && OthersUnchanged(list.elems, item)
  }

  /** `UpdateTodoItem(item)`: the first record whose id is `item.id` takes
      `item`'s title and flag and keeps its id; the list and every other
      record are as they were. With no such record nothing changes. */
  twostate predicate Updated(list: TodoList, item: TodoItem)
    reads list, list.elems
  {
    && list.elems == old(list.elems)
    && var target := old(FirstWithId(list.elems, item.id));
       && (target != null ==>
             target.Value() == Record(old(target.id), old(item.title), old(item.isCompleted)))
       && OthersUnchanged(list.elems, target)
  }

  /** `DeleteTodoItem(id)`: every record with that id leaves the list, the
      rest stay in order, and no record changes. */
  twostate predicate Deleted(list: TodoList, id: int)
    reads list, list.elems
  {
    && list.elems == old(WithoutId(list.elems, id))
    && OthersUnchanged(list.elems, null)
  }
}
