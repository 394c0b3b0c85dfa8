/** The backing collection of the service: a `List<TodoItem>` of shared
    objects, and the two queries the service runs over it (`FirstOrDefault`
    and `RemoveAll`, both with the predicate "`Id` equals a given id"). */
module TodoLists {
  import opened TodoItems

  /** `r` is what `FirstOrDefault(item => item.Id == id)` yields on `s`:
      the element at the first position whose id is `id`, or null when no
      position has that id. */
  ghost predicate IsFirstWithId(s: seq<TodoItem>, id: int, r: TodoItem?)
    reads s
  {
    if r == null then
      forall k :: 0 <= k < |s| ==> s[k].id != id
    else
      exists k :: 0 <= k < |s| && s[k] == r && r.id == id &&
        forall j :: 0 <= j < k ==> s[j].id != id
  }

  /** `FirstOrDefault(item => item.Id == id)`. */
  function FirstWithId(s: seq<TodoItem>, id: int): (r: TodoItem?)
    reads s
    ensures IsFirstWithId(s, id, r)
  {
    if s == [] then null
    else if s[0].id == id then s[0]
    else
      var r := FirstWithId(s[1..], id);
      FirstWithIdPastHead(s, id, r);
      r
  }

  /** A first match in the tail of a list whose head does not match is the
      first match of the whole list. */
  lemma FirstWithIdPastHead(s: seq<TodoItem>, id: int, r: TodoItem?)
    requires s != [] && s[0].id != id && IsFirstWithId(s[1..], id, r)
    ensures IsFirstWithId(s, id, r)
  {
  }

  /** The objects an update of the first match may write: that match, if any. */
  function FirstWithIdFrame(s: seq<TodoItem>, id: int): (frame: set<object>)
    reads s
  {
    var r := FirstWithId(s, id);
    if r == null then {} else {r}
  }

  /** At most one object can be the first match: the search is deterministic. */
  lemma FirstWithIdUnique(s: seq<TodoItem>, id: int, r1: TodoItem?, r2: TodoItem?)
    requires IsFirstWithId(s, id, r1) && IsFirstWithId(s, id, r2)
    ensures r1 == r2
  {
  }

  /** `RemoveAll(item => item.Id == id)`: the elements whose id is not `id`,
      in their original order. */
  function WithoutId(s: seq<TodoItem>, id: int): (r: seq<TodoItem>)
    reads s
    ensures forall k :: 0 <= k < |r| ==> r[k] in s && r[k].id != id
    ensures forall k :: 0 <= k < |s| && s[k].id != id ==> s[k] in r
    ensures |r| <= |s|
    ensures (forall k :: 0 <= k < |s| ==> s[k].id != id) ==> r == s
  {
    if s == [] then []
    else if s[0].id == id then WithoutId(s[1..], id)
    else
      assert forall k :: 0 <= k < |s[1..]| ==> s[1..][k] == s[k + 1];
      [s[0]] + WithoutId(s[1..], id)
  }

  /** Removal works element by element: it keeps the relative order of what
      survives, whatever the split of the list. */
  lemma {:induction false} WithoutIdAppend(a: seq<TodoItem>, b: seq<TodoItem>, id: int)
    ensures WithoutId(a + b, id) == WithoutId(a, id) + WithoutId(b, id)
  {
    if a == [] {
      assert a + b == b;
    } else {
      assert (a + b)[0] == a[0];
      assert (a + b)[1..] == a[1..] + b;
      WithoutIdAppend(a[1..], b, id);
    }
  }

  /** The `List<TodoItem>` object itself. `GetAllTodoItems` hands this
      object out, so what a caller does to it is done to the store. */
  class TodoList {
    var elems: seq<TodoItem>

    /** The collection initializer of the static `_todoItems` field. */
    constructor Seeded()
      ensures Values(elems) == [Record(1, "Learn WCF", true), Record(2, "Build Todo App", false)]
      ensures |elems| == 2 && elems[0] != elems[1] && fresh(elems[0]) && fresh(elems[1])
    {
      var learn := new TodoItem(1, "Learn WCF", true);
      var build := new TodoItem(2, "Build Todo App", false);
      elems := [learn, build];
    }

    /** `List.Add`: appends the caller's own object. */
    method Add(item: TodoItem)
      modifies this
      ensures elems == old(elems) + [item]
    {
      elems := elems + [item];
    }

    /** `List.Clear`. */
    method Clear()
      modifies this
      ensures elems == []
    {
      elems := [];
    }

    /** `List.RemoveAll(item => item.Id == id)`. */
    method RemoveAllWithId(id: int)
      modifies this
      ensures elems == WithoutId(old(elems), id)
    {
      elems := WithoutId(elems, id);
    }
  }
}
