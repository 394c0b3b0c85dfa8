/** The data contract shared by every copy of the service: a Todo record.
    In the service a record is a mutable reference object; callers and the
    store share the same objects, so the model keeps it as a class. */
module TodoItems {

  /** The value a record holds at one moment (its wire shape). */
  datatype Record = Record(id: int, title: string, isCompleted: bool)

  class TodoItem {
    var id: int
    var title: string
    var isCompleted: bool

    /** An object initializer `new TodoItem { Id = .., Title = .., IsCompleted = .. }`. */
    constructor (id: int, title: string, isCompleted: bool)
      ensures Value() == Record(id, title, isCompleted)
    {
      this.id := id;
      this.title := title;
      this.isCompleted := isCompleted;
    }

    /** The record this object holds now. */
    function Value(): (r: Record)
      reads this
    {
      Record(id, title, isCompleted)
    }
  }

  /** The records a sequence of objects holds now, position by position. */
  function Values(s: seq<TodoItem>): (r: seq<Record>)
    reads s
    ensures |r| == |s| && forall k :: 0 <= k < |s| ==> r[k] == s[k].Value()
  {
    if s == [] then [] else [s[0].Value()] + Values(s[1..])
  }

  /** No two positions carry the same id. The store does NOT keep this. */
  predicate DistinctIds(s: seq<TodoItem>)
    reads s
  {
    forall i, j :: 0 <= i < j < |s| ==> s[i].id != s[j].id
  }
}
