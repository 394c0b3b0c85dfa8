/** A reference model of the store on values: the records the list holds,
    and what each operation of the service makes of them. It knows nothing
    of objects, so it cannot express sharing; it is what the object model is
    proved to agree with while no object sits in the list twice. */
module TodoRecords {
  import opened TodoItems
  import opened TodoLists

  /** The records of the static list before any call. */
  function SeedRecords(): (rs: seq<Record>) {
    [Record(1, "Learn WCF", true), Record(2, "Build Todo App", false)]
  }

  /** The position of the first record with that id, or -1. */
  function IndexOfId(rs: seq<Record>, id: int): (k: int)
    ensures -1 <= k < |rs|
    ensures k >= 0 ==> rs[k].id == id && forall j :: 0 <= j < k ==> rs[j].id != id
    ensures k < 0 ==> forall j :: 0 <= j < |rs| ==> rs[j].id != id
  {
    if rs == [] then -1
    else if rs[0].id == id then 0
    else
      var k := IndexOfId(rs[1..], id);
      if k < 0 then -1 else k + 1
  }

  function AddRecord(rs: seq<Record>, title: string, isCompleted: bool): (r: seq<Record>) {
    rs + [Record(|rs| + 1, title, isCompleted)]
  }

  function UpdateRecord(rs: seq<Record>, id: int, title: string, isCompleted: bool): (r: seq<Record>) {
    var k := IndexOfId(rs, id);
    if k < 0 then rs else rs[k := Record(rs[k].id, title, isCompleted)]
  }

  function DeleteRecords(rs: seq<Record>, id: int): (r: seq<Record>) {
    if rs == [] then []
    else if rs[0].id == id then DeleteRecords(rs[1..], id)
    else [rs[0]] + DeleteRecords(rs[1..], id)
  }

  /** A call a client can make that changes the store: the four mutating
      operations, with `Clear` being the one a caller applies to the list
      that `GetAllTodoItems` hands out. */
  datatype Op =
    | AddOp(suppliedId: int, title: string, isCompleted: bool)
    | UpdateOp(id: int, title: string, isCompleted: bool)
    | DeleteOp(id: int)
    | ClearOp

  function Apply(rs: seq<Record>, op: Op): (r: seq<Record>) {
    match op
    case AddOp(_, title, isCompleted) => AddRecord(rs, title, isCompleted)
    case UpdateOp(id, title, isCompleted) => UpdateRecord(rs, id, title, isCompleted)
    case DeleteOp(id) => DeleteRecords(rs, id)
    case ClearOp => []
  }

  /** The records after `ops`, applied in order to `rs`. */
  function ApplyAll(rs: seq<Record>, ops: seq<Op>): (r: seq<Record>)
    decreases |ops|
  {
    if ops == [] then rs else Apply(ApplyAll(rs, ops[..|ops| - 1]), ops[|ops| - 1])
  }

  /** Deleting by id removes every record with that id, keeps the others in
      order and, on a miss, changes nothing. */
  lemma {:induction false} DeleteRecordsSpec(rs: seq<Record>, id: int)
    ensures forall r :: r in DeleteRecords(rs, id) <==> r in rs && r.id != id
    ensures (forall k :: 0 <= k < |rs| ==> rs[k].id != id) ==> DeleteRecords(rs, id) == rs
  {
    if rs != [] {
      DeleteRecordsSpec(rs[1..], id);
      assert rs == [rs[0]] + rs[1..];
    }
  }

  /** Assigned ids are "count plus one", so they can repeat: on the seeded
      store, deleting id 1 and adding leaves two records with id 2. */
  lemma DeleteThenAddRepeatsAnId(title: string, isCompleted: bool)
    ensures var rs := AddRecord(DeleteRecords(SeedRecords(), 1), title, isCompleted);
      |rs| == 2 && rs[0].id == rs[1].id == 2
  {
  }

  predicate FirstWithIdAtIndex(s: seq<TodoItem>, id: int)
    reads s
  {
    var k := IndexOfId(Values(s), id);
    if k < 0 then FirstWithId(s, id) == null else FirstWithId(s, id) == s[k]
  }

  /** The object search and the value search agree: `FirstOrDefault` finds
      the object at the position `IndexOfId` gives for the records. */
  lemma {:induction false} FirstWithIdMatchesIndex(s: seq<TodoItem>, id: int)
    ensures FirstWithIdAtIndex(s, id)
  {
  }

  /** Removing objects by id and deleting records by id agree. */
  lemma {:induction false} WithoutIdMatchesDelete(s: seq<TodoItem>, id: int)
    ensures Values(WithoutId(s, id)) == DeleteRecords(Values(s), id)
  {
    if s != [] {
      WithoutIdMatchesDelete(s[1..], id);
      assert Values(s)[1..] == Values(s[1..]);
      if s[0].id != id {
        assert Values([s[0]] + WithoutId(s[1..], id)) == [s[0].Value()] + Values(WithoutId(s[1..], id));
      }
    }
  }

  /** No object sits at two positions. */
  predicate NoSharing(s: seq<TodoItem>) {
    forall i, j :: 0 <= i < j < |s| ==> s[i] != s[j]
  }

  lemma {:induction false} WithoutIdKeepsNoSharing(s: seq<TodoItem>, id: int)
    requires NoSharing(s)
    ensures NoSharing(WithoutId(s, id))
  {
    if s != [] {
      assert NoSharing(s[1..]);
      WithoutIdKeepsNoSharing(s[1..], id);
      var rest := WithoutId(s[1..], id);
      if s[0].id != id {
        assert s[0] !in rest;
        var r := [s[0]] + rest;
        forall i, j | 0 <= i < j < |r| ensures r[i] != r[j] {
          if i == 0 { assert r[j] == rest[j - 1]; }
          else { assert r[i] == rest[i - 1] && r[j] == rest[j - 1]; }
        }
      }
    }
  }
}
