/** The todo store of cd/main.py: a `Database` object holding an ordered
    list of tasks and the counter that numbers them, plus the guard of the
    `PATCH /tasks` handler that runs before the store is asked. */
module Tasks {
  import opened Outcomes
  import opened Text

  const TASK_NOT_FOUND := "Task not found"
  const FIELD_REQUIRED := "At least one field is required to update"

  /** The body of `POST /tasks`. */
  datatype TaskCreate = TaskCreate(title: string, description: string)

  /** A stored task. Timestamps are readings of an outside clock. */
  datatype Task = Task(
    id: int,
    title: string,
    description: string,
    createdAt: nat,
    updatedAt: nat,
    isCompleted: bool)

  /** The body of `PATCH /tasks`: which task, and the fields to change. */
  datatype TaskUpdate = TaskUpdate(id: int, title: Option<string>, description: Option<string>)

  /** Python truthiness of an optional string: `None` and `""` are false. */
  predicate Truthy(o: Option<string>): (b: bool)
    ensures o == None ==> !b
    ensures o == Some("") ==> !b
    ensures o.Some? && |o.value| > 0 ==> b
  {
    o.Some? && o.value != ""
  }

  /** Ids grow strictly along the list, the order `add` appends in. */
  ghost predicate IdsIncreasing(ts: seq<Task>)
  {
    forall i, j :: 0 <= i < j < |ts| ==> ts[i].id < ts[j].id
  }

  /** The position `get_by_id` stops at: the first task with that id. */
  function FindIndex(ts: seq<Task>, id: int): (r: Option<nat>)
    ensures r.Some? ==> r.value < |ts| && ts[r.value].id == id
    ensures r.Some? ==> forall j :: 0 <= j < r.value ==> ts[j].id != id
    ensures r.None? ==> forall j :: 0 <= j < |ts| ==> ts[j].id != id
  {
    if |ts| == 0 then None
    else if ts[0].id == id then Some(0)
    else match FindIndex(ts[1..], id)
      case None => None
      case Some(k) => Some(k + 1)
  }

  /** The position `list.remove(x)` deletes: the first element equal to
      `x`. */
  function FirstEqual(ts: seq<Task>, x: Task): (k: nat)
    requires x in ts
    ensures k < |ts| && ts[k] == x
    ensures forall j :: 0 <= j < k ==> ts[j] != x
  {
    if ts[0] == x then 0 else 1 + FirstEqual(ts[1..], x)
  }

  /** `list.remove(x)`: drops the first element equal to `x`. */
  function RemoveFirst(ts: seq<Task>, x: Task): (r: seq<Task>)
    requires x in ts
    ensures |r| == |ts| - 1
    ensures multiset(r) + multiset{x} == multiset(ts)
  {
    var k := FirstEqual(ts, x);
    assert ts == ts[..k] + [x] + ts[k + 1..];
    ts[..k] + ts[k + 1..]
  }

  /** The fields `update` writes: a truthy title or description replaces
      the stored one, a falsy one leaves it; the clock refreshes
      `updatedAt`; nothing else moves. */
  function Revised(t: Task, u: TaskUpdate, now: nat): (r: Task)
    ensures r.id == t.id && r.createdAt == t.createdAt && r.isCompleted == t.isCompleted
    ensures r.updatedAt == now
    ensures Truthy(u.title) ==> r.title == u.title.value
    ensures !Truthy(u.title) ==> r.title == t.title
    ensures Truthy(u.description) ==> r.description == u.description.value
    ensures !Truthy(u.description) ==> r.description == t.description
  {
    t.(title := if Truthy(u.title) then u.title.value else t.title,
       description := if Truthy(u.description) then u.description.value else t.description,
       updatedAt := now)
  }

  /** The fields `mark_complete` writes. */
  function Completed(t: Task, now: nat): (r: Task)
    ensures r.isCompleted && r.updatedAt == now
    ensures r.id == t.id && r.title == t.title && r.description == t.description
    ensures r.createdAt == t.createdAt
  {
    t.(isCompleted := true, updatedAt := now)
  }

  /** The search test on one task; `q` is already lower-cased. */
  predicate Matches(t: Task, q: string): (b: bool)
    ensures q == [] ==> b
    ensures b ==> |q| <= |t.title| || |q| <= |t.description|
  {
    Contains(Lower(t.title), q) || Contains(Lower(t.description), q)
  }

  /** The list comprehension of `search`: the matching tasks, in order. */
  function Select(ts: seq<Task>, q: string): (r: seq<Task>)
    ensures |r| <= |ts|
    ensures forall t :: t in r <==> t in ts && Matches(t, q)
  {
    if ts == [] then []
    else
      assert ts == [ts[0]] + ts[1..];
      (if Matches(ts[0], q) then [ts[0]] else []) + Select(ts[1..], q)
  }

  class Database {
    var tasks: seq<Task>
    var nextId: int
    /** Every id `add` has handed out so far. */
    ghost var issued: set<int>

    /** The store's invariant: the counter is positive, every id handed out
        lies below it, every stored id was handed out, and ids increase
        along the list (so they are pairwise distinct). */
    ghost predicate Valid()
      reads this
    {
      && 1 <= nextId
      && (forall x :: x in issued ==> 1 <= x < nextId)
      && (forall i :: 0 <= i < |tasks| ==> tasks[i].id in issued)
      && IdsIncreasing(tasks)
    }

    constructor ()
      ensures Valid()
      ensures tasks == [] && nextId == 1 && issued == {}
    {
      tasks := [];
      nextId := 1;
      issued := {};
    }

    /** Stores a new task under the next id, then advances the counter. */
    method Add(draft: TaskCreate, now: nat) returns (t: Task)
      requires Valid()
      modifies this
      ensures Valid()
      ensures t == Task(old(nextId), draft.title, draft.description, now, now, false)
      ensures tasks == old(tasks) + [t]
      ensures nextId == old(nextId) + 1
      ensures t.id !in old(issued) && issued == old(issued) + {t.id}
    {
      t := Task(nextId, draft.title, draft.description, now, now, false);
      tasks := tasks + [t];
      issued := issued + {nextId};
      nextId := nextId + 1;
    }

    /** The stored tasks, in insertion order. */
    method GetAll() returns (all: seq<Task>)
      ensures all == tasks
    {
      all := tasks;
    }

    /** The scan of `get_by_id`: walks the list and stops at the first
        task carrying `taskId`. */
    method Lookup(taskId: int) returns (found: Option<nat>)
      ensures found == FindIndex(tasks, taskId)
    {
      for i := 0 to |tasks|
        invariant forall j :: 0 <= j < i ==> tasks[j].id != taskId
      {
        if tasks[i].id == taskId {
          return Some(i);
        }
      }
      return None;
    }

    /** `get_by_id`: the task with that id, or 404 "Task not found". */
    method GetById(taskId: int) returns (r: Response<Task>)
      ensures r.Ok? <==> exists i :: 0 <= i < |tasks| && tasks[i].id == taskId
      ensures r.Ok? ==> r.value in tasks && r.value.id == taskId
      ensures r.Ok? ==> FindIndex(tasks, taskId).Some? && r.value == tasks[FindIndex(tasks, taskId).value]
      ensures !r.Ok? ==> r == NotFound(TASK_NOT_FOUND)
    {
      var found := Lookup(taskId);
      match found
      case Some(i) => r := Ok(tasks[i]);
      case None => r := NotFound(TASK_NOT_FOUND);
    }

    /** `update`: a partial update of the task named by `u.id`. */
    method Update(u: TaskUpdate, now: nat) returns (r: Response<Task>)
      requires Valid()
      modifies this
      ensures Valid() && nextId == old(nextId) && issued == old(issued)
      ensures match FindIndex(old(tasks), u.id)
        case None => r == NotFound(TASK_NOT_FOUND) && tasks == old(tasks)
        case Some(i) =>
          && tasks == old(tasks)[i := Revised(old(tasks)[i], u, now)]
          && r == Ok(tasks[i])
    {
      var found := Lookup(u.id);
      match found
      case None =>
        r := NotFound(TASK_NOT_FOUND);
      case Some(i) =>
        var t := Revised(tasks[i], u, now);
        tasks := tasks[i := t];
        r := Ok(t);
    }

    /** `delete`: finds the task, then `list.remove`s it. */
    method Delete(taskId: int) returns (r: Response<()>)
      requires Valid()
      modifies this
      ensures Valid() && nextId == old(nextId) && issued == old(issued)
      ensures match FindIndex(old(tasks), taskId)
        case None => r == NotFound(TASK_NOT_FOUND) && tasks == old(tasks)
        case Some(i) => r == Ok(()) && tasks == old(tasks)[..i] + old(tasks)[i + 1..]
    {
      var found := Lookup(taskId);
      match found
      case None =>
        r := NotFound(TASK_NOT_FOUND);
      case Some(i) =>
        RemoveFirstAtFound(tasks, taskId, i);
        RemoveAtKeepsIds(tasks, i);
        tasks := RemoveFirst(tasks, tasks[i]);
        r := Ok(());
    }

    /** `mark_complete`: sets the flag of the task with that id. */
    method MarkComplete(taskId: int, now: nat) returns (r: Response<Task>)
      requires Valid()
      modifies this
      ensures Valid() && nextId == old(nextId) && issued == old(issued)
      ensures match FindIndex(old(tasks), taskId)
        case None => r == NotFound(TASK_NOT_FOUND) && tasks == old(tasks)
        case Some(i) =>
          && tasks == old(tasks)[i := Completed(old(tasks)[i], now)]
          && r == Ok(tasks[i])
    {
      var found := Lookup(taskId);
      match found
      case None =>
        r := NotFound(TASK_NOT_FOUND);
      case Some(i) =>
        var t := Completed(tasks[i], now);
        tasks := tasks[i := t];
        r := Ok(t);
    }

    /** `search`: the tasks whose lower-cased title or description contains
        the lower-cased query, in store order. */
    function Search(query: string): (r: seq<Task>)
      reads this
      ensures forall t :: t in r <==> t in tasks && Matches(t, Lower(query))
    {
      Select(tasks, Lower(query))
    }
  }

  /** The `PATCH /tasks` handler: with neither a truthy title nor a truthy
      description it answers 422 before looking anything up; otherwise it
      is `Database.update`. */
  method UpdateTask(db: Database, u: TaskUpdate, now: nat) returns (r: Response<Task>)
    requires db.Valid()
    modifies db
    ensures db.Valid() && db.nextId == old(db.nextId) && db.issued == old(db.issued)
    ensures !Truthy(u.title) && !Truthy(u.description) ==>
      r == Unprocessable(FIELD_REQUIRED) && db.tasks == old(db.tasks)
    ensures Truthy(u.title) || Truthy(u.description) ==>
      match FindIndex(old(db.tasks), u.id)
        case None => r == NotFound(TASK_NOT_FOUND) && db.tasks == old(db.tasks)
        case Some(i) =>
          && db.tasks == old(db.tasks)[i := Revised(old(db.tasks)[i], u, now)]
          && r == Ok(db.tasks[i])
  {
    if !Truthy(u.title) && !Truthy(u.description) {
      return Unprocessable(FIELD_REQUIRED);
    }
    r := db.Update(u, now);
  }

  // ---------------------------------------------------------------------
  // Properties of the store's operations

  /** With ids increasing, at most one task carries a given id, so the
      task `get_by_id` returns is the only one with that id. */
  lemma IdsDistinct(ts: seq<Task>, i: int, j: int)
    requires IdsIncreasing(ts)
    requires 0 <= i < |ts| && 0 <= j < |ts| && ts[i].id == ts[j].id
    ensures i == j
  {
  }

  /** `list.remove(x)` removes position `i` when `x` is `ts[i]` and no
      earlier element equals it. */
  lemma RemoveFirstAt(ts: seq<Task>, i: nat)
    requires i < |ts|
    requires forall k :: 0 <= k < i ==> ts[k] != ts[i]
    ensures RemoveFirst(ts, ts[i]) == ts[..i] + ts[i + 1..]
  {
    assert FirstEqual(ts, ts[i]) == i;
  }

  /** Removing one position keeps ids increasing and keeps only tasks
      that were stored before. */
  lemma RemoveAtKeepsIds(ts: seq<Task>, i: nat)
    requires IdsIncreasing(ts) && i < |ts|
    ensures IdsIncreasing(ts[..i] + ts[i + 1..])
    ensures forall t :: t in ts[..i] + ts[i + 1..] ==> t in ts
  {
    var rest := ts[..i] + ts[i + 1..];
    assert forall k :: 0 <= k < |rest| ==> rest[k] == if k < i then ts[k] else ts[k + 1];
  }

  /** `list.remove(task)` with the task `get_by_id` found removes exactly
      that position: any earlier equal element would have carried the same
      id, and the scan would have stopped there. */
  lemma RemoveFirstAtFound(ts: seq<Task>, id: int, i: nat)
    requires FindIndex(ts, id) == Some(i)
    ensures ts[i] in ts
    ensures RemoveFirst(ts, ts[i]) == ts[..i] + ts[i + 1..]
  {
    forall k | 0 <= k < i
      ensures ts[k] != ts[i]
    {
      assert ts[k].id != id;
    }
    RemoveFirstAt(ts, i);
  }

  /** An operation that keeps every id in place keeps every lookup: after
      `update` or `mark_complete` the same id is found at the same place. */
  lemma {:induction false} FindIndexSameIds(ts: seq<Task>, us: seq<Task>, id: int)
    requires |ts| == |us|
    requires forall k :: 0 <= k < |ts| ==> ts[k].id == us[k].id
    ensures FindIndex(us, id) == FindIndex(ts, id)
  {
    if |ts| > 0 && ts[0].id != id {
      FindIndexSameIds(ts[1..], us[1..], id);
    }
  }

  /** A task appended with an id above all stored ones is found at the end:
      `get_by_id` right after `add` returns the added task. */
  lemma FindIndexAfterAdd(ts: seq<Task>, t: Task)
    requires forall k :: 0 <= k < |ts| ==> ts[k].id < t.id
    ensures FindIndex(ts + [t], t.id) == Some(|ts|)
  {
    forall k | 0 <= k < |ts|
      ensures (ts + [t])[k].id != t.id
    {
      assert (ts + [t])[k] == ts[k];
    }
    assert (ts + [t])[|ts|].id == t.id;
  }

  /** After `delete` removes the task found for `id`, no task carries
      `id`: a later `get_by_id` answers 404. */
  lemma FindIndexAfterDelete(ts: seq<Task>, id: int, i: nat)
    requires IdsIncreasing(ts)
    requires FindIndex(ts, id) == Some(i)
    ensures FindIndex(ts[..i] + ts[i + 1..], id).None?
  {
    var rest := ts[..i] + ts[i + 1..];
    forall k | 0 <= k < |rest|
      ensures rest[k].id != id
    {
      if k < i {
        assert rest[k] == ts[k];
      } else {
        assert rest[k] == ts[k + 1];
      }
    }
  }

  /** `mark_complete` is idempotent: once a task is complete, a second call
      finds it again and leaves it complete with the same fields. */
  lemma MarkCompleteTwice(ts: seq<Task>, id: int, i: nat, now1: nat, now2: nat)
    requires FindIndex(ts, id) == Some(i)
    ensures var once := ts[i := Completed(ts[i], now1)];
      && FindIndex(once, id) == Some(i)
      && once[i := Completed(once[i], now2)] == ts[i := Completed(ts[i], now2)]
  {
    var once := ts[i := Completed(ts[i], now1)];
    FindIndexSameIds(ts, once, id);
  }

  /** `search` keeps store order: it distributes over concatenation. */
  lemma {:induction false} SelectAppend(a: seq<Task>, b: seq<Task>, q: string)
    ensures Select(a + b, q) == Select(a, q) + Select(b, q)
  {
    if a == [] {
      assert a + b == b;
    } else {
      assert (a + b)[0] == a[0];
      assert (a + b)[1..] == a[1..] + b;
      SelectAppend(a[1..], b, q);
    }
  }

  /** `search("")` returns every task, in order. */
  lemma {:induction false} SelectEmptyQuery(ts: seq<Task>)
    ensures Select(ts, Lower("")) == ts
  {
    if ts != [] {
      assert Matches(ts[0], "");
      SelectEmptyQuery(ts[1..]);
    }
  }

  /** `search` ignores case in the query: a query and its lower-cased form
      give the same answer. */
  lemma SearchCaseInsensitive(ts: seq<Task>, query: string)
    ensures Select(ts, Lower(Lower(query))) == Select(ts, Lower(query))
  {
    LowerIdempotent(query);
  }

  /** A task whose title or description holds the query somewhere, ignoring
      case, is in the answer of `search`. */
  lemma SearchFindsOccurrence(ts: seq<Task>, t: Task, query: string, at: int)
    requires t in ts
    requires OccursAt(Lower(t.title), Lower(query), at)
      || OccursAt(Lower(t.description), Lower(query), at)
    ensures t in Select(ts, Lower(query))
  {
    ContainsIffOccurs(Lower(t.title), Lower(query));
    ContainsIffOccurs(Lower(t.description), Lower(query));
  }

  /** The behaviour the store is used for, end to end: two adds number the
      tasks 1 and 2; after deleting 1, task 1 is gone and task 2 remains. */
  method AddDeleteScenario(now: nat)
  {
    var db := new Database();
    var a := db.Add(TaskCreate("A", "B"), now);
    assert a.id == 1 && !a.isCompleted;
    var b := db.Add(TaskCreate("C", "D"), now);
    assert b.id == 2;
    FindIndexAfterAdd([a], b);
    var d := db.Delete(1);
    assert d == Ok(()) && db.tasks == [b];
    var g1 := db.GetById(1);
    assert g1 == NotFound(TASK_NOT_FOUND);
    var g2 := db.GetById(2);
    assert db.tasks[0].id == 2;
    assert g2 == Ok(b);
  }
}
