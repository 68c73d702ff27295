/** The task-tracking store of ff-tasks.tool.ts as an object: the ff_tasks
    table and the store's clock are its fields; addTaskTool, updateTaskTool
    and deleteTaskTool are methods that change them; getTaskTool,
    listTasksTool and searchTasksTool are functions that only read them.
    Every operation first asks whether a database URL is configured and, if
    not, reports the unconfigured failure and leaves the table alone. */
module FfTaskStore {
  import opened Common
  import opened FfTasks

  class TaskStore {
    /** The rows of ff_tasks, in insertion order. */
    var rows: seq<Task>
    /** The last clock reading taken; every write takes the next one. */
    var clock: Timestamp

    ghost predicate Valid()
      reads this
    {
      TableInvariant(rows, clock)
    }

    constructor ()
      ensures Valid()
      ensures rows == [] && clock == 0
    {
      rows := [];
      clock := 0;
    }

    /** addTaskTool: INSERT one pending row under the caller's fresh id. An
        id that is already taken is refused by the primary key and changes
        nothing. */
    method Add(env: Env, id: string, input: NewTask) returns (r: Outcome<AddedTask>)
      requires Valid()
      modifies this
      ensures Valid()
      ensures !Configured(env) ==>
        r == Fail(NotConfigured) && rows == old(rows) && clock == old(clock)
      ensures Configured(env) && HasId(old(rows), id) ==>
        r == Fail(DuplicateId(id)) && rows == old(rows) && clock == old(clock)
      ensures Configured(env) && !HasId(old(rows), id) ==>
        && clock == old(clock) + 1
        && rows == old(rows) + [NewRecord(id, input, clock)]
        && r == Ok(AddedTask(id, input.title, Pending, PriorityOrDefault(input.priority)))
    {
      if !Configured(env) {
        return Fail(NotConfigured);
      }
      if IndexOf(rows, id).Some? {
        return Fail(DuplicateId(id));
      }
      AddKeepsInvariant(rows, clock, id, input);
      clock := clock + 1;
      var task := NewRecord(id, input, clock);
      rows := rows + [task];
      r := Ok(AddedTask(task.id, task.title, task.status, task.priority));
    }

    /** updateTaskTool: look the row up, then apply one partial UPDATE at a
        new clock reading. An unknown id is reported and changes nothing. */
    method Update(env: Env, id: string, c: Changes) returns (r: Outcome<UpdatedTask>)
      requires Valid()
      modifies this
      ensures Valid()
      ensures !Configured(env) ==>
        r == Fail(NotConfigured) && rows == old(rows) && clock == old(clock)
      ensures Configured(env) && !HasId(old(rows), id) ==>
        r == Fail(NotFound(id)) && rows == old(rows) && clock == old(clock)
      ensures Configured(env) && HasId(old(rows), id) ==>
        var i := IndexOf(old(rows), id).value;
        && clock == old(clock) + 1
        && rows == old(rows)[i := Updated(old(rows)[i], c, clock)]
        && r == Ok(UpdatedTask(id, rows[i].title, rows[i].status, rows[i].priority, clock))
    {
      if !Configured(env) {
        return Fail(NotConfigured);
      }
      var found := IndexOf(rows, id);
      if found.None? {
        return Fail(NotFound(id));
      }
      var i := found.value;
      var task := rows[i];
      UpdateKeepsInvariant(rows, clock, i, c);
      clock := clock + 1;
      var now := clock;
      // SET column by column: COALESCE keeps what was not given
      var next := task.(updatedAt := now);
      if c.status.Some? {
        next := next.(status := c.status.value);
      }
      if c.priority.Some? {
        next := next.(priority := c.priority.value);
      }
      if c.description.Some? {
        next := next.(description := c.description.value);
      }
      if c.status == Some(Completed) && task.completedAt.None? {
        next := next.(completedAt := Some(now));
      }
      rows := rows[i := next];
      r := Ok(UpdatedTask(next.id, next.title, next.status, next.priority, next.updatedAt));
    }

    /** deleteTaskTool: read the title, then DELETE the row. Afterwards no
        row carries the id, so deleting it again reports not-found. */
    method Delete(env: Env, id: string) returns (r: Outcome<string>)
      requires Valid()
      modifies this
      ensures Valid()
      ensures clock == old(clock)
      ensures !Configured(env) ==> r == Fail(NotConfigured) && rows == old(rows)
      ensures Configured(env) && !HasId(old(rows), id) ==> r == Fail(NotFound(id)) && rows == old(rows)
      ensures Configured(env) && HasId(old(rows), id) ==>
        && r == Ok(Find(old(rows), id).value.title)
        && rows == Without(old(rows), id)
        && |rows| == |old(rows)| - 1
      ensures Configured(env) ==> !HasId(rows, id)
    {
      if !Configured(env) {
        return Fail(NotConfigured);
      }
      var found := IndexOf(rows, id);
      if found.None? {
        return Fail(NotFound(id));
      }
      var title := rows[found.value].title;
      DeleteRemovesExactlyOne(rows, id);
      FilterKeepsInvariant(rows, clock, (t: Task) => t.id != id);
      rows := Without(rows, id);
      r := Ok(title);
    }

    /** getTaskTool: the stored row under `id`, or not-found. */
    function Get(env: Env, id: string): (r: Outcome<Task>)
      reads this
      ensures !Configured(env) ==> r == Fail(NotConfigured)
      ensures Configured(env) && !HasId(rows, id) ==> r == Fail(NotFound(id))
      ensures Configured(env) && HasId(rows, id) ==> r.Ok? && r.value in rows && r.value.id == id
    {
      if !Configured(env) then Fail(NotConfigured)
      else
        match Find(rows, id)
        case None => Fail(NotFound(id))
        case Some(t) => Ok(t)
    }

    /** listTasksTool: the rows passing every filter, in ORDER BY order. */
    function List(env: Env, q: ListQuery): (r: Listing<ListedTask>)
      reads this
      ensures !Configured(env) ==> r == Listing([], 0, false)
      ensures r.total == |r.items|
      ensures Configured(env) ==> r.configured && r.items == MapListView(ListRows(rows, q))
    {
      if !Configured(env) then Listing([], 0, false)
      else
        var items := MapListView(ListRows(rows, q));
        Listing(items, |items|, true)
    }

    /** searchTasksTool: the rows whose chosen field holds the query, in any
        case, newest first. */
    function Search(env: Env, query: string, field: SearchField): (r: Listing<FoundTask>)
      reads this
      ensures !Configured(env) ==> r == Listing([], 0, false)
      ensures r.total == |r.items|
      ensures Configured(env) ==> r.configured && r.items == MapSearchView(SearchRows(rows, query, field))
    {
      if !Configured(env) then Listing([], 0, false)
      else
        var items := MapSearchView(SearchRows(rows, query, field));
        Listing(items, |items|, true)
    }
  }

  /** The life of one task, and an unconfigured store, as a caller sees them
      through the contracts above. */
  method LifecycleScenario()
  {
    var env := Env(Some("postgres://tasks"), None);
    var store := new TaskStore();
    var input := NewTask("Fix login", "Auth broken on Safari", Some(High), None, None, None);
    var added := store.Add(env, "task_1", input);
    assert store.rows[0].id == "task_1";
    assert added == Ok(AddedTask("task_1", "Fix login", Pending, High));

    var got := store.Get(env, "task_1");
    assert got.Ok? && got.value.status == Pending && got.value.priority == High;

    var started := store.Update(env, "task_1", Changes(Some(InProgress), None, None, None));
    assert store.rows[0].status == InProgress && store.rows[0].completedAt.None?;

    var done := store.Update(env, "task_1", Changes(Some(Completed), None, None, None));
    assert store.rows[0].status == Completed && store.rows[0].completedAt == Some(3);

    var reopened := store.Update(env, "task_1", Changes(Some(Pending), None, None, None));
    assert store.rows[0].completedAt == Some(3);

    var deleted := store.Delete(env, "task_1");
    assert deleted == Ok("Fix login");
    var gone := store.Get(env, "task_1");
    assert gone == Fail(NotFound("task_1"));
    var again := store.Delete(env, "task_1");
    assert again == Fail(NotFound("task_1"));

    var offline := Env(None, Some(""));
    var refused := store.Add(offline, "task_2", input);
    assert refused == Fail(NotConfigured) && store.rows == [];
  }
}
