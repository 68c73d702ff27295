/** The task records of ff-tasks.tool.ts and everything that can be said about
    a table of them as a value: the record INSERTed by Add, the effect of
    Update's single UPDATE statement on one row, the row removed by Delete,
    the AND-combined List filters, the priority-rank / timestamp orderings
    and the case-insensitive Search match. The table is a sequence of rows in
    insertion order; the class in ff_task_store.dfy holds one and changes it. */
module FfTasks {
  import opened Common

  datatype Status = Pending | InProgress | Completed | Blocked
  datatype Priority = Low | Medium | High | Urgent

  /** A reading of the store's clock (NOW() / new Date()). */
  type Timestamp = nat

  /** One row of ff_tasks. Timestamps are clock readings; `dueDate` keeps the
      text the caller gave, which the backend would parse. */
  datatype Task = Task(
    id: string,
    title: string,
    description: string,
    status: Status,
    priority: Priority,
    category: Option<string>,
    tags: Option<seq<string>>,
    createdAt: Timestamp,
    updatedAt: Timestamp,
    dueDate: Option<string>,
    completedAt: Option<Timestamp>)

  // ------------------------------------------------------- configuration

  /** The two environment variables getDatabaseUrl consults. */
  datatype Env = Env(postgresUrl: Option<string>, databaseUrl: Option<string>)

  /** JavaScript truthiness of an optional string: present and non-empty. */
  predicate Truthy(v: Option<string>)
  {
    v.Some? && v.value != ""
  }

  /** `process.env.POSTGRES_URL || process.env.DATABASE_URL`, or null. */
  function DatabaseUrl(env: Env): Option<string>
  {
    if Truthy(env.postgresUrl) then env.postgresUrl
    else if Truthy(env.databaseUrl) then env.databaseUrl
    else None
  }

  /** getSQL() returns a client exactly when a URL was resolved. */
  predicate Configured(env: Env)
  {
    DatabaseUrl(env).Some?
  }

  /** The URL getSQL connects to is one of the two variables, POSTGRES_URL
      first, and never empty; with neither set every operation reports the
      unconfigured failure. */
  lemma DatabaseUrlChoice(env: Env)
    ensures Configured(env) <==> Truthy(env.postgresUrl) || Truthy(env.databaseUrl)
    ensures Configured(env) ==> DatabaseUrl(env).value != ""
    ensures Truthy(env.postgresUrl) ==> DatabaseUrl(env) == env.postgresUrl
    ensures !Truthy(env.postgresUrl) && Truthy(env.databaseUrl) ==> DatabaseUrl(env) == env.databaseUrl
  {
  }

  // -------------------------------------------------------------- results

  datatype Failure =
    | NotConfigured          // getSQL() returned null
    | NotFound(id: string)   // no row carries the id
    | DuplicateId(id: string) // the INSERT hit the primary key of an existing row

  datatype Outcome<T> = Ok(value: T) | Fail(failure: Failure)

  const NotConfiguredMessage: string := "Database not configured. Set DATABASE_URL environment variable."

  function FailureMessage(f: Failure): string
  {
    match f
    case NotConfigured => NotConfiguredMessage
    case NotFound(id) => "Task not found: " + id
    case DuplicateId(id) => "Failed to add task: duplicate key " + id
  }

  /** The result of List and Search: the rows shown and their count. With no
      database both report no rows and a zero total. */
  datatype Listing<T> = Listing(items: seq<T>, total: nat, configured: bool)

  // ---------------------------------------------------------- row lookup

  predicate HasId(rows: seq<Task>, id: string)
  {
    exists i :: 0 <= i < |rows| && rows[i].id == id
  }

  /** Position of the first row carrying `id` (`WHERE id = ...`). */
  function IndexOf(rows: seq<Task>, id: string): (r: Option<nat>)
    ensures r.None? <==> !HasId(rows, id)
    ensures r.Some? ==> r.value < |rows| && rows[r.value].id == id
    ensures r.Some? ==> forall k :: 0 <= k < r.value ==> rows[k].id != id
    decreases |rows|
  {
    if |rows| == 0 then None
    else if rows[0].id == id then Some(0)
    else
      match IndexOf(rows[1..], id)
      case None =>
        assert forall i :: 1 <= i < |rows| ==> rows[i] == rows[1..][i - 1];
        None
      case Some(k) => Some(k + 1)
  }

  function Find(rows: seq<Task>, id: string): Option<Task>
  {
    match IndexOf(rows, id)
    case None => None
    case Some(i) => Some(rows[i])
  }

  // ------------------------------------------------------------- filters

  /** The rows `keep` accepts, in table order (a WHERE clause). */
  function FilterRows(rows: seq<Task>, keep: Task -> bool): (r: seq<Task>)
    ensures forall t :: t in r <==> t in rows && keep(t)
    ensures |r| <= |rows|
    decreases |rows|
  {
    if |rows| == 0 then []
    else
      var rest := FilterRows(rows[1..], keep);
      assert forall t :: t in rows <==> t == rows[0] || t in rows[1..];
      if keep(rows[0]) then [rows[0]] + rest else rest
  }

  lemma {:induction false} FilterAll(rows: seq<Task>, keep: Task -> bool)
    requires forall t :: t in rows ==> keep(t)
    ensures FilterRows(rows, keep) == rows
    decreases |rows|
  {
    if |rows| > 0 {
      FilterAll(rows[1..], keep);
      assert [rows[0]] + rows[1..] == rows;
    }
  }

  // ------------------------------------------------- the table invariant

  /** Two different rows differ in id and in both timestamps: every write
      takes a fresh clock reading. */
  predicate Apart(a: Task, b: Task)
  {
    a.id != b.id && a.createdAt != b.createdAt && a.updatedAt != b.updatedAt
  }

  predicate AllApart(rows: seq<Task>)
  {
    forall i, j :: 0 <= i < j < |rows| ==> Apart(rows[i], rows[j])
  }

  /** What the schema and the operations keep true of each row. */
  predicate WellFormedRow(t: Task, clock: Timestamp)
  {
    && t.createdAt <= t.updatedAt <= clock
    && (t.status == Completed ==> t.completedAt.Some?)
    && (t.completedAt.Some? ==> t.createdAt <= t.completedAt.value <= t.updatedAt)
    && t.category != Some("")
    && t.dueDate != Some("")
  }

  predicate TableInvariant(rows: seq<Task>, clock: Timestamp)
  {
    AllApart(rows) && forall t :: t in rows ==> WellFormedRow(t, clock)
  }

  /** Filtering keeps rows pairwise apart. */
  lemma {:induction false} FilterKeepsApart(rows: seq<Task>, keep: Task -> bool)
    requires AllApart(rows)
    ensures AllApart(FilterRows(rows, keep))
    decreases |rows|
  {
    if |rows| > 0 {
      var rest := FilterRows(rows[1..], keep);
      AllApartSlice(rows, 1, |rows|);
      FilterKeepsApart(rows[1..], keep);
      if keep(rows[0]) {
        var r := [rows[0]] + rest;
        forall i, j | 0 <= i < j < |r| ensures Apart(r[i], r[j]) {
          if i == 0 {
            assert r[j] in rows[1..];
            var k :| 0 <= k < |rows[1..]| && rows[1..][k] == r[j];
            assert rows[k + 1] == r[j];
          } else {
            assert r[i] == rest[i - 1] && r[j] == rest[j - 1];
          }
        }
      }
    }
  }

  lemma FilterKeepsInvariant(rows: seq<Task>, clock: Timestamp, keep: Task -> bool)
    requires TableInvariant(rows, clock)
    ensures TableInvariant(FilterRows(rows, keep), clock)
  {
    FilterKeepsApart(rows, keep);
  }

  lemma AllApartSlice(rows: seq<Task>, lo: nat, hi: nat)
    requires AllApart(rows)
    requires lo <= hi <= |rows|
    ensures AllApart(rows[lo..hi])
  {
    var s := rows[lo..hi];
    forall p, q | 0 <= p < q < |s| ensures Apart(s[p], s[q]) {
      assert s[p] == rows[lo + p] && s[q] == rows[lo + q];
    }
  }

  // ----------------------------------------------------------- ordering

  datatype SortKey = ByPriority | ByCreatedAt | ByUpdatedAt

  /** `CASE priority WHEN 'urgent' THEN 0 WHEN 'high' THEN 1 WHEN 'medium' THEN 2 WHEN 'low' THEN 3 END`. */
  function Rank(p: Priority): nat
  {
    match p
    case Urgent => 0
    case High => 1
    case Medium => 2
    case Low => 3
  }

  /** `a` may be listed before `b` under the ORDER BY of `by`:
      rank ascending then created_at descending, or one timestamp descending. */
  predicate Precedes(key: SortKey, a: Task, b: Task)
  {
    match key
    case ByPriority =>
      Rank(a.priority) < Rank(b.priority)
      || (Rank(a.priority) == Rank(b.priority) && a.createdAt >= b.createdAt)
    case ByCreatedAt => a.createdAt >= b.createdAt
    case ByUpdatedAt => a.updatedAt >= b.updatedAt
  }

  predicate Sorted(key: SortKey, s: seq<Task>)
  {
    forall i, j :: 0 <= i < j < |s| ==> Precedes(key, s[i], s[j])
  }

  /** The rank table is a bijection onto 0..3: it ranks every priority apart. */
  lemma RankInjective(p: Priority, q: Priority)
    ensures Rank(p) == Rank(q) <==> p == q
    ensures Rank(p) <= 3
  {
  }

  /** Each ORDER BY is total, transitive, and strict on rows that are apart:
      it ranks any two distinct rows of the table one way only. */
  lemma PrecedesOrder(key: SortKey, a: Task, b: Task, c: Task)
    ensures Precedes(key, a, a)
    ensures Precedes(key, a, b) || Precedes(key, b, a)
    ensures Precedes(key, a, b) && Precedes(key, b, c) ==> Precedes(key, a, c)
    ensures Apart(a, b) ==> !(Precedes(key, a, b) && Precedes(key, b, a))
  {
  }

  /** A row that may precede every row of a sorted run extends it in front. */
  lemma PrependSorted(key: SortKey, h: Task, t: seq<Task>)
    requires Sorted(key, t)
    requires forall y :: y in t ==> Precedes(key, h, y)
    ensures Sorted(key, [h] + t)
  {
    var r := [h] + t;
    forall i, j | 0 <= i < j < |r| ensures Precedes(key, r[i], r[j]) {
      if i == 0 {
        assert r[j] == t[j - 1];
      } else {
        assert r[i] == t[i - 1] && r[j] == t[j - 1];
      }
    }
  }

  /** A row that precedes the head of a sorted run precedes all of it. */
  lemma PrecedesHead(key: SortKey, x: Task, s: seq<Task>)
    requires Sorted(key, s) && |s| > 0 && Precedes(key, x, s[0])
    ensures forall y :: y in s ==> Precedes(key, x, y)
  {
    forall y | y in s ensures Precedes(key, x, y) {
      var j :| 0 <= j < |s| && s[j] == y;
      PrecedesOrder(key, x, s[0], s[j]);
    }
  }

  /** The head of a sorted run precedes the rest of it and any row it does not
      follow. */
  lemma HeadPrecedes(key: SortKey, x: Task, s: seq<Task>, rest: seq<Task>)
    requires Sorted(key, s) && |s| > 0 && !Precedes(key, x, s[0])
    requires multiset(rest) == multiset(s[1..]) + multiset{x}
    ensures forall y :: y in rest ==> Precedes(key, s[0], y)
  {
    PrecedesOrder(key, x, s[0], x);
    forall y | y in rest ensures Precedes(key, s[0], y) {
      assert y in multiset(rest);
      if y != x {
        assert y in multiset(s[1..]);
        var j :| 0 <= j < |s[1..]| && s[1..][j] == y;
        assert s[j + 1] == y;
      }
    }
  }

  /** Insertion of one row into a sorted run. */
  function Insert(key: SortKey, x: Task, s: seq<Task>): (r: seq<Task>)
    requires Sorted(key, s)
    ensures Sorted(key, r)
    ensures multiset(r) == multiset(s) + multiset{x}
    decreases |s|
  {
    if |s| == 0 then [x]
    else if Precedes(key, x, s[0]) then
      PrecedesHead(key, x, s);
      PrependSorted(key, x, s);
      [x] + s
    else
      var rest := Insert(key, x, s[1..]);
      HeadPrecedes(key, x, s, rest);
      PrependSorted(key, s[0], rest);
      assert s == [s[0]] + s[1..];
      [s[0]] + rest
  }

  /** The rows in ORDER BY `by` order: sorted, and a permutation of the input. */
  function SortRows(key: SortKey, s: seq<Task>): (r: seq<Task>)
    ensures Sorted(key, r)
    ensures multiset(r) == multiset(s)
    decreases |s|
  {
    if |s| == 0 then []
    else
      assert s == [s[0]] + s[1..];
      Insert(key, s[0], SortRows(key, s[1..]))
  }

  lemma SortedTail(key: SortKey, s: seq<Task>)
    requires Sorted(key, s) && |s| > 0
    ensures Sorted(key, s[1..])
  {
    var t := s[1..];
    forall p, q | 0 <= p < q < |t| ensures Precedes(key, t[p], t[q]) {
      assert t[p] == s[p + 1] && t[q] == s[q + 1];
    }
  }

  lemma MultisetTail(s: seq<Task>)
    requires |s| > 0
    ensures multiset(s[1..]) == multiset(s) - multiset{s[0]}
  {
    assert s == [s[0]] + s[1..];
  }

  /** Two sorted arrangements of the same rows that are pairwise apart start
      with the same row. */
  lemma SortedHeadsAgree(key: SortKey, a: seq<Task>, b: seq<Task>)
    requires Sorted(key, a) && Sorted(key, b)
    requires multiset(a) == multiset(b)
    requires AllApart(a)
    requires |a| > 0 && |b| > 0
    ensures a[0] == b[0]
  {
    var x, y := a[0], b[0];
    assert y in multiset(a);
    var i :| 0 <= i < |a| && a[i] == y;
    assert x in multiset(b);
    var j :| 0 <= j < |b| && b[j] == x;
    PrecedesOrder(key, x, y, x);
    assert i != 0 ==> Precedes(key, x, y) && Apart(x, y);
    assert j != 0 ==> Precedes(key, y, x);
  }

  /** On rows that are pairwise apart there is only one sorted arrangement:
      every ORDER BY the store issues is deterministic. */
  lemma {:induction false} SortedUnique(key: SortKey, a: seq<Task>, b: seq<Task>)
    requires Sorted(key, a) && Sorted(key, b)
    requires multiset(a) == multiset(b)
    requires AllApart(a)
    ensures a == b
    decreases |a|
  {
    assert |a| == |multiset(a)| == |multiset(b)| == |b|;
    if |a| > 0 {
      SortedHeadsAgree(key, a, b);
      MultisetTail(a);
      MultisetTail(b);
      AllApartSlice(a, 1, |a|);
      SortedTail(key, a);
      SortedTail(key, b);
      SortedUnique(key, a[1..], b[1..]);
      assert a == [a[0]] + a[1..] && b == [b[0]] + b[1..];
    }
  }

  // ------------------------------------------------------------------ Add

  /** The input of addTaskTool; an omitted priority is `None`. */
  datatype NewTask = NewTask(
    title: string,
    description: string,
    priority: Option<Priority>,
    category: Option<string>,
    tags: Option<seq<string>>,
    dueDate: Option<string>)

  /** The zod default: `priority` is "medium" when omitted. */
  function PriorityOrDefault(p: Option<Priority>): Priority
  {
    if p.Some? then p.value else Medium
  }

  /** `x || null` on an optional string. */
  function OrNull(v: Option<string>): Option<string>
  {
    if Truthy(v) then v else None
  }

  /** The row Add INSERTs at clock reading `now`: status 'pending', both
      timestamps defaulted to NOW(), no completion stamp. */
  function NewRecord(id: string, input: NewTask, now: Timestamp): Task
  {
    Task(id, input.title, input.description, Pending, PriorityOrDefault(input.priority),
         OrNull(input.category), input.tags, now, now, OrNull(input.dueDate), None)
  }

  /** What Add reports back on success. */
  datatype AddedTask = AddedTask(id: string, title: string, status: Status, priority: Priority)

  /** A new row is well formed at the clock reading it was stamped with. */
  lemma NewRecordWellFormed(id: string, input: NewTask, now: Timestamp)
    ensures WellFormedRow(NewRecord(id, input, now), now)
  {
  }

  /** Add followed by Get: the row found under the fresh id is the new one,
      pending, with every field the caller gave (priority defaulted to
      medium, empty category / due date stored as null) and
      created_at == updated_at. */
  lemma {:induction false} AddThenGet(rows: seq<Task>, id: string, input: NewTask, now: Timestamp)
    requires !HasId(rows, id)
    ensures Find(rows + [NewRecord(id, input, now)], id).Some?
    ensures var t := Find(rows + [NewRecord(id, input, now)], id).value;
      && t.id == id && t.title == input.title && t.description == input.description
      && t.status == Pending
      && t.priority == (if input.priority.Some? then input.priority.value else Medium)
      && (Truthy(input.category) ==> t.category == input.category)
      && (!Truthy(input.category) ==> t.category.None?)
      && t.tags == input.tags
      && (Truthy(input.dueDate) ==> t.dueDate == input.dueDate)
      && (!Truthy(input.dueDate) ==> t.dueDate.None?)
      && t.createdAt == t.updatedAt == now
      && t.completedAt.None?
  {
    var all := rows + [NewRecord(id, input, now)];
    assert all[|rows|].id == id;
  }

  /** Adding a fresh row to a well-formed table at a later clock reading
      keeps it well formed. */
  lemma AddKeepsInvariant(rows: seq<Task>, clock: Timestamp, id: string, input: NewTask)
    requires TableInvariant(rows, clock)
    requires !HasId(rows, id)
    ensures TableInvariant(rows + [NewRecord(id, input, clock + 1)], clock + 1)
  {
    var t := NewRecord(id, input, clock + 1);
    var r := rows + [t];
    forall i, j | 0 <= i < j < |r| ensures Apart(r[i], r[j]) {
      if j == |rows| {
        assert r[i] == rows[i] && rows[i] in rows;
      } else {
        assert r[i] == rows[i] && r[j] == rows[j];
      }
    }
  }

  // --------------------------------------------------------------- Update

  /** The optional fields of updateTaskTool; `notes` only reaches the message. */
  datatype Changes = Changes(
    status: Option<Status>,
    priority: Option<Priority>,
    description: Option<string>,
    notes: Option<string>)

  /** The row after `UPDATE ... SET status = COALESCE(...), priority =
      COALESCE(...), description = COALESCE(...), completed_at = CASE ...,
      updated_at = NOW()` at clock reading `now`. */
  function Updated(t: Task, c: Changes, now: Timestamp): Task
  {
    t.(status := if c.status.Some? then c.status.value else t.status,
       priority := if c.priority.Some? then c.priority.value else t.priority,
       description := if c.description.Some? then c.description.value else t.description,
       completedAt := if c.status == Some(Completed) && t.completedAt.None? then Some(now) else t.completedAt,
       updatedAt := now)
  }

  /** What Update reports back on success. */
  datatype UpdatedTask = UpdatedTask(id: string, title: string, status: Status, priority: Priority, updatedAt: Timestamp)

  /** Update is a partial update: every field it was not given keeps its old
      value, the key and creation fields never change, updated_at moves to
      the new reading, and completed_at is stamped only when the new status
      is completed and no stamp was there. */
  lemma UpdatePartial(t: Task, c: Changes, now: Timestamp)
    ensures var u := Updated(t, c, now);
      && u.id == t.id && u.title == t.title && u.category == t.category && u.tags == t.tags
      && u.createdAt == t.createdAt && u.dueDate == t.dueDate
      && (c.status.None? ==> u.status == t.status)
      && (c.status.Some? ==> u.status == c.status.value)
      && (c.priority.None? ==> u.priority == t.priority)
      && (c.priority.Some? ==> u.priority == c.priority.value)
      && (c.description.None? ==> u.description == t.description)
      && (c.description.Some? ==> u.description == c.description.value)
      && u.updatedAt == now
      && (t.completedAt.Some? ==> u.completedAt == t.completedAt)
      && (u.completedAt != t.completedAt <==> c.status == Some(Completed) && t.completedAt.None?)
  {
  }

  /** An Update with no fields changes nothing but updated_at. */
  lemma EmptyUpdateTouchesOnlyUpdatedAt(t: Task, now: Timestamp)
    ensures Updated(t, Changes(None, None, None, None), now) == t.(updatedAt := now)
  {
  }

  /** Updating a row of a well-formed table at a later clock reading keeps
      the table well formed. */
  lemma UpdateKeepsInvariant(rows: seq<Task>, clock: Timestamp, i: nat, c: Changes)
    requires TableInvariant(rows, clock)
    requires i < |rows|
    ensures TableInvariant(rows[i := Updated(rows[i], c, clock + 1)], clock + 1)
  {
    var r := rows[i := Updated(rows[i], c, clock + 1)];
    assert rows[i] in rows;
    forall t | t in r ensures WellFormedRow(t, clock + 1) {
      var k :| 0 <= k < |r| && r[k] == t;
      if k != i {
        assert rows[k] in rows;
      }
    }
    forall p, q | 0 <= p < q < |r| ensures Apart(r[p], r[q]) {
      assert Apart(rows[p], rows[q]);
      if p == i {
        assert rows[q] in rows;
      } else if q == i {
        assert rows[p] in rows;
      }
    }
  }

  /** The row after a run of Updates, the k-th applied at reading times[k]. */
  function UpdatedAll(t: Task, cs: seq<Changes>, times: seq<Timestamp>): Task
    requires |times| == |cs|
    decreases |cs|
  {
    if |cs| == 0 then t else UpdatedAll(Updated(t, cs[0], times[0]), cs[1..], times[1..])
  }

  /** Monotonic completion over any run of Updates: a completed_at that is
      set stays exactly as it was, and completed_at is set afterwards exactly
      when it was set before or some Update in the run asked for status
      completed. */
  lemma {:induction false} CompletionIsStampedOnce(t: Task, cs: seq<Changes>, times: seq<Timestamp>)
    requires |times| == |cs|
    ensures t.completedAt.Some? ==> UpdatedAll(t, cs, times).completedAt == t.completedAt
    ensures UpdatedAll(t, cs, times).completedAt.Some?
      <==> t.completedAt.Some? || exists k :: 0 <= k < |cs| && cs[k].status == Some(Completed)
    decreases |cs|
  {
    if |cs| > 0 {
      CompletionIsStampedOnce(Updated(t, cs[0], times[0]), cs[1..], times[1..]);
      assert forall k :: 1 <= k < |cs| ==> cs[k] == cs[1..][k - 1];
      if exists k :: 1 <= k < |cs| && cs[k].status == Some(Completed) {
        var k :| 1 <= k < |cs| && cs[k].status == Some(Completed);
        assert cs[1..][k - 1].status == Some(Completed);
      }
    }
  }

  /** The completion stamp is the reading of the first Update that completed
      the task, when the task had no stamp before the run. */
  lemma {:induction false} CompletionStampIsFirstCompletion(t: Task, cs: seq<Changes>, times: seq<Timestamp>, k: nat)
    requires |times| == |cs|
    requires t.completedAt.None?
    requires k < |cs| && cs[k].status == Some(Completed)
    requires forall j :: 0 <= j < k ==> cs[j].status != Some(Completed)
    ensures UpdatedAll(t, cs, times).completedAt == Some(times[k])
    decreases |cs|
  {
    if k == 0 {
      CompletionIsStampedOnce(Updated(t, cs[0], times[0]), cs[1..], times[1..]);
    } else {
      assert cs[1..][k - 1] == cs[k];
      CompletionStampIsFirstCompletion(Updated(t, cs[0], times[0]), cs[1..], times[1..], k - 1);
    }
  }

  // --------------------------------------------------------------- Delete

  /** The table after `DELETE FROM ff_tasks WHERE id = ...`. */
  function Without(rows: seq<Task>, id: string): seq<Task>
  {
    FilterRows(rows, (t: Task) => t.id != id)
  }

  /** Delete removes exactly the row with that id: no row carries it
      afterwards (so a second Delete reports not-found), every other row
      stays, and on a table with unique ids exactly one row goes. */
  lemma DeleteRemovesExactlyOne(rows: seq<Task>, id: string)
    requires AllApart(rows)
    ensures !HasId(Without(rows, id), id)
    ensures forall t :: t in Without(rows, id) <==> t in rows && t.id != id
    ensures HasId(rows, id) ==> |Without(rows, id)| == |rows| - 1
    ensures !HasId(rows, id) ==> Without(rows, id) == rows
  {
    if HasId(rows, id) {
      var i :| 0 <= i < |rows| && rows[i].id == id;
      WithoutUniqueRow(rows, id, i);
    } else {
      FilterAll(rows, (t: Task) => t.id != id);
    }
  }

  /** When row `i` is the one carrying `id`, Delete cuts out exactly that row
      and keeps the others in order. */
  lemma WithoutUniqueRow(rows: seq<Task>, id: string, i: nat)
    requires AllApart(rows)
    requires i < |rows| && rows[i].id == id
    ensures Without(rows, id) == rows[..i] + rows[i + 1..]
  {
    var keep := (t: Task) => t.id != id;
    var before, after := rows[..i], rows[i + 1..];
    forall t | t in before ensures keep(t) {
      var p :| 0 <= p < |before| && before[p] == t;
      assert before[p] == rows[p] && Apart(rows[p], rows[i]);
    }
    forall t | t in after ensures keep(t) {
      var p :| 0 <= p < |after| && after[p] == t;
      assert after[p] == rows[p + i + 1] && Apart(rows[i], rows[p + i + 1]);
    }
    FilterAll(before, keep);
    FilterAll(after, keep);
    FilterSplit(rows, i, keep);
  }

  /** Concatenation of row runs is associative. */
  lemma Associative(a: seq<Task>, b: seq<Task>, c: seq<Task>)
    ensures a + (b + c) == a + b + c
  {
  }

  /** A WHERE clause over two runs of rows filters each run on its own. */
  lemma {:induction false} FilterAppend(a: seq<Task>, b: seq<Task>, keep: Task -> bool)
    ensures FilterRows(a + b, keep) == FilterRows(a, keep) + FilterRows(b, keep)
    decreases |a|
  {
    if |a| > 0 {
      var h := if keep(a[0]) then [a[0]] else [];
      FilterAppend(a[1..], b, keep);
      assert (a + b)[0] == a[0] && (a + b)[1..] == a[1..] + b;
      assert FilterRows(a + b, keep) == h + FilterRows(a[1..] + b, keep);
      assert FilterRows(a, keep) == h + FilterRows(a[1..], keep);
      Associative(h, FilterRows(a[1..], keep), FilterRows(b, keep));
    } else {
      assert a + b == b;
    }
  }

  /** Filtering distributes over a split of the table at one row. */
  lemma FilterSplit(rows: seq<Task>, i: nat, keep: Task -> bool)
    requires i < |rows|
    ensures FilterRows(rows, keep)
      == FilterRows(rows[..i], keep) + (if keep(rows[i]) then [rows[i]] else []) + FilterRows(rows[i + 1..], keep)
  {
    var t := rows[i..];
    assert rows == rows[..i] + t;
    FilterAppend(rows[..i], t, keep);
    assert t[0] == rows[i] && t[1..] == rows[i + 1..];
    var mid := if keep(rows[i]) then [rows[i]] else [];
    assert FilterRows(t, keep) == mid + FilterRows(rows[i + 1..], keep);
    Associative(FilterRows(rows[..i], keep), mid, FilterRows(rows[i + 1..], keep));
  }

  // ----------------------------------------------------------------- List

  datatype StatusFilter = AnyStatus | StatusIs(status: Status)           // "all" or one status
  datatype PriorityFilter = AnyPriority | PriorityIs(priority: Priority) // "all" or one priority

  /** The input of listTasksTool (defaults: "all", "all", no category, "priority"). */
  datatype ListQuery = ListQuery(
    status: StatusFilter,
    priority: PriorityFilter,
    category: Option<string>,
    sortBy: SortKey)

  /** The reference meaning of the List filters: every filter that is not
      "all" (or, for the category, that is a non-empty string) must hold. */
  predicate MatchesQuery(q: ListQuery, t: Task)
  {
    && (q.status.StatusIs? ==> t.status == q.status.status)
    && (q.priority.PriorityIs? ==> t.priority == q.priority.priority)
    && (Truthy(q.category) ==> t.category == q.category)
  }

  /** One SQL condition of List's WHERE clause. */
  datatype Condition =
    | StatusEquals(status: Status)
    | PriorityEquals(priority: Priority)
    | CategoryEquals(category: string)

  predicate Holds(c: Condition, t: Task)
  {
    match c
    case StatusEquals(s) => t.status == s
    case PriorityEquals(p) => t.priority == p
    case CategoryEquals(cat) => t.category == Some(cat)
  }

  /** `sql.join(conditions, sql` AND `)`; no condition means no WHERE. */
  predicate HoldsAll(conds: seq<Condition>, t: Task)
  {
    forall k :: 0 <= k < |conds| ==> Holds(conds[k], t)
  }

  /** Pushing a condition onto the list adds it to the conjunction. */
  lemma HoldsAllPush(conds: seq<Condition>, c: Condition)
    ensures forall t :: HoldsAll(conds + [c], t) <==> HoldsAll(conds, t) && Holds(c, t)
  {
    forall t ensures HoldsAll(conds + [c], t) <==> HoldsAll(conds, t) && Holds(c, t) {
      if HoldsAll(conds, t) && Holds(c, t) {
        forall k | 0 <= k < |conds + [c]| ensures Holds((conds + [c])[k], t) {
          if k < |conds| {
            assert (conds + [c])[k] == conds[k];
          }
        }
      }
      if HoldsAll(conds + [c], t) {
        assert (conds + [c])[|conds|] == c;
        forall k | 0 <= k < |conds| ensures Holds(conds[k], t) {
          assert (conds + [c])[k] == conds[k];
        }
      }
    }
  }

  /** The `conditions` list List pushes onto: one condition per filter that is
      not "all" (a non-empty category for the category filter). Their
      conjunction is exactly the reference meaning of the filters. */
  method BuildConditions(q: ListQuery) returns (conds: seq<Condition>)
    ensures forall t :: HoldsAll(conds, t) <==> MatchesQuery(q, t)
    ensures |conds| == (if q.status.StatusIs? then 1 else 0)
                       + (if q.priority.PriorityIs? then 1 else 0)
                       + (if Truthy(q.category) then 1 else 0)
  {
    conds := [];
    if q.status.StatusIs? {
      HoldsAllPush(conds, StatusEquals(q.status.status));
      conds := conds + [StatusEquals(q.status.status)];
    }
    assert forall t :: HoldsAll(conds, t) <==> (q.status.StatusIs? ==> t.status == q.status.status);
    if q.priority.PriorityIs? {
      HoldsAllPush(conds, PriorityEquals(q.priority.priority));
      conds := conds + [PriorityEquals(q.priority.priority)];
    }
    assert forall t :: HoldsAll(conds, t) <==>
      (q.status.StatusIs? ==> t.status == q.status.status)
      && (q.priority.PriorityIs? ==> t.priority == q.priority.priority);
    if Truthy(q.category) {
      HoldsAllPush(conds, CategoryEquals(q.category.value));
      conds := conds + [CategoryEquals(q.category.value)];
    }
  }

  /** The rows List returns, in its ORDER BY order. */
  function ListRows(rows: seq<Task>, q: ListQuery): (r: seq<Task>)
    ensures forall t :: t in r <==> t in rows && MatchesQuery(q, t)
    ensures Sorted(q.sortBy, r)
    ensures multiset(r) == multiset(FilterRows(rows, t => MatchesQuery(q, t)))
  {
    var f := FilterRows(rows, t => MatchesQuery(q, t));
    var r := SortRows(q.sortBy, f);
    assert forall t :: t in r <==> t in f by {
      forall t ensures t in r <==> t in f {
        assert t in r <==> t in multiset(r);
        assert t in f <==> t in multiset(f);
      }
    }
    r
  }

  /** List with every filter at "all" returns every row of the table. */
  lemma ListAllReturnsEveryRow(rows: seq<Task>, key: SortKey)
    ensures multiset(ListRows(rows, ListQuery(AnyStatus, AnyPriority, None, key))) == multiset(rows)
  {
    FilterAll(rows, t => MatchesQuery(ListQuery(AnyStatus, AnyPriority, None, key), t));
  }

  /** On a well-formed table the List order is fully determined: any
      arrangement of the matching rows that respects the ORDER BY is the one
      List returns. */
  lemma ListOrderIsDeterministic(rows: seq<Task>, clock: Timestamp, q: ListQuery, other: seq<Task>)
    requires TableInvariant(rows, clock)
    requires Sorted(q.sortBy, other)
    requires multiset(other) == multiset(FilterRows(rows, t => MatchesQuery(q, t)))
    ensures other == ListRows(rows, q)
  {
    var filtered := FilterRows(rows, t => MatchesQuery(q, t));
    FilterKeepsApart(rows, t => MatchesQuery(q, t));
    var listed := ListRows(rows, q);
    SortedApartArrangement(q.sortBy, filtered, listed);
    SortedUnique(q.sortBy, listed, other);
  }

  /** A permutation of rows that are pairwise apart is pairwise apart. */
  lemma SortedApartArrangement(key: SortKey, s: seq<Task>, r: seq<Task>)
    requires AllApart(s)
    requires multiset(r) == multiset(s)
    ensures AllApart(r)
  {
    forall i, j | 0 <= i < j < |r| ensures Apart(r[i], r[j]) {
      assert r[i] in multiset(s) && r[j] in multiset(s);
      var p :| 0 <= p < |s| && s[p] == r[i];
      var q :| 0 <= q < |s| && s[q] == r[j];
      if p == q {
        // the same element of s twice in r would need multiplicity two
        assert r == r[..i] + [r[i]] + r[i + 1..j] + [r[j]] + r[j + 1..];
        assert multiset(r)[r[i]] >= 2;
        MultiplicityOneWhenApart(s, p);
        assert false;
      } else if p < q {
        assert Apart(s[p], s[q]);
      } else {
        assert Apart(s[q], s[p]);
      }
    }
  }

  lemma MultiplicityOneWhenApart(s: seq<Task>, p: nat)
    requires AllApart(s) && p < |s|
    ensures multiset(s)[s[p]] == 1
  {
    assert s == s[..p] + [s[p]] + s[p + 1..];
    var before, after := s[..p], s[p + 1..];
    assert s[p] !in before by {
      forall k | 0 <= k < |before| ensures before[k] != s[p] {
        assert before[k] == s[k] && Apart(s[k], s[p]);
      }
    }
    assert s[p] !in after by {
      forall k | 0 <= k < |after| ensures after[k] != s[p] {
        assert after[k] == s[p + 1 + k] && Apart(s[p], s[p + 1 + k]);
      }
    }
    assert multiset(before)[s[p]] == 0;
    assert multiset(after)[s[p]] == 0;
  }

  /** The fields List shows for a row. */
  datatype ListedTask = ListedTask(
    id: string, title: string, description: string, status: Status, priority: Priority,
    category: Option<string>, createdAt: Timestamp, dueDate: Option<string>)

  function ListView(t: Task): ListedTask
  {
    ListedTask(t.id, t.title, t.description, t.status, t.priority, OrNull(t.category), t.createdAt, t.dueDate)
  }

  // --------------------------------------------------------------- Search

  datatype SearchField = InTitle | InDescription | InBoth | InTags

  /** The WHERE clause of Search for an already lower-cased pattern. */
  predicate MatchesText(t: Task, pattern: string, field: SearchField)
  {
    match field
    case InTitle => Contains(Lower(t.title), pattern)
    case InDescription => Contains(Lower(t.description), pattern)
    case InBoth => Contains(Lower(t.title), pattern) || Contains(Lower(t.description), pattern)
    case InTags =>
      t.tags.Some? && exists k :: 0 <= k < |t.tags.value| && Contains(Lower(t.tags.value[k]), pattern)
  }

  /** The rows Search returns, newest first. */
  function SearchRows(rows: seq<Task>, query: string, field: SearchField): (r: seq<Task>)
    ensures forall t :: t in r <==> t in rows && MatchesText(t, Lower(query), field)
    ensures Sorted(ByCreatedAt, r)
    ensures multiset(r) == multiset(FilterRows(rows, t => MatchesText(t, Lower(query), field)))
  {
    var f := FilterRows(rows, t => MatchesText(t, Lower(query), field));
    var r := SortRows(ByCreatedAt, f);
    assert forall t :: t in r <==> t in f by {
      forall t ensures t in r <==> t in f {
        assert t in r <==> t in multiset(r);
        assert t in f <==> t in multiset(f);
      }
    }
    r
  }

  /** On a well-formed table Search lists each matching row once, in the one
      newest-first order there is. */
  lemma SearchOrderIsDeterministic(rows: seq<Task>, clock: Timestamp, query: string, field: SearchField,
                                   other: seq<Task>)
    requires TableInvariant(rows, clock)
    requires Sorted(ByCreatedAt, other)
    requires multiset(other) == multiset(FilterRows(rows, t => MatchesText(t, Lower(query), field)))
    ensures other == SearchRows(rows, query, field)
  {
    var filtered := FilterRows(rows, t => MatchesText(t, Lower(query), field));
    FilterKeepsApart(rows, t => MatchesText(t, Lower(query), field));
    var found := SearchRows(rows, query, field);
    SortedApartArrangement(ByCreatedAt, filtered, found);
    SortedUnique(ByCreatedAt, found, other);
  }

  /** Search is case-insensitive in its query: upper-casing the query does
      not change what is found. */
  lemma SearchIgnoresQueryCase(rows: seq<Task>, query: string, field: SearchField)
    ensures SearchRows(rows, Upper(query), field) == SearchRows(rows, query, field)
  {
    LowerOfUpper(query);
  }

  /** A row whose title holds the query verbatim (in any case) is found by
      a title or title-and-description search. */
  lemma SearchFindsTitle(rows: seq<Task>, t: Task, query: string, field: SearchField)
    requires t in rows
    requires field == InTitle || field == InBoth
    requires Contains(t.title, query)
    ensures t in SearchRows(rows, query, field)
  {
    ContainsLower(t.title, query);
  }

  /** A row with a tag holding the query verbatim is found by a tag search. */
  lemma SearchFindsTag(rows: seq<Task>, t: Task, query: string, k: nat)
    requires t in rows
    requires t.tags.Some? && k < |t.tags.value|
    requires Contains(t.tags.value[k], query)
    ensures t in SearchRows(rows, query, InTags)
  {
    ContainsLower(t.tags.value[k], query);
  }

  /** The fields Search shows for a row. */
  datatype FoundTask = FoundTask(id: string, title: string, description: string, status: Status, priority: Priority)

  function SearchView(t: Task): FoundTask
  {
    FoundTask(t.id, t.title, t.description, t.status, t.priority)
  }

  function MapListView(s: seq<Task>): (r: seq<ListedTask>)
    ensures |r| == |s|
    ensures forall i :: 0 <= i < |s| ==> r[i] == ListView(s[i])
  {
    seq(|s|, i requires 0 <= i < |s| => ListView(s[i]))
  }

  function MapSearchView(s: seq<Task>): (r: seq<FoundTask>)
    ensures |r| == |s|
    ensures forall i :: 0 <= i < |s| ==> r[i] == SearchView(s[i])
  {
    seq(|s|, i requires 0 <= i < |s| => SearchView(s[i]))
  }
}
