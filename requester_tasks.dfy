/** The requester's task list: the status filter, the counts on the filter
    buttons, and the empty-state text. */
module RequesterTasks {
  import Market

  const All := "all"

  /** `tasks.filter(task => task.status === status)` */
  function WithStatus(tasks: seq<Market.Task>, status: string): (r: seq<Market.Task>)
    ensures |r| <= |tasks|
    ensures forall i :: 0 <= i < |r| ==> r[i].status == status && r[i] in tasks
  {
    if tasks == [] then []
    else (if tasks[0].status == status then [tasks[0]] else []) + WithStatus(tasks[1..], status)
  }

  /** `filterTasks()`: the whole list for `all`, else the tasks of that status. */
  function FilterTasks(tasks: seq<Market.Task>, activeFilter: string): (r: seq<Market.Task>)
    ensures activeFilter == All ==> r == tasks
    ensures activeFilter != All ==> forall i :: 0 <= i < |r| ==> r[i].status == activeFilter
  {
    if activeFilter == All then tasks else WithStatus(tasks, activeFilter)
  }

  /** The number of tasks of a status, counted one by one. */
  function CountOf(tasks: seq<Market.Task>, status: string): nat {
    if tasks == [] then 0 else (if tasks[0].status == status then 1 else 0) + CountOf(tasks[1..], status)
  }

  /** Filtering distributes over concatenation, so it keeps the tasks in their
      original order. */
  lemma {:induction false} WithStatusConcat(a: seq<Market.Task>, b: seq<Market.Task>, status: string)
    ensures WithStatus(a + b, status) == WithStatus(a, status) + WithStatus(b, status)
  {
    if a == [] {
      assert a + b == b;
    } else {
      var head := if a[0].status == status then [a[0]] else [];
      assert (a + b)[0] == a[0] && (a + b)[1..] == a[1..] + b;
      calc {
        WithStatus(a + b, status);
        head + WithStatus(a[1..] + b, status);
        { WithStatusConcat(a[1..], b, status); }
        head + (WithStatus(a[1..], status) + WithStatus(b, status));
        (head + WithStatus(a[1..], status)) + WithStatus(b, status);
      }
    }
  }

  /** Every task of the status is kept: the filter drops nothing it should show. */
  lemma {:induction false} WithStatusComplete(tasks: seq<Market.Task>, status: string, t: Market.Task)
    requires t in tasks && t.status == status
    ensures t in WithStatus(tasks, status)
  {
    if tasks[0] != t {
      assert t in tasks[1..];
      WithStatusComplete(tasks[1..], status, t);
    }
  }

  /** The count on a filter button is the length of the list that filter shows. */
  lemma {:induction false} CountIsFilteredLength(tasks: seq<Market.Task>, status: string)
    ensures CountOf(tasks, status) == |WithStatus(tasks, status)|
  {
    if tasks != [] {
      CountIsFilteredLength(tasks[1..], status);
    }
  }

  /** The pending and completed counts never add up to more than the whole list. */
  lemma {:induction false} CountsBounded(tasks: seq<Market.Task>)
    ensures CountOf(tasks, Market.Pending) + CountOf(tasks, Market.Completed) <= |tasks|
  {
    if tasks != [] {
      CountsBounded(tasks[1..]);
    }
  }

  /** The text of the empty state for a filter. */
  function EmptyMessage(activeFilter: string): (m: string)
    ensures activeFilter == All ==> m == "You have no tasks yet"
    ensures activeFilter == Market.Pending ==> m == "No pending tasks"
    ensures activeFilter != All && activeFilter != Market.Pending ==> m == "No completed tasks"
  {
    if activeFilter == All then "You have no tasks yet"
    else if activeFilter == Market.Pending then "No pending tasks"
    else "No completed tasks"
  }

  /** The link to create a first task appears in the empty state only for `all`,
      that is only when the requester has no tasks at all. */
  predicate ShowsCreateLink(activeFilter: string) {
    activeFilter == All
  }

  lemma CreateLinkOnlyWithoutTasks(tasks: seq<Market.Task>, activeFilter: string)
    requires |FilterTasks(tasks, activeFilter)| == 0 && ShowsCreateLink(activeFilter)
    ensures tasks == []
  {
  }
}
