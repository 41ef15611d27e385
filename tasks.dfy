/** The task store of src/stores/tasks.js: the in-memory task list with its
    `loading` and `error` flags, the four derived views, and the five actions
    that talk to the REST endpoint. Each awaited request is an input `Reply`,
    so an action is one deterministic transition of the store. */
module TaskStore {
  import opened Js
  import opened Seqs
  import opened Dates

  /** `task.completed`, read for truthiness. */
  predicate IsCompleted(t: Record) {
    Truthy(Get(t, "completed"))
  }

  /** `new Date(task.dueDate)` */
  function DueTime(t: Record): Option<int> {
    ToTime(Get(t, "dueDate"))
  }

  /** `new Date(task.completedAt)` */
  function CompletionTime(t: Record): Option<int> {
    ToTime(Get(t, "completedAt"))
  }

  /** The filter of `upcomingTasks`. */
  function DueSoon(now: int): Record -> bool {
    t => !IsCompleted(t) && IsWithinNextWeek(Get(t, "dueDate"), now)
  }

  /** The filter of `overdueTasks`. */
  function PastDue(now: int): Record -> bool {
    t => !IsCompleted(t) && IsOverdue(Get(t, "dueDate"), now)
  }

  /** `t.id === id` */
  function HasId(id: Value): Record -> bool {
    t => Get(t, "id") == id
  }

  /** `task.id !== id` */
  function LacksId(id: Value): Record -> bool {
    t => Get(t, "id") != id
  }

  /** `upcomingTasks`: exactly the pending tasks due within the next week, in
      ascending order of due date. */
  function UpcomingTasks(tasks: seq<Record>, now: int): (r: seq<Record>)
    ensures multiset(r) == multiset(Filter(tasks, DueSoon(now)))
    ensures forall t :: t in r <==> t in tasks && !IsCompleted(t) && IsWithinNextWeek(Get(t, "dueDate"), now)
    ensures Sorted(r, DueTime, false)
  {
    FilterKeyed(tasks, DueSoon(now), DueTime);
    SortBySorted(Filter(tasks, DueSoon(now)), DueTime, false);
    SelectionMembers(tasks, DueSoon(now), DueTime, false);
    SortBy(Filter(tasks, DueSoon(now)), DueTime, false)
  }

  /** `overdueTasks`: exactly the pending tasks due strictly before `now`, in
      descending order of due date. */
  function OverdueTasks(tasks: seq<Record>, now: int): (r: seq<Record>)
    ensures multiset(r) == multiset(Filter(tasks, PastDue(now)))
    ensures forall t :: t in r <==> t in tasks && !IsCompleted(t) && IsOverdue(Get(t, "dueDate"), now)
    ensures Sorted(r, DueTime, true)
  {
    FilterKeyed(tasks, PastDue(now), DueTime);
    SortBySorted(Filter(tasks, PastDue(now)), DueTime, true);
    SelectionMembers(tasks, PastDue(now), DueTime, true);
    SortBy(Filter(tasks, PastDue(now)), DueTime, true)
  }

  /** `completedTasks`: exactly the completed tasks, in descending order of
      completion time whenever every one of them has a parsable `completedAt`. */
  function CompletedTasks(tasks: seq<Record>): (r: seq<Record>)
    ensures multiset(r) == multiset(Filter(tasks, IsCompleted))
    ensures forall t :: t in r <==> t in tasks && IsCompleted(t)
    ensures Keyed(Filter(tasks, IsCompleted), CompletionTime) ==> Sorted(r, CompletionTime, true)
  {
    SelectionMembers(tasks, IsCompleted, CompletionTime, true);
    if Keyed(Filter(tasks, IsCompleted), CompletionTime) then
      SortBySorted(Filter(tasks, IsCompleted), CompletionTime, true);
      SortBy(Filter(tasks, IsCompleted), CompletionTime, true)
    else
      SortBy(Filter(tasks, IsCompleted), CompletionTime, true)
  }

  /** A sorted selection holds exactly the selected tasks. */
  lemma SelectionMembers(s: seq<Record>, p: Record -> bool, key: Record -> Option<int>, descending: bool)
    ensures forall t :: t in SortBy(Filter(s, p), key, descending) <==> t in s && p(t)
  {
    var f := Filter(s, p);
    var r := SortBy(f, key, descending);
    FilterMembership(s, p);
    forall t ensures t in r <==> t in f {
      assert t in r <==> t in multiset(r);
      assert t in f <==> t in multiset(f);
    }
  }

  /** Selecting only tasks that have a key leaves a keyed sequence. */
  lemma FilterKeyed(s: seq<Record>, p: Record -> bool, key: Record -> Option<int>)
    requires forall t :: p(t) ==> key(t).Some?
    ensures Keyed(Filter(s, p), key)
  {
  }

  /** `getTasksByCategory(category)`: the tasks of that category, in store order. */
  function TasksByCategory(tasks: seq<Record>, category: Value): (r: seq<Record>)
    ensures forall t :: t in r <==> t in tasks && Get(t, "category") == category
  {
    FilterMembership(tasks, t => Get(t, "category") == category);
    Filter(tasks, t => Get(t, "category") == category)
  }

  /** Membership in a filter, element-wise. */
  lemma FilterMembership(s: seq<Record>, p: Record -> bool)
    ensures forall t :: t in Filter(s, p) <==> t in s && p(t)
  {
    var r := Filter(s, p);
    forall t | t in r ensures t in s && p(t) {
      var i :| 0 <= i < |r| && r[i] == t;
    }
    forall t | t in s && p(t) ensures t in r {
      var i :| 0 <= i < |s| && s[i] == t;
    }
  }

  /** Because a date before `now` is also before `now + 7 days`, every overdue
      task is also an upcoming one. */
  lemma {:induction false} OverdueAreUpcoming(tasks: seq<Record>, now: int)
    ensures multiset(OverdueTasks(tasks, now)) <= multiset(UpcomingTasks(tasks, now))
  {
    FilterMonotone(tasks, PastDue(now), DueSoon(now));
  }

  /** The category view keeps store order: it distributes over concatenation. */
  lemma {:induction false} CategoryKeepsOrder(a: seq<Record>, b: seq<Record>, category: Value)
    ensures TasksByCategory(a + b, category) == TasksByCategory(a, category) + TasksByCategory(b, category)
  {
    FilterAppend(a, b, t => Get(t, "category") == category);
  }

  /** The body `addTask` posts: the caller's fields, with `createdAt` set to
      now and `completed` set to false whatever the caller supplied. */
  function AddPayload(task: Record, now: int): (p: Record)
    ensures Get(p, "completed") == Bool(false) && Get(p, "createdAt") == DateText(now)
    ensures forall k :: k != "completed" && k != "createdAt" ==> Get(p, k) == Get(task, k)
  {
    task + map["createdAt" := DateText(now), "completed" := Bool(false)]
  }

  /** The body `updateTask` puts: the caller's updates, stamped with `updatedAt`. */
  function UpdatePayload(updates: Record, now: int): (p: Record)
    ensures Get(p, "updatedAt") == DateText(now)
    ensures forall k :: k != "updatedAt" ==> Get(p, k) == Get(updates, k)
  {
    updates + map["updatedAt" := DateText(now)]
  }

  /** The body `toggleTask` puts: the stored task with `completed` flipped,
      `completedAt` set exactly when the new value is completed, and `updatedAt`. */
  function TogglePayload(t: Record, now: int): (p: Record)
    ensures IsCompleted(p) == !IsCompleted(t)
    ensures Get(p, "completedAt") != Null <==> IsCompleted(p)
    ensures IsCompleted(p) ==> CompletionTime(p) == Some(now)
    ensures Get(p, "updatedAt") == DateText(now)
    ensures forall k :: k != "completed" && k != "completedAt" && k != "updatedAt" ==> Get(p, k) == Get(t, k)
  {
    t + map[
      "completed" := Bool(!IsCompleted(t)),
      "completedAt" := (if !IsCompleted(t) then DateText(now) else Null),
      "updatedAt" := DateText(now)]
  }

  /** Toggling a pending task twice (the server echoing each body) leaves it
      pending with a null `completedAt`. */
  lemma ToggleTwice(t: Record, first: int, second: int)
    requires !IsCompleted(t)
    ensures var p := TogglePayload(TogglePayload(t, first), second);
      Get(p, "completed") == Bool(false) && Get(p, "completedAt") == Null
  {
  }

  /** `tasks[tasks.findIndex(t => t.id === id)] = r` when some index matches:
      only the first task with that id is replaced. */
  function ReplaceFirstWithId(s: seq<Record>, id: Value, r: Record): (u: seq<Record>)
    ensures |u| == |s|
    ensures (forall j :: 0 <= j < |s| ==> Get(s[j], "id") != id) ==> u == s
    ensures forall j :: 0 <= j < |s| && Get(s[j], "id") == id && (forall k :: 0 <= k < j ==> Get(s[k], "id") != id) ==> u == s[j := r]
  {
    var i := FindIndex(s, HasId(id));
    if i == -1 then s else s[i := r]
  }

  /** `tasks.filter(task => task.id !== id)` removes every task with that id
      and nothing else: with no task of that id it is the identity. */
  lemma RemoveId(s: seq<Record>, id: Value)
    ensures forall t :: t in Filter(s, LacksId(id)) <==> t in s && Get(t, "id") != id
    ensures (forall j :: 0 <= j < |s| ==> Get(s[j], "id") != id) ==> Filter(s, LacksId(id)) == s
  {
    FilterMembership(s, LacksId(id));
    if forall j :: 0 <= j < |s| ==> Get(s[j], "id") != id {
      FilterKeepsAll(s, LacksId(id));
    }
  }

  /** The store. `categories` and `priorities` are constants imported from a
      constants module that is not part of this model. */
  class Store {
    var tasks: seq<Record>
    var loading: bool
    var error: Option<string>

    constructor ()
      ensures tasks == [] && !loading && error == None
    {
      tasks := [];
      loading := false;
      error := None;
    }

    /** `fetchTasks()`: replaces the whole list with the server's. */
    method FetchTasks(reply: Reply<seq<Record>>)
      modifies this
      ensures !loading
      ensures reply.Answered? ==> tasks == reply.body && error == None
      ensures !reply.Answered? ==> tasks == old(tasks) && error == Some(FailureMessage(reply, "Failed to fetch tasks"))
    {
      loading := true;
      error := None;
      match reply {
        case Answered(body) =>
          tasks := body;
        case _ =>
          error := Some(FailureMessage(reply, "Failed to fetch tasks"));
      }
      loading := false;
    }

    /** `addTask(task)`: posts `AddPayload(task, now)` and appends the record
      the server returns. */
    method AddTask(task: Record, now: int, reply: Reply<Record>) returns (ok: bool, sent: Record)
      modifies this
      ensures sent == AddPayload(task, now)
      ensures ok <==> reply.Answered?
      ensures !loading
      ensures ok ==> tasks == old(tasks) + [reply.body] && error == None
      ensures !ok ==> tasks == old(tasks) && error == Some(FailureMessage(reply, "Failed to add task"))
    {
      loading := true;
      error := None;
      sent := AddPayload(task, now);
      match reply {
        case Answered(created) =>
          tasks := tasks + [created];
          ok := true;
        case _ =>
          error := Some(FailureMessage(reply, "Failed to add task"));
          ok := false;
      }
      loading := false;
    }

    /** `updateTask(id, updates)`: puts `UpdatePayload(updates, now)` and puts the
      returned record in place of the first task with that id; succeeds even
      when no task has it. */
    method UpdateTask(taskId: Value, updates: Record, now: int, reply: Reply<Record>) returns (ok: bool, sent: Record)
      modifies this
      ensures sent == UpdatePayload(updates, now)
      ensures ok <==> reply.Answered?
      ensures !loading
      ensures ok ==> tasks == ReplaceFirstWithId(old(tasks), taskId, reply.body) && error == None
      ensures !ok ==> tasks == old(tasks) && error == Some(FailureMessage(reply, "Failed to update task"))
    {
      loading := true;
      error := None;
      sent := UpdatePayload(updates, now);
      match reply {
        case Answered(updated) =>
          var index := FindIndex(tasks, HasId(taskId));
          if index != -1 {
            tasks := tasks[index := updated];
          }
          ok := true;
        case _ =>
          error := Some(FailureMessage(reply, "Failed to update task"));
          ok := false;
      }
      loading := false;
    }

    /** `toggleTask(id)`: for a task in the store, puts `TogglePayload` of it and
      stores the returned record; for an absent id, sends nothing and fails
      with "Task not found". It never touches `loading`. */
    method ToggleTask(taskId: Value, now: int, reply: Reply<Record>) returns (ok: bool, sent: Option<Record>)
      modifies this`tasks, this`error
      ensures loading == old(loading)
      ensures FindIndex(old(tasks), HasId(taskId)) == -1 ==>
        !ok && sent == None && tasks == old(tasks) && error == Some("Task not found")
      ensures FindIndex(old(tasks), HasId(taskId)) != -1 ==>
        sent == Some(TogglePayload(old(tasks)[FindIndex(old(tasks), HasId(taskId))], now)) && (ok <==> reply.Answered?)
      ensures FindIndex(old(tasks), HasId(taskId)) != -1 && reply.Answered? ==>
        tasks == old(tasks)[FindIndex(old(tasks), HasId(taskId)) := reply.body] && error == None
      ensures FindIndex(old(tasks), HasId(taskId)) != -1 && !reply.Answered? ==>
        tasks == old(tasks) && error == Some(FailureMessage(reply, "Failed to toggle task"))
    {
      error := None;
      var found := FindIndex(tasks, HasId(taskId));
      if found == -1 {
        error := Some("Task not found");
        return false, None;
      }
      sent := Some(TogglePayload(tasks[found], now));
      match reply {
        case Answered(updated) =>
          var index := FindIndex(tasks, HasId(taskId));
          if index != -1 {
            tasks := tasks[index := updated];
          }
          ok := true;
        case _ =>
          error := Some(FailureMessage(reply, "Failed to toggle task"));
          ok := false;
      }
    }

    /** `deleteTask(id)`: raises on a falsy id before touching anything;
      otherwise deletes and, once the server confirms, drops every task with
      that id. */
    method DeleteTask(taskId: Value, reply: Reply<()>) returns (outcome: Outcome)
      modifies this
      ensures !Truthy(taskId) ==>
        outcome == Raised("Task ID is required") && tasks == old(tasks) && loading == old(loading) && error == old(error)
      ensures Truthy(taskId) ==> !loading && outcome == Returned(reply.Answered?)
      ensures Truthy(taskId) && reply.Answered? ==> tasks == Filter(old(tasks), LacksId(taskId)) && error == None
      ensures Truthy(taskId) && !reply.Answered? ==>
        tasks == old(tasks) && error == Some(FailureMessage(reply, "Failed to delete task"))
    {
      if !Truthy(taskId) {
        return Raised("Task ID is required");
      }
      loading := true;
      error := None;
      match reply {
        case Answered(_) =>
          tasks := Filter(tasks, LacksId(taskId));
          outcome := Returned(true);
        case _ =>
          error := Some(FailureMessage(reply, "Failed to delete task"));
          outcome := Returned(false);
      }
      loading := false;
    }
  }
}
