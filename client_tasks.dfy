/** The tasks store of the client application: a list of tasks mirrored
    from the server, kept up to date by API responses and socket events.
    Tasks have the server's shape (`TaskEntity.Task`). */
module ClientTasks {
  import opened Base
  import opened Seqs
  import opened Text
  import opened TaskEntity

  // ---------------------------------------------------------------------
  // Getters

  /** The tasks whose status has wire value `s`, in their original order. */
  function WithStatusValue(tasks: seq<Task>, s: TaskStatus): seq<Task> {
    Filter(tasks, (t: Task) => StatusValue(t.status) == StatusValue(s))
  }

  function OpenTasks(tasks: seq<Task>): seq<Task> { WithStatusValue(tasks, Open) }
  function InProgressTasks(tasks: seq<Task>): seq<Task> { WithStatusValue(tasks, InProgress) }
  function CompletedTasks(tasks: seq<Task>): seq<Task> { WithStatusValue(tasks, Completed) }

  /** Each status getter holds exactly the tasks with that status, as a
      subsequence of the list. */
  lemma StatusGetterExact(tasks: seq<Task>, s: TaskStatus, t: Task)
    ensures multiset(WithStatusValue(tasks, s))[t] == if t.status == s then multiset(tasks)[t] else 0
    ensures Embeds(WithStatusValue(tasks, s), tasks)
  {
    StatusValueInjective(t.status, s);
    FilterMultiset(tasks, (t: Task) => StatusValue(t.status) == StatusValue(s), t);
    FilterEmbeds(tasks, (t: Task) => StatusValue(t.status) == StatusValue(s));
  }

  /** The three status getters split the list: together they hold every
      task exactly once. */
  lemma StatusPartition(tasks: seq<Task>)
    ensures multiset(OpenTasks(tasks)) + multiset(InProgressTasks(tasks)) + multiset(CompletedTasks(tasks))
            == multiset(tasks)
    ensures |OpenTasks(tasks)| + |InProgressTasks(tasks)| + |CompletedTasks(tasks)| == |tasks|
  {
    var m := multiset(OpenTasks(tasks)) + multiset(InProgressTasks(tasks)) + multiset(CompletedTasks(tasks));
    forall t ensures m[t] == multiset(tasks)[t] {
      StatusGetterExact(tasks, Open, t);
      StatusGetterExact(tasks, InProgress, t);
      StatusGetterExact(tasks, Completed, t);
    }
    assert m == multiset(tasks);
    assert |m| == |tasks|;
  }

  /** The current user id: `parseInt(localStorage.getItem('userId') || '0')`,
      with `None` for NaN. `stored` is the stored item, if any. */
  function CurrentUserId(stored: Option<string>): Option<int> {
    ParseInt(if stored.None? || stored.value == "" then "0" else stored.value)
  }

  /** Nothing stored, or an empty item, means user 0; a stored decimal id
      reads back as that id. */
  lemma CurrentUserIdDefaults(n: int)
    ensures CurrentUserId(None) == Some(0) && CurrentUserId(Some("")) == Some(0)
    ensures CurrentUserId(Some(IntToString(n))) == Some(n)
  {
    ParseIntRoundTrip(0);
    assert IntToString(0) == "0";
    ParseIntRoundTrip(n);
    assert IntToString(n) != [];
  }

  function MyCreatedTasks(tasks: seq<Task>, stored: Option<string>): seq<Task> {
    var uid := CurrentUserId(stored);
    Filter(tasks, (t: Task) => uid.Some? && t.creatorId == uid.value)
  }

  function MyAssignedTasks(tasks: seq<Task>, stored: Option<string>): seq<Task> {
    var uid := CurrentUserId(stored);
    Filter(tasks, (t: Task) => uid.Some? && t.assigneeId == Some(uid.value))
  }

  /** `myCreatedTasks` and `myAssignedTasks` hold exactly the tasks created
      by, or assigned to, the current user (none when the stored id is not
      a number), each as often as in the list. */
  lemma MyTasksExact(tasks: seq<Task>, stored: Option<string>, t: Task)
    ensures var uid := CurrentUserId(stored);
      && multiset(MyCreatedTasks(tasks, stored))[t]
         == (if uid.Some? && t.creatorId == uid.value then multiset(tasks)[t] else 0)
      && multiset(MyAssignedTasks(tasks, stored))[t]
         == (if uid.Some? && t.assigneeId == Some(uid.value) then multiset(tasks)[t] else 0)
  {
    var uid := CurrentUserId(stored);
    FilterMultiset(tasks, (t: Task) => uid.Some? && t.creatorId == uid.value, t);
    FilterMultiset(tasks, (t: Task) => uid.Some? && t.assigneeId == Some(uid.value), t);
  }

  // ---------------------------------------------------------------------
  // List updates

  /** Replace the first task with that id by `t`: the length and every
      other position are kept, and nothing changes when no task has the
      id. Replacing by the new task's own id keeps ids unique. */
  function ReplaceById(tasks: seq<Task>, id: int, t: Task): (r: seq<Task>)
    ensures |r| == |tasks|
    ensures (forall j :: 0 <= j < |tasks| ==> tasks[j].id != id) ==> r == tasks
    ensures forall j :: 0 <= j < |tasks| ==> r[j] == (if j == IndexBy(tasks, TaskId, id) then t else tasks[j])
    ensures DistinctBy(tasks, TaskId) && t.id == id ==> DistinctBy(r, TaskId)
  {
    var i := IndexBy(tasks, TaskId, id);
    if i == -1 then tasks else tasks[i := t]
  }

  /** The key `findIndex` and the id checks compare. */
  function TaskId(t: Task): int { t.id }

  /** `addTask`: append unless a task with that id is already there. */
  function WithTask(tasks: seq<Task>, t: Task): seq<Task> {
    if Any(tasks, (x: Task) => x.id == t.id) then tasks else tasks + [t]
  }

  /** `addTask` keeps ids unique, is idempotent, and afterwards a task with
      that id is present; it appends exactly when the id was new. */
  lemma WithTaskSpec(tasks: seq<Task>, t: Task)
    ensures var r := WithTask(tasks, t);
      && (DistinctBy(tasks, TaskId) ==> DistinctBy(r, TaskId))
      && WithTask(r, t) == r
      && IndexBy(r, TaskId, t.id) != -1
      && (r == tasks + [t] <==> IndexBy(tasks, TaskId, t.id) == -1)
      && (r == tasks <==> IndexBy(tasks, TaskId, t.id) != -1)
  {
    var r := WithTask(tasks, t);
    if IndexBy(tasks, TaskId, t.id) == -1 {
      assert r[|tasks|] == t;
      assert forall j :: 0 <= j < |tasks| ==> r[j] == tasks[j];
      assert Any(r, (x: Task) => x.id == t.id);
    } else {
      var i := IndexBy(tasks, TaskId, t.id);
      assert tasks[i].id == t.id;
    }
  }

  // ---------------------------------------------------------------------
  // The store

  /** What an API action returns: `{ success: true, task }` or
      `{ success: false, message }`. */
  datatype ActionResult = Success(task: Task) | Failure(message: string)

  class TasksStore {
    var tasks: seq<Task>
    var loading: bool
    var error: Option<string>

    constructor ()
      ensures tasks == [] && !loading && error == None
    {
      tasks := [];
      loading := false;
      error := None;
    }

    /** `createTask`: `response` is the task the server returned, or `None`
        when the request failed. */
    method CreateTask(response: Option<Task>) returns (r: ActionResult)
      modifies this
      ensures response.Some? ==> tasks == old(tasks) + [response.value] && r == Success(response.value) && error == None
      ensures response.None? ==>
        tasks == old(tasks) && r == Failure("Failed to create task") && error == Some("Failed to create task")
      ensures !loading
    {
      loading := true;
      error := None;
      if response.Some? {
        tasks := tasks + [response.value];
        r := Success(response.value);
      } else {
        error := Some("Failed to create task");
        r := Failure("Failed to create task");
      }
      loading := false;
    }

    /** The shared body of `updateTask` and `updateTaskStatus`. */
    method Replace(id: int, response: Option<Task>, message: string) returns (r: ActionResult)
      modifies this
      ensures response.Some? ==>
        tasks == ReplaceById(old(tasks), id, response.value) && r == Success(response.value) && error == None
      ensures response.None? ==> tasks == old(tasks) && r == Failure(message) && error == Some(message)
      ensures !loading
    {
      loading := true;
      error := None;
      if response.Some? {
        var i := IndexBy(tasks, TaskId, id);
        if i != -1 {
          tasks := tasks[i := response.value];
        }
        r := Success(response.value);
      } else {
        error := Some(message);
        r := Failure(message);
      }
      loading := false;
    }

    /** `updateTask`: the entry matching the `id` argument is replaced by the
        server's answer. */
    method UpdateTask(id: int, response: Option<Task>) returns (r: ActionResult)
      modifies this
      ensures response.Some? ==>
        tasks == ReplaceById(old(tasks), id, response.value) && r == Success(response.value) && error == None
      ensures response.None? ==>
        tasks == old(tasks) && r == Failure("Failed to update task") && error == Some("Failed to update task")
      ensures !loading
    {
      r := Replace(id, response, "Failed to update task");
    }

    /** `updateTaskStatus`. */
    method UpdateTaskStatus(id: int, response: Option<Task>) returns (r: ActionResult)
      modifies this
      ensures response.Some? ==>
        tasks == ReplaceById(old(tasks), id, response.value) && r == Success(response.value) && error == None
      ensures response.None? ==>
        tasks == old(tasks) && r == Failure("Failed to update task status")
        && error == Some("Failed to update task status")
      ensures !loading
    {
      r := Replace(id, response, "Failed to update task status");
    }

    /** `addTask`, run for a `task:created` event. */
    method AddTask(t: Task)
      modifies this
      ensures tasks == WithTask(old(tasks), t)
      ensures loading == old(loading) && error == old(error)
    {
      if !Any(tasks, (x: Task) => x.id == t.id) {
        tasks := tasks + [t];
      }
    }

    /** `updateTaskFromSocket`, run for a `task:updated` event. */
    method UpdateTaskFromSocket(t: Task)
      modifies this
      ensures tasks == ReplaceById(old(tasks), t.id, t)
      ensures loading == old(loading) && error == old(error)
    {
      var i := IndexBy(tasks, TaskId, t.id);
      if i != -1 {
        tasks := tasks[i := t];
      }
    }
  }

  /** `createTask` pushes the server's answer without the id check that
      `addTask` makes: when the `task:created` event for the same task is
      handled first, the list holds it twice. */
  lemma CreateAfterEventDuplicates(tasks: seq<Task>, t: Task)
    requires IndexBy(tasks, TaskId, t.id) == -1
    ensures var r := WithTask(tasks, t) + [t];
      |r| == |tasks| + 2 && r[|tasks|] == r[|tasks| + 1] == t && !DistinctBy(r, TaskId)
  {
    WithTaskSpec(tasks, t);
  }
}
