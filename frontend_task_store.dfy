/** The task store of the `frontend` application: an in-memory list of
    tasks with filters, a sort order, summary counts and the create,
    update, delete and comment actions. */
module FrontendTasks {
  import opened Base
  import opened Seqs
  import opened Text
  import opened Sorting

  datatype Priority = Low | Medium | High

  function PriorityName(p: Priority): string {
    match p
    case Low => "low"
    case Medium => "medium"
    case High => "high"
  }

  datatype User = User(id: int, name: string, avatar: Option<string>)

  datatype Comment = Comment(id: int, user: User, text: string, timestamp: string)

  /** A task as this application holds it. `status` is free text: the
      actions store whatever string the form supplies. */
  datatype Task = Task(
    id: int,
    title: string,
    description: string,
    status: string,
    priority: Priority,
    dueDate: string,
    assignee: User,
    createdBy: User,
    createdAt: string,
    updatedAt: Option<string>,
    tags: seq<string>,
    comments: seq<Comment>)

  /** The task form; `assigneeId` is `null` when no assignee was chosen. */
  datatype TaskFormData = TaskFormData(
    title: string,
    description: string,
    status: string,
    priority: Priority,
    dueDate: string,
    assigneeId: Option<int>,
    tags: seq<string>)

  datatype TaskFilters = TaskFilters(status: string, priority: string, searchQuery: string)

  /** A `Partial<TaskFilters>`. */
  datatype FiltersPatch = FiltersPatch(status: Option<string>, priority: Option<string>, searchQuery: Option<string>)

  /** The filter value that lets every status or priority through. */
  const ALL: string := "all"

  const INITIAL_FILTERS: TaskFilters := TaskFilters(ALL, ALL, "")

  /** The user every new task and comment is attributed to. */
  const JOHN_DOE: User := User(1, "John Doe", Some("https://randomuser.me/api/portraits/men/1.jpg"))

  /** The users an update may assign a task to. */
  const MOCK_USERS: seq<User> := [
    JOHN_DOE,
    User(2, "Jane Smith", Some("https://randomuser.me/api/portraits/women/2.jpg")),
    User(3, "Robert Johnson", Some("https://randomuser.me/api/portraits/men/3.jpg")),
    User(4, "Emily Brown", Some("https://randomuser.me/api/portraits/women/4.jpg"))
  ]

  // ---------------------------------------------------------------------
  // Getters

  /** The search: the lower-cased query occurs in the lower-cased title,
      description or one of the tags. */
  predicate MatchesQuery(t: Task, query: string) {
    Includes(Lower(t.title), query) || Includes(Lower(t.description), query)
    || Any(t.tags, (tag: string) => Includes(Lower(tag), query))
  }

  /** A task passes every active filter. */
  predicate Passes(t: Task, f: TaskFilters) {
    && (f.searchQuery == "" || MatchesQuery(t, Lower(f.searchQuery)))
    && (f.status == ALL || t.status == f.status)
    && (f.priority == ALL || PriorityName(t.priority) == f.priority)
  }

  /** The three filters of `filteredTasks`, applied one after the other. */
  function Selected(tasks: seq<Task>, f: TaskFilters): seq<Task> {
    var q := Lower(f.searchQuery);
    var byQuery := if f.searchQuery != "" then Filter(tasks, (t: Task) => MatchesQuery(t, q)) else tasks;
    var byStatus := if f.status != ALL then Filter(byQuery, (t: Task) => t.status == f.status) else byQuery;
    if f.priority != ALL then Filter(byStatus, (t: Task) => PriorityName(t.priority) == f.priority) else byStatus
  }

  /** The sort weight of a priority. */
  function Weight(p: Priority): int {
    match p
    case High => 3
    case Medium => 2
    case Low => 1
  }

  /** The comparison for one sort field before the direction is applied.
      `dueTime` stands for `new Date(d).getTime()`. An unknown field
      compares everything as equal. */
  function Compare(a: Task, b: Task, sortBy: string, dueTime: string -> int): int {
    if sortBy == "dueDate" then dueTime(a.dueDate) - dueTime(b.dueDate)
    else if sortBy == "priority" then Weight(a.priority) - Weight(b.priority)
    else if sortBy == "title" then LocaleCompare(a.title, b.title)
    else if sortBy == "status" then LocaleCompare(a.status, b.status)
    else 0
  }

  /** The comparator handed to `sort`, negated when sorting descending. */
  function Comparator(sortBy: string, desc: bool, dueTime: string -> int): (Task, Task) -> int {
    (a: Task, b: Task) => if desc then -Compare(a, b, sortBy, dueTime) else Compare(a, b, sortBy, dueTime)
  }

  /** `filteredTasks`. */
  function FilteredTasks(tasks: seq<Task>, f: TaskFilters, sortBy: string, desc: bool,
                         dueTime: string -> int): seq<Task> {
    Sort(Selected(tasks, f), Comparator(sortBy, desc, dueTime))
  }

  lemma CompareAntisymmetric(a: Task, b: Task, sortBy: string, dueTime: string -> int)
    ensures Compare(b, a, sortBy, dueTime) == -Compare(a, b, sortBy, dueTime)
  {
    LocaleCompareAntisymmetric(a.title, b.title);
    LocaleCompareAntisymmetric(a.status, b.status);
  }

  lemma CompareTransitive(a: Task, b: Task, c: Task, sortBy: string, dueTime: string -> int)
    requires Compare(a, b, sortBy, dueTime) <= 0 && Compare(b, c, sortBy, dueTime) <= 0
    ensures Compare(a, c, sortBy, dueTime) <= 0
  {
    if sortBy == "title" {
      LocaleCompareTransitive(a.title, b.title, c.title);
    } else if sortBy == "status" {
      LocaleCompareTransitive(a.status, b.status, c.status);
    }
  }

  /** Every sort field, in either direction, orders tasks consistently, so
      the sorted result is well defined. */
  lemma ComparatorConsistent(sortBy: string, desc: bool, dueTime: string -> int)
    ensures Consistent(Comparator(sortBy, desc, dueTime))
  {
    var cmp := Comparator(sortBy, desc, dueTime);
    forall a, b ensures cmp(a, b) <= 0 || cmp(b, a) <= 0 {
      CompareAntisymmetric(a, b, sortBy, dueTime);
    }
    forall a, b, c | cmp(a, b) <= 0 && cmp(b, c) <= 0 ensures cmp(a, c) <= 0 {
      if desc {
        CompareAntisymmetric(a, b, sortBy, dueTime);
        CompareAntisymmetric(b, c, sortBy, dueTime);
        CompareAntisymmetric(a, c, sortBy, dueTime);
        CompareTransitive(c, b, a, sortBy, dueTime);
      } else {
        CompareTransitive(a, b, c, sortBy, dueTime);
      }
    }
  }

  lemma {:induction false} SelectedExact(tasks: seq<Task>, f: TaskFilters, t: Task)
    ensures multiset(Selected(tasks, f))[t] == if Passes(t, f) then multiset(tasks)[t] else 0
  {
    var q := Lower(f.searchQuery);
    var byQuery := if f.searchQuery != "" then Filter(tasks, (t: Task) => MatchesQuery(t, q)) else tasks;
    var byStatus := if f.status != ALL then Filter(byQuery, (t: Task) => t.status == f.status) else byQuery;
    if f.searchQuery != "" { FilterMultiset(tasks, (t: Task) => MatchesQuery(t, q), t); }
    if f.status != ALL { FilterMultiset(byQuery, (t: Task) => t.status == f.status, t); }
    if f.priority != ALL { FilterMultiset(byStatus, (t: Task) => PriorityName(t.priority) == f.priority, t); }
  }

  /** `filteredTasks` is a permutation of exactly the tasks that pass every
      active filter, sorted by the chosen comparator: nothing is invented,
      dropped or duplicated. */
  lemma FilteredTasksExact(tasks: seq<Task>, f: TaskFilters, sortBy: string, desc: bool, dueTime: string -> int)
    ensures var r := FilteredTasks(tasks, f, sortBy, desc, dueTime);
      && (forall t :: multiset(r)[t] == if Passes(t, f) then multiset(tasks)[t] else 0)
      && SortedBy(r, Comparator(sortBy, desc, dueTime))
  {
    ComparatorConsistent(sortBy, desc, dueTime);
    SortSorted(Selected(tasks, f), Comparator(sortBy, desc, dueTime));
    forall t ensures multiset(FilteredTasks(tasks, f, sortBy, desc, dueTime))[t]
                     == if Passes(t, f) then multiset(tasks)[t] else 0 {
      SelectedExact(tasks, f, t);
    }
  }

  /** Every result passes each active filter: the status and priority
      match, and the query occurs case-insensitively in the title, the
      description or a tag. */
  lemma FilteredTasksPass(tasks: seq<Task>, f: TaskFilters, sortBy: string, desc: bool, dueTime: string -> int)
    ensures var r := FilteredTasks(tasks, f, sortBy, desc, dueTime);
      forall i :: 0 <= i < |r| ==>
        && r[i] in tasks
        && (f.status != ALL ==> r[i].status == f.status)
        && (f.priority != ALL ==> PriorityName(r[i].priority) == f.priority)
        && (f.searchQuery != "" ==> MatchesQuery(r[i], Lower(f.searchQuery)))
  {
    var r := FilteredTasks(tasks, f, sortBy, desc, dueTime);
    forall i | 0 <= i < |r| ensures r[i] in tasks && Passes(r[i], f) {
      SelectedMember(tasks, f, sortBy, desc, dueTime, r[i]);
    }
  }

  lemma SelectedMember(tasks: seq<Task>, f: TaskFilters, sortBy: string, desc: bool, dueTime: string -> int, t: Task)
    requires t in FilteredTasks(tasks, f, sortBy, desc, dueTime)
    ensures t in tasks && Passes(t, f)
  {
    assert multiset(Selected(tasks, f))[t] > 0;
    SelectedExact(tasks, f, t);
    assert multiset(tasks)[t] > 0;
  }

  /** The priority comparison is the difference of the weights. */
  lemma ComparePriority(a: Task, b: Task, desc: bool, dueTime: string -> int)
    ensures Comparator("priority", desc, dueTime)(a, b)
            == if desc then Weight(b.priority) - Weight(a.priority) else Weight(a.priority) - Weight(b.priority)
  {
    assert "priority" != "dueDate" by { assert "priority"[0] != "dueDate"[0]; }
  }

  /** Sorted by priority, weights never decrease (high 3, medium 2, low 1),
      or never increase when sorting descending. */
  lemma FilteredTasksByPriority(tasks: seq<Task>, f: TaskFilters, desc: bool, dueTime: string -> int)
    ensures var r := FilteredTasks(tasks, f, "priority", desc, dueTime);
      forall i, j :: 0 <= i < j < |r| ==>
        if desc then Weight(r[i].priority) >= Weight(r[j].priority)
        else Weight(r[i].priority) <= Weight(r[j].priority)
  {
    var r := FilteredTasks(tasks, f, "priority", desc, dueTime);
    var cmp := Comparator("priority", desc, dueTime);
    FilteredTasksExact(tasks, f, "priority", desc, dueTime);
    forall i, j | 0 <= i < j < |r|
      ensures if desc then Weight(r[i].priority) >= Weight(r[j].priority)
              else Weight(r[i].priority) <= Weight(r[j].priority) {
      assert cmp(r[i], r[j]) <= 0;
      ComparePriority(r[i], r[j], desc, dueTime);
    }
  }

  lemma {:induction false} SortEqualKeeps(s: seq<Task>, cmp: (Task, Task) -> int)
    requires forall a, b :: cmp(a, b) == 0
    ensures Sort(s, cmp) == s
  {
    if s != [] {
      SortEqualKeeps(s[1..], cmp);
      assert Sort(s[1..], cmp) == s[1..];
      if s[1..] != [] { assert cmp(s[0], s[1..][0]) == 0; }
      assert [s[0]] + s[1..] == s;
    }
  }

  /** With an unknown sort field the filtered tasks keep their order. */
  lemma FilteredTasksUnknownField(tasks: seq<Task>, f: TaskFilters, sortBy: string, desc: bool, dueTime: string -> int)
    requires sortBy != "dueDate" && sortBy != "priority" && sortBy != "title" && sortBy != "status"
    ensures FilteredTasks(tasks, f, sortBy, desc, dueTime) == Selected(tasks, f)
    ensures Embeds(FilteredTasks(tasks, f, sortBy, desc, dueTime), tasks)
  {
    SortEqualKeeps(Selected(tasks, f), Comparator(sortBy, desc, dueTime));
    SelectedEmbeds(tasks, f);
  }

  /** The filters keep the list order. */
  lemma SelectedEmbeds(tasks: seq<Task>, f: TaskFilters)
    ensures Embeds(Selected(tasks, f), tasks)
  {
    var q := Lower(f.searchQuery);
    var byQuery := if f.searchQuery != "" then Filter(tasks, (t: Task) => MatchesQuery(t, q)) else tasks;
    var byStatus := if f.status != ALL then Filter(byQuery, (t: Task) => t.status == f.status) else byQuery;
    if f.searchQuery != "" { FilterEmbeds(tasks, (t: Task) => MatchesQuery(t, q)); } else { EmbedsRefl(tasks); }
    if f.status != ALL { FilterEmbeds(byQuery, (t: Task) => t.status == f.status); } else { EmbedsRefl(byQuery); }
    if f.priority != ALL { FilterEmbeds(byStatus, (t: Task) => PriorityName(t.priority) == f.priority); }
    else { EmbedsRefl(byStatus); }
    EmbedsTrans(Selected(tasks, f), byStatus, byQuery);
    EmbedsTrans(Selected(tasks, f), byQuery, tasks);
  }

  /** The sort is stable: the tasks that tie under the chosen comparator
      with any task `k` (the same weight, due time, title or status) come
      out in the order the filters left them, which is list order. */
  lemma FilteredTasksStable(tasks: seq<Task>, f: TaskFilters, sortBy: string, desc: bool,
                            dueTime: string -> int, k: Task)
    ensures var cmp := Comparator(sortBy, desc, dueTime);
      var r := FilteredTasks(tasks, f, sortBy, desc, dueTime);
      && Filter(r, Tied(cmp, k)) == Filter(Selected(tasks, f), Tied(cmp, k))
      && Embeds(Filter(r, Tied(cmp, k)), tasks)
  {
    var cmp := Comparator(sortBy, desc, dueTime);
    ComparatorConsistent(sortBy, desc, dueTime);
    SortStable(Selected(tasks, f), cmp, k);
    FilterEmbeds(Selected(tasks, f), Tied(cmp, k));
    SelectedEmbeds(tasks, f);
    EmbedsTrans(Filter(Selected(tasks, f), Tied(cmp, k)), Selected(tasks, f), tasks);
  }

  /** The operation that feeds the view: `taskById`, the first task with that id. */
  function TaskById(tasks: seq<Task>, id: int): (r: Option<Task>)
    ensures r.Some? ==> r.value in tasks && r.value.id == id
    ensures r.None? <==> forall i :: 0 <= i < |tasks| ==> tasks[i].id != id
    ensures r.Some? ==> exists i :: 0 <= i < |tasks| && tasks[i] == r.value
                          && forall j :: 0 <= j < i ==> tasks[j].id != id
  {
    var i := IndexBy(tasks, TaskId, id);
    if i == -1 then None else Some(tasks[i])
  }

  datatype Summary = Summary(total: nat, completed: nat, inProgress: nat, pending: nat)

  /** How many tasks have status `s`. */
  function StatusCount(tasks: seq<Task>, s: string): nat {
    |Filter(tasks, (t: Task) => t.status == s)|
  }

  /** `taskSummary`: the total is the number of tasks and no count exceeds it. */
  function TaskSummary(tasks: seq<Task>): (s: Summary)
    ensures s.total == |tasks|
    ensures s.completed <= s.total && s.inProgress <= s.total && s.pending <= s.total
  {
    Summary(|tasks|, StatusCount(tasks, "completed"), StatusCount(tasks, "in-progress"), StatusCount(tasks, "pending"))
  }

  lemma {:induction false} StatusCountCons(t: Task, rest: seq<Task>, s: string)
    ensures StatusCount([t] + rest, s) == (if t.status == s then 1 else 0) + StatusCount(rest, s)
  {
    assert ([t] + rest)[0] == t && ([t] + rest)[1..] == rest;
  }

  /** When every status is one of the three known ones, the three counts
      add up to the total; each count is at most the total. */
  lemma {:induction false} SummaryPartition(tasks: seq<Task>)
    requires forall i :: 0 <= i < |tasks| ==>
      tasks[i].status == "completed" || tasks[i].status == "in-progress" || tasks[i].status == "pending"
    ensures var s := TaskSummary(tasks); s.completed + s.inProgress + s.pending == s.total
  {
    if tasks != [] {
      SummaryPartition(tasks[1..]);
      assert [tasks[0]] + tasks[1..] == tasks;
      StatusCountCons(tasks[0], tasks[1..], "completed");
      StatusCountCons(tasks[0], tasks[1..], "in-progress");
      StatusCountCons(tasks[0], tasks[1..], "pending");
    }
  }

  // ---------------------------------------------------------------------
  // The state the actions keep

  /** The key `findIndex` and the id checks compare. */
  function TaskId(t: Task): int { t.id }

  /** The ids in use. */
  function Ids(tasks: seq<Task>): seq<int> {
    Map(tasks, (t: Task) => t.id)
  }

  /** `Math.max(0, ...tasks.map(t => t.id)) + 1`: above every id, and one
      above either 0 or an id in use. */
  function NextId(tasks: seq<Task>): (id: int)
    ensures 1 <= id
    ensures forall i :: 0 <= i < |tasks| ==> tasks[i].id < id
    ensures id == 1 || exists i :: 0 <= i < |tasks| && tasks[i].id == id - 1
  {
    var ids := Ids(tasks);
    assert forall i :: 0 <= i < |tasks| ==> ids[i] == tasks[i].id;
    MaxOr0(ids) + 1
  }

  /** The task `createTask` builds: a fresh id, the form's fields, the
      assignee id from the form or 1 when it is `null` or 0, and the
      current user as creator. */
  function NewTask(tasks: seq<Task>, data: TaskFormData, today: string): Task {
    var assigneeId := if data.assigneeId.Some? && data.assigneeId.value != 0 then data.assigneeId.value else 1;
    Task(NextId(tasks), data.title, data.description, data.status, data.priority, data.dueDate,
         User(assigneeId, "John Doe", JOHN_DOE.avatar), User(1, "John Doe", None),
         today, None, data.tags, [])
  }

  /** A created task has an id no task has, carries the form's fields, and
      can be found by that id afterwards; the ids stay unique. */
  lemma NewTaskFresh(tasks: seq<Task>, data: TaskFormData, today: string)
    requires DistinctBy(tasks, TaskId)
    ensures var t := NewTask(tasks, data, today);
      && (forall i :: 0 <= i < |tasks| ==> tasks[i].id != t.id)
      && DistinctBy(tasks + [t], TaskId)
      && TaskById(tasks + [t], t.id) == Some(t)
      && (data.assigneeId.Some? && data.assigneeId.value != 0 ==> t.assignee.id == data.assigneeId.value)
      && (data.assigneeId.None? || data.assigneeId.value == 0 ==> t.assignee.id == 1)
      && t.comments == [] && t.createdBy.id == 1
      && t.title == data.title && t.description == data.description && t.status == data.status
      && t.priority == data.priority && t.dueDate == data.dueDate && t.tags == data.tags
      && t.createdAt == today && t.updatedAt.None?
  {
    var t := NewTask(tasks, data, today);
    var r := tasks + [t];
    assert forall i :: 0 <= i < |tasks| ==> r[i] == tasks[i];
    assert r[|tasks|] == t;
  }

  /** The assignee after an update: replaced by the mock user with the
      form's id when that id is set, non-zero, different from the current
      one and known; otherwise unchanged. */
  function AssigneeAfter(current: User, assigneeId: Option<int>): User {
    if assigneeId.Some? && assigneeId.value != 0 && assigneeId.value != current.id then
      match Find(MOCK_USERS, (u: User) => u.id == assigneeId.value)
      case Some(u) => u
      case None => current
    else current
  }

  /** The task `updateTask` stores at the matching index. */
  function UpdatedTask(t: Task, data: TaskFormData, today: string): Task {
    t.(title := data.title, description := data.description, status := data.status,
       priority := data.priority, dueDate := data.dueDate, tags := data.tags,
       updatedAt := Some(today), assignee := AssigneeAfter(t.assignee, data.assigneeId))
  }

  /** An update keeps the id, the creator, the creation date and the
      comments, and takes every field of the form; the assignee changes exactly when a new, known assignee
      id is given, and then to that user. */
  lemma UpdatedTaskKeeps(t: Task, data: TaskFormData, today: string)
    ensures var u := UpdatedTask(t, data, today);
      && u.id == t.id && u.createdBy == t.createdBy && u.createdAt == t.createdAt
      && u.comments == t.comments && u.updatedAt == Some(today)
      && u.title == data.title && u.description == data.description && u.status == data.status
      && u.priority == data.priority && u.dueDate == data.dueDate && u.tags == data.tags
      && (u.assignee != t.assignee <==>
            data.assigneeId.Some? && 1 <= data.assigneeId.value <= 4 && data.assigneeId.value != t.assignee.id)
      && (u.assignee != t.assignee ==> u.assignee in MOCK_USERS && u.assignee.id == data.assigneeId.value)
  {
    if data.assigneeId.Some? && data.assigneeId.value != 0 && data.assigneeId.value != t.assignee.id {
      var n := data.assigneeId.value;
      var found := Find(MOCK_USERS, (u: User) => u.id == n);
      if 1 <= n <= 4 {
        assert MOCK_USERS[n - 1].id == n;
      } else {
        assert forall j :: 0 <= j < |MOCK_USERS| ==> MOCK_USERS[j].id != n;
      }
    }
  }

  /** The comment `addComment` appends: id one above the task's largest
      comment id (or 1), by the current user. */
  function NewComment(t: Task, text: string, today: string): Comment {
    Comment(MaxOr0(Map(t.comments, (c: Comment) => c.id)) + 1, JOHN_DOE, text, today)
  }

  /** The new comment's id is above every comment id of the task and one
      above either 0 or one of them; it is by the current user, with the
      given text and today's date. */
  lemma NewCommentFresh(t: Task, text: string, today: string)
    ensures var c := NewComment(t, text, today);
      && c.id >= 1 && c.text == text && c.user == JOHN_DOE && c.timestamp == today
      && (forall i :: 0 <= i < |t.comments| ==> t.comments[i].id < c.id)
      && (c.id == 1 || exists i :: 0 <= i < |t.comments| && t.comments[i].id == c.id - 1)
  {
    var ids := Map(t.comments, (c: Comment) => c.id);
    assert forall i :: 0 <= i < |t.comments| ==> ids[i] == t.comments[i].id;
  }

  /** `{ ...filters, ...newFilters }`. */
  function MergeFilters(f: TaskFilters, p: FiltersPatch): (r: TaskFilters)
    ensures r.status == if p.status.Some? then p.status.value else f.status
    ensures r.priority == if p.priority.Some? then p.priority.value else f.priority
    ensures r.searchQuery == if p.searchQuery.Some? then p.searchQuery.value else f.searchQuery
  {
    TaskFilters(p.status.GetOr(f.status), p.priority.GetOr(f.priority), p.searchQuery.GetOr(f.searchQuery))
  }

  /** Deleting the task at the index of `id` removes exactly that task; with
      unique ids it can no longer be found. */
  lemma DeleteRemovesOnly(tasks: seq<Task>, id: int)
    requires DistinctBy(tasks, TaskId) && IndexBy(tasks, TaskId, id) != -1
    ensures var i := IndexBy(tasks, TaskId, id); var r := RemoveAt(tasks, i);
      && multiset(r) + multiset{tasks[i]} == multiset(tasks)
      && DistinctBy(r, TaskId)
      && TaskById(r, id) == None
      && TaskSummary(r).total == TaskSummary(tasks).total - 1
  {
    var i := IndexBy(tasks, TaskId, id);
    var r := RemoveAt(tasks, i);
    assert tasks == tasks[..i] + [tasks[i]] + tasks[i + 1..];
    assert r == tasks[..i] + tasks[i + 1..];
    forall j | 0 <= j < |r| ensures r[j].id != id {
      if j < i { assert r[j] == tasks[j]; } else { assert r[j] == tasks[j + 1]; }
    }
  }

  class TaskStore {
    var tasks: seq<Task>
    var isLoading: bool
    var error: Option<string>
    var filters: TaskFilters
    var sortBy: string
    var sortDesc: bool

    ghost predicate Valid()
      reads this
    {
      DistinctBy(tasks, TaskId)
    }

    constructor ()
      ensures Valid()
      ensures tasks == [] && !isLoading && error == None
      ensures filters == INITIAL_FILTERS && sortBy == "dueDate" && !sortDesc
    {
      tasks := [];
      isLoading := false;
      error := None;
      filters := INITIAL_FILTERS;
      sortBy := "dueDate";
      sortDesc := false;
    }

    /** `createTask`: appends one new task and returns it. */
    method CreateTask(data: TaskFormData, today: string) returns (t: Task)
      requires Valid()
      modifies this
      ensures Valid()
      ensures t == NewTask(old(tasks), data, today)
      ensures tasks == old(tasks) + [t]
      ensures !isLoading && error == None
      ensures filters == old(filters) && sortBy == old(sortBy) && sortDesc == old(sortDesc)
    {
      isLoading := true;
      error := None;
      NewTaskFresh(tasks, data, today);
      t := NewTask(tasks, data, today);
      tasks := tasks + [t];
      isLoading := false;
    }

    /** `updateTask`: replaces the task with that id by its updated copy;
        an unknown id sets the error and returns `null`. */
    method UpdateTask(id: int, data: TaskFormData, today: string) returns (r: Option<Task>)
      requires Valid()
      modifies this
      ensures Valid()
      ensures var i := IndexBy(old(tasks), TaskId, id);
        if i == -1 then
          r == None && tasks == old(tasks) && error == Some("Failed to update task")
        else
          r == Some(UpdatedTask(old(tasks)[i], data, today))
          && tasks == old(tasks)[i := r.value] && error == None
      ensures !isLoading
      ensures filters == old(filters) && sortBy == old(sortBy) && sortDesc == old(sortDesc)
    {
      isLoading := true;
      error := None;
      var i := IndexBy(tasks, TaskId, id);
      if i == -1 {
        error := Some("Failed to update task");
        r := None;
      } else {
        var u := UpdatedTask(tasks[i], data, today);
        UpdatedTaskKeeps(tasks[i], data, today);
        tasks := tasks[i := u];
        r := Some(u);
      }
      isLoading := false;
    }

    /** `deleteTask`: removes the task with that id; `false` and an error
        for an unknown id. */
    method DeleteTask(id: int) returns (ok: bool)
      requires Valid()
      modifies this
      ensures Valid()
      ensures var i := IndexBy(old(tasks), TaskId, id);
        if i == -1 then
          !ok && tasks == old(tasks) && error == Some("Failed to delete task")
        else
          ok && tasks == RemoveAt(old(tasks), i) && error == None
      ensures !isLoading
      ensures filters == old(filters) && sortBy == old(sortBy) && sortDesc == old(sortDesc)
    {
      isLoading := true;
      error := None;
      var i := IndexBy(tasks, TaskId, id);
      if i == -1 {
        error := Some("Failed to delete task");
        ok := false;
      } else {
        DeleteRemovesOnly(tasks, id);
        tasks := RemoveAt(tasks, i);
        ok := true;
      }
      isLoading := false;
    }

    /** `addComment`: appends a new comment to that task only; `null` and
        an error for an unknown task. */
    method AddComment(taskId: int, text: string, today: string) returns (r: Option<Comment>)
      requires Valid()
      modifies this
      ensures Valid()
      ensures var i := IndexBy(old(tasks), TaskId, taskId);
        if i == -1 then
          r == None && tasks == old(tasks) && error == Some("Failed to add comment")
        else
          var c := NewComment(old(tasks)[i], text, today);
          && r == Some(c)
          && tasks == old(tasks)[i := old(tasks)[i].(comments := old(tasks)[i].comments + [c])]
          && error == None
      ensures !isLoading
      ensures filters == old(filters) && sortBy == old(sortBy) && sortDesc == old(sortDesc)
    {
      isLoading := true;
      error := None;
      var i := IndexBy(tasks, TaskId, taskId);
      if i == -1 {
        error := Some("Failed to add comment");
        r := None;
      } else {
        var c := NewComment(tasks[i], text, today);
        tasks := tasks[i := tasks[i].(comments := tasks[i].comments + [c])];
        r := Some(c);
      }
      isLoading := false;
    }

    /** `setFilters`: overwrites the given filter fields, keeps the rest. */
    method SetFilters(p: FiltersPatch)
      modifies this
      ensures filters == MergeFilters(old(filters), p)
      ensures tasks == old(tasks) && sortBy == old(sortBy) && sortDesc == old(sortDesc)
      ensures isLoading == old(isLoading) && error == old(error)
    {
      filters := MergeFilters(filters, p);
    }

    /** `setSorting`. */
    method SetSorting(field: string, descending: bool)
      modifies this
      ensures sortBy == field && sortDesc == descending
      ensures tasks == old(tasks) && filters == old(filters)
      ensures isLoading == old(isLoading) && error == old(error)
    {
      sortBy := field;
      sortDesc := descending;
    }
  }
}
