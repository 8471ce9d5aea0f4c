/** The backend `Task` entity: its status and priority enumerations, the
    nullable columns, the defaults the database fills in, and the eager
    join of the creator and assignee users. */
module TaskEntity {
  import opened Base

  /** A point in time (`Date`), kept opaque. */
  type Timestamp = int

  datatype TaskStatus = Open | InProgress | Completed

  datatype TaskPriority = Low | Medium | High

  /** The string each status is stored and sent as. */
  function StatusValue(s: TaskStatus): string {
    match s
    case Open => "open"
    case InProgress => "in_progress"
    case Completed => "completed"
  }

  /** The status a stored string denotes, if it is one of the three. */
  function ParseStatus(v: string): Option<TaskStatus> {
    if v == "open" then Some(Open)
    else if v == "in_progress" then Some(InProgress)
    else if v == "completed" then Some(Completed)
    else None
  }

  /** Parsing undoes rendering, and only the three strings parse. */
  lemma StatusRoundTrip(s: TaskStatus, v: string)
    ensures ParseStatus(StatusValue(s)) == Some(s)
    ensures ParseStatus(v).Some? ==> StatusValue(ParseStatus(v).value) == v
    ensures ParseStatus(v).None? <==> v != "open" && v != "in_progress" && v != "completed"
  {
  }

  /** Distinct statuses are sent as distinct strings. */
  lemma StatusValueInjective(a: TaskStatus, b: TaskStatus)
    ensures StatusValue(a) == StatusValue(b) <==> a == b
  {
    StatusRoundTrip(a, "");
    StatusRoundTrip(b, "");
  }

  /** The string each priority is stored and sent as. */
  function PriorityValue(p: TaskPriority): string {
    match p
    case Low => "low"
    case Medium => "medium"
    case High => "high"
  }

  /** The priority a stored string denotes, if it is one of the three. */
  function ParsePriority(v: string): Option<TaskPriority> {
    if v == "low" then Some(Low)
    else if v == "medium" then Some(Medium)
    else if v == "high" then Some(High)
    else None
  }

  /** Parsing undoes rendering, and only the three strings parse. */
  lemma PriorityRoundTrip(p: TaskPriority, v: string)
    ensures ParsePriority(PriorityValue(p)) == Some(p)
    ensures ParsePriority(v).Some? ==> PriorityValue(ParsePriority(v).value) == v
    ensures ParsePriority(v).None? <==> v != "low" && v != "medium" && v != "high"
  {
  }

  /** The column defaults. */
  const DEFAULT_STATUS: TaskStatus := Open
  const DEFAULT_PRIORITY: TaskPriority := Medium

  /** The columns of a user that an eagerly loaded relation carries here. */
  datatype User = User(id: int, username: string)

  /** A task row together with its eagerly joined `creator` and `assignee`.
      `description`, `dueDate`, `assigneeId` and `assignee` are nullable;
      `creator` is absent until the row is read back with its join. */
  datatype Task = Task(
    id: int,
    title: string,
    description: Option<string>,
    status: TaskStatus,
    priority: TaskPriority,
    dueDate: Option<Timestamp>,
    creatorId: int,
    creator: Option<User>,
    assigneeId: Option<int>,
    assignee: Option<User>,
    createdAt: Timestamp,
    updatedAt: Timestamp)

  /** The body of a create request. `creatorId` stands for a stray field of
      that name in the payload. The global validation pipe, which whitelists
      the DTO's fields and rejects others, refuses such a request, so the
      override in `create` only matters when that validation is bypassed. */
  datatype CreateTaskDto = CreateTaskDto(
    title: string,
    description: Option<string>,
    priority: Option<TaskPriority>,
    status: Option<TaskStatus>,
    dueDate: Option<Timestamp>,
    assigneeId: Option<int>,
    creatorId: Option<int>)

  /** The body of an update request: every field of a create request is
      optional, and a present field is one the patch overwrites. */
  datatype UpdateTaskDto = UpdateTaskDto(
    title: Option<string>,
    description: Option<string>,
    priority: Option<TaskPriority>,
    status: Option<TaskStatus>,
    dueDate: Option<Timestamp>,
    assigneeId: Option<int>)

  /** The task that `create({...dto, creatorId})` followed by an insert
      yields: the caller's id as creator, the database's `id`, column
      defaults for an omitted status and priority, both timestamps set to
      the time of the insert, and no relation loaded. */
  function Inserted(dto: CreateTaskDto, creatorId: int, id: int, now: Timestamp): Task {
    Task(id, dto.title, dto.description,
         dto.status.GetOr(DEFAULT_STATUS), dto.priority.GetOr(DEFAULT_PRIORITY),
         dto.dueDate, creatorId, None, dto.assigneeId, None, now, now)
  }

  /** The creator is always the authenticated caller, whatever the payload
      says; omitted status and priority take their defaults. */
  lemma InsertedFields(dto: CreateTaskDto, creatorId: int, id: int, now: Timestamp)
    ensures Inserted(dto, creatorId, id, now).creatorId == creatorId
    ensures forall other :: Inserted(dto.(creatorId := other), creatorId, id, now)
                            == Inserted(dto, creatorId, id, now)
    ensures dto.status.None? ==> Inserted(dto, creatorId, id, now).status == Open
    ensures dto.priority.None? ==> Inserted(dto, creatorId, id, now).priority == Medium
    ensures dto.status.Some? ==> Inserted(dto, creatorId, id, now).status == dto.status.value
    ensures dto.priority.Some? ==> Inserted(dto, creatorId, id, now).priority == dto.priority.value
    ensures Inserted(dto, creatorId, id, now).createdAt == now == Inserted(dto, creatorId, id, now).updatedAt
  {
  }

  /** `Object.assign(task, dto)` followed by a save: every field present in
      the patch overwrites the stored one, the rest keep their values, and
      the save refreshes `updatedAt`. */
  function Patched(t: Task, dto: UpdateTaskDto, now: Timestamp): Task {
    t.(title := dto.title.GetOr(t.title),
       description := if dto.description.Some? then dto.description else t.description,
       priority := dto.priority.GetOr(t.priority),
       status := dto.status.GetOr(t.status),
       dueDate := if dto.dueDate.Some? then dto.dueDate else t.dueDate,
       assigneeId := if dto.assigneeId.Some? then dto.assigneeId else t.assigneeId,
       updatedAt := now)
  }

  /** Shallow merge: the patch decides exactly the fields it carries; the
      identity, the creator, the loaded relations and `createdAt` are kept. */
  lemma {:induction false} PatchedMerge(t: Task, dto: UpdateTaskDto, now: Timestamp)
    ensures var r := Patched(t, dto, now);
      && r.id == t.id && r.creatorId == t.creatorId && r.createdAt == t.createdAt
      && r.creator == t.creator && r.assignee == t.assignee && r.updatedAt == now
      && (dto.title.Some? ==> r.title == dto.title.value)
      && (dto.title.None? ==> r.title == t.title)
      && (dto.description.Some? ==> r.description == dto.description)
      && (dto.description.None? ==> r.description == t.description)
      && (dto.priority.Some? ==> r.priority == dto.priority.value)
      && (dto.priority.None? ==> r.priority == t.priority)
      && (dto.status.Some? ==> r.status == dto.status.value)
      && (dto.status.None? ==> r.status == t.status)
      && (dto.dueDate.Some? ==> r.dueDate == dto.dueDate)
      && (dto.dueDate.None? ==> r.dueDate == t.dueDate)
      && (dto.assigneeId.Some? ==> r.assigneeId == dto.assigneeId)
      && (dto.assigneeId.None? ==> r.assigneeId == t.assigneeId)
  {
  }

  /** Applying the same patch again changes nothing but the timestamp. */
  lemma PatchedIdempotent(t: Task, dto: UpdateTaskDto, now: Timestamp, later: Timestamp)
    ensures Patched(Patched(t, dto, now), dto, later) == Patched(t, dto, later)
  {
  }

  /** An empty patch only refreshes `updatedAt`. */
  lemma PatchedEmpty(t: Task, now: Timestamp)
    ensures Patched(t, UpdateTaskDto(None, None, None, None, None, None), now) == t.(updatedAt := now)
  {
  }

  /** `task.status = status` followed by a save. */
  function WithStatus(t: Task, s: TaskStatus, now: Timestamp): Task {
    t.(status := s, updatedAt := now)
  }

  /** A status change is the patch that carries only the status. */
  lemma WithStatusIsPatch(t: Task, s: TaskStatus, now: Timestamp)
    ensures WithStatus(t, s, now) == Patched(t, UpdateTaskDto(None, None, None, Some(s), None, None), now)
  {
  }

  /** The user a foreign key refers to, if that user exists. */
  function JoinUser(users: map<int, User>, key: Option<int>): (u: Option<User>)
    ensures u.Some? <==> key.Some? && key.value in users
    ensures u.Some? ==> u.value == users[key.value]
  {
    if key.Some? && key.value in users then Some(users[key.value]) else None
  }

  /** A row as a read returns it: `creator` and `assignee` loaded eagerly
      from the users table through `creatorId` and `assigneeId`. */
  function Loaded(users: map<int, User>, row: Task): Task {
    row.(creator := JoinUser(users, Some(row.creatorId)),
         assignee := JoinUser(users, row.assigneeId))
  }

  /** Loading only fills in the relations, from the row's own keys. */
  lemma LoadedKeepsColumns(users: map<int, User>, row: Task)
    ensures var t := Loaded(users, row);
      && t.(creator := row.creator, assignee := row.assignee) == row
      && (t.assignee.Some? <==> row.assigneeId.Some? && row.assigneeId.value in users)
      && (t.assignee.Some? ==> t.assignee.value == users[row.assigneeId.value])
      && Loaded(users, t) == t
  {
  }
}
