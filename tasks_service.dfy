/** The task service: reads and writes tasks in the store, and after each
    successful write tells the gateway, which emits the events. */
module Tasks {
  import opened Base
  import opened TaskEntity
  import opened Events

  datatype ServiceError =
    | NotFound(id: int)      // no task has the requested id
    | PersistenceFailure     // the store refused the write

  /** The `task:updated` event for a task. */
  function UpdatedEvent(t: Task): Emission {
    Emission(Room(TASKS_ROOM), TASK_UPDATED, TaskPayload(t))
  }

  /** The events a status change emits: the completion notices first when
      the new status is `Completed`, then the general update. */
  function StatusEvents(clients: seq<Entry>, t: Task, s: TaskStatus, now: Timestamp): seq<Emission> {
    (if s == Completed then CompletionEmits(SocketsOf(clients, t.creatorId), CompletionOf(t, now)) else [])
    + [UpdatedEvent(t)]
  }

  /** A status change always ends with exactly one `task:updated` to the
      room; completion adds a notice to each socket of the creator before
      it, and any other status adds nothing. */
  lemma StatusEventsShape(clients: seq<Entry>, t: Task, s: TaskStatus, now: Timestamp)
    requires UniqueKeys(clients)
    ensures var es := StatusEvents(clients, t, s, now);
      && es != [] && es[|es| - 1] == UpdatedEvent(t)
      && CountTo(es, Room(TASKS_ROOM)) == 1
      && (s != Completed ==> es == [UpdatedEvent(t)])
      && (forall i :: 0 <= i < |es| - 1 ==> s == Completed && es[i].event == TASK_COMPLETED)
      && (forall sock :: CountTo(es, Socket(sock)) ==
            if s == Completed && Lookup(clients, sock) == Some(t.creatorId) then 1 else 0)
  {
    var notices := if s == Completed then CompletionEmits(SocketsOf(clients, t.creatorId), CompletionOf(t, now)) else [];
    var es := StatusEvents(clients, t, s, now);
    assert es == notices + [UpdatedEvent(t)];
    CompletionTargets(clients, t, now);
    CountToAppend(notices, [UpdatedEvent(t)], Room(TASKS_ROOM));
    assert CountTo([UpdatedEvent(t)], Room(TASKS_ROOM)) == 1;
    forall sock ensures CountTo(es, Socket(sock)) ==
        if s == Completed && Lookup(clients, sock) == Some(t.creatorId) then 1 else 0 {
      CountToAppend(notices, [UpdatedEvent(t)], Socket(sock));
      assert CountTo([UpdatedEvent(t)], Socket(sock)) == 0;
    }
  }

  class TasksService {
    /** The tasks table, by id. */
    var store: map<int, Task>
    /** The next id the table's sequence hands out. */
    var nextId: int
    /** The users table, read for the eager joins. */
    const users: map<int, User>
    const gateway: EventsGateway

    ghost predicate Valid()
      reads this, gateway
    {
      && gateway.Valid()
      && 1 <= nextId
      && forall id :: id in store ==> store[id].id == id && id < nextId
    }

    constructor (users: map<int, User>, gateway: EventsGateway)
      requires gateway.Valid()
      ensures Valid() && store == map[] && nextId == 1
      ensures this.users == users && this.gateway == gateway
    {
      store := map[];
      nextId := 1;
      this.users := users;
      this.gateway := gateway;
    }

    /** `findAll`: every stored task, with its relations loaded. */
    function FindAll(): (r: set<Task>)
      reads this
      ensures forall id :: id in store ==> Loaded(users, store[id]) in r
      ensures forall t :: t in r ==> exists id :: id in store && t == Loaded(users, store[id])
    {
      set id | id in store :: Loaded(users, store[id])
    }

    /** `findOne`: the task with that id, or `NotFound`. */
    function FindOne(id: int): (r: Result<Task, ServiceError>)
      reads this
      ensures r.Ok? <==> id in store
      ensures r.Ok? ==> r.value == Loaded(users, store[id]) && r.value in FindAll()
      ensures r.Err? ==> r.error == NotFound(id)
    {
      if id in store then Ok(Loaded(users, store[id])) else Err(NotFound(id))
    }

    /** `findByCreator`: exactly the stored tasks the user created. */
    function FindByCreator(userId: int): (r: set<Task>)
      reads this
      ensures forall t :: t in r <==> t in FindAll() && t.creatorId == userId
    {
      set id | id in store && store[id].creatorId == userId :: Loaded(users, store[id])
    }

    /** `findByAssignee`: exactly the stored tasks assigned to the user. */
    function FindByAssignee(userId: int): (r: set<Task>)
      reads this
      ensures forall t :: t in r <==> t in FindAll() && t.assigneeId == Some(userId)
    {
      set id | id in store && store[id].assigneeId == Some(userId) :: Loaded(users, store[id])
    }

    /** `create`: inserts the task with the caller as creator, then emits
        one `task:created` carrying the saved task. A failed insert emits
        nothing and changes nothing. */
    method Create(dto: CreateTaskDto, userId: int, now: Timestamp, saveOk: bool)
      returns (r: Result<Task, ServiceError>)
      requires Valid()
      modifies this, gateway
      ensures Valid()
      ensures gateway.clients == old(gateway.clients) && gateway.tasksRoom == old(gateway.tasksRoom)
      ensures saveOk ==>
        var t := Inserted(dto, userId, old(nextId), now);
        && r == Ok(t) && t.creatorId == userId && t.id !in old(store)
        && store == old(store)[t.id := t] && nextId == old(nextId) + 1
        && gateway.log == old(gateway.log) + [Emission(Room(TASKS_ROOM), TASK_CREATED, TaskPayload(t))]
      ensures !saveOk ==>
        && r == Err(PersistenceFailure)
        && store == old(store) && nextId == old(nextId) && gateway.log == old(gateway.log)
    {
      var task := Inserted(dto, userId, nextId, now);
      if !saveOk {
        return Err(PersistenceFailure);
      }
      store := store[task.id := task];
      nextId := nextId + 1;
      gateway.NotifyNewTask(task);
      r := Ok(task);
    }

    /** `update`: loads the task, merges the patch into it, saves it, then
        emits one `task:updated` carrying the saved task. */
    method Update(id: int, dto: UpdateTaskDto, now: Timestamp, saveOk: bool)
      returns (r: Result<Task, ServiceError>)
      requires Valid()
      modifies this, gateway
      ensures Valid() && nextId == old(nextId)
      ensures gateway.clients == old(gateway.clients) && gateway.tasksRoom == old(gateway.tasksRoom)
      ensures id !in old(store) ==>
        r == Err(NotFound(id)) && store == old(store) && gateway.log == old(gateway.log)
      ensures id in old(store) && !saveOk ==>
        r == Err(PersistenceFailure) && store == old(store) && gateway.log == old(gateway.log)
      ensures id in old(store) && saveOk ==>
        var t := Patched(Loaded(users, old(store)[id]), dto, now);
        && r == Ok(t) && t.id == id
        && store == old(store)[id := t]
        && gateway.log == old(gateway.log) + [UpdatedEvent(t)]
    {
      var found := FindOne(id);
      if found.Err? {
        return found;
      }
      var task := Patched(found.value, dto, now);
      if !saveOk {
        return Err(PersistenceFailure);
      }
      store := store[id := task];
      gateway.NotifyTaskUpdate(task);
      r := Ok(task);
    }

    /** `updateStatus`: loads the task, sets its status, saves it, then
        emits the completion notices (only for `Completed`) followed by one
        `task:updated`. */
    method UpdateStatus(id: int, status: TaskStatus, now: Timestamp, saveOk: bool)
      returns (r: Result<Task, ServiceError>)
      requires Valid()
      modifies this, gateway
      ensures Valid() && nextId == old(nextId)
      ensures gateway.clients == old(gateway.clients) && gateway.tasksRoom == old(gateway.tasksRoom)
      ensures id !in old(store) ==>
        r == Err(NotFound(id)) && store == old(store) && gateway.log == old(gateway.log)
      ensures id in old(store) && !saveOk ==>
        r == Err(PersistenceFailure) && store == old(store) && gateway.log == old(gateway.log)
      ensures id in old(store) && saveOk ==>
        var t := WithStatus(Loaded(users, old(store)[id]), status, now);
        && r == Ok(t) && t.id == id
        && store == old(store)[id := t]
        && gateway.log == old(gateway.log) + StatusEvents(old(gateway.clients), t, status, now)
    {
      var found := FindOne(id);
      if found.Err? {
        return found;
      }
      var task := WithStatus(found.value, status, now);
      if !saveOk {
        return Err(PersistenceFailure);
      }
      store := store[id := task];
      if status == Completed {
        gateway.NotifyTaskCompletion(task, now);
      }
      gateway.NotifyTaskUpdate(task);
      r := Ok(task);
    }

    /** `remove`: deletes exactly that task and emits nothing. */
    method Remove(id: int, removeOk: bool) returns (r: Result<(), ServiceError>)
      requires Valid()
      modifies this
      ensures Valid() && nextId == old(nextId)
      ensures id !in old(store) ==> r == Err(NotFound(id)) && store == old(store)
      ensures id in old(store) && !removeOk ==> r == Err(PersistenceFailure) && store == old(store)
      ensures id in old(store) && removeOk ==>
        r == Ok(()) && store == old(store) - {id} && FindOne(id) == Err(NotFound(id))
    {
      var found := FindOne(id);
      if found.Err? {
        return Err(found.error);
      }
      if !removeOk {
        return Err(PersistenceFailure);
      }
      store := store - {id};
      r := Ok(());
    }
  }

  /** The scenario of one completion: connection "c1" belongs to user 7,
      who created task 42; completing it sends one notice to "c1", then the
      general update. */
  method CompletionScenario(now: Timestamp) returns (log: seq<Emission>)
    ensures |log| == 3
    ensures log[0].target == Room(TASKS_ROOM) && log[0].event == TASK_CREATED
    ensures log[1] == Emission(Socket("c1"), TASK_COMPLETED, CompletionPayload(1, "Write report", "Someone", now))
    ensures log[2].target == Room(TASKS_ROOM) && log[2].event == TASK_UPDATED
  {
    var gw := new EventsGateway();
    gw.Register("c1", 7);
    var svc := new TasksService(map[], gw);
    var created := svc.Create(CreateTaskDto("Write report", None, None, None, None, None, Some(3)), 7, now, true);
    assert created.value.creatorId == 7;
    var id := created.value.id;
    var done := svc.UpdateStatus(id, Completed, now, true);
    var t := done.value;
    assert t.creatorId == 7 && t.title == "Write report";
    assert SocketsOf(gw.clients, 7) == ["c1"];
    assert gw.log[1..] == [Emission(Socket("c1"), TASK_COMPLETED, CompletionPayload(id, "Write report", "Someone", now)), UpdatedEvent(t)];
    var missing := svc.Update(id + 1, UpdateTaskDto(None, None, None, None, None, None), now, true);
    assert missing == Err(NotFound(id + 1)) && |gw.log| == 3;
    log := gw.log;
  }
}
