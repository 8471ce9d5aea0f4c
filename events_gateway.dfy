/** The WebSocket gateway: a registry from connection id to user id, the
    `tasks` room that clients join, and the events it emits, recorded in
    the order they are sent. */
module Events {
  import opened Base
  import opened TaskEntity

  /** One entry of the registry: connection id and the user it belongs to. */
  type Entry = (string, int)

  /** The registry is a JavaScript `Map`, so its entries keep the order in
      which their keys were first inserted. No key occurs twice. */
  ghost predicate UniqueKeys(e: seq<Entry>) {
    forall i, j :: 0 <= i < j < |e| ==> e[i].0 != e[j].0
  }

  /** The position of key `k`, or -1. */
  function KeyIndex(e: seq<Entry>, k: string): (i: int)
    ensures -1 <= i < |e|
    ensures 0 <= i ==> e[i].0 == k && forall j :: 0 <= j < i ==> e[j].0 != k
    ensures i == -1 <==> forall j :: 0 <= j < |e| ==> e[j].0 != k
  {
    if e == [] then -1
    else if e[0].0 == k then 0
    else
      var i := KeyIndex(e[1..], k);
      if i == -1 then -1 else i + 1
  }

  /** `map.get(k)`. */
  function Lookup(e: seq<Entry>, k: string): Option<int> {
    var i := KeyIndex(e, k);
    if i == -1 then None else Some(e[i].1)
  }

  /** `map.set(k, v)`: overwrites the value in place when `k` is present,
      appends a new entry otherwise. */
  function MapSet(e: seq<Entry>, k: string, v: int): seq<Entry> {
    var i := KeyIndex(e, k);
    if i == -1 then e + [(k, v)] else e[i := (k, v)]
  }

  /** `map.delete(k)`: removes the entry of `k`, if there is one. */
  function MapDelete(e: seq<Entry>, k: string): seq<Entry> {
    var i := KeyIndex(e, k);
    if i == -1 then e else e[..i] + e[i + 1..]
  }

  /** After `set(k, v)` the key `k` maps to `v`, every other key to what it
      mapped to before, and there is still at most one entry per key. */
  lemma MapSetLookup(e: seq<Entry>, k: string, v: int)
    requires UniqueKeys(e)
    ensures UniqueKeys(MapSet(e, k, v))
    ensures forall k' :: Lookup(MapSet(e, k, v), k') == if k' == k then Some(v) else Lookup(e, k')
  {
    var r := MapSet(e, k, v);
    var i := KeyIndex(e, k);
    assert forall j :: 0 <= j < |e| && j != i ==> r[j] == e[j];
    assert r[if i == -1 then |e| else i] == (k, v);
    forall k' ensures Lookup(r, k') == if k' == k then Some(v) else Lookup(e, k') {
      var j := KeyIndex(e, k');
      var j' := KeyIndex(r, k');
      if k' == k {
        assert j' == (if i == -1 then |e| else i);
      } else {
        if j != -1 { assert r[j] == e[j]; }
        if j' != -1 { assert j' != i && j' < |e| && r[j'] == e[j']; }
      }
    }
  }

  /** Registering the same key twice leaves one entry holding the last value. */
  lemma MapSetTwice(e: seq<Entry>, k: string, v1: int, v2: int)
    ensures MapSet(MapSet(e, k, v1), k, v2) == MapSet(e, k, v2)
  {
    var i := KeyIndex(e, k);
    if i == -1 {
      var e1 := e + [(k, v1)];
      assert KeyIndex(e1, k) == |e| by {
        assert e1[|e|].0 == k;
        assert forall j :: 0 <= j < |e| ==> e1[j].0 != k by {
          forall j | 0 <= j < |e| ensures e1[j].0 != k { assert e1[j] == e[j]; }
        }
      }
    } else {
      assert KeyIndex(e[i := (k, v1)], k) == i by {
        var e1 := e[i := (k, v1)];
        assert forall j :: 0 <= j < i ==> e1[j].0 != k by {
          forall j | 0 <= j < i ensures e1[j].0 != k { assert e1[j] == e[j]; }
        }
      }
    }
  }

  /** `delete(k)` as seen through one key `k'`. */
  lemma MapDeleteLookupAt(e: seq<Entry>, k: string, k': string)
    requires UniqueKeys(e)
    ensures Lookup(MapDelete(e, k), k') == if k' == k then None else Lookup(e, k')
  {
    var i := KeyIndex(e, k);
    var r := MapDelete(e, k);
    if i != -1 {
      assert |r| == |e| - 1;
      assert forall j :: 0 <= j < i ==> r[j] == e[j];
      assert forall j :: i <= j < |r| ==> r[j] == e[j + 1];
      var j := KeyIndex(e, k');
      var j' := KeyIndex(r, k');
      if k' == k {
        assert forall m :: 0 <= m < |r| ==> r[m].0 != k;
      } else {
        if j != -1 {
          assert j != i;
          if j < i { assert r[j] == e[j]; } else { assert r[j - 1] == e[j]; }
        }
        if j' != -1 {
          if j' < i { assert r[j'] == e[j']; } else { assert r[j'] == e[j' + 1]; }
        }
      }
    }
  }

  /** After `delete(k)` the key `k` is gone, every other key maps to what it
      mapped to before; deleting an absent key changes nothing. */
  lemma MapDeleteLookup(e: seq<Entry>, k: string)
    requires UniqueKeys(e)
    ensures UniqueKeys(MapDelete(e, k))
    ensures KeyIndex(e, k) == -1 ==> MapDelete(e, k) == e
    ensures forall k' :: Lookup(MapDelete(e, k), k') == if k' == k then None else Lookup(e, k')
  {
    var i := KeyIndex(e, k);
    var r := MapDelete(e, k);
    if i != -1 {
      assert forall j :: 0 <= j < i ==> r[j] == e[j];
      assert forall j :: i <= j < |r| ==> r[j] == e[j + 1];
    }
    forall k' ensures Lookup(r, k') == if k' == k then None else Lookup(e, k') {
      MapDeleteLookupAt(e, k, k');
    }
  }

  /** The sockets of one user, in registry order:
      `Array.from(entries()).filter(([_, u]) => u === userId).map(([s]) => s)`. */
  function SocketsOf(e: seq<Entry>, userId: int): seq<string> {
    if e == [] then []
    else (if e[0].1 == userId then [e[0].0] else []) + SocketsOf(e[1..], userId)
  }

  /** How many times `s` occurs in `ids`. */
  function Occurrences(ids: seq<string>, s: string): nat {
    if ids == [] then 0 else (if ids[0] == s then 1 else 0) + Occurrences(ids[1..], s)
  }

  /** Every connection of the user occurs exactly once among its sockets,
      and no other connection occurs. */
  lemma {:induction false} SocketsOfExact(e: seq<Entry>, userId: int, s: string)
    requires UniqueKeys(e)
    ensures Occurrences(SocketsOf(e, userId), s) == if Lookup(e, s) == Some(userId) then 1 else 0
  {
    if e != [] {
      var rest := e[1..];
      assert UniqueKeys(rest) by {
        forall i, j | 0 <= i < j < |rest| ensures rest[i].0 != rest[j].0 {
          assert rest[i] == e[i + 1] && rest[j] == e[j + 1];
        }
      }
      SocketsOfExact(rest, userId, s);
      OccurrencesAppend(if e[0].1 == userId then [e[0].0] else [], SocketsOf(rest, userId), s);
      if e[0].0 == s {
        assert KeyIndex(rest, s) == -1 by {
          forall j | 0 <= j < |rest| ensures rest[j].0 != s { assert rest[j] == e[j + 1]; }
        }
      }
    }
  }

  lemma {:induction false} OccurrencesAppend(a: seq<string>, b: seq<string>, s: string)
    ensures Occurrences(a + b, s) == Occurrences(a, s) + Occurrences(b, s)
  {
    if a != [] {
      assert (a + b)[0] == a[0] && (a + b)[1..] == a[1..] + b;
      OccurrencesAppend(a[1..], b, s);
    } else {
      assert a + b == b;
    }
  }

  /** A user with no registered connection has no sockets. */
  lemma SocketsOfEmpty(e: seq<Entry>, userId: int)
    requires UniqueKeys(e)
    ensures SocketsOf(e, userId) == [] <==> forall s :: Lookup(e, s) != Some(userId)
  {
    var ids := SocketsOf(e, userId);
    if ids != [] {
      SocketsOfExact(e, userId, ids[0]);
    } else {
      forall s ensures Lookup(e, s) != Some(userId) {
        SocketsOfExact(e, userId, s);
      }
    }
  }

  /** The name of the room every client joins for task updates. */
  const TASKS_ROOM: string := "tasks"

  const TASK_CREATED: string := "task:created"
  const TASK_UPDATED: string := "task:updated"
  const TASK_COMPLETED: string := "task:completed"

  /** The user id the connection handler registers every client under. */
  const PLACEHOLDER_USER_ID: int := 0

  /** Whom an event is sent to: a room, or the single socket with that id. */
  datatype Target = Room(name: string) | Socket(id: string)

  datatype Payload =
    | TaskPayload(task: Task)
    | CompletionPayload(taskId: int, title: string, completedBy: string, completedAt: Timestamp)

  /** One `server.to(target).emit(event, payload)`. */
  datatype Emission = Emission(target: Target, event: string, payload: Payload)

  /** The reply to a `join:tasks` message. */
  datatype JoinAck = JoinAck(event: string, data: string)

  /** `task.assignee?.username || 'Someone'`. */
  function CompletedBy(t: Task): (name: string)
    ensures name != ""
    ensures name == "Someone" || (t.assignee.Some? && name == t.assignee.value.username)
    ensures t.assignee.Some? && t.assignee.value.username != "" ==> name == t.assignee.value.username
  {
    if t.assignee.Some? && t.assignee.value.username != "" then t.assignee.value.username else "Someone"
  }

  /** The completion notice for a task completed at `now`. */
  function CompletionOf(t: Task, now: Timestamp): Payload {
    CompletionPayload(t.id, t.title, CompletedBy(t), now)
  }

  /** The `forEach` over the socket ids: one `task:completed` event per
      id, in order, and only to sockets. */
  function CompletionEmits(ids: seq<string>, p: Payload): (r: seq<Emission>)
    ensures |r| == |ids|
    ensures forall i :: 0 <= i < |ids| ==> r[i] == Emission(Socket(ids[i]), TASK_COMPLETED, p)
  {
    if ids == [] then [] else [Emission(Socket(ids[0]), TASK_COMPLETED, p)] + CompletionEmits(ids[1..], p)
  }

  /** How many events of `es` are sent to `t`. */
  function CountTo(es: seq<Emission>, t: Target): nat {
    if es == [] then 0 else (if es[0].target == t then 1 else 0) + CountTo(es[1..], t)
  }

  lemma {:induction false} CountToAppend(a: seq<Emission>, b: seq<Emission>, t: Target)
    ensures CountTo(a + b, t) == CountTo(a, t) + CountTo(b, t)
  {
    if a != [] {
      assert (a + b)[0] == a[0] && (a + b)[1..] == a[1..] + b;
      CountToAppend(a[1..], b, t);
    } else {
      assert a + b == b;
    }
  }

  lemma {:induction false} CountToCompletionEmits(ids: seq<string>, p: Payload, t: Target)
    ensures CountTo(CompletionEmits(ids, p), t) == if t.Socket? then Occurrences(ids, t.id) else 0
  {
    if ids != [] {
      assert CompletionEmits(ids, p)[1..] == CompletionEmits(ids[1..], p);
      CountToCompletionEmits(ids[1..], p, t);
    }
  }

  /** What `notifyTaskCompletion` sends: exactly one `task:completed` to
      each connection registered under the task's creator, none to any
      other connection or room, each carrying the task's id and title. */
  lemma CompletionTargets(e: seq<Entry>, t: Task, now: Timestamp)
    requires UniqueKeys(e)
    ensures var es := CompletionEmits(SocketsOf(e, t.creatorId), CompletionOf(t, now));
      && (forall s :: CountTo(es, Socket(s)) == if Lookup(e, s) == Some(t.creatorId) then 1 else 0)
      && (forall r :: CountTo(es, Room(r)) == 0)
      && (forall i :: 0 <= i < |es| ==>
            es[i].event == TASK_COMPLETED && es[i].payload == CompletionPayload(t.id, t.title, CompletedBy(t), now))
      && (es == [] <==> forall s :: Lookup(e, s) != Some(t.creatorId))
  {
    var ids := SocketsOf(e, t.creatorId);
    var p := CompletionOf(t, now);
    forall s ensures CountTo(CompletionEmits(ids, p), Socket(s)) == if Lookup(e, s) == Some(t.creatorId) then 1 else 0 {
      CountToCompletionEmits(ids, p, Socket(s));
      SocketsOfExact(e, t.creatorId, s);
    }
    forall r ensures CountTo(CompletionEmits(ids, p), Room(r)) == 0 {
      CountToCompletionEmits(ids, p, Room(r));
    }
    SocketsOfEmpty(e, t.creatorId);
  }

  class EventsGateway {
    /** `connectedClients`: connection id to user id. */
    var clients: seq<Entry>
    /** The connections that joined the `tasks` room. */
    var tasksRoom: set<string>
    /** Every event emitted so far, oldest first. */
    var log: seq<Emission>

    ghost predicate Valid()
      reads this
    {
      UniqueKeys(clients)
    }

    constructor ()
      ensures Valid() && clients == [] && tasksRoom == {} && log == []
    {
      clients := [];
      tasksRoom := {};
      log := [];
    }

    /** Maps connection `connId` to `userId`, replacing an earlier mapping. */
    method Register(connId: string, userId: int)
      requires Valid()
      modifies this
      ensures Valid()
      ensures clients == MapSet(old(clients), connId, userId)
      ensures forall k :: Lookup(clients, k) == if k == connId then Some(userId) else Lookup(old(clients), k)
      ensures tasksRoom == old(tasksRoom) && log == old(log)
    {
      MapSetLookup(clients, connId, userId);
      clients := MapSet(clients, connId, userId);
    }

    /** `handleConnection`: registers the client under the placeholder user. */
    method HandleConnection(connId: string)
      requires Valid()
      modifies this
      ensures Valid()
      ensures clients == MapSet(old(clients), connId, PLACEHOLDER_USER_ID)
      ensures forall k :: Lookup(clients, k) == if k == connId then Some(PLACEHOLDER_USER_ID) else Lookup(old(clients), k)
      ensures tasksRoom == old(tasksRoom) && log == old(log)
    {
      Register(connId, PLACEHOLDER_USER_ID);
    }

    /** `handleDisconnect`: forgets the client; a no-op for an unknown one.
        socket.io itself also takes a disconnected socket out of its rooms. */
    method HandleDisconnect(connId: string)
      requires Valid()
      modifies this
      ensures Valid()
      ensures clients == MapDelete(old(clients), connId)
      ensures forall k :: Lookup(clients, k) == if k == connId then None else Lookup(old(clients), k)
      ensures Lookup(old(clients), connId).None? ==> clients == old(clients)
      ensures tasksRoom == old(tasksRoom) - {connId} && log == old(log)
    {
      MapDeleteLookup(clients, connId);
      clients := MapDelete(clients, connId);
      tasksRoom := tasksRoom - {connId};
    }

    /** `handleJoinTasks`: puts the client into the `tasks` room, whether or
        not it is registered, and acknowledges. */
    method HandleJoinTasks(connId: string) returns (ack: JoinAck)
      modifies this
      ensures tasksRoom == old(tasksRoom) + {connId}
      ensures ack == JoinAck("joined", "Successfully joined tasks room")
      ensures clients == old(clients) && log == old(log)
    {
      tasksRoom := tasksRoom + {connId};
      ack := JoinAck("joined", "Successfully joined tasks room");
    }

    /** `notifyNewTask`: one `task:created` to the `tasks` room. */
    method NotifyNewTask(t: Task)
      modifies this
      ensures log == old(log) + [Emission(Room(TASKS_ROOM), TASK_CREATED, TaskPayload(t))]
      ensures clients == old(clients) && tasksRoom == old(tasksRoom)
    {
      log := log + [Emission(Room(TASKS_ROOM), TASK_CREATED, TaskPayload(t))];
    }

    /** `notifyTaskUpdate`: one `task:updated` to the `tasks` room. */
    method NotifyTaskUpdate(t: Task)
      modifies this
      ensures log == old(log) + [Emission(Room(TASKS_ROOM), TASK_UPDATED, TaskPayload(t))]
      ensures clients == old(clients) && tasksRoom == old(tasksRoom)
    {
      log := log + [Emission(Room(TASKS_ROOM), TASK_UPDATED, TaskPayload(t))];
    }

    /** `notifyTaskCompletion`: collects the creator's sockets, then sends a
        `task:completed` to each of them in turn. The registry is only read. */
    method NotifyTaskCompletion(t: Task, now: Timestamp)
      modifies this
      ensures log == old(log) + CompletionEmits(SocketsOf(old(clients), t.creatorId), CompletionOf(t, now))
      ensures clients == old(clients) && tasksRoom == old(tasksRoom)
    {
      var ids := SocketsOf(clients, t.creatorId);
      var p := CompletionOf(t, now);
      var i := 0;
      while i < |ids|
        invariant 0 <= i <= |ids|
        invariant |log| == |old(log)| + i
        invariant log[..|old(log)|] == old(log)
        invariant forall k :: 0 <= k < i ==> log[|old(log)| + k] == Emission(Socket(ids[k]), TASK_COMPLETED, p)
        invariant clients == old(clients) && tasksRoom == old(tasksRoom)
      {
        log := log + [Emission(Socket(ids[i]), TASK_COMPLETED, p)];
        i := i + 1;
      }
      assert log == old(log) + CompletionEmits(ids, p);
    }
  }
}
