# Task management: a Dafny model of the task pipeline and client stores

This project models the core of a task-management web application. The application has three parts:

- A NestJS backend. Its `TasksService` reads and writes tasks. After every successful write it asks the `EventsGateway` to tell connected clients. The gateway keeps a registry from socket id to user id.
- A Vue front end (the `frontend` application). It has an in-memory task store with filters, sorting, summary counts, and create, update, delete and comment actions.
- A second, older client application. It has a tasks store and a notifications store, which are kept up to date by API responses and socket events.

Each application has its own navigation guard.

The model has these modules, one per core file:

| module | file | models |
|---|---|---|
| `TaskEntity` | `task_entity.dfy` | The task record and its enums, with their wire values and column defaults. Also the three ways a task record changes: insert, shallow merge and status change. Also the eager join of `creator` and `assignee`. |
| `Events` | `events_gateway.dfy` | The gateway as a class. `connectedClients` is an insertion-ordered list of unique keys, standing for a JavaScript `Map`. The class also holds the `tasks` room and an append-only log of emitted events. |
| `Tasks` | `tasks_service.dfy` | The service as a class over an in-memory table `map<int, Task>`, with an id sequence, a users table for the joins, and the gateway. |
| `FrontendTasks` | `frontend_task_store.dfy` | The Pinia store of `frontend`: its getters as functions, and its actions as methods of `TaskStore`. |
| `ClientTasks` | `client_tasks.dfy` | The client tasks store. Its getters are filters; its actions are methods of `TasksStore`, and each API answer is a parameter. |
| `ClientNotifications` | `client_notifications.dfy` | The notifications store. The outcome of each API request is a flag. |
| `Guards` | `guards.dfy` | The decisions of both `beforeEach` guards, with the route tables as data. |

Three support modules hold the parts of the JavaScript runtime that the code relies on:

- `Seqs`: `filter`, `findIndex`, `find`, `some`, `splice`, `map` and `Math.max(0, ...xs)`.
- `Text`: `toLowerCase`, `includes`, `localeCompare` and `parseInt`.
- `Sorting`: `Array.prototype.sort` with a comparator. It is written as a stable insertion sort, since ECMAScript requires `sort` to be stable.

Each operation that changes state in the source is a method. Its contract states the whole new state: the store, the registry, the room and the event log. The contract covers the not-found path, the failure path and the success path. Pure queries are functions, and lemmas prove what they mean.

## Model

| member | source | states |
|---|---|---|
| TaskEntity.StatusRoundTrip | backend/src/modules/tasks/entities/task.entity.ts:4-8 | Every status parses back from its wire value. Exactly `open`, `in_progress` and `completed` parse, and each to the status whose value it is. It specifies `StatusValue` and `ParseStatus`, the two directions of the enum column (task.entity.ts:4-8, 27-32). |
| TaskEntity.StatusValueInjective | backend/src/modules/tasks/entities/task.entity.ts:4-8 | Two statuses share a wire value only if they are the same status. |
| TaskEntity.PriorityRoundTrip | backend/src/modules/tasks/entities/task.entity.ts:10-14 | Every priority parses back from its wire value. Exactly `low`, `medium` and `high` parse. It specifies `PriorityValue` and `ParsePriority` (task.entity.ts:10-14, 34-39). |
| TaskEntity.InsertedFields | backend/src/modules/tasks/tasks.service.ts:29-33 | On insert the creator is the caller's id, whatever `creatorId` the payload carries. An omitted status defaults to `open` and an omitted priority to `medium`. Both timestamps are the insert time. It specifies `Inserted`, the `repository.create` of tasks.service.ts:30-33. |
| TaskEntity.PatchedMerge | backend/src/modules/tasks/tasks.service.ts:44-49 | A field present in the patch overwrites the stored field, and every other field keeps its value. The id, creator, loaded relations and `createdAt` are kept, and `updatedAt` becomes the save time. It specifies `Patched`, the `Object.assign` of tasks.service.ts:47. |
| TaskEntity.PatchedIdempotent | backend/src/modules/tasks/tasks.service.ts:47-49 | Applying the same patch twice equals applying it once at the later time. |
| TaskEntity.PatchedEmpty | backend/src/modules/tasks/tasks.service.ts:47-49 | An empty patch changes nothing but `updatedAt`. |
| TaskEntity.WithStatusIsPatch | backend/src/modules/tasks/tasks.service.ts:61-63 | Setting the status and saving is the patch that carries only the status. It specifies `WithStatus`, the assignment at tasks.service.ts:61. |
| TaskEntity.JoinUser | backend/src/modules/tasks/entities/task.entity.ts:44-56 | A foreign key yields a user exactly when it is set and that user exists, and then it yields that user. |
| TaskEntity.LoadedKeepsColumns | backend/src/modules/tasks/entities/task.entity.ts:44-56 | The eager load changes only `creator` and `assignee`. `assignee` is loaded exactly when `assigneeId` names an existing user. Loading twice is loading once. It specifies `Loaded`, the eager relations of task.entity.ts:44-56. |
| Events.MapSetLookup | backend/src/modules/events/events.gateway.ts:30 | `Map.set` keeps keys unique. Afterwards the key maps to the new value and every other key is unchanged. It specifies `MapSet` and `Lookup`, `Map.set` and `Map.get` on `connectedClients` (events.gateway.ts:23, 30). |
| Events.MapSetTwice | backend/src/modules/events/events.gateway.ts:30 | Setting the same key twice leaves one entry, holding the last value. |
| Events.MapDeleteLookup | backend/src/modules/events/events.gateway.ts:38 | `Map.delete` keeps keys unique and removes exactly that key. It is a no-op when the key is absent. It specifies `MapDelete`, the `Map.delete` of events.gateway.ts:38. |
| Events.SocketsOfExact | backend/src/modules/events/events.gateway.ts:62-64 | The creator's socket list holds each socket mapped to that user exactly once, and no other socket. It specifies `SocketsOf`, the `entries().filter().map()` of events.gateway.ts:62-64. |
| Events.SocketsOfEmpty | backend/src/modules/events/events.gateway.ts:62-64 | The list is empty exactly when no socket maps to that user. |
| Events.CompletedBy | backend/src/modules/events/events.gateway.ts:71 | The result is the assignee's username when that is present and non-empty, and otherwise `Someone`. It is never empty. |
| Events.CompletionTargets | backend/src/modules/events/events.gateway.ts:60-74 | The completion emits send exactly one `task:completed` to each socket of the creator and none to other sockets or rooms. Each carries the task's id and title and the `completedBy` name. There are none at all when the creator has no socket. It specifies `CompletionOf`, the payload built at events.gateway.ts:68-73. |
| Events.CompletionEmits | backend/src/modules/events/events.gateway.ts:67-74 | The `forEach` yields one `task:completed` per socket id, in the order of the ids, each addressed to that socket and carrying the same payload. |
| Events.EventsGateway.constructor | backend/src/modules/events/events.gateway.ts:23 | The registry, the room and the log start empty. |
| Events.EventsGateway.Register | backend/src/modules/events/events.gateway.ts:30 | The connection is inserted or overwritten with the given user, and every other mapping is kept. The room and the log do not change. |
| Events.EventsGateway.HandleConnection | backend/src/modules/events/events.gateway.ts:27-35 | The connection is registered under the placeholder user 0, and nothing else changes. |
| Events.EventsGateway.HandleDisconnect | backend/src/modules/events/events.gateway.ts:37-40 | The connection's entry is removed and all others are kept. It is a no-op for an unknown connection. The connection also leaves room `tasks`, as socket.io does on disconnect. The log does not change. |
| Events.EventsGateway.HandleJoinTasks | backend/src/modules/events/events.gateway.ts:42-47 | The client joins room `tasks` without the registry being consulted, and the `joined` acknowledgement is returned. |
| Events.EventsGateway.NotifyNewTask | backend/src/modules/events/events.gateway.ts:50-52 | Exactly one `task:created` event, carrying the task, is appended for room `tasks`. |
| Events.EventsGateway.NotifyTaskUpdate | backend/src/modules/events/events.gateway.ts:55-57 | Exactly one `task:updated` event, carrying the task, is appended for room `tasks`. |
| Events.EventsGateway.NotifyTaskCompletion | backend/src/modules/events/events.gateway.ts:60-75 | The loop appends one `task:completed` per socket of the creator, in registry order. The registry and the room are left unchanged. |
| Tasks.StatusEventsShape | backend/src/modules/tasks/tasks.service.ts:65-71 | A status change ends with exactly one `task:updated` to room `tasks`. Completion puts one notice per creator socket before it. Any other status emits only the update. It specifies `StatusEvents`, the emit order of tasks.service.ts:65-73. |
| Tasks.TasksService.constructor | backend/src/modules/tasks/tasks.service.ts:11-15 | The table starts empty and the id sequence starts at 1. |
| Tasks.TasksService.FindAll | backend/src/modules/tasks/tasks.service.ts:17-19 | The result is exactly the stored rows, each with its relations loaded. |
| Tasks.TasksService.FindOne | backend/src/modules/tasks/tasks.service.ts:21-27 | An absent id gives `NotFound` (the function changes nothing). A present id gives the loaded row. |
| Tasks.TasksService.FindByCreator | backend/src/modules/tasks/tasks.service.ts:81-85 | The result is exactly the loaded tasks whose `creatorId` is the user. |
| Tasks.TasksService.FindByAssignee | backend/src/modules/tasks/tasks.service.ts:87-91 | The result is exactly the loaded tasks whose `assigneeId` is the user. |
| Tasks.TasksService.Create | backend/src/modules/tasks/tasks.service.ts:29-41 | The insert takes a fresh id and makes the caller the creator. Then exactly one `task:created` with the saved task is appended. A failed save changes nothing and emits nothing. |
| Tasks.TasksService.Update | backend/src/modules/tasks/tasks.service.ts:43-55 | An absent id gives `NotFound`, with no save and no event. Otherwise the row from the merge is saved under the same id, then exactly one `task:updated` is emitted. |
| Tasks.TasksService.UpdateStatus | backend/src/modules/tasks/tasks.service.ts:57-74 | An absent id gives `NotFound` with no event. Otherwise only the status (and `updatedAt`) changes. The emits are the completion notices (for `completed` only) followed by one `task:updated`. |
| Tasks.TasksService.Remove | backend/src/modules/tasks/tasks.service.ts:76-79 | Exactly that row is deleted, and it can no longer be found. An absent id gives `NotFound`. No event is emitted. |
| Tasks.CompletionScenario | backend/src/modules/tasks/tasks.service.ts:57-74 | Here connection `c1` belongs to user 7. User 7 creates a task and it is completed. The log then holds `task:created`, then one notice to `c1` with `completedBy` `Someone`, then `task:updated`. An update of an unknown id appends nothing. |
| Seqs.Filter | src/store/tasks.ts:33 | `filter` keeps exactly the passing elements and never lengthens the list. |
| Seqs.FindIndex | frontend/src/stores/taskStore.ts:248 | `findIndex` gives the first index that passes, or -1 exactly when none passes. |
| Seqs.IndexBy | frontend/src/stores/taskStore.ts:248 | `findIndex` by an id gives the first index with that id, or -1 exactly when there is none. All three stores use it: also src/store/tasks.ts:90 and 137, and the `find` at src/store/notifications.ts:47. `DistinctBy` beside it states that no two elements share an id. |
| Seqs.Find | frontend/src/stores/taskStore.ts:158 | `find` gives an element that passes exactly when some element passes, and then it is the element at the first passing index. |
| Seqs.RemoveAt | frontend/src/stores/taskStore.ts:307 | `splice(i, 1)` drops position `i` and shifts the rest down by one. |
| Seqs.MaxOr0 | frontend/src/stores/taskStore.ts:216 | `Math.max(0, ...xs)` is at least 0 and every element, and it is 0 or one of the elements. |
| Text.Lower | frontend/src/stores/taskStore.ts:118 | Every letter is folded to lower case, position by position. |
| Text.LowerIdempotent | frontend/src/stores/taskStore.ts:118-122 | Lower-casing an already lower-cased query changes nothing. |
| Text.IncludesSpec | frontend/src/stores/taskStore.ts:120-122 | `includes` holds exactly when the needle occurs as a contiguous slice at some offset. |
| Text.LocaleCompare | frontend/src/stores/taskStore.ts:146-148 | The comparison is negative, zero or positive, and zero exactly for equal strings. |
| Text.LocaleCompareAntisymmetric | frontend/src/stores/taskStore.ts:146-148 | Swapping the operands negates the result. |
| Text.LocaleCompareTransitive | frontend/src/stores/taskStore.ts:146-148 | The order is transitive. |
| Text.ParseIntRoundTrip | src/store/tasks.ts:38 | An id stored as its decimal text is read back as that id by `parseInt`. It specifies `ParseInt`, JavaScript's `parseInt` with radix 10. |
| Sorting.Sort | frontend/src/stores/taskStore.ts:137 | Sorting is a permutation. |
| Sorting.SortSorted | frontend/src/stores/taskStore.ts:137-152 | Under a consistent comparator the result is ordered, each neighbouring pair and every pair, and it is a permutation. |
| Sorting.SortStable | frontend/src/stores/taskStore.ts:137-152 | The sort is stable: for every element `k`, the elements that tie with `k` under a consistent comparator come out in the order they went in. |
| FrontendTasks.CompareAntisymmetric | frontend/src/stores/taskStore.ts:138-149 | For every sort field, swapping the two tasks negates the comparison. |
| FrontendTasks.CompareTransitive | frontend/src/stores/taskStore.ts:138-149 | For every sort field the comparison is transitive. |
| FrontendTasks.ComparatorConsistent | frontend/src/stores/taskStore.ts:137-152 | Every sort field, ascending or descending, gives a total, transitive comparator. It specifies `Compare` (taskStore.ts:138-149) and `Comparator`, which negates it when descending (taskStore.ts:151). |
| FrontendTasks.SelectedExact | frontend/src/stores/taskStore.ts:113-134 | After the three filters, each task occurs as often as in the list if it passes every active filter, and not at all otherwise. It specifies `Selected`, the three filters of taskStore.ts:114-134. |
| FrontendTasks.FilteredTasksExact | frontend/src/stores/taskStore.ts:113-155 | `filteredTasks` is a permutation of exactly the tasks passing every active filter. It is sorted by the chosen comparator, and no task is invented or duplicated. It specifies `FilteredTasks`, the whole getter of taskStore.ts:113-155. |
| FrontendTasks.FilteredTasksStable | frontend/src/stores/taskStore.ts:137-152 | Tasks that tie under the chosen sort field and direction (the same weight, due time, title or status) keep the order the filters left, which is list order. |
| FrontendTasks.FilteredTasksPass | frontend/src/stores/taskStore.ts:117-134 | Every result is a stored task. It has the filtered status and priority when those are not `all`, and it contains the query case-insensitively in its title, description or a tag. |
| FrontendTasks.SelectedMember | frontend/src/stores/taskStore.ts:113-155 | A task in the result is a stored task that passes every active filter. |
| FrontendTasks.FilteredTasksByPriority | frontend/src/stores/taskStore.ts:142-151 | Sorted by priority, the weights (high 3, medium 2, low 1) never decrease, or never increase when descending. It specifies `Weight`, the `priorityWeight` table of taskStore.ts:143. |
| FrontendTasks.FilteredTasksUnknownField | frontend/src/stores/taskStore.ts:137-152 | An unknown sort field keeps the filtered tasks in list order, as a subsequence of the list. |
| FrontendTasks.TaskById | frontend/src/stores/taskStore.ts:157-159 | The result is the first task with that id, or `null` exactly when no task has it. |
| FrontendTasks.TaskSummary | frontend/src/stores/taskStore.ts:161-168 | `total` is the number of tasks, and no status count exceeds it. Each count is `StatusCount`, the `filter(...).length` of taskStore.ts:163-165. |
| FrontendTasks.SummaryPartition | frontend/src/stores/taskStore.ts:161-168 | When every status is `completed`, `in-progress` or `pending`, the three counts add up to the total. |
| FrontendTasks.NextId | frontend/src/stores/taskStore.ts:216 | The new id is larger than every id in use, and it is 1 or one more than an id in use: exactly `Math.max(0, ...ids) + 1`. |
| FrontendTasks.NewTaskFresh | frontend/src/stores/taskStore.ts:215-229 | The created task's id is not in use, so ids stay unique and `taskById` then finds it. Title, description, status, priority, due date and tags are the form's, and `createdAt` is today. Its assignee id is the form's, or 1 when that is `null` or 0. It has no comments and is created by user 1. It specifies `NewTask`, the object built at taskStore.ts:215-227. |
| FrontendTasks.UpdatedTaskKeeps | frontend/src/stores/taskStore.ts:255-280 | The id, creator, creation date and comments are kept, and the form's fields are taken. The assignee changes exactly when the form's id is set, differs from the current one and is one of the four mock users, and then it becomes that user. It specifies `UpdatedTask` (taskStore.ts:255-264) and `AssigneeAfter`, the assignee change of taskStore.ts:267-280. |
| FrontendTasks.NewCommentFresh | frontend/src/stores/taskStore.ts:332-337 | The comment id is larger than that task's other comment ids, and it is 1 or one more than one of them: exactly `Math.max(0, ...ids) + 1`. The comment is by John Doe, carries the given text and is stamped today. It specifies `NewComment`, the object built at taskStore.ts:332-337. |
| FrontendTasks.MergeFilters | frontend/src/stores/taskStore.ts:350-352 | Fields present in the patch overwrite the filters, and absent ones are kept. |
| FrontendTasks.DeleteRemovesOnly | frontend/src/stores/taskStore.ts:301-308 | Deleting by id removes exactly the matched task and keeps ids unique; the task can no longer be found and the total drops by one. |
| FrontendTasks.TaskStore.constructor | frontend/src/stores/taskStore.ts:7-16 | The store starts with no tasks, filters `all`/`all`/empty query, and sorting by `dueDate` ascending. |
| FrontendTasks.TaskStore.CreateTask | frontend/src/stores/taskStore.ts:206-238 | Exactly the new task is appended and returned, unique ids are kept, and loading ends with no error. |
| FrontendTasks.TaskStore.UpdateTask | frontend/src/stores/taskStore.ts:240-291 | An unknown id returns `null`, sets `Failed to update task` and leaves the tasks unchanged. Otherwise only the matching index is replaced, by the updated task. |
| FrontendTasks.TaskStore.DeleteTask | frontend/src/stores/taskStore.ts:293-316 | An unknown id returns `false`, sets `Failed to delete task` and leaves the tasks unchanged. Otherwise the matching task is spliced out and `true` is returned. |
| FrontendTasks.TaskStore.AddComment | frontend/src/stores/taskStore.ts:318-348 | An unknown task returns `null` and sets `Failed to add comment`. Otherwise one new comment is appended to that task only. |
| FrontendTasks.TaskStore.SetFilters | frontend/src/stores/taskStore.ts:350-352 | The filters become the merge of the old filters with the patch, and nothing else changes. |
| FrontendTasks.TaskStore.SetSorting | frontend/src/stores/taskStore.ts:354-357 | The sort field and direction are set, and nothing else changes. |
| ClientTasks.StatusGetterExact | src/store/tasks.ts:33-35 | Each status getter holds exactly the tasks with that status, as often as in the list and in list order. It specifies `OpenTasks`, `InProgressTasks` and `CompletedTasks` (src/store/tasks.ts:33-35), all three through `WithStatusValue`. |
| ClientTasks.StatusPartition | src/store/tasks.ts:33-35 | `openTasks`, `inProgressTasks` and `completedTasks` together hold every task exactly once. |
| ClientTasks.CurrentUserIdDefaults | src/store/tasks.ts:38 | With no stored user id, or an empty one, the current user is 0. A stored decimal id reads back as itself. It specifies `CurrentUserId`, the `parseInt` of the stored `userId`, or of `'0'` when it is missing or empty, at src/store/tasks.ts:38 and 43. |
| ClientTasks.MyTasksExact | src/store/tasks.ts:37-45 | `myCreatedTasks` and `myAssignedTasks` hold exactly the tasks whose `creatorId` or `assigneeId` is the current user, and none when the stored id is not a number. It specifies `MyCreatedTasks` (src/store/tasks.ts:37-40) and `MyAssignedTasks` (src/store/tasks.ts:42-45). |
| ClientTasks.ReplaceById | src/store/tasks.ts:136-141 | The first task with that id is replaced and every other position is kept. The length never changes, nothing happens for an absent id, and ids stay unique. |
| ClientTasks.WithTaskSpec | src/store/tasks.ts:129-134 | `addTask` appends exactly when the id is new and otherwise leaves the list unchanged. It is idempotent and keeps ids unique. It specifies `WithTask`, the body of `addTask` (src/store/tasks.ts:129-134). |
| ClientTasks.TasksStore.constructor | src/store/tasks.ts:26-30 | The store starts empty, not loading, with no error. |
| ClientTasks.TasksStore.CreateTask | src/store/tasks.ts:64-80 | On success exactly the server's task is appended and returned. On failure the tasks are unchanged, `Failed to create task` is set and returned, and loading is off. |
| ClientTasks.TasksStore.Replace | src/store/tasks.ts:86-102 | On success the entry matched by the argument id is replaced by the answer, with `success: true` whether or not one matched. On failure the tasks are unchanged and the message is set. |
| ClientTasks.TasksStore.UpdateTask | src/store/tasks.ts:82-103 | This is `Replace` with message `Failed to update task`. |
| ClientTasks.TasksStore.UpdateTaskStatus | src/store/tasks.ts:105-126 | This is `Replace` with message `Failed to update task status`. |
| ClientTasks.TasksStore.AddTask | src/store/tasks.ts:129-134 | The tasks become the duplicate-free append of the event's task. |
| ClientTasks.TasksStore.UpdateTaskFromSocket | src/store/tasks.ts:136-141 | The task with the event's id is replaced, and the length is kept. |
| ClientTasks.CreateAfterEventDuplicates | src/store/tasks.ts:69-72 | `createTask` pushes without an id check. So when the `task:created` event for the same task arrives before the HTTP answer, the list holds that task twice. |
| ClientNotifications.UnreadExact | src/store/notifications.ts:22-23 | `unreadNotifications` is exactly the unread items, in order. `unreadCount` is its length, at most the total. It specifies `UnreadNotifications` and `UnreadCount` (src/store/notifications.ts:22-23). |
| ClientNotifications.UnreadCountMarkAt | src/store/notifications.ts:47-50 | Marking one item read lowers the unread count by one exactly when it was unread. |
| ClientNotifications.MarkedReadSpec | src/store/notifications.ts:47-50 | Only the first item with that id becomes read, and the length and all other items are kept. It is a no-op for an absent id. It specifies `MarkedRead`, the `find` and assignment of src/store/notifications.ts:47-50. |
| ClientNotifications.AllReadSpec | src/store/notifications.ts:60-63 | After marking everything read nothing is unread. The length and all other fields are kept. It specifies `AllRead`, the `forEach` of src/store/notifications.ts:61-63. |
| ClientNotifications.WithNotificationSpec | src/store/notifications.ts:70-75 | A new id is prepended and a known one changes nothing. The operation is idempotent and keeps ids unique. The unread count grows only for a new unread item. It specifies `WithNotification`, the body of `addNotification` (src/store/notifications.ts:70-75). |
| ClientNotifications.NotificationsStore.constructor | src/store/notifications.ts:15-19 | The store starts empty, not loading, with no error. |
| ClientNotifications.NotificationsStore.MarkAsRead | src/store/notifications.ts:42-54 | On success the first item with that id is marked read. When the request fails nothing changes. |
| ClientNotifications.NotificationsStore.MarkAllAsRead | src/store/notifications.ts:56-67 | The loop marks every item read, after which the unread count is 0 and the length is kept. When the request fails nothing changes. |
| ClientNotifications.NotificationsStore.AddNotification | src/store/notifications.ts:70-75 | The list becomes the duplicate-free prepend of the item. |
| Guards.RouteNamed | frontend/src/router.ts:4-69 | The route looked up by name is in the table and carries that name. There is none exactly when no route has the name. |
| Guards.FrontendGuard | frontend/src/main.ts:36-60 | Login is chosen exactly for a protected route without the flag `"true"`. A signed-in user goes to the dashboard exactly from `/login` or `/` and is never sent to Login. A signed-out user on an open route passes. |
| Guards.FrontendRedirectSettles | frontend/src/main.ts:43-54 | Every redirect of the guard, for every route of the table, leads to a route that the guard then allows. |
| Guards.ClientGuard | src/router/index.ts:53-61 | Login is the only redirect. It is taken exactly for a protected route with no stored token, and any stored token, even an empty one, passes. |
| Guards.ClientRedirectSettles | src/router/index.ts:53-61 | The Login route this guard redirects to is itself allowed. |

## Left out

- The ORM and the database are replaced by an in-memory table. The database's id sequence is a counter. A save or delete either succeeds or fails, as a flag. The SQL queries themselves are not modelled.
- Tasks.TasksService.FindAll: it returns a set, not a sequence, because the query has no `ORDER BY` and its row order is the database's.
- Tasks.TasksService.FindByCreator: it returns a set for the same reason; the query at tasks.service.ts:81-85 has no `ORDER BY`.
- Tasks.TasksService.FindByAssignee: it returns a set for the same reason; the query at tasks.service.ts:87-91 has no `ORDER BY`.
- update-task.dto.ts is not part of this model. Its DTO is taken to be the create DTO with every field optional. A field sent as an explicit `null`, and stray fields the merge would copy onto the task, are not modelled.
- The save after a merge keeps the previously loaded `assignee` relation next to a changed `assigneeId`. Which of the two the ORM writes is not modelled; a later read re-joins from the id (`Loaded`).
- The socket.io transport is not modelled: delivery, acknowledgement frames and `client.join`. Emits are entries in the event log, and the `tasks` room is a set of connection ids.
- The `catch` branch of `handleConnection` and the private `disconnect` helper are not modelled, because `Map.set` cannot throw there. Logging is left out.
- Events.EventsGateway.NotifyTaskCompletion: all notices of one completion carry the same `completedAt`. The source calls `new Date()` once per socket; clocks are parameters here.
- Dates and times are opaque parameters: `now`, `today`, and the `dueTime` function standing for `new Date(d).getTime()`. A `NaN` from an invalid due date, which would make the comparator inconsistent, is not modelled.
- Text.ParseInt: it returns the exact integer. JavaScript's `parseInt` returns a double, so digit strings above 2^53 are rounded there.
- `localeCompare` is modelled as lexicographic comparison by character code, and `toLowerCase` as ASCII case folding. Locale collation and Unicode case mapping are left out.
- In the `frontend` store, priority is an enum. The source's `as` cast would let any string through, and an unknown priority would give the comparator `NaN`.
- `fetchTasks` and `getTask` in the `frontend` store are not modelled: they copy built-in mock data after a timer. So are `fetchTasks` and `fetchNotifications` in the client stores, which replace the list with the API's answer.
- The `catch` branches of `createTask` and of the successful paths of the `frontend` actions are not modelled: nothing in those `try` blocks throws except the not-found `throw`, which is modelled. The `isLoading` flag being true during the simulated delay is collapsed into one step.
- Aliasing is not modelled. The list copied from the mock data shares its `comments` arrays, and `markAsRead` mutates the element returned by `find`. Here both are replacements at an index.
- API requests, `localStorage` reads and socket events are parameters: an `Option` answer, an `apiOk` flag, the stored item. The `await` and concurrency between them are left out; each action is one sequential step.
- In the guards, `console.log`, vue-router's path matching and the pattern of the catch-all route are left out. A route's `requiresAuth` is a boolean that is false when `meta` is absent.
