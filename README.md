# Task service model

A Dafny model of a small in-memory task-tracking HTTP service written in Go
(`main.go`). Clients list, create, fetch, replace and delete task records
(`id`, `name`, `done`) through two routes, `/tasks` and `/tasks/{id}`. The
service keeps a map from integer ID to task and a counter that gives the next
ID; it starts with one seed task under ID 0 and the counter at 1.

The model has four modules:

- `Wrappers` (`wrappers.dfy`): `Option` and `Result`.
- `Tasks` (`tasks.dfy`): the store as a state machine on values. `Store` holds
  the map and the counter, and `Valid` is the store invariant: the counter is
  non-negative, every key is below it, and every stored task carries its key
  as its ID. `Create`, `Get`, `Update` and `Delete` give the new store and the
  reply of each store operation. `IsListing` says when a list is a listing of
  the store: the same size and the same multiset of tasks, in any order.
- `Router` (`router.dfy`): `Dispatch` maps a route and an HTTP method to the
  store operation to run, or to the 400 or 405 error.
- `Service` (`service.dfy`): the class `TaskServer`. Its `tasks` map field and
  `nextId` counter are changed in place by one method per handler. Each method
  is proved to leave the object in the state, and to send the reply, that the
  matching `Tasks` function gives. `ListTasks` is a loop that walks the keys in
  an arbitrary order, as Go's map iteration does. `Handle` runs one request.
  `Next`, `Run` and `Issued` follow a whole sequence of requests, and the
  lemmas over them prove what the counter guarantees.

Inputs that come from libraries are abstract:

- A request body is the result of decoding it, `Option<Task>`. `None` means
  the JSON did not decode. The Go handler decodes into a whole `Task`, so a
  client-sent `id` does arrive. The model keeps it and proves that it is
  overwritten.
- The `{id}` segment of an item path is the result of parsing it as an
  integer, `Option<int>`.
- Statuses are the values `OK`, `Created`, `NoContent`, `BadRequest`,
  `NotFound` and `MethodNotAllowed`. `Code` maps them to 200, 201, 204, 400,
  404 and 405.

## Model

| member | source | states |
|---|---|---|
| `Tasks.Seed` | main.go:155 | The start-up store is valid and holds only the seed task (ID 0, the seed name, not done). The counter is 1, as set at main.go:20. |
| `Tasks.Create` | main.go:75-92 | An undecodable body gives 400 and leaves the store alone. A decoded body gives 201 with a task whose ID is the old counter, not the client's, and whose name and flag are the client's. The key set grows by exactly that ID and the counter grows by one. A later get of that ID returns the task. On a valid store the ID was not in use, so the map grows by one and no stored task changes. Validity is preserved. |
| `Tasks.Get` | main.go:95-107 | 200 with the stored task if and only if the ID is present, otherwise 404 with no body. In a valid store the returned task's ID is the requested ID. |
| `Tasks.Update` | main.go:111-136 | An absent ID gives 404 and no change, whatever the body. A present ID with an undecodable body gives 400 and no change. Otherwise the reply is 200 with the body's name and flag under the URL's ID. A later get of that ID returns the same task. No other task, no key and not the counter change. Validity is preserved. |
| `Tasks.Delete` | main.go:140-151 | An absent ID gives 404 and no change. A present ID gives 204, removes only that key and keeps the other tasks. The counter never changes, and a later get of the ID is 404. Validity is preserved. |
| `Tasks.Code` | main.go:25-151 | The statuses the handlers send map to their HTTP codes: 200, 201 and 204 are exactly the success statuses, and 400, 404 and 405 exactly the error statuses. |
| `Tasks.StoredUnderOwnId` | main.go:85-86 | In a valid store a task is stored exactly when it sits under its own ID. |
| `Tasks.ListingContents` | main.go:65-68 | In a valid store any listing holds exactly the stored tasks, and no two entries share an ID. |
| `Tasks.UpdateAsWritten` | main.go:111-132 | The update handler as written checks presence in the store seen under the first lock and writes into the store seen under the second. An absent ID gives 404, and a present ID with an undecodable body gives 400; both leave the later store alone. A present ID with a decoded body gives 200 with the body's name and flag under the URL's ID. It writes that task under the ID in the later store, keeps that store's other tasks and counter, and adds the ID to its keys. |
| `Tasks.UpdateAsWrittenSequential` | main.go:111-132 | With nothing run between its two locks, the update as written equals `Update`. |
| `Tasks.UpdateRaceRestoresDeleted` | main.go:111-132 | A delete that runs between the update's two locks answers 204, and the update then puts the deleted task back (see Findings). |
| `Router.Dispatch` | main.go:25-58 | 400 exactly on an item path whose ID did not parse, whatever the method. 405 exactly when the ID parsed or the path is `/tasks` and the route does not accept the method (GET/POST on `/tasks`; GET/PUT/DELETE on `/tasks/{id}`). Otherwise the chosen action's route and method are the request's. |
| `Router.DispatchReachesEveryAction` | main.go:25-58 | Every action (list, create, get, replace, delete) is reached by the request that asks for it. |
| `Router.DispatchInjective` | main.go:25-58 | Two requests dispatched to the same action have the same route and method. |
| `Router.SuccessStatus` | main.go:89-150 | A successful action's status is a 2xx code. It is 201 exactly for create and 204 exactly for delete, and 200 otherwise. |
| `Service.Next` | main.go:25-58 | Handling one request preserves validity. It leaves the store alone when dispatch fails and when the request is a list or a get. The counter stays put, or moves up by one exactly when the request hands out the old counter as a new ID. |
| `Service.IssuedId` | main.go:85-87 | A request hands out an ID exactly when it is a POST on `/tasks` with a decodable body. The ID is the current counter and is the one in the 201 reply. |
| `Service.IssuedIdsIncrease` | main.go:85-87 | Over any sequence of requests, deletes included, the store stays valid and the counter never decreases. The IDs handed out strictly increase and lie between the starting and the final counter. |
| `Service.NeverReissued` | main.go:85-87 | No ID handed out over a sequence of requests was in use at the start, and none is handed out twice, so a deleted ID is never reissued. |
| `Service.SuccessReplyStatus` | main.go:25-151 | Any 2xx reply to a dispatched request has the status of its action: 201 for create (main.go:90), 204 for delete (main.go:150), and the default 200 for list, get and update. |
| `Service.Walkthrough` | main.go:75-151 | From start-up: POST "Buy milk" gives 201 with ID 1, and any listing then shows both tasks. PUT /tasks/1 with done=true gives 200 with the updated task. DELETE /tasks/0 gives 204, a later GET /tasks/0 gives 404, and GET with an unparsable ID gives 400. |
| `Service.TaskServer.constructor` | main.go:153-155 | The new server is valid and holds the start-up store. |
| `Service.TaskServer.ListTasks` | main.go:61-72 | Answers 200 with a listing of the store: one entry per stored task, as a multiset equal to the map's values, in an unspecified order. The loop over the keys proves it. |
| `Service.TaskServer.CreateTask` | main.go:75-92 | Keeps the object valid. The new map and counter and the reply are those of `Create` on the old state. |
| `Service.TaskServer.GetTask` | main.go:95-107 | The reply is that of `Get`, and nothing changes. |
| `Service.TaskServer.UpdateTask` | main.go:111-136 | Keeps the object valid. The new map and counter and the reply are those of `Update` on the old state. |
| `Service.TaskServer.DeleteTask` | main.go:140-151 | Keeps the object valid. The new map and counter and the reply are those of `Delete` on the old state. |
| `Service.TaskServer.Handle` | main.go:25-58 | Keeps the object valid. The new state is `Next` of the old one, and the reply answers the request: the dispatch error, a listing, or the reply of the chosen store operation. |

## Findings

| source | as written | input that shows it | evidently intended | confidence | as-written member | corrected member |
|---|---|---|---|---|---|---|
| main.go:112-132 | `updateTask` checks that the ID is present under one lock, releases it, decodes the body, then takes the lock again and writes `tasks[id]` without checking again | From the seed store, a PUT /tasks/0 with a valid body passes the check. A DELETE /tasks/0 then runs and answers 204. The PUT then writes key 0 back and answers 200, so the deleted task comes back | The check and the write happen under one lock, as in `deleteTask` (main.go:141-149), so an update never adds a key | medium, not executed | `Tasks.UpdateRaceRestoresDeleted` | `Tasks.Update` |

`Tasks.Update` models the atomic update, and `Service.TaskServer.UpdateTask`
and `Service.Next` use it. Its contract proves that the key set never changes.

## Left out

- HTTP plumbing: response writers, the `Content-Type` header, route
  registration and `ListenAndServe` (main.go:157-161). Replies are modelled as
  a status and a payload. Paths that match neither route are handled by the
  Go HTTP library and are not part of this model.
- JSON encoding and decoding (`encoding/json`). It is a library. A decoded
  body is an `Option<Task>` input, and replies carry tasks, not JSON text.
- `strconv.Atoi` on the `{id}` segment. It is a library parse, so its result
  is the `Option<int>` in `Router.Item`.
- The mutex and concurrent requests. The model is sequential and every
  handler is one atomic step. Apart from the finding above, it says nothing
  about interleavings.
- Service.TaskServer.UpdateTask: modelled as one atomic step. The handler as
  written releases the lock between its check and its write; that version is
  `Tasks.UpdateAsWritten`, under Findings.
- Go's fixed-width `int`: the counter is an unbounded integer, so the
  overflow of `nextID` after 2^63 - 1 creates is not modelled.
- The text of the error messages that go with 400, 404 and 405 replies. The
  model keeps only their status and no body.
- The order of a listing. Go's map iteration order is unspecified, so
  `IsListing` allows any order and compares listings as multisets.
