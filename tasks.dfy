/** The in-memory task store of the service, as a state machine on values:
    the map from ID to task, the next-ID counter, and what each store operation
    does to them and answers. The class in service.dfy runs these operations in
    place; the lemmas about sequences of requests are stated on these functions. */
module Tasks {
  import opened Wrappers

  /** A task record: its ID, its label and its completion flag. */
  datatype Task = Task(id: int, name: string, done: bool)

  /** The HTTP statuses the service answers with. */
  datatype Status = OK | Created | NoContent | BadRequest | NotFound | MethodNotAllowed

  /** The numeric HTTP code of a status. */
  function Code(st: Status): (c: int)
    ensures 200 <= c < 300 <==> st == OK || st == Created || st == NoContent
    ensures 400 <= c < 500 <==> st == BadRequest || st == NotFound || st == MethodNotAllowed
  {
    match st
    case OK => 200
    case Created => 201
    case NoContent => 204
    case BadRequest => 400
    case NotFound => 404
    case MethodNotAllowed => 405
  }

  /** What a reply carries: nothing, one task, or the list of all tasks. */
  datatype Payload = NoBody | One(task: Task) | Many(items: seq<Task>)

  datatype Reply = Reply(status: Status, payload: Payload)

  /** The store: the task map and the counter that gives the next ID. */
  datatype Store = Store(tasks: map<int, Task>, nextId: int)

  /** The store after an operation, and the reply the operation sends. */
  datatype Step = Step(store: Store, reply: Reply)

  /** The store invariant: the counter is non-negative, every key is an ID
      below it (so the counter never hands out an ID in use or used before),
      and every stored task carries its own key as its ID. */
  ghost predicate Valid(s: Store) {
    && 0 <= s.nextId
    && forall k :: k in s.tasks ==> 0 <= k < s.nextId && s.tasks[k].id == k
  }

  /** The tasks held by the store (the values of its map). */
  ghost function Stored(s: Store): set<Task> {
    set k | k in s.tasks :: s.tasks[k]
  }

  /** In a valid store a task is stored iff it sits under its own ID. */
  lemma StoredUnderOwnId(s: Store, t: Task)
    requires Valid(s)
    ensures t in Stored(s) <==> t.id in s.tasks && s.tasks[t.id] == t
  {
  }

  const SeedName: string := "Выучить Go"

  /** The store at start-up: the one seed task under ID 0, counter at 1. */
  function Seed(): (s: Store)
    ensures Valid(s)
    ensures s.tasks.Keys == {0} && s.tasks[0].name == SeedName && !s.tasks[0].done
    ensures s.nextId == 1
  {
    Store(map[0 := Task(0, SeedName, false)], 1)
  }

  /** Create: `body` is the decoded request body (None when it did not decode).
      A decoded task is stored under the current counter value, whatever ID the
      client sent; the counter moves on by one. */
  function Create(s: Store, body: Option<Task>): (r: Step)
    ensures body.None? ==> r == Step(s, Reply(BadRequest, NoBody))
    ensures body.Some? ==>
      && r.reply.status == Created && r.reply.payload.One?
      && r.reply.payload.task.id == s.nextId
      && r.reply.payload.task.name == body.value.name
      && r.reply.payload.task.done == body.value.done
      && r.store.nextId == s.nextId + 1
      && r.store.tasks.Keys == s.tasks.Keys + {s.nextId}
      && Get(r.store, s.nextId) == Reply(OK, r.reply.payload)
    ensures Valid(s) ==> Valid(r.store)
    ensures Valid(s) && body.Some? ==>
      && s.nextId !in s.tasks
      && |r.store.tasks| == |s.tasks| + 1
      && forall k :: k in s.tasks ==> r.store.tasks[k] == s.tasks[k]
  {
    match body
    case None => Step(s, Reply(BadRequest, NoBody))
    case Some(t) =>
      var created := t.(id := s.nextId);
      Step(Store(s.tasks[created.id := created], s.nextId + 1), Reply(Created, One(created)))
  }

  /** Get: the stored task under `id`, or NotFound. */
  function Get(s: Store, id: int): (r: Reply)
    ensures r.status == OK || r.status == NotFound
    ensures r.status == OK <==> id in s.tasks
    ensures id in s.tasks ==> r.payload == One(s.tasks[id])
    ensures id !in s.tasks ==> r.payload == NoBody
    ensures Valid(s) && r.status == OK ==> r.payload.task.id == id
  {
    if id in s.tasks then Reply(OK, One(s.tasks[id])) else Reply(NotFound, NoBody)
  }

  /** Update (replace): presence of `id` is checked before the body is looked
      at, so an absent ID is NotFound whatever the body; a present ID with an
      undecodable body is BadRequest; otherwise the task under `id` is replaced
      by the body's name and flag with its ID forced to `id`. */
  function Update(s: Store, id: int, body: Option<Task>): (r: Step)
    ensures r.store.tasks.Keys == s.tasks.Keys
    ensures id !in s.tasks ==> r == Step(s, Reply(NotFound, NoBody))
    ensures id in s.tasks && body.None? ==> r == Step(s, Reply(BadRequest, NoBody))
    ensures id in s.tasks && body.Some? ==>
      && r.reply.status == OK
      && r.reply.payload == One(Task(id, body.value.name, body.value.done))
      && r.store.nextId == s.nextId
      && Get(r.store, id) == r.reply
      && forall k :: k in s.tasks && k != id ==> r.store.tasks[k] == s.tasks[k]
    ensures Valid(s) ==> Valid(r.store)
  {
    if id !in s.tasks then Step(s, Reply(NotFound, NoBody))
    else match body
      case None => Step(s, Reply(BadRequest, NoBody))
      case Some(t) =>
        var updated := t.(id := id);
        Step(s.(tasks := s.tasks[id := updated]), Reply(OK, One(updated)))
  }

  /** Delete: removes the task under `id` and answers NoContent, or answers
      NotFound when there is none. The counter is never wound back. */
  function Delete(s: Store, id: int): (r: Step)
    ensures id !in s.tasks ==> r == Step(s, Reply(NotFound, NoBody))
    ensures id in s.tasks ==>
      && r.reply == Reply(NoContent, NoBody)
      && r.store.tasks.Keys == s.tasks.Keys - {id}
      && forall k :: k in r.store.tasks ==> r.store.tasks[k] == s.tasks[k]
    ensures r.store.nextId == s.nextId
    ensures Get(r.store, id) == Reply(NotFound, NoBody)
    ensures Valid(s) ==> Valid(r.store)
  {
    if id !in s.tasks then Step(s, Reply(NotFound, NoBody))
    else Step(s.(tasks := s.tasks - {id}), Reply(NoContent, NoBody))
  }

  /** `items` lists the store: one entry per stored task, in any order. */
  ghost predicate IsListing(s: Store, items: seq<Task>) {
    |items| == |s.tasks| && multiset(items) == multiset(Stored(s))
  }

  /** In a valid store a listing holds exactly the stored tasks, each once. */
  lemma ListingContents(s: Store, items: seq<Task>)
    requires Valid(s) && IsListing(s, items)
    ensures forall t :: t in items <==> t.id in s.tasks && s.tasks[t.id] == t
    ensures forall i, j :: 0 <= i < j < |items| ==> items[i].id != items[j].id
  {
    forall t
      ensures t in items <==> t.id in s.tasks && s.tasks[t.id] == t
    {
      assert t in items <==> t in multiset(items);
      StoredUnderOwnId(s, t);
    }
    forall i, j | 0 <= i < j < |items|
      ensures items[i].id != items[j].id
    {
      StoredUnderOwnId(s, items[i]);
      StoredUnderOwnId(s, items[j]);
      assert multiset(Stored(s))[items[i]] == 1;
      CountedTwice(items, i, j);
    }
  }

  /** An element found at two positions of a sequence is counted twice. */
  lemma CountedTwice<T>(xs: seq<T>, i: nat, j: nat)
    requires i < j < |xs|
    ensures multiset(xs)[xs[i]] >= if xs[i] == xs[j] then 2 else 1
  {
    assert xs == xs[..j] + xs[j..];
    assert xs[i] in xs[..j];
    assert xs[j] in xs[j..];
  }

  /** The update handler as written takes the lock twice: once to check that
      `id` is present in `before`, and again to write into `atWrite`, the store
      as it is when the second lock is taken. Other requests may run in between. */
  function UpdateAsWritten(before: Store, atWrite: Store, id: int, body: Option<Task>): (r: Step)
    ensures id !in before.tasks ==> r == Step(atWrite, Reply(NotFound, NoBody))
    ensures id in before.tasks && body.None? ==> r == Step(atWrite, Reply(BadRequest, NoBody))
    ensures id in before.tasks && body.Some? ==>
      && r.store.tasks.Keys == atWrite.tasks.Keys + {id}
      && r.reply == Reply(OK, One(Task(id, body.value.name, body.value.done)))
      && Get(r.store, id) == r.reply
      && r.store.nextId == atWrite.nextId
      && forall k :: k in atWrite.tasks && k != id ==> r.store.tasks[k] == atWrite.tasks[k]
  {
    if id !in before.tasks then Step(atWrite, Reply(NotFound, NoBody))
    else match body
      case None => Step(atWrite, Reply(BadRequest, NoBody))
      case Some(t) =>
        var updated := t.(id := id);
        Step(atWrite.(tasks := atWrite.tasks[id := updated]), Reply(OK, One(updated)))
  }

  /** With nothing run between the two locks, the update as written is the
      atomic Update. */
  lemma UpdateAsWrittenSequential(s: Store, id: int, body: Option<Task>)
    ensures UpdateAsWritten(s, s, id, body) == Update(s, id, body)
  {
  }

  /** A delete that runs between the two locks of the update as written: the
      delete answers NoContent, yet afterwards the update puts the task back. */
  lemma UpdateRaceRestoresDeleted()
    ensures var s0 := Seed();
            var del := Delete(s0, 0);
            var upd := UpdateAsWritten(s0, del.store, 0, Some(Task(7, "x", true)));
            && del.reply.status == NoContent
            && 0 !in del.store.tasks
            && upd.reply.status == OK
            && 0 in upd.store.tasks
            && upd.store.tasks.Keys != del.store.tasks.Keys
  {
  }
}
