/** The service: a task server object that owns the store and changes it in
    place, the handling of one request, and what sequences of requests do. */
module Service {
  import opened Wrappers
  import opened Tasks
  import opened Router

  /** A request: its route, its HTTP method, and the decoded body (None when
      the body does not decode; only create and update look at it). */
  datatype Request = Request(route: Route, verb: string, body: Option<Task>)

  /** The store after handling `req`. */
  function Next(s: Store, req: Request): (s': Store)
    ensures Valid(s) ==> Valid(s')
    ensures Dispatch(req.route, req.verb).Failure? ==> s' == s
    ensures Dispatch(req.route, req.verb) == Success(ListAll) ==> s' == s
    ensures Dispatch(req.route, req.verb).Success? && Dispatch(req.route, req.verb).value.GetOne? ==> s' == s
    ensures s'.nextId == s.nextId || (s'.nextId == s.nextId + 1 && IssuedId(s, req) == Some(s.nextId))
    ensures IssuedId(s, req).Some? ==> s'.nextId == s.nextId + 1
  {
    match Dispatch(req.route, req.verb)
    case Failure(_) => s
    case Success(ListAll) => s
    case Success(CreateOne) => Create(s, req.body).store
    case Success(GetOne(_)) => s
    case Success(ReplaceOne(id)) => Update(s, id, req.body).store
    case Success(DeleteOne(id)) => Delete(s, id).store
  }

  /** `resp` is a correct reply to `req` on store `s`. */
  ghost predicate Answers(s: Store, req: Request, resp: Reply) {
    match Dispatch(req.route, req.verb)
    case Failure(err) => resp == Reply(err, NoBody)
    case Success(ListAll) => resp.status == OK && resp.payload.Many? && IsListing(s, resp.payload.items)
    case Success(CreateOne) => resp == Create(s, req.body).reply
    case Success(GetOne(id)) => resp == Get(s, id)
    case Success(ReplaceOne(id)) => resp == Update(s, id, req.body).reply
    case Success(DeleteOne(id)) => resp == Delete(s, id).reply
  }

  /** The ID handed out by `req`, if it creates a task. */
  function IssuedId(s: Store, req: Request): (r: Option<int>)
    ensures r.Some? <==> Dispatch(req.route, req.verb) == Success(CreateOne) && req.body.Some?
    ensures r.Some? ==> r.value == s.nextId && Create(s, req.body).reply.payload.task.id == r.value
  {
    if Dispatch(req.route, req.verb) == Success(CreateOne) then
      var reply := Create(s, req.body).reply;
      if reply.status == Created then Some(reply.payload.task.id) else None
    else None
  }

  /** The store after handling `reqs` in order. */
  function Run(s: Store, reqs: seq<Request>): Store
    decreases |reqs|
  {
    if reqs == [] then s else Run(Next(s, reqs[0]), reqs[1..])
  }

  /** The IDs handed out while handling `reqs`, in order. */
  function Issued(s: Store, reqs: seq<Request>): seq<int>
    decreases |reqs|
  {
    if reqs == [] then []
    else
      var first := match IssuedId(s, reqs[0]) case Some(id) => [id] case None => [];
      first + Issued(Next(s, reqs[0]), reqs[1..])
  }

  ghost predicate StrictlyIncreasing(xs: seq<int>) {
    forall i, j :: 0 <= i < j < |xs| ==> xs[i] < xs[j]
  }

  lemma PrependIncreasing(x: int, xs: seq<int>)
    requires StrictlyIncreasing(xs)
    requires forall y :: y in xs ==> x < y
    ensures StrictlyIncreasing([x] + xs)
  {
    var all := [x] + xs;
    forall i, j | 0 <= i < j < |all|
      ensures all[i] < all[j]
    {
      assert all[j] == xs[j - 1] && xs[j - 1] in xs;
    }
  }

  /** Over any sequence of requests, deletions included, the store stays
      valid, the counter never goes back, and the IDs handed out strictly
      increase and lie between the starting and the final counter. */
  lemma {:induction false} IssuedIdsIncrease(s: Store, reqs: seq<Request>)
    requires Valid(s)
    ensures Valid(Run(s, reqs))
    ensures s.nextId <= Run(s, reqs).nextId
    ensures forall id :: id in Issued(s, reqs) ==> s.nextId <= id < Run(s, reqs).nextId
    ensures StrictlyIncreasing(Issued(s, reqs))
    decreases |reqs|
  {
    if reqs != [] {
      var s1 := Next(s, reqs[0]);
      IssuedIdsIncrease(s1, reqs[1..]);
      var rest := Issued(s1, reqs[1..]);
      assert Run(s, reqs) == Run(s1, reqs[1..]);
      match IssuedId(s, reqs[0])
      case None =>
        assert Issued(s, reqs) == rest;
      case Some(id) =>
        assert Issued(s, reqs) == [id] + rest;
        PrependIncreasing(id, rest);
    }
  }

  /** No ID handed out over a sequence of requests was in use in the starting
      store, and none is handed out twice, so a deleted ID is never reissued. */
  lemma NeverReissued(s: Store, reqs: seq<Request>)
    requires Valid(s)
    ensures forall id :: id in Issued(s, reqs) ==> id !in s.tasks
    ensures forall i, j :: 0 <= i < j < |Issued(s, reqs)| ==> Issued(s, reqs)[i] != Issued(s, reqs)[j]
  {
    IssuedIdsIncrease(s, reqs);
  }

  /** Every successful reply carries the status of the action it answers:
      201 for create, 204 for delete, 200 for list, get and update. */
  lemma SuccessReplyStatus(s: Store, req: Request, resp: Reply)
    requires Dispatch(req.route, req.verb).Success? && Answers(s, req, resp)
    requires 200 <= Code(resp.status) < 300
    ensures resp.status == SuccessStatus(Dispatch(req.route, req.verb).value)
  {
  }

  /** A session from start-up: create "Buy milk" (it gets ID 1), list both
      tasks, mark it done, delete the seed task, then fetch it (404), and ask
      for an item whose ID does not parse (400). */
  lemma Walkthrough()
    ensures var post := Request(Collection, MethodPost, Some(Task(0, "Buy milk", false)));
            var s1 := Next(Seed(), post);
            var put := Request(Item(Some(1)), MethodPut, Some(Task(0, "Buy milk", true)));
            var s2 := Next(s1, put);
            var del := Request(Item(Some(0)), MethodDelete, None);
            var s3 := Next(s2, del);
            && Answers(Seed(), post, Reply(Created, One(Task(1, "Buy milk", false))))
            && (forall items :: IsListing(s1, items) ==>
                  Task(0, SeedName, false) in items && Task(1, "Buy milk", false) in items)
            && Answers(s1, put, Reply(OK, One(Task(1, "Buy milk", true))))
            && Answers(s2, del, Reply(NoContent, NoBody))
            && Answers(s3, Request(Item(Some(0)), MethodGet, None), Reply(NotFound, NoBody))
            && Answers(s3, Request(Item(None), MethodGet, None), Reply(BadRequest, NoBody))
  {
    var s1 := Next(Seed(), Request(Collection, MethodPost, Some(Task(0, "Buy milk", false))));
    forall items | IsListing(s1, items)
      ensures Task(0, SeedName, false) in items && Task(1, "Buy milk", false) in items
    {
      ListingContents(s1, items);
    }
  }

  /** The object that serves requests: the task map and the ID counter,
      changed in place by the handlers. */
  class TaskServer {
    var tasks: map<int, Task>
    var nextId: int

    /** The store this object holds. */
    function State(): Store
      reads this
    {
      Store(tasks, nextId)
    }

    ghost predicate Valid()
      reads this
    {
      Tasks.Valid(State())
    }

    /** Start-up: the seed task under ID 0 and the counter at 1. */
    constructor ()
      ensures Valid() && State() == Seed()
    {
      tasks := map[0 := Task(0, SeedName, false)];
      nextId := 1;
    }

    /** List: walks the map in no particular order, appending each task. */
    method ListTasks() returns (resp: Reply)
      requires Valid()
      ensures resp.status == OK && resp.payload.Many? && IsListing(State(), resp.payload.items)
    {
      var items: seq<Task> := [];
      var rest := tasks.Keys;
      while rest != {}
        invariant rest <= tasks.Keys
        invariant |items| + |rest| == |tasks|
        invariant forall t :: multiset(items)[t] == if t.id in tasks && t.id !in rest && tasks[t.id] == t then 1 else 0
        decreases rest
      {
        if forall x :: x !in rest {
          assert false;
        }
        var k :| k in rest;
        items := items + [tasks[k]];
        rest := rest - {k};
      }
      forall t
        ensures multiset(items)[t] == multiset(Stored(State()))[t]
      {
        StoredUnderOwnId(State(), t);
      }
      assert multiset(items) == multiset(Stored(State()));
      resp := Reply(OK, Many(items));
    }

    /** Create from the decoded body (None: the body did not decode). */
    method CreateTask(body: Option<Task>) returns (resp: Reply)
      requires Valid()
      modifies this
      ensures Valid()
      ensures Step(State(), resp) == Create(old(State()), body)
    {
      match body {
        case None =>
          resp := Reply(BadRequest, NoBody);
        case Some(t) =>
          var task := t.(id := nextId);
          tasks := tasks[task.id := task];
          nextId := nextId + 1;
          resp := Reply(Created, One(task));
      }
    }

    /** Get the task under `id`. */
    method GetTask(id: int) returns (resp: Reply)
      ensures resp == Get(State(), id)
    {
      if id in tasks {
        resp := Reply(OK, One(tasks[id]));
      } else {
        resp := Reply(NotFound, NoBody);
      }
    }

    /** Update the task under `id` from the decoded body; presence is checked
        first. The whole method is one step here. */
    method UpdateTask(id: int, body: Option<Task>) returns (resp: Reply)
      requires Valid()
      modifies this
      ensures Valid()
      ensures Step(State(), resp) == Update(old(State()), id, body)
    {
      if id !in tasks {
        resp := Reply(NotFound, NoBody);
        return;
      }
      match body {
        case None =>
          resp := Reply(BadRequest, NoBody);
        case Some(t) =>
          var task := t.(id := id);
          tasks := tasks[id := task];
          resp := Reply(OK, One(task));
      }
    }

    /** Delete the task under `id`. */
    method DeleteTask(id: int) returns (resp: Reply)
      requires Valid()
      modifies this
      ensures Valid()
      ensures Step(State(), resp) == Delete(old(State()), id)
    {
      if id !in tasks {
        resp := Reply(NotFound, NoBody);
        return;
      }
      tasks := tasks - {id};
      resp := Reply(NoContent, NoBody);
    }

    /** Handle one request: dispatch, then run the chosen operation. */
    method Handle(req: Request) returns (resp: Reply)
      requires Valid()
      modifies this
      ensures Valid()
      ensures State() == Next(old(State()), req)
      ensures Answers(old(State()), req, resp)
    {
      match Dispatch(req.route, req.verb) {
        case Failure(err) =>
          resp := Reply(err, NoBody);
        case Success(ListAll) =>
          resp := ListTasks();
        case Success(CreateOne) =>
          resp := CreateTask(req.body);
        case Success(GetOne(id)) =>
          resp := GetTask(id);
        case Success(ReplaceOne(id)) =>
          resp := UpdateTask(id, req.body);
        case Success(DeleteOne(id)) =>
          resp := DeleteTask(id);
      }
    }
  }
}
