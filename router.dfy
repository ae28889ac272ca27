/** Request dispatch: which store operation an HTTP method and a path select, or which
    error status the request gets instead. */
module Router {
  import opened Wrappers
  import opened Tasks

  const MethodGet: string := "GET"
  const MethodPost: string := "POST"
  const MethodPut: string := "PUT"
  const MethodDelete: string := "DELETE"

  /** The two routes: the collection path `/tasks`, and an item path
      `/tasks/<s>` with the result of parsing `<s>` as an integer
      (None when the parse fails). */
  datatype Route = Collection | Item(id: Option<int>)

  /** The store operations a request can be dispatched to. */
  datatype Action = ListAll | CreateOne | GetOne(id: int) | ReplaceOne(id: int) | DeleteOne(id: int)

  /** The methods each route accepts. */
  function Allowed(route: Route): set<string> {
    match route
    case Collection => {MethodGet, MethodPost}
    case Item(_) => {MethodGet, MethodPut, MethodDelete}
  }

  /** The route of the request that asks for `a`. */
  function RouteOf(a: Action): Route {
    match a
    case ListAll => Collection
    case CreateOne => Collection
    case GetOne(id) => Item(Some(id))
    case ReplaceOne(id) => Item(Some(id))
    case DeleteOne(id) => Item(Some(id))
  }

  /** The HTTP method of the request that asks for `a`. */
  function MethodOf(a: Action): string {
    match a
    case ListAll => MethodGet
    case CreateOne => MethodPost
    case GetOne(_) => MethodGet
    case ReplaceOne(_) => MethodPut
    case DeleteOne(_) => MethodDelete
  }

  /** Dispatch of a request with HTTP method `verb`. On an item path the ID
      is parsed before the method is looked at, so an unparsable ID is
      BadRequest whatever the method; a method the route does not accept is
      MethodNotAllowed; otherwise the request goes to the one action whose
      route and method it has. */
  function Dispatch(route: Route, verb: string): (r: Result<Action, Status>)
    ensures r == Failure(BadRequest) <==> route == Item(None)
    ensures r == Failure(MethodNotAllowed) <==> route != Item(None) && verb !in Allowed(route)
    ensures r.Failure? ==> r.error == BadRequest || r.error == MethodNotAllowed
    ensures r.Success? ==> RouteOf(r.value) == route && MethodOf(r.value) == verb
  {
    match route
    case Collection =>
      if verb == MethodGet then Success(ListAll)
      else if verb == MethodPost then Success(CreateOne)
      else Failure(MethodNotAllowed)
    case Item(None) => Failure(BadRequest)
    case Item(Some(id)) =>
      if verb == MethodGet then Success(GetOne(id))
      else if verb == MethodPut then Success(ReplaceOne(id))
      else if verb == MethodDelete then Success(DeleteOne(id))
      else Failure(MethodNotAllowed)
  }

  /** Every action is reached by the request that asks for it. */
  lemma DispatchReachesEveryAction(a: Action)
    ensures Dispatch(RouteOf(a), MethodOf(a)) == Success(a)
  {
  }

  /** Dispatch is determined by the request: two requests dispatched to the
      same action have the same route and method. */
  lemma DispatchInjective(r1: Route, v1: string, r2: Route, v2: string)
    requires Dispatch(r1, v1).Success? && Dispatch(r1, v1) == Dispatch(r2, v2)
    ensures r1 == r2 && v1 == v2
  {
  }

  /** The status of a successful action: 201 for create, 204 for delete,
      200 otherwise. */
  function SuccessStatus(a: Action): (st: Status)
    ensures 200 <= Code(st) < 300
    ensures st == Created <==> a == CreateOne
    ensures st == NoContent <==> a.DeleteOne?
  {
    match a
    case CreateOne => Created
    case DeleteOne(_) => NoContent
    case _ => OK
  }
}
