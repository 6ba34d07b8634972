/**
 * The user blueprint's three handlers. Each handler body is a function from its
 * inputs to the outcome it produces; the user service is not part of this
 * model, so what it returns (or raises) is a parameter. Each `Serve` method is
 * the route as the framework calls it: the handler wrapped by `track_exceptions`.
 */
module UserRoutes {
  import opened Python
  import opened Flask
  import opened Metrics

  /** The path parameter for which `simulate_user_error` raises on purpose. */
  const FailingId := 999

  const InvalidUserData := Exception("ValueError", "Invalid user data provided")

  const NotFoundMessage := "User not found"

  /** `get_users`: the service's list with 200; an exception from the service propagates. */
  function GetUsers(users: Outcome<Value>): (r: Outcome<Response>)
    ensures r.Ok? <==> users.Ok?
    ensures r.Ok? ==> r.value.body == users.value && r.value.status == 200
    ensures r.Err? ==> r.error == users.error
  {
    match users
    case Ok(list) => Ok(Response(list, 200))
    case Err(e) => Err(e)
  }

  /**
   * `get_user`, given what `get_user_by_id(user_id)` returned: the user with 200
   * when it is truthy, otherwise the not-found message with 404.
   */
  function GetUser(user: Outcome<Value>): (r: Outcome<Response>)
    ensures r.Ok? <==> user.Ok?
    ensures r.Err? ==> r.error == user.error
    ensures r.Ok? ==> r.value.status in {200, 404}
    ensures r.Ok? ==> (r.value.status == 200 <==> Truthy(user.value))
    ensures r.Ok? && r.value.status == 200 ==> r.value.body == user.value
    ensures r.Ok? && r.value.status == 404 ==> r.value.body == MessageBody(NotFoundMessage)
  {
    match user
    case Ok(found) =>
      if Truthy(found) then Ok(Response(found, 200))
      else Ok(Response(MessageBody(NotFoundMessage), 404))
    case Err(e) => Err(e)
  }

  /**
   * `simulate_user_error`: raises `ValueError` for 999. For every other id the
   * `elif` reads the name `error_type`, which nothing defines, so Python raises
   * `NameError` before any comparison: the `RuntimeError` branch and the
   * success branch can never be taken.
   */
  function SimulateUserError(userId: nat): (r: Outcome<Response>)
    ensures r.Err?
    ensures r.error.typeName == "ValueError" <==> userId == FailingId
    ensures userId == FailingId ==> r.error.message == "Invalid user data provided"
    ensures userId != FailingId ==> r.error.typeName == "NameError"
  {
    if userId == FailingId then Err(InvalidUserData)
    else Err(UndefinedErrorType)
  }

  /**
   * A failure of the error route is counted exactly once: in the series of the
   * route's endpoint label, the request's method and `ValueError` (id 999) or
   * `NameError` (any other id), and once in the sum over all series.
   */
  lemma SimulateUserErrorCounted(series: map<Labels, nat>, req: Request, userId: nat)
    ensures var l := Labels(EndpointLabel(req.endpoint), req.httpMethod,
                            if userId == FailingId then "ValueError" else "NameError");
      Count(Tally(series, req, SimulateUserError(userId)), l) == Count(series, l) + 1
    ensures Sum(Tally(series, req, SimulateUserError(userId))) == Sum(series) + 1
  {
    TallySum(series, req, SimulateUserError(userId));
  }

  /** `get_user` changes no counter unless the service itself raised. */
  lemma GetUserCountsOnlyServiceErrors(series: map<Labels, nat>, req: Request, user: Outcome<Value>)
    ensures Tally(series, req, GetUser(user)) == series <==> user.Ok?
    ensures Sum(Tally(series, req, GetUser(user))) == Sum(series) + (if user.Ok? then 0 else 1)
  {
    TallySum(series, req, GetUser(user));
    if user.Err? {
      var l := LabelsFor(req, user.error);
      assert Count(Tally(series, req, GetUser(user)), l) != Count(series, l);
    }
  }

  /** The `/users` route as served: `get_users` wrapped by `track_exceptions`. */
  method ServeGetUsers(registry: Registry, req: Request, users: Outcome<Value>)
    returns (r: Outcome<Response>, logged: Option<string>)
    requires registry.Valid()
    modifies registry
    ensures registry.Valid()
    ensures r == GetUsers(users)
    ensures logged == if r.Err? then Some(LogLine(LabelsFor(req, r.error), r.error.message)) else None
    ensures registry.series == Tally(old(registry.series), req, r)
    ensures registry.total == old(registry.total) + (if users.Ok? then 0 else 1)
  {
    r, logged := registry.Track(req, GetUsers(users));
  }

  /** The `/users/<user_id>` route as served: `get_user` wrapped by `track_exceptions`. */
  method ServeGetUser(registry: Registry, req: Request, user: Outcome<Value>)
    returns (r: Outcome<Response>, logged: Option<string>)
    requires registry.Valid()
    modifies registry
    ensures registry.Valid()
    ensures r == GetUser(user)
    ensures logged == if r.Err? then Some(LogLine(LabelsFor(req, r.error), r.error.message)) else None
    ensures registry.series == Tally(old(registry.series), req, r)
    ensures registry.total == old(registry.total) + (if user.Ok? then 0 else 1)
  {
    r, logged := registry.Track(req, GetUser(user));
  }

  /** The `/users/<user_id>/error` route as served: every request fails and is counted. */
  method ServeSimulateUserError(registry: Registry, req: Request, userId: nat)
    returns (r: Outcome<Response>, logged: Option<string>)
    requires registry.Valid()
    modifies registry
    ensures registry.Valid()
    ensures r == SimulateUserError(userId)
    ensures registry.series == Tally(old(registry.series), req, r)
    ensures registry.total == old(registry.total) + 1
    ensures logged == Some(LogLine(LabelsFor(req, r.error), r.error.message))
  {
    r, logged := registry.Track(req, SimulateUserError(userId));
  }

  /**
   * A fresh process serving `GET /users/999/error` once: the response is the
   * `ValueError`, its series and the global counter read 1, and one line is logged.
   */
  method FirstInvalidUserRequest() returns (r: Outcome<Response>, count: nat, total: nat, logged: Option<string>)
    ensures r == Err(InvalidUserData)
    ensures count == 1 && total == 1
    ensures logged == Some(LogLine(Labels("user_blueprint.simulate_user_error", "GET", "ValueError"),
                                   "Invalid user data provided"))
  {
    var registry := new Registry();
    var req := Request(Some("user_blueprint.simulate_user_error"), "GET");
    r, logged := ServeSimulateUserError(registry, req, FailingId);
    assert LabelsFor(req, r.error) == Labels("user_blueprint.simulate_user_error", "GET", "ValueError");
    count := Count(registry.series, Labels("user_blueprint.simulate_user_error", "GET", "ValueError"));
    total := registry.total;
  }
}
