# Exception tracking for a small Flask API, in Dafny

The API serves user and product lookups. Every route handler is wrapped by the
decorator `track_exceptions` (`src/app/metrics.py`). When the handler returns,
the decorator hands the result back untouched. When it raises, the decorator:

- derives the labels `endpoint` (`request.endpoint`, or `"unknown"` when that is
  falsy), `method` and `exception_type` (the class name);
- logs one error line;
- increments the Prometheus counter series `api_exceptions_total{endpoint,
  method, exception_type}` and the unlabelled `api_exceptions_sum_total`;
- re-raises the same exception.

The model has five modules:

- `Python` (`python.dfy`): optional values, an exception as its class name and
  `str(e)`, a handler outcome (`Ok(value)` or `Err(exception)`), plain data
  with Python truthiness, and the `NameError` for the undefined `error_type`.
- `Flask` (`flask.dfy`): the request context the decorator reads and the
  `(body, status)` pair a handler returns.
- `Metrics` (`metrics.dfy`): label derivation and the log line, with a parser
  that reads the line back. It also holds the pure specification `Tally` of one
  tracked call, `Replay` of a run of calls, and the map sum `Sum`. The `Registry`
  class holds both counters as fields (`series: map<Labels, nat>`,
  `total: nat`). Its `Valid()` invariant `total == Sum(series)` is kept by
  `Track`, the decorated function's body.
- `UserRoutes` and `ProductRoutes` (`user_routes.dfy`, `product_routes.dfy`):
  each handler is a pure function of its inputs. The service's answer (or the
  exception it raised) is a parameter. The `Serve…` methods are the handlers as
  the framework calls them, wrapped by `Registry.Track`.

A handler's outcome is computed before `Track` runs. The handlers touch no
counter, so this matches calling them inside the `try`.

The error routes `/users/<id>/error` and `/products/<id>/error` raise on
purpose only for id 999. For any other id the `elif` reads the name
`error_type`, which no scope defines. Python therefore raises `NameError`
before any comparison, and the `RuntimeError`/`KeyError` branch and the
success branch are dead code. One could read these routes as a fixed map from
id to error kind. This model follows the code: every id other than 999 yields
`NameError`, and that `NameError` is counted like any other exception.

## Model

| member | source | states |
|---|---|---|
| `Python.Truthy` | src/app/routes/user_routes.py:18 | `if user:` is false exactly for `None`, `False`, `0`, `""`, `[]` and `{}` |
| `Flask.MessageBody` | src/app/routes/user_routes.py:21 | the not-found reply body is a JSON object whose only key is `message`, holding the given text (the same body at product_routes.py:21) |
| `Metrics.EndpointLabel` | src/app/metrics.py:25 | the endpoint label is the request's endpoint when it is present and non-empty, otherwise `"unknown"`; it is never empty |
| `Metrics.LabelsFor` | src/app/metrics.py:25-27 | a failure is counted under the endpoint label of the request's endpoint, the request's method and the exception's class name |
| `Metrics.LabelsIgnoreMessage` | src/app/metrics.py:25-27 | the labels depend on the exception's class name and never on its message; the method label is the request method verbatim |
| `Metrics.LogLine` | src/app/metrics.py:29-30 | the log line starts `Exception in {endpoint} (` and its length is that of the four fields plus the 21 characters of the fixed text |
| `Metrics.LogLineRoundTrip` | src/app/metrics.py:30 | the endpoint, method, exception type and message can all be read back from the log line when the first three contain no separator character |
| `Metrics.Count` | src/app/metrics.py:33-37 | a series that has not been created yet reads as 0; a created series reads as its stored value |
| `Metrics.SumRemove` | src/app/metrics.py:7-16 | the sum over all series is the same whichever series is taken out first |
| `Metrics.SumIncrement` | src/app/metrics.py:33-39 | incrementing one series, existing or new, raises the sum of all series by exactly 1 |
| `Metrics.SumBound` | src/app/metrics.py:7-16 | no labelled series exceeds the sum of all series |
| `Metrics.Tally` | src/app/metrics.py:22-37 | after a success the series are unchanged; after a failure the series of its labels goes up by 1 (created if new) and every other series is unchanged |
| `Metrics.TallySum` | src/app/metrics.py:33-39 | one tracked call raises the sum of the labelled series by 1 when it fails and by 0 when it succeeds, as the global counter does |
| `Metrics.ReplayTotal` | src/app/metrics.py:7-39 | after any run of calls from the initial state, the labelled series add up to the number of failed calls |
| `Metrics.ReplaySeries` | src/app/metrics.py:33-37 | after any run, each series holds exactly the number of failures with its labels, with no spill into other series |
| `Metrics.ReplayMonotone` | src/app/metrics.py:33-39 | counters never decrease: extending a run never lowers any series |
| `Metrics.Registry.constructor` | src/app/metrics.py:7-16 | both counters start at 0, with no labelled series, and the invariant total == sum holds |
| `Metrics.Registry.IncSeries` | src/app/metrics.py:33-37 | `.labels(...).inc()` adds 1 to one series, created at 0 if new, and leaves the global counter alone |
| `Metrics.Registry.IncTotal` | src/app/metrics.py:39 | `.inc()` on the global counter adds 1 and leaves the series alone |
| `Metrics.Registry.Track` | src/app/metrics.py:18-42 | the outcome is returned unchanged, so a failure is re-raised as the same exception; on success nothing is counted or logged; on failure exactly one line is logged, the series changes as `Tally` says, the global counter rises by 1, and total == sum is kept |
| `UserRoutes.GetUsers` | src/app/routes/user_routes.py:10-12 | the service's list with status 200 whenever the service returns; a service exception propagates unchanged |
| `UserRoutes.GetUser` | src/app/routes/user_routes.py:16-21 | status 200 with the user exactly when the lookup result is truthy, otherwise 404 with `{"message": "User not found"}`; a service exception propagates |
| `UserRoutes.SimulateUserError` | src/app/routes/user_routes.py:25-32 | always raises: `ValueError("Invalid user data provided")` exactly for id 999, `NameError` for any other id |
| `UserRoutes.SimulateUserErrorCounted` | src/app/routes/user_routes.py:23-32 | a request to the error route is counted once in the series (endpoint, method, `ValueError` or `NameError`) and once in the sum |
| `UserRoutes.GetUserCountsOnlyServiceErrors` | src/app/routes/user_routes.py:14-21 | `get_user` leaves every counter unchanged exactly when the lookup returned; a service exception is counted once |
| `UserRoutes.ServeGetUsers` | src/app/routes/user_routes.py:8-12 | the wrapped route returns what `get_users` returns, and counts and logs a failure only when the service raised |
| `UserRoutes.ServeGetUser` | src/app/routes/user_routes.py:14-21 | the wrapped route returns what `get_user` returns, and counts and logs a failure only when the lookup raised |
| `UserRoutes.ServeSimulateUserError` | src/app/routes/user_routes.py:23-32 | every request to the wrapped error route fails, is logged once and raises the global counter by 1 |
| `UserRoutes.FirstInvalidUserRequest` | src/app/routes/user_routes.py:23-28 | in a fresh process, one `GET /users/999/error` gives the `ValueError`, its series reads 1, the global counter reads 1, and its log line carries all four fields |
| `ProductRoutes.GetProducts` | src/app/routes/product_routes.py:10-12 | the service's list with status 200 whenever the service returns; a service exception propagates unchanged |
| `ProductRoutes.GetProduct` | src/app/routes/product_routes.py:16-21 | status 200 with the product exactly when the lookup result is truthy, otherwise 404 with `{"message": "Product not found"}`; a service exception propagates |
| `ProductRoutes.SimulateProductError` | src/app/routes/product_routes.py:25-32 | always raises: `ConnectionError("Database connection failed")` exactly for id 999, `NameError` for any other id |
| `ProductRoutes.SimulateProductErrorCounted` | src/app/routes/product_routes.py:23-32 | a request to the error route is counted once in the series (endpoint, method, `ConnectionError` or `NameError`) and once in the sum |
| `ProductRoutes.GetProductCountsOnlyServiceErrors` | src/app/routes/product_routes.py:14-21 | `get_product` leaves every counter unchanged exactly when the lookup returned; a service exception is counted once |
| `ProductRoutes.ServeGetProducts` | src/app/routes/product_routes.py:8-12 | the wrapped route returns what `get_products` returns, and counts and logs a failure only when the service raised |
| `ProductRoutes.ServeGetProduct` | src/app/routes/product_routes.py:14-21 | the wrapped route returns what `get_product` returns, and counts and logs a failure only when the lookup raised |
| `ProductRoutes.ServeSimulateProductError` | src/app/routes/product_routes.py:23-32 | every request to the wrapped error route fails, is logged once and raises the global counter by 1 |
| `ProductRoutes.TwoFailingProductRequests` | src/app/routes/product_routes.py:23-32 | in a fresh process, `GET /products/999/error` then `GET /products/7/error` leave the `ConnectionError` and `NameError` series at 1 each and the global counter at 2 |

## Left out

- `get_metrics` and the Prometheus text exposition (src/app/metrics.py:44-46) are not modelled. The serialisation is done by `prometheus_client.generate_latest`, which is not part of this model.
- Thread safety of `Counter.inc()` and concurrent requests are not modelled. Increments are sequential here, and the two increments of one failure happen together inside `Track`.
- Flask's `request`, `Response`, `jsonify` and route registration are not modelled. The endpoint (optional string) and the method are opaque inputs. Endpoint names in the two example methods use Flask's `blueprint.function` form.
- Logging is reduced to the message string that `Track` returns. Its emission, severity and the fact that it happens before the increments are not observable in the model.
- `UserService` and `ProductService` are not part of this model. What they return, or the exception they raise, is a parameter of the handler functions. The id passed to them therefore does not appear in `GetUser`/`GetProduct`.
- src/app/__init__.py (the app factory, blueprint registration, `/metrics` and the constant `/health` reply) is plumbing and is not modelled.
- The dead `RuntimeError` and `KeyError` branches and the success branches of the error routes are not modelled, because they are unreachable. `SimulateUserError` and `SimulateProductError` prove that these routes always raise.
- `except Exception` does not catch `BaseException`-only errors such as `SystemExit` or `KeyboardInterrupt`; the source would let them through with no log and no count. The model assumes that only subclasses of `Exception` reach an `Err` outcome: the error routes raise only such classes, and the services, which are not part of this model, are assumed to do the same. This assumption is what makes `Track` and the `Serve…` methods log and count every `Err`.
- The counters are modelled as exact natural numbers. prometheus_client stores each counter as a float and `.inc()` adds 1.0, so the two agree only while a counter stays below 2^53 increments; past that the float counters stop rising and the total == sum invariant no longer holds for the program.
- Python values are limited to `None`, booleans, integers, strings, lists and string-keyed dicts. Floats (where `0.0` is falsy) are not modelled.
- Path parameters are `nat`, because Flask's `<int:...>` converter matches only non-negative integers.
- Metrics.LogLineRoundTrip: holds only when the endpoint and the exception class name contain no space and the method no `)`. Otherwise the line is ambiguous, because the log format has no escaping.
