/**
 * The product blueprint's three handlers. Each handler body is a function from its
 * inputs to the outcome it produces; the product service is not part of this
 * model, so what it returns (or raises) is a parameter. Each `Serve` method is
 * the route as the framework calls it: the handler wrapped by `track_exceptions`.
 */
module ProductRoutes {
  import opened Python
  import opened Flask
  import opened Metrics

  /** The path parameter for which `simulate_product_error` raises on purpose. */
  const FailingId := 999

  const DatabaseUnavailable := Exception("ConnectionError", "Database connection failed")

  const NotFoundMessage := "Product not found"

  /** `get_products`: the service's list with 200; an exception from the service propagates. */
  function GetProducts(products: Outcome<Value>): (r: Outcome<Response>)
    ensures r.Ok? <==> products.Ok?
    ensures r.Ok? ==> r.value.body == products.value && r.value.status == 200
    ensures r.Err? ==> r.error == products.error
  {
    match products
    case Ok(list) => Ok(Response(list, 200))
    case Err(e) => Err(e)
  }

  /**
   * `get_product`, given what `get_product_by_id(product_id)` returned: the product with 200
   * when it is truthy, otherwise the not-found message with 404.
   */
  function GetProduct(product: Outcome<Value>): (r: Outcome<Response>)
    ensures r.Ok? <==> product.Ok?
    ensures r.Err? ==> r.error == product.error
    ensures r.Ok? ==> r.value.status in {200, 404}
    ensures r.Ok? ==> (r.value.status == 200 <==> Truthy(product.value))
    ensures r.Ok? && r.value.status == 200 ==> r.value.body == product.value
    ensures r.Ok? && r.value.status == 404 ==> r.value.body == MessageBody(NotFoundMessage)
  {
    match product
    case Ok(found) =>
      if Truthy(found) then Ok(Response(found, 200))
      else Ok(Response(MessageBody(NotFoundMessage), 404))
    case Err(e) => Err(e)
  }

  /**
   * `simulate_product_error`: raises `ConnectionError` for 999. For every other id the
   * `elif` reads the name `error_type`, which nothing defines, so Python raises
   * `NameError` before any comparison: the `KeyError` branch and the
   * success branch can never be taken.
   */
  function SimulateProductError(productId: nat): (r: Outcome<Response>)
    ensures r.Err?
    ensures r.error.typeName == "ConnectionError" <==> productId == FailingId
    ensures productId == FailingId ==> r.error.message == "Database connection failed"
    ensures productId != FailingId ==> r.error.typeName == "NameError"
  {
    if productId == FailingId then Err(DatabaseUnavailable)
    else Err(UndefinedErrorType)
  }

  /**
   * A failure of the error route is counted exactly once: in the series of the
   * route's endpoint label, the request's method and `ConnectionError` (id 999) or
   * `NameError` (any other id), and once in the sum over all series.
   */
  lemma SimulateProductErrorCounted(series: map<Labels, nat>, req: Request, productId: nat)
    ensures var l := Labels(EndpointLabel(req.endpoint), req.httpMethod,
                            if productId == FailingId then "ConnectionError" else "NameError");
      Count(Tally(series, req, SimulateProductError(productId)), l) == Count(series, l) + 1
    ensures Sum(Tally(series, req, SimulateProductError(productId))) == Sum(series) + 1
  {
    TallySum(series, req, SimulateProductError(productId));
  }

  /** `get_product` changes no counter unless the service itself raised. */
  lemma GetProductCountsOnlyServiceErrors(series: map<Labels, nat>, req: Request, product: Outcome<Value>)
    ensures Tally(series, req, GetProduct(product)) == series <==> product.Ok?
    ensures Sum(Tally(series, req, GetProduct(product))) == Sum(series) + (if product.Ok? then 0 else 1)
  {
    TallySum(series, req, GetProduct(product));
    if product.Err? {
      var l := LabelsFor(req, product.error);
      assert Count(Tally(series, req, GetProduct(product)), l) != Count(series, l);
    }
  }

  /** The `/products` route as served: `get_products` wrapped by `track_exceptions`. */
  method ServeGetProducts(registry: Registry, req: Request, products: Outcome<Value>)
    returns (r: Outcome<Response>, logged: Option<string>)
    requires registry.Valid()
    modifies registry
    ensures registry.Valid()
    ensures r == GetProducts(products)
    ensures logged == if r.Err? then Some(LogLine(LabelsFor(req, r.error), r.error.message)) else None
    ensures registry.series == Tally(old(registry.series), req, r)
    ensures registry.total == old(registry.total) + (if products.Ok? then 0 else 1)
  {
    r, logged := registry.Track(req, GetProducts(products));
  }

  /** The `/products/<product_id>` route as served: `get_product` wrapped by `track_exceptions`. */
  method ServeGetProduct(registry: Registry, req: Request, product: Outcome<Value>)
    returns (r: Outcome<Response>, logged: Option<string>)
    requires registry.Valid()
    modifies registry
    ensures registry.Valid()
    ensures r == GetProduct(product)
    ensures logged == if r.Err? then Some(LogLine(LabelsFor(req, r.error), r.error.message)) else None
    ensures registry.series == Tally(old(registry.series), req, r)
    ensures registry.total == old(registry.total) + (if product.Ok? then 0 else 1)
  {
    r, logged := registry.Track(req, GetProduct(product));
  }

  /** The `/products/<product_id>/error` route as served: every request fails and is counted. */
  method ServeSimulateProductError(registry: Registry, req: Request, productId: nat)
    returns (r: Outcome<Response>, logged: Option<string>)
    requires registry.Valid()
    modifies registry
    ensures registry.Valid()
    ensures r == SimulateProductError(productId)
    ensures registry.series == Tally(old(registry.series), req, r)
    ensures registry.total == old(registry.total) + 1
    ensures logged == Some(LogLine(LabelsFor(req, r.error), r.error.message))
  {
    r, logged := registry.Track(req, SimulateProductError(productId));
  }

  /**
   * A fresh process serving `GET /products/999/error` and then
   * `GET /products/7/error`: two different series read 1 each and the global
   * counter reads 2.
   */
  method TwoFailingProductRequests() returns (connection: nat, undefinedName: nat, total: nat)
    ensures connection == 1 && undefinedName == 1 && total == 2
  {
    var registry := new Registry();
    var req := Request(Some("product_blueprint.simulate_product_error"), "GET");
    var r, logged := ServeSimulateProductError(registry, req, FailingId);
    r, logged := ServeSimulateProductError(registry, req, 7);
    connection := Count(registry.series, Labels("product_blueprint.simulate_product_error", "GET", "ConnectionError"));
    undefinedName := Count(registry.series, Labels("product_blueprint.simulate_product_error", "GET", "NameError"));
    total := registry.total;
  }
}
