/**
 * The demo plugin's in-memory commerce store: a product catalogue, an order
 * list, a revenue aggregate and request counters, changed by the `/execute`
 * actions and by the three hook endpoints.
 *
 * Every handler is a function from the store's value and the decoded
 * request to the new value and the reply (`...Spec`), and a method of
 * `DataStore` that performs the same steps on its fields. The store
 * invariant `StoreValid` (orders counted, revenue summed, ids numbered from
 * 1) is preserved by every handler.
 */
module CommerceStore {
  import opened Wrappers
  import opened PyValues

  datatype Product = Product(id: int, name: Value, price: Value, category: Value, stock: Value)

  /** What a checkout order adds to the webhook order's fields. */
  datatype OrderLine = OrderLine(productId: Value, productName: Value, quantity: Value, unitPrice: Value)

  /** An order; `line` is present for orders made through `create_order`. */
  datatype Order = Order(id: int, totalPrice: Value, status: string, line: Option<OrderLine>)

  datatype Store = Store(
    requests: int, calculations: int, queries: int,
    products: seq<Product>, orders: seq<Order>,
    totalRevenue: real, ordersCount: int)

  /** The store the plugin starts with: three products, no orders, zero revenue. */
  const InitialStore: Store := Store(0, 0, 0,
    [Product(1, Str("Python Book"), Float(29.99), Str("books"), Int(50)),
     Product(2, Str("Flask Guide"), Float(39.99), Str("books"), Int(25)),
     Product(3, Str("Code Editor"), Float(99.99), Str("software"), Int(100))],
    [], 0.0, 0)

  /** The sum of the orders' numeric totals. */
  function Revenue(orders: seq<Order>): real
  {
    if orders == [] then 0.0
    else
      var last := orders[|orders| - 1];
      Revenue(orders[..|orders| - 1]) + (match Number(last.totalPrice) case Some(n) => n case None => 0.0)
  }

  /**
   * The store invariant: `orders_count` is the number of orders, every
   * order total is a number and `total_revenue` is their sum, and products
   * and orders carry the ids 1, 2, 3, ... in list order.
   */
  predicate StoreValid(st: Store)
  {
    && st.ordersCount == |st.orders|
    && (forall i :: 0 <= i < |st.orders| ==> Number(st.orders[i].totalPrice).Some?)
    && st.totalRevenue == Revenue(st.orders)
    && (forall i :: 0 <= i < |st.orders| ==> st.orders[i].id == i + 1)
    && (forall i :: 0 <= i < |st.products| ==> st.products[i].id == i + 1)
  }

  lemma InitialStoreValid()
    ensures StoreValid(InitialStore)
  {
  }

  /** Appending an order with a numeric total adds that total to the revenue. */
  lemma RevenueAppend(orders: seq<Order>, o: Order)
    requires Number(o.totalPrice).Some?
    ensures Revenue(orders + [o]) == Revenue(orders) + Number(o.totalPrice).value
  {
    assert (orders + [o])[..|orders|] == orders;
  }

  /** Recording an order with a numeric total, with the next id, keeps the invariant. */
  lemma AppendOrderValid(st: Store, o: Order)
    requires StoreValid(st) && Number(o.totalPrice).Some? && o.id == |st.orders| + 1
    ensures StoreValid(st.(orders := st.orders + [o], totalRevenue := st.totalRevenue + Number(o.totalPrice).value,
                           ordersCount := st.ordersCount + 1))
  {
    RevenueAppend(st.orders, o);
  }

  // ---------------------------------------------------------------------
  // Replies
  // ---------------------------------------------------------------------

  const ActionNames: seq<string> :=
    ["list_products", "create_order", "get_analytics", "calculate_fibonacci", "simulate_delay", "random_data"]

  /** The `result` part of an `/execute` reply. */
  datatype ActionResult =
    | ProductList(products: seq<Product>, count: nat)
    | OrderCreated(order: Order)
    | ProductNotFound
    | AnalyticsReport(totalProducts: nat, totalOrders: nat, totalRevenue: real, average: real, recent: seq<Order>)
    | FibonacciResult(input: Value, result: Value, calculationsPerformed: int)
    | DelayResult(requestedDelay: Value)
    | RandomNumbers
    | UnknownAction(action: Value, availableActions: seq<string>)

  /** An `/execute` reply: a result with the request count, or the 500 reply for an exception. */
  datatype ExecuteReply = Executed(result: ActionResult, totalRequests: int) | ExecuteCrashed(action: Value, error: PyError)

  /** The `success` field of an `/execute` reply. */
  predicate Succeeded(r: ExecuteReply)
  {
    r.Executed? && !r.result.ProductNotFound? && !r.result.UnknownAction?
  }

  /** The numbers an analytics request reports. */
  datatype AnalyticsData = AnalyticsData(totalProducts: nat, totalOrders: nat, totalRevenue: real, average: real, calculationsPerformed: int)

  /** A hook endpoint's reply: processed (200), unsupported hook (400) or an exception (500). */
  datatype HookReply =
    | HookProcessed(hook: Value, subject: Value)
    | HookAnalytics(hook: Value, data: AnalyticsData)
    | Unsupported(hook: Value, supportedHooks: seq<string>)
    | HookCrashed(hook: Value, error: PyError)

  function HookStatus(r: HookReply): int
  {
    match r
    case HookProcessed(_, _) => 200
    case HookAnalytics(_, _) => 200
    case Unsupported(_, _) => 400
    case HookCrashed(_, _) => 500
  }

  // ---------------------------------------------------------------------
  // Pure parts
  // ---------------------------------------------------------------------

  /** The first product whose id equals `id` under Python's `==`. */
  function FindProduct(products: seq<Product>, id: Value): (r: Option<Product>)
    ensures r.Some? ==> r.value in products && EqualsInt(id, r.value.id)
    ensures r.None? <==> forall i :: 0 <= i < |products| ==> !EqualsInt(id, products[i].id)
  {
    if products == [] then None
    else if EqualsInt(id, products[0].id) then Some(products[0])
    else
      var rest := FindProduct(products[1..], id);
      assert forall i :: 1 <= i < |products| ==> products[i] == products[1..][i - 1];
      rest
  }

  /** In a store whose ids are 1..n, an integer id finds exactly the product at that position. */
  lemma FindProductById(products: seq<Product>, n: int)
    requires forall i :: 0 <= i < |products| ==> products[i].id == i + 1
    ensures FindProduct(products, Int(n)).Some? <==> 1 <= n <= |products|
    ensures 1 <= n <= |products| ==> FindProduct(products, Int(n)) == Some(products[n - 1])
  {
    if 1 <= n <= |products| {
      FindProductFirst(products, Int(n), n - 1);
    }
  }

  lemma {:induction false} FindProductFirst(products: seq<Product>, id: Value, k: nat)
    requires k < |products| && EqualsInt(id, products[k].id)
    requires forall i :: 0 <= i < k ==> !EqualsInt(id, products[i].id)
    ensures FindProduct(products, id) == Some(products[k])
  {
    if k > 0 {
      FindProductFirst(products[1..], id, k - 1);
    }
  }

  /** `fibonacci` on integers. */
  function Fib(n: int): int
    decreases if n <= 1 then 0 else n
  {
    if n <= 1 then n else Fib(n - 1) + Fib(n - 2)
  }

  /** `fibonacci` on floats: the same recursion, stopping at or below 1. */
  function FibReal(x: real): real
    decreases if x <= 1.0 then 0 else x.Floor
  {
    if x <= 1.0 then x else FibReal(x - 1.0) + FibReal(x - 2.0)
  }

  /** Fibonacci by iteration: the pair (Fib(k), Fib(k + 1)) after k steps. */
  function FibPair(k: nat): (int, int)
  {
    if k == 0 then (0, 1) else var (a, b) := FibPair(k - 1); (b, a + b)
  }

  /** The recursive definition agrees with the linear iteration. */
  lemma {:induction false} FibMatchesIteration(k: nat)
    ensures FibPair(k) == (Fib(k), Fib(k + 1))
  {
    if k > 0 {
      FibMatchesIteration(k - 1);
    }
  }

  /** The recursion is non-negative and non-decreasing from 0 on. */
  lemma {:induction false} FibMonotone(m: nat, n: nat)
    requires m <= n
    ensures 0 <= Fib(m) <= Fib(n)
    decreases n
  {
    if n >= 2 {
      FibMonotone(0, n - 1);
      FibMonotone(0, n - 2);
      if m < n {
        FibMonotone(m, n - 1);
      }
    } else if m < n {
      assert m == 0 && n == 1;
    }
  }

  /** `fibonacci(min(n, 35))` for the request's `n`. */
  function FibonacciOf(n: Value): (r: Result<(Value, Value), PyError>)
    ensures r.Ok? <==> Number(n).Some?
  {
    match MinWith(n, 35)
    case Err(e) => Err(e)
    case Ok(m) =>
      match m
      case Int(i) => Ok((m, Int(Fib(i))))
      case Float(x) => Ok((m, Float(FibReal(x))))
      case Flag(_) => Ok((m, m))
      case _ => assert false; Err(TypeError)
  }

  /** The input is clamped to 35, and an integer input up to 1 is its own result. */
  lemma FibonacciClamp(n: int)
    ensures FibonacciOf(Int(n)) == Ok((Int(if n > 35 then 35 else n), Int(Fib(if n > 35 then 35 else n))))
    ensures n <= 1 ==> FibonacciOf(Int(n)) == Ok((Int(n), Int(n)))
  {
  }

  /** `min(delay_ms, 2000)`, then a sleep that refuses a negative length. */
  function DelayOf(d: Value): (r: Result<Value, PyError>)
    ensures r.Ok? ==> Number(r.value).Some? && 0.0 <= Number(r.value).value <= 2000.0
    ensures r.Err? && Number(d).Some? ==> r.error == ValueError
  {
    match MinWith(d, 2000)
    case Err(e) => Err(e)
    case Ok(m) => if Number(m).value < 0.0 then Err(ValueError) else Ok(m)
  }

  /** `revenue / max(orders, 1)`. */
  function Average(revenue: real, orders: nat): (r: real)
    ensures orders == 0 ==> r == revenue
    ensures orders > 0 ==> r * orders as real == revenue
  {
    revenue / (if orders == 0 then 1 else orders) as real
  }

  /** `orders[-5:] if orders else []`: the last five orders, or all of them when there are fewer. */
  function Recent(orders: seq<Order>): (r: seq<Order>)
    ensures |r| == if |orders| < 5 then |orders| else 5
    ensures r == orders[|orders| - |r|..]
  {
    if orders == [] then [] else if |orders| <= 5 then orders else orders[|orders| - 5..]
  }

  // ---------------------------------------------------------------------
  // `/execute`
  // ---------------------------------------------------------------------

  /** The data object of an `/execute` request, `{}` when absent. */
  function RequestData(req: map<string, Value>): Value { Field(req, "data", Obj(map[])) }

  /**
   * `create_order`: look up the product (default id 1), multiply its price
   * by the quantity (default 1), and record the order with the next id
   * while adding its total to the revenue. An exception leaves the store
   * as it was.
   */
  function CreateOrderSpec(st: Store, req: map<string, Value>): (Store, ExecuteReply)
  {
    var action := Str("create_order");
    var data := RequestData(req);
    if !data.Obj? then (st, ExecuteCrashed(action, AttributeError))
    else
      var pid := Field(data.fields, "product_id", Int(1));
      var quantity := Field(data.fields, "quantity", Int(1));
      match FindProduct(st.products, pid)
      case None => (st, Executed(ProductNotFound, st.requests))
      case Some(product) =>
        match Multiply(product.price, quantity)
        case Err(e) => (st, ExecuteCrashed(action, e))
        case Ok(total) =>
          match AddTo(st.totalRevenue, total)
          case Err(e) => (st, ExecuteCrashed(action, e))
          case Ok(revenue) =>
            var order := Order(|st.orders| + 1, total, "confirmed",
                               Some(OrderLine(pid, product.name, quantity, product.price)));
            (st.(orders := st.orders + [order], totalRevenue := revenue, ordersCount := st.ordersCount + 1),
             Executed(OrderCreated(order), st.requests))
  }

  /**
   * `create_order` as written: the order is appended before the total is
   * added to the revenue, so a total that is not a number (a text price
   * repeated by an integer quantity) leaves the order recorded but neither
   * counted nor summed.
   */
  function CreateOrderAsWritten(st: Store, req: map<string, Value>): (Store, ExecuteReply)
  {
    var action := Str("create_order");
    var data := RequestData(req);
    if !data.Obj? then (st, ExecuteCrashed(action, AttributeError))
    else
      var pid := Field(data.fields, "product_id", Int(1));
      var quantity := Field(data.fields, "quantity", Int(1));
      match FindProduct(st.products, pid)
      case None => (st, Executed(ProductNotFound, st.requests))
      case Some(product) =>
        match Multiply(product.price, quantity)
        case Err(e) => (st, ExecuteCrashed(action, e))
        case Ok(total) =>
          var order := Order(|st.orders| + 1, total, "confirmed",
                             Some(OrderLine(pid, product.name, quantity, product.price)));
          var appended := st.(orders := st.orders + [order]);
          match AddTo(st.totalRevenue, total)
          case Err(e) => (appended, ExecuteCrashed(action, e))
          case Ok(revenue) =>
            (appended.(totalRevenue := revenue, ordersCount := st.ordersCount + 1), Executed(OrderCreated(order), st.requests))
  }

  /** `/execute`: count the request, then run the named action (default "default", which is unknown). */
  function ExecuteSpec(st: Store, req: map<string, Value>): (r: (Store, ExecuteReply))
  {
    var st1 := st.(requests := st.requests + 1);
    var action := Field(req, "action", Str("default"));
    if action == Str("list_products") then
      (st1.(queries := st1.queries + 1), Executed(ProductList(st1.products, |st1.products|), st1.requests))
    else if action == Str("create_order") then
      CreateOrderSpec(st1, req)
    else if action == Str("get_analytics") then
      var total := |st1.orders|;
      (st1, Executed(AnalyticsReport(|st1.products|, total, st1.totalRevenue, Average(st1.totalRevenue, total),
                                     Recent(st1.orders)), st1.requests))
    else if action == Str("calculate_fibonacci") then
      var st2 := st1.(calculations := st1.calculations + 1);
      match Get(RequestData(req), "n", Int(20))
      case Err(e) => (st2, ExecuteCrashed(action, e))
      case Ok(n) =>
        match FibonacciOf(n)
        case Err(e) => (st2, ExecuteCrashed(action, e))
        case Ok((input, result)) => (st2, Executed(FibonacciResult(input, result, st2.calculations), st2.requests))
    else if action == Str("simulate_delay") then
      match Get(RequestData(req), "delay_ms", Int(100))
      case Err(e) => (st1, ExecuteCrashed(action, e))
      case Ok(d) =>
        match DelayOf(d)
        case Err(e) => (st1, ExecuteCrashed(action, e))
        case Ok(delay) => (st1, Executed(DelayResult(delay), st1.requests))
    else if action == Str("random_data") then
      (st1, Executed(RandomNumbers, st1.requests))
    else
      (st1, Executed(UnknownAction(action, ActionNames), st1.requests))
  }

  /** Every `/execute` request keeps the store invariant. */
  lemma ExecutePreservesValid(st: Store, req: map<string, Value>)
    requires StoreValid(st)
    ensures StoreValid(ExecuteSpec(st, req).0)
    ensures ExecuteSpec(st, req).0.requests == st.requests + 1
  {
    var st1 := st.(requests := st.requests + 1);
    if Field(req, "action", Str("default")) == Str("create_order") {
      CreateOrderValid(st1, req);
    }
  }

  lemma CreateOrderValid(st: Store, req: map<string, Value>)
    requires StoreValid(st)
    ensures StoreValid(CreateOrderSpec(st, req).0)
    ensures CreateOrderSpec(st, req).0.products == st.products
  {
    var data := RequestData(req);
    if data.Obj? {
      var pid := Field(data.fields, "product_id", Int(1));
      var quantity := Field(data.fields, "quantity", Int(1));
      match FindProduct(st.products, pid)
      case None =>
      case Some(product) =>
        match Multiply(product.price, quantity)
        case Err(_) =>
        case Ok(total) =>
          match AddTo(st.totalRevenue, total)
          case Err(_) =>
          case Ok(revenue) =>
            var order := Order(|st.orders| + 1, total, "confirmed",
                               Some(OrderLine(pid, product.name, quantity, product.price)));
            AppendOrderValid(st, order);
            assert CreateOrderSpec(st, req).0
              == st.(orders := st.orders + [order], totalRevenue := revenue, ordersCount := st.ordersCount + 1);
    }
  }

  /**
   * A successful order takes the next id, charges price times quantity,
   * adds exactly that to the revenue and one to the order count; the
   * catalogue is untouched.
   */
  lemma CreateOrderEffect(st: Store, req: map<string, Value>)
    requires StoreValid(st)
    requires Succeeded(CreateOrderSpec(st, req).1)
    ensures var (t, reply) := CreateOrderSpec(st, req);
      var data := RequestData(req).fields;
      var pid := Field(data, "product_id", Int(1));
      var quantity := Field(data, "quantity", Int(1));
      var product := FindProduct(st.products, pid).value;
      && reply.result.OrderCreated?
      && reply.result.order.id == |st.orders| + 1
      && Number(reply.result.order.totalPrice).Some?
      && Number(reply.result.order.totalPrice).value == Number(product.price).value * Number(quantity).value
      && t.orders == st.orders + [reply.result.order]
      && t.totalRevenue == st.totalRevenue + Number(reply.result.order.totalPrice).value
      && t.ordersCount == st.ordersCount + 1
      && t.products == st.products
  {
    var data := RequestData(req).fields;
    var product := FindProduct(st.products, Field(data, "product_id", Int(1))).value;
    var quantity := Field(data, "quantity", Int(1));
    var total := Multiply(product.price, quantity).value;
    assert CreateOrderSpec(st, req).1.result.order.totalPrice == total;
    assert Number(total).Some?;
    assert Number(product.price).Some? && Number(quantity).Some?;
  }

  /** An order for a product that does not exist is refused and changes nothing. */
  lemma CreateOrderMissingProduct(st: Store, req: map<string, Value>)
    requires var data := RequestData(req);
      && data.Obj?
      && forall i :: 0 <= i < |st.products| ==> !EqualsInt(Field(data.fields, "product_id", Int(1)), st.products[i].id)
    ensures CreateOrderSpec(st, req) == (st, Executed(ProductNotFound, st.requests))
  {
  }

  /** An unknown action reports the six action names and changes only the request counter. */
  lemma UnknownActionChangesOnlyCounter(st: Store, req: map<string, Value>)
    requires Field(req, "action", Str("default")) !in
      {Str("list_products"), Str("create_order"), Str("get_analytics"), Str("calculate_fibonacci"),
       Str("simulate_delay"), Str("random_data")}
    ensures var (t, reply) := ExecuteSpec(st, req);
      && t == st.(requests := st.requests + 1)
      && reply == Executed(UnknownAction(Field(req, "action", Str("default")), ActionNames), st.requests + 1)
      && |ActionNames| == 6
  {
  }

  /** With no orders the average is zero, and the recent list is the last five orders at most. */
  lemma AnalyticsReportShape(st: Store, req: map<string, Value>)
    requires Field(req, "action", Str("default")) == Str("get_analytics")
    ensures var reply := ExecuteSpec(st, req).1;
      && reply.Executed? && reply.result.AnalyticsReport?
      && (st.orders == [] ==> reply.result.average == st.totalRevenue)
      && (st.orders == [] && StoreValid(st) ==> reply.result.average == 0.0)
      && |reply.result.recent| == (if |st.orders| < 5 then |st.orders| else 5)
      && reply.result.recent == st.orders[|st.orders| - |reply.result.recent|..]
  {
  }

  // ---------------------------------------------------------------------
  // Hook endpoints
  // ---------------------------------------------------------------------

  const ProductHooks: seq<string> := ["product.created", "product.updated"]
  const OrderHooks: seq<string> := ["order.created", "order.updated", "order.paid"]
  const AnalyticsHooks: seq<string> := ["analytics.calculate", "report.generate"]

  predicate HookIn(hook: Value, hooks: seq<string>) { hook.Str? && hook.s in hooks }

  /** `/actions/product`: "product.created" adds a product with the next id; "product.updated" only answers. */
  function ProductHookSpec(st: Store, body: map<string, Value>): (Store, HookReply)
  {
    var st1 := st.(requests := st.requests + 1);
    var hook := Field(body, "hook", Str("unknown"));
    var payload := Field(body, "payload", Obj(map[]));
    if !HookIn(hook, ProductHooks) then (st1, Unsupported(hook, ProductHooks))
    else if !payload.Obj? then (st1, HookCrashed(hook, AttributeError))
    else
      var name := Field(payload.fields, "name", Str("Unknown Product"));
      if hook == Str("product.created") then
        var product := Product(|st1.products| + 1, name, Field(payload.fields, "price", Float(0.0)),
                               Field(payload.fields, "category", Str("general")), Field(payload.fields, "stock", Int(0)));
        (st1.(products := st1.products + [product]), HookProcessed(hook, name))
      else (st1, HookProcessed(hook, name))
  }

  /**
   * `/actions/order` with the revenue checked before the order is recorded:
   * "order.created" records an order with the next id and the payload's
   * total (default 0.0) and adds it to the revenue; a total that is not a
   * number is an exception that leaves the orders alone.
   */
  function OrderHookSpec(st: Store, body: map<string, Value>): (Store, HookReply)
  {
    var st1 := st.(requests := st.requests + 1);
    var hook := Field(body, "hook", Str("unknown"));
    var payload := Field(body, "payload", Obj(map[]));
    if !HookIn(hook, OrderHooks) then (st1, Unsupported(hook, OrderHooks))
    else if !payload.Obj? then (st1, HookCrashed(hook, AttributeError))
    else
      var orderId := Field(payload.fields, "id", Str("unknown"));
      var total := Field(payload.fields, "total", Float(0.0));
      if hook == Str("order.created") then
        match AddTo(st1.totalRevenue, total)
        case Err(e) => (st1, HookCrashed(hook, e))
        case Ok(revenue) =>
          var order := Order(|st1.orders| + 1, total, "processing", None);
          (st1.(orders := st1.orders + [order], totalRevenue := revenue, ordersCount := st1.ordersCount + 1),
           HookProcessed(hook, orderId))
      else (st1, HookProcessed(hook, orderId))
  }

  /** `/actions/order` as written: the order is appended first, and the revenue update may then raise. */
  function OrderHookAsWritten(st: Store, body: map<string, Value>): (Store, HookReply)
  {
    var st1 := st.(requests := st.requests + 1);
    var hook := Field(body, "hook", Str("unknown"));
    var payload := Field(body, "payload", Obj(map[]));
    if !HookIn(hook, OrderHooks) then (st1, Unsupported(hook, OrderHooks))
    else if !payload.Obj? then (st1, HookCrashed(hook, AttributeError))
    else
      var orderId := Field(payload.fields, "id", Str("unknown"));
      var total := Field(payload.fields, "total", Float(0.0));
      if hook == Str("order.created") then
        var order := Order(|st1.orders| + 1, total, "processing", None);
        var appended := st1.(orders := st1.orders + [order]);
        match AddTo(st1.totalRevenue, total)
        case Err(e) => (appended, HookCrashed(hook, e))
        case Ok(revenue) =>
          (appended.(totalRevenue := revenue, ordersCount := st1.ordersCount + 1), HookProcessed(hook, orderId))
      else (st1, HookProcessed(hook, orderId))
  }

  /** `/actions/analytics`: counts a calculation (not a request) and reports the store's figures. */
  function AnalyticsHookSpec(st: Store, body: map<string, Value>): (Store, HookReply)
  {
    var st1 := st.(calculations := st.calculations + 1);
    var hook := Field(body, "hook", Str("unknown"));
    if !HookIn(hook, AnalyticsHooks) then (st1, Unsupported(hook, AnalyticsHooks))
    else
      var total := |st1.orders|;
      (st1, HookAnalytics(hook, AnalyticsData(|st1.products|, total, st1.totalRevenue,
                                              Average(st1.totalRevenue, total), st1.calculations)))
  }

  /** Every hook request keeps the store invariant. */
  lemma ProductHookPreservesValid(st: Store, body: map<string, Value>)
    requires StoreValid(st)
    ensures StoreValid(ProductHookSpec(st, body).0)
  {
  }

  lemma OrderHookPreservesValid(st: Store, body: map<string, Value>)
    requires StoreValid(st)
    ensures StoreValid(OrderHookSpec(st, body).0)
  {
    var st1 := st.(requests := st.requests + 1);
    var payload := Field(body, "payload", Obj(map[]));
    if payload.Obj? {
      var total := Field(payload.fields, "total", Float(0.0));
      if Number(total).Some? {
        AppendOrderValid(st1, Order(|st1.orders| + 1, total, "processing", None));
      }
    }
  }

  lemma AnalyticsHookPreservesValid(st: Store, body: map<string, Value>)
    requires StoreValid(st)
    ensures StoreValid(AnalyticsHookSpec(st, body).0)
  {
  }

  /** "product.created" appends one product numbered after the others; "product.updated" leaves the catalogue alone. */
  lemma ProductHookEffect(st: Store, body: map<string, Value>)
    requires Field(body, "payload", Obj(map[])).Obj?
    ensures var (t, reply) := ProductHookSpec(st, body);
      && (Field(body, "hook", Str("unknown")) == Str("product.created") ==>
            |t.products| == |st.products| + 1 && t.products[..|st.products|] == st.products
            && t.products[|st.products|].id == |st.products| + 1 && HookStatus(reply) == 200)
      && (Field(body, "hook", Str("unknown")) == Str("product.updated") ==>
            t.products == st.products && HookStatus(reply) == 200)
      && t.orders == st.orders && t.totalRevenue == st.totalRevenue
  {
  }

  /**
   * A hook an endpoint does not support is answered with 400 and that
   * endpoint's hook list, and changes nothing but the endpoint's counter.
   */
  lemma UnsupportedHooksChangeNothing(st: Store, body: map<string, Value>)
    ensures var hook := Field(body, "hook", Str("unknown"));
      && (!HookIn(hook, ProductHooks) ==>
            ProductHookSpec(st, body) == (st.(requests := st.requests + 1), Unsupported(hook, ProductHooks)))
      && (!HookIn(hook, OrderHooks) ==>
            OrderHookSpec(st, body) == (st.(requests := st.requests + 1), Unsupported(hook, OrderHooks)))
      && (!HookIn(hook, AnalyticsHooks) ==>
            AnalyticsHookSpec(st, body) == (st.(calculations := st.calculations + 1), Unsupported(hook, AnalyticsHooks)))
      && HookStatus(Unsupported(hook, ProductHooks)) == 400
  {
  }

  /** The webhook order that shows the as-written handler breaking the invariant: a text total. */
  const TextTotalOrder: map<string, Value> :=
    map["hook" := Str("order.created"), "payload" := Obj(map["total" := Str("12.50")])]

  /**
   * As written, a text total records the order and then raises: the order
   * list grows while the count and the revenue stay, so the invariant is
   * lost. The checked handler refuses the same request without recording it.
   */
  lemma OrderHookTextTotal()
    ensures var (t, reply) := OrderHookAsWritten(InitialStore, TextTotalOrder);
      && reply == HookCrashed(Str("order.created"), TypeError)
      && |t.orders| == 1 && t.ordersCount == 0
      && !StoreValid(t)
    ensures var (t, reply) := OrderHookSpec(InitialStore, TextTotalOrder);
      && reply == HookCrashed(Str("order.created"), TypeError)
      && t.orders == [] && StoreValid(t)
  {
  }

  /** A store whose only product has a text price, as "product.created" with `"price": "9"` makes it. */
  const TextPriceStore: Store := Store(1, 0, 0, [Product(1, Str("Widget"), Str("9"), Str("general"), Int(0))], [], 0.0, 0)

  const OrderTwo: map<string, Value> :=
    map["action" := Str("create_order"), "data" := Obj(map["product_id" := Int(1), "quantity" := Int(2)])]

  /**
   * As written, ordering two of a text-priced product charges the text
   * "99", records the order and then raises on the revenue update; the
   * checked action refuses it and leaves the orders empty.
   */
  lemma CreateOrderTextPrice()
    ensures StoreValid(TextPriceStore)
    ensures var (t, reply) := CreateOrderAsWritten(TextPriceStore, OrderTwo);
      && reply == ExecuteCrashed(Str("create_order"), TypeError)
      && |t.orders| == 1 && t.orders[0].totalPrice == Str("99") && t.ordersCount == 0
      && !StoreValid(t)
    ensures var (t, reply) := CreateOrderSpec(TextPriceStore, OrderTwo);
      && reply == ExecuteCrashed(Str("create_order"), TypeError)
      && t == TextPriceStore
  {
    assert FindProduct(TextPriceStore.products, Int(1)) == Some(TextPriceStore.products[0]);
    assert Repeat("9", 2) == "99" by {
      assert Repeat("9", 0) == [];
      assert Repeat("9", 1) == "9";
    }
  }

  // ---------------------------------------------------------------------
  // The store object
  // ---------------------------------------------------------------------

  /** The global `data_store`, with the handlers that change it. */
  class DataStore {
    var requests: int
    var calculations: int
    var queries: int
    var products: seq<Product>
    var orders: seq<Order>
    var totalRevenue: real
    var ordersCount: int

    function State(): Store
      reads this
    {
      Store(requests, calculations, queries, products, orders, totalRevenue, ordersCount)
    }

    constructor ()
      ensures State() == InitialStore && StoreValid(State())
    {
      requests, calculations, queries := 0, 0, 0;
      products := InitialStore.products;
      orders := [];
      totalRevenue := 0.0;
      ordersCount := 0;
    }

    /** The generator `next(p for p in products if p["id"] == product_id)`. */
    method FindProductById(id: Value) returns (found: Option<Product>)
      ensures found == FindProduct(products, id)
    {
      var i := 0;
      while i < |products|
        invariant 0 <= i <= |products|
        invariant forall k :: 0 <= k < i ==> !EqualsInt(id, products[k].id)
        invariant FindProduct(products, id) == FindProduct(products[i..], id)
      {
        if EqualsInt(id, products[i].id) {
          return Some(products[i]);
        }
        assert products[i..][1..] == products[i + 1..];
        i := i + 1;
      }
      return None;
    }

    method CreateOrder(req: map<string, Value>) returns (reply: ExecuteReply)
      modifies this
      ensures (State(), reply) == CreateOrderSpec(old(State()), req)
    {
      var action := Str("create_order");
      var data := RequestData(req);
      if !data.Obj? {
        return ExecuteCrashed(action, AttributeError);
      }
      var pid := Field(data.fields, "product_id", Int(1));
      var quantity := Field(data.fields, "quantity", Int(1));
      var product := FindProductById(pid);
      if product.None? {
        return Executed(ProductNotFound, requests);
      }
      var total := Multiply(product.value.price, quantity);
      if total.Err? {
        return ExecuteCrashed(action, total.error);
      }
      var revenue := AddTo(totalRevenue, total.value);
      if revenue.Err? {
        return ExecuteCrashed(action, revenue.error);
      }
      var order := Order(|orders| + 1, total.value, "confirmed",
                         Some(OrderLine(pid, product.value.name, quantity, product.value.price)));
      orders := orders + [order];
      totalRevenue := revenue.value;
      ordersCount := ordersCount + 1;
      return Executed(OrderCreated(order), requests);
    }

    /** `execute`. */
    method Execute(req: map<string, Value>) returns (reply: ExecuteReply)
      modifies this
      ensures (State(), reply) == ExecuteSpec(old(State()), req)
    {
      requests := requests + 1;
      var action := Field(req, "action", Str("default"));
      if action == Str("list_products") {
        queries := queries + 1;
        reply := Executed(ProductList(products, |products|), requests);
      } else if action == Str("create_order") {
        reply := CreateOrder(req);
      } else if action == Str("get_analytics") {
        var total := |orders|;
        reply := Executed(AnalyticsReport(|products|, total, totalRevenue, Average(totalRevenue, total), Recent(orders)),
                          requests);
      } else if action == Str("calculate_fibonacci") {
        calculations := calculations + 1;
        var n := Get(RequestData(req), "n", Int(20));
        if n.Err? {
          return ExecuteCrashed(action, n.error);
        }
        var fib := FibonacciOf(n.value);
        if fib.Err? {
          return ExecuteCrashed(action, fib.error);
        }
        reply := Executed(FibonacciResult(fib.value.0, fib.value.1, calculations), requests);
      } else if action == Str("simulate_delay") {
        var d := Get(RequestData(req), "delay_ms", Int(100));
        if d.Err? {
          return ExecuteCrashed(action, d.error);
        }
        var delay := DelayOf(d.value);
        if delay.Err? {
          return ExecuteCrashed(action, delay.error);
        }
        reply := Executed(DelayResult(delay.value), requests);
      } else if action == Str("random_data") {
        reply := Executed(RandomNumbers, requests);
      } else {
        reply := Executed(UnknownAction(action, ActionNames), requests);
      }
    }

    /** `handle_product_action`. */
    method HandleProductAction(body: map<string, Value>) returns (reply: HookReply)
      modifies this
      ensures (State(), reply) == ProductHookSpec(old(State()), body)
    {
      requests := requests + 1;
      var hook := Field(body, "hook", Str("unknown"));
      var payload := Field(body, "payload", Obj(map[]));
      if !HookIn(hook, ProductHooks) {
        return Unsupported(hook, ProductHooks);
      }
      if !payload.Obj? {
        return HookCrashed(hook, AttributeError);
      }
      var name := Field(payload.fields, "name", Str("Unknown Product"));
      if hook == Str("product.created") {
        var product := Product(|products| + 1, name, Field(payload.fields, "price", Float(0.0)),
                               Field(payload.fields, "category", Str("general")), Field(payload.fields, "stock", Int(0)));
        products := products + [product];
      }
      return HookProcessed(hook, name);
    }

    /** `handle_order_action`, with the revenue update checked before the order is recorded. */
    method HandleOrderAction(body: map<string, Value>) returns (reply: HookReply)
      modifies this
      ensures (State(), reply) == OrderHookSpec(old(State()), body)
    {
      requests := requests + 1;
      var hook := Field(body, "hook", Str("unknown"));
      var payload := Field(body, "payload", Obj(map[]));
      if !HookIn(hook, OrderHooks) {
        return Unsupported(hook, OrderHooks);
      }
      if !payload.Obj? {
        return HookCrashed(hook, AttributeError);
      }
      var orderId := Field(payload.fields, "id", Str("unknown"));
      var total := Field(payload.fields, "total", Float(0.0));
      if hook == Str("order.created") {
        var revenue := AddTo(totalRevenue, total);
        if revenue.Err? {
          return HookCrashed(hook, revenue.error);
        }
        orders := orders + [Order(|orders| + 1, total, "processing", None)];
        totalRevenue := revenue.value;
        ordersCount := ordersCount + 1;
      }
      return HookProcessed(hook, orderId);
    }

    /** `handle_analytics_action`. */
    method HandleAnalyticsAction(body: map<string, Value>) returns (reply: HookReply)
      modifies this
      ensures (State(), reply) == AnalyticsHookSpec(old(State()), body)
    {
      calculations := calculations + 1;
      var hook := Field(body, "hook", Str("unknown"));
      if !HookIn(hook, AnalyticsHooks) {
        return Unsupported(hook, AnalyticsHooks);
      }
      var total := |orders|;
      return HookAnalytics(hook, AnalyticsData(|products|, total, totalRevenue, Average(totalRevenue, total), calculations));
    }
  }
}
