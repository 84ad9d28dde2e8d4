/** The validation middleware of the orders controller and the chains that
    compose them. Each middleware step either passes control on or raises an
    error carrying an HTTP status and a reason; a chain runs its steps in
    order and stops at the first error. */
module OrderChecks {
  import opened JsValues

  /** A stored order. Its id is a string, compared with `===` against the
      route parameter; the other fields hold whatever the body carried. */
  datatype Order = Order(id: string, deliverTo: Value, mobileNumber: Value, status: Value, dishes: Value)

  /** What the validators read from a request: the route's `orderId` and the
      body's `data` object. */
  datatype Request = Request(orderId: string, data: Body)

  /** What an error names, in place of its message text. */
  datatype Reason =
    | MissingProperty(property: string)     // "Order must include a <property>"
    | OrderNotFound(orderId: string)
    | NoDish
    | BadQuantity(index: int)               // "Dish <index> must have a quantity ..."
    | IdMismatch(bodyId: Value, routeId: string)
    | InvalidStatus
    | DeliveredImmutable
    | NotPending

  /** `next()` or `next({status, message})`. */
  datatype Outcome = Pass | Fail(status: int, reason: Reason)

  /** One middleware step of an exported chain. */
  datatype Check =
    | OrderExists
    | BodyDataHas(property: string)
    | DishIsValid
    | DishQuantityIsValid
    | OrderIdValid
    | StatusIsValid
    | StatusDelivered
    | StatusPending

  // ---------------------------------------------------------------------------
  // The exported chains, in the order the controller lists them.

  const CreateChain: seq<Check> :=
    [BodyDataHas("deliverTo"), BodyDataHas("mobileNumber"), BodyDataHas("dishes"),
     DishIsValid, DishQuantityIsValid]

  const ReadChain: seq<Check> := [OrderExists]

  const UpdateChain: seq<Check> :=
    [OrderExists, BodyDataHas("deliverTo"), BodyDataHas("mobileNumber"),
     BodyDataHas("status"), BodyDataHas("dishes"), OrderIdValid, DishIsValid,
     DishQuantityIsValid, StatusIsValid, StatusDelivered]

  const DeleteChain: seq<Check> := [OrderExists, StatusPending]

  // ---------------------------------------------------------------------------
  // Lookup of an order by id (`orders.find` / `orders.findIndex`).

  /** The index of the first order whose id is `orderId`, or -1 when there is
      none. */
  function IndexOf(orders: seq<Order>, orderId: string): (i: int)
    ensures -1 <= i < |orders|
    ensures i == -1 <==> forall k :: 0 <= k < |orders| ==> orders[k].id != orderId
    ensures 0 <= i ==> orders[i].id == orderId && forall k :: 0 <= k < i ==> orders[k].id != orderId
  {
    if orders == [] then -1
    else if orders[0].id == orderId then 0
    else
      var j := IndexOf(orders[1..], orderId);
      if j < 0 then -1 else j + 1
  }

  predicate Found(orders: seq<Order>, orderId: string)
  {
    IndexOf(orders, orderId) >= 0
  }

  // ---------------------------------------------------------------------------
  // The pure checks, one per middleware step.

  /** `bodyDataHas(property)`: `data[property]` is truthy. */
  predicate HasProperty(data: Body, property: string)
  {
    Truthy(Lookup(data, property))
  }

  /** `dishIsValid`: `dishes` is truthy, an array, and not empty. */
  predicate HasDishes(data: Body)
  {
    var dishes := Lookup(data, "dishes");
    Truthy(dishes) && dishes.Arr? && |dishes.items| > 0
  }

  /** The elements of `data.dishes`, or none when it is not an array. */
  function DishList(data: Body): (dishes: seq<Value>)
  {
    var dishes := Lookup(data, "dishes");
    if dishes.Arr? then dishes.items else []
  }

  /** `dish.quantity`, for a dish that is an object. */
  function QuantityOf(dish: Value): (quantity: Value)
  {
    if dish.Obj? then Lookup(dish.fields, "quantity") else Absent
  }

  /** The per-dish test of `dishQuantityIsValid`. */
  predicate QuantityValid(dish: Value)
  {
    IsPositiveInteger(QuantityOf(dish))
  }

  predicate AllQuantitiesValid(dishes: seq<Value>)
  {
    forall k :: 0 <= k < |dishes| ==> QuantityValid(dishes[k])
  }

  /** `orderIdValid`: the body id is falsy, or is the route id. */
  predicate IdMatches(data: Body, orderId: string)
  {
    var id := Lookup(data, "id");
    !Truthy(id) || id == Str(orderId)
  }

  /** `statusIsValid`: the status is truthy and is not the string "invalid". */
  predicate StatusAllowed(data: Body)
  {
    var status := Lookup(data, "status");
    Truthy(status) && status != Str("invalid")
  }

  /** `statusDelivered`, on the order `orderExists` found. */
  predicate NotDelivered(order: Order)
  {
    order.status != Str("delivered")
  }

  /** `statusPending`, on the order `orderExists` found. */
  predicate Pending(order: Order)
  {
    order.status == Str("pending")
  }

  // ---------------------------------------------------------------------------
  // Steps.

  /** A step can run without a JavaScript TypeError: `dishes.forEach` needs an
      array, and the status steps read the order `orderExists` stored. */
  predicate Defined(c: Check, req: Request, orders: seq<Order>)
  {
    match c
    case DishQuantityIsValid => Lookup(req.data, "dishes").Arr?
    case StatusDelivered => Found(orders, req.orderId)
    case StatusPending => Found(orders, req.orderId)
    case _ => true
  }

  /** The step calls `next()` without an error. */
  predicate Passes(c: Check, req: Request, orders: seq<Order>)
  {
    match c
    case OrderExists => Found(orders, req.orderId)
    case BodyDataHas(p) => HasProperty(req.data, p)
    case DishIsValid => HasDishes(req.data)
    case DishQuantityIsValid => AllQuantitiesValid(DishList(req.data))
    case OrderIdValid => IdMatches(req.data, req.orderId)
    case StatusIsValid => StatusAllowed(req.data)
    case StatusDelivered =>
      var i := IndexOf(orders, req.orderId);
      i < 0 || NotDelivered(orders[i])
    case StatusPending =>
      var i := IndexOf(orders, req.orderId);
      0 <= i && Pending(orders[i])
  }

  /** The error of every step except `dishQuantityIsValid`, whose error names
      the dish that failed. */
  function FixedFailure(c: Check, req: Request): (o: Outcome)
    requires !c.DishQuantityIsValid?
  {
    match c
    case OrderExists => Fail(404, OrderNotFound(req.orderId))
    case BodyDataHas(p) => Fail(400, MissingProperty(p))
    case DishIsValid => Fail(400, NoDish)
    case OrderIdValid => Fail(400, IdMismatch(Lookup(req.data, "id"), req.orderId))
    case StatusIsValid => Fail(400, InvalidStatus)
    case StatusDelivered => Fail(400, DeliveredImmutable)
    case StatusPending => Fail(400, NotPending)
  }

  /** A 400 error naming a dish whose quantity is not a positive integer. */
  predicate QuantityError(dishes: seq<Value>, o: Outcome)
  {
    o.Fail? && o.status == 400 && o.reason.BadQuantity? &&
    0 <= o.reason.index < |dishes| && !QuantityValid(dishes[o.reason.index])
  }

  /** The outcomes a step may produce: `Pass` when its check holds, otherwise
      its error; `dishQuantityIsValid` may name any dish whose quantity is not
      a positive integer. */
  predicate StepOutcome(c: Check, req: Request, orders: seq<Order>, o: Outcome)
  {
    if Passes(c, req, orders) then o == Pass
    else if c.DishQuantityIsValid? then QuantityError(DishList(req.data), o)
    else o == FixedFailure(c, req)
  }

  /** `dishQuantityIsValid`: walks every dish (the `forEach` does not stop at
      a bad one) and raises an error for each dish whose quantity is not a
      positive integer; the outcome carries the first of those errors. */
  method ValidateQuantities(dishes: seq<Value>) returns (o: Outcome)
    ensures o.Pass? <==> AllQuantitiesValid(dishes)
    ensures o.Fail? ==> QuantityError(dishes, o)
  {
    o := Pass;
    var i := 0;
    while i < |dishes|
      invariant 0 <= i <= |dishes|
      invariant o.Pass? <==> forall k :: 0 <= k < i ==> QuantityValid(dishes[k])
      invariant o.Fail? ==> QuantityError(dishes[..i], o)
    {
      if !QuantityValid(dishes[i]) && o.Pass? {
        o := Fail(400, BadQuantity(i));
      }
      i := i + 1;
    }
  }

  /** Runs one middleware step. */
  method RunStep(c: Check, req: Request, orders: seq<Order>) returns (o: Outcome)
    requires Defined(c, req, orders)
    ensures StepOutcome(c, req, orders, o)
  {
    if c.DishQuantityIsValid? {
      o := ValidateQuantities(Lookup(req.data, "dishes").items);
    } else if Passes(c, req, orders) {
      o := Pass;
    } else {
      o := FixedFailure(c, req);
    }
  }

  // ---------------------------------------------------------------------------
  // Chains.

  /** Every step of the chain passes. */
  predicate AllPass(chain: seq<Check>, req: Request, orders: seq<Order>)
  {
    forall k :: 0 <= k < |chain| ==> Passes(chain[k], req, orders)
  }

  /** The outcomes of running a chain: the first step that does not pass
      decides, and `Pass` when every step passes. */
  predicate ChainOutcome(chain: seq<Check>, req: Request, orders: seq<Order>, o: Outcome)
    decreases |chain|
  {
    if chain == [] then o == Pass
    else if Passes(chain[0], req, orders) then ChainOutcome(chain[1..], req, orders, o)
    else StepOutcome(chain[0], req, orders, o)
  }

  predicate NeedsGuard(c: Check)
  {
    c.DishQuantityIsValid? || c.StatusDelivered? || c.StatusPending?
  }

  /** The step that must pass before `c` can run without a TypeError. */
  function GuardOf(c: Check): (guard: Check)
    requires NeedsGuard(c)
  {
    if c.DishQuantityIsValid? then DishIsValid else OrderExists
  }

  /** Every step that needs a guard has it earlier in the chain. */
  predicate Guarded(chain: seq<Check>)
  {
    forall k :: 0 <= k < |chain| && NeedsGuard(chain[k]) ==>
      exists j :: 0 <= j < k && chain[j] == GuardOf(chain[k])
  }

  /** A passing guard makes its step safe to run. */
  lemma GuardEstablishes(c: Check, req: Request, orders: seq<Order>)
    requires NeedsGuard(c) && Passes(GuardOf(c), req, orders)
    ensures Defined(c, req, orders)
  {
  }

  /** Steps that passed do not affect the outcome of a chain. */
  lemma {:induction false} SkipPassed(chain: seq<Check>, n: nat, req: Request, orders: seq<Order>, o: Outcome)
    requires n <= |chain|
    requires forall k :: 0 <= k < n ==> Passes(chain[k], req, orders)
    ensures ChainOutcome(chain, req, orders, o) <==> ChainOutcome(chain[n..], req, orders, o)
  {
    if n > 0 {
      assert chain[1..][n - 1..] == chain[n..];
      SkipPassed(chain[1..], n - 1, req, orders, o);
    }
  }

  /** Reads a chain one position at a time. */
  lemma UnfoldAt(chain: seq<Check>, i: nat, req: Request, orders: seq<Order>, o: Outcome)
    requires i <= |chain|
    ensures i == |chain| ==> (ChainOutcome(chain[i..], req, orders, o) <==> o == Pass)
    ensures i < |chain| ==>
      (ChainOutcome(chain[i..], req, orders, o) <==>
        if Passes(chain[i], req, orders) then ChainOutcome(chain[i + 1..], req, orders, o)
        else StepOutcome(chain[i], req, orders, o))
  {
    if i < |chain| {
      assert chain[i..][0] == chain[i];
      assert chain[i..][1..] == chain[i + 1..];
    }
  }

  /** The first failing step decides the outcome of the chain. */
  lemma FirstFailure(chain: seq<Check>, n: nat, req: Request, orders: seq<Order>, o: Outcome)
    requires n < |chain|
    requires forall k :: 0 <= k < n ==> Passes(chain[k], req, orders)
    requires !Passes(chain[n], req, orders)
    ensures ChainOutcome(chain, req, orders, o) <==> StepOutcome(chain[n], req, orders, o)
  {
    SkipPassed(chain, n, req, orders, o);
    assert chain[n..][0] == chain[n];
  }

  /** A chain passes exactly when every step passes, and otherwise fails. */
  lemma {:induction false} ChainPassesIffAll(chain: seq<Check>, req: Request, orders: seq<Order>, o: Outcome)
    requires ChainOutcome(chain, req, orders, o)
    ensures o.Pass? <==> AllPass(chain, req, orders)
    decreases |chain|
  {
    if chain != [] && Passes(chain[0], req, orders) {
      ChainPassesIffAll(chain[1..], req, orders, o);
      assert AllPass(chain, req, orders) <==> AllPass(chain[1..], req, orders) by {
        if AllPass(chain[1..], req, orders) {
          forall k | 0 <= k < |chain| ensures Passes(chain[k], req, orders) {
            if k > 0 { assert chain[k] == chain[1..][k - 1]; }
          }
        }
      }
    }
  }

  /** Only `orderExists` answers 404; every other error of a chain is a 400. */
  lemma {:induction false} FailureStatus(chain: seq<Check>, req: Request, orders: seq<Order>, o: Outcome)
    requires ChainOutcome(chain, req, orders, o) && o.Fail?
    ensures o.status == (if o.reason.OrderNotFound? then 404 else 400)
    ensures o.reason.OrderNotFound? ==> OrderExists in chain
    decreases |chain|
  {
    if Passes(chain[0], req, orders) {
      FailureStatus(chain[1..], req, orders, o);
      if o.reason.OrderNotFound? {
        var k :| 0 <= k < |chain[1..]| && chain[1..][k] == OrderExists;
        assert chain[k + 1] == OrderExists;
      }
    } else {
      assert chain[0] in chain;
    }
  }

  /** Runs a chain step by step, stopping at the first error, as Express
      does with the middleware of a route. */
  method RunChain(chain: seq<Check>, req: Request, orders: seq<Order>) returns (o: Outcome)
    requires Guarded(chain)
    ensures ChainOutcome(chain, req, orders, o)
  {
    var i := 0;
    while i < |chain|
      invariant 0 <= i <= |chain|
      invariant forall k :: 0 <= k < i ==> Passes(chain[k], req, orders)
    {
      if NeedsGuard(chain[i]) {
        ghost var j :| 0 <= j < i && chain[j] == GuardOf(chain[i]);
        GuardEstablishes(chain[i], req, orders);
      }
      o := RunStep(chain[i], req, orders);
      if o.Fail? {
        FirstFailure(chain, i, req, orders, o);
        return;
      }
      i := i + 1;
    }
    o := Pass;
    SkipPassed(chain, |chain|, req, orders, o);
  }

  /** No exported chain runs a step before the step that makes it safe. */
  lemma ExportedChainsGuarded()
    ensures Guarded(CreateChain) && Guarded(ReadChain)
    ensures Guarded(UpdateChain) && Guarded(DeleteChain)
  {
    assert CreateChain[3] == DishIsValid;
    assert UpdateChain[0] == OrderExists && UpdateChain[6] == DishIsValid;
    assert DeleteChain[0] == OrderExists;
  }

  // ---------------------------------------------------------------------------
  // What each chain accepts, stated directly.

  /** A body the create route accepts: `deliverTo` and `mobileNumber` are
      truthy, `dishes` is a non-empty array, and every dish quantity is a
      positive integer. */
  predicate CreateAccepted(data: Body)
  {
    HasProperty(data, "deliverTo") && HasProperty(data, "mobileNumber") &&
    HasDishes(data) && AllQuantitiesValid(DishList(data))
  }

  /** A request the update route accepts: the order exists and is not
      delivered, the body has truthy `deliverTo`, `mobileNumber`, `status`
      other than "invalid", a non-empty array of dishes with positive integer
      quantities, and an `id` that is falsy or the route id. */
  predicate UpdateAccepted(orders: seq<Order>, orderId: string, data: Body)
  {
    Found(orders, orderId) &&
    HasProperty(data, "deliverTo") && HasProperty(data, "mobileNumber") &&
    StatusAllowed(data) && HasDishes(data) && AllQuantitiesValid(DishList(data)) &&
    IdMatches(data, orderId) && NotDelivered(orders[IndexOf(orders, orderId)])
  }

  /** A request the delete route accepts: the order exists and is pending. */
  predicate DeleteAccepted(orders: seq<Order>, orderId: string)
  {
    Found(orders, orderId) && Pending(orders[IndexOf(orders, orderId)])
  }

  lemma CreateChainAccepts(req: Request, orders: seq<Order>)
    ensures AllPass(CreateChain, req, orders) <==> CreateAccepted(req.data)
  {
    if CreateAccepted(req.data) {
      forall k | 0 <= k < |CreateChain| ensures Passes(CreateChain[k], req, orders) {
      }
    }
    if AllPass(CreateChain, req, orders) {
      assert Passes(CreateChain[0], req, orders) && Passes(CreateChain[1], req, orders);
      assert Passes(CreateChain[3], req, orders) && Passes(CreateChain[4], req, orders);
    }
  }

  lemma ReadChainAccepts(req: Request, orders: seq<Order>)
    ensures AllPass(ReadChain, req, orders) <==> Found(orders, req.orderId)
  {
    assert ReadChain[0] == OrderExists;
  }

  lemma UpdateChainAccepts(req: Request, orders: seq<Order>)
    ensures AllPass(UpdateChain, req, orders) <==> UpdateAccepted(orders, req.orderId, req.data)
  {
    if UpdateAccepted(orders, req.orderId, req.data) {
      forall k | 0 <= k < |UpdateChain| ensures Passes(UpdateChain[k], req, orders) {
      }
    }
    if AllPass(UpdateChain, req, orders) {
      assert Passes(UpdateChain[0], req, orders) && Passes(UpdateChain[1], req, orders);
      assert Passes(UpdateChain[2], req, orders) && Passes(UpdateChain[5], req, orders);
      assert Passes(UpdateChain[6], req, orders) && Passes(UpdateChain[7], req, orders);
      assert Passes(UpdateChain[8], req, orders) && Passes(UpdateChain[9], req, orders);
    }
  }

  lemma DeleteChainAccepts(req: Request, orders: seq<Order>)
    ensures AllPass(DeleteChain, req, orders) <==> DeleteAccepted(orders, req.orderId)
  {
    if AllPass(DeleteChain, req, orders) {
      assert Passes(DeleteChain[0], req, orders) && Passes(DeleteChain[1], req, orders);
    }
  }
}
