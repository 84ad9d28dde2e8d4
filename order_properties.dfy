/** Properties of the exported chains that the controller's routes rely on:
    the order in which each route reports errors, which error each kind of
    bad request gets, and which requests can change the store at all. */
module OrderProperties {
  import opened JsValues
  import opened OrderChecks
  import opened OrdersController

  /** The statuses the error message of `statusIsValid` lists. */
  const DocumentedStatuses: set<string> := {"pending", "preparing", "out-for-delivery", "delivered"}

  // ---------------------------------------------------------------------------
  // Single steps.

  /** `bodyDataHas(p)` passes exactly on a truthy `data[p]` and otherwise
      fails with 400 naming `p`; an empty array counts as present. */
  lemma BodyDataHasIffTruthy(p: string, req: Request, orders: seq<Order>, o: Outcome)
    requires StepOutcome(BodyDataHas(p), req, orders, o)
    ensures o.Pass? <==> Lookup(req.data, p) !in FalsyValues
    ensures o.Fail? ==> o == Fail(400, MissingProperty(p))
    ensures Lookup(req.data, p) == Arr([]) ==> o.Pass?
  {
    TruthyIffNotFalsy(Lookup(req.data, p));
  }

  /** `orderIdValid` lets through a falsy body id or the route id, and
      rejects every other id with 400. */
  lemma OrderIdValidCases(req: Request, orders: seq<Order>, o: Outcome)
    requires StepOutcome(OrderIdValid, req, orders, o)
    ensures o.Pass? <==> (Lookup(req.data, "id") in FalsyValues || Lookup(req.data, "id") == Str(req.orderId))
    ensures o.Fail? ==> o == Fail(400, IdMismatch(Lookup(req.data, "id"), req.orderId))
  {
    TruthyIffNotFalsy(Lookup(req.data, "id"));
  }

  /** `statusIsValid` is not a check against the documented statuses: a
      string status fails only when it is empty or "invalid". */
  lemma StatusIsValidOnStrings(s: string, req: Request, orders: seq<Order>)
    requires Lookup(req.data, "status") == Str(s)
    ensures Passes(StatusIsValid, req, orders) <==> s != "" && s != "invalid"
    ensures s !in DocumentedStatuses && s != "" && s != "invalid" ==> Passes(StatusIsValid, req, orders)
  {
  }

  // ---------------------------------------------------------------------------
  // The create route.

  /** The errors of the create route, in the order it reports them. */
  predicate CreateReports(data: Body, o: Outcome)
  {
    if !HasProperty(data, "deliverTo") then o == Fail(400, MissingProperty("deliverTo"))
    else if !HasProperty(data, "mobileNumber") then o == Fail(400, MissingProperty("mobileNumber"))
    else if !HasProperty(data, "dishes") then o == Fail(400, MissingProperty("dishes"))
    else if !HasDishes(data) then o == Fail(400, NoDish)
    else if !AllQuantitiesValid(DishList(data)) then QuantityError(DishList(data), o)
    else o == Pass
  }

  /** The create chain reports exactly the errors `CreateReports` lists, in
      that order. */
  lemma CreateChainReports(req: Request, orders: seq<Order>, o: Outcome)
    ensures ChainOutcome(CreateChain, req, orders, o) <==> CreateReports(req.data, o)
  {
    var c := CreateChain;
    assert c[0..] == c;
    UnfoldAt(c, 0, req, orders, o);
    UnfoldAt(c, 1, req, orders, o);
    UnfoldAt(c, 2, req, orders, o);
    UnfoldAt(c, 3, req, orders, o);
    UnfoldAt(c, 4, req, orders, o);
    UnfoldAt(c, 5, req, orders, o);
  }

  /** A create body without a truthy `deliverTo` gets 400 naming it, before
      anything else is looked at. */
  lemma CreateNeedsDeliverTo(req: Request, orders: seq<Order>, o: Outcome)
    requires !HasProperty(req.data, "deliverTo")
    ensures ChainOutcome(CreateChain, req, orders, o) <==> o == Fail(400, MissingProperty("deliverTo"))
  {
    CreateChainReports(req, orders, o);
  }

  /** `dishes: []` passes `bodyDataHas("dishes")`, and the create chain then
      answers 400 "at least one dish". */
  lemma EmptyDishesRejectedOnCreate(req: Request, orders: seq<Order>, o: Outcome)
    requires HasProperty(req.data, "deliverTo") && HasProperty(req.data, "mobileNumber")
    requires Lookup(req.data, "dishes") == Arr([])
    ensures Passes(BodyDataHas("dishes"), req, orders)
    ensures ChainOutcome(CreateChain, req, orders, o) <==> o == Fail(400, NoDish)
  {
    CreateChainReports(req, orders, o);
  }

  /** With the other fields present and a non-empty dish array, the create
      chain passes exactly when every quantity is a positive integer, and
      otherwise names some dish whose quantity is not. */
  lemma CreateQuantityCheck(req: Request, orders: seq<Order>, o: Outcome)
    requires HasProperty(req.data, "deliverTo") && HasProperty(req.data, "mobileNumber")
    requires HasDishes(req.data)
    requires ChainOutcome(CreateChain, req, orders, o)
    ensures o.Pass? <==> AllQuantitiesValid(DishList(req.data))
    ensures o.Fail? ==> QuantityError(DishList(req.data), o)
  {
    CreateChainReports(req, orders, o);
  }

  /** With exactly one bad dish, the error names that dish's index. */
  lemma CreateNamesTheBadDish(req: Request, orders: seq<Order>, k: nat, o: Outcome)
    requires HasProperty(req.data, "deliverTo") && HasProperty(req.data, "mobileNumber")
    requires HasDishes(req.data)
    requires k < |DishList(req.data)| && !QuantityValid(DishList(req.data)[k])
    requires forall j :: 0 <= j < |DishList(req.data)| && j != k ==> QuantityValid(DishList(req.data)[j])
    requires ChainOutcome(CreateChain, req, orders, o)
    ensures o == Fail(400, BadQuantity(k))
  {
    CreateChainReports(req, orders, o);
  }

  // ---------------------------------------------------------------------------
  // The update route.

  /** The errors of the update route, in the order it reports them: first
      the existence of the order and the four required properties, then
      `UpdateLaterReports`. */
  predicate UpdateReports(req: Request, orders: seq<Order>, o: Outcome)
  {
    var data := req.data;
    if !Found(orders, req.orderId) then o == Fail(404, OrderNotFound(req.orderId))
    else if !HasProperty(data, "deliverTo") then o == Fail(400, MissingProperty("deliverTo"))
    else if !HasProperty(data, "mobileNumber") then o == Fail(400, MissingProperty("mobileNumber"))
    else if !HasProperty(data, "status") then o == Fail(400, MissingProperty("status"))
    else if !HasProperty(data, "dishes") then o == Fail(400, MissingProperty("dishes"))
    else UpdateLaterReports(req, orders, o)
  }

  /** The errors of the update route after the required properties: the id,
      the dishes, the status, and last the stored order's status. */
  predicate UpdateLaterReports(req: Request, orders: seq<Order>, o: Outcome)
  {
    var data := req.data;
    if !IdMatches(data, req.orderId) then o == Fail(400, IdMismatch(Lookup(data, "id"), req.orderId))
    else if !HasDishes(data) then o == Fail(400, NoDish)
    else if !AllQuantitiesValid(DishList(data)) then QuantityError(DishList(data), o)
    else if !StatusAllowed(data) then o == Fail(400, InvalidStatus)
    else if Found(orders, req.orderId) && !NotDelivered(orders[IndexOf(orders, req.orderId)]) then
      o == Fail(400, DeliveredImmutable)
    else o == Pass
  }

  /** The last five steps of the update chain report `UpdateLaterReports`. */
  lemma UpdateLaterChainReports(req: Request, orders: seq<Order>, o: Outcome)
    ensures ChainOutcome(UpdateChain[5..], req, orders, o) <==> UpdateLaterReports(req, orders, o)
  {
    var c := UpdateChain;
    UnfoldAt(c, 5, req, orders, o);
    UnfoldAt(c, 6, req, orders, o);
    UnfoldAt(c, 7, req, orders, o);
    UnfoldAt(c, 8, req, orders, o);
    UnfoldAt(c, 9, req, orders, o);
    UnfoldAt(c, 10, req, orders, o);
  }

  /** The update chain reports exactly the errors `UpdateReports` lists, in
      that order. */
  lemma UpdateChainReports(req: Request, orders: seq<Order>, o: Outcome)
    ensures ChainOutcome(UpdateChain, req, orders, o) <==> UpdateReports(req, orders, o)
  {
    var c := UpdateChain;
    assert c[0..] == c;
    UnfoldAt(c, 0, req, orders, o);
    UnfoldAt(c, 1, req, orders, o);
    UnfoldAt(c, 2, req, orders, o);
    UnfoldAt(c, 3, req, orders, o);
    UnfoldAt(c, 4, req, orders, o);
    UpdateLaterChainReports(req, orders, o);
  }

  /** The checks of the update route that read only the body. */
  predicate UpdateBodyValid(req: Request)
  {
    HasProperty(req.data, "deliverTo") && HasProperty(req.data, "mobileNumber") &&
    HasProperty(req.data, "status") && HasProperty(req.data, "dishes") &&
    IdMatches(req.data, req.orderId) && HasDishes(req.data) &&
    AllQuantitiesValid(DishList(req.data)) && StatusAllowed(req.data)
  }

  /** An unknown route id gets 404, whatever the body. */
  lemma UpdateUnknownOrder(req: Request, orders: seq<Order>, o: Outcome)
    requires !Found(orders, req.orderId)
    ensures ChainOutcome(UpdateChain, req, orders, o) <==> o == Fail(404, OrderNotFound(req.orderId))
  {
    UpdateChainReports(req, orders, o);
  }

  /** A body id that is truthy and differs from the route id gets 400 once the
      order exists and the four required properties are present. */
  lemma UpdateIdMismatch(req: Request, orders: seq<Order>, o: Outcome)
    requires Found(orders, req.orderId)
    requires HasProperty(req.data, "deliverTo") && HasProperty(req.data, "mobileNumber")
    requires HasProperty(req.data, "status") && HasProperty(req.data, "dishes")
    requires Truthy(Lookup(req.data, "id")) && Lookup(req.data, "id") != Str(req.orderId)
    ensures ChainOutcome(UpdateChain, req, orders, o) <==>
      o == Fail(400, IdMismatch(Lookup(req.data, "id"), req.orderId))
  {
    UpdateChainReports(req, orders, o);
  }

  /** A delivered order is never updated. The body checks run first, so a bad
      body reports its own error, and only a good one gets "a delivered order
      cannot be changed". */
  lemma DeliveredOrderImmutable(req: Request, orders: seq<Order>, o: Outcome)
    requires Found(orders, req.orderId)
    requires orders[IndexOf(orders, req.orderId)].status == Str("delivered")
    requires ChainOutcome(UpdateChain, req, orders, o)
    ensures o.Fail? && o.status == 400
    ensures UpdateBodyValid(req) <==> o == Fail(400, DeliveredImmutable)
  {
    UpdateChainReports(req, orders, o);
  }

  /** A successful update rewrites the four body fields of one order and
      nothing else: the id, the length and the other orders stay. */
  lemma UpdateChangesOnlyTarget(orders: seq<Order>, i: nat, data: Body)
    requires i < |orders|
    ensures var after := orders[i := Overwrite(orders[i], data)];
      |after| == |orders| && after[i].id == orders[i].id &&
      after[i].deliverTo == Lookup(data, "deliverTo") &&
      after[i].mobileNumber == Lookup(data, "mobileNumber") &&
      after[i].status == Lookup(data, "status") &&
      after[i].dishes == Lookup(data, "dishes") &&
      forall k :: 0 <= k < |orders| && k != i ==> after[k] == orders[k]
  {
  }

  // ---------------------------------------------------------------------------
  // The delete route.

  /** Delete passes exactly for an existing pending order; an unknown id gets
      404 and an order in any other status gets 400. */
  lemma DeleteOnlyPending(req: Request, orders: seq<Order>, o: Outcome)
    requires ChainOutcome(DeleteChain, req, orders, o)
    ensures o.Pass? <==> Found(orders, req.orderId) && Pending(orders[IndexOf(orders, req.orderId)])
    ensures !Found(orders, req.orderId) ==> o == Fail(404, OrderNotFound(req.orderId))
    ensures Found(orders, req.orderId) && !Pending(orders[IndexOf(orders, req.orderId)]) ==>
      o == Fail(400, NotPending)
  {
    var c := DeleteChain;
    assert c[0..] == c;
    UnfoldAt(c, 0, req, orders, o);
    UnfoldAt(c, 1, req, orders, o);
    UnfoldAt(c, 2, req, orders, o);
  }

  /** What `splice(-1, 1)` would do if `findIndex` ever answered -1: drop the
      last order. `Delete` never reaches it, because `orderExists` runs first. */
  lemma SpliceMinusOneDropsLast(orders: seq<Order>)
    requires |orders| > 0
    ensures SpliceOne(orders, -1) == orders[..|orders| - 1]
  {
  }
}
