/** The in-memory order list of the orders controller and the five route
    handlers that read and change it. Each handler first runs its exported
    chain of checks; only when every check passes does it touch the list. */
module OrdersController {
  import opened JsValues
  import opened OrderChecks

  /** The body of a response: nothing (204), `{data: order}`,
      `{data: orders}`, or an error naming what failed. */
  datatype Payload = NoContent | Data(order: Order) | DataList(orders: seq<Order>) | Error(reason: Reason)

  datatype Response = Response(status: int, payload: Payload)

  /** The record `create` pushes: a new id and the body's four fields, taken
      as they are (`status` is not checked on this route). */
  function NewOrder(id: string, data: Body): (order: Order)
  {
    Order(id, Lookup(data, "deliverTo"), Lookup(data, "mobileNumber"),
          Lookup(data, "status"), Lookup(data, "dishes"))
  }

  /** The order after `update` assigns the body's four fields to it. */
  function Overwrite(order: Order, data: Body): (updated: Order)
  {
    order.(deliverTo := Lookup(data, "deliverTo"), mobileNumber := Lookup(data, "mobileNumber"),
           status := Lookup(data, "status"), dishes := Lookup(data, "dishes"))
  }

  /** What the create and update checks guarantee of a stored order: a
      truthy address and phone number, and at least one dish, each with a
      positive integer quantity. */
  predicate WellFormed(order: Order)
  {
    Truthy(order.deliverTo) && Truthy(order.mobileNumber) &&
    order.dishes.Arr? && |order.dishes.items| > 0 && AllQuantitiesValid(order.dishes.items)
  }

  predicate AllWellFormed(orders: seq<Order>)
  {
    forall k :: 0 <= k < |orders| ==> WellFormed(orders[k])
  }

  predicate UniqueIds(orders: seq<Order>)
  {
    forall j, k :: 0 <= j < k < |orders| ==> orders[j].id != orders[k].id
  }

  /** `orders.findIndex((order) => order.id === orderId)`. */
  method FindIndex(orders: seq<Order>, orderId: string) returns (i: int)
    ensures i == IndexOf(orders, orderId)
  {
    i := 0;
    while i < |orders|
      invariant 0 <= i <= |orders|
      invariant forall k :: 0 <= k < i ==> orders[k].id != orderId
    {
      if orders[i].id == orderId {
        return;
      }
      i := i + 1;
    }
    i := -1;
  }

  /** `orders.splice(start, 1)` on the list, with JavaScript's reading of a
      negative start as counting from the end. */
  function SpliceOne(orders: seq<Order>, start: int): (r: seq<Order>)
    ensures start >= |orders| ==> r == orders
    ensures start < |orders| && |orders| > 0 ==> |r| == |orders| - 1
    ensures 0 <= start < |orders| ==>
      r[..start] == orders[..start] && r[start..] == orders[start + 1..]
  {
    var from :=
      if start < 0 then (if |orders| + start < 0 then 0 else |orders| + start)
      else (if start > |orders| then |orders| else start);
    if from < |orders| then orders[..from] + orders[from + 1..] else orders
  }

  /** Removing one entry keeps every other order, so both store invariants
      survive it. */
  lemma RemovePreserves(orders: seq<Order>, i: nat)
    requires i < |orders|
    ensures AllWellFormed(orders) ==> AllWellFormed(orders[..i] + orders[i + 1..])
    ensures UniqueIds(orders) ==> UniqueIds(orders[..i] + orders[i + 1..])
  {
    var r := orders[..i] + orders[i + 1..];
    assert forall k :: 0 <= k < |r| ==> r[k] == orders[if k < i then k else k + 1];
  }

  class OrderStore {
    /** The module-level `orders` list. */
    var orders: seq<Order>

    /** The store as the data module seeds it. */
    constructor (initial: seq<Order>)
      ensures orders == initial
    {
      orders := initial;
    }

    /** `list`: every order, in store order. */
    method List() returns (res: Response)
      ensures res.status == 200 && res.payload.DataList? && res.payload.orders == orders
    {
      res := Response(200, DataList(orders));
    }

    /** `create` behind its chain. `freshId` is the value of the id generator,
        which never repeats a stored id. */
    method Create(data: Body, freshId: string) returns (res: Response)
      requires forall k :: 0 <= k < |orders| ==> orders[k].id != freshId
      modifies this
      ensures CreateAccepted(data) ==>
        orders == old(orders) + [NewOrder(freshId, data)] &&
        res == Response(201, Data(NewOrder(freshId, data)))
      ensures !CreateAccepted(data) ==>
        orders == old(orders) && res.status == 400 && res.payload.Error? &&
        ChainOutcome(CreateChain, Request("", data), old(orders), Fail(400, res.payload.reason))
      ensures UniqueIds(old(orders)) ==> UniqueIds(orders)
      ensures AllWellFormed(old(orders)) ==> AllWellFormed(orders)
    {
      // The collection route has no `orderId`; no check of this chain reads it.
      var req := Request("", data);
      ExportedChainsGuarded();
      var o := RunChain(CreateChain, req, orders);
      ChainPassesIffAll(CreateChain, req, orders, o);
      CreateChainAccepts(req, orders);
      if o.Fail? {
        FailureStatus(CreateChain, req, orders, o);
        return Response(o.status, Error(o.reason));
      }
      var order := NewOrder(freshId, data);
      assert WellFormed(order);
      orders := orders + [order];
      res := Response(201, Data(order));
    }

    /** `read` behind `orderExists`. */
    method Read(orderId: string) returns (res: Response)
      ensures Found(orders, orderId) ==> res == Response(200, Data(orders[IndexOf(orders, orderId)]))
      ensures !Found(orders, orderId) ==> res == Response(404, Error(OrderNotFound(orderId)))
    {
      var req := Request(orderId, map[]);
      ExportedChainsGuarded();
      var o := RunChain(ReadChain, req, orders);
      ChainPassesIffAll(ReadChain, req, orders, o);
      ReadChainAccepts(req, orders);
      if o.Fail? {
        assert ReadChain[0] == OrderExists;
        return Response(o.status, Error(o.reason));
      }
      var i := FindIndex(orders, orderId);
      res := Response(200, Data(orders[i]));
    }

    /** `update` behind its chain: the first order with the route id gets the
        body's four fields; its id and every other order stay as they were. */
    method Update(orderId: string, data: Body) returns (res: Response)
      modifies this
      ensures UpdateAccepted(old(orders), orderId, data) ==>
        var i := IndexOf(old(orders), orderId);
        orders == old(orders)[i := Overwrite(old(orders)[i], data)] &&
        res == Response(200, Data(orders[i]))
      ensures !UpdateAccepted(old(orders), orderId, data) ==>
        orders == old(orders) && res.payload.Error? &&
        ChainOutcome(UpdateChain, Request(orderId, data), old(orders), Fail(res.status, res.payload.reason))
      ensures Found(old(orders), orderId) && !NotDelivered(old(orders)[IndexOf(old(orders), orderId)]) ==>
        orders == old(orders)
      ensures UniqueIds(old(orders)) ==> UniqueIds(orders)
      ensures AllWellFormed(old(orders)) ==> AllWellFormed(orders)
    {
      var req := Request(orderId, data);
      ExportedChainsGuarded();
      var o := RunChain(UpdateChain, req, orders);
      ChainPassesIffAll(UpdateChain, req, orders, o);
      UpdateChainAccepts(req, orders);
      if o.Fail? {
        return Response(o.status, Error(o.reason));
      }
      // The order `orderExists` left in `res.locals`.
      var i := FindIndex(orders, orderId);
      var updated := Overwrite(orders[i], data);
      assert WellFormed(updated);
      orders := orders[i := updated];
      res := Response(200, Data(updated));
    }

    /** `destroy` behind `orderExists` and `statusPending`: removes the first
        order with the route id and keeps the others in order. */
    method Delete(orderId: string) returns (res: Response)
      modifies this
      ensures DeleteAccepted(old(orders), orderId) ==>
        var i := IndexOf(old(orders), orderId);
        orders == old(orders)[..i] + old(orders)[i + 1..] &&
        res == Response(204, NoContent)
      ensures !DeleteAccepted(old(orders), orderId) ==>
        orders == old(orders) && res.payload.Error? &&
        ChainOutcome(DeleteChain, Request(orderId, map[]), old(orders), Fail(res.status, res.payload.reason))
      ensures DeleteAccepted(old(orders), orderId) ==> |orders| == |old(orders)| - 1
      ensures UniqueIds(old(orders)) ==> UniqueIds(orders)
      ensures AllWellFormed(old(orders)) ==> AllWellFormed(orders)
    {
      var req := Request(orderId, map[]);
      ExportedChainsGuarded();
      var o := RunChain(DeleteChain, req, orders);
      ChainPassesIffAll(DeleteChain, req, orders, o);
      DeleteChainAccepts(req, orders);
      if o.Fail? {
        return Response(o.status, Error(o.reason));
      }
      var index := FindIndex(orders, orderId);
      // `orderExists` ran first, so `findIndex` did not return -1 and the
      // splice below cannot fall back to removing the last order.
      assert 0 <= index < |orders|;
      RemovePreserves(orders, index);
      orders := SpliceOne(orders, index);
      res := Response(204, NoContent);
    }
  }
}
