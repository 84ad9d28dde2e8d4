# GrubDash orders controller, modelled in Dafny

This project models the orders resource of GrubDash, a small REST API for
food-delivery orders. The resource keeps an in-memory list of orders. Its
routes are Express middleware chains: each validation step either passes
control on (`next()`) or raises an error with an HTTP status and a message
(`next({status, message})`). A route's handler runs only after every step
of its chain has passed.

The model has four modules:

- `JsValues` (`js_values.dfy`): the JSON values a request body can carry.
  It states JavaScript truthiness, lookup of a missing key as `undefined`,
  and `Number.isInteger(q) && q > 0`. An empty array is truthy. Numbers are
  either integral (`Int`) or not (`Fraction`: a fraction, or ±Infinity from
  an out-of-range literal such as `1e400`). Floats are not modelled.
- `OrderChecks` (`order_checks.dfy`): one predicate per middleware step.
  The four exported chains are kept as data (`seq<Check>`), in the order the
  controller lists them. `ChainOutcome` says which outcomes a chain may
  produce: the first step that fails decides. `RunChain` runs a chain step
  by step and is proved to produce one of those outcomes.
  `ValidateQuantities` is the `forEach` loop of `dishQuantityIsValid`.
- `OrdersController` (`order_store.dfy`): the class `OrderStore`. Its
  `orders: seq<Order>` field is the module-level list. `List` has no chain
  and returns the list. `Read` runs its chain (`orderExists`) and returns the
  order it found, leaving the list as it was. `Create`, `Update` and `Delete`
  run their chain and then change the list as the handlers do: `push`, field
  assignment, and `findIndex` followed by `splice`.
- `OrderProperties` (`order_properties.dfy`): for the create and update
  routes, the order in which they report errors, written out as a reference
  definition (`CreateReports`, `UpdateReports`) and proved equal to the
  chain; the properties of individual requests follow from these. The
  two-step delete chain is covered by `DeleteOnlyPending`, and the one-step
  read chain by `ReadChainAccepts` and the contract of `Read`.

Steps that would throw a JavaScript `TypeError` are guarded by a
`Defined` precondition. One such step is `dishes.forEach` on a value that is
not an array. The others read `res.locals.order` when no order was found.
`ExportedChainsGuarded` proves that every exported chain runs the step that
makes such a step safe before it.

Two behaviours of the code are worth stating plainly:

- The error message of `statusIsValid`
  (src/orders/orders.controller.js:78) lists four statuses, but its test
  (line 73) rejects only a falsy status and the string "invalid". The model
  follows the test, so any other string passes.
- `dishQuantityIsValid` (lines 46-54) calls `next(err)` for every bad dish
  and then calls `next()`. The model promises only that the reported index
  is one of the bad dishes; `ValidateQuantities` keeps the first.

## Model

| member | source | states |
|---|---|---|
| `JsValues.TruthyIffNotFalsy` | src/orders/orders.controller.js:9 | a value is truthy exactly when it is not `undefined`, `null`, `false`, `0` or `""`; arrays and objects are truthy even when empty |
| `OrderChecks.IndexOf` | src/orders/orders.controller.js:16-27 | the lookup of `orderExists` (`orders.find`): -1 exactly when no order has the id; otherwise the index of the first order with that id |
| `OrderChecks.ValidateQuantities` | src/orders/orders.controller.js:42-55 | `dishQuantityIsValid` passes exactly when every dish's quantity is an integer greater than 0; otherwise it fails with 400 naming the index of a dish whose quantity is not |
| `OrderChecks.RunStep` | src/orders/orders.controller.js:6-100 | running one middleware step passes when its check holds and otherwise raises that step's status and reason |
| `OrderChecks.RunChain` | src/orders/orders.controller.js:142-166 | running a chain in order gives the outcome of its first failing step, or a pass when every step passes |
| `OrderChecks.UnfoldAt` | src/orders/orders.controller.js:142-166 | a chain read from position i passes on to position i+1 when step i passes, and otherwise ends with step i's error |
| `OrderChecks.FirstFailure` | src/orders/orders.controller.js:142-166 | when the steps before position n pass and step n fails, step n's error is the chain's outcome |
| `OrderChecks.ChainPassesIffAll` | src/orders/orders.controller.js:142-166 | a chain's outcome is a pass exactly when every step of it passes |
| `OrderChecks.FailureStatus` | src/orders/orders.controller.js:16-100 | a chain error has status 404 exactly when it is "order does not exist", which only a chain containing `orderExists` raises; every other error has status 400 |
| `OrderChecks.ExportedChainsGuarded` | src/orders/orders.controller.js:142-166 | in every exported chain, `dishIsValid` runs before `dishQuantityIsValid`, and `orderExists` runs before `statusDelivered` and `statusPending` |
| `OrderChecks.CreateChainAccepts` | src/orders/orders.controller.js:144-151 | the create chain passes exactly when `deliverTo` and `mobileNumber` are truthy, `dishes` is a non-empty array, and every quantity is a positive integer |
| `OrderChecks.ReadChainAccepts` | src/orders/orders.controller.js:152 | the read chain passes exactly when an order has the route id |
| `OrderChecks.UpdateChainAccepts` | src/orders/orders.controller.js:153-165 | the update chain passes exactly when all of these hold: the order exists and is not delivered; `deliverTo` and `mobileNumber` are truthy; the status is truthy and not "invalid"; the dishes are a non-empty array with positive integer quantities; the body id is falsy or equals the route id |
| `OrderChecks.DeleteChainAccepts` | src/orders/orders.controller.js:166 | the delete chain passes exactly when the order exists and its status is "pending" |
| `OrdersController.FindIndex` | src/orders/orders.controller.js:137 | `orders.findIndex` returns the first index with the route id, or -1 |
| `OrdersController.SpliceOne` | src/orders/orders.controller.js:138 | `splice(start, 1)` removes one order when the start is below the length, and removes nothing from a start at or past the end; for an index in range it keeps the orders before it and shifts the orders after it down by one |
| `OrdersController.RemovePreserves` | src/orders/orders.controller.js:135-140 | removing one order keeps the store's ids unique and every remaining order well-formed |
| `OrdersController.OrderStore.constructor` | src/orders/orders.controller.js:2 | the store starts as the seeded order list |
| `OrdersController.OrderStore.List` | src/orders/orders.controller.js:102-104 | `list` answers 200 with every order, in store order |
| `OrdersController.OrderStore.Create` | src/orders/orders.controller.js:106-117 | on an accepted body: appends exactly one order with the fresh id and the body's `deliverTo`, `mobileNumber`, `status` and `dishes`; keeps every earlier order; answers 201 with the new order. Otherwise: leaves the store untouched and answers 400 with the chain's error. Unique ids and well-formed orders are preserved |
| `OrdersController.OrderStore.Read` | src/orders/orders.controller.js:119-121 | answers 200 with the first order that has the route id, or 404 naming the id |
| `OrdersController.OrderStore.Update` | src/orders/orders.controller.js:123-133 | on an accepted request: overwrites exactly the four body fields of the first order with the route id; its id, the other orders and the length stay; answers 200 with that order. Otherwise: store unchanged, with the chain's error. A delivered order is never changed |
| `OrdersController.OrderStore.Delete` | src/orders/orders.controller.js:135-140 | on an accepted request: removes exactly the first order with the route id; the length drops by one and the other orders keep their relative order; answers 204. Otherwise: store unchanged, with the chain's error. `findIndex` is never -1 here |
| `OrderProperties.BodyDataHasIffTruthy` | src/orders/orders.controller.js:6-13 | `bodyDataHas(p)` passes exactly when `data[p]` is not a falsy value, and `dishes: []` passes; a failure is 400 naming `p` |
| `OrderProperties.OrderIdValidCases` | src/orders/orders.controller.js:57-67 | `orderIdValid` passes exactly when the body id is falsy or equals the route id; a failure is 400 naming both ids |
| `OrderProperties.StatusIsValidOnStrings` | src/orders/orders.controller.js:69-80 | a string status fails `statusIsValid` only when it is empty or "invalid"; strings outside the documented statuses pass |
| `OrderProperties.CreateChainReports` | src/orders/orders.controller.js:144-151 | the create chain's outcomes are exactly those of the reference order: missing `deliverTo`, then `mobileNumber`, then `dishes`, then no dish, then a bad quantity, and otherwise a pass |
| `OrderProperties.CreateNeedsDeliverTo` | src/orders/orders.controller.js:145 | a create body without a truthy `deliverTo` gets exactly 400 naming `deliverTo` |
| `OrderProperties.EmptyDishesRejectedOnCreate` | src/orders/orders.controller.js:29-40 | `dishes: []` passes `bodyDataHas("dishes")`, and the create chain then answers exactly 400 "at least one dish" |
| `OrderProperties.CreateQuantityCheck` | src/orders/orders.controller.js:42-55 | once the earlier create checks pass, the chain passes exactly when every quantity is a positive integer; otherwise it answers 400 naming some dish that fails the check |
| `OrderProperties.CreateNamesTheBadDish` | src/orders/orders.controller.js:46-52 | when exactly one dish has a bad quantity, the error names that dish's index |
| `OrderProperties.UpdateLaterChainReports` | src/orders/orders.controller.js:159-163 | the last five update steps report, in order: an id mismatch, then no dish, then a bad quantity, then an invalid status, then a delivered stored order |
| `OrderProperties.UpdateChainReports` | src/orders/orders.controller.js:153-165 | the update chain's outcomes are exactly those of the reference order: 404 for an unknown id, then the missing properties, then the later checks |
| `OrderProperties.UpdateUnknownOrder` | src/orders/orders.controller.js:154 | an update of an unknown id gets exactly 404, whatever the body |
| `OrderProperties.UpdateIdMismatch` | src/orders/orders.controller.js:57-67 | an update whose truthy body id differs from the route id gets exactly 400 "id does not match", once the order exists and the required properties are present |
| `OrderProperties.DeliveredOrderImmutable` | src/orders/orders.controller.js:82-90 | an update of a delivered order always fails with 400; it gets "a delivered order cannot be changed" exactly when the body passes every body check, and otherwise the body's own error |
| `OrderProperties.UpdateChangesOnlyTarget` | src/orders/orders.controller.js:127-130 | the update assignment changes exactly `deliverTo`, `mobileNumber`, `status` and `dishes` of one order; its id, the list's length and every other order stay |
| `OrderProperties.DeleteOnlyPending` | src/orders/orders.controller.js:92-100 | delete passes exactly for an existing pending order; an unknown id gets 404 and any other status gets 400 |
| `OrderProperties.SpliceMinusOneDropsLast` | src/orders/orders.controller.js:137-138 | `splice(-1, 1)` would remove the last order. `Delete` never calls it with -1 |

## Left out

- Express plumbing (`req`, `res`, `next`, `res.json`, `res.status`, `sendStatus`) is not modelled. Each step returns an `Outcome` instead. Each handler returns a `Response`: a status and an optional payload.
- Error messages are not modelled as text. Each error carries a `Reason` that names the field, the index or the ids the message would show.
- `nextId` (`src/utils/nextId`) is not part of this model. `Create` takes the fresh id as a parameter. Its precondition says that no stored order has that id.
- The data modules `orders-data` and `dishes-data` are not part of this model. The store starts from an arbitrary list, and `dishesData` is unused in the controller.
- A `data` value that is not an object, and `data: null`, are not modelled. The body is always a map, and a missing `data` is the empty map, as the default in `bodyDataHas` makes it.
- A `null` element of `dishes` makes `dish.quantity` throw a `TypeError` in the source. The model reads the quantity of any non-object dish as `undefined`, so that dish fails the check with 400.
- Stored order ids are strings. A seeded order with a non-string id could never match the route parameter under `===`, so the model does not represent it.
- OrderChecks.ValidateQuantities: does not say which bad dish the client sees. The source calls `next(err)` for every bad dish and then calls `next()` once more at line 54. The model treats the chain as stopped at the quantity error and promises only that the reported index is a bad dish.
- Floating-point numbers are left out. A number is either an integer or a non-integer (`Fraction`, which also stands for the ±Infinity that `JSON.parse` makes of an out-of-range literal; `Number.isInteger` rejects both). `JSON.parse` never yields NaN.
- Aliasing is not modelled. In the source, `res.locals.order` and the list entry are the same object, and a stored `dishes` array is the request's own array. In the model, `Update` and `Delete` locate the order again by its first matching index, which is the object `orders.find` returned. Stored values are immutable.
- Dish fields other than `quantity` are not modelled, because no check reads them.
- Concurrency is left out: the source runs one request at a time.
