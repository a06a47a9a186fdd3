# Cloud Kitchen storefront: cart, orders and order tracking in Dafny

This project models the client-side logic of a food-ordering storefront. The
logic lives in two browser stores and two pages:

- the **cart store** (`hooks/use-cart.tsx`): a list of line items with
  `addItem`, `removeItem`, `updateQuantity` and `clearCart`, two totals folded
  over the list, and a hydration flag;
- the **order store** (`hooks/use-orders.tsx`): `placeOrder`,
  `updateOrderStatus`, `getOrderById` and the estimated-time table;
- the **tracking page** helpers (`app/track/page.tsx`): the two linear status
  flows (delivery: confirmed → preparing → ready → delivering → delivered;
  pickup: confirmed → preparing → ready_for_pickup → picked_up), their step
  numbers, the simulator's one-step advance rule, the active/completed tabs
  and the status labels;
- the **checkout page** (`app/checkout/page.tsx`): the order draft built from
  the form and the cart, the phone-field digit filter, the summary's
  estimate, and the place-then-clear submit sequence;
- the **menu catalog** (`data/menu-items.ts`): a constant list with checked
  invariants.

Files, one module each: `wrappers.dfy` (Option and the storage-load result),
`menu.dfy`, `cart.dfy`, `orders.dfy`, `tracking.dfy`, `checkout.dfy`.

The two stores are classes whose list field the methods replace. Each method
is specified by a function of the old list (`AddedTo`, `WithoutId`,
`WithQuantity`, `WithStatus`), and the properties are lemmas about those
functions. Everything else is pure functions and lemmas.

Modelling choices:

- Money is `int`: every catalog price is a whole number.
- `addItem` merges a new item into the first line with the same id and the
  same `customizations`. The code compares the customizations by their
  `JSON.stringify` text. The item page builds them in one fixed key order,
  and prices are whole numbers. Under those conditions, JSON equality is
  structural equality. The model distinguishes an absent member (`Unset`),
  `null` (`Null`, passed for non-customizable items) and an object (`Set`),
  as `JSON.stringify` does. An absent and an empty member inside the object
  are different values.
- The merge path (`hooks/use-cart.tsx:73`) and the update path
  (`hooks/use-cart.tsx:93`) set `totalPrice = price * quantity`. This drops
  the add-on prices that the item page included when it built the line.
  The model keeps this behaviour, and `MergeDropsAddOnPrices` proves the
  resulting shortfall.
- `Math.random()` and the timestamp are parameters of `PlaceOrder`. The
  draw is a `real` in [0, 1), and the id is computed in exact arithmetic.
- `OrderStatus` has the seven statuses plus `Unknown(raw)`. `Unknown`
  stands for a string loaded from storage that is none of the seven.
  Loading does not validate, and the default branches of the switch tables
  exist for such values. `ValidStatus` states that `raw` is none of the
  seven status strings, and `StatusNameInjective` proves that under it each
  status value has its own string.
- The order type is delivery or pickup. The code tests
  `type === "delivery"` and treats everything else as pickup.
- Add-on lists are compared in order, because the code compares JSON text.
- `removeItem` and `updateQuantity` are keyed by id alone. They affect
  every line with that id, whatever its customizations.
- `updateOrderStatus` sets `completed` for delivered or picked_up whatever
  the order's type.

## Model

| member | source | states |
|---|---|---|
| `Menu.MenuIdsDistinct` | data/menu-items.ts:15-124 | no two catalog items share an id |
| `Menu.MenuPricesPositive` | data/menu-items.ts:15-124 | every item price and every add-on price is a positive whole number |
| `Menu.MenuAddOnsMatchFlag` | data/menu-items.ts:16-123 | customizable items offer a non-empty add-on list; the one non-customizable item (orange juice) has no add-ons member |
| `Cart.FindLine` | hooks/use-cart.tsx:63-66 | `findIndex` result: the first line with the same id and equal customizations, or none exactly when no line matches |
| `Cart.WithoutId` | hooks/use-cart.tsx:82-84 | the filter keeps exactly the lines whose id differs, never grows the list |
| `Cart.CartStore.constructor` | hooks/use-cart.tsx:33-34 | a new store is empty and not hydrated |
| `Cart.CartStore.Hydrate` | hooks/use-cart.tsx:36-48 | after the load the store is hydrated, whether the key was missing, unreadable or parsed; only a parsed list replaces the items |
| `Cart.CartStore.Snapshot` | hooks/use-cart.tsx:50-59 | a list is written back only once hydrated, and it is the current list |
| `Cart.CartStore.AddItem` | hooks/use-cart.tsx:61-80 | the loop finds the first matching line; the new list is `AddedTo(old list, item)` |
| `Cart.CartStore.RemoveItem` | hooks/use-cart.tsx:82-84 | the new list is the old one without the lines with that id |
| `Cart.CartStore.UpdateQuantity` | hooks/use-cart.tsx:86-95 | a quantity ≤ 0 gives exactly the `removeItem` result; a positive one rewrites every line with the id |
| `Cart.CartStore.ClearCart` | hooks/use-cart.tsx:97-99 | the list is empty and both totals are 0 |
| `Cart.AddItemAppends` | hooks/use-cart.tsx:75-78 | with no matching line, `AddedTo` (the list `addItem` leaves) appends the item: length + 1, earlier lines unchanged, the item last |
| `Cart.AddItemMerges` | hooks/use-cart.tsx:68-74 | with a match only the first matching line changes: quantity + new quantity, total = its own price × new quantity; length unchanged |
| `Cart.AddItemTotalItems` | hooks/use-cart.tsx:61-102 | in both branches `totalItems` grows by exactly the added quantity |
| `Cart.MergeDropsAddOnPrices` | hooks/use-cart.tsx:71-73 | after a merge, a line with priced add-ons and positive quantity totals less than (price + add-ons) × quantity |
| `Cart.RemoveDistributes` | hooks/use-cart.tsx:83 | removal distributes over concatenation, so survivors keep their relative order |
| `Cart.RemoveUntouched` | hooks/use-cart.tsx:83 | a list without the id is returned unchanged |
| `Cart.RemoveKeepsOthers` | hooks/use-cart.tsx:83 | every line with another id survives as often as it occurred, whatever its customizations |
| `Cart.UpdateQuantityEffect` | hooks/use-cart.tsx:92-94 | `WithQuantity` (the map of `updateQuantity` for q > 0) sets quantity q and total price × q on every line with the id; other lines and the length stay |
| `Cart.UpdateQuantityIdempotent` | hooks/use-cart.tsx:92-94 | updating twice with the same id and quantity equals updating once |
| `Cart.TotalsAppend` | hooks/use-cart.tsx:101-102 | the folds `TotalAmount` (`totalAmount`) and `TotalItems` (`totalItems`) are additive over concatenation |
| `Cart.TotalItemsUpdate` | hooks/use-cart.tsx:102 | replacing one line changes `totalItems` by the change in that line's quantity |
| `Cart.TotalsOfLines` | hooks/use-cart.tsx:101-102 | over non-negative lines both totals are non-negative and bound every single line |
| `Orders.OrderNumber` | hooks/use-orders.tsx:80 | for every draw in [0, 1) the number lies in [100000, 999999] |
| `Orders.OrderNumberCoversRange` | hooks/use-orders.tsx:80 | every number in [100000, 999999] is produced by some draw |
| `Orders.DecimalString` | hooks/use-orders.tsx:80 | `toString` yields only decimal digits, at least one, with no leading zero |
| `Orders.DecimalRoundTrip` | hooks/use-orders.tsx:80 | reading the printed digits back gives the number |
| `Orders.DecimalLength` | hooks/use-orders.tsx:80 | a number with k decimal digits prints as k characters |
| `Orders.OrderIdIsSixDigits` | hooks/use-orders.tsx:80 | every order id is six decimal digits denoting the drawn number |
| `Orders.NewOrder` | hooks/use-orders.tsx:85-91 | the new order carries every draft field unchanged, the given id and timestamp, status confirmed, not completed |
| `Orders.EstimatedTimeFallback` | hooks/use-orders.tsx:146-177 | in `EstimatedTime` (`getEstimatedTimeByStatus`), a status outside the type's flow gets the initial estimate: "35-45 minutes" for delivery, "20-30 minutes" for pickup |
| `Orders.GetOrderById` | hooks/use-orders.tsx:118-120 | the result is the first order with the id, or none exactly when no order has it |
| `Orders.OrderStore.constructor` | hooks/use-orders.tsx:49-50 | a new store is empty and not hydrated |
| `Orders.OrderStore.Hydrate` | hooks/use-orders.tsx:52-65 | hydrated after the load in every case; only a parsed list replaces the orders |
| `Orders.OrderStore.Snapshot` | hooks/use-orders.tsx:67-76 | a list is written back only once hydrated, and it is the current list |
| `Orders.OrderStore.PlaceOrder` | hooks/use-orders.tsx:78-96 | returns a six-digit id; appends the new order at the end, earlier orders untouched, with no uniqueness check |
| `Orders.OrderStore.UpdateOrderStatus` | hooks/use-orders.tsx:98-116 | the new list is `WithStatus(old list, id, status)` |
| `Orders.UpdateStatusEffect` | hooks/use-orders.tsx:100-115 | in `WithStatus` (the map of `updateOrderStatus`), every matching order gets the status, completed exactly for delivered or picked_up whatever its type, and its own type's estimate; nothing else changes |
| `Orders.UpdateStatusUnknownId` | hooks/use-orders.tsx:103-115 | an id no order carries leaves the list identical |
| `Orders.UpdateStatusIdempotent` | hooks/use-orders.tsx:103-115 | applying the same id and status twice equals applying it once |
| `Orders.UpdateStatusThenLookup` | hooks/use-orders.tsx:103-120 | a lookup after an update returns the first matching order with the new status, flag and estimate |
| `Orders.LookupAfterPlace` | hooks/use-orders.tsx:93-120 | after an append, a lookup of the new id finds an earlier order with the same id if there is one, else the new order |
| `Tracking.StepFromStatus` | app/track/page.tsx:587-618 | the step lies in 1..5 for delivery and 1..4 for pickup; a status outside the flow is step 1 |
| `Tracking.StatusFromStep` | app/track/page.tsx:621-652 | the status belongs to the type's flow; a step out of range is confirmed |
| `Tracking.StepRoundTrip` | app/track/page.tsx:587-652 | for every in-range step, step → status → step returns the step |
| `Tracking.StatusRoundTrip` | app/track/page.tsx:587-652 | for every status of the flow, status → step → status returns the status |
| `Tracking.TerminalAtLastStep` | app/track/page.tsx:632-647 | the last step is delivered / picked_up, and a step's status completes an order exactly at the last step |
| `Tracking.EstimateFollowsStep` | hooks/use-orders.tsx:146-177 | the estimate of any status equals the estimate of the status at its step, so unknown statuses read as step 1 |
| `Tracking.CurrentStep` | app/track/page.tsx:74 | an unrecorded or zero step reads as 1; any other recorded step is used as is |
| `Tracking.SimulatorTick` | app/track/page.tsx:71-104 | nothing happens unless simulated, found, not completed and below the last step; else the next step is current + 1 ≤ last, its status is sent, and simulation stops exactly at the last (terminal) step |
| `Tracking.SimulationCompletes` | app/track/page.tsx:71-104 | `Simulate`, which repeats the advance rule until it stops, leaves an uncompleted order completed at its terminal status and estimate when started from any step before the last |
| `Tracking.ActiveOrders` | app/track/page.tsx:32 | every order in the active tab is not completed |
| `Tracking.CompletedOrders` | app/track/page.tsx:33 | every order in the completed tab is completed |
| `Tracking.TabsPartition` | app/track/page.tsx:32-33 | the two tabs together hold every order exactly as often as the list does |
| `Tracking.TabsKeepOrder` | app/track/page.tsx:32-33 | each tab distributes over concatenation, so it keeps the list's order |
| `Tracking.TabsKeepOwnKind` | app/track/page.tsx:32-33 | a list of only active (only completed) orders is its own active (completed) tab |
| `Orders.StatusNameInjective` | hooks/use-orders.tsx:7-9 | when an `Unknown` status holds none of the seven status strings (`ValidStatus`), a stored string is one of the seven exactly for the seven named statuses, and no two status values share a string |
| `Tracking.StatusLabelsDistinct` | app/track/page.tsx:565-584 | `StatusLabel` (`getStatusLabel`) gives the seven statuses seven different labels, none of them the fallback "Processing", which is what every `Unknown` status gets |
| `Checkout.SummaryEstimate` | app/checkout/page.tsx:354 | the summary's estimate is the table's confirmed-status estimate for the type |
| `Checkout.BuildDraft` | app/checkout/page.tsx:76-99 | items and total are the cart's; the estimate matches the summary; the address is present exactly for delivery and pickup info exactly for pickup, with the kitchen address and the default instructions for an empty field |
| `Checkout.DigitsOnly` | app/checkout/page.tsx:219 | the output has only the characters 0-9 and keeps every digit of the input as often as it occurred |
| `Checkout.DigitsOnlyKeepsOrder` | app/checkout/page.tsx:219 | the filter distributes over concatenation, so digits keep their order |
| `Checkout.DigitsOnlyOnDigits` | app/checkout/page.tsx:219 | a string of digits passes unchanged |
| `Checkout.DigitsOnlyIdempotent` | app/checkout/page.tsx:219 | filtering twice equals filtering once |
| `Checkout.Submit` | app/checkout/page.tsx:101-104 | with the form shown (hydrated, non-empty cart), the order is placed from the cart before the cart is cleared: one more order, empty cart |

## Left out

- Browser storage and JSON: reading and writing `localStorage`, `JSON.parse` and `JSON.stringify`. Hydration takes the load result as a parameter. Snapshot gives the list that would be written. A parsed value that is not a list of well-formed items is not modelled.
- `Math.random()` and `new Date().toISOString()`: both are parameters of `PlaceOrder`.
- Orders.OrderNumber: computed in exact real arithmetic, not IEEE doubles. For some draws anywhere in [0, 1), double rounding makes the id one larger than the exact value. The range [100000, 999999] and the six-digit property hold either way.
- Cart.CartStore.AddItem: the code shallow-copies the list and then mutates the matched line object in place. That object is shared with the previous state. The model replaces the line by value, so it does not capture this aliasing.
- Tracking.SimulatorTick: the 10-second timer, its cleanup and the toasts are left out. The page re-derives `orderSteps` from every order's status whenever the orders change. The model takes the recorded step as an argument instead.
- Tracking.Simulate: it runs the rule for one order until the rule stops. The interleaving of several simulated orders is not modelled.
- The router push and toasts after checkout, and the `try`/`catch` around it. Nothing in the modelled submit throws.
- Progress percentages, `toFixed(2)` price formatting and locale time formatting: these are floating-point display.
- Rendering, navigation, and the badge colours of the tracking page.
- The other pages and components: the item page that builds cart lines, the menu filter, the cart page, the header, the footer, the layout and the build configuration.
