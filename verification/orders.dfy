/** The order store of hooks/use-orders.tsx: placing orders, rewriting their
    status, looking them up, and the estimated-time table. */
module Orders {
  import opened Wrappers
  import opened Cart

  /** The seven statuses of the two fulfilment flows. `Unknown` stands for a
      status string read back from storage that is none of the seven: the
      load does not validate what it parses. */
  datatype OrderStatus =
    | Confirmed
    | Preparing
    | Ready
    | Delivering
    | Delivered
    | ReadyForPickup
    | PickedUp
    | Unknown(raw: string)

  /** The string a status is stored as. */
  function StatusName(status: OrderStatus): string
  {
    match status
    case Confirmed => "confirmed"
    case Preparing => "preparing"
    case Ready => "ready"
    case Delivering => "delivering"
    case Delivered => "delivered"
    case ReadyForPickup => "ready_for_pickup"
    case PickedUp => "picked_up"
    case Unknown(raw) => raw
  }

  const StatusNames: set<string> :=
    {"confirmed", "preparing", "ready", "delivering", "delivered", "ready_for_pickup", "picked_up"}

  /** An `Unknown` status holds a string that is none of the seven. */
  predicate ValidStatus(status: OrderStatus)
  {
    status.Unknown? ==> status.raw !in StatusNames
  }

  /** Under `ValidStatus` every status value has its own stored string, and
      only the seven named statuses use the seven names. */
  lemma StatusNameInjective(a: OrderStatus, b: OrderStatus)
    requires ValidStatus(a) && ValidStatus(b)
    ensures StatusName(a) in StatusNames <==> !a.Unknown?
    ensures StatusName(a) == StatusName(b) ==> a == b
  {
  }

  /** The code tests `type === "delivery"` and treats every other type as pickup. */
  datatype OrderType = Delivery | Pickup

  datatype Address = Address(street: string, apartment: Option<string>, city: string, zipCode: string)

  datatype CustomerInfo = CustomerInfo(name: string, phone: string, address: Option<Address>)

  datatype PickupInfo = PickupInfo(location: string, instructions: string)

  datatype Order = Order(
    id: string,
    items: seq<CartItem>,
    totalAmount: int,
    status: OrderStatus,
    orderType: OrderType,
    estimatedTime: string,
    placedAt: string,
    completed: bool,
    customerInfo: CustomerInfo,
    pickupInfo: Option<PickupInfo>)

  /** What `placeOrder` is given: an order without id, status, timestamp and
      completion flag. */
  datatype OrderDraft = OrderDraft(
    items: seq<CartItem>,
    totalAmount: int,
    orderType: OrderType,
    estimatedTime: string,
    customerInfo: CustomerInfo,
    pickupInfo: Option<PickupInfo>)

  /** The draft fields of an order. */
  function DraftOf(o: Order): OrderDraft
  {
    OrderDraft(o.items, o.totalAmount, o.orderType, o.estimatedTime, o.customerInfo, o.pickupInfo)
  }

  // ----- order numbers -----

  /** `Math.floor(100000 + draw * 900000)` for a draw of `Math.random()`,
      in exact arithmetic. */
  function OrderNumber(draw: real): (n: int)
    requires 0.0 <= draw < 1.0
    ensures 100000 <= n <= 999999
  {
    (100000.0 + draw * 900000.0).Floor
  }

  /** Every six-digit number can be drawn. */
  lemma OrderNumberCoversRange(n: int)
    requires 100000 <= n <= 999999
    ensures var draw := (n - 100000) as real / 900000.0;
            0.0 <= draw < 1.0 && OrderNumber(draw) == n
  {
    var draw := (n - 100000) as real / 900000.0;
    assert draw * 900000.0 == (n - 100000) as real;
    assert 100000.0 + draw * 900000.0 == n as real;
  }

  function DigitChar(d: int): (c: char)
    requires 0 <= d < 10
    ensures '0' <= c <= '9'
  {
    "0123456789"[d]
  }

  function DigitValue(c: char): int
  {
    c as int - '0' as int
  }

  predicate IsDigit(c: char)
  {
    '0' <= c <= '9'
  }

  function Pow10(k: nat): (p: nat)
    ensures p >= 1
  {
    if k == 0 then 1 else 10 * Pow10(k - 1)
  }

  /** `n.toString()` for a natural number: its decimal digits, most
      significant first, with no leading zero. */
  function DecimalString(n: nat): (s: string)
    ensures |s| >= 1
    ensures forall k :: 0 <= k < |s| ==> IsDigit(s[k])
    ensures n >= 10 ==> s[0] != '0'
  {
    if n < 10 then [DigitChar(n)] else DecimalString(n / 10) + [DigitChar(n % 10)]
  }

  /** The number a string of decimal digits denotes. */
  function DecimalValue(s: string): int
  {
    if s == [] then 0 else 10 * DecimalValue(s[..|s| - 1]) + DigitValue(s[|s| - 1])
  }

  lemma {:induction false} DecimalRoundTrip(n: nat)
    ensures DecimalValue(DecimalString(n)) == n
  {
    var s := DecimalString(n);
    if n >= 10 {
      DecimalRoundTrip(n / 10);
      assert s[..|s| - 1] == DecimalString(n / 10);
    }
  }

  /** A number with exactly `k` decimal digits prints as `k` characters. */
  lemma {:induction false} DecimalLength(n: nat, k: nat)
    requires k >= 1 && Pow10(k - 1) <= n < Pow10(k)
    ensures |DecimalString(n)| == k
  {
    if n >= 10 {
      assert k >= 2;
      DecimalLength(n / 10, k - 1);
    }
  }

  /** `placeOrder`'s id is always a six-digit numeric string that denotes
      the number drawn. */
  lemma OrderIdIsSixDigits(draw: real)
    requires 0.0 <= draw < 1.0
    ensures |DecimalString(OrderNumber(draw))| == 6
    ensures forall k :: 0 <= k < 6 ==> IsDigit(DecimalString(OrderNumber(draw))[k])
    ensures DecimalValue(DecimalString(OrderNumber(draw))) == OrderNumber(draw)
  {
    var n := OrderNumber(draw);
    assert Pow10(5) == 100000 && Pow10(6) == 1000000;
    DecimalLength(n, 6);
    DecimalRoundTrip(n);
  }

  // ----- placing and updating -----

  /** The order `placeOrder` appends: the draft's fields, the given id and
      timestamp, status confirmed, not completed. */
  function NewOrder(draft: OrderDraft, id: string, placedAt: string): (o: Order)
    ensures DraftOf(o) == draft
    ensures o.id == id && o.placedAt == placedAt
    ensures o.status == Confirmed && !o.completed
  {
    Order(id, draft.items, draft.totalAmount, Confirmed, draft.orderType, draft.estimatedTime,
          placedAt, false, draft.customerInfo, draft.pickupInfo)
  }

  /** Only the two terminal statuses mark an order completed, whatever its type. */
  predicate IsCompletedStatus(status: OrderStatus)
  {
    status == Delivered || status == PickedUp
  }

  /** The estimated-time table, with the first row of each flow as fallback. */
  function EstimatedTime(status: OrderStatus, t: OrderType): string
  {
    match t
    case Delivery =>
      (match status
       case Confirmed => "35-45 minutes"
       case Preparing => "25-35 minutes"
       case Ready => "15-20 minutes"
       case Delivering => "5-10 minutes"
       case Delivered => "Delivered"
       case _ => "35-45 minutes")
    case Pickup =>
      (match status
       case Confirmed => "20-30 minutes"
       case Preparing => "10-20 minutes"
       case ReadyForPickup => "Ready for pickup"
       case PickedUp => "Picked up"
       case _ => "20-30 minutes")
  }

  /** A status outside a type's flow gets that type's initial estimate. */
  lemma EstimatedTimeFallback(status: OrderStatus, t: OrderType)
    requires t == Delivery ==> status !in {Confirmed, Preparing, Ready, Delivering, Delivered}
    requires t == Pickup ==> status !in {Confirmed, Preparing, ReadyForPickup, PickedUp}
    ensures EstimatedTime(status, t) == EstimatedTime(Confirmed, t)
    ensures EstimatedTime(status, t) == (if t == Delivery then "35-45 minutes" else "20-30 minutes")
  {
  }

  /** One order after `updateOrderStatus` matched it. */
  function WithNewStatus(o: Order, status: OrderStatus): Order
  {
    o.(status := status, completed := IsCompletedStatus(status),
       estimatedTime := EstimatedTime(status, o.orderType))
  }

  /** The list `updateOrderStatus(id, status)` leaves. */
  function WithStatus(s: seq<Order>, id: string, status: OrderStatus): (r: seq<Order>)
  {
    seq(|s|, k requires 0 <= k < |s| => if s[k].id == id then WithNewStatus(s[k], status) else s[k])
  }

  /** `getOrderById`: the first order with the id, if any. */
  function GetOrderById(s: seq<Order>, id: string): (r: Option<Order>)
    ensures r.Some? ==> r.value in s && r.value.id == id
    ensures r.Some? ==> exists k :: 0 <= k < |s| && s[k] == r.value &&
                                    forall j :: 0 <= j < k ==> s[j].id != id
    ensures r.None? <==> forall k :: 0 <= k < |s| ==> s[k].id != id
  {
    if s == [] then None
    else if s[0].id == id then Some(s[0])
    else
      var r := GetOrderById(s[1..], id);
      assert r.Some? ==> exists k :: 0 <= k < |s| && s[k] == r.value &&
                                     forall j :: 0 <= j < k ==> s[j].id != id by {
        if r.Some? {
          var k :| 0 <= k < |s[1..]| && s[1..][k] == r.value &&
                   forall j :: 0 <= j < k ==> s[1..][j].id != id;
          assert s[k + 1] == r.value;
          assert forall j :: 0 <= j < k + 1 ==> s[j].id != id by {
            forall j | 0 <= j < k + 1 ensures s[j].id != id {
              if j > 0 { assert s[j] == s[1..][j - 1]; }
            }
          }
        }
      }
      r
  }

  class OrderStore {
    var orders: seq<Order>
    var isHydrated: bool

    constructor ()
      ensures orders == [] && !isHydrated
    {
      orders := [];
      isHydrated := false;
    }

    /** The mount-time load, as for the cart. */
    method Hydrate(saved: Saved<seq<Order>>)
      modifies this
      ensures isHydrated
      ensures orders == if saved.Parsed? then saved.value else old(orders)
    {
      if saved.Parsed? {
        orders := saved.value;
      }
      isHydrated := true;
    }

    /** The list written back to storage: nothing before hydration. */
    function Snapshot(): (r: Option<seq<Order>>)
      reads this
      ensures r.Some? <==> isHydrated
      ensures r.Some? ==> r.value == orders
    {
      if isHydrated then Some(orders) else None
    }

    /** Appends a confirmed, uncompleted order built from the draft, with an
        id drawn from `draw` (the value of `Math.random()`) and stamped
        `placedAt`; no check against existing ids. */
    method PlaceOrder(draft: OrderDraft, draw: real, placedAt: string) returns (orderId: string)
      requires 0.0 <= draw < 1.0
      modifies this
      ensures orderId == DecimalString(OrderNumber(draw)) && |orderId| == 6
      ensures |orders| == |old(orders)| + 1 && orders[..|old(orders)|] == old(orders)
      ensures orders[|old(orders)|] == NewOrder(draft, orderId, placedAt)
      ensures isHydrated == old(isHydrated)
    {
      OrderIdIsSixDigits(draw);
      orderId := DecimalString(OrderNumber(draw));
      orders := orders + [NewOrder(draft, orderId, placedAt)];
    }

    method UpdateOrderStatus(orderId: string, status: OrderStatus)
      modifies this
      ensures orders == WithStatus(old(orders), orderId, status)
      ensures isHydrated == old(isHydrated)
    {
      orders := WithStatus(orders, orderId, status);
    }
  }

  /** Every matching order gets the status, the matching completion flag and
      the estimate for its own type; every other order, the length and the
      order of the list stay as they were. */
  lemma UpdateStatusEffect(s: seq<Order>, id: string, status: OrderStatus)
    ensures |WithStatus(s, id, status)| == |s|
    ensures forall k :: 0 <= k < |s| && s[k].id == id ==>
      var o := WithStatus(s, id, status)[k];
      && o.status == status
      && (o.completed <==> status == Delivered || status == PickedUp)
      && o.estimatedTime == EstimatedTime(status, s[k].orderType)
      && o.(status := s[k].status, completed := s[k].completed, estimatedTime := s[k].estimatedTime) == s[k]
    ensures forall k :: 0 <= k < |s| && s[k].id != id ==> WithStatus(s, id, status)[k] == s[k]
  {
  }

  /** An id that no order carries leaves the list identical. */
  lemma UpdateStatusUnknownId(s: seq<Order>, id: string, status: OrderStatus)
    requires GetOrderById(s, id).None?
    ensures WithStatus(s, id, status) == s
  {
  }

  lemma UpdateStatusIdempotent(s: seq<Order>, id: string, status: OrderStatus)
    ensures WithStatus(WithStatus(s, id, status), id, status) == WithStatus(s, id, status)
  {
  }

  /** A lookup after an update sees the new status. */
  lemma {:induction false} UpdateStatusThenLookup(s: seq<Order>, id: string, status: OrderStatus)
    requires GetOrderById(s, id).Some?
    ensures GetOrderById(WithStatus(s, id, status), id) == Some(WithNewStatus(GetOrderById(s, id).value, status))
  {
    var r := WithStatus(s, id, status);
    if s[0].id != id {
      assert r[1..] == WithStatus(s[1..], id, status);
      UpdateStatusThenLookup(s[1..], id, status);
    }
  }

  /** Ids are not checked for collisions: after an order is appended, a
      lookup of its id finds it only if no earlier order carries that id. */
  lemma {:induction false} LookupAfterPlace(s: seq<Order>, o: Order)
    ensures GetOrderById(s + [o], o.id)
         == if GetOrderById(s, o.id).Some? then GetOrderById(s, o.id) else Some(o)
  {
    if s != [] {
      assert (s + [o])[1..] == s[1..] + [o];
      LookupAfterPlace(s[1..], o);
    }
  }
}
