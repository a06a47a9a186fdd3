/** The checkout page of app/checkout/page.tsx: the order draft built from
    the form, the phone-field digit filter, the summary's estimate and the
    submit sequence. */
module Checkout {
  import opened Wrappers
  import opened Cart
  import opened Orders

  /** The values of the form's inputs when it is submitted. The address
      inputs are on the page only for delivery and the pickup-instructions
      input only for pickup; the draft reads only the inputs that are there. */
  datatype CheckoutForm = CheckoutForm(
    name: string,
    phone: string,
    street: string,
    apartment: string,
    city: string,
    zipCode: string,
    pickupInstructions: string)

  const KitchenLocation := "123 Kitchen Street, Cairo, Egypt"
  const CounterInstructions := "Please ask for your order at the counter"

  /** The estimate the order summary shows for the chosen type. */
  function SummaryEstimate(t: OrderType): (e: string)
    ensures e == EstimatedTime(Confirmed, t)
  {
    if t == Delivery then "35-45 minutes" else "20-30 minutes"
  }

  /** The draft `handleSubmit` hands to `placeOrder`. */
  function BuildDraft(t: OrderType, form: CheckoutForm, items: seq<CartItem>, totalAmount: int): (d: OrderDraft)
    ensures d.items == items && d.totalAmount == totalAmount && d.orderType == t
    ensures d.estimatedTime == SummaryEstimate(t) == EstimatedTime(Confirmed, t)
    ensures d.customerInfo.name == form.name && d.customerInfo.phone == form.phone
    ensures d.customerInfo.address.Some? <==> t == Delivery
    ensures d.pickupInfo.Some? <==> t == Pickup
    ensures d.customerInfo.address.Some? ==>
      var a := d.customerInfo.address.value;
      a == Address(form.street, Some(form.apartment), form.city, form.zipCode)
    ensures d.pickupInfo.Some? ==>
      && d.pickupInfo.value.location == KitchenLocation
      && (form.pickupInstructions != "" ==> d.pickupInfo.value.instructions == form.pickupInstructions)
      && (form.pickupInstructions == "" ==> d.pickupInfo.value.instructions == CounterInstructions)
  {
    var estimatedTime := if t == Delivery then "35-45 minutes" else "20-30 minutes";
    var address :=
      if t == Delivery
      then Some(Address(form.street, Some(form.apartment), form.city, form.zipCode))
      else None;
    var pickup :=
      if t == Pickup
      then
        var given := form.pickupInstructions;
        Some(PickupInfo(KitchenLocation, if given != "" then given else CounterInstructions))
      else None;
    OrderDraft(items, totalAmount, t, estimatedTime, CustomerInfo(form.name, form.phone, address), pickup)
  }

  // ----- the phone field -----

  /** `value.replace(/[^0-9]/g, "")`: every character other than 0-9 removed. */
  function DigitsOnly(s: string): (r: string)
    ensures |r| <= |s|
    ensures forall k :: 0 <= k < |r| ==> IsDigit(r[k])
    ensures forall c :: IsDigit(c) ==> multiset(r)[c] == multiset(s)[c]
  {
    if s == [] then []
    else
      assert s == [s[0]] + s[1..];
      if IsDigit(s[0]) then [s[0]] + DigitsOnly(s[1..]) else DigitsOnly(s[1..])
  }

  /** The filter distributes over concatenation: the kept digits stay in
      their original order. */
  lemma {:induction false} DigitsOnlyKeepsOrder(a: string, b: string)
    ensures DigitsOnly(a + b) == DigitsOnly(a) + DigitsOnly(b)
  {
    if a == [] {
      assert a + b == b;
    } else {
      assert (a + b)[1..] == a[1..] + b;
      DigitsOnlyKeepsOrder(a[1..], b);
    }
  }

  /** A string of digits passes unchanged. */
  lemma {:induction false} DigitsOnlyOnDigits(s: string)
    requires forall k :: 0 <= k < |s| ==> IsDigit(s[k])
    ensures DigitsOnly(s) == s
  {
    if s != [] {
      DigitsOnlyOnDigits(s[1..]);
    }
  }

  lemma DigitsOnlyIdempotent(s: string)
    ensures DigitsOnly(DigitsOnly(s)) == DigitsOnly(s)
  {
    DigitsOnlyOnDigits(DigitsOnly(s));
  }

  // ----- submitting -----

  /** The page shows the form only once the cart is hydrated and non-empty;
      a submit then places the order and afterwards empties the cart.
      Returns the new order's id, or `None` when there is no form. */
  method Submit(cart: CartStore, store: OrderStore, t: OrderType, form: CheckoutForm,
                draw: real, placedAt: string) returns (placed: Option<string>)
    requires 0.0 <= draw < 1.0
    modifies cart, store
    ensures placed.None? <==> !old(cart.isHydrated) || old(cart.items) == []
    ensures placed.None? ==> cart.items == old(cart.items) && store.orders == old(store.orders)
    ensures placed.Some? ==>
      && |placed.value| == 6
      && cart.items == []
      && store.orders == old(store.orders)
           + [NewOrder(BuildDraft(t, form, old(cart.items), TotalAmount(old(cart.items))),
                       placed.value, placedAt)]
    ensures cart.isHydrated == old(cart.isHydrated) && store.isHydrated == old(store.isHydrated)
  {
    if !cart.isHydrated || cart.items == [] {
      return None;
    }
    var draft := BuildDraft(t, form, cart.items, TotalAmount(cart.items));
    var orderId := store.PlaceOrder(draft, draw, placedAt);
    cart.ClearCart();
    placed := Some(orderId);
  }
}
