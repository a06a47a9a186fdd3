/** The cart store of hooks/use-cart.tsx: a list of line items, the
    operations that replace it, and the two totals folded over it. */
module Cart {
  import opened Wrappers
  import opened Menu

  /** The `customizations` member of a line. The item page passes `null` for
      a non-customizable item and an object otherwise; a line built
      elsewhere may leave the member out altogether. `JSON.stringify` tells
      the three apart, and with the one fixed key order the item page uses
      it compares two objects member by member and each add-on list in
      order, which is what datatype equality does here. */
  datatype Customization =
    | Unset
    | Null
    | Set(addOns: Option<seq<AddOn>>, specialInstructions: Option<string>)

  datatype CartItem = CartItem(
    id: string,
    name: string,
    price: int,
    image: string,
    quantity: int,
    totalPrice: int,
    customizations: Customization)

  /** Two lines are merged by `addItem` when they agree on the id and their
      customizations serialize to the same JSON text. */
  predicate SameLine(a: CartItem, b: CartItem)
  {
    a.id == b.id && a.customizations == b.customizations
  }

  /** Index of the first line `addItem` would merge `x` into, if any. */
  function FindLine(s: seq<CartItem>, x: CartItem): (r: Option<nat>)
    ensures r.Some? ==> r.value < |s| && SameLine(s[r.value], x)
    ensures r.Some? ==> forall k :: 0 <= k < r.value ==> !SameLine(s[k], x)
    ensures r.None? <==> forall k :: 0 <= k < |s| ==> !SameLine(s[k], x)
  {
    if s == [] then None
    else if SameLine(s[0], x) then Some(0)
    else match FindLine(s[1..], x)
      case None => None
      case Some(i) => Some(i + 1)
  }

  /** A line whose quantity grew by `extra`; the total is recomputed from the
      unit price alone, so the prices of its add-ons are dropped. */
  function Merged(line: CartItem, extra: int): CartItem
  {
    var q := line.quantity + extra;
    line.(quantity := q, totalPrice := line.price * q)
  }

  /** The list `addItem(x)` leaves behind. */
  function AddedTo(s: seq<CartItem>, x: CartItem): seq<CartItem>
  {
    match FindLine(s, x)
    case None => s + [x]
    case Some(i) => s[i := Merged(s[i], x.quantity)]
  }

  /** The lines `removeItem(id)` keeps, in their original order. */
  function WithoutId(s: seq<CartItem>, id: string): (r: seq<CartItem>)
    ensures |r| <= |s|
    ensures forall k :: 0 <= k < |r| ==> r[k].id != id
    ensures forall x :: x in r <==> x in s && x.id != id
  {
    if s == [] then []
    else if s[0].id == id then WithoutId(s[1..], id)
    else [s[0]] + WithoutId(s[1..], id)
  }

  /** The lines `updateQuantity(id, q)` leaves for a positive `q`: every line
      with that id gets quantity `q` and total `price * q`. */
  function WithQuantity(s: seq<CartItem>, id: string, q: int): (r: seq<CartItem>)
  {
    seq(|s|, k requires 0 <= k < |s| =>
      if s[k].id == id then s[k].(quantity := q, totalPrice := s[k].price * q) else s[k])
  }

  /** `totalAmount`: the left fold of the line totals, starting at 0. */
  function TotalAmount(s: seq<CartItem>): int
  {
    if s == [] then 0 else TotalAmount(s[..|s| - 1]) + s[|s| - 1].totalPrice
  }

  /** `totalItems`: the left fold of the quantities, starting at 0. */
  function TotalItems(s: seq<CartItem>): int
  {
    if s == [] then 0 else TotalItems(s[..|s| - 1]) + s[|s| - 1].quantity
  }

  /** Sum of the add-on prices a line carries. */
  function AddOnPrices(c: Customization): int
  {
    if c.Set? && c.addOns.Some? then AddOnSum(c.addOns.value) else 0
  }

  function AddOnSum(a: seq<AddOn>): int
  {
    if a == [] then 0 else a[0].price + AddOnSum(a[1..])
  }

  class CartStore {
    var items: seq<CartItem>
    var isHydrated: bool

    /** The provider mounts with an empty list and has not loaded yet. */
    constructor ()
      ensures items == [] && !isHydrated
    {
      items := [];
      isHydrated := false;
    }

    /** The mount-time load: a parsed list replaces the items, a missing key
        or unreadable text leaves them; either way the store is hydrated. */
    method Hydrate(saved: Saved<seq<CartItem>>)
      modifies this
      ensures isHydrated
      ensures items == if saved.Parsed? then saved.value else old(items)
    {
      if saved.Parsed? {
        items := saved.value;
      }
      isHydrated := true;
    }

    /** The list written back to storage after a change: nothing before
        hydration, the current items after. */
    function Snapshot(): (r: Option<seq<CartItem>>)
      reads this
      ensures r.Some? <==> isHydrated
      ensures r.Some? ==> r.value == items
    {
      if isHydrated then Some(items) else None
    }

    method AddItem(newItem: CartItem)
      modifies this
      ensures items == AddedTo(old(items), newItem)
      ensures isHydrated == old(isHydrated)
    {
      var i := 0;
      while i < |items| && !SameLine(items[i], newItem)
        invariant 0 <= i <= |items|
        invariant forall k :: 0 <= k < i ==> !SameLine(items[k], newItem)
      {
        i := i + 1;
      }
      if i < |items| {
        items := items[i := Merged(items[i], newItem.quantity)];
      } else {
        items := items + [newItem];
      }
    }

    method RemoveItem(id: string)
      modifies this
      ensures items == WithoutId(old(items), id)
      ensures isHydrated == old(isHydrated)
    {
      items := WithoutId(items, id);
    }

    method UpdateQuantity(id: string, quantity: int)
      modifies this
      ensures quantity <= 0 ==> items == WithoutId(old(items), id)
      ensures quantity > 0 ==> items == WithQuantity(old(items), id, quantity)
      ensures isHydrated == old(isHydrated)
    {
      if quantity <= 0 {
        RemoveItem(id);
        return;
      }
      items := WithQuantity(items, id, quantity);
    }

    method ClearCart()
      modifies this
      ensures items == [] && TotalAmount(items) == 0 && TotalItems(items) == 0
      ensures isHydrated == old(isHydrated)
    {
      items := [];
    }
  }

  // ----- addItem -----

  /** With no matching line, the new item is appended and earlier lines stay. */
  lemma AddItemAppends(s: seq<CartItem>, x: CartItem)
    requires forall k :: 0 <= k < |s| ==> !SameLine(s[k], x)
    ensures |AddedTo(s, x)| == |s| + 1
    ensures AddedTo(s, x)[..|s|] == s && AddedTo(s, x)[|s|] == x
  {
    assert FindLine(s, x).None?;
  }

  /** With a matching line, only the first match changes: its quantity grows
      by the new quantity and its total is its own unit price times that. */
  lemma AddItemMerges(s: seq<CartItem>, x: CartItem, i: nat)
    requires i < |s| && SameLine(s[i], x)
    requires forall k :: 0 <= k < i ==> !SameLine(s[k], x)
    ensures |AddedTo(s, x)| == |s|
    ensures AddedTo(s, x)[i].quantity == s[i].quantity + x.quantity
    ensures AddedTo(s, x)[i].totalPrice == s[i].price * (s[i].quantity + x.quantity)
    ensures AddedTo(s, x)[i] == s[i].(quantity := s[i].quantity + x.quantity,
                                      totalPrice := s[i].price * (s[i].quantity + x.quantity))
    ensures forall k :: 0 <= k < |s| && k != i ==> AddedTo(s, x)[k] == s[k]
  {
    assert FindLine(s, x) == Some(i);
  }

  /** In both branches `totalItems` grows by exactly the added quantity. */
  lemma AddItemTotalItems(s: seq<CartItem>, x: CartItem)
    ensures TotalItems(AddedTo(s, x)) == TotalItems(s) + x.quantity
  {
    match FindLine(s, x)
    case None =>
      assert (s + [x])[..|s|] == s;
    case Some(i) =>
      TotalItemsUpdate(s, i, Merged(s[i], x.quantity));
  }

  /** After a merge the line total omits its add-ons: when they cost
      something and the quantity is positive, the total is less than
      (unit price + add-ons) times the quantity. */
  lemma MergeDropsAddOnPrices(s: seq<CartItem>, x: CartItem, i: nat)
    requires i < |s| && SameLine(s[i], x)
    requires forall k :: 0 <= k < i ==> !SameLine(s[k], x)
    requires AddOnPrices(s[i].customizations) > 0 && s[i].quantity + x.quantity > 0
    ensures AddedTo(s, x)[i].totalPrice
         < (s[i].price + AddOnPrices(s[i].customizations)) * AddedTo(s, x)[i].quantity
  {
    AddItemMerges(s, x, i);
    var q := s[i].quantity + x.quantity;
    var a := AddOnPrices(s[i].customizations);
    assert (s[i].price + a) * q == s[i].price * q + a * q;
    assert a * q > 0;
  }

  // ----- removeItem -----

  /** Removing distributes over concatenation, which together with
      `RemoveUntouched` says the survivors keep their relative order. */
  lemma {:induction false} RemoveDistributes(a: seq<CartItem>, b: seq<CartItem>, id: string)
    ensures WithoutId(a + b, id) == WithoutId(a, id) + WithoutId(b, id)
  {
    if a == [] {
      assert a + b == b;
    } else {
      assert (a + b)[1..] == a[1..] + b;
      RemoveDistributes(a[1..], b, id);
    }
  }

  /** A list holding no line with the id is left as it is. */
  lemma {:induction false} RemoveUntouched(s: seq<CartItem>, id: string)
    requires forall k :: 0 <= k < |s| ==> s[k].id != id
    ensures WithoutId(s, id) == s
  {
    if s != [] {
      RemoveUntouched(s[1..], id);
    }
  }

  /** Every line with another id survives as many times as it occurred. */
  lemma {:induction false} RemoveKeepsOthers(s: seq<CartItem>, id: string, x: CartItem)
    requires x.id != id
    ensures multiset(WithoutId(s, id))[x] == multiset(s)[x]
  {
    if s != [] {
      assert s == [s[0]] + s[1..];
      RemoveKeepsOthers(s[1..], id, x);
    }
  }

  // ----- updateQuantity -----

  /** A positive update touches exactly the lines with the id and keeps the length. */
  lemma UpdateQuantityEffect(s: seq<CartItem>, id: string, q: int)
    requires q > 0
    ensures |WithQuantity(s, id, q)| == |s|
    ensures forall k :: 0 <= k < |s| && s[k].id == id ==>
      WithQuantity(s, id, q)[k] == s[k].(quantity := q, totalPrice := s[k].price * q)
    ensures forall k :: 0 <= k < |s| && s[k].id != id ==> WithQuantity(s, id, q)[k] == s[k]
  {
  }

  /** Updating twice with the same arguments is the same as updating once. */
  lemma UpdateQuantityIdempotent(s: seq<CartItem>, id: string, q: int)
    ensures WithQuantity(WithQuantity(s, id, q), id, q) == WithQuantity(s, id, q)
  {
  }

  // ----- totals -----

  lemma {:induction false} TotalsAppend(s: seq<CartItem>, t: seq<CartItem>)
    ensures TotalItems(s + t) == TotalItems(s) + TotalItems(t)
    ensures TotalAmount(s + t) == TotalAmount(s) + TotalAmount(t)
  {
    if t == [] {
      assert s + t == s;
    } else {
      var t' := t[..|t| - 1];
      assert (s + t)[..|s + t| - 1] == s + t';
      TotalsAppend(s, t');
    }
  }

  /** Replacing one line changes `totalItems` by the change in its quantity. */
  lemma TotalItemsUpdate(s: seq<CartItem>, i: nat, y: CartItem)
    requires i < |s|
    ensures TotalItems(s[i := y]) == TotalItems(s) - s[i].quantity + y.quantity
  {
    assert s == s[..i] + [s[i]] + s[i + 1..];
    assert s[i := y] == s[..i] + [y] + s[i + 1..];
    TotalsAppend(s[..i] + [s[i]], s[i + 1..]);
    TotalsAppend(s[..i] + [y], s[i + 1..]);
    TotalsAppend(s[..i], [s[i]]);
    TotalsAppend(s[..i], [y]);
  }

  /** The totals fold every line exactly once. */
  lemma {:induction false} TotalsOfLines(s: seq<CartItem>)
    requires forall k :: 0 <= k < |s| ==> s[k].quantity >= 0 && s[k].totalPrice >= 0
    ensures TotalItems(s) >= 0 && TotalAmount(s) >= 0
    ensures forall k :: 0 <= k < |s| ==> s[k].quantity <= TotalItems(s) && s[k].totalPrice <= TotalAmount(s)
  {
    if s != [] {
      TotalsOfLines(s[..|s| - 1]);
    }
  }
}
