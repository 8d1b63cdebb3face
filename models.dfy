/**
 * The canteen's relational schema: categories, menu items, orders, order line items and
 * payments, with their field defaults, the line-item subtotal and the order total, and the
 * store (`Db`) that the views create rows in. Money is integer cents (the source's
 * two-place decimal fields).
 */
module Models {
  import opened Wrappers

  // ---------------------------------------------------------------------------------------
  // Order status: the four choices of the status field, stored as their lower-case codes.
  // ---------------------------------------------------------------------------------------

  datatype Status = Pending | Preparing | Delivered | Cancelled

  /** The value stored in the status column for each choice. */
  function StatusCode(s: Status): string {
    match s
    case Pending => "pending"
    case Preparing => "preparing"
    case Delivered => "delivered"
    case Cancelled => "cancelled"
  }

  /** The choice a stored code stands for; any other string is not one of the choices. */
  function StatusFromCode(code: string): Option<Status> {
    if code == "pending" then Some(Pending)
    else if code == "preparing" then Some(Preparing)
    else if code == "delivered" then Some(Delivered)
    else if code == "cancelled" then Some(Cancelled)
    else None
  }

  /** The four codes and the four statuses are in one-to-one correspondence. */
  lemma StatusCodeRoundTrip(s: Status, code: string)
    ensures StatusFromCode(StatusCode(s)) == Some(s)
    ensures StatusFromCode(code) == Some(s) <==> code == StatusCode(s)
  {
  }

  // ---------------------------------------------------------------------------------------
  // Categories and menu items.
  // ---------------------------------------------------------------------------------------

  datatype Category = Category(name: string)

  /** The unique constraint on the category name. */
  ghost predicate DistinctNames(cats: seq<Category>) {
    forall i, j :: 0 <= i < j < |cats| ==> cats[i].name != cats[j].name
  }

  predicate NameTaken(cats: seq<Category>, name: string) {
    exists i :: 0 <= i < |cats| && cats[i].name == name
  }

  /**
   * A menu item. `category` is the id of its category (null once that category is deleted),
   * `price` is in cents and `image` is the name of the stored file, if any.
   */
  datatype Item = Item(
    category: Option<nat>,
    name: string,
    description: string,
    price: int,
    available: bool,
    image: Option<string>)

  const Placeholder: string := "/static/img/placeholder.png"

  /**
   * The image URL of an item: the storage URL of its file, or the placeholder when there is
   * no file (an empty or null image field makes the file's `url` raise). The storage's base
   * URL is a deployment setting and is passed in.
   */
  function ImageUrl(item: Item, mediaUrl: string): (url: string)
    ensures (item.image.None? || item.image.value == "") ==> url == Placeholder
    ensures item.image.Some? && item.image.value != "" ==>
              |url| == |mediaUrl| + |item.image.value| &&
              url[..|mediaUrl|] == mediaUrl && url[|mediaUrl|..] == item.image.value
  {
    match item.image
    case Some(file) => if file != "" then mediaUrl + file else Placeholder
    case None => Placeholder
  }

  // ---------------------------------------------------------------------------------------
  // Orders, line items and payments.
  // ---------------------------------------------------------------------------------------

  /** An order; `user` is the owner's id (null once that user is deleted). */
  datatype Order = Order(
    id: nat,
    user: Option<nat>,
    fullName: string,
    phone: string,
    address: string,
    status: Status,
    totalPrice: int)

  /** A freshly created order row: the status field defaults to pending, the total to 0. */
  function NewOrder(id: nat, user: Option<nat>, fullName: string, phone: string, address: string,
                    totalPrice: int := 0): (o: Order)
    ensures o.status == Pending && StatusCode(o.status) == "pending"
    ensures o.id == id && o.user == user && o.totalPrice == totalPrice
    ensures o.fullName == fullName && o.phone == phone && o.address == address
  {
    Order(id, user, fullName, phone, address, Pending, totalPrice)
  }

  /**
   * One line of an order. `item` is the menu item's id (null once the item is deleted),
   * `quantity` is a non-negative integer (the column has a `>= 0` check) and `price` is the
   * unit price copied when the line was created, never the live price of the item.
   */
  datatype OrderItem = OrderItem(order: nat, item: Option<nat>, quantity: nat, price: int)

  /** A freshly created line-item row: the quantity defaults to 1. */
  function NewOrderItem(order: nat, item: Option<nat>, price: int, quantity: nat := 1): (oi: OrderItem)
    ensures oi.order == order && oi.item == item && oi.price == price && oi.quantity == quantity
  {
    OrderItem(order, item, quantity, price)
  }

  /**
   * `get_subtotal`: quantity times the snapshot unit price. It is zero exactly when the
   * quantity or the price is, has the sign of the price, and is at least the price in
   * magnitude once the quantity is positive.
   */
  function Subtotal(oi: OrderItem): (r: int)
    ensures r == 0 <==> oi.quantity == 0 || oi.price == 0
    ensures oi.price >= 0 ==> r >= 0
    ensures oi.price <= 0 ==> r <= 0
    ensures oi.quantity > 0 && oi.price >= 0 ==> r >= oi.price
  {
    oi.quantity * oi.price
  }

  function SumSubtotals(ois: seq<OrderItem>): int
    decreases |ois|
  {
    if ois == [] then 0 else SumSubtotals(ois[..|ois| - 1]) + Subtotal(ois[|ois| - 1])
  }

  /** The line items of order `id` (`order.items.all()`), in storage order. */
  function LinesOf(lines: seq<OrderItem>, id: nat): (r: seq<OrderItem>)
    ensures |r| <= |lines|
    ensures forall k :: 0 <= k < |r| ==> r[k].order == id && r[k] in lines
    decreases |lines|
  {
    if lines == [] then []
    else
      var rest := LinesOf(lines[..|lines| - 1], id);
      if lines[|lines| - 1].order == id then rest + [lines[|lines| - 1]] else rest
  }

  /** Every line item refers to an item of the catalogue or to none (the foreign key holds). */
  predicate Resolves(lines: seq<OrderItem>, catalogue: map<nat, Item>) {
    forall k :: 0 <= k < |lines| ==> lines[k].item.Some? ==> lines[k].item.value in catalogue
  }

  /** The total `calculate_total` computes: the sum of the subtotals of the order's lines. */
  function OrderTotal(lines: seq<OrderItem>, id: nat): int {
    SumSubtotals(LinesOf(lines, id))
  }

  /** A payment attempt for an order. */
  datatype Payment = Payment(
    order: nat,
    paymentMethod: string,
    amount: int,
    currency: string,
    status: string,
    providerPaymentId: Option<string>,
    providerRaw: Option<string>)

  /** A freshly created payment row: currency RWF, status pending, no provider data. */
  function NewPayment(order: nat, paymentMethod: string, amount: int): (p: Payment)
    ensures p.order == order && p.paymentMethod == paymentMethod && p.amount == amount
    ensures p.currency == "RWF" && p.status == "pending"
    ensures p.providerPaymentId.None? && p.providerRaw.None?
  {
    Payment(order, paymentMethod, amount, "RWF", "pending", None, None)
  }

  // ---------------------------------------------------------------------------------------
  // Facts about totals.
  // ---------------------------------------------------------------------------------------

  lemma {:induction false} SumSubtotalsAppend(a: seq<OrderItem>, b: seq<OrderItem>)
    ensures SumSubtotals(a + b) == SumSubtotals(a) + SumSubtotals(b)
    decreases |b|
  {
    if b == [] {
      assert a + b == a;
    } else {
      var b' := b[..|b| - 1];
      assert (a + b)[..|a + b| - 1] == a + b';
      SumSubtotalsAppend(a, b');
    }
  }

  lemma {:induction false} LinesOfAppend(a: seq<OrderItem>, b: seq<OrderItem>, id: nat)
    ensures LinesOf(a + b, id) == LinesOf(a, id) + LinesOf(b, id)
    decreases |b|
  {
    if b == [] {
      assert a + b == a;
    } else {
      var b' := b[..|b| - 1];
      assert (a + b)[..|a + b| - 1] == a + b';
      LinesOfAppend(a, b', id);
    }
  }

  /** Lines that all belong to order `id` are exactly its lines. */
  lemma {:induction false} LinesOfAllOwn(b: seq<OrderItem>, id: nat)
    requires forall k :: 0 <= k < |b| ==> b[k].order == id
    ensures LinesOf(b, id) == b
    decreases |b|
  {
    if b != [] {
      LinesOfAllOwn(b[..|b| - 1], id);
    }
  }

  /** Lines none of which belong to order `id` contribute no line to it. */
  lemma {:induction false} LinesOfNoneOwn(a: seq<OrderItem>, id: nat)
    requires forall k :: 0 <= k < |a| ==> a[k].order != id
    ensures LinesOf(a, id) == []
    decreases |a|
  {
    if a != [] {
      LinesOfNoneOwn(a[..|a| - 1], id);
    }
  }

  /** An order without line items has total 0. */
  lemma OrderTotalNoLines(lines: seq<OrderItem>, id: nat)
    requires forall k :: 0 <= k < |lines| ==> lines[k].order != id
    ensures OrderTotal(lines, id) == 0
  {
    LinesOfNoneOwn(lines, id);
  }

  /**
   * Appending the lines of a new order to the store: the new order's total is the sum of the
   * new lines' subtotals, and every other order's total is unchanged.
   */
  lemma OrderTotalAfterAppend(old_lines: seq<OrderItem>, added: seq<OrderItem>, id: nat, other: nat)
    requires forall k :: 0 <= k < |old_lines| ==> old_lines[k].order != id
    requires forall k :: 0 <= k < |added| ==> added[k].order == id
    requires other != id
    ensures OrderTotal(old_lines + added, id) == SumSubtotals(added)
    ensures OrderTotal(old_lines + added, other) == OrderTotal(old_lines, other)
  {
    LinesOfAppend(old_lines, added, id);
    LinesOfNoneOwn(old_lines, id);
    LinesOfAllOwn(added, id);
    assert LinesOf(old_lines + added, id) == added;
    LinesOfAppend(old_lines, added, other);
    LinesOfNoneOwn(added, other);
    assert LinesOf(old_lines + added, other) == LinesOf(old_lines, other);
  }

  /** The orders after order `id` (1-based) has had its total recomputed from `lines`. */
  function WithRecalculatedTotal(orders: seq<Order>, lines: seq<OrderItem>, id: nat): (r: seq<Order>)
    requires 1 <= id <= |orders|
    ensures |r| == |orders| && r[id - 1].totalPrice == OrderTotal(lines, id)
    ensures forall i :: 0 <= i < |orders| && i != id - 1 ==> r[i] == orders[i]
    ensures r[id - 1] == orders[id - 1].(totalPrice := r[id - 1].totalPrice)
  {
    orders[id - 1 := orders[id - 1].(totalPrice := OrderTotal(lines, id))]
  }

  /** Recomputing a total twice over the same lines is the same as recomputing it once. */
  lemma RecalculateIdempotent(orders: seq<Order>, lines: seq<OrderItem>, id: nat)
    requires 1 <= id <= |orders|
    ensures WithRecalculatedTotal(WithRecalculatedTotal(orders, lines, id), lines, id)
            == WithRecalculatedTotal(orders, lines, id)
  {
  }

  // ---------------------------------------------------------------------------------------
  // The store.
  // ---------------------------------------------------------------------------------------

  /**
   * The database tables the core touches. Orders get ids 1, 2, ... in creation order; every
   * line item belongs to an existing order and refers to an existing item or to none.
   */
  class Db {
    var items: map<nat, Item>
    var categories: seq<Category>
    var orders: seq<Order>
    var lines: seq<OrderItem>

    ghost predicate Valid()
      reads this
    {
      && (forall i :: 0 <= i < |orders| ==> orders[i].id == i + 1)
      && (forall k :: 0 <= k < |lines| ==> 1 <= lines[k].order <= |orders|)
      && Resolves(lines, items)
      && DistinctNames(categories)
    }

    /** A store holding a catalogue and its categories, with no orders yet. */
    constructor (catalogue: map<nat, Item>, cats: seq<Category>)
      requires DistinctNames(cats)
      ensures Valid()
      ensures items == catalogue && categories == cats && orders == [] && lines == []
    {
      items, categories, orders, lines := catalogue, cats, [], [];
    }

    /** `Category.objects.create(name=...)`: refused when the name is already used. */
    method AddCategory(name: string) returns (ok: bool)
      requires Valid()
      modifies this
      ensures Valid()
      ensures ok <==> !NameTaken(old(categories), name)
      ensures categories == if ok then old(categories) + [Category(name)] else old(categories)
      ensures items == old(items) && orders == old(orders) && lines == old(lines)
    {
      ok := true;
      var i := 0;
      while i < |categories|
        invariant 0 <= i <= |categories|
        invariant ok <==> forall j :: 0 <= j < i ==> categories[j].name != name
      {
        if categories[i].name == name {
          ok := false;
        }
        i := i + 1;
      }
      if ok {
        categories := categories + [Category(name)];
      }
    }

    /** `Order.objects.create(...)`: a new order row with the next id and default status. */
    method CreateOrder(user: Option<nat>, fullName: string, phone: string, address: string,
                       totalPrice: int) returns (id: nat)
      requires Valid()
      modifies this
      ensures Valid()
      ensures id == |old(orders)| + 1
      ensures orders == old(orders) + [NewOrder(id, user, fullName, phone, address, totalPrice)]
      ensures items == old(items) && categories == old(categories) && lines == old(lines)
    {
      id := |orders| + 1;
      orders := orders + [NewOrder(id, user, fullName, phone, address, totalPrice)];
    }

    /**
     * `OrderItem.objects.create(...)`: stores the line, unless the quantity is negative, which
     * the non-negative check on the quantity column refuses.
     */
    method CreateOrderItem(order: nat, item: Option<nat>, quantity: int, price: int) returns (ok: bool)
      requires Valid()
      requires 1 <= order <= |orders|
      requires item.Some? ==> item.value in items
      modifies this
      ensures Valid()
      ensures ok <==> quantity >= 0
      ensures lines == if ok then old(lines) + [NewOrderItem(order, item, price, quantity as nat)]
                       else old(lines)
      ensures items == old(items) && categories == old(categories) && orders == old(orders)
    {
      ok := quantity >= 0;
      if ok {
        lines := lines + [NewOrderItem(order, item, price, quantity as nat)];
      }
    }

    /**
     * `Order.calculate_total`: sets the order's total to the sum of its lines' subtotals,
     * saves it and returns it. Nothing else changes.
     */
    method CalculateTotal(id: nat) returns (total: int)
      requires Valid()
      requires 1 <= id <= |orders|
      modifies this
      ensures Valid()
      ensures total == OrderTotal(lines, id)
      ensures orders == WithRecalculatedTotal(old(orders), lines, id)
      ensures items == old(items) && categories == old(categories) && lines == old(lines)
    {
      total := SumSubtotals(LinesOf(lines, id));
      orders := orders[id - 1 := orders[id - 1].(totalPrice := total)];
    }
  }
}
