/**
 * The request handlers that compute with the cart and the order tables: the cart page
 * (`cart_view`), checkout (`checkout`) and cancelling an order (`cancel_order`). Rendering,
 * messages and redirects are reduced to the outcome a handler reports.
 */
module Views {
  import opened Wrappers
  import opened Models
  import opened Cart

  /** The authenticated user making the request. */
  datatype User = User(id: nat, username: string)

  /** One row of the cart or checkout page: the live item, the cart quantity and the subtotal. */
  datatype CartLine = CartLine(itemId: nat, item: Item, quantity: int)

  /** `item.price * qty`, with the item's price as it is in the catalogue now. */
  function LineSubtotal(l: CartLine): int {
    l.item.price * l.quantity
  }

  function LinesTotal(ls: seq<CartLine>): int
    decreases |ls|
  {
    if ls == [] then 0 else LinesTotal(ls[..|ls| - 1]) + LineSubtotal(ls[|ls| - 1])
  }

  /** The row an entry whose item exists contributes. */
  function LineOf(e: Entry, catalogue: map<nat, Item>): CartLine
    requires IsKey(e.key) && KeyId(e.key) in catalogue
  {
    CartLine(KeyId(e.key), catalogue[KeyId(e.key)], e.quantity)
  }

  // ---------------------------------------------------------------------------------------
  // The cart page: entries whose item no longer exists are skipped.
  // ---------------------------------------------------------------------------------------

  function ViewLines(c: seq<Entry>, catalogue: map<nat, Item>): seq<CartLine>
    requires AllKeys(c)
    decreases |c|
  {
    if c == [] then []
    else
      var rest := ViewLines(c[..|c| - 1], catalogue);
      var e := c[|c| - 1];
      if KeyId(e.key) in catalogue then rest + [LineOf(e, catalogue)] else rest
  }

  /** The rows and total of the cart page, computed by `cart_view`'s loop. */
  method Summarize(c: seq<Entry>, catalogue: map<nat, Item>) returns (lines: seq<CartLine>, total: int)
    requires AllKeys(c)
    ensures lines == ViewLines(c, catalogue)
    ensures total == LinesTotal(lines)
  {
    lines, total := [], 0;
    var i := 0;
    while i < |c|
      invariant 0 <= i <= |c|
      invariant lines == ViewLines(c[..i], catalogue)
      invariant total == LinesTotal(lines)
    {
      assert c[..i + 1][..i] == c[..i];
      var id := KeyId(c[i].key);
      if id in catalogue {
        var line := CartLine(id, catalogue[id], c[i].quantity);
        total := total + LineSubtotal(line);
        lines := lines + [line];
      }
      i := i + 1;
    }
    assert c[..i] == c;
  }

  /** `cart_view`: fetch (and, if absent, create) the session cart, then summarize it. */
  method CartView(session: Session, catalogue: map<nat, Item>) returns (lines: seq<CartLine>, total: int)
    requires session.Valid()
    modifies session
    ensures session.Valid() && session.stored == Some(old(session.Contents()))
    ensures lines == ViewLines(old(session.Contents()), catalogue)
    ensures total == LinesTotal(lines)
  {
    var c := session.GetCart();
    lines, total := Summarize(c, catalogue);
  }

  /**
   * The cart page shows exactly the entries whose item exists: a row is on it if and only
   * if its item is in the catalogue with that live data and the cart holds that item's key
   * with that quantity.
   */
  lemma {:induction false} ViewLinesExactly(c: seq<Entry>, catalogue: map<nat, Item>, l: CartLine)
    requires AllKeys(c)
    ensures l in ViewLines(c, catalogue) <==>
            l.itemId in catalogue && l.item == catalogue[l.itemId] && Entry(KeyOf(l.itemId), l.quantity) in c
    decreases |c|
  {
    if c != [] {
      var pre, e := c[..|c| - 1], c[|c| - 1];
      assert c == pre + [e];
      ViewLinesExactly(pre, catalogue, l);
      KeyRoundTrip(l.itemId);
      if Entry(KeyOf(l.itemId), l.quantity) == e {
        assert KeyId(e.key) == l.itemId;
      }
    }
  }

  /** An entry whose item is missing contributes neither a row nor money, wherever it sits. */
  lemma {:induction false} ViewLinesSkipMissing(a: seq<Entry>, e: Entry, b: seq<Entry>, catalogue: map<nat, Item>)
    requires AllKeys(a) && AllKeys(b) && IsKey(e.key) && KeyId(e.key) !in catalogue
    ensures AllKeys(a + [e] + b) && AllKeys(a + b)
    ensures ViewLines(a + [e] + b, catalogue) == ViewLines(a + b, catalogue)
    ensures LinesTotal(ViewLines(a + [e] + b, catalogue)) == LinesTotal(ViewLines(a + b, catalogue))
    decreases |b|
  {
    assert AllKeys(a + [e] + b) by {
      forall i | 0 <= i < |a + [e] + b| ensures IsKey((a + [e] + b)[i].key) {
        if i > |a| { assert (a + [e] + b)[i] == b[i - |a| - 1]; }
      }
    }
    assert AllKeys(a + b) by {
      forall i | 0 <= i < |a + b| ensures IsKey((a + b)[i].key) {
        if i >= |a| { assert (a + b)[i] == b[i - |a|]; }
      }
    }
    if b == [] {
      assert a + [e] + b == a + [e];
      assert (a + [e])[..|a|] == a;
      assert a + b == a;
    } else {
      var b', x := b[..|b| - 1], b[|b| - 1];
      assert (a + [e] + b)[..|a + [e] + b| - 1] == a + [e] + b';
      assert (a + b)[..|a + b| - 1] == a + b';
      ViewLinesSkipMissing(a, e, b', catalogue);
    }
  }

  // ---------------------------------------------------------------------------------------
  // Checkout: any missing item aborts the whole request with not-found.
  // ---------------------------------------------------------------------------------------

  /** The rows checkout builds, or None when some entry's item is missing. */
  function Snapshot(c: seq<Entry>, catalogue: map<nat, Item>): Option<seq<CartLine>>
    requires AllKeys(c)
    decreases |c|
  {
    if c == [] then Some([])
    else
      var e := c[|c| - 1];
      match Snapshot(c[..|c| - 1], catalogue)
      case None => None
      case Some(rest) => if KeyId(e.key) in catalogue then Some(rest + [LineOf(e, catalogue)]) else None
  }

  /** Checkout finds all its rows exactly when every entry's item exists. */
  lemma {:induction false} SnapshotDefined(c: seq<Entry>, catalogue: map<nat, Item>)
    requires AllKeys(c)
    ensures Snapshot(c, catalogue).Some? <==> forall i :: 0 <= i < |c| ==> KeyId(c[i].key) in catalogue
    decreases |c|
  {
    if c != [] {
      SnapshotDefined(c[..|c| - 1], catalogue);
    }
  }

  /** When checkout finds all its rows, they are the rows the cart page shows. */
  lemma {:induction false} SnapshotIsView(c: seq<Entry>, catalogue: map<nat, Item>)
    requires AllKeys(c) && Snapshot(c, catalogue).Some?
    ensures Snapshot(c, catalogue).value == ViewLines(c, catalogue)
    ensures |Snapshot(c, catalogue).value| == |c|
    ensures forall k :: 0 <= k < |c| ==> KeyId(c[k].key) in catalogue
    ensures forall k :: 0 <= k < |c| ==> Snapshot(c, catalogue).value[k] == LineOf(c[k], catalogue)
    decreases |c|
  {
    if c != [] {
      SnapshotIsView(c[..|c| - 1], catalogue);
      SnapshotDefined(c, catalogue);
    }
  }

  lemma {:induction false} SnapshotNoneExtends(c: seq<Entry>, i: nat, catalogue: map<nat, Item>)
    requires AllKeys(c) && i <= |c|
    requires Snapshot(c[..i], catalogue).None?
    ensures Snapshot(c, catalogue).None?
    decreases |c| - i
  {
    if i < |c| {
      assert c[..i + 1][..i] == c[..i];
      SnapshotNoneExtends(c, i + 1, catalogue);
    } else {
      assert c[..i] == c;
    }
  }

  /** One more entry whose item exists extends checkout's rows by its row. */
  lemma SnapshotStep(c: seq<Entry>, i: nat, catalogue: map<nat, Item>, lines: seq<CartLine>)
    requires AllKeys(c) && i < |c| && KeyId(c[i].key) in catalogue
    requires Snapshot(c[..i], catalogue) == Some(lines)
    ensures Snapshot(c[..i + 1], catalogue) == Some(lines + [LineOf(c[i], catalogue)])
  {
    assert c[..i + 1][..i] == c[..i];
  }

  lemma LinesTotalStep(lines: seq<CartLine>, line: CartLine)
    ensures LinesTotal(lines + [line]) == LinesTotal(lines) + LineSubtotal(line)
  {
    assert (lines + [line])[..|lines|] == lines;
  }

  /** `checkout`'s first loop: every entry's item is fetched, or the request aborts. */
  method CheckoutLines(c: seq<Entry>, catalogue: map<nat, Item>) returns (r: Option<seq<CartLine>>, total: int)
    requires AllKeys(c)
    ensures r == Snapshot(c, catalogue)
    ensures r.Some? ==> total == LinesTotal(r.value)
    ensures r.Some? ==> forall k :: 0 <= k < |r.value| ==> r.value[k].itemId in catalogue
  {
    var lines: seq<CartLine> := [];
    total := 0;
    var i := 0;
    while i < |c|
      invariant 0 <= i <= |c|
      invariant Snapshot(c[..i], catalogue) == Some(lines)
      invariant total == LinesTotal(lines)
      invariant forall k :: 0 <= k < |lines| ==> lines[k].itemId in catalogue
    {
      if KeyId(c[i].key) !in catalogue {
        assert c[..i + 1][..i] == c[..i];
        SnapshotNoneExtends(c, i + 1, catalogue);
        return None, total;
      }
      var line := LineOf(c[i], catalogue);
      SnapshotStep(c, i, catalogue, lines);
      LinesTotalStep(lines, line);
      total := total + LineSubtotal(line);
      lines := lines + [line];
      i := i + 1;
    }
    assert c[..i] == c;
    r := Some(lines);
  }

  /** A row that the quantity column accepts. */
  predicate AllStorable(ls: seq<CartLine>) {
    forall i :: 0 <= i < |ls| ==> ls[i].quantity >= 0
  }

  /** The line item checkout stores for a row: its quantity and the item's price at this moment. */
  function ItemRow(id: nat, l: CartLine): OrderItem
    requires l.quantity >= 0
  {
    NewOrderItem(id, Some(l.itemId), l.item.price, l.quantity as nat)
  }

  /**
   * The line items checkout's second loop stores for order `id`: one per row, in order,
   * until a row with a negative quantity is refused by the store, which ends the loop.
   */
  function Stored(id: nat, ls: seq<CartLine>): seq<OrderItem>
    decreases |ls|
  {
    if ls == [] then []
    else
      var pre, last := ls[..|ls| - 1], ls[|ls| - 1];
      if AllStorable(pre) && last.quantity >= 0 then Stored(id, pre) + [ItemRow(id, last)] else Stored(id, pre)
  }

  lemma {:induction false} StoredStops(id: nat, ls: seq<CartLine>, i: nat)
    requires i < |ls| && ls[i].quantity < 0
    ensures Stored(id, ls) == Stored(id, ls[..i])
    decreases |ls|
  {
    if |ls| > i + 1 {
      var pre := ls[..|ls| - 1];
      assert pre[i] == ls[i];
      assert pre[..i] == ls[..i];
      StoredStops(id, pre, i);
    } else {
      assert ls[..|ls| - 1] == ls[..i];
    }
  }

  /** Each stored line item belongs to order `id` and is the row at the same position. */
  lemma {:induction false} StoredRows(id: nat, ls: seq<CartLine>)
    ensures |Stored(id, ls)| <= |ls|
    ensures forall k :: 0 <= k < |Stored(id, ls)| ==>
              ls[k].quantity >= 0 && Stored(id, ls)[k] == ItemRow(id, ls[k])
    ensures AllStorable(ls) ==> |Stored(id, ls)| == |ls|
    decreases |ls|
  {
    if ls != [] {
      var pre := ls[..|ls| - 1];
      StoredRows(id, pre);
    }
  }

  lemma {:induction false} StoredTotal(id: nat, ls: seq<CartLine>)
    requires AllStorable(ls)
    ensures SumSubtotals(Stored(id, ls)) == LinesTotal(ls)
    decreases |ls|
  {
    if ls != [] {
      var pre := ls[..|ls| - 1];
      StoredTotal(id, pre);
      assert Stored(id, ls) == Stored(id, pre) + [ItemRow(id, ls[|ls| - 1])];
      SumSubtotalsAppend(Stored(id, pre), [ItemRow(id, ls[|ls| - 1])]);
    }
  }

  /**
   * A placed order is consistent: its line items are one per cart row, in cart order, each
   * with the row's quantity and the item's catalogue price at checkout; its stored total is
   * the sum of their subtotals, so `calculate_total` would leave it unchanged; the totals of
   * all other orders are unaffected.
   */
  lemma PlacedOrderConsistent(orders: seq<Order>, lines: seq<OrderItem>, order: Order, ls: seq<CartLine>)
    requires forall i :: 0 <= i < |orders| ==> orders[i].id == i + 1
    requires forall k :: 0 <= k < |lines| ==> 1 <= lines[k].order <= |orders|
    requires AllStorable(ls)
    requires order.id == |orders| + 1 && order.totalPrice == LinesTotal(ls)
    ensures var id := order.id; var after := lines + Stored(id, ls);
      && |LinesOf(after, id)| == |ls|
      && (forall k :: 0 <= k < |ls| ==>
            LinesOf(after, id)[k] == OrderItem(id, Some(ls[k].itemId), ls[k].quantity as nat, ls[k].item.price))
      && OrderTotal(after, id) == order.totalPrice
      && WithRecalculatedTotal(orders + [order], after, id) == orders + [order]
      && (forall other :: 1 <= other <= |orders| ==> OrderTotal(after, other) == OrderTotal(lines, other))
  {
    var id := order.id;
    var added := Stored(id, ls);
    StoredRows(id, ls);
    StoredTotal(id, ls);
    forall other | 1 <= other <= |orders|
      ensures OrderTotal(lines + added, other) == OrderTotal(lines, other)
    {
      OrderTotalAfterAppend(lines, added, id, other);
    }
    OrderTotalAfterAppend(lines, added, id, 0);
    LinesOfAppend(lines, added, id);
    LinesOfNoneOwn(lines, id);
    LinesOfAllOwn(added, id);
    assert LinesOf(lines + added, id) == added;
  }

  /**
   * `checkout`'s second loop: create one line item per row for order `id`, stopping at the
   * first row the store refuses.
   */
  method StoreRows(db: Db, id: nat, ls: seq<CartLine>) returns (ok: bool)
    requires db.Valid() && 1 <= id <= |db.orders|
    requires forall k :: 0 <= k < |ls| ==> ls[k].itemId in db.items
    modifies db
    ensures db.Valid()
    ensures db.items == old(db.items) && db.categories == old(db.categories) && db.orders == old(db.orders)
    ensures db.lines == old(db.lines) + Stored(id, ls)
    ensures ok == AllStorable(ls)
  {
    var i := 0;
    while i < |ls|
      invariant 0 <= i <= |ls|
      invariant db.Valid()
      invariant db.items == old(db.items) && db.categories == old(db.categories) && db.orders == old(db.orders)
      invariant AllStorable(ls[..i])
      invariant db.lines == old(db.lines) + Stored(id, ls[..i])
    {
      assert ls[..i + 1][..i] == ls[..i];
      var stored := db.CreateOrderItem(id, Some(ls[i].itemId), ls[i].quantity, ls[i].item.price);
      if !stored {
        StoredStops(id, ls, i);
        return false;
      }
      i := i + 1;
    }
    assert ls[..i] == ls;
    ok := true;
  }

  datatype CheckoutOutcome =
    | EmptyCart                      // "Your cart is empty."; nothing created
    | ItemNotFound                   // a cart item no longer exists: not-found, nothing created
    | Review(lines: seq<CartLine>, total: int)  // GET: the checkout page, nothing created
    | Placed(orderId: nat)           // POST: order and all its line items stored, cart emptied
    | StoreFailed(orderId: nat)      // POST: a negative quantity was refused after the order was stored

  /**
   * `checkout`. An empty cart is refused; a missing item aborts; a GET shows the rows and
   * total. A POST stores one order (owner and name from the user, phone and address "N/A",
   * total = the rows' total), then one line item per row with the item's current price, then
   * empties the cart. The steps are not one transaction: when the store refuses a line item
   * (a negative quantity) the order and the line items before it stay stored and the cart is
   * kept.
   */
  method Checkout(session: Session, db: Db, user: User, isPost: bool) returns (out: CheckoutOutcome)
    requires session.Valid() && db.Valid()
    modifies session, db
    ensures session.Valid() && db.Valid()
    ensures db.items == old(db.items) && db.categories == old(db.categories)
    ensures old(session.Contents()) == [] ==> out == EmptyCart
    ensures old(session.Contents()) != [] && Snapshot(old(session.Contents()), old(db.items)).None? ==>
              out == ItemNotFound
    ensures old(session.Contents()) != [] && Snapshot(old(session.Contents()), old(db.items)).Some? && !isPost ==>
              var ls := Snapshot(old(session.Contents()), old(db.items)).value;
              out == Review(ls, LinesTotal(ls))
    ensures out.EmptyCart? || out.ItemNotFound? || out.Review? ==>
              unchanged(session) && db.orders == old(db.orders) && db.lines == old(db.lines)
    ensures old(session.Contents()) != [] && Snapshot(old(session.Contents()), old(db.items)).Some? && isPost ==>
              var ls := Snapshot(old(session.Contents()), old(db.items)).value;
              var id := |old(db.orders)| + 1;
              && db.orders == old(db.orders) + [NewOrder(id, Some(user.id), user.username, "N/A", "N/A", LinesTotal(ls))]
              && db.lines == old(db.lines) + Stored(id, ls)
              && out == (if AllStorable(ls) then Placed(id) else StoreFailed(id))
              && session.stored == (if AllStorable(ls) then Some([]) else old(session.stored))
  {
    var c := session.Contents();
    if c == [] {
      return EmptyCart;
    }
    var snap, total := CheckoutLines(c, db.items);
    if snap.None? {
      return ItemNotFound;
    }
    var ls := snap.value;
    if !isPost {
      return Review(ls, total);
    }
    var id := db.CreateOrder(Some(user.id), user.username, "N/A", "N/A", total);
    var ok := StoreRows(db, id, ls);
    if !ok {
      return StoreFailed(id);
    }
    session.Clear();
    out := Placed(id);
  }

  /**
   * A worked checkout: item 1 at 1000 cents twice and item 2 at 500 cents once give rows
   * totalling 2500, stored as two line items with unit prices 1000 and 500.
   */
  lemma CheckoutExample(a: Item, b: Item)
    requires a.price == 1000 && b.price == 500
    ensures var c := [Entry(KeyOf(1), 2), Entry(KeyOf(2), 1)];
      && AllKeys(c)
      && Snapshot(c, map[1 := a, 2 := b]).Some?
      && LinesTotal(Snapshot(c, map[1 := a, 2 := b]).value) == 2500
      && Stored(7, Snapshot(c, map[1 := a, 2 := b]).value)
         == [OrderItem(7, Some(1), 2, 1000), OrderItem(7, Some(2), 1, 500)]
  {
    KeyRoundTrip(1);
    KeyRoundTrip(2);
    var c := [Entry(KeyOf(1), 2), Entry(KeyOf(2), 1)];
    var cat := map[1 := a, 2 := b];
    assert c[..1] == [Entry(KeyOf(1), 2)];
    SnapshotDefined(c, cat);
    SnapshotIsView(c, cat);
    var ls := Snapshot(c, cat).value;
    assert ls == [CartLine(1, a, 2), CartLine(2, b, 1)];
    assert ls[..1][..0] == [];
    assert LinesTotal(ls[..1]) == 2000;
    assert AllStorable(ls);
    StoredRows(7, ls);
    StoredTotal(7, ls);
  }

  // ---------------------------------------------------------------------------------------
  // Cancelling an order.
  // ---------------------------------------------------------------------------------------

  /** The cancellation guard: only a pending or preparing order may become cancelled. */
  function Cancel(s: Status): (r: Option<Status>)
    ensures r.Some? <==> s == Pending || s == Preparing
    ensures r.Some? ==> r.value == Cancelled
  {
    if s == Pending || s == Preparing then Some(Cancelled) else None
  }

  /** Cancelled is terminal for the guard: a second cancel is refused. */
  lemma CancelTwiceRefused(s: Status)
    ensures Cancel(s).Some? ==> Cancel(Cancel(s).value).None?
    ensures Cancel(Delivered).None? && Cancel(Cancelled).None?
  {
  }

  /** The order with primary key `id` exists and belongs to user `userId`. */
  predicate OwnedBy(orders: seq<Order>, id: nat, userId: nat) {
    1 <= id <= |orders| && orders[id - 1].user == Some(userId)
  }

  datatype CancelOutcome = OrderNotFound | OrderCancelled | CannotCancel

  /**
   * `cancel_order`: an order the user does not own (or that does not exist) is not found; an
   * owned order that the guard allows becomes cancelled and is saved; otherwise it is
   * reported as not cancellable and left unchanged.
   */
  method CancelOrder(db: Db, orderId: nat, user: User) returns (out: CancelOutcome)
    requires db.Valid()
    modifies db
    ensures db.Valid()
    ensures db.items == old(db.items) && db.categories == old(db.categories) && db.lines == old(db.lines)
    ensures !OwnedBy(old(db.orders), orderId, user.id) ==> out == OrderNotFound && db.orders == old(db.orders)
    ensures OwnedBy(old(db.orders), orderId, user.id) ==>
              var o := old(db.orders)[orderId - 1];
              && (out == OrderCancelled <==> Cancel(o.status).Some?)
              && (out == CannotCancel <==> Cancel(o.status).None?)
              && db.orders == if out == OrderCancelled then old(db.orders)[orderId - 1 := o.(status := Cancelled)]
                              else old(db.orders)
  {
    if !OwnedBy(db.orders, orderId, user.id) {
      return OrderNotFound;
    }
    var o := db.orders[orderId - 1];
    if o.status == Pending || o.status == Preparing {
      db.orders := db.orders[orderId - 1 := o.(status := Cancelled)];
      out := OrderCancelled;
    } else {
      out := CannotCancel;
    }
  }
}
