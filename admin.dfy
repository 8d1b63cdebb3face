/**
 * The order list of the admin site: the "Items" column (`OrderAdmin.items_summary`), one
 * `"<name> x<quantity>"` part per line item of the order, joined with ", ".
 */
module Admin {
  import opened Wrappers
  import opened Decimal
  import opened Models

  const DeletedItem: string := "(deleted item)"
  const Separator: string := ", "

  /** The item's name, or "(deleted item)" when the line's item reference is null. */
  function ItemName(oi: OrderItem, catalogue: map<nat, Item>): string
    requires oi.item.Some? ==> oi.item.value in catalogue
  {
    match oi.item
    case Some(id) => catalogue[id].name
    case None => DeletedItem
  }

  /** `f"{item_name} x{oi.quantity}"`. */
  function Part(oi: OrderItem, catalogue: map<nat, Item>): string
    requires oi.item.Some? ==> oi.item.value in catalogue
  {
    ItemName(oi, catalogue) + " x" + NatToString(oi.quantity)
  }

  function Parts(lines: seq<OrderItem>, catalogue: map<nat, Item>): seq<string>
    requires Resolves(lines, catalogue)
    decreases |lines|
  {
    if lines == [] then [] else Parts(lines[..|lines| - 1], catalogue) + [Part(lines[|lines| - 1], catalogue)]
  }

  /** `sep.join(parts)`: the parts in order with `sep` between neighbours. */
  function Join(parts: seq<string>, sep: string): string
    decreases |parts|
  {
    if |parts| == 0 then ""
    else if |parts| == 1 then parts[0]
    else Join(parts[..|parts| - 1], sep) + sep + parts[|parts| - 1]
  }

  /** `items_summary`: collect one part per line item of the order, then join them. */
  method ItemsSummary(order: Order, lines: seq<OrderItem>, catalogue: map<nat, Item>) returns (s: string)
    requires Resolves(lines, catalogue)
    ensures s == Join(Parts(LinesOf(lines, order.id), catalogue), Separator)
  {
    var items := LinesOf(lines, order.id);
    var parts: seq<string> := [];
    var i := 0;
    while i < |items|
      invariant 0 <= i <= |items|
      invariant parts == Parts(items[..i], catalogue)
    {
      assert items[..i + 1][..i] == items[..i];
      parts := parts + [Part(items[i], catalogue)];
      i := i + 1;
    }
    assert items[..i] == items;
    s := Join(parts, Separator);
  }

  /** One part per line item, in line-item order. */
  lemma {:induction false} PartsAt(lines: seq<OrderItem>, catalogue: map<nat, Item>)
    requires Resolves(lines, catalogue)
    ensures |Parts(lines, catalogue)| == |lines|
    ensures forall k :: 0 <= k < |lines| ==> Parts(lines, catalogue)[k] == Part(lines[k], catalogue)
    decreases |lines|
  {
    if lines != [] {
      PartsAt(lines[..|lines| - 1], catalogue);
    }
  }

  /** Joining is left to right: the first part, then the separator before each later part. */
  lemma {:induction false} JoinCons(p: string, parts: seq<string>, sep: string)
    ensures Join([p] + parts, sep) == if parts == [] then p else p + sep + Join(parts, sep)
    decreases |parts|
  {
    if |parts| > 1 {
      var pre := parts[..|parts| - 1];
      assert ([p] + parts)[..|parts|] == [p] + pre;
      JoinCons(p, pre, sep);
    } else if |parts| == 1 {
      assert ([p] + parts)[..1] == [p];
    }
  }

  /** An order without line items has an empty summary. */
  lemma SummaryOfNoLines(lines: seq<OrderItem>, catalogue: map<nat, Item>, id: nat)
    requires Resolves(lines, catalogue)
    requires forall k :: 0 <= k < |lines| ==> lines[k].order != id
    ensures Join(Parts(LinesOf(lines, id), catalogue), Separator) == ""
  {
    LinesOfNoneOwn(lines, id);
  }

  /**
   * A part names its item (or "(deleted item)"), then " x", then the quantity's numeral,
   * from which `int(...)` reads the quantity back.
   */
  lemma PartFormat(oi: OrderItem, catalogue: map<nat, Item>)
    requires oi.item.Some? ==> oi.item.value in catalogue
    ensures var p := Part(oi, catalogue); var n := |ItemName(oi, catalogue)|;
      && |p| > n + 2
      && p[..n] == (if oi.item.None? then DeletedItem else catalogue[oi.item.value].name)
      && p[n..n + 2] == " x"
      && ParseNat(p[n + 2..]) == Some(oi.quantity)
  {
    var p := Part(oi, catalogue);
    var n := |ItemName(oi, catalogue)|;
    assert p[n + 2..] == NatToString(oi.quantity);
    ParseNatToString(oi.quantity);
  }
}
