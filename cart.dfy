/**
 * The session cart: the session's "cart" entry, a dictionary from the text of an item id
 * (`str(item_id)`) to an integer quantity. Python dictionaries keep insertion order, and the
 * views iterate the cart in that order, so the cart is modelled as a list of entries with
 * distinct keys: updating a key keeps its place, a new key goes at the end.
 */
module Cart {
  import opened Wrappers
  import opened Decimal
  import Models

  datatype Entry = Entry(key: string, quantity: int)

  /** The session key of an item id: `str(item_id)`. */
  function KeyOf(id: nat): string {
    NatToString(id)
  }

  /** A string that `int(...)` reads as an item id and that `str` would write back unchanged. */
  predicate IsKey(k: string) {
    ParseNat(k).Some? && KeyOf(ParseNat(k).value) == k
  }

  /** `int(key)`: the item id a well-formed key stands for. */
  function KeyId(k: string): (id: nat)
    requires IsKey(k)
    ensures KeyOf(id) == k
  {
    ParseNat(k).value
  }

  /** Keys written by `str(item_id)` are read back by `int(...)` as the same id. */
  lemma KeyRoundTrip(id: nat)
    ensures IsKey(KeyOf(id)) && KeyId(KeyOf(id)) == id
  {
    ParseNatToString(id);
  }

  /** The cart's keys in iteration order. */
  function KeySeq(c: seq<Entry>): (ks: seq<string>)
    ensures |ks| == |c| && forall i :: 0 <= i < |c| ==> ks[i] == c[i].key
    decreases |c|
  {
    if c == [] then [] else [c[0].key] + KeySeq(c[1..])
  }

  ghost predicate DistinctKeys(c: seq<Entry>) {
    forall i, j :: 0 <= i < j < |c| ==> c[i].key != c[j].key
  }

  predicate AllKeys(c: seq<Entry>) {
    forall i :: 0 <= i < |c| ==> IsKey(c[i].key)
  }

  /** Every cart the views write: a dictionary keyed by item-id text. */
  ghost predicate WellFormed(c: seq<Entry>) {
    DistinctKeys(c) && AllKeys(c)
  }

  /** `cart.get(key)`: the quantity stored under `k`, if any. */
  function Lookup(c: seq<Entry>, k: string): Option<int>
    decreases |c|
  {
    if c == [] then None
    else if c[0].key == k then Some(c[0].quantity)
    else Lookup(c[1..], k)
  }

  /** `cart[key] = cart.get(key, 0) + qty`. */
  function Added(c: seq<Entry>, k: string, q: int): (r: seq<Entry>)
    ensures forall i :: 0 <= i < |r| ==> r[i].key == k || r[i] in c
    decreases |c|
  {
    if c == [] then [Entry(k, q)]
    else if c[0].key == k then [Entry(k, c[0].quantity + q)] + c[1..]
    else [c[0]] + Added(c[1..], k, q)
  }

  /** `del cart[key]` when the key is present; the cart itself when it is not. */
  function Removed(c: seq<Entry>, k: string): (r: seq<Entry>)
    ensures forall e :: e in r ==> e in c
    decreases |c|
  {
    if c == [] then []
    else if c[0].key == k then c[1..]
    else [c[0]] + Removed(c[1..], k)
  }

  /** A key is found exactly when it is one of the cart's keys. */
  lemma {:induction false} LookupPresent(c: seq<Entry>, k: string)
    ensures Lookup(c, k).Some? <==> k in KeySeq(c)
    decreases |c|
  {
    if c != [] {
      LookupPresent(c[1..], k);
      assert KeySeq(c) == [c[0].key] + KeySeq(c[1..]);
    }
  }

  /** In a cart with distinct keys, each entry's key finds that entry's quantity. */
  lemma {:induction false} LookupAt(c: seq<Entry>, i: nat)
    requires DistinctKeys(c) && i < |c|
    ensures Lookup(c, c[i].key) == Some(c[i].quantity)
    decreases |c|
  {
    if i > 0 {
      LookupAt(c[1..], i - 1);
    }
  }

  /**
   * Adding `q` under `k` makes the entry the old quantity (0 when absent) plus `q`, and
   * leaves every other key's quantity as it was.
   */
  lemma {:induction false} AddedLookup(c: seq<Entry>, k: string, q: int, other: string)
    ensures Lookup(Added(c, k, q), k) == Some(Lookup(c, k).GetOr(0) + q)
    ensures other != k ==> Lookup(Added(c, k, q), other) == Lookup(c, other)
    decreases |c|
  {
    if c != [] && c[0].key != k {
      AddedLookup(c[1..], k, q, other);
    }
  }

  /** An existing key keeps its place; a new key is appended after all others. */
  lemma {:induction false} AddedKeys(c: seq<Entry>, k: string, q: int)
    ensures KeySeq(Added(c, k, q)) == if k in KeySeq(c) then KeySeq(c) else KeySeq(c) + [k]
    decreases |c|
  {
    if c != [] {
      var tail := c[1..];
      assert KeySeq(c) == [c[0].key] + KeySeq(tail);
      if c[0].key != k {
        AddedKeys(tail, k, q);
        assert Added(c, k, q) == [c[0]] + Added(tail, k, q);
        assert Added(c, k, q)[1..] == Added(tail, k, q);
        assert (k in KeySeq(c)) == (k in KeySeq(tail));
        if k in KeySeq(tail) {
          assert KeySeq(Added(c, k, q)) == [c[0].key] + KeySeq(tail);
        } else {
          assert KeySeq(Added(c, k, q)) == [c[0].key] + (KeySeq(tail) + [k]);
        }
      } else {
        assert Added(c, k, q)[1..] == tail;
        assert KeySeq(Added(c, k, q)) == [k] + KeySeq(tail);
      }
    }
  }

  lemma {:induction false} AddedWellFormed(c: seq<Entry>, k: string, q: int)
    requires WellFormed(c) && IsKey(k)
    ensures WellFormed(Added(c, k, q))
    decreases |c|
  {
    if c != [] && c[0].key != k {
      var tail := c[1..];
      AddedWellFormed(tail, k, q);
      var r := Added(c, k, q);
      assert r[1..] == Added(tail, k, q);
      forall j | 0 < j < |r|
        ensures r[0].key != r[j].key
      {
        if r[j].key != k {
          assert r[j] in tail;
        }
      }
    }
  }

  /** Adding `a` and then `b` to one key is adding `a + b`: 2 then 3 makes 5. */
  lemma {:induction false} AddedTwice(c: seq<Entry>, k: string, a: int, b: int)
    ensures Added(Added(c, k, a), k, b) == Added(c, k, a + b)
    decreases |c|
  {
    if c != [] && c[0].key != k {
      AddedTwice(c[1..], k, a, b);
    }
  }

  /**
   * Removing `k` leaves no entry for it and every other key's quantity as it was; when `k`
   * is absent the cart is returned unchanged.
   */
  lemma {:induction false} RemovedLookup(c: seq<Entry>, k: string, other: string)
    requires DistinctKeys(c)
    ensures Lookup(Removed(c, k), k).None?
    ensures other != k ==> Lookup(Removed(c, k), other) == Lookup(c, other)
    ensures Lookup(c, k).None? ==> Removed(c, k) == c
    decreases |c|
  {
    if c != [] {
      if c[0].key == k {
        LookupPresent(c[1..], k);
      } else {
        RemovedLookup(c[1..], k, other);
      }
    }
  }

  /** The keys of `ks` other than `k`, in their order. */
  function Without(ks: seq<string>, k: string): (r: seq<string>)
    ensures k !in r
    decreases |ks|
  {
    if ks == [] then [] else if ks[0] == k then Without(ks[1..], k) else [ks[0]] + Without(ks[1..], k)
  }

  lemma {:induction false} WithoutAbsent(ks: seq<string>, k: string)
    requires k !in ks
    ensures Without(ks, k) == ks
    decreases |ks|
  {
    if ks != [] {
      WithoutAbsent(ks[1..], k);
    }
  }

  /** Removal keeps the remaining keys in their iteration order. */
  lemma {:induction false} RemovedKeys(c: seq<Entry>, k: string)
    requires DistinctKeys(c)
    ensures KeySeq(Removed(c, k)) == Without(KeySeq(c), k)
    decreases |c|
  {
    if c != [] {
      var tail := c[1..];
      assert KeySeq(c) == [c[0].key] + KeySeq(tail);
      assert KeySeq(c)[1..] == KeySeq(tail);
      if c[0].key == k {
        LookupPresent(tail, k);
        RemovedLookup(c, k, k);
        WithoutAbsent(KeySeq(tail), k);
      } else {
        RemovedKeys(tail, k);
        assert Removed(c, k)[1..] == Removed(tail, k);
      }
    }
  }

  lemma {:induction false} RemovedWellFormed(c: seq<Entry>, k: string)
    requires WellFormed(c)
    ensures WellFormed(Removed(c, k))
    decreases |c|
  {
    if c != [] && c[0].key != k {
      RemovedWellFormed(c[1..], k);
      var r := Removed(c, k);
      forall j | 0 < j < |r|
        ensures r[0].key != r[j].key
      {
        assert r[j] in c[1..];
      }
    }
  }

  /** The quantity a request adds: the posted "quantity" field on POST (1 when missing), else 1. */
  function RequestedQuantity(isPost: bool, posted: Option<int>): (q: int)
    ensures !isPost ==> q == 1
    ensures isPost ==> q == posted.GetOr(1)
  {
    if isPost then posted.GetOr(1) else 1
  }

  /** The session as far as the cart is concerned: the "cart" entry, absent until first use. */
  class Session {
    var stored: Option<seq<Entry>>

    ghost predicate Valid()
      reads this
    {
      stored.Some? ==> WellFormed(stored.value)
    }

    /** The cart the session holds; an absent entry reads as the empty cart. */
    function Contents(): seq<Entry>
      reads this
    {
      stored.GetOr([])
    }

    constructor ()
      ensures Valid() && stored == None
    {
      stored := None;
    }

    /** `_get_cart`: `session.setdefault("cart", {})`. */
    method GetCart() returns (c: seq<Entry>)
      requires Valid()
      modifies this
      ensures Valid()
      ensures stored == Some(old(Contents())) && c == old(Contents())
    {
      if stored.None? {
        stored := Some([]);
      }
      c := stored.value;
    }

    /**
     * `cart_add`: fetch the cart, look the item up (a missing item aborts with not-found and
     * the cart's contents stay as they were), then add the requested quantity under
     * `str(item_id)`.
     */
    method Add(catalogue: map<nat, Models.Item>, itemId: nat, isPost: bool, posted: Option<int>)
      returns (found: bool)
      requires Valid()
      modifies this
      ensures Valid()
      ensures found <==> itemId in catalogue
      ensures stored == Some(if found then Added(old(Contents()), KeyOf(itemId), RequestedQuantity(isPost, posted))
                             else old(Contents()))
    {
      var c := GetCart();
      found := itemId in catalogue;
      if !found {
        return;
      }
      var qty := RequestedQuantity(isPost, posted);
      var key := KeyOf(itemId);
      KeyRoundTrip(itemId);
      AddedWellFormed(c, key, qty);
      stored := Some(Added(c, key, qty));
    }

    /** `cart_remove`: delete the entry for `str(item_id)` when present; otherwise do nothing. */
    method Remove(itemId: nat) returns (removed: bool)
      requires Valid()
      modifies this
      ensures Valid()
      ensures removed <==> Lookup(old(Contents()), KeyOf(itemId)).Some?
      ensures stored == Some(Removed(old(Contents()), KeyOf(itemId)))
    {
      var c := GetCart();
      var key := KeyOf(itemId);
      removed := Lookup(c, key).Some?;
      RemovedWellFormed(c, key);
      if removed {
        stored := Some(Removed(c, key));
      } else {
        RemovedLookup(c, key, key);
      }
    }

    /** Checkout's `session["cart"] = {}`. */
    method Clear()
      modifies this
      ensures Valid() && stored == Some([])
    {
      stored := Some([]);
    }
  }
}
