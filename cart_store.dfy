/**
  The client-side shopping-cart store of the Memoirs Vietnam storefront.

  The store holds an ordered list of cart entries and offers four operations:
  adding an item (merged by product id), removing every entry of an id,
  emptying the cart, and the cart total (the sum of price times quantity).

  The list operations are first given as functions on sequences (IndexOf,
  Added, Removed, Sum) with their properties proved as lemmas; the class
  CartStore then keeps the list in a mutable field and its methods are
  proved against those functions.
 */
module Cart {

  datatype Option<+T> = None | Some(value: T)

  /** One cart entry: a product id, its display name, its unit price in whole
      dong, the quantity ordered and an optional image URL. */
  datatype CartItem = CartItem(id: string, name: string, price: int, qty: int, image: Option<string>)

  /** What one entry contributes to the total. */
  function LineTotal(i: CartItem): int {
    i.price * i.qty
  }

  /** The set of product ids present in a list of entries. */
  function Ids(s: seq<CartItem>): set<string> {
    set i | 0 <= i < |s| :: s[i].id
  }

  /** No two entries share a product id. */
  ghost predicate DistinctIds(s: seq<CartItem>) {
    forall i, j :: 0 <= i < j < |s| ==> s[i].id != s[j].id
  }

  /** `k` is the position of the first entry whose id is `id`. */
  ghost predicate FirstWithId(s: seq<CartItem>, id: string, k: int) {
    0 <= k < |s| && s[k].id == id && forall j :: 0 <= j < k ==> s[j].id != id
  }

  // ---------------------------------------------------------------------------
  // Finding an entry (Array.prototype.find on the id)
  // ---------------------------------------------------------------------------

  /** The position of the first entry with the given id, or None when there is
      no such entry. */
  function IndexOf(s: seq<CartItem>, id: string): (r: Option<nat>)
    ensures r.Some? ==> FirstWithId(s, id, r.value)
    ensures r.None? <==> id !in Ids(s)
  {
    if s == [] then None
    else if s[0].id == id then Some(0)
    else
      match IndexOf(s[1..], id)
      case None =>
        assert Ids(s) == {s[0].id} + Ids(s[1..]) by { IdsCons(s); }
        None
      case Some(k) => Some(k + 1)
  }

  /** The ids of a non-empty list: its first entry's id and the ids of the rest. */
  lemma IdsCons(s: seq<CartItem>)
    requires s != []
    ensures Ids(s) == {s[0].id} + Ids(s[1..])
  {
  }

  // ---------------------------------------------------------------------------
  // Adding an item
  // ---------------------------------------------------------------------------

  /** The list after adding `item`: when an entry with the same id exists, the
      first such entry gets its quantity increased by `item.qty`; otherwise
      `item` is appended. */
  function Added(s: seq<CartItem>, item: CartItem): seq<CartItem> {
    match IndexOf(s, item.id)
    case None => s + [item]
    case Some(k) => s[k := s[k].(qty := s[k].qty + item.qty)]
  }

  /** What adding does to the list. A new id is appended as the last entry
      after the unchanged old ones. An id already present leaves the length
      unchanged; only its first entry changes, and only in its quantity, which
      grows by `item.qty` (name, price and image stay). Either way the ids
      present grow by exactly `item.id`, and distinct ids stay distinct. */
  lemma AddedSpec(s: seq<CartItem>, item: CartItem)
    ensures item.id !in Ids(s) ==>
              var r := Added(s, item);
              |r| == |s| + 1 && r[..|s|] == s && r[|s|] == item
    ensures forall k :: FirstWithId(s, item.id, k) ==>
              var r := Added(s, item);
              |r| == |s| && r[k] == s[k].(qty := s[k].qty + item.qty) &&
              forall j :: 0 <= j < |s| && j != k ==> r[j] == s[j]
    ensures Ids(Added(s, item)) == Ids(s) + {item.id}
    ensures DistinctIds(s) ==> DistinctIds(Added(s, item))
  {
  }

  // ---------------------------------------------------------------------------
  // Removing an id (Array.prototype.filter on the id)
  // ---------------------------------------------------------------------------

  /** The entries whose id differs from `id`, in their original order. */
  function Removed(s: seq<CartItem>, id: string): seq<CartItem> {
    if s == [] then []
    else if s[0].id == id then Removed(s[1..], id)
    else [s[0]] + Removed(s[1..], id)
  }

  /** What removing keeps: exactly the entries whose id differs from `id`, so
      no entry with that id is left and every other id is still present; the
      list never grows, and distinct ids stay distinct. */
  lemma {:induction false} RemovedSpec(s: seq<CartItem>, id: string)
    ensures forall x :: x in Removed(s, id) <==> x in s && x.id != id
    ensures Ids(Removed(s, id)) == Ids(s) - {id}
    ensures |Removed(s, id)| <= |s|
    ensures DistinctIds(s) ==> DistinctIds(Removed(s, id))
  {
    if s != [] {
      var rest := Removed(s[1..], id);
      RemovedSpec(s[1..], id);
      IdsCons(s);
      assert forall x :: x in s <==> x == s[0] || x in s[1..];
      if DistinctIds(s) {
        assert DistinctIds(s[1..]) by {
          forall i, j | 0 <= i < j < |s[1..]| ensures s[1..][i].id != s[1..][j].id {
            assert s[1..][i] == s[i + 1] && s[1..][j] == s[j + 1];
          }
        }
      }
      if s[0].id != id {
        var r := [s[0]] + rest;
        assert r[1..] == rest;
        IdsCons(r);
      }
    }
  }

  /** The entries whose id is `id`: exactly those that removing `id` drops. */
  function WithId(s: seq<CartItem>, id: string): (r: seq<CartItem>)
    ensures forall x :: x in r <==> x in s && x.id == id
    ensures id !in Ids(s) ==> r == []
  {
    if s == [] then []
    else
      var rest := WithId(s[1..], id);
      IdsCons(s);
      assert forall x :: x in s <==> x == s[0] || x in s[1..];
      if s[0].id == id then [s[0]] + rest else rest
  }

  /** Removing is a filter: it distributes over concatenation, so the kept
      entries stay in their original relative order. */
  lemma {:induction false} RemovedConcat(a: seq<CartItem>, b: seq<CartItem>, id: string)
    ensures Removed(a + b, id) == Removed(a, id) + Removed(b, id)
  {
    if a == [] {
      assert a + b == b;
    } else {
      assert (a + b)[0] == a[0];
      assert (a + b)[1..] == a[1..] + b;
      RemovedConcat(a[1..], b, id);
    }
  }

  /** Removing an id no entry has leaves the list unchanged, and only then. */
  lemma {:induction false} RemovedAbsent(s: seq<CartItem>, id: string)
    ensures Removed(s, id) == s <==> id !in Ids(s)
  {
    RemovedSpec(s, id);
    if s != [] {
      IdsCons(s);
      RemovedAbsent(s[1..], id);
      if id !in Ids(s) {
        assert s == [s[0]] + s[1..];
      }
    }
  }

  /** Removing the same id twice gives the same list as removing it once. */
  lemma {:induction false} RemovedIdempotent(s: seq<CartItem>, id: string)
    ensures Removed(Removed(s, id), id) == Removed(s, id)
  {
    RemovedSpec(s, id);
    RemovedAbsent(Removed(s, id), id);
  }

  /** Removing one id and then another gives the same list in either order. */
  lemma {:induction false} RemovedCommute(s: seq<CartItem>, a: string, b: string)
    ensures Removed(Removed(s, a), b) == Removed(Removed(s, b), a)
  {
    if s != [] {
      RemovedCommute(s[1..], a, b);
      assert s == [s[0]] + s[1..];
      RemovedConcat([s[0]], s[1..], a);
      RemovedConcat([s[0]], s[1..], b);
      RemovedConcat(Removed([s[0]], a), Removed(s[1..], a), b);
      RemovedConcat(Removed([s[0]], b), Removed(s[1..], b), a);
    }
  }

  /** Replacing an entry by one with the same id does not change what removing
      that id leaves. */
  lemma RemovedUpdateSameId(s: seq<CartItem>, k: nat, x: CartItem)
    requires k < |s| && s[k].id == x.id
    ensures Removed(s[k := x], x.id) == Removed(s, x.id)
  {
    assert s == s[..k] + ([s[k]] + s[k + 1..]);
    assert s[k := x] == s[..k] + ([x] + s[k + 1..]);
    RemovedConcat(s[..k], [s[k]] + s[k + 1..], x.id);
    RemovedConcat(s[..k], [x] + s[k + 1..], x.id);
    RemovedConcat([s[k]], s[k + 1..], x.id);
    RemovedConcat([x], s[k + 1..], x.id);
  }

  /** Removing an id undoes adding an item with that id. */
  lemma AddedThenRemoved(s: seq<CartItem>, item: CartItem)
    ensures Removed(Added(s, item), item.id) == Removed(s, item.id)
  {
    match IndexOf(s, item.id)
    case None =>
      RemovedConcat(s, [item], item.id);
    case Some(k) =>
      RemovedUpdateSameId(s, k, s[k].(qty := s[k].qty + item.qty));
  }

  /** With distinct ids, the entries of an id present in the cart are just its
      one entry. */
  lemma {:induction false} WithIdDistinct(s: seq<CartItem>, k: nat)
    requires DistinctIds(s) && k < |s|
    ensures WithId(s, s[k].id) == [s[k]]
  {
    var t := s[1..];
    if k == 0 {
      assert s[0].id !in Ids(t);
    } else {
      assert t[k - 1] == s[k] && s[0].id != s[k].id;
      assert DistinctIds(t) by {
        forall i, j | 0 <= i < j < |t| ensures t[i].id != t[j].id {
          assert t[i] == s[i + 1] && t[j] == s[j + 1];
        }
      }
      WithIdDistinct(t, k - 1);
    }
  }

  // ---------------------------------------------------------------------------
  // The total (Array.prototype.reduce from the left, starting at 0)
  // ---------------------------------------------------------------------------

  /** The sum of price times quantity over the entries, folded from the left as
      `reduce` does. */
  function Sum(s: seq<CartItem>): int {
    if s == [] then 0 else Sum(s[..|s| - 1]) + LineTotal(s[|s| - 1])
  }

  /** A cart whose prices and quantities are all non-negative has a
      non-negative total. */
  lemma {:induction false} SumNonNegative(s: seq<CartItem>)
    requires forall i :: 0 <= i < |s| ==> s[i].price >= 0 && s[i].qty >= 0
    ensures Sum(s) >= 0
  {
    if s != [] {
      SumNonNegative(s[..|s| - 1]);
    }
  }

  /** The total is additive over concatenation. */
  lemma {:induction false} SumConcat(a: seq<CartItem>, b: seq<CartItem>)
    ensures Sum(a + b) == Sum(a) + Sum(b)
  {
    if b == [] {
      assert a + b == a;
    } else {
      var c := a + b;
      assert c[..|c| - 1] == a + b[..|b| - 1];
      assert c[|c| - 1] == b[|b| - 1];
      SumConcat(a, b[..|b| - 1]);
    }
  }

  /** Replacing one entry changes the total by the difference of the two
      entries' contributions. */
  lemma SumUpdate(s: seq<CartItem>, k: nat, x: CartItem)
    requires k < |s|
    ensures Sum(s[k := x]) == Sum(s) - LineTotal(s[k]) + LineTotal(x)
  {
    assert s == s[..k] + [s[k]] + s[k + 1..];
    assert s[k := x] == s[..k] + [x] + s[k + 1..];
    SumConcat(s[..k] + [s[k]], s[k + 1..]);
    SumConcat(s[..k], [s[k]]);
    SumConcat(s[..k] + [x], s[k + 1..]);
    SumConcat(s[..k], [x]);
    assert [s[k]][..0] == [] && [x][..0] == [];
  }

  /** The total after adding `item` rises by `item.price * item.qty` when the id
      was new, and by the existing entry's price times `item.qty` otherwise. */
  lemma SumAdded(s: seq<CartItem>, item: CartItem)
    ensures Sum(Added(s, item)) == Sum(s) + match IndexOf(s, item.id)
      case None => item.price * item.qty
      case Some(k) => s[k].price * item.qty
  {
    match IndexOf(s, item.id)
    case None =>
      var r := s + [item];
      assert r[..|r| - 1] == s;
    case Some(k) =>
      var x := s[k].(qty := s[k].qty + item.qty);
      SumUpdate(s, k, x);
      assert s[k].price * (s[k].qty + item.qty) == s[k].price * s[k].qty + s[k].price * item.qty;
  }

  /** Removing an id lowers the total by exactly the contribution of the
      entries that carried it. */
  lemma {:induction false} SumRemoved(s: seq<CartItem>, id: string)
    ensures Sum(s) == Sum(Removed(s, id)) + Sum(WithId(s, id))
  {
    if s != [] {
      SumRemoved(s[1..], id);
      assert s == [s[0]] + s[1..];
      SumConcat([s[0]], s[1..]);
      SumConcat([s[0]], Removed(s[1..], id));
      SumConcat([s[0]], WithId(s[1..], id));
    }
  }

  /** With distinct ids, removing the id of entry `k` lowers the total by that
      entry's price times quantity. */
  lemma SumRemovedDistinct(s: seq<CartItem>, k: nat)
    requires DistinctIds(s) && k < |s|
    ensures Sum(Removed(s, s[k].id)) == Sum(s) - s[k].price * s[k].qty
  {
    SumRemoved(s, s[k].id);
    WithIdDistinct(s, k);
    assert [s[k]][..0] == [];
  }

  // ---------------------------------------------------------------------------
  // The store
  // ---------------------------------------------------------------------------

  /** The cart store: one mutable list of entries. */
  class CartStore {
    var items: seq<CartItem>

    /** A new store holds an empty cart. */
    constructor ()
      ensures items == [] && Sum(items) == 0
    {
      items := [];
    }

    /** The cart total: `reduce` walks the entries from the first, adding
        each entry's price times quantity to an accumulator that starts at 0. */
    method Total() returns (t: int)
      ensures t == Sum(items)
    {
      t := 0;
      var i := 0;
      while i < |items|
        invariant 0 <= i <= |items|
        invariant t == Sum(items[..i])
      {
        assert items[..i + 1][..i] == items[..i];
        t := t + items[i].price * items[i].qty;
        i := i + 1;
      }
      assert items[..i] == items;
    }

    /** Adds `item`, merging it into the first entry with the same id. */
    method AddItem(item: CartItem)
      modifies this
      ensures items == Added(old(items), item)
      ensures Ids(items) == Ids(old(items)) + {item.id}
      ensures DistinctIds(old(items)) ==> DistinctIds(items)
      ensures Sum(items) == Sum(old(items)) + match IndexOf(old(items), item.id)
        case None => item.price * item.qty
        case Some(k) => old(items)[k].price * item.qty
    {
      var existing := IndexOf(items, item.id);
      match existing {
        case Some(k) =>
          items := items[k := items[k].(qty := items[k].qty + item.qty)];
        case None =>
          items := items + [item];
      }
      assert items == Added(old(items), item);
      SumAdded(old(items), item);
      AddedSpec(old(items), item);
    }

    /** Drops every entry whose id is `id`. */
    method RemoveItem(id: string)
      modifies this
      ensures items == Removed(old(items), id)
      ensures id !in Ids(items)
      ensures Sum(items) == Sum(old(items)) - Sum(WithId(old(items), id))
    {
      SumRemoved(items, id);
      RemovedSpec(items, id);
      items := Removed(items, id);
    }

    /** Empties the cart. */
    method ClearCart()
      modifies this
      ensures items == [] && Sum(items) == 0
    {
      items := [];
    }
  }
}
