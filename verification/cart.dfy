/** The in-memory shopping cart of the storefront and its badge.

    script.js:187-214 and app.js:159-184 hold the same logic: `addToCart`
    finds the line item by id and either adds to its quantity in place or
    pushes a new record, then `updateCartCount` sums the quantities with
    `reduce` and shows, updates or removes the `.cart-count` badge. */
module Cart {
  import opened Wrappers

  /** One line item. The price is stored and never used in arithmetic. */
  datatype Item = Item(id: string, name: string, price: real, quantity: int)

  /** No two line items share an id. */
  predicate UniqueIds(items: seq<Item>)
  {
    forall i, j :: 0 <= i < j < |items| ==> items[i].id != items[j].id
  }

  /** Every line item has a quantity of at least 1. */
  predicate AllPositive(items: seq<Item>)
  {
    forall j :: 0 <= j < |items| ==> items[j].quantity >= 1
  }

  /** Sum of the quantities, folded from the left as `reduce` does. */
  function Sum(items: seq<Item>): (total: int)
    ensures AllPositive(items) ==> total >= |items|
  {
    if |items| == 0 then 0
    else
      assert AllPositive(items) ==> AllPositive(items[..|items| - 1]);
      Sum(items[..|items| - 1]) + items[|items| - 1].quantity
  }

  /** Index of the first item whose id is `id`, as `Array.prototype.find` picks it. */
  function IndexOf(items: seq<Item>, id: string): (r: Option<nat>)
    ensures r.Some? ==> r.value < |items| && items[r.value].id == id
    ensures r.Some? ==> forall j :: 0 <= j < r.value ==> items[j].id != id
    ensures r.None? <==> forall j :: 0 <= j < |items| ==> items[j].id != id
  {
    if |items| == 0 then None
    else if items[0].id == id then Some(0)
    else match IndexOf(items[1..], id)
      case None => None
      case Some(k) => Some(k + 1)
  }

  /** The cart after `addToCart(id, name, price, quantity)`. */
  function AfterAdd(items: seq<Item>, id: string, name: string, price: real, quantity: int): (r: seq<Item>)
    ensures IndexOf(r, id).Some?
    ensures |r| == if IndexOf(items, id).Some? then |items| else |items| + 1
    ensures forall j :: 0 <= j < |items| && items[j].id != id ==> r[j] == items[j]
  {
    match IndexOf(items, id)
    case Some(k) =>
      var r := items[k := items[k].(quantity := items[k].quantity + quantity)];
      assert r[k].id == id;
      r
    case None =>
      var r := items + [Item(id, name, price, quantity)];
      assert r[|items|].id == id;
      r
  }

  /** The cart after a sequence of adds, starting from `items`; each add is
      given as the `Item` record it would push. */
  function AfterAdds(items: seq<Item>, reqs: seq<Item>): seq<Item>
    decreases |reqs|
  {
    if |reqs| == 0 then items
    else
      var r := reqs[0];
      AfterAdds(AfterAdd(items, r.id, r.name, r.price, r.quantity), reqs[1..])
  }

  /** Sum of the quantities requested by a sequence of adds. */
  function RequestedQuantity(reqs: seq<Item>): int
  {
    if |reqs| == 0 then 0 else reqs[0].quantity + RequestedQuantity(reqs[1..])
  }

  /** The badge the page shows for a total: a `.cart-count` element holding the
      total when the total is positive, no element otherwise. */
  function Badge(total: int): (b: Option<int>)
    ensures b.Some? <==> total > 0
    ensures b.Some? ==> b.value == total
  {
    if total > 0 then Some(total) else None
  }

  /** `find` as the loop it performs: the first item whose id matches. */
  method Find(items: seq<Item>, id: string) returns (found: Option<nat>)
    ensures found.Some? ==> found.value < |items| && items[found.value].id == id
    ensures found.Some? ==> forall j :: 0 <= j < found.value ==> items[j].id != id
    ensures found.None? ==> forall j :: 0 <= j < |items| ==> items[j].id != id
    ensures found == IndexOf(items, id)
  {
    var i := 0;
    while i < |items|
      invariant 0 <= i <= |items|
      invariant forall j :: 0 <= j < i ==> items[j].id != id
    {
      if items[i].id == id {
        return Some(i);
      }
      i := i + 1;
    }
    return None;
  }

  /** The cart store: the line items and the badge element rendered from them. */
  class CartStore {
    var items: seq<Item>
    var badge: Option<int>

    /** Ids are unique and the badge shows the current total. */
    ghost predicate Valid()
      reads this
    {
      UniqueIds(items) && badge == Badge(Sum(items))
    }

    /** An empty cart, with no badge element on the cart icon. */
    constructor ()
      ensures Valid()
      ensures items == [] && badge == None
    {
      items := [];
      badge := None;
    }

    /** `updateCartCount`: recompute the total and create, update or remove the badge. */
    method UpdateCartCount()
      modifies this`badge
      ensures badge == Badge(Sum(items))
      ensures badge.Some? <==> Sum(items) > 0
    {
      var total := Sum(items);
      if total > 0 {
        badge := Some(total);
      } else if badge.Some? {
        badge := None;
      }
    }

    /** `addToCart`: merge into the item with the same id, or append a new one,
        then refresh the badge. */
    method AddToCart(id: string, name: string, price: real, quantity: int)
      requires Valid()
      modifies this
      ensures Valid()
      ensures items == AfterAdd(old(items), id, name, price, quantity)
      ensures Sum(items) == old(Sum(items)) + quantity
      ensures badge == Badge(old(Sum(items)) + quantity)
    {
      ghost var before := items;
      var existing := Find(items, id);
      match existing {
        case Some(k) =>
          items := items[k := items[k].(quantity := items[k].quantity + quantity)];
        case None =>
          items := items + [Item(id, name, price, quantity)];
      }
      assert items == AfterAdd(before, id, name, price, quantity);
      AddKeepsIdsUnique(before, id, name, price, quantity);
      AddGrowsTotal(before, id, name, price, quantity);
      UpdateCartCount();
    }
  }

  /** Appending an item adds its quantity to the total. */
  lemma SumAppend(items: seq<Item>, x: Item)
    ensures Sum(items + [x]) == Sum(items) + x.quantity
  {
  }

  /** Changing one item's quantity by `d` changes the sum by `d`. */
  lemma {:induction false} SumUpdate(items: seq<Item>, k: nat, d: int)
    requires k < |items|
    ensures Sum(items[k := items[k].(quantity := items[k].quantity + d)]) == Sum(items) + d
    decreases |items|
  {
    var n := |items|;
    var updated := items[k := items[k].(quantity := items[k].quantity + d)];
    if k < n - 1 {
      SumUpdate(items[..n - 1], k, d);
      assert updated[..n - 1] == items[..n - 1][k := items[k].(quantity := items[k].quantity + d)];
    } else {
      assert updated[..n - 1] == items[..n - 1];
    }
  }

  /** Adding an id already present grows that item's quantity by exactly the
      amount added, keeps its id, name and price, and changes nothing else. */
  lemma AddExistingMerges(items: seq<Item>, id: string, name: string, price: real, quantity: int, k: nat)
    requires UniqueIds(items)
    requires k < |items| && items[k].id == id
    ensures |AfterAdd(items, id, name, price, quantity)| == |items|
    ensures AfterAdd(items, id, name, price, quantity)[k]
      == Item(id, items[k].name, items[k].price, items[k].quantity + quantity)
    ensures forall j :: 0 <= j < |items| && j != k ==> AfterAdd(items, id, name, price, quantity)[j] == items[j]
  {
  }

  /** Adding a new id appends exactly one item and keeps every earlier one. */
  lemma AddNewAppends(items: seq<Item>, id: string, name: string, price: real, quantity: int)
    requires forall j :: 0 <= j < |items| ==> items[j].id != id
    ensures |AfterAdd(items, id, name, price, quantity)| == |items| + 1
    ensures AfterAdd(items, id, name, price, quantity)[..|items|] == items
    ensures AfterAdd(items, id, name, price, quantity)[|items|] == Item(id, name, price, quantity)
  {
  }

  /** `addToCart` keeps ids unique. */
  lemma AddKeepsIdsUnique(items: seq<Item>, id: string, name: string, price: real, quantity: int)
    requires UniqueIds(items)
    ensures UniqueIds(AfterAdd(items, id, name, price, quantity))
  {
  }

  /** The total grows by exactly the quantity added, merged or appended. */
  lemma AddGrowsTotal(items: seq<Item>, id: string, name: string, price: real, quantity: int)
    ensures Sum(AfterAdd(items, id, name, price, quantity)) == Sum(items) + quantity
  {
    match IndexOf(items, id)
    case Some(k) =>
      assert AfterAdd(items, id, name, price, quantity) == items[k := items[k].(quantity := items[k].quantity + quantity)];
      SumUpdate(items, k, quantity);
    case None =>
      assert AfterAdd(items, id, name, price, quantity) == items + [Item(id, name, price, quantity)];
      SumAppend(items, Item(id, name, price, quantity));
  }

  /** Merge invariant: after any sequence of adds the total is the old total
      plus every quantity passed, and ids stay unique. */
  lemma {:induction false} AddsTotal(items: seq<Item>, reqs: seq<Item>)
    requires UniqueIds(items)
    ensures Sum(AfterAdds(items, reqs)) == Sum(items) + RequestedQuantity(reqs)
    ensures UniqueIds(AfterAdds(items, reqs))
    decreases |reqs|
  {
    if |reqs| > 0 {
      var r := reqs[0];
      AddGrowsTotal(items, r.id, r.name, r.price, r.quantity);
      AddKeepsIdsUnique(items, r.id, r.name, r.price, r.quantity);
      AddsTotal(AfterAdd(items, r.id, r.name, r.price, r.quantity), reqs[1..]);
    }
  }

  /** When every quantity is at least 1, the badge is shown exactly when the
      cart is not empty. */
  lemma {:induction false} BadgeIffNonEmpty(items: seq<Item>)
    requires forall j :: 0 <= j < |items| ==> items[j].quantity >= 1
    ensures Sum(items) >= |items|
    ensures Badge(Sum(items)).Some? <==> |items| > 0
  {
    if |items| > 0 {
      BadgeIffNonEmpty(items[..|items| - 1]);
    }
  }
}
