/** Cart line items of the storefront and the pure effect of each cart
    operation on the ordered list of items. Prices are whole paise. */
module CartItems {

  datatype Option<T> = None | Some(value: T)

  /** A catalogue entry as the backend serves it. */
  datatype Product = Product(id: int, name: string, price: int, description: string, image: string)

  /** One line of the cart. */
  datatype CartItem = CartItem(id: int, name: string, price: int, quantity: int)

  /** Index of the first id equal to `id`: `Array.prototype.find` by id. */
  function IndexOfId(ids: seq<int>, id: int): (r: Option<nat>)
    ensures r.Some? ==> r.value < |ids| && ids[r.value] == id
    ensures r.Some? ==> forall j :: 0 <= j < r.value ==> ids[j] != id
    ensures r.None? <==> forall j :: 0 <= j < |ids| ==> ids[j] != id
  {
    if ids == [] then None
    else if ids[0] == id then Some(0)
    else match IndexOfId(ids[1..], id)
      case None => None
      case Some(k) => Some(k + 1)
  }

  function ItemIds(items: seq<CartItem>): seq<int> {
    seq(|items|, j requires 0 <= j < |items| => items[j].id)
  }

  function ProductIds(products: seq<Product>): seq<int> {
    seq(|products|, j requires 0 <= j < |products| => products[j].id)
  }

  /** The cart line an id selects (`cartItems.find(item => item.id === id)`). */
  function ItemIndex(items: seq<CartItem>, id: int): (r: Option<nat>)
    ensures r.Some? ==> r.value < |items| && items[r.value].id == id
    ensures r.Some? ==> forall j :: 0 <= j < r.value ==> items[j].id != id
    ensures r.None? <==> forall j :: 0 <= j < |items| ==> items[j].id != id
  {
    var ids := ItemIds(items);
    assert forall j :: 0 <= j < |items| ==> ids[j] == items[j].id;
    IndexOfId(ids, id)
  }

  /** The catalogue product an id selects (`products.find(p => p.id === id)`). */
  function ProductIndex(products: seq<Product>, id: int): (r: Option<nat>)
    ensures r.Some? ==> r.value < |products| && products[r.value].id == id
    ensures r.Some? ==> forall j :: 0 <= j < r.value ==> products[j].id != id
    ensures r.None? <==> forall j :: 0 <= j < |products| ==> products[j].id != id
  {
    var ids := ProductIds(products);
    assert forall j :: 0 <= j < |products| ==> ids[j] == products[j].id;
    IndexOfId(ids, id)
  }

  predicate UniqueIds(items: seq<CartItem>) {
    forall i, j :: 0 <= i < j < |items| ==> items[i].id != items[j].id
  }

  predicate PositiveQuantities(items: seq<CartItem>) {
    forall i :: 0 <= i < |items| ==> items[i].quantity >= 1
  }

  /** The cart invariant: one line per product id, and no line below quantity 1. */
  predicate WellFormed(items: seq<CartItem>) {
    UniqueIds(items) && PositiveQuantities(items)
  }

  function WithQuantity(item: CartItem, quantity: int): CartItem {
    item.(quantity := quantity)
  }

  /** Add-to-cart: merge into the existing line, or append a new line of quantity 1. */
  function AddProduct(items: seq<CartItem>, p: Product): seq<CartItem> {
    match ItemIndex(items, p.id)
    case Some(i) => items[i := WithQuantity(items[i], items[i].quantity + 1)]
    case None => items + [CartItem(p.id, p.name, p.price, 1)]
  }

  /** The `+` button. */
  function Increment(items: seq<CartItem>, id: int): seq<CartItem> {
    match ItemIndex(items, id)
    case Some(i) => items[i := WithQuantity(items[i], items[i].quantity + 1)]
    case None => items
  }

  /** The `-` button: lowers the quantity only while it is above 1. */
  function Decrement(items: seq<CartItem>, id: int): seq<CartItem> {
    match ItemIndex(items, id)
    case Some(i) =>
      if items[i].quantity > 1 then items[i := WithQuantity(items[i], items[i].quantity - 1)]
      else items
    case None => items
  }

  /** The delete button: keeps the items whose id differs, in order. */
  function RemoveId(items: seq<CartItem>, id: int): seq<CartItem> {
    if items == [] then []
    else (if items[0].id == id then [] else [items[0]]) + RemoveId(items[1..], id)
  }

  /** The cart badge: sum of quantities, folded from the left like `reduce`. */
  function Count(items: seq<CartItem>): int {
    if items == [] then 0 else Count(items[..|items| - 1]) + items[|items| - 1].quantity
  }

  /** One line's share of the total. */
  function LineTotal(item: CartItem): int {
    item.price * item.quantity
  }

  /** The cart total: sum of price times quantity, accumulated from the left. */
  function Total(items: seq<CartItem>): int {
    if items == [] then 0 else Total(items[..|items| - 1]) + LineTotal(items[|items| - 1])
  }

  /** Raising or lowering a line by one moves its share by one price. */
  lemma LineTotalStep(item: CartItem, d: int)
    requires d == 1 || d == -1
    ensures LineTotal(WithQuantity(item, item.quantity + d)) == LineTotal(item) + d * item.price
  {
  }

  // ---------------------------------------------------------------------
  // Count and Total

  lemma {:induction false} CountAppend(a: seq<CartItem>, b: seq<CartItem>)
    ensures Count(a + b) == Count(a) + Count(b)
    decreases |b|
  {
    if b == [] {
      assert a + b == a;
    } else {
      var b' := b[..|b| - 1];
      assert (a + b)[..|a + b| - 1] == a + b';
      CountAppend(a, b');
    }
  }

  lemma {:induction false} TotalAppend(a: seq<CartItem>, b: seq<CartItem>)
    ensures Total(a + b) == Total(a) + Total(b)
    decreases |b|
  {
    if b == [] {
      assert a + b == a;
    } else {
      var b' := b[..|b| - 1];
      assert (a + b)[..|a + b| - 1] == a + b';
      TotalAppend(a, b');
    }
  }

  /** Replacing one line changes the count by that line's difference. */
  lemma UpdateCount(items: seq<CartItem>, i: nat, x: CartItem)
    requires i < |items|
    ensures Count(items[i := x]) == Count(items) - items[i].quantity + x.quantity
  {
    var pre, post := items[..i], items[i + 1..];
    assert items == pre + [items[i]] + post;
    assert items[i := x] == pre + [x] + post;
    CountAppend(pre + [items[i]], post);
    CountAppend(pre, [items[i]]);
    CountAppend(pre + [x], post);
    CountAppend(pre, [x]);
    assert [x][..0] == [] == [items[i]][..0];
  }

  /** Replacing one line changes the total by that line's difference. */
  lemma UpdateTotal(items: seq<CartItem>, i: nat, x: CartItem)
    requires i < |items|
    ensures Total(items[i := x]) == Total(items) - LineTotal(items[i]) + LineTotal(x)
  {
    var pre, post := items[..i], items[i + 1..];
    assert items == pre + [items[i]] + post;
    assert items[i := x] == pre + [x] + post;
    TotalAppend(pre + [items[i]], post);
    TotalAppend(pre, [items[i]]);
    TotalAppend(pre + [x], post);
    TotalAppend(pre, [x]);
    assert [x][..0] == [] == [items[i]][..0];
  }

  /** In a well-formed cart the badge is at least the number of lines, so it
      shows 0 exactly when the cart is empty. */
  lemma {:induction false} CountAtLeastLines(items: seq<CartItem>)
    requires PositiveQuantities(items)
    ensures Count(items) >= |items|
    ensures Count(items) == 0 <==> items == []
  {
    if items != [] {
      CountAtLeastLines(items[..|items| - 1]);
    }
  }

  /** Two lines (100 x 2, 50 x 1) give total 250 and count 3. */
  lemma TwoLineExample()
    ensures var items := [CartItem(1, "A", 100, 2), CartItem(2, "B", 50, 1)];
            Total(items) == 250 && Count(items) == 3
  {
  }

  // ---------------------------------------------------------------------
  // Lookups under the cart invariant

  /** With unique ids, `find` lands on the one line carrying that id. */
  lemma IndexOfUnique(items: seq<CartItem>, i: nat)
    requires UniqueIds(items) && i < |items|
    ensures ItemIndex(items, items[i].id) == Some(i)
  {
  }

  // ---------------------------------------------------------------------
  // Add to cart

  /** Adding a product already in the cart raises that line by exactly one;
      the length and every other line stay as they were. */
  lemma AddExisting(items: seq<CartItem>, p: Product, i: nat)
    requires UniqueIds(items) && i < |items| && items[i].id == p.id
    ensures var r := AddProduct(items, p);
            && |r| == |items|
            && r[i] == items[i].(quantity := items[i].quantity + 1)
            && forall j :: 0 <= j < |items| && j != i ==> r[j] == items[j]
  {
    IndexOfUnique(items, i);
  }

  /** Adding a product that is not in the cart appends one line of quantity 1. */
  lemma AddAbsent(items: seq<CartItem>, p: Product)
    requires forall j :: 0 <= j < |items| ==> items[j].id != p.id
    ensures AddProduct(items, p) == items + [CartItem(p.id, p.name, p.price, 1)]
  {
  }

  /** Adding the same product twice to a cart without it gives one line of quantity 2. */
  lemma AddTwice(items: seq<CartItem>, p: Product)
    requires forall j :: 0 <= j < |items| ==> items[j].id != p.id
    ensures AddProduct(AddProduct(items, p), p) == items + [CartItem(p.id, p.name, p.price, 2)]
  {
    var once := items + [CartItem(p.id, p.name, p.price, 1)];
    assert AddProduct(items, p) == once;
    assert once[|items|].id == p.id;
    assert ItemIndex(once, p.id) == Some(|items|);
  }

  lemma AddPreservesWellFormed(items: seq<CartItem>, p: Product)
    requires WellFormed(items)
    ensures WellFormed(AddProduct(items, p))
  {
  }

  /** Adding raises the badge by one, and the total by the merged line's
      price (or the product's price for a new line). */
  lemma AddTotals(items: seq<CartItem>, p: Product)
    ensures Count(AddProduct(items, p)) == Count(items) + 1
    ensures ItemIndex(items, p.id).None? ==> Total(AddProduct(items, p)) == Total(items) + p.price
    ensures ItemIndex(items, p.id).Some? ==>
              Total(AddProduct(items, p)) == Total(items) + items[ItemIndex(items, p.id).value].price
  {
    var idx := ItemIndex(items, p.id);
    if idx.Some? {
      var i := idx.value;
      var bumped := WithQuantity(items[i], items[i].quantity + 1);
      assert AddProduct(items, p) == items[i := bumped];
      UpdateCount(items, i, bumped);
      UpdateTotal(items, i, bumped);
      LineTotalStep(items[i], 1);
    } else {
      var line := CartItem(p.id, p.name, p.price, 1);
      assert AddProduct(items, p) == items + [line];
      CountAppend(items, [line]);
      TotalAppend(items, [line]);
      assert [line][..0] == [];
    }
  }

  // ---------------------------------------------------------------------
  // Plus and minus

  /** `+` on a line in the cart raises exactly that line by one; on an id not
      in the cart it changes nothing. */
  lemma IncrementEffect(items: seq<CartItem>, id: int)
    requires UniqueIds(items)
    ensures var r := Increment(items, id);
            && |r| == |items|
            && (forall j :: 0 <= j < |items| && items[j].id != id ==> r[j] == items[j])
            && (forall j :: 0 <= j < |items| && items[j].id == id ==>
                  r[j] == items[j].(quantity := items[j].quantity + 1))
  {
    forall j | 0 <= j < |items| && items[j].id == id
      ensures Increment(items, id)[j] == items[j].(quantity := items[j].quantity + 1)
    {
      IndexOfUnique(items, j);
    }
  }

  /** `-` on a line above 1 lowers exactly that line by one; a line at 1
      stays at 1 and is never removed; an absent id changes nothing. */
  lemma DecrementEffect(items: seq<CartItem>, id: int)
    requires UniqueIds(items)
    ensures var r := Decrement(items, id);
            && |r| == |items|
            && (forall j :: 0 <= j < |items| && items[j].id != id ==> r[j] == items[j])
            && (forall j :: 0 <= j < |items| && items[j].id == id ==>
                  r[j] == if items[j].quantity > 1 then items[j].(quantity := items[j].quantity - 1)
                          else items[j])
  {
    forall j | 0 <= j < |items| && items[j].id == id
      ensures Decrement(items, id)[j] ==
                if items[j].quantity > 1 then items[j].(quantity := items[j].quantity - 1) else items[j]
    {
      IndexOfUnique(items, j);
    }
  }

  lemma IncrementPreservesWellFormed(items: seq<CartItem>, id: int)
    requires WellFormed(items)
    ensures WellFormed(Increment(items, id))
  {
  }

  lemma DecrementPreservesWellFormed(items: seq<CartItem>, id: int)
    requires WellFormed(items)
    ensures WellFormed(Decrement(items, id))
  {
  }

  /** `+` raises the badge by one exactly when the id is in the cart. */
  lemma IncrementCount(items: seq<CartItem>, id: int)
    ensures Count(Increment(items, id)) == Count(items) + (if ItemIndex(items, id).Some? then 1 else 0)
  {
    var idx := ItemIndex(items, id);
    if idx.Some? {
      var i := idx.value;
      var bumped := WithQuantity(items[i], items[i].quantity + 1);
      assert Increment(items, id) == items[i := bumped];
      UpdateCount(items, i, bumped);
    }
  }

  /** `-` lowers the badge by one exactly when the line with that id is above 1. */
  lemma DecrementCount(items: seq<CartItem>, id: int)
    ensures Count(Decrement(items, id)) ==
              Count(items) - (if ItemIndex(items, id).Some? && items[ItemIndex(items, id).value].quantity > 1
                              then 1 else 0)
  {
    var idx := ItemIndex(items, id);
    if idx.Some? && items[idx.value].quantity > 1 {
      var i := idx.value;
      var lowered := WithQuantity(items[i], items[i].quantity - 1);
      assert Decrement(items, id) == items[i := lowered];
      UpdateCount(items, i, lowered);
    }
  }

  // ---------------------------------------------------------------------
  // Delete

  /** Delete keeps exactly the lines whose id differs and never grows the cart. */
  lemma {:induction false} RemoveKeeps(items: seq<CartItem>, id: int)
    ensures |RemoveId(items, id)| <= |items|
    ensures forall x :: x in RemoveId(items, id) <==> x in items && x.id != id
  {
    if items != [] {
      RemoveKeeps(items[1..], id);
      assert items == [items[0]] + items[1..];
    }
  }

  /** Removal distributes over concatenation, so it keeps the survivors in
      their original order. */
  lemma {:induction false} RemoveAppend(a: seq<CartItem>, b: seq<CartItem>, id: int)
    ensures RemoveId(a + b, id) == RemoveId(a, id) + RemoveId(b, id)
  {
    if a == [] {
      assert a + b == b;
    } else {
      assert (a + b)[1..] == a[1..] + b;
      RemoveAppend(a[1..], b, id);
    }
  }

  /** Removing an id that no line carries changes nothing. */
  lemma {:induction false} RemoveAbsent(items: seq<CartItem>, id: int)
    requires forall j :: 0 <= j < |items| ==> items[j].id != id
    ensures RemoveId(items, id) == items
  {
    if items != [] {
      RemoveAbsent(items[1..], id);
    }
  }

  /** With unique ids, delete drops exactly the one line with that id. */
  lemma {:induction false} RemoveExisting(items: seq<CartItem>, i: nat)
    requires UniqueIds(items) && i < |items|
    ensures RemoveId(items, items[i].id) == items[..i] + items[i + 1..]
  {
    var id := items[i].id;
    if i == 0 {
      forall j | 0 <= j < |items[1..]| ensures items[1..][j].id != id {
        assert items[1..][j] == items[j + 1];
      }
      RemoveAbsent(items[1..], id);
    } else {
      var tail := items[1..];
      assert tail[i - 1] == items[i];
      RemoveExisting(tail, i - 1);
      assert items[..i] == [items[0]] + tail[..i - 1];
      assert items[i + 1..] == tail[i..];
    }
  }

  lemma RemovePreservesWellFormed(items: seq<CartItem>, id: int)
    requires WellFormed(items)
    ensures WellFormed(RemoveId(items, id))
  {
    var idx := ItemIndex(items, id);
    if idx.None? {
      RemoveAbsent(items, id);
    } else {
      var i := idx.value;
      RemoveExisting(items, i);
      var r := items[..i] + items[i + 1..];
      forall k | 0 <= k < |r| ensures r[k] == items[if k < i then k else k + 1] { }
    }
  }

  /** Deleting a line lowers the badge by that line's quantity and the total
      by its line total. */
  lemma RemoveTotals(items: seq<CartItem>, i: nat)
    requires UniqueIds(items) && i < |items|
    ensures Count(RemoveId(items, items[i].id)) == Count(items) - items[i].quantity
    ensures Total(RemoveId(items, items[i].id)) == Total(items) - LineTotal(items[i])
  {
    var pre, post := items[..i], items[i + 1..];
    RemoveExisting(items, i);
    assert items == pre + [items[i]] + post;
    CountAppend(pre + [items[i]], post);
    CountAppend(pre, [items[i]]);
    CountAppend(pre, post);
    TotalAppend(pre + [items[i]], post);
    TotalAppend(pre, [items[i]]);
    TotalAppend(pre, post);
    assert [items[i]][..0] == [];
  }
}
