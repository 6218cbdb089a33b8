/** Cart lines and the three updaters the shop page hands to its state
    setter (src/pages/index.js, lines 47-97). Each updater receives the
    previous cart and returns the next one; none of them mutates a list. */
module ShoppingCart {
  import opened Catalogue

  datatype Option<T> = None | Some(value: T)

  /** A cart line: the product's fields spread together with a quantity. */
  datatype Item = Item(id: int, name: string, price: int, quantity: int)

  /** `{ ...product, quantity }` */
  function ItemOf(p: Product, quantity: int): Item
  {
    Item(p.id, p.name, p.price, quantity)
  }

  /** The product a line was made from. */
  function ProductOf(x: Item): Product
  {
    Product(x.id, x.name, x.price)
  }

  /** Some line of the cart is for product `id`. */
  predicate Contains(c: seq<Item>, id: int)
  {
    exists i :: 0 <= i < |c| && c[i].id == id
  }

  /** Two carts list the same products in the same order. */
  predicate SameIds(a: seq<Item>, b: seq<Item>)
  {
    |a| == |b| && forall i :: 0 <= i < |a| ==> a[i].id == b[i].id
  }

  // ---------------------------------------------------------------------
  // The array methods the updaters are built from
  // ---------------------------------------------------------------------

  /** `prev.findIndex(x => x.id === id)`: the index of the first line for
      `id`, or -1 when there is none. */
  function FindIndex(c: seq<Item>, id: int): (k: int)
    ensures -1 <= k < |c|
    ensures k == -1 <==> !Contains(c, id)
    ensures k >= 0 ==> c[k].id == id && forall j :: 0 <= j < k ==> c[j].id != id
  {
    if c == [] then -1
    else if c[0].id == id then 0
    else
      var k := FindIndex(c[1..], id);
      assert forall j :: 0 < j < |c| ==> c[j] == c[1..][j - 1];
      if k == -1 then -1 else k + 1
  }

  /** `prev.find(x => x.id === id)`: the first line for `id`, if any. */
  function Find(c: seq<Item>, id: int): (r: Option<Item>)
    ensures r.Some? <==> Contains(c, id)
    ensures r.Some? ==> r.value in c && r.value.id == id
    ensures r.Some? ==> exists k :: 0 <= k < |c| && r.value == c[k] && forall j :: 0 <= j < k ==> c[j].id != id
  {
    var k := FindIndex(c, id);
    if k == -1 then None else Some(c[k])
  }

  /** `prev.filter(x => x.id !== id)`: the cart without the lines for `id`,
      the others kept in their order. */
  function Without(c: seq<Item>, id: int): (r: seq<Item>)
    ensures |r| <= |c|
    ensures forall x :: x in r <==> x in c && x.id != id
    ensures !Contains(r, id)
    ensures !Contains(c, id) ==> r == c
  {
    if c == [] then []
    else
      assert forall j :: 0 < j < |c| ==> c[j] == c[1..][j - 1];
      if c[0].id == id then Without(c[1..], id)
      else [c[0]] + Without(c[1..], id)
  }

  /** `prev.map(x => x.id === id ? { ...x, quantity: q } : x)` */
  function SetAll(c: seq<Item>, id: int, q: int): (r: seq<Item>)
    ensures SameIds(r, c)
    ensures forall i :: 0 <= i < |c| ==> r[i] == if c[i].id == id then c[i].(quantity := q) else c[i]
  {
    seq(|c|, i requires 0 <= i < |c| => if c[i].id == id then c[i].(quantity := q) else c[i])
  }

  /** `prev.map(x => x.id === id ? { ...x, quantity: x.quantity - 1 } : x)` */
  function DecrementAll(c: seq<Item>, id: int): (r: seq<Item>)
    ensures SameIds(r, c)
    ensures forall i :: 0 <= i < |c| ==>
      r[i] == if c[i].id == id then c[i].(quantity := c[i].quantity - 1) else c[i]
  {
    seq(|c|, i requires 0 <= i < |c| =>
      if c[i].id == id then c[i].(quantity := c[i].quantity - 1) else c[i])
  }

  /** How many lines the cart holds for `id`. */
  function CountId(c: seq<Item>, id: int): (n: nat)
    ensures n <= |c|
  {
    if c == [] then 0 else (if c[0].id == id then 1 else 0) + CountId(c[1..], id)
  }

  // ---------------------------------------------------------------------
  // The cart invariant
  // ---------------------------------------------------------------------

  /** No product has two lines. */
  predicate UniqueIds(c: seq<Item>)
  {
    forall i, j :: 0 <= i < j < |c| ==> c[i].id != c[j].id
  }

  /** A line with quantity 0 or less is never kept. */
  predicate PositiveQuantities(c: seq<Item>)
  {
    forall i :: 0 <= i < |c| ==> c[i].quantity >= 1
  }

  predicate WellFormed(c: seq<Item>)
  {
    UniqueIds(c) && PositiveQuantities(c)
  }

  /** The quantity of product `id` in the cart: that of its first line, or
      0 when it has none (`prev.find(...)?.quantity`, absent read as 0). */
  function QuantityOf(c: seq<Item>, id: int): (n: int)
    ensures !Contains(c, id) ==> n == 0
    ensures PositiveQuantities(c) ==> (n >= 1 <==> Contains(c, id))
  {
    match Find(c, id)
    case None => 0
    case Some(x) => x.quantity
  }

  // ---------------------------------------------------------------------
  // The updaters
  // ---------------------------------------------------------------------

  /** onChangeProductQuantity: a typed quantity below 1 is read as 0 and
      deletes the product's lines; any other quantity overwrites the
      quantity of the lines already there. An absent product is never
      inserted. */
  function SetQuantity(c: seq<Item>, id: int, quantity: int): (r: seq<Item>)
    ensures |r| <= |c|
    ensures forall x :: x in r ==> x in c || (x.id == id && x.quantity == quantity)
    ensures quantity < 1 ==> r == Without(c, id)
    ensures quantity >= 1 ==> SameIds(r, c)
    ensures quantity >= 1 ==> forall i :: 0 <= i < |c| ==>
      r[i] == if c[i].id == id then c[i].(quantity := quantity) else c[i]
  {
    var q := if quantity < 1 then 0 else quantity;
    if q == 0 then Without(c, id) else SetAll(c, id, q)
  }

  /** addProductToCart: the first line for the product gains one unit; a
      product not yet in the cart is appended with quantity 1. */
  function Add(c: seq<Item>, p: Product): (r: seq<Item>)
    ensures !Contains(c, p.id) ==> r == c + [ItemOf(p, 1)]
    ensures Contains(c, p.id) ==> SameIds(r, c)
    ensures Contains(c, p.id) ==> forall i :: 0 <= i < |c| ==>
      r[i] == if i == FindIndex(c, p.id) then c[i].(quantity := c[i].quantity + 1) else c[i]
    ensures forall i :: 0 <= i < |c| && c[i].id != p.id ==> r[i] == c[i]
    ensures QuantityOf(r, p.id) == QuantityOf(c, p.id) + 1
  {
    var k := FindIndex(c, p.id);
    if k != -1 then
      var r := c[k := c[k].(quantity := c[k].quantity + 1)];
      r
    else
      var r := c + [ItemOf(p, 1)];
      assert r[|c|].id == p.id;
      r
  }

  /** removeProductToCart: a product whose (first) line holds exactly one
      unit loses its lines; otherwise every line for it loses one unit,
      which leaves the cart as it was when the product is absent. */
  function Remove(c: seq<Item>, id: int): (r: seq<Item>)
    ensures !Contains(c, id) ==> r == c
    ensures QuantityOf(c, id) == 1 ==> r == Without(c, id)
    ensures QuantityOf(c, id) != 1 ==> SameIds(r, c)
    ensures QuantityOf(c, id) != 1 ==> forall i :: 0 <= i < |c| && c[i].id == id ==>
      r[i] == c[i].(quantity := c[i].quantity - 1)
    ensures forall i :: 0 <= i < |c| && c[i].id != id && QuantityOf(c, id) != 1 ==> r[i] == c[i]
  {
    var found := Find(c, id);
    if found.Some? && found.value.quantity == 1 then Without(c, id)
    else
      assert !Contains(c, id) ==> DecrementAll(c, id) == c;
      DecrementAll(c, id)
  }

  // ---------------------------------------------------------------------
  // The subtotal
  // ---------------------------------------------------------------------

  /** What one line adds to the bill. */
  function LineValue(x: Item): int
  {
    x.price * x.quantity
  }

  /** Reference definition: the sum of price times quantity over the lines. */
  function Subtotal(c: seq<Item>): int
  {
    if c == [] then 0 else LineValue(c[0]) + Subtotal(c[1..])
  }

  /** `cartItems.reduce((sum, x) => sum + x.price * x.quantity, acc)`,
      folding from the left. */
  function Reduce(acc: int, c: seq<Item>): (r: int)
    ensures r == acc + Subtotal(c)
    decreases |c|
  {
    if c == [] then acc else Reduce(acc + LineValue(c[0]), c[1..])
  }

  /** totalValue */
  function TotalValue(c: seq<Item>): (r: int)
    ensures r == Subtotal(c)
  {
    Reduce(0, c)
  }
}
