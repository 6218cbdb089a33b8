/** What the updaters and the subtotal promise beyond a single call: the
    cart invariant is kept, only the targeted product changes, adding then
    removing a product undoes the add, and how the subtotal moves. */
module CartProperties {
  import opened Catalogue
  import opened ShoppingCart

  // ---------------------------------------------------------------------
  // Sequence facts about the helpers
  // ---------------------------------------------------------------------

  /** Filtering distributes over concatenation. */
  lemma {:induction false} WithoutAppend(a: seq<Item>, b: seq<Item>, id: int)
    ensures Without(a + b, id) == Without(a, id) + Without(b, id)
  {
    if a == [] {
      assert a + b == b;
    } else {
      var ab := a + b;
      assert ab[0] == a[0] && ab[1..] == a[1..] + b;
      WithoutAppend(a[1..], b, id);
      var wa, wb := Without(a[1..], id), Without(b, id);
      if a[0].id != id {
        assert Without(ab, id) == [a[0]] + (wa + wb);
        assert [a[0]] + (wa + wb) == ([a[0]] + wa) + wb;
      }
    }
  }

  /** Filtering keeps a cart without duplicate ids free of them. */
  lemma {:induction false} WithoutUnique(c: seq<Item>, id: int)
    requires UniqueIds(c)
    ensures UniqueIds(Without(c, id))
  {
    if c != [] {
      WithoutUnique(c[1..], id);
      var w := Without(c[1..], id);
      if c[0].id != id {
        forall j | 0 <= j < |w| ensures w[j].id != c[0].id {
          assert w[j] in c[1..];
          var k :| 0 <= k < |c[1..]| && c[1..][k] == w[j];
          assert c[k + 1] == w[j];
        }
      }
    }
  }

  /** Two carts with the same ids in the same order find the same index. */
  lemma SameIdsSameIndex(a: seq<Item>, b: seq<Item>, id: int)
    requires SameIds(a, b)
    ensures FindIndex(a, id) == FindIndex(b, id)
  {
  }

  /** In a cart without duplicate ids, the line at `i` is the one found. */
  lemma FoundIsOnlyLine(c: seq<Item>, i: int)
    requires UniqueIds(c) && 0 <= i < |c|
    ensures FindIndex(c, c[i].id) == i
    ensures Find(c, c[i].id) == Some(c[i])
  {
  }

  /** `find` looks at the first line, then at the rest. */
  lemma FindCons(c: seq<Item>, id: int)
    requires c != []
    ensures Find(c, id) == if c[0].id == id then Some(c[0]) else Find(c[1..], id)
  {
  }

  /** Filtering one product out leaves every other product's quantity. */
  lemma {:induction false} WithoutKeepsOthers(c: seq<Item>, id: int, other: int)
    requires other != id
    ensures Find(Without(c, id), other) == Find(c, other)
  {
    if c != [] {
      WithoutKeepsOthers(c[1..], id, other);
      FindCons(c, other);
      var w := Without(c[1..], id);
      if c[0].id != id {
        assert ([c[0]] + w)[1..] == w;
        FindCons([c[0]] + w, other);
      }
    }
  }

  /** A line appended for a different product hides nothing that was found. */
  lemma AppendKeepsFind(c: seq<Item>, x: Item, id: int)
    requires x.id != id
    ensures Find(c + [x], id) == Find(c, id)
  {
    var r := c + [x];
    assert forall j :: 0 <= j < |c| ==> r[j] == c[j];
    assert FindIndex(r, id) == FindIndex(c, id);
  }

  /** Two carts with the same ids where the lines for `other` are equal
      give `other` the same quantity. */
  lemma SameIdsSameFind(a: seq<Item>, b: seq<Item>, other: int)
    requires SameIds(a, b)
    requires forall i :: 0 <= i < |a| && a[i].id == other ==> a[i] == b[i]
    ensures Find(a, other) == Find(b, other)
  {
    SameIdsSameIndex(a, b, other);
  }

  /** With no duplicate ids, a product has one line or none. */
  lemma {:induction false} CountUnique(c: seq<Item>, id: int)
    requires UniqueIds(c)
    ensures CountId(c, id) == if Contains(c, id) then 1 else 0
  {
    if c != [] {
      CountUnique(c[1..], id);
      assert forall j :: 0 < j < |c| ==> c[j] == c[1..][j - 1];
    }
  }

  // ---------------------------------------------------------------------
  // The cart invariant is kept by every updater
  // ---------------------------------------------------------------------

  lemma SetQuantityWellFormed(c: seq<Item>, id: int, quantity: int)
    requires WellFormed(c)
    ensures WellFormed(SetQuantity(c, id, quantity))
  {
    if quantity < 1 {
      WithoutUnique(c, id);
    } else {
      var r := SetQuantity(c, id, quantity);
    }
  }

  lemma AddWellFormed(c: seq<Item>, p: Product)
    requires WellFormed(c)
    ensures WellFormed(Add(c, p))
  {
    var r := Add(c, p);
    if Contains(c, p.id) {
      var k := FindIndex(c, p.id);
      forall i | 0 <= i < |r| ensures r[i].quantity >= 1 {
        if i != k { FoundIsOnlyLine(c, i); }
      }
    }
  }

  lemma RemoveWellFormed(c: seq<Item>, id: int)
    requires WellFormed(c)
    ensures WellFormed(Remove(c, id))
  {
    var r := Remove(c, id);
    if QuantityOf(c, id) == 1 {
      WithoutUnique(c, id);
      assert r == Without(c, id);
    } else {
      forall i | 0 <= i < |r| && c[i].id == id ensures r[i].quantity >= 1 {
        FoundIsOnlyLine(c, i);
      }
    }
  }

  // ---------------------------------------------------------------------
  // Only the targeted product changes
  // ---------------------------------------------------------------------

  /** Adding gives the product one more unit (1 when it was absent) and
      leaves every other product's quantity alone. */
  lemma AddQuantities(c: seq<Item>, p: Product, other: int)
    requires other != p.id
    ensures QuantityOf(Add(c, p), p.id) == QuantityOf(c, p.id) + 1
    ensures QuantityOf(Add(c, p), other) == QuantityOf(c, other)
  {
    if Contains(c, p.id) {
      SameIdsSameFind(Add(c, p), c, other);
    } else {
      AppendKeepsFind(c, ItemOf(p, 1), other);
    }
  }

  /** In a cart without duplicate ids, adding a product already there
      raises that product's line by exactly one unit and changes nothing
      else: not the length, not the order, not another line. */
  lemma AddPresent(c: seq<Item>, p: Product)
    requires UniqueIds(c) && Contains(c, p.id)
    ensures |Add(c, p)| == |c|
    ensures forall i :: 0 <= i < |c| ==>
      Add(c, p)[i] == if c[i].id == p.id then c[i].(quantity := c[i].quantity + 1) else c[i]
  {
    var k := FindIndex(c, p.id);
    forall i | 0 <= i < |c| && c[i].id == p.id ensures i == k {
      FoundIsOnlyLine(c, i);
    }
  }

  /** In a well-formed cart, removing takes one unit off the product (never
      going below 0) and leaves every other product's quantity alone. */
  lemma RemoveQuantities(c: seq<Item>, id: int, other: int)
    requires WellFormed(c) && other != id
    ensures QuantityOf(Remove(c, id), id) == if QuantityOf(c, id) == 0 then 0 else QuantityOf(c, id) - 1
    ensures QuantityOf(Remove(c, id), other) == QuantityOf(c, other)
  {
    var r := Remove(c, id);
    if QuantityOf(c, id) == 1 {
      assert r == Without(c, id);
      WithoutKeepsOthers(c, id, other);
    } else {
      SameIdsSameFind(r, c, other);
      SameIdsSameIndex(r, c, id);
    }
  }

  /** In a cart without duplicate ids, setting a quantity leaves the product
      with that quantity, or with none when it is below 1 or the product is
      absent. */
  lemma SetQuantityOwnQuantity(c: seq<Item>, id: int, quantity: int)
    requires UniqueIds(c)
    ensures QuantityOf(SetQuantity(c, id, quantity), id) ==
      if quantity < 1 || !Contains(c, id) then 0 else quantity
  {
    if quantity >= 1 {
      SameIdsSameIndex(SetQuantity(c, id, quantity), c, id);
    }
  }

  /** Setting one product's quantity leaves every other product's quantity. */
  lemma SetQuantityOtherQuantities(c: seq<Item>, id: int, quantity: int, other: int)
    requires other != id
    ensures QuantityOf(SetQuantity(c, id, quantity), other) == QuantityOf(c, other)
  {
    if quantity < 1 {
      WithoutKeepsOthers(c, id, other);
    } else {
      SameIdsSameFind(SetQuantity(c, id, quantity), c, other);
    }
  }

  // ---------------------------------------------------------------------
  // Add then remove
  // ---------------------------------------------------------------------

  /** Adding a product and then removing it gives back the cart exactly,
      whether the product was in it or not. */
  lemma AddThenRemove(c: seq<Item>, p: Product)
    requires WellFormed(c)
    ensures Remove(Add(c, p), p.id) == c
  {
    var a := Add(c, p);
    if Contains(c, p.id) {
      var k := FindIndex(c, p.id);
      SameIdsSameIndex(a, c, p.id);
      assert QuantityOf(a, p.id) == c[k].quantity + 1 >= 2;
      var r := Remove(a, p.id);
      forall i | 0 <= i < |c| ensures r[i] == c[i] {
        if c[i].id == p.id { FoundIsOnlyLine(c, i); }
      }
    } else {
      var line := ItemOf(p, 1);
      assert a[|c|].id == p.id;
      assert FindIndex(a, p.id) == |c|;
      WithoutAppend(c, [line], p.id);
      assert Without([line], p.id) == [];
    }
  }

  /** Removing a product commutes with appending a line of another
      product. */
  lemma RemoveAppendOther(c: seq<Item>, x: Item, id: int)
    requires x.id != id
    ensures Remove(c + [x], id) == Remove(c, id) + [x]
  {
    AppendKeepsFind(c, x, id);
    var found := Find(c, id);
    if found.Some? && found.value.quantity == 1 {
      assert Remove(c + [x], id) == Without(c + [x], id);
      assert Remove(c, id) == Without(c, id);
      WithoutAppend(c, [x], id);
      assert Without([x], id) == [x];
    } else {
      assert Remove(c + [x], id) == DecrementAll(c + [x], id);
      assert Remove(c, id) == DecrementAll(c, id);
      DecrementAppend(c, x, id);
    }
  }

  lemma DecrementAppend(c: seq<Item>, x: Item, id: int)
    requires x.id != id
    ensures DecrementAll(c + [x], id) == DecrementAll(c, id) + [x]
  {
  }

  // ---------------------------------------------------------------------
  // The subtotal
  // ---------------------------------------------------------------------

  lemma {:induction false} SubtotalAppend(a: seq<Item>, b: seq<Item>)
    ensures Subtotal(a + b) == Subtotal(a) + Subtotal(b)
  {
    if a == [] {
      assert a + b == b;
    } else {
      assert (a + b)[1..] == a[1..] + b;
      SubtotalAppend(a[1..], b);
    }
  }

  /** Replacing one line changes the subtotal by the difference of the two
      lines' values. */
  lemma {:induction false} SubtotalUpdate(c: seq<Item>, k: int, x: Item)
    requires 0 <= k < |c|
    ensures Subtotal(c[k := x]) == Subtotal(c) - LineValue(c[k]) + LineValue(x)
  {
    if k > 0 {
      assert c[k := x][1..] == c[1..][k - 1 := x];
      SubtotalUpdate(c[1..], k - 1, x);
    } else {
      assert c[k := x][1..] == c[1..];
    }
  }

  /** Lines whose price is 0 add nothing, so filtering them out keeps the
      subtotal. */
  lemma {:induction false} SubtotalWithoutFree(c: seq<Item>, id: int)
    requires forall i :: 0 <= i < |c| && c[i].id == id ==> c[i].price == 0
    ensures Subtotal(Without(c, id)) == Subtotal(c)
  {
    if c != [] {
      SubtotalWithoutFree(c[1..], id);
      if c[0].id != id {
        assert ([c[0]] + Without(c[1..], id))[1..] == Without(c[1..], id);
      }
    }
  }

  /** With non-negative prices and positive quantities the subtotal is never
      negative. */
  lemma {:induction false} SubtotalNonNegative(c: seq<Item>)
    requires PositiveQuantities(c)
    requires forall i :: 0 <= i < |c| ==> c[i].price >= 0
    ensures Subtotal(c) >= 0
  {
    if c != [] {
      SubtotalNonNegative(c[1..]);
      assert LineValue(c[0]) >= 0;
    }
  }

  /** One more unit on line `k` adds that line's price to the subtotal. */
  lemma IncrementSubtotal(c: seq<Item>, k: int)
    requires 0 <= k < |c|
    ensures Subtotal(c[k := c[k].(quantity := c[k].quantity + 1)]) == Subtotal(c) + c[k].price
  {
    var x := c[k].(quantity := c[k].quantity + 1);
    SubtotalUpdate(c, k, x);
    assert LineValue(x) == LineValue(c[k]) + c[k].price by {
      assert c[k].price * (c[k].quantity + 1) == c[k].price * c[k].quantity + c[k].price;
    }
  }

  /** Adding a product raises the subtotal by the price of the line that
      gained the unit: the product's own price when it was absent. */
  lemma AddSubtotal(c: seq<Item>, p: Product)
    ensures Subtotal(Add(c, p)) ==
      Subtotal(c) + (if Contains(c, p.id) then c[FindIndex(c, p.id)].price else p.price)
  {
    var k := FindIndex(c, p.id);
    if k != -1 {
      assert Add(c, p) == c[k := c[k].(quantity := c[k].quantity + 1)];
      IncrementSubtotal(c, k);
    } else {
      assert Add(c, p) == c + [ItemOf(p, 1)];
      SubtotalAppend(c, [ItemOf(p, 1)]);
      assert Subtotal([ItemOf(p, 1)]) == p.price;
    }
  }
}
