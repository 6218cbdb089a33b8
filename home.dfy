/** The cart state of the `Home` page (src/pages/index.js, lines 44-107):
    the cart starts empty, each shopper action replaces it with the
    updater's result, and the gift effect then reconciles it. */
module Home {
  import opened Catalogue
  import opened ShoppingCart
  import opened CartProperties
  import opened Gift

  /** What the shopper can do to the cart: type a quantity, press "+" (or
      "Add to Cart"), press "-". A typed quantity is carried as the number
      the text reads as, the reading `TypedQuantity.SetQuantityParsed`
      defines; the source stores the text itself (see that module). */
  datatype Action =
    | ChangeQuantity(id: int, quantity: int)
    | AddProduct(product: Product)
    | RemoveProduct(id: int)

  /** `useState([])` */
  const Initial: seq<Item> := []

  /** The updater handed to `setCartItems` for an action. */
  function Apply(c: seq<Item>, a: Action): seq<Item>
  {
    match a
    case ChangeQuantity(id, quantity) => SetQuantity(c, id, quantity)
    case AddProduct(p) => Add(c, p)
    case RemoveProduct(id) => Remove(c, id)
  }

  /** One action followed by the gift effect. */
  function Step(c: seq<Item>, a: Action): seq<Item>
  {
    Reconcile(Apply(c, a))
  }

  /** A session: the actions applied one after the other. */
  function Run(c: seq<Item>, actions: seq<Action>): seq<Item>
    decreases |actions|
  {
    if actions == [] then c else Run(Step(c, actions[0]), actions[1..])
  }

  /** The actions the page offers: catalogue products are added ("Add to
      Cart", or "+" on a line, whose fields are the product's), and the
      quantity controls exist only on lines that are not the gift. */
  predicate Offered(a: Action)
  {
    match a
    case ChangeQuantity(id, _) => id != FreeGift.id
    case AddProduct(p) => p in Products
    case RemoveProduct(id) => id != FreeGift.id
  }

  /** The cart invariant: no duplicate ids, every quantity at least 1, and
      every line is either the gift line or a catalogue product's line. */
  predicate Valid(c: seq<Item>)
  {
    && WellFormed(c)
    && forall i :: 0 <= i < |c| ==> c[i] == GiftLine || ProductOf(c[i]) in Products
  }

  /** In a valid cart gift lines are the effect's own, hence free, and no
      price is negative. */
  lemma ValidLines(c: seq<Item>)
    requires Valid(c)
    ensures GiftLinesExact(c) && GiftLinesFree(c)
    ensures forall i :: 0 <= i < |c| ==> c[i].price >= 0
  {
    CatalogueShape();
    forall i | 0 <= i < |c| && c[i].id == FreeGift.id ensures c[i] == GiftLine {
      assert ProductOf(c[i]) !in Products;
    }
  }

  /** Filtering out another product keeps the gift exactly when it was there. */
  lemma WithoutKeepsGift(c: seq<Item>, id: int)
    requires id != FreeGift.id
    ensures HasGift(Without(c, id)) <==> HasGift(c)
  {
    WithoutKeepsOthers(c, id, FreeGift.id);
  }

  /** Typing a quantity on a non-gift line keeps the cart valid and
      leaves the gift as it was. */
  lemma SetQuantityValid(c: seq<Item>, id: int, quantity: int)
    requires Valid(c) && id != FreeGift.id
    ensures Valid(SetQuantity(c, id, quantity))
    ensures HasGift(SetQuantity(c, id, quantity)) <==> HasGift(c)
  {
    SetQuantityWellFormed(c, id, quantity);
    var r := SetQuantity(c, id, quantity);
    if quantity < 1 {
      assert r == Without(c, id);
      WithoutKeepsGift(c, id);
      forall i | 0 <= i < |r| ensures r[i] == GiftLine || ProductOf(r[i]) in Products {
        assert r[i] in c;
      }
    } else {
      forall i | 0 <= i < |r| ensures r[i] == GiftLine || ProductOf(r[i]) in Products {
        assert c[i] == GiftLine ==> c[i].id != id;
      }
    }
  }

  /** Adding a catalogue product keeps the cart valid and leaves the gift
      as it was. */
  lemma AddValid(c: seq<Item>, p: Product)
    requires Valid(c) && p in Products
    ensures Valid(Add(c, p))
    ensures HasGift(Add(c, p)) <==> HasGift(c)
  {
    CatalogueShape();
    AddWellFormed(c, p);
    var r := Add(c, p);
    if !Contains(c, p.id) {
      assert r == c + [ItemOf(p, 1)];
      assert ProductOf(ItemOf(p, 1)) == p;
    } else {
      var k := FindIndex(c, p.id);
      assert c[k] != GiftLine;
      forall i | 0 <= i < |r| ensures r[i] == GiftLine || ProductOf(r[i]) in Products {
        if i != k { FoundIsOnlyLine(c, i); }
      }
    }
  }

  /** Pressing "-" on a non-gift line keeps the cart valid and leaves the
      gift as it was. */
  lemma RemoveValid(c: seq<Item>, id: int)
    requires Valid(c) && id != FreeGift.id
    ensures Valid(Remove(c, id))
    ensures HasGift(Remove(c, id)) <==> HasGift(c)
  {
    RemoveWellFormed(c, id);
    var r := Remove(c, id);
    if QuantityOf(c, id) == 1 {
      WithoutKeepsGift(c, id);
      forall i | 0 <= i < |r| ensures r[i] == GiftLine || ProductOf(r[i]) in Products {
        assert r[i] in c;
      }
    } else {
      forall i | 0 <= i < |r| ensures r[i] == GiftLine || ProductOf(r[i]) in Products {
        assert c[i] == GiftLine ==> c[i].id != id;
      }
    }
  }

  /** Every offered action keeps the cart valid and neither adds nor
      removes the gift. */
  lemma ApplyValid(c: seq<Item>, a: Action)
    requires Valid(c) && Offered(a)
    ensures Valid(Apply(c, a))
    ensures HasGift(Apply(c, a)) <==> HasGift(c)
  {
    match a
    case ChangeQuantity(id, quantity) => SetQuantityValid(c, id, quantity);
    case AddProduct(p) => AddValid(c, p);
    case RemoveProduct(id) => RemoveValid(c, id);
  }

  /** The gift effect keeps the cart valid. */
  lemma ReconcileValid(c: seq<Item>)
    requires Valid(c)
    ensures Valid(Reconcile(c)) && GiftConsistent(Reconcile(c))
    ensures Subtotal(Reconcile(c)) == Subtotal(c)
  {
    ValidLines(c);
    ReconcileSingleGift(c);
    ReconcileConsistent(c);
    ReconcileKeepsSubtotal(c);
    var r := Reconcile(c);
    forall i | 0 <= i < |r| ensures r[i] == GiftLine || ProductOf(r[i]) in Products {
      if TotalValue(c) < Threshold {
        assert r[i] in c;
      } else if i < |c| {
        assert r[i] == c[i];
      }
    }
  }

  /** Every step of a session keeps the cart valid and the gift in step
      with the subtotal. */
  lemma StepValid(c: seq<Item>, a: Action)
    requires Valid(c) && Offered(a)
    ensures Valid(Step(c, a)) && GiftConsistent(Step(c, a))
    ensures Subtotal(Step(c, a)) == Subtotal(Apply(c, a))
  {
    ApplyValid(c, a);
    ReconcileValid(Apply(c, a));
  }

  lemma {:induction false} RunValid(c: seq<Item>, actions: seq<Action>)
    requires Valid(c) && GiftConsistent(c)
    requires forall i :: 0 <= i < |actions| ==> Offered(actions[i])
    ensures Valid(Run(c, actions)) && GiftConsistent(Run(c, actions))
    decreases |actions|
  {
    if actions != [] {
      StepValid(c, actions[0]);
      RunValid(Step(c, actions[0]), actions[1..]);
    }
  }

  /** Whatever the shopper does through the page, with typed quantities
      read as numbers, the cart has no duplicate
      product, no line with quantity below 1, a non-negative subtotal, and
      exactly one gift line of quantity 1 when the subtotal is at least
      the threshold and none below it. */
  lemma SessionInvariant(actions: seq<Action>)
    requires forall i :: 0 <= i < |actions| ==> Offered(actions[i])
    ensures Valid(Run(Initial, actions))
    ensures Subtotal(Run(Initial, actions)) >= 0
    ensures CountId(Run(Initial, actions), FreeGift.id) ==
      if Subtotal(Run(Initial, actions)) >= Threshold then 1 else 0
    ensures GiftLinesExact(Run(Initial, actions))
  {
    RunValid(Initial, actions);
    var c := Run(Initial, actions);
    ValidLines(c);
    SubtotalNonNegative(c);
    CountUnique(c, FreeGift.id);
  }

  /** The gift effect depends on `totalValue` only, so it runs only when an
      action changed the subtotal. For a valid cart this is the same as
      reconciling after every action. */
  lemma EffectOnTotalChange(c: seq<Item>, a: Action)
    requires Valid(c) && GiftConsistent(c) && Offered(a)
    ensures (if TotalValue(Apply(c, a)) != TotalValue(c) then Reconcile(Apply(c, a)) else Apply(c, a))
      == Step(c, a)
  {
    ApplyValid(c, a);
    var r := Apply(c, a);
    if TotalValue(r) == TotalValue(c) {
      ValidLines(r);
      ReconcileFixpoint(r);
    }
  }

  /** Adding a catalogue product raises the subtotal by its price. */
  lemma AddCatalogueSubtotal(c: seq<Item>, p: Product)
    requires Valid(c) && p in Products
    ensures Subtotal(Add(c, p)) == Subtotal(c) + p.price
    ensures Subtotal(Add(c, p)) > Subtotal(c)
  {
    CatalogueShape();
    AddSubtotal(c, p);
    if Contains(c, p.id) {
      var k := FindIndex(c, p.id);
      assert c[k] != GiftLine;
      SameIdSameProduct(ProductOf(c[k]), p);
    }
  }

  /** From a cart below the threshold without the gift: after "+" and the
      gift line appended behind it, "-" drops the product's unit again and
      the effect then takes the gift back. The lemma does not require that
      "+" reached the threshold; `AddThenRemoveStep` uses it when it did. */
  lemma AddThenRemoveAcrossThreshold(c: seq<Item>, p: Product)
    requires Valid(c) && p in Products && !HasGift(c) && Subtotal(c) < Threshold
    ensures Remove(Add(c, p) + [GiftLine], p.id) == c + [GiftLine]
    ensures Reconcile(c + [GiftLine]) == c
  {
    CatalogueShape();
    var a := Add(c, p);
    AddThenRemove(c, p);
    RemoveAppendOther(a, GiftLine, p.id);
    SubtotalAppend(c, [GiftLine]);
    assert Subtotal([GiftLine]) == 0;
    WithoutAppend(c, [GiftLine], FreeGift.id);
    assert Without([GiftLine], FreeGift.id) == [];
  }

  /** Pressing "+" and then "-" on a catalogue product gives back the cart,
      gift included, whether the product was in the cart or not. */
  lemma AddThenRemoveStep(c: seq<Item>, p: Product)
    requires Valid(c) && GiftConsistent(c) && p in Products
    ensures Step(Step(c, AddProduct(p)), RemoveProduct(p.id)) == c
  {
    ValidLines(c);
    var a := Add(c, p);
    AddCatalogueSubtotal(c, p);
    AddValid(c, p);
    ValidLines(a);
    AddThenRemove(c, p);
    ReconcileFixpoint(c);
    if Subtotal(a) >= Threshold && !HasGift(a) {
      assert Step(c, AddProduct(p)) == a + [GiftLine];
      AddThenRemoveAcrossThreshold(c, p);
    } else {
      assert GiftConsistent(a);
      ReconcileFixpoint(a);
      assert Step(c, AddProduct(p)) == a;
    }
  }

  /** The first laptop: 500 is below the threshold, so no gift. */
  lemma FirstLaptopStep()
    ensures Step(Initial, AddProduct(Products[0])) == [ItemOf(Products[0], 1)]
  {
    var laptop := Products[0];
    var one := [ItemOf(laptop, 1)];
    assert Add(Initial, laptop) == one;
    assert Subtotal(one) == 500;
  }

  /** The second laptop: 1000 reaches the threshold, so the gift follows. */
  lemma SecondLaptopStep()
    ensures Step([ItemOf(Products[0], 1)], AddProduct(Products[0])) ==
      [ItemOf(Products[0], 2), GiftLine]
  {
    var laptop := Products[0];
    var one := [ItemOf(laptop, 1)];
    var two := [ItemOf(laptop, 2)];
    assert FindIndex(one, laptop.id) == 0;
    assert Add(one, laptop) == two;
    assert Subtotal(two) == 1000;
    assert !HasGift(two);
  }

  /** Adding the 500-dollar laptop twice brings the subtotal to exactly the
      threshold and unlocks the gift. */
  lemma TwoLaptopsUnlockGift()
    ensures Run(Initial, [AddProduct(Products[0]), AddProduct(Products[0])]) ==
      [ItemOf(Products[0], 2), GiftLine]
  {
    var laptop := Products[0];
    var actions := [AddProduct(laptop), AddProduct(laptop)];
    FirstLaptopStep();
    SecondLaptopStep();
    assert actions[1..] == [AddProduct(laptop)] && actions[1..][1..] == [];
    assert Run(Initial, actions) == Run([ItemOf(laptop, 1)], actions[1..]);
  }
}
