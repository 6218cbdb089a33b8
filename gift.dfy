/** The free-gift effect (src/pages/index.js, lines 99-107): once the
    subtotal reaches the threshold the gift line is appended, and below it
    every gift line is filtered out. Modelled as a pure function applied to
    the cart after each update. */
module Gift {
  import opened Catalogue
  import opened ShoppingCart
  import opened CartProperties

  /** `{ ...FREE_GIFT, quantity: 1 }` */
  const GiftLine: Item := ItemOf(FreeGift, 1)

  /** `cartItems.some(x => x.id === FREE_GIFT.id)` */
  predicate HasGift(c: seq<Item>)
  {
    Contains(c, FreeGift.id)
  }

  /** The gift effect: below the threshold the gift is filtered out; at or
      above it the gift line is appended unless one is already there. Lines
      of other products are never touched. */
  function Reconcile(c: seq<Item>): (r: seq<Item>)
    ensures TotalValue(c) < Threshold ==> !HasGift(r)
    ensures TotalValue(c) >= Threshold ==> HasGift(r)
    ensures Without(r, FreeGift.id) == Without(c, FreeGift.id)
    ensures |r| <= |c| + 1
    ensures TotalValue(c) >= Threshold && !HasGift(c) ==> r == c + [GiftLine]
    ensures TotalValue(c) >= Threshold && HasGift(c) ==> r == c
  {
    if TotalValue(c) < Threshold then
      Without(c, FreeGift.id)
    else if !HasGift(c) then
      var r := c + [GiftLine];
      assert r[|c|].id == FreeGift.id;
      WithoutAppend(c, [GiftLine], FreeGift.id);
      assert Without([GiftLine], FreeGift.id) == [];
      r
    else
      c
  }

  /** Every gift line costs nothing. */
  predicate GiftLinesFree(c: seq<Item>)
  {
    forall i :: 0 <= i < |c| && c[i].id == FreeGift.id ==> c[i].price == 0
  }

  /** Every gift line is exactly the one the effect appends. */
  predicate GiftLinesExact(c: seq<Item>)
  {
    forall i :: 0 <= i < |c| && c[i].id == FreeGift.id ==> c[i] == GiftLine
  }

  /** The gift is in the cart exactly when the subtotal reaches the threshold. */
  predicate GiftConsistent(c: seq<Item>)
  {
    HasGift(c) <==> Subtotal(c) >= Threshold
  }

  /** Reconciling never changes what the customer pays. */
  lemma ReconcileKeepsSubtotal(c: seq<Item>)
    requires GiftLinesFree(c)
    ensures Subtotal(Reconcile(c)) == Subtotal(c)
  {
    if TotalValue(c) < Threshold {
      SubtotalWithoutFree(c, FreeGift.id);
    } else if !HasGift(c) {
      SubtotalAppend(c, [GiftLine]);
      assert Subtotal([GiftLine]) == 0;
    }
  }

  /** After reconciling, the gift is present exactly when the subtotal is at
      least the threshold, and gift lines are still free. */
  lemma ReconcileConsistent(c: seq<Item>)
    requires GiftLinesFree(c)
    ensures GiftConsistent(Reconcile(c)) && GiftLinesFree(Reconcile(c))
  {
    ReconcileKeepsSubtotal(c);
    var r := Reconcile(c);
    forall i | 0 <= i < |r| && r[i].id == FreeGift.id ensures r[i].price == 0 {
      if TotalValue(c) >= Threshold && i < |c| {
        assert r[i] == c[i];
      }
    }
  }

  /** A cart that already agrees with the promotion is left as it is. */
  lemma ReconcileFixpoint(c: seq<Item>)
    requires GiftConsistent(c)
    ensures Reconcile(c) == c
  {
  }

  /** Running the effect a second time changes nothing. */
  lemma ReconcileIdempotent(c: seq<Item>)
    requires GiftLinesFree(c)
    ensures Reconcile(Reconcile(c)) == Reconcile(c)
  {
    ReconcileConsistent(c);
    ReconcileFixpoint(Reconcile(c));
  }

  /** In a cart without duplicate ids whose gift lines are the effect's own,
      reconciling leaves one gift line of quantity 1 at or above the
      threshold and none below it, and adds no duplicate. */
  lemma ReconcileSingleGift(c: seq<Item>)
    requires UniqueIds(c) && GiftLinesExact(c)
    ensures UniqueIds(Reconcile(c)) && GiftLinesExact(Reconcile(c))
    ensures CountId(Reconcile(c), FreeGift.id) == if Subtotal(c) >= Threshold then 1 else 0
  {
    var r := Reconcile(c);
    if TotalValue(c) < Threshold {
      assert r == Without(c, FreeGift.id);
      WithoutUnique(c, FreeGift.id);
    } else if !HasGift(c) {
      AppendGiftUnique(c);
    } else {
      assert r == c;
    }
    CountUnique(r, FreeGift.id);
  }

  /** Appending the gift line to a cart without it adds no duplicate. */
  lemma AppendGiftUnique(c: seq<Item>)
    requires UniqueIds(c) && GiftLinesExact(c) && !HasGift(c)
    ensures UniqueIds(c + [GiftLine]) && GiftLinesExact(c + [GiftLine])
  {
    var r := c + [GiftLine];
    assert forall i :: 0 <= i < |c| ==> r[i] == c[i];
  }
}
