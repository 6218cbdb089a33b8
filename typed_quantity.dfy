/** The quantity a shopper types arrives as the input box's text
    (src/pages/index.js, lines 24-31 and 48). `onChangeProductQuantity`
    compares that text with 1 as a number but stores the text itself in the
    line, and `removeProductToCart` then compares it with the number 1 by
    strict equality. This module models those two updaters as written over
    JavaScript values, shows where they part from the numeric reading, and
    defines the numeric reading that the rest of the model uses. */
module TypedQuantity {
  import opened Catalogue
  import opened ShoppingCart
  import opened CartProperties

  /** A JavaScript value held in a line's `quantity`: a number, or text. */
  datatype JsValue = Num(n: int) | Text(s: string)

  /** A cart line whose quantity may be text. */
  datatype TypedLine = TypedLine(id: int, name: string, price: int, quantity: JsValue)

  /** Text a number input holds for a whole, non-negative quantity. */
  predicate IsDecimal(s: string)
  {
    forall i :: 0 <= i < |s| ==> '0' <= s[i] <= '9'
  }

  /** `Number(s)` for decimal text; empty text reads as 0. */
  function DecimalValue(s: string): nat
    requires IsDecimal(s)
  {
    if s == [] then 0
    else DecimalValue(s[..|s| - 1]) * 10 + (s[|s| - 1] as int - '0' as int)
  }

  /** A value that `<` and `-` can read as a number. */
  predicate Readable(v: JsValue)
  {
    v.Num? || IsDecimal(v.s)
  }

  /** The number JavaScript reads from a readable value. */
  function ToNumber(v: JsValue): int
    requires Readable(v)
  {
    match v
    case Num(n) => n
    case Text(s) => DecimalValue(s)
  }

  predicate ReadableLines(c: seq<TypedLine>)
  {
    forall i :: 0 <= i < |c| ==> Readable(c[i].quantity)
  }

  /** A line whose quantity is a number. */
  function Lift(x: Item): TypedLine
  {
    TypedLine(x.id, x.name, x.price, Num(x.quantity))
  }

  /** A cart whose quantities are all numbers. */
  function LiftAll(c: seq<Item>): seq<TypedLine>
  {
    seq(|c|, i requires 0 <= i < |c| => Lift(c[i]))
  }

  /** What arithmetic sees: every quantity read as a number. */
  function Numbers(c: seq<TypedLine>): seq<TypedLine>
    requires ReadableLines(c)
  {
    seq(|c|, i requires 0 <= i < |c| => c[i].(quantity := Num(ToNumber(c[i].quantity))))
  }

  /** `prev.filter(x => x.id !== id)` over lines whose quantity may be
      text: the same filter as `ShoppingCart.Without`, which `DropLift`
      shows it agrees with on numeric carts. */
  function Drop(c: seq<TypedLine>, id: int): seq<TypedLine>
  {
    if c == [] then []
    else if c[0].id == id then Drop(c[1..], id)
    else [c[0]] + Drop(c[1..], id)
  }

  /** `prev.find(x => x.id === id)?.quantity` over lines whose quantity may
      be text: `ShoppingCart.Find` read through `QuantityOf`, which
      `FirstQuantityLift` shows it agrees with on numeric carts. */
  function FirstQuantity(c: seq<TypedLine>, id: int): Option<JsValue>
  {
    if c == [] then None
    else if c[0].id == id then Some(c[0].quantity)
    else FirstQuantity(c[1..], id)
  }

  /** onChangeProductQuantity as written: the text is compared with 1 as a
      number (`quantity < 1`), and when it is not below 1 the text itself
      becomes the quantity of the product's lines. */
  function SetQuantityAsWritten(c: seq<TypedLine>, id: int, typed: string): (r: seq<TypedLine>)
    requires IsDecimal(typed)
    ensures DecimalValue(typed) < 1 ==> forall i :: 0 <= i < |r| ==> r[i].id != id
    ensures DecimalValue(typed) >= 1 ==> |r| == |c|
    ensures DecimalValue(typed) >= 1 ==> forall i :: 0 <= i < |r| && r[i].id == id ==> r[i].quantity == Text(typed)
    ensures DecimalValue(typed) < 1 ==> r == Drop(c, id)
    ensures DecimalValue(typed) >= 1 ==> forall i :: 0 <= i < |c| ==>
      r[i] == if c[i].id == id then c[i].(quantity := Text(typed)) else c[i]
  {
    if DecimalValue(typed) < 1 then
      DropRemovesId(c, id);
      Drop(c, id)
    else
      seq(|c|, i requires 0 <= i < |c| => if c[i].id == id then c[i].(quantity := Text(typed)) else c[i])
  }

  /** removeProductToCart as written: the lines go only when the first one
      holds the NUMBER 1 (`productQuantity === 1`); otherwise each line for
      the product becomes its quantity read as a number, minus 1. */
  function RemoveAsWritten(c: seq<TypedLine>, id: int): (r: seq<TypedLine>)
    requires ReadableLines(c)
    ensures FirstQuantity(c, id) == Some(Num(1)) ==> forall i :: 0 <= i < |r| ==> r[i].id != id
    ensures FirstQuantity(c, id) != Some(Num(1)) ==> |r| == |c|
    ensures FirstQuantity(c, id) != Some(Num(1)) ==> forall i :: 0 <= i < |r| && c[i].id == id ==>
      r[i].quantity == Num(ToNumber(c[i].quantity) - 1)
    ensures FirstQuantity(c, id) == Some(Num(1)) ==> r == Drop(c, id)
    ensures FirstQuantity(c, id) != Some(Num(1)) ==> forall i :: 0 <= i < |c| ==>
      r[i] == if c[i].id == id then c[i].(quantity := Num(ToNumber(c[i].quantity) - 1)) else c[i]
  {
    if FirstQuantity(c, id) == Some(Num(1)) then
      DropRemovesId(c, id);
      Drop(c, id)
    else
      seq(|c|, i requires 0 <= i < |c| =>
        if c[i].id == id then c[i].(quantity := Num(ToNumber(c[i].quantity) - 1)) else c[i])
  }

  lemma {:induction false} DropRemovesId(c: seq<TypedLine>, id: int)
    ensures forall i :: 0 <= i < |Drop(c, id)| ==> Drop(c, id)[i].id != id
  {
    if c != [] {
      DropRemovesId(c[1..], id);
    }
  }

  // ---------------------------------------------------------------------
  // On numbers, the updaters as written are the model's updaters
  // ---------------------------------------------------------------------

  lemma {:induction false} DropLift(c: seq<Item>, id: int)
    ensures Drop(LiftAll(c), id) == LiftAll(Without(c, id))
  {
    if c != [] {
      assert LiftAll(c)[1..] == LiftAll(c[1..]);
      DropLift(c[1..], id);
      if c[0].id != id {
        assert LiftAll([c[0]] + Without(c[1..], id)) == [Lift(c[0])] + LiftAll(Without(c[1..], id));
      }
    }
  }

  lemma {:induction false} FirstQuantityLift(c: seq<Item>, id: int)
    ensures FirstQuantity(LiftAll(c), id) == if Contains(c, id) then Some(Num(QuantityOf(c, id))) else None
  {
    if c != [] {
      assert LiftAll(c)[1..] == LiftAll(c[1..]);
      FirstQuantityLift(c[1..], id);
      FindCons(c, id);
      if c[0].id != id {
        assert Contains(c, id) <==> Contains(c[1..], id) by {
          assert forall j :: 0 < j < |c| ==> c[j] == c[1..][j - 1];
        }
      }
    }
  }

  /** On a cart whose quantities are numbers, "-" as written is exactly the
      model's `Remove`. */
  lemma RemoveAsWrittenOnNumbers(c: seq<Item>, id: int)
    ensures RemoveAsWritten(LiftAll(c), id) == LiftAll(Remove(c, id))
  {
    FirstQuantityLift(c, id);
    if Contains(c, id) && QuantityOf(c, id) == 1 {
      DropLift(c, id);
    } else {
      assert Remove(c, id) == DecrementAll(c, id);
    }
  }

  /** On a cart whose quantities are numbers, typing as written stores text
      that reads as exactly the number the model stores. */
  lemma SetQuantityAsWrittenOnNumbers(c: seq<Item>, id: int, typed: string)
    requires IsDecimal(typed)
    ensures ReadableLines(SetQuantityAsWritten(LiftAll(c), id, typed))
    ensures Numbers(SetQuantityAsWritten(LiftAll(c), id, typed)) == LiftAll(SetQuantityParsed(c, id, typed))
  {
    if DecimalValue(typed) < 1 {
      DropLift(c, id);
      var w := LiftAll(Without(c, id));
      assert Numbers(w) == w;
    }
  }

  // ---------------------------------------------------------------------
  // Where they part, and the numeric reading
  // ---------------------------------------------------------------------

  /** Typing "1" on a laptop line and pressing "-" keeps the line with
      quantity 0, and a second "-" gives it quantity -1: the stored text "1"
      is not the number 1, so the line is decremented instead of deleted.
      Read as numbers, the same "1" then "-" deletes the line. */
  lemma TypedOneThenMinusKeepsZero()
    ensures SetQuantityAsWritten([Lift(ItemOf(Products[0], 3))], 1, "1") ==
      [TypedLine(1, "Laptop", 500, Text("1"))]
    ensures RemoveAsWritten([TypedLine(1, "Laptop", 500, Text("1"))], 1) == [Lift(ItemOf(Products[0], 0))]
    ensures RemoveAsWritten([Lift(ItemOf(Products[0], 0))], 1) == [Lift(ItemOf(Products[0], -1))]
    ensures Remove(SetQuantityParsed([ItemOf(Products[0], 3)], 1, "1"), 1) == []
  {
    assert DecimalValue("1") == 1 by {
      assert "1"[..0] == [];
    }
    var typed := [TypedLine(1, "Laptop", 500, Text("1"))];
    assert FirstQuantity(typed, 1) == Some(Text("1"));
    var zero := [Lift(ItemOf(Products[0], 0))];
    assert FirstQuantity(zero, 1) == Some(Num(0));
    var one := [ItemOf(Products[0], 1)];
    assert SetQuantityParsed([ItemOf(Products[0], 3)], 1, "1") == one;
    assert QuantityOf(one, 1) == 1 by {
      assert FindIndex(one, 1) == 0;
    }
    assert Without(one, 1) == [] by {
      assert one[1..] == [];
    }
  }

  /** The numeric reading of onChangeProductQuantity that the rest of the
      model uses: the typed text is read as a number before it is stored.
      A cart without duplicates and with quantities of at least 1 keeps
      that shape, the product ends with the number typed (none when it is
      below 1 or the product is absent), and other products keep theirs. */
  function SetQuantityParsed(c: seq<Item>, id: int, typed: string): (r: seq<Item>)
    requires IsDecimal(typed)
    ensures WellFormed(c) ==> WellFormed(r)
    ensures UniqueIds(c) ==>
      QuantityOf(r, id) == (if DecimalValue(typed) < 1 || !Contains(c, id) then 0 else DecimalValue(typed))
  {
    var r := SetQuantity(c, id, DecimalValue(typed));
    assert WellFormed(c) ==> WellFormed(r) by {
      if WellFormed(c) { SetQuantityWellFormed(c, id, DecimalValue(typed)); }
    }
    assert UniqueIds(c) ==>
      QuantityOf(r, id) == (if DecimalValue(typed) < 1 || !Contains(c, id) then 0 else DecimalValue(typed)) by {
      if UniqueIds(c) { SetQuantityOwnQuantity(c, id, DecimalValue(typed)); }
    }
    r
  }

  /** Filtering the product out ignores what its lines held. */
  lemma {:induction false} WithoutSetAll(c: seq<Item>, id: int, q: int)
    ensures Without(SetAll(c, id, q), id) == Without(c, id)
  {
    if c != [] {
      assert SetAll(c, id, q)[1..] == SetAll(c[1..], id, q);
      WithoutSetAll(c[1..], id, q);
    }
  }

  /** With the numeric reading, typing "1" and pressing "-" deletes the
      product's line, and no sequence of the two ever leaves a line below 1. */
  lemma ParsedThenRemove(c: seq<Item>, id: int, typed: string)
    requires WellFormed(c) && IsDecimal(typed)
    ensures WellFormed(Remove(SetQuantityParsed(c, id, typed), id))
    ensures DecimalValue(typed) == 1 ==> Remove(SetQuantityParsed(c, id, typed), id) == Without(c, id)
  {
    var s := SetQuantityParsed(c, id, typed);
    RemoveWellFormed(s, id);
    if DecimalValue(typed) == 1 {
      if Contains(c, id) {
        assert QuantityOf(s, id) == 1;
        WithoutSetAll(c, id, 1);
      } else {
        assert s == c;
      }
    }
  }
}
