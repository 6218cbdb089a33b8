# Shopping cart state of the `Home` page

A Dafny model of the cart logic of a single-page shop. The page sells a
fixed catalogue of four products and shows a cart below it. The shopper can
type a quantity for a line, press "+" or "-", or press "Add to Cart" on a
product. The page shows the subtotal. A free gift (a wireless mouse, price 0)
is put in the cart while the subtotal is at least 1000 and taken out when it
drops below.

All of this lives in `src/pages/index.js`. The cart is a list of line items
`{id, name, price, quantity}`, kept in React state and replaced wholesale by
updater functions. The model follows that shape:

- `Catalogue` (`catalogue.dfy`): the products, the gift and the threshold.
- `ShoppingCart` (`cart.dfy`): the line item, the JavaScript array methods the
  updaters use (`findIndex`, `find`, `filter`, `map`, `reduce`), the three
  updaters (`SetQuantity`, `Add`, `Remove`) and the subtotal.
  `SetQuantity` is `onChangeProductQuantity`. `Add` is `addProductToCart`.
  `Remove` is `removeProductToCart`.
  The subtotal has two definitions: `Subtotal` is a plain sum, and
  `TotalValue` is the source's left-to-right `reduce`, proved equal to it.
- `CartProperties` (`cart_properties.dfy`): the properties of the updaters.
  They keep the invariant (no duplicate product, every quantity at least 1).
  They change only the targeted product. Adding and then removing a product
  gives back the same cart. The lemmas also say how the subtotal moves.
- `Gift` (`gift.dfy`): the gift effect as a pure function `Reconcile` from
  cart to cart, and its properties. After it runs, the gift is present
  exactly when the subtotal reaches the threshold. There is then exactly one
  gift line, with quantity 1. It never changes the subtotal, and running it
  twice is the same as running it once.
- `Home` (`home.dfy`): a session. It starts from the empty cart. Each shopper
  action applies an updater and then `Reconcile`. Lemmas show that every
  session the page allows, with typed quantities read as numbers, keeps the
  cart valid and the gift consistent.
  Pressing "+" then "-" on a product restores the cart, gift included
  (in exact integer arithmetic; see "## Left out").
  Reconciling after every action gives the same cart as React, which runs
  the effect only when the subtotal changed.

Two behaviours of the code are worth stating plainly:

- Setting a quantity for a product not in the cart leaves the cart
  unchanged, because lines 58-60 only map over the lines already there.
  `SetQuantity` says so.
- Every typed value below 1, not only a negative one, is read as 0 and
  deletes the product's line (lines 50-56).

The typed quantity reaches the handler as the input box's text, and the
code stores that text in the line (line 59). The module `TypedQuantity`
(`typed_quantity.dfy`) models the "type a quantity" and "-" handlers as
written over such values and shows the defect this causes (see
"## Findings"). Everywhere else, including the session lemmas, the model
reads the typed text as the number it denotes
(`TypedQuantity.SetQuantityParsed`). The claims about sessions therefore
hold for carts whose quantities are numbers.

## Model

| member | source | states |
|---|---|---|
| `Catalogue.CatalogueShape` | src/pages/index.js:3-11 | catalogue ids are distinct and differ from the gift's id 99; every catalogue price is positive; the gift costs 0 |
| `ShoppingCart.FindIndex` | src/pages/index.js:67 | the result is -1 exactly when no line has the id; otherwise it is the first index whose line has the id |
| `ShoppingCart.Find` | src/pages/index.js:81 | a line is found exactly when the cart contains the id; the line found has that id and is the first line that has it |
| `ShoppingCart.Without` | src/pages/index.js:84 | the filter keeps exactly the lines of other products, never grows the cart, leaves no line for the id, and is the identity when the id is absent |
| `ShoppingCart.QuantityOf` | src/pages/index.js:81 | the quantity read for a product is 0 when it is absent; with positive quantities it is at least 1 exactly when the product is present |
| `ShoppingCart.SetQuantity` | src/pages/index.js:47-62 | a value below 1 gives exactly the order-keeping filter `Without`: the product's lines go, every other line stays in order; a value of at least 1 overwrites only the matching lines' quantity, keeping ids and order; the cart never grows |
| `ShoppingCart.Add` | src/pages/index.js:65-77 | an absent product is appended with quantity 1 after the unchanged cart; a present one gets exactly one more unit on its first line, every other line unchanged; other products' lines are untouched; the product's quantity rises by exactly 1 |
| `ShoppingCart.Remove` | src/pages/index.js:79-91 | an absent product leaves the cart unchanged; quantity 1 gives exactly the order-keeping filter `Without`: the product's lines go, all others stay in order; otherwise each of its lines loses one unit and nothing else changes |
| `ShoppingCart.Reduce` | src/pages/index.js:94-96 | the left fold from an accumulator equals the accumulator plus the sum of price times quantity |
| `ShoppingCart.TotalValue` | src/pages/index.js:93-97 | `totalValue` equals the sum of price times quantity over all lines |
| `CartProperties.WithoutKeepsOthers` | src/pages/index.js:84 | filtering one product out finds every other product's line exactly as before |
| `CartProperties.SetQuantityWellFormed` | src/pages/index.js:50-60 | setting a quantity keeps ids unique and every quantity at least 1 |
| `CartProperties.AddWellFormed` | src/pages/index.js:67-75 | adding keeps ids unique and every quantity at least 1 |
| `CartProperties.RemoveWellFormed` | src/pages/index.js:81-89 | removing keeps ids unique and every quantity at least 1 |
| `CartProperties.AddQuantities` | src/pages/index.js:67-75 | adding gives the product one more unit (1 when absent) and leaves every other product's quantity |
| `CartProperties.AddPresent` | src/pages/index.js:69-72 | in a cart without duplicates, adding a present product raises only its line by one unit; length, order and all other lines are unchanged |
| `CartProperties.RemoveQuantities` | src/pages/index.js:81-89 | in a well-formed cart, removing takes one unit off the product, never going below 0, and leaves every other product's quantity |
| `CartProperties.SetQuantityOwnQuantity` | src/pages/index.js:50-60 | in a cart without duplicates, the product ends with the typed quantity, or with none when the value is below 1 or the product was absent |
| `CartProperties.SetQuantityOtherQuantities` | src/pages/index.js:50-60 | setting one product's quantity leaves every other product's quantity as it was |
| `CartProperties.AddThenRemove` | src/pages/index.js:65-91 | in a well-formed cart, adding a product and then removing it returns exactly the previous cart, whether or not the product was present |
| `CartProperties.RemoveAppendOther` | src/pages/index.js:79-91 | removing a product commutes with appending a line of another product |
| `CartProperties.SubtotalAppend` | src/pages/index.js:94-96 | the subtotal of two carts joined is the sum of their subtotals |
| `CartProperties.SubtotalWithoutFree` | src/pages/index.js:94-96 | filtering out lines whose price is 0 leaves the subtotal unchanged |
| `CartProperties.SubtotalNonNegative` | src/pages/index.js:94-96 | with non-negative prices and positive quantities the subtotal is non-negative |
| `CartProperties.AddSubtotal` | src/pages/index.js:65-77 | adding raises the subtotal by the price of the line that gained the unit, or by the product's price when it was absent |
| `Gift.Reconcile` | src/pages/index.js:99-107 | below the threshold no gift line remains; at or above it the cart is left as it is when it holds the gift, and otherwise the gift line is appended at the end of the unchanged cart; lines of other products are unchanged, in order; at most one line is added |
| `Gift.ReconcileKeepsSubtotal` | src/pages/index.js:99-107 | when gift lines are free, reconciling leaves the subtotal unchanged |
| `Gift.ReconcileConsistent` | src/pages/index.js:99-107 | after reconciling, the gift is present exactly when the subtotal is at least 1000 |
| `Gift.ReconcileFixpoint` | src/pages/index.js:99-107 | a cart whose gift already matches its subtotal is left unchanged |
| `Gift.ReconcileIdempotent` | src/pages/index.js:99-107 | reconciling twice gives the same cart as reconciling once |
| `Gift.ReconcileSingleGift` | src/pages/index.js:99-107 | in a cart without duplicates, reconciling leaves exactly one gift line, with quantity 1, at or above the threshold, none below it, and no duplicate |
| `Home.ValidLines` | src/pages/index.js:3-11 | in a valid cart every gift line is the effect's own line with price 0, and no price is negative |
| `Home.SetQuantityValid` | src/pages/index.js:47-62 | typing a quantity on a non-gift line keeps the cart valid and does not add or remove the gift |
| `Home.AddValid` | src/pages/index.js:65-77 | adding a catalogue product keeps the cart valid and does not add or remove the gift |
| `Home.RemoveValid` | src/pages/index.js:79-91 | pressing "-" on a non-gift line keeps the cart valid and does not add or remove the gift |
| `Home.ApplyValid` | src/pages/index.js:47-91 | every action the page offers keeps the cart valid and does not add or remove the gift |
| `Home.ReconcileValid` | src/pages/index.js:99-107 | the gift effect keeps the cart valid, makes the gift consistent with the subtotal and keeps the subtotal |
| `Home.StepValid` | src/pages/index.js:47-107 | an action followed by the effect keeps the cart valid and the gift consistent |
| `Home.RunValid` | src/pages/index.js:45-107 | a sequence of offered actions keeps a valid, consistent cart valid and consistent |
| `Home.SessionInvariant` | src/pages/index.js:45-107 | from the empty cart, with typed quantities read as numbers, any offered session ends with unique ids, quantities at least 1, a non-negative subtotal, and exactly one gift line (quantity 1) at or above 1000 or none below |
| `Home.EffectOnTotalChange` | src/pages/index.js:93-107 | running the effect only when `totalValue` changed gives the same cart as reconciling after every action |
| `Home.AddCatalogueSubtotal` | src/pages/index.js:65-77 | adding a catalogue product to a valid cart raises the subtotal by exactly its price |
| `Home.AddThenRemoveAcrossThreshold` | src/pages/index.js:65-107 | from a valid cart below the threshold without the gift, "-" on the cart after "+" with the gift line appended gives back the cart plus the gift line, and the effect then takes the gift back (the case where "+" reached the threshold) |
| `Home.AddThenRemoveStep` | src/pages/index.js:65-107 | from a valid, consistent cart, "+" then "-" on a catalogue product, each followed by the effect, returns exactly the previous cart |
| `Home.FirstLaptopStep` | src/pages/index.js:65-107 | adding the laptop to the empty cart gives one laptop line and no gift, since 500 is below 1000 |
| `Home.SecondLaptopStep` | src/pages/index.js:65-107 | adding the laptop to a cart holding one laptop gives two laptops followed by the gift line, since 1000 reaches the threshold |
| `Home.TwoLaptopsUnlockGift` | src/pages/index.js:3-107 | adding the 500 laptop twice from an empty cart gives one laptop line with quantity 2 followed by the gift line |
| `TypedQuantity.SetQuantityAsWritten` | src/pages/index.js:47-62 | as written: text reading below 1 gives exactly the order-keeping filter `Drop`; otherwise the product's lines hold the typed text itself and every other line stays as it was, in order |
| `TypedQuantity.RemoveAsWritten` | src/pages/index.js:79-91 | as written: only when the product's first line holds the number 1 is the result the order-keeping filter `Drop`; for any other value, text "1" included, every line stays in place, the product's lines hold their value read as a number minus 1, and every other line is unchanged |
| `TypedQuantity.RemoveAsWrittenOnNumbers` | src/pages/index.js:79-91 | on a cart whose quantities are numbers, "-" as written is exactly `Remove` |
| `TypedQuantity.SetQuantityAsWrittenOnNumbers` | src/pages/index.js:47-62 | on a cart whose quantities are numbers, typing as written stores text that reads as exactly what `SetQuantityParsed` stores |
| `TypedQuantity.TypedOneThenMinusKeepsZero` | src/pages/index.js:47-91 | typing "1" on a laptop line and pressing "-" keeps the line with quantity 0, a second "-" gives -1; read as numbers, "1" then "-" deletes the line |
| `TypedQuantity.SetQuantityParsed` | src/pages/index.js:47-62 | typing with the text read as a number keeps a well-formed cart well formed and gives the product the typed number, or none below 1 or when absent |
| `TypedQuantity.ParsedThenRemove` | src/pages/index.js:47-91 | with the numeric reading, typing and then "-" keeps the cart well formed, and typing "1" then "-" deletes exactly the product's lines |

## Left out

- Rendering (JSX, `QuantitySelector`, CSS, the progress bar width at line 162): presentation only.
- React scheduling: `useState`, `useMemo` caching and the effect's timing. The effect is modelled as `Reconcile`, applied right after each update. `Home.EffectOnTotalChange` shows that this equals running it only when the subtotal changed. Line 103 reads the rendered `cartItems` rather than `prev`. The two are the same list in a sequential session, so the model reads one cart.
- String input beyond "-": `TypedQuantity` models the typed text for the "type a quantity" and "-" handlers only. A "+" on a line holding text computes `x.quantity + 1` by string concatenation ("5" then "51"); no member models that. The session lemmas in `Home` read typed text as a number, so they say nothing about carts holding text: there a "-" after typing "1" keeps a line with quantity 0, and another "-" gives -1 (see "## Findings").
- Typed text other than decimal digits (a minus sign, a decimal point, an exponent): `TypedQuantity` reads only digit strings, empty text as 0.
- Non-integer input quantities and JavaScript floating-point numbers. Prices and quantities are unbounded, exact integers. A typed quantity can be any digit string, and above 2^53 JavaScript rounds it: from 9007199254740992, "+" then "-" leaves 9007199254740991. The page agrees with the model, and `CartProperties.AddThenRemove` and `Home.AddThenRemoveStep` hold for it, only while quantities and the subtotal stay below 2^53.
- Actions on the gift line itself: the page shows no quantity controls for it (lines 189-200). The lemmas about sessions assume only the actions the page offers (`Home.Offered`). The updater functions themselves accept any id.

## Findings

| source | as written | input that shows it | evidently intended | confidence | as-written member | corrected member |
|---|---|---|---|---|---|---|
| src/pages/index.js:48-87 | the typed text is stored as the quantity (line 59), and "-" deletes the line only when `productQuantity === 1` (line 83), which is false for the text "1"; line 87 then stores `"1" - 1`, the number 0 | a laptop line; type "1", press "-": the line stays with quantity 0; press "-" again: quantity -1 | the typed text is read as a number, so "1" then "-" deletes the line and no line ever holds less than 1 (`TypedQuantity.ParsedThenRemove`) | high; not executed | `TypedQuantity.TypedOneThenMinusKeepsZero` | `TypedQuantity.SetQuantityParsed` |
