/** The shop's fixed data: the products on sale, the free gift and the
    subtotal that unlocks it (src/pages/index.js, lines 3-11). */
module Catalogue {

  /** A product as the catalogue lists it; prices are whole dollars. */
  datatype Product = Product(id: int, name: string, price: int)

  /** The four products offered on the page, in display order. */
  const Products: seq<Product> := [
    Product(1, "Laptop", 500),
    Product(2, "Smartphone", 300),
    Product(3, "Headphones", 100),
    Product(4, "Smartwatch", 150)
  ]

  /** The promotional product, given away at no charge. */
  const FreeGift: Product := Product(99, "Wireless Mouse", 0)

  /** The subtotal from which the free gift is granted. */
  const Threshold: int := 1000

  /** A catalogue product is determined by its id. */
  predicate DistinctIds(ps: seq<Product>)
  {
    forall i, j :: 0 <= i < j < |ps| ==> ps[i].id != ps[j].id
  }

  /** The catalogue's ids are distinct, none of them is the gift's, every
      price is positive, and the gift itself costs nothing. */
  lemma CatalogueShape()
    ensures DistinctIds(Products)
    ensures forall p :: p in Products ==> p.price > 0 && p.id != FreeGift.id
    ensures FreeGift.price == 0 && Threshold > 0
  {
  }

  /** Two catalogue products with the same id are the same product. */
  lemma SameIdSameProduct(p: Product, q: Product)
    requires p in Products && q in Products && p.id == q.id
    ensures p == q
  {
  }
}
