/** The product catalogue: a constant table of twelve records, looked up
    by id when a product is added to the cart. */
module Catalogue {
  import opened Common

  /** One catalogue record. Prices are whole rupees. The star rating, a
      decimal in the catalogue, is kept as tenths of a star. */
  datatype Product = Product(
    id: int,
    name: string,
    category: string,
    price: int,
    oldPrice: int,
    img: string,
    discount: int,
    tags: seq<string>,
    inStock: bool,
    ratingTenths: int,
    reviewCount: int)

  /** The five category names the catalogue uses. */
  const Categories: set<string> := {"Sport", "Reading", "Sun", "Blue Light", "Fashion"}

  /** The product photographs, by product id. */
  const Image1: string := "https://images.unsplash.com/photo-1577803645773-f96470509666?q=80&w=2070&auto=format&fit=crop"
  const Image2: string := "https://images.unsplash.com/photo-1511499767150-a48a237f0083?q=80&w=2080&auto=format&fit=crop"
  const Image3: string := "https://images.unsplash.com/photo-1473496169904-658ba7c44d8a?q=80&w=2070&auto=format&fit=crop"
  const Image4: string := "https://images.unsplash.com/photo-1591076482161-42ce6da69f67?q=80&w=2070&auto=format&fit=crop"
  const Image5: string := "https://images.unsplash.com/photo-1572635196237-14b3f281503f?q=80&w=2080&auto=format&fit=crop"
  const Image6: string := "https://images.unsplash.com/photo-1574258495973-f010dfbb5371?q=80&w=2070&auto=format&fit=crop"
  const Image7: string := "https://images.unsplash.com/photo-1583394838336-acd977736f90?q=80&w=2084&auto=format&fit=crop"
  const Image8: string := "https://images.unsplash.com/photo-1509695507497-903c140c43b0?q=80&w=2073&auto=format&fit=crop"
  const Image9: string := "https://images.unsplash.com/photo-1542293787938-4d36399c31d7?q=80&w=2070&auto=format&fit=crop"
  const Image10: string := "https://images.unsplash.com/photo-1582719478250-c89cae4dc85b?q=80&w=2070&auto=format&fit=crop"
  const Image11: string := "https://images.unsplash.com/photo-1524504388940-b1c1722653e1?q=80&w=2070&auto=format&fit=crop"
  const Image12: string := "https://images.unsplash.com/photo-1522938974444-f12497b69347?q=80&w=2070&auto=format&fit=crop"

  /** The catalogue, in declaration order. */
  const ProductsData: seq<Product> := [
    Product(1, "Neon Vision", "Sport", 3499, 4299, Image1,
            18, ["UV400", "Polarized"], true, 45, 128),
    Product(2, "Crystal Clear", "Reading", 2299, 2899, Image2,
            20, ["Blue-Light", "Anti-Glare"], true, 45, 128),
    Product(3, "Golden Hour", "Sun", 4199, 5299, Image3,
            20, ["UV400", "Polarized"], false, 45, 128),
    Product(4, "Urban Tech", "Blue Light", 2699, 3499, Image4,
            22, ["Blue-Light", "Anti-Glare"], true, 45, 128),
    Product(5, "Classic Aviator", "Sun", 3899, 4899, Image5,
            20, ["UV400", "Polarized"], true, 45, 128),
    Product(6, "Retro Round", "Fashion", 2999, 3899, Image6,
            23, ["Vintage", "Anti-Glare"], true, 45, 128),
    Product(7, "Smart Vision", "Blue Light", 2899, 3599, Image7,
            19, ["Blue-Light", "Anti-Glare"], true, 45, 128),
    Product(8, "Elite Pro", "Sport", 4899, 5999, Image8,
            18, ["UV400", "Polarized"], true, 45, 128),
    Product(9, "Midnight Matte", "Fashion", 3199, 3799, Image9,
            16, ["Matte", "Featherlight"], true, 45, 128),
    Product(10, "Aurora Blue", "Blue Light", 2799, 3399, Image10,
            18, ["Blue-Light", "Anti-Glare"], true, 45, 128),
    Product(11, "Desert Trail", "Sport", 4599, 5499, Image11,
            16, ["UV400", "Impact-Resist"], true, 45, 128),
    Product(12, "Library Luxe", "Reading", 2499, 3099, Image12,
            19, ["Blue-Light", "Comfort Fit"], true, 45, 128)
  ]

  /** `catalogue.find(p => p.id === id)`: the first record with that id, or
      nothing when no record has it. */
  function FindProduct(catalogue: seq<Product>, id: int): (r: Option<Product>)
    ensures r.Some? ==> r.value in catalogue && r.value.id == id
    ensures r.Some? ==>
      exists i :: 0 <= i < |catalogue| && catalogue[i] == r.value && forall j :: 0 <= j < i ==> catalogue[j].id != id
    ensures r.None? <==> forall i :: 0 <= i < |catalogue| ==> catalogue[i].id != id
  {
    if catalogue == [] then None
    else if catalogue[0].id == id then Some(catalogue[0])
    else FindProduct(catalogue[1..], id)
  }

  /** In a table whose ids run consecutively from `base`, the lookup of an
      id finds the record at offset `id - base`, and nothing outside the run. */
  lemma {:induction false} FindInIdRun(catalogue: seq<Product>, base: int, id: int)
    requires forall i :: 0 <= i < |catalogue| ==> catalogue[i].id == base + i
    ensures FindProduct(catalogue, id) ==
      if base <= id < base + |catalogue| then Some(catalogue[id - base]) else None
  {
    if catalogue != [] && catalogue[0].id != id {
      FindInIdRun(catalogue[1..], base + 1, id);
    }
  }

  /** The ids are exactly 1 to 12, in declaration order. */
  lemma CatalogueIds()
    ensures |ProductsData| == 12
    ensures forall i :: 0 <= i < |ProductsData| ==> ProductsData[i].id == i + 1
  {
  }

  /** Hence no two records share an id. */
  lemma CatalogueIdsUnique()
    ensures forall i, j :: 0 <= i < j < |ProductsData| ==> ProductsData[i].id != ProductsData[j].id
  {
    CatalogueIds();
  }

  /** Looking up an id finds the record of that id exactly when it lies in 1..12. */
  lemma CatalogueLookup(id: int)
    ensures FindProduct(ProductsData, id) ==
      if 1 <= id <= 12 then Some(ProductsData[id - 1]) else None
  {
    CatalogueIds();
    FindInIdRun(ProductsData, 1, id);
  }

  /** Every record is on sale: a positive price below the old price, a
      discount between 0 and 100, one of the five categories, exactly two
      tags and a non-negative review count. */
  lemma CatalogueRecordInvariants()
    ensures forall i :: 0 <= i < |ProductsData| ==>
      var p := ProductsData[i];
      && 0 < p.price < p.oldPrice
      && 0 <= p.discount <= 100
      && p.category in Categories
      && |p.tags| == 2
      && p.reviewCount >= 0
  {
    PricesBelowOldPrices();
    DiscountsInRange();
    CategoriesKnown();
    TwoTags();
    ReviewCountsNonNegative();
  }

  lemma PricesBelowOldPrices()
    ensures forall i :: 0 <= i < |ProductsData| ==> 0 < ProductsData[i].price < ProductsData[i].oldPrice
  {
  }

  lemma DiscountsInRange()
    ensures forall i :: 0 <= i < |ProductsData| ==> 0 <= ProductsData[i].discount <= 100
  {
  }

  lemma CategoriesKnown()
    ensures forall i :: 0 <= i < |ProductsData| ==> ProductsData[i].category in Categories
  {
  }

  lemma TwoTags()
    ensures forall i :: 0 <= i < |ProductsData| ==> |ProductsData[i].tags| == 2
  {
  }

  lemma ReviewCountsNonNegative()
    ensures forall i :: 0 <= i < |ProductsData| ==> ProductsData[i].reviewCount >= 0
  {
  }

  /** Exactly one record, the one with id 3, is out of stock. */
  lemma OnlyProduct3OutOfStock()
    ensures forall i :: 0 <= i < |ProductsData| ==> (!ProductsData[i].inStock <==> ProductsData[i].id == 3)
  {
  }

  /** So looking up id 3 finds an out-of-stock record. */
  lemma Product3OutOfStock()
    ensures FindProduct(ProductsData, 3).Some? && !FindProduct(ProductsData, 3).value.inStock
  {
    CatalogueLookup(3);
    CatalogueIds();
    OnlyProduct3OutOfStock();
  }
}
