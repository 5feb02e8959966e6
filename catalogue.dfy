/** The product catalogue of the coffee shop (js/products.js): lookup by id,
    keyword search, and the administrator's add / update / delete, which
    rewrite the stored product list. */
module Catalogue {
  import opened Common
  import opened Lists
  import opened Strings

  /** A product record as stored under the products key. Seeded products may
      have no `createdAt`. */
  datatype Product = Product(
    id: string,
    name: string,
    categoryId: Option<string>,
    price: int,
    image: string,
    description: string,
    allowSize: bool,
    allowTopping: bool,
    rating: real,
    reviews: int,
    createdAt: Option<int>)

  const NotFoundMessage := "Không tìm thấy sản phẩm."
  const MissingFieldsMessage := "Vui lòng nhập tên và giá sản phẩm."
  const AddedMessage := "Thêm sản phẩm thành công!"
  const UpdatedMessage := "Cập nhật sản phẩm thành công!"
  const DeletedMessage := "Xóa sản phẩm thành công!"
  /** The picture a product gets when none is given: a coffee cup. */
  const DefaultImage := "\U{2615}"

  // ---------------------------------------------------------------------------
  // Lookup and search

  /** Position of the first product with this id, -1 when there is none. */
  function ProductIndex(products: seq<Product>, id: string): (k: int)
    ensures -1 <= k < |products|
    ensures k == -1 <==> forall i :: 0 <= i < |products| ==> products[i].id != id
    ensures k != -1 ==> products[k].id == id && forall i :: 0 <= i < k ==> products[i].id != id
  {
    FirstIndex(products, (p: Product) => p.id == id)
  }

  /** `getProductById`: the first product whose id matches, or nothing. */
  function GetProductById(products: seq<Product>, id: string): (r: Option<Product>)
    ensures r.None? <==> forall i :: 0 <= i < |products| ==> products[i].id != id
    ensures r.Some? ==> r.value.id == id && r.value in products
    ensures r.Some? ==> r.value == products[ProductIndex(products, id)]
  {
    var k := ProductIndex(products, id);
    if k == -1 then None else Some(products[k])
  }

  /** A product matches a (lower-cased, trimmed) search term when its lower-cased
      name or description contains it. */
  predicate MatchesTerm(p: Product, term: string, lower: char -> char)
  {
    Contains(Lowered(p.name, lower), term) || Contains(Lowered(p.description, lower), term)
  }

  /** `searchProducts`: every product for a blank query; otherwise the
      matching products, in catalogue order, each as often as it is listed. */
  function SearchProducts(products: seq<Product>, query: string, lower: char -> char): (r: seq<Product>)
    ensures Trim(query) == [] ==> r == products
    ensures Trim(query) != [] ==> IsSubsequence(r, products)
    ensures Trim(query) != [] ==>
      forall p :: multiset(r)[p] == if MatchesTerm(p, Trim(Lowered(query, lower)), lower) then multiset(products)[p] else 0
  {
    if Trim(query) == [] then products
    else
      var term := Trim(Lowered(query, lower));
      Filter(products, (p: Product) => MatchesTerm(p, term, lower))
  }

  // ---------------------------------------------------------------------------
  // Adding a product

  /** The form data `addProduct` receives; every field may be missing. */
  datatype ProductInput = ProductInput(
    name: Option<string>,
    price: Option<int>,
    categoryId: Option<string>,
    image: Option<string>,
    description: Option<string>,
    allowSize: Option<bool>,
    allowTopping: Option<bool>)

  /** `addProduct` refuses the data when the name or the price is falsy:
      missing, the empty name, or the price 0. */
  predicate IsAcceptable(data: ProductInput)
  {
    data.name.Some? && data.name.value != "" && data.price.Some? && data.price.value != 0
  }

  /** The record `addProduct` builds: trimmed name, defaults for the optional
      fields, rating 5 with no reviews, created now. */
  function NewProduct(data: ProductInput, id: string, now: int): (p: Product)
    requires IsAcceptable(data)
    ensures p.id == id && p.name == Trim(data.name.value) && p.price == data.price.value
    ensures p.categoryId == NonEmpty(data.categoryId)
    ensures p.description == data.description.GetOr("")
    ensures p.image == NonEmpty(data.image).GetOr(DefaultImage)
    ensures p.allowSize <==> data.allowSize != Some(false)
    ensures p.allowTopping <==> data.allowTopping != Some(false)
    ensures p.createdAt == Some(now) && p.rating == 5.0 && p.reviews == 0
  {
    Product(
      id := id,
      name := Trim(data.name.value),
      categoryId := NonEmpty(data.categoryId),
      price := data.price.value,
      image := NonEmpty(data.image).GetOr(DefaultImage),
      description := data.description.GetOr(""),
      allowSize := data.allowSize != Some(false),
      allowTopping := data.allowTopping != Some(false),
      rating := 5.0,
      reviews := 0,
      createdAt := Some(now))
  }

  /** The category a product is grouped under; products without one go last as "zzz". */
  function CategoryKey(p: Product): string
  {
    NonEmpty(p.categoryId).GetOr("zzz")
  }

  /** `createdAt || 0`. */
  function TimeKey(p: Product): int
  {
    p.createdAt.GetOr(0)
  }

  /** The comparator of `addProduct`'s sort, as "a may stay before b":
      categories in ascending order, newest first within a category. */
  predicate CatalogueLeq(a: Product, b: Product)
  {
    if CategoryKey(a) != CategoryKey(b) then StrLeq(CategoryKey(a), CategoryKey(b))
    else TimeKey(a) >= TimeKey(b)
  }

  lemma CatalogueLeqIsTotalPreorder()
    ensures IsTotalPreorder(CatalogueLeq)
  {
    forall a, b ensures CatalogueLeq(a, b) || CatalogueLeq(b, a) {
      StrLeqTotal(CategoryKey(a), CategoryKey(b));
    }
    forall a, b, c | CatalogueLeq(a, b) && CatalogueLeq(b, c) ensures CatalogueLeq(a, c) {
      var ka, kb, kc := CategoryKey(a), CategoryKey(b), CategoryKey(c);
      if ka != kb && kb != kc {
        StrLeqTransitive(ka, kb, kc);
        if ka == kc {
          StrLeqAntisymmetric(kb, kc);
        }
      }
    }
  }

  /** The catalogue order `addProduct` leaves behind. */
  function SortByCategory(products: seq<Product>): (r: seq<Product>)
    ensures multiset(r) == multiset(products)
  {
    Sort(products, CatalogueLeq)
  }

  /** Two products are tied under the comparator exactly when they share a
      category key and a creation time (a missing time counting as 0); the
      re-sort keeps tied products in the order they were listed. */
  lemma SortByCategoryKeepsTies(products: seq<Product>, q: Product)
    ensures forall z :: Tied(CatalogueLeq, q, z) <==> CategoryKey(z) == CategoryKey(q) && TimeKey(z) == TimeKey(q)
    ensures Filter(SortByCategory(products), z => Tied(CatalogueLeq, q, z)) == Filter(products, z => Tied(CatalogueLeq, q, z))
  {
    forall z | Tied(CatalogueLeq, q, z) ensures CategoryKey(z) == CategoryKey(q) {
      if CategoryKey(z) != CategoryKey(q) {
        StrLeqAntisymmetric(CategoryKey(z), CategoryKey(q));
      }
    }
    CatalogueLeqIsTotalPreorder();
    SortIsStable(products, CatalogueLeq, q);
  }

  /** After an addition the stored list holds the old products and the new one,
      ordered by category and, within a category, newest first; a product
      newer than every product of its category is listed before all of them. */
  lemma {:induction false} AddedProductPlacement(products: seq<Product>, p: Product)
    ensures |SortByCategory(products + [p])| == |products| + 1
    ensures multiset(SortByCategory(products + [p])) == multiset(products) + multiset{p}
    ensures IsSorted(SortByCategory(products + [p]), CatalogueLeq)
    ensures (forall q :: q in products && CategoryKey(q) == CategoryKey(p) ==> TimeKey(q) < TimeKey(p)) ==>
      var r := SortByCategory(products + [p]);
      forall i, j :: 0 <= i < |r| && 0 <= j < |r| && r[i] == p && r[j] != p && CategoryKey(r[j]) == CategoryKey(p) ==> i < j
  {
    var r := SortByCategory(products + [p]);
    assert multiset(products + [p]) == multiset(products) + multiset{p};
    assert |r| == |multiset(r)| == |products| + 1;
    CatalogueLeqIsTotalPreorder();
    SortIsSorted(products + [p], CatalogueLeq);
    if forall q :: q in products && CategoryKey(q) == CategoryKey(p) ==> TimeKey(q) < TimeKey(p) {
      forall i, j | 0 <= i < |r| && 0 <= j < |r| && r[i] == p && r[j] != p && CategoryKey(r[j]) == CategoryKey(p)
        ensures i < j
      {
        assert r[j] in multiset(r);
        assert r[j] in products;
      }
    }
  }

  // ---------------------------------------------------------------------------
  // Updating and deleting

  /** The fields `updateProduct` may overwrite: a missing field keeps the old value. */
  datatype ProductPatch = ProductPatch(
    id: Option<string>,
    name: Option<string>,
    categoryId: Option<Option<string>>,
    price: Option<int>,
    image: Option<string>,
    description: Option<string>,
    allowSize: Option<bool>,
    allowTopping: Option<bool>,
    rating: Option<real>,
    reviews: Option<int>,
    createdAt: Option<Option<int>>)

  const NoChange := ProductPatch(None, None, None, None, None, None, None, None, None, None, None)

  /** `{ ...product, ...data }`: the fields present in the patch win. */
  function Patched(p: Product, d: ProductPatch): (r: Product)
    ensures d.id.Some? ==> r.id == d.id.value
    ensures d.id.None? ==> r.id == p.id
    ensures d.name.Some? ==> r.name == d.name.value
    ensures d.name.None? ==> r.name == p.name
    ensures d.categoryId.Some? ==> r.categoryId == d.categoryId.value
    ensures d.categoryId.None? ==> r.categoryId == p.categoryId
    ensures d.price.Some? ==> r.price == d.price.value
    ensures d.price.None? ==> r.price == p.price
    ensures d.image.Some? ==> r.image == d.image.value
    ensures d.image.None? ==> r.image == p.image
    ensures d.description.Some? ==> r.description == d.description.value
    ensures d.description.None? ==> r.description == p.description
    ensures d.allowSize.Some? ==> r.allowSize == d.allowSize.value
    ensures d.allowSize.None? ==> r.allowSize == p.allowSize
    ensures d.allowTopping.Some? ==> r.allowTopping == d.allowTopping.value
    ensures d.allowTopping.None? ==> r.allowTopping == p.allowTopping
    ensures d.rating.Some? ==> r.rating == d.rating.value
    ensures d.rating.None? ==> r.rating == p.rating
    ensures d.reviews.Some? ==> r.reviews == d.reviews.value
    ensures d.reviews.None? ==> r.reviews == p.reviews
    ensures d.createdAt.Some? ==> r.createdAt == d.createdAt.value
    ensures d.createdAt.None? ==> r.createdAt == p.createdAt
  {
    Product(
      id := d.id.GetOr(p.id),
      name := d.name.GetOr(p.name),
      categoryId := d.categoryId.GetOr(p.categoryId),
      price := d.price.GetOr(p.price),
      image := d.image.GetOr(p.image),
      description := d.description.GetOr(p.description),
      allowSize := d.allowSize.GetOr(p.allowSize),
      allowTopping := d.allowTopping.GetOr(p.allowTopping),
      rating := d.rating.GetOr(p.rating),
      reviews := d.reviews.GetOr(p.reviews),
      createdAt := d.createdAt.GetOr(p.createdAt))
  }

  /** A shallow merge keeps a product when nothing is given, and merging the
      same patch twice is merging it once. */
  lemma PatchedLaws(p: Product, d: ProductPatch)
    ensures Patched(p, NoChange) == p
    ensures Patched(Patched(p, d), d) == Patched(p, d)
  {
  }

  /** `deleteProduct`'s filter: every product but those with this id, in order. */
  function WithoutProduct(products: seq<Product>, id: string): (r: seq<Product>)
    ensures IsSubsequence(r, products)
    ensures forall p :: p in r <==> p in products && p.id != id
    ensures forall p {:trigger multiset(r)[p]} :: multiset(r)[p] == if p.id != id then multiset(products)[p] else 0
  {
    Filter(products, (p: Product) => p.id != id)
  }

  /** The length test of `deleteProduct` reports failure exactly when no
      product had the id, so deleting the same id twice fails the second time. */
  lemma DeleteFailsIffAbsent(products: seq<Product>, id: string)
    ensures |WithoutProduct(products, id)| == |products| <==> forall i :: 0 <= i < |products| ==> products[i].id != id
    ensures |WithoutProduct(WithoutProduct(products, id), id)| == |WithoutProduct(products, id)|
  {
    FilterKeepsLength(products, (p: Product) => p.id != id);
    var once := WithoutProduct(products, id);
    FilterKeepsLength(once, (p: Product) => p.id != id);
    assert forall i :: 0 <= i < |once| ==> once[i] in once;
  }

  /** The stored product list and the administrator's operations on it. */
  class ProductStore {
    /** What `getProducts` reads (an absent entry reads as the empty list). */
    var products: seq<Product>

    constructor (stored: seq<Product>)
      ensures products == stored
    {
      products := stored;
    }

    /** `addProduct`: validate, append the new product, re-sort, save. */
    method AddProduct(data: ProductInput, freshId: string, now: int) returns (r: Response, created: Option<Product>)
      modifies this
      ensures !IsAcceptable(data) ==>
        r == Response(false, MissingFieldsMessage) && created == None && products == old(products)
      ensures IsAcceptable(data) ==>
        && r == Response(true, AddedMessage)
        && created == Some(NewProduct(data, freshId, now))
        && products == SortByCategory(old(products) + [NewProduct(data, freshId, now)])
    {
      if !IsAcceptable(data) {
        return Response(false, MissingFieldsMessage), None;
      }
      var p := NewProduct(data, freshId, now);
      var list := products;
      list := list + [p];
      list := SortByCategory(list);
      products := list;
      return Response(true, AddedMessage), Some(p);
    }

    /** `updateProduct`: merge the patch into the first product with the id. */
    method UpdateProduct(id: string, patch: ProductPatch) returns (r: Response)
      modifies this
      ensures ProductIndex(old(products), id) == -1 ==>
        r == Response(false, NotFoundMessage) && products == old(products)
      ensures ProductIndex(old(products), id) != -1 ==>
        var k := ProductIndex(old(products), id);
        && r == Response(true, UpdatedMessage)
        && |products| == |old(products)|
        && products[k] == Patched(old(products)[k], patch)
        && forall i :: 0 <= i < |products| && i != k ==> products[i] == old(products)[i]
    {
      var k := ProductIndex(products, id);
      if k == -1 {
        return Response(false, NotFoundMessage);
      }
      products := products[k := Patched(products[k], patch)];
      return Response(true, UpdatedMessage);
    }

    /** `deleteProduct`: drop every product with the id, or fail when none had it. */
    method DeleteProduct(id: string) returns (r: Response)
      modifies this
      ensures (forall i :: 0 <= i < |old(products)| ==> old(products)[i].id != id) ==>
        r == Response(false, NotFoundMessage) && products == old(products)
      ensures (exists i :: 0 <= i < |old(products)| && old(products)[i].id == id) ==>
        r == Response(true, DeletedMessage) && products == WithoutProduct(old(products), id)
    {
      var kept := WithoutProduct(products, id);
      DeleteFailsIffAbsent(products, id);
      if |kept| == |products| {
        return Response(false, NotFoundMessage);
      }
      products := kept;
      return Response(true, DeletedMessage);
    }
  }
}
