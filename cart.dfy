/** The shopping-cart engine of the coffee shop (js/cart.js): per-user carts of
    priced line items, the duplicate merge of `addToCart`, quantity changes,
    removal, clearing, re-pricing an edited item, and the aggregates shown in
    the header badge and the cart summary. */
module Cart {
  import opened Common
  import opened Lists
  import opened Strings
  import Catalogue

  /** A size option as the size catalogue returns it. */
  datatype Size = Size(id: string, name: string, priceAdd: int)

  /** A topping as the topping catalogue returns it. */
  datatype Topping = Topping(id: string, name: string, price: int)

  /** One line of a cart. Names and prices are a snapshot taken when the line
      was added or edited. */
  datatype LineItem = LineItem(
    id: string,
    productId: string,
    productName: string,
    productImage: string,
    sizeId: Option<string>,
    sizeName: Option<string>,
    sizePrice: int,
    toppingIds: seq<string>,
    toppingNames: seq<string>,
    toppingPrice: int,
    basePrice: int,
    unitPrice: int,
    quantity: int,
    totalPrice: int)

  const LoginMessage := "Vui lòng đăng nhập."
  const ProductMissingMessage := "Không tìm thấy sản phẩm."
  const AddedMessage := "Đã thêm vào giỏ hàng!"
  const ItemMissingMessage := "Không tìm thấy sản phẩm trong giỏ."
  const QuantityMessage := "Đã cập nhật số lượng."
  const RemovedMessage := "Đã xóa khỏi giỏ hàng."

  // ---------------------------------------------------------------------------
  // Pricing

  /** `sizeId ? getSizeById(sizeId) : null`. */
  function ResolveSize(sizeId: Option<string>, sizeOf: string -> Option<Size>): (size: Option<Size>)
    ensures NonEmpty(sizeId).None? ==> size.None?
    ensures NonEmpty(sizeId).Some? ==> size == sizeOf(sizeId.value)
  {
    if NonEmpty(sizeId).Some? then sizeOf(sizeId.value) else None
  }

  /** `size ? size.priceAdd : 0`. */
  function SizePrice(size: Option<Size>): int
  {
    if size.Some? then size.value.priceAdd else 0
  }

  /** `size?.id || null`: an unknown size, or one with an empty id, is stored as no size. */
  function StoredSizeId(size: Option<Size>): Option<string>
  {
    if size.Some? then NonEmpty(Some(size.value.id)) else None
  }

  function StoredSizeName(size: Option<Size>): Option<string>
  {
    if size.Some? then NonEmpty(Some(size.value.name)) else None
  }

  function ToppingPrice(t: Topping): int { t.price }

  /** The price of the resolved toppings, summed as `reduce` does. */
  function ToppingTotal(toppings: seq<Topping>): (total: int)
    ensures toppings == [] ==> total == 0
  {
    Sum(toppings, ToppingPrice)
  }

  function ToppingNames(toppings: seq<Topping>): seq<string>
  {
    seq(|toppings|, i requires 0 <= i < |toppings| => toppings[i].name)
  }

  /** The price rules every stored line obeys: unit price is base price plus
      size surcharge plus toppings, and the line total is unit price times quantity. */
  predicate WellPriced(x: LineItem)
  {
    x.unitPrice == x.basePrice + x.sizePrice + x.toppingPrice && x.totalPrice == x.unitPrice * x.quantity
  }

  /** The line `addToCart` prices for a product, a resolved size and the resolved toppings. */
  function NewLineItem(id: string, product: Catalogue.Product, size: Option<Size>,
                       toppingIds: seq<string>, toppings: seq<Topping>, quantity: int): (x: LineItem)
    ensures WellPriced(x)
    ensures x.basePrice == product.price && x.sizePrice == SizePrice(size) && x.toppingPrice == ToppingTotal(toppings)
    ensures x.unitPrice == product.price + SizePrice(size) + ToppingTotal(toppings)
    ensures x.id == id && x.productId == product.id && x.quantity == quantity
    ensures x.sizeId == StoredSizeId(size) && x.toppingIds == toppingIds
  {
    var unitPrice := product.price + SizePrice(size) + ToppingTotal(toppings);
    LineItem(
      id := id,
      productId := product.id,
      productName := product.name,
      productImage := product.image,
      sizeId := StoredSizeId(size),
      sizeName := StoredSizeName(size),
      sizePrice := SizePrice(size),
      toppingIds := toppingIds,
      toppingNames := ToppingNames(toppings),
      toppingPrice := ToppingTotal(toppings),
      basePrice := product.price,
      unitPrice := unitPrice,
      quantity := quantity,
      totalPrice := unitPrice * quantity)
  }

  // ---------------------------------------------------------------------------
  // Configuration identity

  /** What makes two lines the same purchase: product, size and the toppings
      as a multiset (the code compares sorted id lists, so order is ignored
      but a repeated id counts). */
  datatype Config = Config(productId: string, sizeId: Option<string>, toppings: multiset<string>)

  function ConfigOf(x: LineItem): Config
  {
    Config(x.productId, x.sizeId, multiset(x.toppingIds))
  }

  /** At most one line per configuration. */
  predicate UniqueConfigs(cart: seq<LineItem>)
  {
    forall i, j :: 0 <= i < j < |cart| ==> ConfigOf(cart[i]) != ConfigOf(cart[j])
  }

  predicate AllWellPriced(cart: seq<LineItem>)
  {
    forall i :: 0 <= i < |cart| ==> WellPriced(cart[i])
  }

  predicate UniqueIds(cart: seq<LineItem>)
  {
    forall i, j :: 0 <= i < j < |cart| ==> cart[i].id != cart[j].id
  }

  /** `a` is `b` with, at most, its topping ids stored in another order. */
  predicate SameButToppingOrder(a: LineItem, b: LineItem)
  {
    a == b.(toppingIds := a.toppingIds) && multiset(a.toppingIds) == multiset(b.toppingIds)
  }

  /** The default `sort()` of an id list. */
  function SortIds(ids: seq<string>): (r: seq<string>)
    ensures multiset(r) == multiset(ids)
  {
    Sort(ids, StrLeq)
  }

  /** Comparing sorted id lists is comparing the lists as multisets. */
  lemma {:induction false} SortedIdsEqualIffSameMultiset(a: seq<string>, b: seq<string>)
    ensures SortIds(a) == SortIds(b) <==> multiset(a) == multiset(b)
  {
    if multiset(a) == multiset(b) {
      StrLeqIsTotalOrder();
      SortIsSorted(a, StrLeq);
      SortIsSorted(b, StrLeq);
      SortedIsUnique(SortIds(a), SortIds(b), StrLeq);
    }
  }

  /** What the duplicate search of `addToCart` leaves behind: the index found
      (-1 for none), the cart whose compared lines had their topping lists
      sorted in place, and the new line's topping list, sorted in place as
      soon as one comparison ran. */
  datatype Scan = Scan(index: int, cart: seq<LineItem>, toppingIds: seq<string>)

  /** The `findIndex` of `addToCart`: the first line with the same product,
      the same size and the same sorted toppings. Both topping lists of a
      compared line are sorted in place, so the search also reorders them. */
  function ScanForMerge(cart: seq<LineItem>, productId: string, sizeId: Option<string>, toppingIds: seq<string>): (r: Scan)
    ensures |r.cart| == |cart| && -1 <= r.index < |cart|
    ensures multiset(r.toppingIds) == multiset(toppingIds)
  {
    if cart == [] then Scan(-1, [], toppingIds)
    else
      var item := cart[0];
      if item.productId == productId && item.sizeId == sizeId then
        var mine := SortIds(item.toppingIds);
        var theirs := SortIds(toppingIds);
        var sorted := item.(toppingIds := mine);
        if mine == theirs then
          Scan(0, [sorted] + cart[1..], theirs)
        else
          var rest := ScanForMerge(cart[1..], productId, sizeId, theirs);
          Scan(if rest.index == -1 then -1 else rest.index + 1, [sorted] + rest.cart, rest.toppingIds)
      else
        var rest := ScanForMerge(cart[1..], productId, sizeId, toppingIds);
        Scan(if rest.index == -1 then -1 else rest.index + 1, [item] + rest.cart, rest.toppingIds)
  }

  /** Each line of `after` is the line of `before` at its position, at most
      with its toppings reordered, and lines of another product or size are
      exactly as they were. */
  predicate KeepsLines(after: seq<LineItem>, before: seq<LineItem>, productId: string, sizeId: Option<string>)
  {
    && |after| == |before|
    && (forall i :: 0 <= i < |before| ==> SameButToppingOrder(after[i], before[i]))
    && (forall i :: 0 <= i < |before| && (before[i].productId != productId || before[i].sizeId != sizeId) ==> after[i] == before[i])
  }

  lemma KeepsLinesCons(x: LineItem, y: LineItem, after: seq<LineItem>, before: seq<LineItem>, productId: string, sizeId: Option<string>)
    requires KeepsLines(after, before, productId, sizeId) && SameButToppingOrder(x, y)
    requires y.productId != productId || y.sizeId != sizeId ==> x == y
    ensures KeepsLines([x] + after, [y] + before, productId, sizeId)
  {
    var a := [x] + after;
    var b := [y] + before;
    forall i | 1 <= i < |b|
      ensures SameButToppingOrder(a[i], b[i])
      ensures b[i].productId != productId || b[i].sizeId != sizeId ==> a[i] == b[i]
    {
      assert a[i] == after[i - 1] && b[i] == before[i - 1];
    }
  }

  /** The search changes no line but for the order of its toppings, and
      leaves lines of another product or size exactly as they were. */
  lemma {:induction false} ScanKeepsLines(cart: seq<LineItem>, productId: string, sizeId: Option<string>, toppingIds: seq<string>)
    ensures KeepsLines(ScanForMerge(cart, productId, sizeId, toppingIds).cart, cart, productId, sizeId)
  {
    if cart != [] {
      var r := ScanForMerge(cart, productId, sizeId, toppingIds);
      var item := cart[0];
      var tail := cart[1..];
      assert cart == [item] + tail;
      if item.productId == productId && item.sizeId == sizeId {
        var theirs := SortIds(toppingIds);
        var sorted := item.(toppingIds := SortIds(item.toppingIds));
        if SortIds(item.toppingIds) == theirs {
          assert KeepsLines(tail, tail, productId, sizeId);
          KeepsLinesCons(sorted, item, tail, tail, productId, sizeId);
        } else {
          ScanKeepsLines(tail, productId, sizeId, theirs);
          KeepsLinesCons(sorted, item, ScanForMerge(tail, productId, sizeId, theirs).cart, tail, productId, sizeId);
        }
      } else {
        ScanKeepsLines(tail, productId, sizeId, toppingIds);
        KeepsLinesCons(item, item, ScanForMerge(tail, productId, sizeId, toppingIds).cart, tail, productId, sizeId);
      }
    }
  }

  /** The search finds the first line of the same configuration: same
      product, same size and the same toppings counted with repetition,
      whatever their order. */
  lemma {:induction false} ScanFindsFirst(cart: seq<LineItem>, productId: string, sizeId: Option<string>, toppingIds: seq<string>)
    ensures ScanForMerge(cart, productId, sizeId, toppingIds).index == ConfigIndex(cart, Config(productId, sizeId, multiset(toppingIds)))
  {
    if cart != [] {
      var c := Config(productId, sizeId, multiset(toppingIds));
      var item := cart[0];
      var tail := cart[1..];
      ConfigIndexCons(cart, c);
      if item.productId == productId && item.sizeId == sizeId {
        SortedIdsEqualIffSameMultiset(item.toppingIds, toppingIds);
        if SortIds(item.toppingIds) != SortIds(toppingIds) {
          ScanFindsFirst(tail, productId, sizeId, SortIds(toppingIds));
        }
      } else {
        ScanFindsFirst(tail, productId, sizeId, toppingIds);
      }
    }
  }

  lemma ConfigIndexCons(cart: seq<LineItem>, c: Config)
    requires cart != []
    ensures ConfigIndex(cart, c) ==
      if ConfigOf(cart[0]) == c then 0
      else if ConfigIndex(cart[1..], c) == -1 then -1
      else ConfigIndex(cart[1..], c) + 1
  {
  }

  /** Position of the first line with configuration `c`, -1 when there is none. */
  function ConfigIndex(cart: seq<LineItem>, c: Config): (k: int)
    ensures -1 <= k < |cart|
    ensures k == -1 <==> forall i :: 0 <= i < |cart| ==> ConfigOf(cart[i]) != c
    ensures k != -1 ==> ConfigOf(cart[k]) == c && forall i :: 0 <= i < k ==> ConfigOf(cart[i]) != c
  {
    FirstIndex(cart, (x: LineItem) => ConfigOf(x) == c)
  }

  // ---------------------------------------------------------------------------
  // addToCart

  /** The merged line: more of the same, at the line's own unit price. */
  function Merged(x: LineItem, quantity: int): (r: LineItem)
    ensures r.id == x.id && ConfigOf(r) == ConfigOf(x) && r.unitPrice == x.unitPrice
    ensures r.quantity == x.quantity + quantity
    ensures WellPriced(x) ==> WellPriced(r)
  {
    x.(quantity := x.quantity + quantity, totalPrice := x.unitPrice * (x.quantity + quantity))
  }

  /** What `addToCart` does with the search result: add the quantity to the
      line found, or append the new line with its topping list as the search
      left it. */
  function MergeOrAppend(scan: Scan, item: LineItem): seq<LineItem>
    requires -1 <= scan.index < |scan.cart|
  {
    if scan.index != -1 then scan.cart[scan.index := Merged(scan.cart[scan.index], item.quantity)]
    else scan.cart + [item.(toppingIds := scan.toppingIds)]
  }

  /** The cart `addToCart` saves once it has priced `item`. */
  function CartAfterAdd(cart: seq<LineItem>, item: LineItem): seq<LineItem>
  {
    MergeOrAppend(ScanForMerge(cart, item.productId, item.sizeId, item.toppingIds), item)
  }

  /** What the search result tells about the cart it ran on: the same lines
      up to topping order, and the index of the first line configured like `item`. */
  predicate FaithfulScan(cart: seq<LineItem>, item: LineItem, scan: Scan)
  {
    && KeepsLines(scan.cart, cart, item.productId, item.sizeId)
    && scan.index == ConfigIndex(cart, ConfigOf(item))
    && multiset(scan.toppingIds) == multiset(item.toppingIds)
  }

  lemma {:induction false} ScanIsFaithful(cart: seq<LineItem>, item: LineItem)
    ensures FaithfulScan(cart, item, ScanForMerge(cart, item.productId, item.sizeId, item.toppingIds))
  {
    ScanKeepsLines(cart, item.productId, item.sizeId, item.toppingIds);
    ScanFindsFirst(cart, item.productId, item.sizeId, item.toppingIds);
  }

  /** The outcome `addToCart` promises: an added line merges into the first
      line of the same configuration, which gains the quantity at its old
      unit price, and the cart keeps its length; otherwise the line is
      appended at the end. Nothing else changes but the stored order of some
      topping lists. */
  predicate MergedOrAppended(cart: seq<LineItem>, item: LineItem, r: seq<LineItem>)
  {
    var k := ConfigIndex(cart, ConfigOf(item));
    && (k != -1 ==>
         && |r| == |cart|
         && SameButToppingOrder(r[k], Merged(cart[k], item.quantity))
         && forall i :: 0 <= i < |cart| && i != k ==> SameButToppingOrder(r[i], cart[i]))
    && (k == -1 ==>
         && |r| == |cart| + 1
         && SameButToppingOrder(r[|cart|], item)
         && forall i :: 0 <= i < |cart| ==> SameButToppingOrder(r[i], cart[i]))
  }

  lemma {:induction false} FaithfulScanMergesOrAppends(cart: seq<LineItem>, item: LineItem, scan: Scan)
    requires FaithfulScan(cart, item, scan)
    ensures MergedOrAppended(cart, item, MergeOrAppend(scan, item))
  {
    var r := MergeOrAppend(scan, item);
    var k := scan.index;
    if k != -1 {
      assert r[k] == Merged(scan.cart[k], item.quantity);
      MergedKeepsSameLine(scan.cart[k], cart[k], item.quantity);
    } else {
      assert r == scan.cart + [item.(toppingIds := scan.toppingIds)];
    }
  }

  lemma MergedKeepsSameLine(a: LineItem, b: LineItem, q: int)
    requires SameButToppingOrder(a, b)
    ensures SameButToppingOrder(Merged(a, q), Merged(b, q))
  {
  }

  lemma {:induction false} AddMergesOrAppends(cart: seq<LineItem>, item: LineItem)
    ensures MergedOrAppended(cart, item, CartAfterAdd(cart, item))
  {
    var scan := ScanForMerge(cart, item.productId, item.sizeId, item.toppingIds);
    ScanIsFaithful(cart, item);
    FaithfulScanMergesOrAppends(cart, item, scan);
  }

  /** `addToCart` keeps one line per configuration. */
  lemma {:induction false} AddKeepsUniqueConfigs(cart: seq<LineItem>, item: LineItem)
    requires UniqueConfigs(cart)
    ensures UniqueConfigs(CartAfterAdd(cart, item))
  {
    AddMergesOrAppends(cart, item);
    OutcomeKeepsUniqueConfigs(cart, item, CartAfterAdd(cart, item));
  }

  lemma {:induction false} OutcomeKeepsUniqueConfigs(cart: seq<LineItem>, item: LineItem, r: seq<LineItem>)
    requires UniqueConfigs(cart) && MergedOrAppended(cart, item, r)
    ensures UniqueConfigs(r)
  {
    assert forall i :: 0 <= i < |cart| ==> ConfigOf(r[i]) == ConfigOf(cart[i]);
  }

  /** `addToCart` keeps every line priced consistently. */
  lemma {:induction false} AddKeepsPrices(cart: seq<LineItem>, item: LineItem)
    requires AllWellPriced(cart) && WellPriced(item)
    ensures AllWellPriced(CartAfterAdd(cart, item))
  {
    AddMergesOrAppends(cart, item);
    OutcomeKeepsPrices(cart, item, CartAfterAdd(cart, item));
  }

  lemma {:induction false} OutcomeKeepsPrices(cart: seq<LineItem>, item: LineItem, r: seq<LineItem>)
    requires AllWellPriced(cart) && WellPriced(item) && MergedOrAppended(cart, item, r)
    ensures AllWellPriced(r)
  {
    var k := ConfigIndex(cart, ConfigOf(item));
    forall i | 0 <= i < |r| ensures WellPriced(r[i]) {
      if i == k {
        MergedTotal(cart[k], item.quantity);
        SameButToppingOrderKeeps(r[k], Merged(cart[k], item.quantity));
      } else if i < |cart| {
        SameButToppingOrderKeeps(r[i], cart[i]);
      } else {
        SameButToppingOrderKeeps(r[i], item);
      }
    }
  }

  /** Adding a positive quantity keeps every quantity positive. */
  lemma {:induction false} AddKeepsPositive(cart: seq<LineItem>, item: LineItem)
    requires PositiveQuantities(cart) && item.quantity > 0
    ensures PositiveQuantities(CartAfterAdd(cart, item))
  {
    AddMergesOrAppends(cart, item);
    var r := CartAfterAdd(cart, item);
    assert forall i :: 0 <= i < |cart| && i != ConfigIndex(cart, ConfigOf(item)) ==> r[i].quantity == cart[i].quantity;
  }

  /** `addToCart` keeps line ids distinct when the new line's id is fresh. */
  lemma {:induction false} AddKeepsIds(cart: seq<LineItem>, item: LineItem)
    requires UniqueIds(cart) && forall i :: 0 <= i < |cart| ==> cart[i].id != item.id
    ensures UniqueIds(CartAfterAdd(cart, item))
  {
    AddMergesOrAppends(cart, item);
    OutcomeKeepsIds(cart, item, CartAfterAdd(cart, item));
  }

  lemma {:induction false} OutcomeKeepsIds(cart: seq<LineItem>, item: LineItem, r: seq<LineItem>)
    requires UniqueIds(cart) && forall i :: 0 <= i < |cart| ==> cart[i].id != item.id
    requires MergedOrAppended(cart, item, r)
    ensures UniqueIds(r)
  {
    assert forall i :: 0 <= i < |cart| ==> r[i].id == cart[i].id;
  }

  function LineQuantity(x: LineItem): int { x.quantity }
  function LineTotal(x: LineItem): int { x.totalPrice }
  function LinePrice(x: LineItem): int { x.unitPrice * x.quantity }

  /** `calculateTotal`: the line totals summed; for consistently priced
      lines, the sum of unit price times quantity. */
  function CartTotal(cart: seq<LineItem>): (total: int)
    ensures cart == [] ==> total == 0
    ensures AllWellPriced(cart) ==> total == Sum(cart, LinePrice)
  {
    LineTotalsArePrices(cart);
    Sum(cart, LineTotal)
  }

  lemma LineTotalsArePrices(cart: seq<LineItem>)
    ensures AllWellPriced(cart) ==> Sum(cart, LineTotal) == Sum(cart, LinePrice)
  {
    if AllWellPriced(cart) {
      SumPointwise(cart, LineTotal, cart, LinePrice);
    }
  }

  /** `getCartCount`: the quantities summed. */
  function CartCount(cart: seq<LineItem>): (count: int)
    ensures cart == [] ==> count == 0
  {
    Sum(cart, LineQuantity)
  }

  /** The quantity a line contributes to configuration `c`. */
  function QuantityIn(c: Config): LineItem -> int
  {
    (x: LineItem) => if ConfigOf(x) == c then x.quantity else 0
  }

  /** Every line holds at least one unit. */
  predicate PositiveQuantities(cart: seq<LineItem>)
  {
    forall i :: 0 <= i < |cart| ==> cart[i].quantity > 0
  }

  /** With positive quantities the item count is at least the number of lines. */
  lemma {:induction false} CountAtLeastLines(cart: seq<LineItem>)
    requires PositiveQuantities(cart)
    ensures CartCount(cart) >= |cart|
  {
    if cart != [] {
      CountAtLeastLines(cart[..|cart| - 1]);
    }
  }

  /** With positive quantities the badge is hidden exactly when the cart is empty. */
  lemma BadgeHiddenIffEmpty(cart: seq<LineItem>)
    requires PositiveQuantities(cart)
    ensures BadgeFor(CartCount(cart)).Hidden? <==> cart == []
  {
    CountAtLeastLines(cart);
  }

  /** How many units of configuration `c` the cart holds. */
  function QuantityOf(cart: seq<LineItem>, c: Config): int
  {
    Sum(cart, QuantityIn(c))
  }

  /** A sum that ignores topping order changes only at the merged or appended line. */
  lemma {:induction false} OutcomeSum(cart: seq<LineItem>, item: LineItem, r: seq<LineItem>, f: LineItem -> int)
    requires MergedOrAppended(cart, item, r)
    requires forall a, b :: SameButToppingOrder(a, b) ==> f(a) == f(b)
    ensures
      var k := ConfigIndex(cart, ConfigOf(item));
      Sum(r, f) == Sum(cart, f) + if k != -1 then f(Merged(cart[k], item.quantity)) - f(cart[k]) else f(item)
  {
    var k := ConfigIndex(cart, ConfigOf(item));
    if k != -1 {
      var m := cart[k := Merged(cart[k], item.quantity)];
      SumUpdate(cart, k, Merged(cart[k], item.quantity), f);
      assert forall i :: 0 <= i < |r| ==> f(r[i]) == f(m[i]);
      SumPointwise(r, f, m, f);
    } else {
      var front := r[..|cart|];
      assert r == front + [r[|cart|]];
      SumAppend(front, [r[|cart|]], f);
      assert forall i :: 0 <= i < |cart| ==> f(front[i]) == f(cart[i]);
      SumPointwise(front, f, cart, f);
      assert Sum([r[|cart|]], f) == f(r[|cart|]);
    }
  }

  /** Adding `q` units raises the item count by `q`, the units of the added
      configuration by `q` and of every other configuration by nothing; the
      total rises by `q` times the unit price of the line that received them. */
  lemma {:induction false} AddCounts(cart: seq<LineItem>, item: LineItem, c: Config)
    ensures CartCount(CartAfterAdd(cart, item)) == CartCount(cart) + item.quantity
    ensures QuantityOf(CartAfterAdd(cart, item), c) == QuantityOf(cart, c) + if c == ConfigOf(item) then item.quantity else 0
    ensures AllWellPriced(cart) && WellPriced(item) ==>
      var r := CartAfterAdd(cart, item);
      var k := ConfigIndex(cart, ConfigOf(item));
      var j := if k != -1 then k else |cart|;
      0 <= j < |r| && ConfigOf(r[j]) == ConfigOf(item) && CartTotal(r) == CartTotal(cart) + r[j].unitPrice * item.quantity
  {
    AddMergesOrAppends(cart, item);
    OutcomeCounts(cart, item, CartAfterAdd(cart, item), c);
  }

  lemma {:induction false} OutcomeCounts(cart: seq<LineItem>, item: LineItem, r: seq<LineItem>, c: Config)
    requires MergedOrAppended(cart, item, r)
    ensures CartCount(r) == CartCount(cart) + item.quantity
    ensures QuantityOf(r, c) == QuantityOf(cart, c) + if c == ConfigOf(item) then item.quantity else 0
    ensures AllWellPriced(cart) && WellPriced(item) ==>
      var k := ConfigIndex(cart, ConfigOf(item));
      var j := if k != -1 then k else |cart|;
      0 <= j < |r| && ConfigOf(r[j]) == ConfigOf(item) && CartTotal(r) == CartTotal(cart) + r[j].unitPrice * item.quantity
  {
    OutcomeSum(cart, item, r, LineQuantity);
    OutcomeSum(cart, item, r, QuantityIn(c));
    if AllWellPriced(cart) && WellPriced(item) {
      OutcomeTotal(cart, item, r);
    }
  }

  lemma {:induction false} OutcomeTotal(cart: seq<LineItem>, item: LineItem, r: seq<LineItem>)
    requires MergedOrAppended(cart, item, r) && AllWellPriced(cart) && WellPriced(item)
    ensures
      var k := ConfigIndex(cart, ConfigOf(item));
      var j := if k != -1 then k else |cart|;
      0 <= j < |r| && CartTotal(r) == CartTotal(cart) + r[j].unitPrice * item.quantity
  {
    OutcomeSum(cart, item, r, LineTotal);
    var k := ConfigIndex(cart, ConfigOf(item));
    if k != -1 {
      var x := cart[k];
      assert WellPriced(x) && r[k].unitPrice == x.unitPrice;
      MergedTotal(x, item.quantity);
    } else {
      var u := item.unitPrice;
      assert r[|cart|].unitPrice == u;
      assert LineTotal(item) == u * item.quantity;
      assert CartTotal(r) == CartTotal(cart) + u * item.quantity;
    }
  }

  /** Merging `q` more units into a consistently priced line adds `q` times its unit price. */
  lemma MergedTotal(x: LineItem, q: int)
    requires WellPriced(x)
    ensures WellPriced(Merged(x, q))
    ensures LineTotal(Merged(x, q)) == LineTotal(x) + x.unitPrice * q
  {
    assert x.unitPrice * (x.quantity + q) == x.unitPrice * x.quantity + x.unitPrice * q;
  }

  /** In a cart with one line per configuration, the units of a configuration
      are the quantity of its line. */
  lemma {:induction false} QuantityOfUniqueLine(cart: seq<LineItem>, i: nat)
    requires UniqueConfigs(cart) && i < |cart|
    ensures QuantityOf(cart, ConfigOf(cart[i])) == cart[i].quantity
  {
    var c := ConfigOf(cart[i]);
    var n := |cart| - 1;
    var front := cart[..n];
    assert cart == front + [cart[n]];
    if i == n {
      assert forall j :: 0 <= j < n ==> QuantityIn(c)(front[j]) == 0;
      SumPointwise(front, QuantityIn(c), front, (x: LineItem) => 0);
      ZeroSum(front);
    } else {
      assert UniqueConfigs(front);
      QuantityOfUniqueLine(front, i);
    }
  }

  lemma {:induction false} ZeroSum(s: seq<LineItem>)
    ensures Sum(s, (x: LineItem) => 0) == 0
  {
    if s != [] {
      ZeroSum(s[..|s| - 1]);
    }
  }

  /** A run of `addToCart` calls, each saving what the previous one left. */
  function AddAll(cart: seq<LineItem>, items: seq<LineItem>): seq<LineItem>
    decreases |items|
  {
    if items == [] then cart else AddAll(CartAfterAdd(cart, items[0]), items[1..])
  }

  /** Reordering the toppings of a line keeps its configuration, its
      quantities and whether it is consistently priced. */
  lemma SameButToppingOrderKeeps(a: LineItem, b: LineItem)
    requires SameButToppingOrder(a, b)
    ensures ConfigOf(a) == ConfigOf(b) && a.id == b.id && a.quantity == b.quantity && a.unitPrice == b.unitPrice
    ensures WellPriced(a) <==> WellPriced(b)
  {
  }

  /** A line added to a cart holding one line of the same configuration merges into it. */
  lemma {:induction false} AddToSingleLine(x: LineItem, item: LineItem)
    requires ConfigOf(item) == ConfigOf(x)
    ensures |CartAfterAdd([x], item)| == 1
    ensures SameButToppingOrder(CartAfterAdd([x], item)[0], Merged(x, item.quantity))
  {
    AddMergesOrAppends([x], item);
    assert ConfigOf([x][0]) == ConfigOf(item);
  }

  /** Lines of one configuration added to a cart that holds a single line of
      it all land on that line, which ends with the sum of the quantities. */
  lemma {:induction false} AddsLandOnOneLine(x: LineItem, items: seq<LineItem>)
    requires forall i :: 0 <= i < |items| ==> ConfigOf(items[i]) == ConfigOf(x)
    ensures |AddAll([x], items)| == 1
    ensures ConfigOf(AddAll([x], items)[0]) == ConfigOf(x)
    ensures AddAll([x], items)[0].quantity == x.quantity + Sum(items, LineQuantity)
    ensures AddAll([x], items)[0].unitPrice == x.unitPrice
    ensures WellPriced(x) ==> WellPriced(AddAll([x], items)[0])
    decreases |items|
  {
    if items != [] {
      var first := items[0];
      var rest := items[1..];
      assert items == [first] + rest;
      AddToSingleLine(x, first);
      var r := CartAfterAdd([x], first);
      var y := r[0];
      assert r == [y];
      SameButToppingOrderKeeps(y, Merged(x, first.quantity));
      if WellPriced(x) {
        MergedTotal(x, first.quantity);
      }
      assert forall i :: 0 <= i < |rest| ==> rest[i] == items[i + 1];
      AddsLandOnOneLine(y, rest);
      assert AddAll([x], items) == AddAll([y], rest);
      SumAppend([first], rest, LineQuantity);
      assert Sum([first], LineQuantity) == first.quantity;
    }
  }

  /** Starting from an empty cart, any number of additions of one
      configuration, in any topping order, leave exactly one line whose
      quantity is the sum of the requested quantities. */
  lemma {:induction false} SameConfigurationMerges(items: seq<LineItem>)
    requires items != []
    requires forall i :: 0 <= i < |items| ==> ConfigOf(items[i]) == ConfigOf(items[0])
    ensures |AddAll([], items)| == 1
    ensures AddAll([], items)[0].quantity == Sum(items, LineQuantity)
    ensures WellPriced(items[0]) ==> AddAll([], items)[0].totalPrice == AddAll([], items)[0].unitPrice * Sum(items, LineQuantity)
  {
    var first := items[0];
    assert CartAfterAdd([], first) == [first];
    AddsLandOnOneLine(first, items[1..]);
    assert items == [first] + items[1..];
    SumAppend([first], items[1..], LineQuantity);
    assert Sum([first], LineQuantity) == first.quantity;
  }

  /** Lines of another size (one absent and one present included) or of
      another product are never merged into: an add leaves them exactly as
      they were. */
  lemma {:induction false} AddLeavesOtherConfigurationsAlone(cart: seq<LineItem>, item: LineItem)
    ensures |CartAfterAdd(cart, item)| >= |cart|
    ensures forall i :: 0 <= i < |cart| && (cart[i].productId != item.productId || cart[i].sizeId != item.sizeId) ==>
      CartAfterAdd(cart, item)[i] == cart[i]
  {
    var scan := ScanForMerge(cart, item.productId, item.sizeId, item.toppingIds);
    ScanIsFaithful(cart, item);
    var r := CartAfterAdd(cart, item);
    assert r == MergeOrAppend(scan, item);
    forall i | 0 <= i < |cart| && (cart[i].productId != item.productId || cart[i].sizeId != item.sizeId)
      ensures r[i] == cart[i]
    {
      assert scan.cart[i] == cart[i];
      if scan.index != -1 {
        assert ConfigOf(cart[scan.index]) == ConfigOf(item);
        assert i != scan.index;
      }
    }
  }

  /** The shop's worked price example: a 25 000 drink in a size costing
      5 000 more, with two toppings of 10 000, ordered twice, into an empty cart. */
  lemma {:induction false} PricingExample(p: Catalogue.Product)
    requires p.id == "p1" && p.price == 25000
    ensures
      var toppings := [Topping("t1", "Trân châu đen", 10000), Topping("t2", "Trân châu trắng", 10000)];
      var x := NewLineItem("ci1", p, Some(Size("s2", "Vừa", 5000)), ["t1", "t2"], toppings, 2);
      var r := CartAfterAdd([], x);
      && x.unitPrice == 50000 && x.totalPrice == 100000
      && r == [x] && CartTotal(r) == 100000 && CartCount(r) == 2
  {
    var toppings := [Topping("t1", "Trân châu đen", 10000), Topping("t2", "Trân châu trắng", 10000)];
    var first := toppings[..1];
    assert first == [toppings[0]] && first[..0] == [];
    assert Sum(first, ToppingPrice) == Sum(first[..0], ToppingPrice) + ToppingPrice(first[0]) == 10000;
    assert Sum(toppings, ToppingPrice) == Sum(first, ToppingPrice) + ToppingPrice(toppings[1]) == 20000;
    var x := NewLineItem("ci1", p, Some(Size("s2", "Vừa", 5000)), ["t1", "t2"], toppings, 2);
    assert x.unitPrice == 50000;
    assert x.totalPrice == 100000;
    AddToEmptyCart(x);
    assert [x][..|[x]| - 1] == [];
    assert Sum([x], LineTotal) == Sum([], LineTotal) + LineTotal(x) == 100000;
    assert Sum([x], LineQuantity) == Sum([], LineQuantity) + LineQuantity(x) == 2;
  }

  /** The first add to an empty cart makes a cart of exactly that line. */
  lemma AddToEmptyCart(item: LineItem)
    ensures CartAfterAdd([], item) == [item]
  {
    assert ScanForMerge([], item.productId, item.sizeId, item.toppingIds).index == -1;
  }

  /** Two adds of one configuration to an empty cart make a single line
      holding both quantities, priced at the first line's unit price. */
  lemma {:induction false} AddTwiceMerges(x: LineItem, y: LineItem)
    requires ConfigOf(y) == ConfigOf(x) && WellPriced(x)
    ensures
      var r := CartAfterAdd(CartAfterAdd([], x), y);
      && |r| == 1 && r[0].quantity == x.quantity + y.quantity
      && r[0].unitPrice == x.unitPrice && WellPriced(r[0])
  {
    AddToEmptyCart(x);
    AddToSingleLine(x, y);
    var r := CartAfterAdd([x], y);
    SameButToppingOrderKeeps(r[0], Merged(x, y.quantity));
    MergedTotal(x, y.quantity);
  }

  /** Adding a drink and then the same drink with its toppings listed in the
      other order gives one line of quantity 2 at the drink's unit price,
      whose total is that unit price times 2. */
  lemma {:induction false} ToppingOrderExample(x: LineItem, y: LineItem, t1: string, t2: string)
    requires x.toppingIds == [t1, t2] && x.quantity == 1 && WellPriced(x)
    requires y == x.(id := y.id, toppingIds := [t2, t1])
    ensures
      var r := CartAfterAdd(CartAfterAdd([], x), y);
      |r| == 1 && r[0].quantity == 2 && r[0].unitPrice == x.unitPrice && WellPriced(r[0])
  {
    assert multiset(y.toppingIds) == multiset(x.toppingIds);
    AddTwiceMerges(x, y);
  }

  /** Topping ids count with their repetitions: a line listing a topping
      twice is not merged into a line listing it once. */
  lemma {:induction false} RepeatedToppingIsDistinct(x: LineItem)
    requires x.toppingIds == ["t1"]
    ensures |CartAfterAdd([x], x.(id := "ci2", toppingIds := ["t1", "t1"]))| == 2
  {
    var y := x.(id := "ci2", toppingIds := ["t1", "t1"]);
    assert multiset(y.toppingIds)["t1"] == 2 && multiset(x.toppingIds)["t1"] == 1;
    assert ConfigOf([x][0]) != ConfigOf(y);
    AddMergesOrAppends([x], y);
  }

  // ---------------------------------------------------------------------------
  // updateQuantity, removeFromCart, saveEditCartItem

  /** Position of the first line with this id (`find`/`findIndex`), -1 for none. */
  function ItemIndex(cart: seq<LineItem>, id: string): (k: int)
    ensures -1 <= k < |cart|
    ensures k == -1 <==> forall i :: 0 <= i < |cart| ==> cart[i].id != id
    ensures k != -1 ==> cart[k].id == id && forall i :: 0 <= i < k ==> cart[i].id != id
  {
    FirstIndex(cart, (x: LineItem) => x.id == id)
  }

  /** `removeFromCart`'s filter: every line but those with this id, in order. */
  function RemoveById(cart: seq<LineItem>, id: string): (r: seq<LineItem>)
    ensures IsSubsequence(r, cart)
    ensures forall x :: x in r <==> x in cart && x.id != id
    ensures forall x {:trigger multiset(r)[x]} :: multiset(r)[x] == if x.id != id then multiset(cart)[x] else 0
  {
    Filter(cart, (x: LineItem) => x.id != id)
  }

  /** Removal drops every line with the id, keeps the others in order,
      changes nothing the second time, keeps the invariants, and takes away
      exactly one line when ids are distinct. */
  lemma {:induction false} RemoveLaws(cart: seq<LineItem>, id: string)
    ensures RemoveById(RemoveById(cart, id), id) == RemoveById(cart, id)
    ensures UniqueConfigs(cart) ==> UniqueConfigs(RemoveById(cart, id))
    ensures AllWellPriced(cart) ==> AllWellPriced(RemoveById(cart, id))
    ensures UniqueIds(cart) && ItemIndex(cart, id) != -1 ==> |RemoveById(cart, id)| == |cart| - 1
    ensures ItemIndex(cart, id) == -1 ==> RemoveById(cart, id) == cart
  {
    var keep := (x: LineItem) => x.id != id;
    FilterIdempotent(cart, keep);
    FilterKeepsLength(cart, keep);
    var r := RemoveById(cart, id);
    assert forall i :: 0 <= i < |r| ==> r[i] in cart;
    if UniqueIds(cart) && ItemIndex(cart, id) != -1 {
      FilterDropsOne(cart, keep, ItemIndex(cart, id));
    }
    if UniqueConfigs(cart) {
      FilterKeepsUniqueConfigs(cart, keep);
    }
  }

  lemma {:induction false} FilterKeepsUniqueConfigs(cart: seq<LineItem>, keep: LineItem -> bool)
    requires UniqueConfigs(cart)
    ensures UniqueConfigs(Filter(cart, keep))
  {
    if cart != [] {
      var tail := cart[1..];
      assert forall i :: 1 <= i < |cart| ==> tail[i - 1] == cart[i];
      assert UniqueConfigs(tail);
      FilterKeepsUniqueConfigs(tail, keep);
      var rest := Filter(tail, keep);
      if keep(cart[0]) {
        forall j | 0 <= j < |rest| ensures ConfigOf(cart[0]) != ConfigOf(rest[j]) {
          assert rest[j] in rest;
        }
        assert Filter(cart, keep) == [cart[0]] + rest;
      }
    }
  }

  /** The line with a new quantity, re-totalled at its own unit price. */
  function Requantified(x: LineItem, quantity: int): (r: LineItem)
    ensures r.id == x.id && ConfigOf(r) == ConfigOf(x) && r.unitPrice == x.unitPrice
    ensures r.quantity == quantity
    ensures WellPriced(x) ==> WellPriced(r)
  {
    x.(quantity := quantity, totalPrice := x.unitPrice * quantity)
  }

  lemma RequantifiedIsWellPriced(x: LineItem, quantity: int)
    requires WellPriced(x)
    ensures WellPriced(Requantified(x, quantity))
  {
  }

  /** The cart `updateQuantity` leaves: nothing when the id is absent; the
      cart without the line when its quantity would drop to 0 or below;
      otherwise the cart with only that line's quantity changed. */
  function CartAfterQuantity(cart: seq<LineItem>, id: string, delta: int): Option<seq<LineItem>>
  {
    var k := ItemIndex(cart, id);
    if k == -1 then None
    else if cart[k].quantity + delta <= 0 then Some(RemoveById(cart, id))
    else Some(cart[k := Requantified(cart[k], cart[k].quantity + delta)])
  }

  /** `updateQuantity` fails exactly when no line has the id. */
  lemma {:induction false} QuantityFailsIffAbsent(cart: seq<LineItem>, id: string, delta: int)
    ensures CartAfterQuantity(cart, id, delta).None? <==> forall i :: 0 <= i < |cart| ==> cart[i].id != id
  {
  }

  /** A change that leaves a positive quantity touches only the first line
      with the id, re-totals it at its own unit price, and moves the item
      count by `delta`. */
  lemma {:induction false} QuantityChangesOneLine(cart: seq<LineItem>, id: string, delta: int)
    ensures
      var k := ItemIndex(cart, id);
      k != -1 && cart[k].quantity + delta > 0 ==>
        var r := CartAfterQuantity(cart, id, delta).value;
        && |r| == |cart|
        && r[k].quantity == cart[k].quantity + delta
        && r[k].totalPrice == r[k].unitPrice * r[k].quantity
        && r[k] == cart[k].(quantity := r[k].quantity, totalPrice := r[k].totalPrice)
        && (forall i :: 0 <= i < |cart| && i != k ==> r[i] == cart[i])
        && CartCount(r) == CartCount(cart) + delta
  {
    var k := ItemIndex(cart, id);
    if k != -1 && cart[k].quantity + delta > 0 {
      SumUpdate(cart, k, Requantified(cart[k], cart[k].quantity + delta), LineQuantity);
    }
  }

  /** A change to 0 or below removes the line, which is one line fewer when
      ids are distinct. */
  lemma {:induction false} QuantityToZeroRemoves(cart: seq<LineItem>, id: string, delta: int)
    ensures
      var k := ItemIndex(cart, id);
      k != -1 && cart[k].quantity + delta <= 0 ==>
        && CartAfterQuantity(cart, id, delta).value == RemoveById(cart, id)
        && (UniqueIds(cart) ==> |RemoveById(cart, id)| == |cart| - 1)
  {
    RemoveLaws(cart, id);
  }

  /** `updateQuantity` keeps one line per configuration. */
  lemma {:induction false} QuantityKeepsUniqueConfigs(cart: seq<LineItem>, id: string, delta: int)
    requires CartAfterQuantity(cart, id, delta).Some? && UniqueConfigs(cart)
    ensures UniqueConfigs(CartAfterQuantity(cart, id, delta).value)
  {
    var k := ItemIndex(cart, id);
    if cart[k].quantity + delta <= 0 {
      RemoveLaws(cart, id);
    } else {
      var r := CartAfterQuantity(cart, id, delta).value;
      assert forall i :: 0 <= i < |cart| ==> ConfigOf(r[i]) == ConfigOf(cart[i]);
    }
  }

  /** `updateQuantity` never leaves a line at 0 or below. */
  lemma {:induction false} QuantityKeepsPositive(cart: seq<LineItem>, id: string, delta: int)
    requires CartAfterQuantity(cart, id, delta).Some? && PositiveQuantities(cart)
    ensures PositiveQuantities(CartAfterQuantity(cart, id, delta).value)
  {
    var k := ItemIndex(cart, id);
    if cart[k].quantity + delta <= 0 {
      var r := RemoveById(cart, id);
      assert forall i :: 0 <= i < |r| ==> r[i] in cart;
    }
  }

  /** `updateQuantity` keeps every line priced consistently. */
  lemma {:induction false} QuantityKeepsPrices(cart: seq<LineItem>, id: string, delta: int)
    requires CartAfterQuantity(cart, id, delta).Some? && AllWellPriced(cart)
    ensures AllWellPriced(CartAfterQuantity(cart, id, delta).value)
  {
    var k := ItemIndex(cart, id);
    if cart[k].quantity + delta <= 0 {
      RemoveLaws(cart, id);
    } else {
      var r := cart[k := Requantified(cart[k], cart[k].quantity + delta)];
      forall i | 0 <= i < |r| ensures WellPriced(r[i]) {
        if i == k {
          RequantifiedIsWellPriced(cart[k], cart[k].quantity + delta);
        }
      }
    }
  }

  /** The line after `saveEditCartItem`: same id, product, quantity and base
      price, re-priced from the stored base price with the new size and toppings. */
  function EditedItem(x: LineItem, size: Option<Size>, toppingIds: seq<string>, toppings: seq<Topping>): (y: LineItem)
    ensures WellPriced(y)
    ensures y.id == x.id && y.productId == x.productId && y.quantity == x.quantity && y.basePrice == x.basePrice
    ensures y.unitPrice == x.basePrice + SizePrice(size) + ToppingTotal(toppings)
    ensures y.sizeId == StoredSizeId(size) && y.toppingIds == toppingIds
  {
    var unitPrice := x.basePrice + SizePrice(size) + ToppingTotal(toppings);
    x.(
      sizeId := StoredSizeId(size),
      sizeName := StoredSizeName(size),
      sizePrice := SizePrice(size),
      toppingIds := toppingIds,
      toppingNames := ToppingNames(toppings),
      toppingPrice := ToppingTotal(toppings),
      unitPrice := unitPrice,
      totalPrice := unitPrice * x.quantity)
  }

  /** The cart `saveEditCartItem` saves, or nothing when the id is absent. */
  function CartAfterEdit(cart: seq<LineItem>, id: string, size: Option<Size>,
                         toppingIds: seq<string>, toppings: seq<Topping>): Option<seq<LineItem>>
  {
    var k := ItemIndex(cart, id);
    if k == -1 then None else Some(cart[k := EditedItem(cart[k], size, toppingIds, toppings)])
  }

  /** An edit fails exactly for an absent id, replaces only the first line
      with the id, keeps the item count and consistent prices, and runs no
      merge. */
  lemma {:induction false} EditLaws(cart: seq<LineItem>, id: string, size: Option<Size>, toppingIds: seq<string>, toppings: seq<Topping>)
    ensures CartAfterEdit(cart, id, size, toppingIds, toppings).None? <==> forall i :: 0 <= i < |cart| ==> cart[i].id != id
    ensures CartAfterEdit(cart, id, size, toppingIds, toppings).Some? ==>
      var r := CartAfterEdit(cart, id, size, toppingIds, toppings).value;
      var k := ItemIndex(cart, id);
      && |r| == |cart|
      && r[k] == EditedItem(cart[k], size, toppingIds, toppings)
      && (forall i :: 0 <= i < |cart| && i != k ==> r[i] == cart[i])
      && CartCount(r) == CartCount(cart)
      && (AllWellPriced(cart) ==> AllWellPriced(r))
  {
    var k := ItemIndex(cart, id);
    if k != -1 {
      SumUpdate(cart, k, EditedItem(cart[k], size, toppingIds, toppings), LineQuantity);
    }
  }

  /** Because an edit runs no merge, it can leave two lines of one
      configuration: here the second line is edited to the first one's
      size and toppings. */
  lemma {:induction false} EditCanDuplicate(a: LineItem, b: LineItem)
    requires a.id != b.id && a.productId == b.productId && a.sizeId == None && b.sizeId != None
    ensures UniqueConfigs([a, b])
    ensures CartAfterEdit([a, b], b.id, None, a.toppingIds, []).Some?
    ensures !UniqueConfigs(CartAfterEdit([a, b], b.id, None, a.toppingIds, []).value)
  {
    assert [a, b][1].id == b.id;
    var r := CartAfterEdit([a, b], b.id, None, a.toppingIds, []).value;
    assert ConfigOf(r[0]) == ConfigOf(r[1]);
  }

  // ---------------------------------------------------------------------------
  // Badge

  /** What the header badge shows for an item count. */
  datatype Badge = Hidden | Shown(text: string)

  /** `updateCartBadge`: hidden for an empty cart, the count up to 99, "99+" above. */
  function BadgeFor(count: int): (b: Badge)
    ensures b.Hidden? <==> count <= 0
    ensures b.Shown? ==> (b.text == "99+" <==> count > 99)
    ensures 0 < count <= 99 ==> b == Shown(NatToString(count))
  {
    if count <= 0 then Hidden
    else if count > 99 then Shown("99+")
    else
      var text := NatToString(count);
      assert text[|text| - 1] != '+';
      Shown(text)
  }

  // ---------------------------------------------------------------------------
  // The per-user cart store

  /** The carts of all users, as stored under the cart key, and who is logged in. */
  class CartStore {
    var carts: map<string, seq<LineItem>>
    var user: Option<string>

    constructor (stored: map<string, seq<LineItem>>, current: Option<string>)
      ensures carts == stored && user == current
    {
      carts := stored;
      user := current;
    }

    /** Every stored cart holds at most one line per configuration. */
    predicate OneLinePerConfiguration()
      reads this
    {
      forall u :: u in carts ==> UniqueConfigs(carts[u])
    }

    /** Every stored line is priced consistently. */
    predicate ConsistentlyPriced()
      reads this
    {
      forall u :: u in carts ==> AllWellPriced(carts[u])
    }

    /** `getCart`: the current user's cart; empty without a user or an entry. */
    function GetCart(): (cart: seq<LineItem>)
      reads this
      ensures user.None? ==> cart == []
      ensures user.Some? ==> cart == if user.value in carts then carts[user.value] else []
    {
      if user.Some? && user.value in carts then carts[user.value] else []
    }

    /** `saveCart`: replace the current user's entry only; nothing without a user. */
    method SaveCart(cart: seq<LineItem>)
      modifies this
      ensures user == old(user)
      ensures user.None? ==> carts == old(carts)
      ensures user.Some? ==> carts == old(carts)[user.value := cart] && GetCart() == cart
      ensures old(OneLinePerConfiguration()) && UniqueConfigs(cart) ==> OneLinePerConfiguration()
      ensures old(ConsistentlyPriced()) && AllWellPriced(cart) ==> ConsistentlyPriced()
    {
      if user.None? {
        return;
      }
      carts := carts[user.value := cart];
    }

    /** `addToCart`. */
    method AddToCart(products: seq<Catalogue.Product>, sizeOf: string -> Option<Size>,
                     toppingsOf: seq<string> -> seq<Topping>, productId: string,
                     sizeId: Option<string>, toppingIds: seq<string>, quantity: int,
                     freshId: string) returns (r: Response)
      modifies this
      ensures user == old(user)
      ensures user.None? ==> r == Response(false, LoginMessage) && carts == old(carts)
      ensures user.Some? && Catalogue.GetProductById(products, productId).None? ==>
        r == Response(false, ProductMissingMessage) && carts == old(carts)
      ensures user.Some? && Catalogue.GetProductById(products, productId).Some? ==>
        var item := NewLineItem(freshId, Catalogue.GetProductById(products, productId).value,
                                ResolveSize(sizeId, sizeOf), toppingIds, toppingsOf(toppingIds), quantity);
        r == Response(true, AddedMessage) && carts == old(carts)[user.value := CartAfterAdd(old(GetCart()), item)]
      ensures old(OneLinePerConfiguration()) ==> OneLinePerConfiguration()
      ensures old(ConsistentlyPriced()) ==> ConsistentlyPriced()
    {
      if user.None? {
        return Response(false, LoginMessage);
      }
      var product := Catalogue.GetProductById(products, productId);
      if product.None? {
        return Response(false, ProductMissingMessage);
      }
      var size := ResolveSize(sizeId, sizeOf);
      var toppings := toppingsOf(toppingIds);
      var item := NewLineItem(freshId, product.value, size, toppingIds, toppings, quantity);
      var before := GetCart();
      var scan := ScanForMerge(before, item.productId, item.sizeId, item.toppingIds);
      var cart := scan.cart;
      if scan.index != -1 {
        cart := cart[scan.index := Merged(cart[scan.index], quantity)];
      } else {
        cart := cart + [item.(toppingIds := scan.toppingIds)];
      }
      assert cart == MergeOrAppend(scan, item) == CartAfterAdd(before, item);
      if OneLinePerConfiguration() {
        AddKeepsUniqueConfigs(before, item);
      }
      if ConsistentlyPriced() {
        AddKeepsPrices(before, item);
      }
      SaveCart(cart);
      return Response(true, AddedMessage);
    }

    /** `updateQuantity`. */
    method UpdateQuantity(cartItemId: string, delta: int) returns (r: Response)
      modifies this
      ensures user == old(user)
      ensures CartAfterQuantity(old(GetCart()), cartItemId, delta).None? ==>
        r == Response(false, ItemMissingMessage) && carts == old(carts)
      ensures CartAfterQuantity(old(GetCart()), cartItemId, delta).Some? ==>
        var k := ItemIndex(old(GetCart()), cartItemId);
        && user.Some?
        && r == Response(true, if old(GetCart())[k].quantity + delta <= 0 then RemovedMessage else QuantityMessage)
        && carts == old(carts)[user.value := CartAfterQuantity(old(GetCart()), cartItemId, delta).value]
      ensures old(OneLinePerConfiguration()) ==> OneLinePerConfiguration()
      ensures old(ConsistentlyPriced()) ==> ConsistentlyPriced()
    {
      var cart := GetCart();
      var k := ItemIndex(cart, cartItemId);
      if k == -1 {
        return Response(false, ItemMissingMessage);
      }
      var item := cart[k].(quantity := cart[k].quantity + delta);
      if item.quantity <= 0 {
        r := RemoveFromCart(cartItemId);
        return;
      }
      item := item.(totalPrice := item.unitPrice * item.quantity);
      assert cart[k := item] == CartAfterQuantity(cart, cartItemId, delta).value;
      if OneLinePerConfiguration() {
        QuantityKeepsUniqueConfigs(cart, cartItemId, delta);
      }
      if ConsistentlyPriced() {
        QuantityKeepsPrices(cart, cartItemId, delta);
      }
      cart := cart[k := item];
      SaveCart(cart);
      return Response(true, QuantityMessage);
    }

    /** `removeFromCart`: always reports success. */
    method RemoveFromCart(cartItemId: string) returns (r: Response)
      modifies this
      ensures user == old(user) && r == Response(true, RemovedMessage)
      ensures user.None? ==> carts == old(carts)
      ensures user.Some? ==> carts == old(carts)[user.value := RemoveById(old(GetCart()), cartItemId)]
      ensures old(OneLinePerConfiguration()) ==> OneLinePerConfiguration()
      ensures old(ConsistentlyPriced()) ==> ConsistentlyPriced()
    {
      var cart := GetCart();
      var kept := RemoveById(cart, cartItemId);
      RemoveLaws(cart, cartItemId);
      SaveCart(kept);
      return Response(true, RemovedMessage);
    }

    /** `clearCart`: the current user's cart becomes empty. */
    method ClearCart()
      modifies this
      ensures user == old(user) && GetCart() == []
      ensures user.None? ==> carts == old(carts)
      ensures user.Some? ==> carts == old(carts)[user.value := []]
      ensures old(OneLinePerConfiguration()) ==> OneLinePerConfiguration()
      ensures old(ConsistentlyPriced()) ==> ConsistentlyPriced()
    {
      SaveCart([]);
    }

    /** `saveEditCartItem`, with the chosen size and toppings passed in;
        `saved` tells whether the line was found and the cart saved. */
    method SaveEditCartItem(cartItemId: string, newSizeId: Option<string>, newToppingIds: seq<string>,
                            sizeOf: string -> Option<Size>, toppingsOf: seq<string> -> seq<Topping>)
      returns (saved: bool)
      modifies this
      ensures user == old(user)
      ensures
        var edited := CartAfterEdit(old(GetCart()), cartItemId, ResolveSize(newSizeId, sizeOf),
                                    newToppingIds, toppingsOf(newToppingIds));
        && saved == edited.Some?
        && (edited.None? ==> carts == old(carts))
        && (edited.Some? ==> user.Some? && carts == old(carts)[user.value := edited.value])
      ensures old(ConsistentlyPriced()) ==> ConsistentlyPriced()
    {
      var cart := GetCart();
      var k := ItemIndex(cart, cartItemId);
      if k == -1 {
        return false;
      }
      var item := cart[k];
      var newSize := ResolveSize(newSizeId, sizeOf);
      var newToppings := toppingsOf(newToppingIds);
      EditLaws(cart, cartItemId, newSize, newToppingIds, newToppings);
      cart := cart[k := EditedItem(item, newSize, newToppingIds, newToppings)];
      SaveCart(cart);
      return true;
    }

    /** `calculateTotal` on the current user's cart. */
    function CalculateTotal(): (total: int)
      reads this
      ensures GetCart() == [] ==> total == 0
      ensures ConsistentlyPriced() ==> total == Sum(GetCart(), LinePrice)
    {
      CartTotal(GetCart())
    }

    /** `getCartCount` on the current user's cart. */
    function GetCartCount(): (count: int)
      reads this
      ensures GetCart() == [] ==> count == 0
    {
      CartCount(GetCart())
    }
  }
}
