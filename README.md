# Coffee-shop cart and catalogue, modelled in Dafny

This project models two parts of a small coffee-shop web storefront.

**The cart engine (`js/cart.js`).** Carts are stored per user, as a map from user id to a list of priced line items. The model covers:

- `addToCart`, which prices a drink from its base price, its size surcharge and its toppings, then either merges it into a line of the same configuration or appends it;
- `updateQuantity`, `removeFromCart` and `clearCart`;
- re-pricing an edited line (`saveEditCartItem`);
- the aggregates `calculateTotal` and `getCartCount`;
- the header badge, with its "99+" cap.

**The product catalogue (`js/products.js`).** The model covers:

- lookup by id and keyword search;
- the administrator's add (validate, append, re-sort by category and then newest first), update (shallow field merge) and delete (filter, failing when nothing was removed);
- the one-click `quickAddToCart` of a product card.

Files:

| file | content |
|---|---|
| `common.dfy` | `Option`, the `s \|\| null` rule for strings, the `{ success, message }` response |
| `lists.dfy` | `findIndex`, `filter`, `reduce`-style sums and a stable comparator sort, each characterised by what its result means |
| `strings.dfy` | code-point string order, `trim`, `includes`, decimal display of a count |
| `catalogue.dfy` | `products.js`: pure lookup and search functions, and the class `ProductStore` whose methods rewrite the stored product list |
| `cart.dfy` | `cart.js`: pricing, configuration identity, the merge scan, the pure functions `CartAfterAdd`, `CartAfterQuantity`, `RemoveById` and `CartAfterEdit` with their laws, and the class `CartStore` (stored carts plus the logged-in user) whose methods do what the source does step by step and are proved against those functions |
| `storefront.dfy` | `quickAddToCart` |

Several points of behaviour are easy to get wrong:

- **Topping identity is a multiset, not a set.** The code compares sorted id lists (`js/cart.js:186`), so a repeated topping id counts, and `["t1","t1"]` is a different configuration from `["t1"]` (`Cart.RepeatedToppingIsDistinct`).
- **The merge scan sorts in place.** `.sort()` sorts in place, so every stored line of the same product and size that the scan compares keeps its topping ids sorted. The new line's ids are sorted as soon as one comparison ran. `toppingNames` are not reordered with them. `Cart.ScanForMerge` reproduces this, and `Cart.ScanKeepsLines` proves that nothing else about the lines changes.
- **`removeFromCart` always reports success**, even for an absent id.
- **`updateQuantity` with a result of 0 or below** removes the line by re-reading the stored cart, so the in-memory decrement is discarded.
- **`quickAddToCart` always shows its success notice once the product exists**, even when `addToCart` refused a visitor who is not logged in (`Storefront.QuickAddToCart`).
- **An edit can duplicate a configuration.** `saveEditCartItem` runs no merge, so it can leave two lines of one configuration (`Cart.EditCanDuplicate`). This is the code's behaviour and the model keeps it.
- **The "99+" cap lives in `updateCartBadge`** and is modelled there (`Cart.BadgeFor`).

## Model

| member | source | states |
|---|---|---|
| `Common.NonEmpty` | js/cart.js:155-156 | `x \|\| null` on a string: the result is present exactly when the input is present and non-empty, and then it is the input |
| `Lists.FirstIndex` | js/cart.js:588 | `findIndex`: -1 exactly when no element satisfies the test; otherwise the result satisfies it and no earlier element does |
| `Lists.Filter` | js/cart.js:260 | `filter`: an order-preserving sub-list in which each element occurs as often as in the input when kept and not at all otherwise |
| `Lists.FilterKeepsLength` | js/products.js:503 | the filtered list has the input's length exactly when every element is kept, and is then the input itself |
| `Lists.FilterIdempotent` | js/cart.js:260 | filtering twice with the same test equals filtering once |
| `Lists.Sum` | js/cart.js:138 | `reduce((sum, x) => sum + f(x), 0)`: 0 for the empty list, and never negative when no term is; its laws are `SumAppend`, `SumUpdate` and `SumPointwise` |
| `Lists.Sort` | js/products.js:414-429 | the comparator sort returns a permutation of its input; sortedness is `SortIsSorted`, stability `SortIsStable` |
| `Lists.SortIsStable` | js/products.js:414-429 | for any element, the elements tied with it under the comparator come out of the sort in the order they went in |
| `Lists.SortIsSorted` | js/products.js:414-429 | under a total preorder the comparator sort returns a sorted list |
| `Lists.SortedIsUnique` | js/cart.js:186 | under a total order, two sorted lists with the same multiset are equal |
| `Strings.StrLeqIsTotalOrder` | js/cart.js:186 | the default string order used to sort topping ids is total, transitive and antisymmetric |
| `Strings.Trim` | js/products.js:75 | `trim`: the input is the result with white space only before and after it; the result is empty exactly when the input is all white space, and otherwise starts and ends with a non-space |
| `Strings.ContainsIffOccurs` | js/products.js:91-92 | `includes` holds exactly when the needle occurs at some position (so the empty needle is found in every string) |
| `Catalogue.ProductIndex` | js/products.js:459 | the index of the first product with the id, or -1 exactly when none has it |
| `Catalogue.GetProductById` | js/products.js:50-58 | absent exactly when no product has the id; otherwise the first product with that id |
| `Catalogue.MatchesTerm` | js/products.js:88-93 | the search test: the lower-cased name or description contains the term; `Strings.ContainsIffOccurs` gives `includes` its meaning |
| `Catalogue.SearchProducts` | js/products.js:72-94 | the whole list for an empty or all-white-space query; otherwise an order-preserving sub-list holding exactly the products whose lower-cased name or description contains the lower-cased trimmed query, each as often as listed |
| `Catalogue.IsAcceptable` | js/products.js:353 | the validation test: the name and the price are present and neither is the falsy empty name or 0; `ProductStore.AddProduct` states what each outcome does |
| `Catalogue.NewProduct` | js/products.js:361-396 | the new record: given id, trimmed name, the price, category or none, description or the empty string, default image, both options on unless explicitly false, rating 5, no reviews, created now |
| `Catalogue.CatalogueLeq` | js/products.js:414-429 | the comparator as "may stay before": category key ascending, newest first; `CatalogueLeqIsTotalPreorder` and `SortByCategoryKeepsTies` state its laws |
| `Catalogue.CatalogueLeqIsTotalPreorder` | js/products.js:414-429 | the category-then-newest comparator is total and transitive, so the sort is well defined |
| `Catalogue.SortByCategory` | js/products.js:414-429 | the re-sorted catalogue is a permutation of the list |
| `Catalogue.SortByCategoryKeepsTies` | js/products.js:414-429 | two products are tied exactly when they share the category key and the creation time (missing as 0), and tied products keep their listed order through the re-sort |
| `Catalogue.AddedProductPlacement` | js/products.js:399-429 | after an add: one more product; the old products plus the new one; sorted by category key (none as "zzz"), newest first within a category; a product newer than the rest of its category comes before all of them |
| `Catalogue.Patched` | js/products.js:472 | `{ ...product, ...data }`: for every field, a field given in the patch becomes the new value and a field missing from it keeps the old value |
| `Catalogue.PatchedLaws` | js/products.js:472 | the shallow merge keeps a product under an empty patch and merging a patch twice is merging it once |
| `Catalogue.WithoutProduct` | js/products.js:499 | delete's filter: an order-preserving sub-list in which each product with another id occurs as often as before and none with the id occurs |
| `Catalogue.DeleteFailsIffAbsent` | js/products.js:501-508 | the length test fails exactly when no product has the id, and a second delete of the same id always fails |
| `Catalogue.ProductStore.constructor` | js/products.js:30-35 | the store holds the stored product list that `getProducts` reads |
| `Catalogue.ProductStore.AddProduct` | js/products.js:350-440 | an invalid entry (missing or empty name, missing or zero price) fails and keeps the list; a valid one returns the new product, and the list becomes the category sort of the old list plus it |
| `Catalogue.ProductStore.UpdateProduct` | js/products.js:453-481 | an unknown id fails and keeps the list; otherwise only the first product with the id changes, to its merge with the patch |
| `Catalogue.ProductStore.DeleteProduct` | js/products.js:492-517 | fails and keeps the list when no product has the id; otherwise stores the list without those products |
| `Cart.ResolveSize` | js/cart.js:122 | no size for a missing or empty size id; otherwise the size the lookup returns for that id |
| `Cart.ToppingTotal` | js/cart.js:138 | the toppings' prices summed, 0 without toppings; `PricingExample` shows it summing two toppings |
| `Cart.NewLineItem` | js/cart.js:128-170 | unit price = product price + size surcharge (0 without a size) + sum of topping prices; total = unit price × quantity; the stored size id is `size?.id \|\| null` |
| `Cart.SortIds` | js/cart.js:186 | sorting an id list permutes it |
| `Cart.SortedIdsEqualIffSameMultiset` | js/cart.js:184-186 | the sorted id lists are equal exactly when the lists are equal as multisets, so topping order never matters |
| `Cart.ScanForMerge` | js/cart.js:179-187 | the scan keeps the cart's length, finds an index in range or -1, and only reorders the new line's topping ids |
| `Cart.ScanKeepsLines` | js/cart.js:179-187 | the scan changes no line but for the order of its topping ids, and leaves lines of another product or size untouched |
| `Cart.ScanFindsFirst` | js/cart.js:179-187 | the scan finds the first line with the same product, the same size and the same toppings as a multiset |
| `Cart.ConfigIndex` | js/cart.js:179-187 | the first line of a configuration, or -1 exactly when there is none |
| `Cart.Merged` | js/cart.js:191-193 | the merged line keeps its id, configuration and unit price, gains the quantity, and stays consistently priced |
| `Cart.CartAfterAdd` | js/cart.js:179-197 | the cart `addToCart` saves; characterised by `AddMergesOrAppends`, `AddCounts` and the invariant lemmas below |
| `Cart.AddMergesOrAppends` | js/cart.js:179-197 | with a line of the same configuration, that line gains the quantity at its old unit price and the cart keeps its length; otherwise the new line is appended and earlier lines are untouched (up to topping order) |
| `Cart.AddLeavesOtherConfigurationsAlone` | js/cart.js:181-183 | lines of another product or another size (absent versus present included) are exactly as before |
| `Cart.AddKeepsUniqueConfigs` | js/cart.js:177-197 | `addToCart` keeps at most one line per configuration |
| `Cart.AddKeepsPrices` | js/cart.js:189-197 | `addToCart` keeps every line consistently priced |
| `Cart.AddKeepsPositive` | js/cart.js:189-197 | adding a positive quantity keeps every quantity positive |
| `Cart.AddKeepsIds` | js/cart.js:146 | with a fresh line id, line ids stay distinct |
| `Cart.AddCounts` | js/cart.js:189-197 | an add raises the item count by the quantity and the units of its configuration by the quantity, other configurations by nothing, and the total by unit price × quantity of the line that received them |
| `Cart.MergedTotal` | js/cart.js:191-193 | merging keeps a line consistently priced and adds unit price × quantity to its total |
| `Cart.QuantityOfUniqueLine` | js/cart.js:179-193 | with one line per configuration, the units of a configuration are its line's quantity |
| `Cart.AddToEmptyCart` | js/cart.js:194-197 | the first add to an empty cart stores exactly the new line |
| `Cart.AddToSingleLine` | js/cart.js:189-193 | an add of the configuration of a cart's only line merges into it |
| `Cart.AddsLandOnOneLine` | js/cart.js:179-197 | any run of adds of one line's configuration leaves one line, at its unit price, with the quantities summed |
| `Cart.SameConfigurationMerges` | js/cart.js:179-197 | from an empty cart, adds of one configuration in any topping order give one line whose quantity and total are the sums |
| `Cart.AddTwiceMerges` | js/cart.js:189-193 | two adds of one configuration give one line with both quantities, consistently priced at the first unit price |
| `Cart.ToppingOrderExample` | js/cart.js:184-186 | a drink added with toppings [t1, t2] and again with [t2, t1] gives one line of quantity 2 at the unit price |
| `Cart.RepeatedToppingIsDistinct` | js/cart.js:186 | a line with topping t1 twice is not merged into a line with t1 once |
| `Cart.PricingExample` | js/cart.js:130-169 | a 25 000 drink in a 5 000 size with two 10 000 toppings, quantity 2: unit price 50 000, total 100 000, cart total 100 000, count 2 |
| `Cart.CartTotal` | js/cart.js:280-287 | `calculateTotal`: 0 for an empty cart; for consistently priced lines, the sum of unit price × quantity |
| `Cart.CartCount` | js/cart.js:294-299 | `getCartCount`: 0 for an empty cart (its change under each operation is in `AddCounts`, `QuantityChangesOneLine` and `EditLaws`) |
| `Cart.CountAtLeastLines` | js/cart.js:294-299 | with positive quantities the count is at least the number of lines |
| `Cart.BadgeHiddenIffEmpty` | js/cart.js:321-337 | with positive quantities the badge is hidden exactly when the cart is empty |
| `Cart.BadgeFor` | js/cart.js:328-335 | hidden exactly for a count of 0 or less; "99+" exactly above 99; otherwise the count in decimal |
| `Strings.NatToStringReadsBack` | js/cart.js:330 | the badge's decimal text reads back as the count and has no leading zero |
| `Cart.ItemIndex` | js/cart.js:223 | the first line with the id, or -1 exactly when none has it |
| `Cart.RemoveById` | js/cart.js:260 | an order-preserving sub-list in which each line with another id occurs as often as before and none with the id occurs |
| `Cart.RemoveLaws` | js/cart.js:256-269 | removal is idempotent, is the identity for an absent id, keeps one line per configuration and consistent prices, and drops exactly one line when ids are distinct |
| `Cart.Requantified` | js/cart.js:238 | the line with its new quantity keeps its id, configuration and unit price, and stays consistently priced |
| `Cart.CartAfterQuantity` | js/cart.js:223-241 | the cart `updateQuantity` leaves; characterised by `QuantityFailsIffAbsent`, `QuantityChangesOneLine` and `QuantityToZeroRemoves` |
| `Cart.RequantifiedIsWellPriced` | js/cart.js:238 | re-totalling at the line's unit price keeps it consistently priced |
| `Cart.QuantityFailsIffAbsent` | js/cart.js:225-227 | `updateQuantity` fails exactly when no line has the id |
| `Cart.QuantityChangesOneLine` | js/cart.js:229-241 | for a positive result only the line changes: new quantity, total = unit price × quantity, other lines equal, count moved by the delta |
| `Cart.QuantityToZeroRemoves` | js/cart.js:232-235 | a result of 0 or below removes the line, one line fewer when ids are distinct |
| `Cart.QuantityKeepsUniqueConfigs` | js/cart.js:219-248 | `updateQuantity` keeps one line per configuration |
| `Cart.QuantityKeepsPrices` | js/cart.js:237-238 | `updateQuantity` keeps every line consistently priced |
| `Cart.QuantityKeepsPositive` | js/cart.js:230-235 | `updateQuantity` never leaves a quantity at 0 or below |
| `Cart.EditedItem` | js/cart.js:610-626 | the edited line keeps id, product, quantity and base price; unit price = stored base price + new size surcharge + new topping prices; total = unit price × quantity |
| `Cart.CartAfterEdit` | js/cart.js:588-629 | the cart `saveEditCartItem` saves; characterised by `EditLaws` and `EditCanDuplicate` |
| `Cart.EditLaws` | js/cart.js:586-629 | an edit fails exactly for an absent id; otherwise it replaces only the first line with the id, keeps the count and consistent prices, and runs no merge |
| `Cart.EditCanDuplicate` | js/cart.js:615-626 | an edit can leave two lines of one configuration |
| `Cart.CartStore.constructor` | js/cart.js:45-59 | the store starts from the stored carts and the logged-in user |
| `Cart.CartStore.GetCart` | js/cart.js:45-59 | empty without a user or without an entry; otherwise that user's cart |
| `Cart.CartStore.SaveCart` | js/cart.js:66-81 | replaces only the current user's entry and does nothing without a user; keeps the store-wide invariants when the saved cart has them |
| `Cart.CartStore.AddToCart` | js/cart.js:106-209 | without a user, or for an unknown product, it fails and saves nothing; otherwise it saves `CartAfterAdd` of the priced line; it keeps one line per configuration and consistent prices in every stored cart |
| `Cart.CartStore.UpdateQuantity` | js/cart.js:219-248 | an absent id fails and saves nothing; otherwise it saves `CartAfterQuantity` with the matching message; it keeps both store invariants |
| `Cart.CartStore.RemoveFromCart` | js/cart.js:256-269 | always succeeds; saves the cart without the lines with the id; keeps both store invariants |
| `Cart.CartStore.ClearCart` | js/cart.js:306-309 | the current user's cart becomes empty and no other entry changes |
| `Cart.CartStore.SaveEditCartItem` | js/cart.js:586-637 | saves exactly when the id is present, storing `CartAfterEdit`; keeps consistent prices |
| `Cart.CartStore.CalculateTotal` | js/cart.js:280-287 | 0 for an empty cart; with consistent prices, the sum of unit price × quantity |
| `Cart.CartStore.GetCartCount` | js/cart.js:294-299 | 0 for an empty cart |
| `Storefront.DefaultSizeId` | js/products.js:313-317 | the first active size's id, absent when there is no active size or its id is empty |
| `Storefront.QuickAddToCart` | js/products.js:300-321 | an unknown product does nothing; otherwise it does exactly what `addToCart(id, first active size, [], 1)` does and shows the success notice naming the product |

## Left out

- Rendering, modals and DOM wiring are not modelled (`renderCart`, `showEditCartItemModal`, `renderProducts` and the like). Neither are `showNotification`, the `cartUpdated` event or the login redirect. The quick-add notice text is returned as a value instead.
- `localStorage` (`loadData`/`saveData`) and JSON encoding are replaced by class fields: `CartStore.carts` and `ProductStore.products`. A missing entry reads as an empty list. Corrupt storage and storage failures are not modelled. `getProducts` is reading `ProductStore.products`.
- `getCurrentUser`/`isLoggedIn` become the `CartStore.user` field. The two are assumed to agree.
- `getSizeById`, `getToppingsByIds` and `getActiveSizes` live in other files. They are parameters (`sizeOf`, `toppingsOf`, `activeSizes`). Unknown topping ids are whatever `toppingsOf` leaves out.
- DOM reads in `saveEditCartItem` are parameters (`newSizeId`, `newToppingIds`).
- `Date.now()` ids and timestamps are the parameters `freshId` and `now`. They are not guaranteed unique in the source, so `Cart.AddKeepsIds` assumes the new id is fresh.
- String order: the default `sort()` compares UTF-16 code units and `localeCompare` follows the locale. Both are modelled as code-point order (`Strings.StrLeq`), which differs only for characters outside the Basic Multilingual Plane and for locale-specific collation.
- `toLowerCase` is a per-character parameter `lower`. Case mappings that change a string's length are not modelled.
- Numbers: prices, quantities and timestamps are unbounded integers, so floating point and the 2^53 limit are not modelled. `parseInt` and `NaN` are not modelled: the price arrives as an integer.
- `Catalogue.IsAcceptable` treats the price as a number. A form that sends the price as the string "0" passes the source's falsiness test (a non-empty string is truthy), but it is rejected here.
- Form data fields: in `updateProduct` a key present with the value `undefined` would overwrite the field. Keys that are not product fields would be added. The patch model has neither: a field is either given or left unchanged.
- Aliasing: the in-place sort at `js/cart.js:186` also reorders the caller's `toppingIds` array. The model keeps only the effect on the stored lines and on the new line.
- Quantities are not validated by `addToCart`. The model accepts any integer, and `Cart.AddKeepsPositive` needs a positive one.
- `Cart.CartStore.SaveEditCartItem`: states only that consistent prices are kept, not one line per configuration, because an edit can break that (`Cart.EditCanDuplicate`).
- `Cart.CartStore.GetCartCount`: states only the empty case. What the count does under each operation is stated by `Cart.AddCounts`, `Cart.QuantityChangesOneLine`, `Cart.EditLaws` and `Cart.CountAtLeastLines` on the underlying `Cart.CartCount`.
- `js/enhancements.js` is not part of this model. It holds DOM effects, timers and animation geometry only.
- `searchProducts` with a `null` or missing query is not modelled separately. The query is a string, and the empty string takes the same branch.
- Concurrent tabs writing the same storage are not modelled.
