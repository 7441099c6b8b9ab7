# Noon Opticals storefront: cart, catalogue, product grid and validators in Dafny

This project models the parts of the Noon Opticals eyewear storefront that
hold state or follow a precise rule, and proves what they promise.

- **Cart store** (`CartManager` in `js/modules/cart.js`), in `cart.dfy`.
  The cart is an ordered list of line items. Each line is a snapshot of a
  catalogue record plus a quantity. The class adds, removes, clamps and
  clears lines in place, and writes the whole list to local storage under
  `noonOpticals_cart` after every change. `window.addToCart` guards the add
  with a catalogue lookup and a stock check.
- **Older cart** (the module-level `cart` of `script.js`), in
  `legacy_cart.dfy`. It has its own eight-product list and the key
  `prismCart`. It has no existence or stock guard and does not catch
  storage errors. It is modelled separately because it behaves
  differently.
- **Catalogue** (`productsData` in `data/products.js`), in
  `catalogue.dfy`. It is the constant table of twelve records, with a
  lookup by id and the invariants the data satisfies.
- **Product grid** (`ProductManager` in `js/modules/products.js`), in
  `product_grid.dfy`. Each rendered card is reduced to its
  `data-category` slug. The selection rule says which cards are shown and
  whether the load-more button is displayed, as a function of the filter,
  the responsive limit (4 or 6) and the "all visible" flag. The class keeps
  `initialVisibleCount`, `allProductsVisible` and `currentFilter` and
  updates them as the page does.
- **Validators** (`utils.validateEmail` and `utils.validatePhone` in
  `js/app.js`), in `validators.dfy`. Each regular expression is restated as
  a character-level check. The email check is proved equal to the
  pattern's meaning in both directions.
- `storage.dfy` models local storage as a map from key to stored value.
  `common.dfy` holds `Option`, `Min`/`Max`, and the JavaScript `\s`
  whitespace set.

**How the model is built**

- **JSON is opaque.** A stored value is either `Encoded(lines)` or
  `Unparsable(text)`. `Encoded(lines)` is the text `JSON.stringify`
  produced, and `JSON.parse` gives the same list back. `Unparsable(text)`
  is a text that makes `JSON.parse` throw.
- **Failed writes.** A write that the browser rejects, for example on an
  exceeded quota, is the parameter `quotaOk` being false.
- **Undefined values.** `undefined` is modelled where the code can
  produce it:
  - the `cartKey` field before it is assigned (`KeySlot`);
  - a `script.js` line added for an unknown id, which holds only `qty`
    (`LegacyLine` with no snapshot);
  - the NaN total such a line causes (`None`).

**Behaviour of the code worth knowing**

- In `js/modules/cart.js` the constructor calls `loadCart()` before it
  assigns `cartKey`, so start-up reads the key `"undefined"` (see
  Findings).
- `addToCart` in `script.js` appends a bare `{qty: 1}` line for an
  unknown id, and that line makes the displayed total NaN.
- A corrupt stored cart falls back to the empty cart in
  `js/modules/cart.js`, but in `script.js` the parse error escapes.

## Model

| member | source | states |
|---|---|---|
| Storage.LocalStorage.SetItem | js/modules/cart.js:26 | a write stores the value under its key exactly when it does not throw; a failed write leaves storage unchanged |
| Catalogue.FindProduct | js/modules/cart.js:138 | the result is the first catalogue record with the requested id; it is absent exactly when no record has that id |
| Catalogue.FindInIdRun | js/modules/cart.js:138 | in a table whose ids run consecutively from `base`, lookup finds the record at offset `id - base`, and nothing outside the run |
| Catalogue.CatalogueIds | data/products.js:8-165 | there are twelve records, with ids 1 to 12 in declaration order |
| Catalogue.CatalogueIdsUnique | data/products.js:8-165 | no two records share an id |
| Catalogue.CatalogueLookup | data/products.js:8-165 | looking up id n gives record n exactly when 1 <= n <= 12, and nothing otherwise |
| Catalogue.CatalogueRecordInvariants | data/products.js:8-165 | every record has 0 < price < oldPrice, a discount in 0..100, one of the five categories, exactly two tags and reviewCount >= 0 |
| Catalogue.PricesBelowOldPrices | data/products.js:8-165 | every record's price is positive and below its old price |
| Catalogue.DiscountsInRange | data/products.js:8-165 | every discount lies between 0 and 100 |
| Catalogue.CategoriesKnown | data/products.js:8-165 | every category is Sport, Reading, Sun, Blue Light or Fashion |
| Catalogue.TwoTags | data/products.js:8-165 | every record has exactly two tags |
| Catalogue.ReviewCountsNonNegative | data/products.js:8-165 | every review count is non-negative |
| Catalogue.OnlyProduct3OutOfStock | data/products.js:35-47 | a record is out of stock if and only if its id is 3 |
| Catalogue.Product3OutOfStock | data/products.js:35-47 | looking up id 3 finds a record that is out of stock |
| Cart.FindLine | js/modules/cart.js:34 | the position of the first line with the id; absent exactly when no line has it |
| Cart.AddLine | js/modules/cart.js:33-40 | definition of the cart after `addItem`: the first line with the product's id gains one, or `{...product, qty: 1}` is appended (properties in AddLineEffect, AddLineCountAndTotal) |
| Cart.RemoveLines | js/modules/cart.js:47 | definition of `cart.filter(item => item.id !== id)`, line by line in order (properties in the RemoveLines* lemmas) |
| Cart.SetQuantity | js/modules/cart.js:51-54 | definition of `updateQuantity`'s effect: the first line with the id gets `Math.max(1, n)`, no line means no change (properties in SetQuantityEffect) |
| Cart.Total | js/modules/cart.js:65 | definition of the `reduce` of price times quantity, folded left in line order (properties in UpdateAt, AppendLine, TotalNonNegative) |
| Cart.ItemCount | js/modules/cart.js:69 | definition of the `reduce` of quantities, folded left in line order (properties in UpdateAt, AppendLine, ItemCountAtLeastLines) |
| Cart.Persisted | js/modules/cart.js:24-31 | definition of storage after `saveCart()`: the whole cart under `noonOpticals_cart` on success, storage unchanged when `setItem` throws (properties in SaveThenLoad) |
| Cart.InitialCart | js/modules/cart.js:9-16 | definition of the as-written start-up cart: `loadCart()` under the key text "undefined" (properties in InitialCartMissesSavedCart) |
| Cart.LoadCart | js/modules/cart.js:14-22 | loading never fails: an absent key or unparsable text gives the empty cart, and stored lines come back unchanged |
| Cart.CorrectedInitialCart | js/modules/cart.js:9-17 | start-up as evidently intended: the cart stored under `noonOpticals_cart`, or empty when it is absent or unparsable |
| Cart.CartManager.constructor | js/modules/cart.js:9-12 | after construction the key is `noonOpticals_cart`, but the cart is what was stored under "undefined" |
| Cart.CartManager.LoadCartNow | js/modules/cart.js:14-22 | `loadCart()` returns the list stored under the current value of `cartKey` |
| Cart.CartManager.SaveCart | js/modules/cart.js:24-31 | the whole cart is written under `noonOpticals_cart` when the write succeeds; a failure is swallowed and storage stays as it was |
| Cart.CartManager.AddItem | js/modules/cart.js:33-44 | the cart becomes `AddLine(old cart, product)` and is persisted; unique ids and quantities >= 1 are preserved; the item count grows by exactly 1 |
| Cart.CartManager.RemoveItem | js/modules/cart.js:46-49 | the cart becomes the lines with other ids and is persisted; the invariants are preserved |
| Cart.CartManager.UpdateQuantity | js/modules/cart.js:51-57 | the line's quantity becomes max(1, n) and the cart is persisted; with no such line neither the cart nor storage changes; the invariants are preserved |
| Cart.CartManager.ClearCart | js/modules/cart.js:59-62 | the cart is empty, with total 0 and count 0, and the empty list is persisted |
| Cart.CartManager.GetTotal | js/modules/cart.js:64-66 | the total is non-negative whenever all prices and quantities are |
| Cart.CartManager.GetItemCount | js/modules/cart.js:68-70 | in a well-formed cart the count is at least the number of lines |
| Cart.WindowAddToCart | js/modules/cart.js:137-142 | the cart becomes the guarded add; for an in-stock id the new cart is persisted under `noonOpticals_cart`; an unknown or out-of-stock id changes neither the cart nor storage |
| Cart.GuardedAdd | js/modules/cart.js:137-141 | definition of the guarded add: `addItem` only for a catalogue record that exists and is in stock (properties in GuardedAddNoOp, GuardedAddInStock) |
| Cart.UpdateAt | js/modules/cart.js:64-70 | replacing one line changes the total by the difference of subtotals and the count by the difference of quantities |
| Cart.AppendLine | js/modules/cart.js:64-70 | appending a line adds its subtotal to the total and its quantity to the count |
| Cart.AddLineEffect | js/modules/cart.js:33-41 | on an id in the cart, only that line's quantity changes (+1), and its stored product (price, name, img) is kept; on a new id, one line `{product, qty: 1}` is appended and earlier lines are untouched |
| Cart.AddLineCountAndTotal | js/modules/cart.js:33-70 | after adding, the count is one more and the total grows by the price stored in the affected line |
| Cart.AddLinePreservesWellFormed | js/modules/cart.js:33-41 | adding keeps ids unique and quantities >= 1 |
| Cart.RemoveLinesMembers | js/modules/cart.js:46-47 | the result keeps exactly the lines with a different id, and is no longer than the original |
| Cart.RemoveLinesAbsent | js/modules/cart.js:46-47 | removing an id no line has changes nothing |
| Cart.RemoveLinesIdempotent | js/modules/cart.js:46-49 | removing twice equals removing once |
| Cart.RemoveLinesKeepsOrder | js/modules/cart.js:46-47 | when only one line has the id, as in any well-formed cart, removal cuts out that line and keeps the rest in order |
| Cart.RemoveLinesConcat | js/modules/cart.js:46-47 | removing from a joined cart is removing from each part, so the remaining lines keep their order whatever number of lines has the id |
| Cart.RemoveLinesPreservesWellFormed | js/modules/cart.js:46-49 | removal keeps ids unique and quantities >= 1 |
| Cart.SetQuantityEffect | js/modules/cart.js:51-57 | the found line's quantity becomes max(1, n) with the same product, and nothing else changes; an absent id leaves the cart unchanged |
| Cart.SetQuantityPreservesWellFormed | js/modules/cart.js:51-57 | updating a quantity keeps ids unique and quantities >= 1 |
| Cart.ItemCountAtLeastLines | js/modules/cart.js:68-70 | with every quantity >= 1 the count is at least the number of lines |
| Cart.TotalNonNegative | js/modules/cart.js:64-66 | with non-negative prices and quantities the total is non-negative |
| Cart.SaveThenLoad | js/modules/cart.js:14-31 | a successful save followed by a load under `noonOpticals_cart` gives the same cart back; a failed save leaves storage as it was |
| Cart.InitialCartMissesSavedCart | js/modules/cart.js:9-26 | as written, start-up after a save of a non-empty cart yields the empty cart, not the saved one |
| Cart.CorrectedInitialCartRestoresSave | js/modules/cart.js:9-26 | loading under the key the cart is saved under restores the last saved cart |
| Cart.GuardedAddNoOp | js/modules/cart.js:137-142 | `addToCart` with an id outside 1..12, or with id 3, leaves the cart unchanged |
| Cart.GuardedAddInStock | js/modules/cart.js:137-142 | any other id adds exactly one item, at the catalogue price when the product is new to the cart |
| Cart.ScenarioTwiceOneThenThree | js/modules/cart.js:137-142 | from empty, adding 1, 1 and then 3 gives one line for product 1 with quantity 2, count 2 and total 2 × 3499 |
| LegacyCart.FindLegacyProduct | script.js:38 | the result is the first record of the list with the id; absent exactly when none has it |
| LegacyCart.FindLegacyLine | script.js:39 | the position of the first line whose id is the number; absent exactly when none has it, and lines without a product never match |
| LegacyCart.LegacyAdd | script.js:37-45 | definition of the cart after `addToCart`: the first line with the id gains one, otherwise `{...product, qty: 1}` is appended even when the id is unknown (properties in LegacyAddEffect, LegacyAddUnknownId) |
| LegacyCart.LegacyRemove | script.js:50 | definition of `cart.filter(i => i.id !== id)`, with `undefined` as the id of a line without a product (properties in the LegacyRemove* lemmas) |
| LegacyCart.BadgeCount | script.js:60 | definition of the badge `reduce` of quantities, folded left in line order (properties in LegacyAddBadge, BadgeUpdateAt) |
| LegacyCart.CartTotal | script.js:67-69 | definition of the running `total += item.price * item.qty`, with NaN as `None` and kept by every later addition (properties in CartTotalDefinedIff, LegacyAddTotal) |
| LegacyCart.InitialCart | script.js:13 | nothing stored gives the empty cart, stored lines come back, and unparsable text aborts |
| LegacyCart.PrismCart.constructor | script.js:13 | the cart starts as the parsed value stored under `prismCart` |
| LegacyCart.PrismCart.SaveCart | script.js:54-57 | the whole cart is written under `prismCart`; a failed write is reported to the caller and changes nothing |
| LegacyCart.PrismCart.AddToCart | script.js:37-47 | the cart becomes `LegacyAdd(old cart, id)` even when the following write fails; a successful write stores the whole cart |
| LegacyCart.PrismCart.RemoveFromCart | script.js:49-52 | the cart becomes the lines with a different id, and the whole cart is written |
| LegacyCart.PrismCart.DisplayedTotal | script.js:63-69 | the loop's running total equals the sum of price × qty in line order (NaN once a line has no price), and is 0 for an empty cart |
| LegacyCart.LegacyProductIds | script.js:2-11 | the script's list has eight records with ids 1 to 8 |
| LegacyCart.LegacyAddEffect | script.js:37-44 | an existing line gains one and nothing else changes; otherwise exactly one line, `{...product, qty: 1}`, is appended at the end |
| LegacyCart.LegacyAddBadge | script.js:60 | every add, known id or not, raises the badge count by exactly one |
| LegacyCart.BadgeUpdateAt | script.js:60 | replacing one line changes the badge by the difference of quantities |
| LegacyCart.CartTotalDefinedIff | script.js:67-69 | the total is a number if and only if every line carries a product |
| LegacyCart.LegacyAddUnknownId | script.js:38-43 | an id not in the list, and not already in the cart, appends a line holding only `qty: 1`, and the total becomes NaN |
| LegacyCart.LegacyLookup | script.js:38 | looking up id n in 1..8 finds record n |
| LegacyCart.LegacyAddTotal | script.js:67-69 | adding a listed id to a cart with a numeric total keeps it numeric and adds the price stored in the affected line |
| LegacyCart.AddTotalExisting | script.js:67-69 | adding an id already in the cart adds the price stored in its line to a numeric total |
| LegacyCart.AddTotalNew | script.js:67-69 | adding a listed id new to the cart adds its list price to a numeric total |
| LegacyCart.TotalUpdateAt | script.js:67-69 | replacing a priced line with another changes the total by the difference of their amounts |
| LegacyCart.LegacyRemoveMembers | script.js:49-50 | removal keeps exactly the lines with a different id |
| LegacyCart.LegacyRemoveAbsent | script.js:49-50 | removing an id no line has changes nothing |
| LegacyCart.LegacyRemoveIdempotent | script.js:49-52 | removing twice equals removing once |
| LegacyCart.LegacyRemoveKeepsOrder | script.js:49-50 | a line whose id occurs once is cut out and the rest keep their order |
| LegacyCart.LegacyRemoveConcat | script.js:49-50 | removing from a joined cart is removing from each part, so the remaining lines keep their order, also when several bare lines are removed at once |
| LegacyCart.RemoveUndefinedDropsBareLines | script.js:49-50 | removing `undefined` (the button of a line without a product) drops every such line and keeps every priced one |
| ProductGrid.LowerAscii | js/modules/products.js:54 | lower-casing keeps the length and maps each character independently |
| ProductGrid.DropWhitespace | js/modules/products.js:54 | the result is a suffix of the input that does not start with whitespace, and everything dropped is whitespace |
| ProductGrid.HyphenateWhitespace | js/modules/products.js:54 | replacing whitespace runs leaves no whitespace and never lengthens the text |
| ProductGrid.Slug | js/modules/products.js:54 | definition of `category.toLowerCase().replace(/\s+/g, '-')` (properties in SlugIdempotent, SlugWithoutWhitespace) |
| ProductGrid.HyphenateKeepsLower | js/modules/products.js:54 | hyphenating a lower-case text keeps it lower-case |
| ProductGrid.HyphenateNoWhitespace | js/modules/products.js:54 | a text without whitespace is unchanged by the replacement |
| ProductGrid.LowerSuffix | js/modules/products.js:54 | every suffix of a lower-case text is lower-case |
| ProductGrid.LowerConcat | js/modules/products.js:54 | joining two lower-case texts gives a lower-case text |
| ProductGrid.LowerCharKeepsNonWhitespace | js/modules/products.js:54 | lower-casing never turns a character into whitespace |
| ProductGrid.LowerAsciiOfLower | js/modules/products.js:54 | a lower-case text is unchanged by lower-casing |
| ProductGrid.SlugIdempotent | js/modules/products.js:54 | a slug has no whitespace and no upper-case letter, and slugging it again changes nothing |
| ProductGrid.HyphenateConcat | js/modules/products.js:54 | a leading stretch without whitespace is copied unchanged |
| ProductGrid.SlugWithoutWhitespace | js/modules/products.js:54 | a category without whitespace is only lower-cased |
| ProductGrid.HyphenateRun | js/modules/products.js:54 | a whitespace run of any length before a non-space becomes a single `-` |
| ProductGrid.DropWhitespaceRun | js/modules/products.js:54 | a whitespace run in front of a text not starting with whitespace is dropped entirely |
| ProductGrid.HyphenateDoubleSpace | js/modules/products.js:54 | `"a  b"` becomes `"a-b"`: two spaces give one hyphen |
| ProductGrid.HyphenateWords | js/modules/products.js:54 | two whitespace-free words separated by a whitespace run of any length are joined by one `-` |
| ProductGrid.HyphenateTwoWords | js/modules/products.js:54 | two words with one space between them are joined by `-` |
| ProductGrid.CardSlugs | js/modules/products.js:46 | there is one card per product, in order, each carrying its category's slug |
| ProductGrid.ResponsiveCount | js/modules/products.js:16-18 | the count is 4 when width <= 1024 and 6 otherwise |
| ProductGrid.ResponsiveCountMonotone | js/modules/products.js:16-18 | a wider viewport never shows fewer cards |
| ProductGrid.Visibility | js/modules/products.js:142-158 | card i is shown exactly when it matches the filter and, unless all are visible, fewer than N matching cards precede it |
| ProductGrid.MatchCount | js/modules/products.js:180-182 | definition of the number of cards whose slug equals the filter, or of all cards for `all` (properties in MatchCountMonotone, MatchCountStep, ShownCount) |
| ProductGrid.LoadMoreWanted | js/modules/products.js:184-188 | definition of the button rule: shown unless everything is visible or at most N cards match (properties in LoadMoreIffHiddenMatch) |
| ProductGrid.MatchCountMonotone | js/modules/products.js:140-150 | the matching count of a prefix never exceeds that of a longer prefix |
| ProductGrid.MatchCountStep | js/modules/products.js:142-150 | each card extends the matching count by one exactly when it matches |
| ProductGrid.VisibilityPrefix | js/modules/products.js:142-158 | whether a card is shown depends only on the cards up to it |
| ProductGrid.ShownCount | js/modules/products.js:140-150 | with `allProductsVisible` false, exactly min(N, #matching) cards are shown |
| ProductGrid.ShownAreFirstMatches | js/modules/products.js:140-150 | every matching card before a shown card is shown, so the shown cards are the first matching ones |
| ProductGrid.AllVisibleShowsMatches | js/modules/products.js:147 | with `allProductsVisible` true, the shown cards are exactly the matching ones |
| ProductGrid.AllVisibleCount | js/modules/products.js:147 | with `allProductsVisible` true, the number shown equals the number matching |
| ProductGrid.LoadMoreIffHiddenMatch | js/modules/products.js:175-189 | the load-more button is wanted exactly when some matching card is hidden |
| ProductGrid.ProductManager.constructor | js/modules/products.js:9-14 | the limit is the responsive count for the width, nothing is all-visible, and the filter is `all` |
| ProductGrid.ProductManager.RenderProducts | js/modules/products.js:42-48 | with a grid, the cards are the products' slugs and the page shows the current filter; without one, nothing changes |
| ProductGrid.ProductManager.ApplyFilter | js/modules/products.js:138-162 | the walk with its `visibleCount` counter shows exactly `Visibility` for the filter, never shows a non-matching card, and sets the button as `updateLoadMoreButton` does |
| ProductGrid.ProductManager.UpdateLoadMoreButton | js/modules/products.js:175-189 | the button is shown exactly when not everything is visible and more than N cards match; without the button nothing changes |
| ProductGrid.ProductManager.OnFilterClick | js/modules/products.js:126-136 | the clicked filter becomes current and the page shows it |
| ProductGrid.ProductManager.OnLoadMoreClick | js/modules/products.js:164-173 | `allProductsVisible` becomes true, exactly the matching cards are shown, and the button is hidden |
| ProductGrid.ProductManager.OnResize | js/modules/products.js:20-29 | the limit becomes the responsive count; re-filtering happens only when the count changed and not everything is visible, and otherwise the display is untouched; `allProductsVisible` is never reset |
| Validators.IndexOfChar | js/app.js:188 | the first position of the character, or the length when it does not occur |
| Validators.EmailPattern | js/app.js:188 | definition of what `^[^\s@]+@[^\s@]+\.[^\s@]+$` matches: three non-empty `[^\s@]` runs joined by `@` and `.` (related to the validator in ValidateEmail) |
| Validators.CountOnce | js/app.js:188 | a character occurs exactly once if and only if it occurs at some position and nowhere else |
| Validators.CountAbsent | js/app.js:188 | the count is zero if and only if the character does not occur |
| Validators.ValidateEmail | js/app.js:187-190 | the validator accepts a string if and only if it matches `^[^\s@]+@[^\s@]+\.[^\s@]+$` |
| Validators.ShapeImpliesPattern | js/app.js:188 | no whitespace, one `@` with a non-empty local part, and an inner `.` after it imply a match |
| Validators.PatternImpliesShape | js/app.js:188 | a match implies no whitespace, one `@` with a non-empty local part, and an inner `.` after it |
| Validators.OnlyAtIsSeparator | js/app.js:188 | in a match, the separating `@` is the only one and no character is whitespace |
| Validators.AllEmailCharsSlice | js/app.js:188 | a slice away from the only `@` of a whitespace-free string has only `[^\s@]` characters |
| Validators.EmailRejectsWhitespace | js/app.js:188 | any whitespace character makes the address invalid |
| Validators.EmailNeedsOneAt | js/app.js:188 | any number of `@` other than one makes the address invalid |
| Validators.DigitsOnly | js/app.js:195 | stripping non-digits leaves only ASCII digits and never lengthens the text |
| Validators.LastTen | js/app.js:195 | `slice(-10)` gives the last min(length, 10) characters |
| Validators.PhonePattern | js/app.js:194 | definition of what `^[6-9]\d{9}$` matches: ten digits, the first 6 to 9 |
| Validators.TenthFromEndMobile | js/app.js:194-195 | definition of the digit-level condition: at least ten digits, the tenth from the end 6 to 9 (related to the validator in ValidatePhone) |
| Validators.ValidatePhone | js/app.js:193-196 | the phone is valid if and only if it has at least ten digits and the tenth digit from the end is 6 to 9 |
| Validators.DigitsOnlyConcat | js/app.js:195 | stripping distributes over concatenation |
| Validators.DigitsOnlyOfDigits | js/app.js:195 | a digit string is unchanged by stripping |
| Validators.DigitsOnlyOfNonDigits | js/app.js:195 | text with no digit is stripped to nothing; with DigitsOnlyConcat and DigitsOnlyOfDigits this fixes `replace(/\D/g, '')` on every input |
| Validators.PhoneIgnoresNonDigit | js/app.js:195 | inserting a non-digit anywhere in the input does not change the result |
| Validators.PhoneDependsOnlyOnDigits | js/app.js:195 | the result on a string equals the result on its digits alone |
| Validators.TenthFromEndOfSuffix | js/app.js:195 | digits put in front of at least ten others do not change the tenth digit from the end |
| Validators.PhoneTooFewDigits | js/app.js:194-195 | fewer than ten digits never validate |
| Validators.PhoneIgnoresPrefix | js/app.js:195 | with ten digits present, anything in front (a country code such as 91) does not change the result |

## Left out

- Rendering is not modelled. Only the abstract card list and the cart list are kept. This covers:
  - HTML and DOM work: `createProductCard` markup, `updateDisplay`, `openCart`/`closeCart`/`toggleCart`, `toggleWishlist`, `loadProducts`, and the card and button class toggles;
  - the contact-form handler;
  - `js/modules/ui.js`, `js/modules/auth.js` and `js/performance.js`, which are presentation and timers only.
- `generateStars` is left out because it is floating-point arithmetic on the rating. The rating itself is kept as tenths of a star (4.5 becomes 45).
- Currency formatting (`toLocaleString('en-IN')`, `formatCurrency`, `toFixed(2)`) is locale library code and is left out.
- `debounce`, `throttle`, error listeners and lazy script loading are bound to timers and the browser.
- No rule linking `discount` to `price` and `oldPrice` is stated, because the data follows none consistently.
- `JSON.parse` and `JSON.stringify` are opaque. Stored text either decodes to the list it was written from, or does not parse.
  - Other valid JSON under the key, such as `"null"` or a non-array, is not modelled.
  - Neither is a stored list whose items lack fields.
- Storage failure is a boolean parameter, not an exception. Reading storage never fails in the model.
- `LegacyCart.PrismCart.constructor`: requires that the stored text parses. In the script, a parse error aborts everything that follows, so no cart exists. `LegacyCart.InitialCart` returns `None` for that case.
- `ProductGrid.LowerAscii`: lower-cases ASCII letters only, whereas JavaScript's `toLowerCase` also folds non-ASCII letters. The catalogue's categories are ASCII.
- JavaScript strings are sequences of UTF-16 code units, and `\s` and `\D` work on those units. The model works on Unicode scalar values.
- Numbers are unbounded integers. JavaScript number precision above 2^53 is not modelled.
- Non-integer or NaN quantities passed to `updateQuantity` are not modelled. A quantity there is an integer.
- The two carts' storages are separate `LocalStorage` objects. In the browser every page of the origin shares one `localStorage`, but the keys the two carts touch are disjoint: `script.js` uses `prismCart`, while `js/modules/cart.js` writes `noonOpticals_cart` and reads `"undefined"`. Neither cart can see the other's entry, so separate maps behave the same.
- The load-more button's initial display state comes from the page's markup, not the code. The constructor takes it as a parameter.
- `window.productsData` is passed to `Cart.WindowAddToCart` as a parameter. With `Catalogue.ProductsData` it gives the guarded add of the page.

## Findings

| source | as written | input that shows it | evidently intended | confidence | as-written member | corrected member |
|---|---|---|---|---|---|---|
| js/modules/cart.js:9-26 | the constructor calls `loadCart()` before assigning `this.cartKey`, so the read uses the key `undefined` (stored as "undefined"), while every save writes `noonOpticals_cart` | any non-empty cart saved by `saveCart()`, followed by a page reload with nothing stored under "undefined": the cart comes back empty | assign `cartKey` first, so start-up restores the cart saved last | high, not executed | Cart.InitialCartMissesSavedCart | Cart.CorrectedInitialCartRestoresSave |

`Cart.CartManager.constructor` keeps the as-written order, so the class
behaves like the page. `Cart.CorrectedInitialCart` is the start-up value the
code evidently intends, and `Cart.CorrectedInitialCartRestoresSave` proves
that it restores the last successful save.
