# BOGO Free for WC — a verified model of the cart rule

BOGO Free for WC is a WooCommerce plugin with one promotion rule: when the
cart holds a *target* product (listed by id, or belonging to a target
category), each configured *free* product is put into the cart as a
quantity-1 line flagged `free_gift`; when the cart no longer qualifies, the
lines for the free products are taken out again. A second callback sets the
price of every `free_gift` line to 0. Both callbacks run on the host's
`woocommerce_before_calculate_totals` event, the add/remove pass at priority
10 and the price pass at priority 20.

The model has four modules:

- `PhpStrings` (`php_strings.dfy`): the PHP coercions the plugin applies to its
  stored options — string truthiness, `explode(',', …)` and `intval` with
  64-bit saturation — and the canonical decimal rendering that `intval`
  reads back.
- `ShopCart` (`shop_cart.dfy`): the host cart as a class `Cart` whose field
  `lines` is an ordered sequence of `Line` values under unique keys, with the
  three cart calls the plugin makes (`remove_cart_item`, `add_to_cart`,
  `set_price`).
- `Bogo` (`bogo.dfy`): the settings and request, the two callbacks as
  imperative methods over a `Cart`, and the functions they are proved
  against (`AddOrRemovePass`, `PricePass`, `RecalculationPass`).
- `BogoProperties` (`bogo_properties.dfy`): what the rule guarantees — the
  guards, the id-list round trip, the qualifying and non-qualifying
  behaviour, that other products are untouched, and idempotence.

The host services the callbacks call are parameters: `categoriesOf` stands
for `wp_get_post_terms(…, 'product_cat', …)` and `catalogPrice` for the price
the host gives a product it adds; `Request` carries `is_admin()` and
`defined('DOING_AJAX')`; `Settings` carries the three options as
`get_option` returns them, an option never saved reading as "" (or no
categories), which PHP treats the same way.

Three consequences of the code that are easy to miss:

- The add/remove pass matches cart lines on the product id alone, not on
  the `free_gift` flag. When the cart does not qualify, every line for a free
  product is removed, including one the customer added and would pay for;
  when it qualifies, a line the customer added for a free product counts as
  present and no gift line is added beside it.
- The rule is off when the target-id text is falsy in PHP's sense ("" or
  "0") and no category is selected, or when the free-id text is falsy. Text
  such as "," is not falsy: it parses to the single id 0 twice over, and the
  rule stays on.
- Ids are read by `intval`: a piece is read as the number it starts with
  after its whitespace and sign, so " 13" becomes 13 and "12abc" becomes 12,
  and a piece that does not start with a number ("abc", "ab12", "-x5")
  becomes id 0.

## Model

| member | source | states |
|---|---|---|
| PhpStrings.Explode | bogo-free-for-wc.php:134-135 | `explode(',', s)` yields at least one piece and no piece contains a comma |
| PhpStrings.ExplodeCountsCommas | bogo-free-for-wc.php:134-135 | a text with n commas explodes into n + 1 pieces |
| PhpStrings.ImplodeExplode | bogo-free-for-wc.php:134-135 | joining the exploded pieces with commas gives back the original text |
| PhpStrings.ExplodeImplode | bogo-free-for-wc.php:134-135 | comma-free pieces joined by commas explode back into the same pieces |
| PhpStrings.IntVal | bogo-free-for-wc.php:134-135 | `intval` of a string is always a 64-bit integer |
| PhpStrings.IntValLeadingNumber | bogo-free-for-wc.php:134-135 | a 64-bit integer in decimal, after any whitespace and before text that cannot continue a number, is read as that integer (" 13" gives 13, "12abc" gives 12) |
| PhpStrings.IntValNoLeadingNumber | bogo-free-for-wc.php:134-135 | a piece that does not start with digits after its whitespace and optional sign is read as 0 |
| PhpStrings.Falsy | bogo-free-for-wc.php:129 | a string PHP treats as false ("" or "0") has no comma and `intval` reads it as 0 |
| PhpStrings.IntValRender | bogo-free-for-wc.php:134-135 | every 64-bit integer printed in decimal is read back by `intval` unchanged |
| ShopCart.WithoutProducts | bogo-free-for-wc.php:154-161 | a line survives removal of a set of products exactly when it was in the cart and is for none of them |
| ShopCart.Cart.RemoveCartItem | bogo-free-for-wc.php:158 | `remove_cart_item` removes exactly the line under the key and keeps keys unique |
| ShopCart.Cart.AddToCart | bogo-free-for-wc.php:164 | `add_to_cart` appends one line under a key no line used, keeping keys unique |
| ShopCart.Cart.SetPrice | bogo-free-for-wc.php:178 | `set_price` changes the price of one line and nothing else |
| Bogo.RuleOff | bogo-free-for-wc.php:129 | the early return fires only when the target-id text would parse to the single id 0 and no category is selected, or the free-id text would parse to the single id 0 |
| Bogo.ParseIdList | bogo-free-for-wc.php:134-135 | an id list with n commas parses to n + 1 ids, all 64-bit |
| Bogo.FalsyParsesToZero | bogo-free-for-wc.php:129-135 | a falsy id text parses to the single id 0 |
| Bogo.ParseIdListShape | bogo-free-for-wc.php:134-135 | there is one id per exploded piece, and every piece that does not start with a number parses to 0 |
| Bogo.Intersects | bogo-free-for-wc.php:146 | `array_intersect` is non-empty exactly when the two category lists share a value |
| Bogo.IsTargetLine | bogo-free-for-wc.php:138-149 | a line is a target line exactly when its product is a target id or one of its categories is a target category |
| Bogo.Qualifies | bogo-free-for-wc.php:137-150 | the cart qualifies exactly when some line, wherever it stands, is a target line |
| Bogo.ScanForTarget | bogo-free-for-wc.php:137-150 | the scan that breaks at the first target line answers exactly whether some line is for a target product or a product of a target category |
| Bogo.ZeroGiftPrices | bogo-free-for-wc.php:176-180 | the price pass keeps every line, its key, product, quantity and flag, sets price 0 on `free_gift` lines and keeps other prices |
| Bogo.ReconcileFreeId | bogo-free-for-wc.php:153-165 | one free id: the line loop and the conditional add leave the cart as `ApplyFreeId` says (add a gift only if no line has the product; remove every line for it when not qualifying) |
| Bogo.ReconcileFreeIds | bogo-free-for-wc.php:152-166 | the loop over the free ids leaves the cart as `ApplyFreeIds` over those ids in order |
| Bogo.AddOrRemoveFreeProducts | bogo-free-for-wc.php:120-167 | the add/remove callback, guards included, leaves the cart as `AddOrRemovePass` of the old cart |
| Bogo.SetFreeProductPrice | bogo-free-for-wc.php:171-181 | the price callback, guard included, leaves the cart as `PricePass` of the old cart |
| Bogo.BeforeCalculateTotals | bogo-free-for-wc.php:168-182 | the two callbacks in priority order leave the cart as `RecalculationPass` of the old cart |
| BogoProperties.AdminScreenLeavesCartAlone | bogo-free-for-wc.php:121-123 | on an admin screen outside AJAX the add/remove pass changes nothing |
| BogoProperties.AdminScreenLeavesPricesAlone | bogo-free-for-wc.php:172-174 | on an admin screen outside AJAX the price pass changes nothing |
| BogoProperties.RuleOffLeavesCartAlone | bogo-free-for-wc.php:129-131 | a falsy target-id text and no categories, or a falsy free-id text, makes the add/remove pass change nothing |
| BogoProperties.ParseIdListRoundTrip | bogo-free-for-wc.php:134-135 | 64-bit ids written as comma-separated decimals parse back to the same ids in the same order |
| BogoProperties.QualifyingOnlyAppendsGifts | bogo-free-for-wc.php:152-166 | when the cart qualifies, existing lines are kept unchanged and in place, and only quantity-1 `free_gift` lines at catalogue price follow, each for a distinct free id that had no line |
| BogoProperties.QualifyingCoversFreeIds | bogo-free-for-wc.php:152-166 | when the cart qualifies, afterwards every free id has a line |
| BogoProperties.QualifyingAddsEachGiftOnce | bogo-free-for-wc.php:153-165 | when the cart qualifies, a free id with no line ends with exactly one, even if listed twice; every other product keeps its line count |
| BogoProperties.NotQualifyingRemovesFreeProducts | bogo-free-for-wc.php:154-161 | when the cart does not qualify, exactly the lines for non-free products remain, in order, gift or not |
| BogoProperties.OtherProductsUntouched | bogo-free-for-wc.php:152-166 | in both cases the lines for products that are not free ids are the same, in the same order |
| BogoProperties.SettledIsFixpoint | bogo-free-for-wc.php:152-166 | a cart in which every free id is present (qualifying) or none is (not qualifying) is left unchanged by the loop |
| BogoProperties.PassSettles | bogo-free-for-wc.php:137-166 | one add/remove loop settles the cart and does not change whether it qualifies |
| BogoProperties.AddOrRemovePassIdempotent | bogo-free-for-wc.php:120-167 | running the add/remove pass on its own result changes nothing |
| BogoProperties.ZeroGiftPricesIdempotent | bogo-free-for-wc.php:176-180 | zeroing gift prices a second time changes nothing |
| BogoProperties.PricesDoNotMatter | bogo-free-for-wc.php:176-180 | the price pass changes neither whether the cart qualifies nor whether it is settled |
| BogoProperties.RecalculationPassIdempotent | bogo-free-for-wc.php:168-182 | a second recalculation (both passes) on the result of the first changes nothing |
| BogoProperties.QualifyingCartGetsOneFreeGift | bogo-free-for-wc.php:152-180 | a qualifying cart with no line for a free id ends the recalculation with exactly one line for it, a quantity-1 gift at price 0, however many target lines there are |
| BogoProperties.NonQualifyingCartLosesFreeProducts | bogo-free-for-wc.php:152-166 | after the add/remove pass on a cart that does not qualify, a line is in the cart exactly when it was before and is not for a free id |

## Left out

- The settings page, option registration and uninstall hook (lines 18-117): they render HTML and store options through the host; the options enter the model as `Settings`.
- PhpStrings.IntVal: does not model `intval` reading a numeric string through a float. An exponent form gives a different value in PHP ("1e3" is 1000, "1.5e1" is 15), and so does a fraction that rounds up as a double ("0.99999999999999999999" is 1). The model reads only the sign and the leading digits.
- Bogo.IsTargetLine: `array_intersect` compares by string form, and the stored category ids may be strings; the model compares category ids as integers. A `WP_Error` from the category lookup is not modelled.
- ShopCart.Cart.AddToCart: always succeeds; the host's refusals (a product that does not exist or cannot be bought, stock limits) are not modelled. The model assumes the added line carries exactly the product id passed, which holds for simple products only. The host files a variation id under its parent product, so for a configured variation id the check at line 155 never finds the gift line. Every recalculation then adds it again, and the host merges it into the same line, whose quantity grows. The model does not capture this, and `QualifyingCoversFreeIds` and the idempotence lemmas rely on the assumption. The host also derives a line key from the product and its item data, where the model gives each new line a fresh key. For a simple product a gift is only added when no line has that product, so no merge with an existing line happens. A text with a trailing comma ("12,13,") parses to an extra id 0; the model then adds a gift line for product 0, where the host's `add_to_cart` refuses a product that does not exist and adds nothing.
- ShopCart.Line: the price is an integer (minor units), not the host's decimal; the `free_gift` item data is a boolean (`isset` and `=== true` collapse to it).
- Re-entrant events: the host running `woocommerce_before_calculate_totals` again from inside `add_to_cart`, or from inside `remove_cart_item` through its `woocommerce_cart_item_removed` hook, is not modelled; one event runs the two callbacks once each. The final cart is the same either way, because the pass is idempotent (`AddOrRemovePassIdempotent`, `RecalculationPassIdempotent`).
- Loose comparison `==` and `in_array`: the cart's product ids and the parsed ids are both integers, so they behave as integer equality.
