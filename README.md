# Shooting calculator: a verified model of the cart and pricing engine

The shooting calculator is a browser page where a studio assembles a photo-shoot quote. The operator:

- picks line items from a catalog into a cart;
- enters a discount as a percent or an amount;
- reads the totals;
- saves the quote, with client details, into a history of at most 50 calculations, and loads quotes back from it.

The page exists in two generations: `ShootingCalculator` in `js/app.js` and `ShootingCalculatorV2` in `js/app-v2.js`. The second adds:

- unit costs and a margin dashboard;
- a zero-margin warning;
- in-cart quantity buttons.

This project models the engine inside both classes and keeps the two generations apart wherever they differ. The engine is:

- the cart store;
- the totals;
- the margin tiers;
- the calculation history;
- the construction of line-item ids from the catalog.

Modules:

- `Common`:
  - `Option`, `Max`;
  - `Round` (JavaScript `Math.round`, that is ⌊x + ½⌋);
  - the client form and the default client name;
  - the two discount inputs.
- `Slugs`: the id slug `s.replace(/\s/g, '_')` over the exact JavaScript `\s` character class, and its algebra.
- `Cart`: generic over what an entry carries. It covers:
  - merge-or-append on add, and the filter on remove;
  - the quantity clamp `max(1, q + delta)`;
  - sums over the cart (`reduce`);
  - the two cart invariants: one entry per id, every quantity at least 1.
- `Archive`: the newest-first history capped at 50, and the lookup of the newest record with a given id.
- `Margin`: the four margin tiers of `getMarginLevel`.
- `PricingV1`:
  - the subtotal;
  - the saved discount rule (`calculateDiscount`) and the on-screen rule (`updateTotals`), which differ;
  - the clamped total.
- `PricingV2`:
  - `calculateTotals`: subtotal, cost, discount, total, margin and rounded margin percentage;
  - the dashboard figures, which use the undiscounted price and count a zero quantity as one.
- `CatalogV1`, `CatalogV2`: the line items a category page, postproduction, additional services and studio rent produce, in page order, with their ids.
- `AppV1.Calculator`, `AppV2.CalculatorV2`: classes whose fields hold the state:
  - the cart;
  - the history;
  - the client form;
  - the discount inputs.

  The methods change those fields as the source does and are proved against the specification functions above. `CalculatorV2.MarginDashboard` is the dashboard's accumulation loop, proved against `DashboardOf`.

Money is an exact real number. Quantities are integers.

## Model

| member | source | states |
|---|---|---|
| Common.Round | js/app-v2.js:632 | `Math.round` gives the integer nearest to x, and an exact half rounds up |
| Common.SavedClient | js/app.js:441-444 | an empty client name is saved as the default name; the other fields are kept; the saved name is never empty |
| Slugs.Slug | js/app-v2.js:187 | the slug has the input's length; at every position a whitespace character becomes `_` and any other character is kept |
| Slugs.SlugShape | js/app-v2.js:202 | the slug contains no whitespace, keeps every non-whitespace character in place and puts `_` at every whitespace position |
| Slugs.SlugAppend | js/app.js:255 | slugging distributes over concatenation |
| Slugs.SlugOfClean | js/app.js:269 | a string without whitespace is its own slug |
| Slugs.SlugTemplate | js/app-v2.js:225 | slugging a template with whitespace-free prefix and suffix slugs only the interpolated name |
| Slugs.SlugNotInjective | js/app-v2.js:187 | two different names (`a b`, `a_b`) have the same slug, so slugged ids need not be unique |
| Cart.IndexOf | js/app.js:314 | `findIndex`: -1 exactly when no entry has the id; otherwise the first entry with the id |
| Cart.ChangeQuantity | js/app-v2.js:306 | the pre-add counter becomes current + delta, but never less than 1 |
| Cart.AddMerges | js/app.js:316-318 | adding an id already present adds q to that entry's quantity; the length, the order and every other entry are unchanged |
| Cart.AddAppends | js/app.js:319-325 | adding an absent id appends exactly one entry with quantity q at the end |
| Cart.AddKeepsValid | js/app-v2.js:315-326 | adding with q ≥ 1 keeps ids unique and quantities ≥ 1, and the id is then in the cart |
| Cart.AddQuantity | js/app-v2.js:315-326 | the quantity held under the added id grows by exactly q; the quantity under every other id is unchanged |
| Cart.AddTwice | js/app.js:314-325 | adding the same new id twice leaves one entry holding both quantities |
| Cart.QuantityDeltaShape | js/app-v2.js:345-349 | `updateCartQuantity` sets the found entry to max(1, old + delta) and keeps the length and all other entries; an absent id leaves the cart unchanged |
| Cart.QuantityDeltaKeepsValid | js/app-v2.js:349 | quantity ≥ 1 and unique ids survive any delta |
| Cart.QuantityFloorExample | js/app-v2.js:349 | quantity 3 with delta -1000 becomes 1 |
| Cart.RemovedShape | js/app.js:344 | after removal no entry has the id; every other entry remains, in order; the cart does not grow |
| Cart.RemovedAbsent | js/app-v2.js:357 | removing an absent id changes nothing |
| Cart.RemovedUnique | js/app-v2.js:357 | with unique ids, removal deletes exactly the one entry with that id |
| Cart.RemovedSubset | js/app.js:344 | every remaining entry was in the cart and has a different id |
| Cart.RemovedKeepsValid | js/app-v2.js:357 | removal keeps ids unique and quantities ≥ 1 |
| Cart.SumAdded | js/app.js:606 | the sum of a term over the cart after an add differs from the old sum by the merged entry's change, or by the appended entry's term |
| Cart.SumRemoved | js/app-v2.js:617 | with unique ids, removal takes exactly the removed entry's term off a sum |
| Cart.SumNonNegative | js/app.js:606 | a sum of non-negative terms is non-negative |
| Archive.Find | js/app-v2.js:686 | `find` is None exactly when no record has the id; otherwise it is the first (newest) record with that id |
| Archive.PushedShape | js/app-v2.js:604-610 | the saved calculation becomes element 0; the rest is the old history, minus its last element when the history already held 50 |
| Archive.PushedBounded | js/app.js:460-463 | a history of at most 50 stays at most 50; below 50 it grows by one; at 50 or more its length is unchanged |
| Archive.PushAllRetainsNewest | js/app.js:461-463 | saving n calculations into an empty history keeps exactly the newest min(n, 50), newest first |
| Archive.FindPushed | js/app-v2.js:605 | the calculation just saved is the one a load of its id finds |
| Margin.MarginLevel | js/app-v2.js:294-299 | high iff m ≥ 70, medium iff 40 ≤ m < 70, low iff 20 ≤ m < 40, zero iff m < 20 (negatives included) |
| Margin.MarginLevelMonotone | js/app-v2.js:294-299 | a larger margin never gets a lower tier |
| Margin.MarginLevelBoundaries | js/app-v2.js:295-297 | 70, 40 and 20 belong to the upper band; values just below them fall to the next band; a negative margin is zero |
| PricingV1.Subtotal | js/app.js:605-607 | an empty cart has subtotal 0 |
| PricingV1.SubtotalAdded | js/app.js:314-325 | adding grows the subtotal by q units at the price of the entry the quantity lands in |
| PricingV1.SubtotalRemoved | js/app.js:344 | with unique ids, removing an id takes exactly its line total off the subtotal |
| PricingV1.SubtotalNonNegative | js/app.js:605-607 | non-negative prices and positive quantities give a non-negative subtotal |
| PricingV1.CalculateDiscountRule | js/app.js:609-618 | the saved discount is subtotal·p/100 when p > 0, else the raw amount, even a negative one |
| PricingV1.DiscountsAgree | js/app.js:397-402 | the on-screen discount equals the saved one exactly when p > 0 or the amount is ≥ 0 |
| PricingV1.ScreenDiscountNonNegative | js/app.js:397-402 | the on-screen discount is never negative on a non-negative subtotal |
| PricingV1.NegativeAmountSavedTotal | js/app.js:614-617 | with a negative amount and no percent, the saved total exceeds the subtotal while the screen shows the subtotal |
| PricingV1.SavedTotals | js/app.js:454-456 | the saved subtotal is the cart's subtotal; the saved discount is subtotal·p/100 when p > 0 and otherwise the raw amount; the saved total is ≥ 0 and ≥ subtotal − discount, and equals subtotal − discount when the discount lies within the subtotal |
| PricingV1.ScreenTotals | js/app.js:390-408 | the subtotal shown is the cart's subtotal; when p > 0 or the amount is ≥ 0 the screen shows exactly the figures that are saved; with no percent and a negative amount it shows no discount and a total of max(0, subtotal); the total shown is ≥ 0 |
| PricingV1.TotalProperties | js/app.js:620-624 | total = max(0, subtotal − discount) ≥ 0; when 0 ≤ discount ≤ subtotal, total + discount = subtotal; a larger discount gives 0 |
| PricingV1.PercentDiscountWithinSubtotal | js/app.js:614-616 | a percent in (0, 100] discounts within the subtotal; a percent above 100 (not clamped) brings the total to 0 |
| PricingV2.Subtotal | js/app-v2.js:617 | an empty cart has subtotal 0 |
| PricingV2.TotalCost | js/app-v2.js:618 | an empty cart has cost 0 |
| PricingV2.MarginPercent | js/app-v2.js:632 | 0 when the base is not positive; otherwise the integer nearest to margin/base·100 |
| PricingV2.CalculateTotals | js/app-v2.js:616-642 | the total is ≥ 0 and at least subtotal − discount |
| PricingV2.TotalsProperties | js/app-v2.js:617-632 | the subtotal and the cost are the sums over the cart; the discount is subtotal·p/100 when p > 0, else the raw amount; the stored margin is total − cost; total ≥ 0; when 0 ≤ discount ≤ subtotal, total + discount = subtotal; a discount ≥ subtotal gives 0; the margin percent is 0 for a zero total, and otherwise the rounded share of the margin in the total |
| PricingV2.NegativeAmountRaisesTotal | js/app-v2.js:623-628 | with no percent, a negative amount is used as it is and lifts the total above the subtotal |
| PricingV2.MarginPercentRange | js/app-v2.js:632 | the rounded share is ≤ 100 while margin ≤ base, and ≥ 0 while margin ≥ 0 |
| PricingV2.TotalsMarginPercentRange | js/app-v2.js:617-632 | with non-negative costs and positive quantities the saved margin percent is ≤ 100; it is ≥ 0 while cost ≤ total |
| PricingV2.DashboardMatchesTotals | js/app-v2.js:448-461 | with positive quantities the dashboard's price and cost equal the subtotal and cost of `calculateTotals`; with no discount and a non-negative subtotal the margin and percent also agree |
| PricingV2.DiscountedMarginExample | js/app-v2.js:630-632 | 2 × (price 1000, cost 400) at 10 % off saves 2000/200/1800/800/1000/56 % (medium), while the dashboard shows 1200 and 60 % |
| PricingV2.ZeroQuantityExample | js/app-v2.js:449-456 | a zero quantity counts as one on the dashboard but as nothing in the totals; a flagged entry raises the warning |
| CatalogV1.LineItemsLayout | js/app.js:128-245 | the page starts with exactly the packages block; generic services follow as `<category>_<service id>` (unslugged, `undefined` when missing); items follow as `<category>_<slugged label>`; the page ends with exactly the studios block; outside the ids `mannequin` and `model_shoot`, exactly the textile tariffs lie between the items and the studios |
| CatalogV1.PackagesListed | js/app.js:131-143 | the packages block has one line item per package of every subcategory, each under the package's own id, and nothing else |
| CatalogV1.StudiosOffers | js/app.js:214-242 | every studio yields four line items |
| CatalogV1.StudioIds | js/app.js:216-240 | a studio's four ids are `studio_` followed by its slugged name and one of the suffixes `_weekday_hour`, `_weekend_hour`, `_weekday_shift`, `_weekend_shift`, and they are pairwise different |
| CatalogV1.MannequinLineItems | js/app.js:147-184 | in a `mannequin` category, a one-variant service without an id is listed by the generic block and again by the mannequin block |
| CatalogV1.MannequinListedTwice | js/app.js:147-184 | those two line items have the different ids `mannequin_undefined` and `mannequin_<slug type>_<slug method>` |
| CatalogV1.PostOffer | js/app.js:255 | the postproduction id is `post_` + slug(group) + `_` + slug(name), has no whitespace, and the line carries the item's name and price |
| CatalogV1.PostproductionOffers | js/app.js:247-260 | one line item per item of every group, each the `PostOffer` of its group and item, and nothing else; every id is free of whitespace |
| CatalogV1.AdditionalOffers | js/app.js:262-273 | one line item per additional service, with id `add_` + slug(name) and no whitespace |
| CatalogV1.AdditionalOffer | js/app.js:269 | the id of an additional service is `add_` + slug(name) and has no whitespace |
| CatalogV2.LineItemsLayout | js/app-v2.js:161-193 | the page starts with exactly the packages block, then services under their own ids, then items under `<category>_<slugged label>`; nothing else follows |
| CatalogV2.PackagesListed | js/app-v2.js:165-172 | the packages block has one line item per package of every subcategory, each under the package's own id and carrying the package, and nothing else |
| CatalogV2.PostOffer | js/app-v2.js:202 | the postproduction id is `post_` + slug(group) + `_` + slug(name), has no whitespace, and the spread item is kept |
| CatalogV2.PostproductionOffers | js/app-v2.js:195-207 | one line item per item of every group, each the `PostOffer` of its group and item, and nothing else; every id is free of whitespace |
| CatalogV2.AdditionalOffer | js/app-v2.js:214 | the id is `add_` + slug(name), has no whitespace and carries the service unchanged |
| CatalogV2.StudioOffer | js/app-v2.js:225 | the id is `studio_` + slug(name), has no whitespace and carries the studio unchanged |
| CatalogV2.ItemIdsCollide | js/app-v2.js:187 | two items of a category share an id exactly when their labels slug alike |
| CatalogV2.StudioIdsCollide | js/app-v2.js:225 | two studios share an id exactly when their names slug alike |
| AppV1.SavedRecord | js/app.js:446-458 | the saved calculation carries the id and the cart, a non-empty client name, and a total ≥ 0 |
| AppV1.SaveThenLoad | js/app.js:497-504 | loading the id just saved gives back the cart, the client details (an empty name as the default name) and the totals |
| AppV1.Calculator.constructor | js/app.js:3-8 | the calculator starts with an empty cart, an empty history, an empty form and no discount |
| AppV1.Calculator.AddToCart | js/app.js:309-325 | the new cart is the merge-or-append of the old one; the invariants hold; nothing else changes |
| AppV1.Calculator.RemoveFromCart | js/app.js:343-347 | the new cart is the old one without the id; the invariants hold; nothing else changes |
| AppV1.Calculator.ClearCart | js/app.js:419-426 | the cart is emptied exactly when confirmed; an empty cart stays empty; nothing else changes |
| AppV1.Calculator.UpdateDiscount | js/app.js:410-417 | typing into one discount input clears the other |
| AppV1.Calculator.EditClient | js/app.js:441-444 | the client form holds what the user typed |
| AppV1.Calculator.SaveCalculation | js/app.js:435-466 | an empty cart saves nothing; otherwise the history becomes the capped push of a calculation copying cart, client and totals; the history stays ≤ 50 |
| AppV1.Calculator.LoadCalculation | js/app.js:497-511 | an unknown id changes nothing; otherwise cart and client become the newest saved ones for that id, and the discount inputs stay |
| AppV2.SavedRecord | js/app-v2.js:589-602 | the saved calculation carries the id, the cart, the discount inputs, a non-empty client name, the cart's subtotal and a total ≥ 0 |
| AppV2.SaveThenLoad | js/app-v2.js:684-698 | loading the id just saved gives back the cart, the discount inputs and the client details |
| AppV2.CalculatorV2.constructor | js/app-v2.js:3-8 | the calculator starts with an empty cart, an empty history, an empty form and no discount |
| AppV2.CalculatorV2.AddToCart | js/app-v2.js:310-326 | the new cart is the merge-or-append of the old one; the invariants hold; nothing else changes |
| AppV2.CalculatorV2.UpdateCartQuantity | js/app-v2.js:345-354 | the entry with the id gets max(1, quantity + delta); an absent id changes nothing; the invariants hold |
| AppV2.CalculatorV2.RemoveFromCart | js/app-v2.js:356-361 | the new cart is the old one without the id; the invariants hold |
| AppV2.CalculatorV2.ClearCart | js/app-v2.js:539-548 | the cart is emptied exactly when confirmed; nothing else changes |
| AppV2.CalculatorV2.UpdateDiscount | js/app-v2.js:525-532 | typing into one discount input clears the other |
| AppV2.CalculatorV2.EditClient | js/app-v2.js:588-599 | the client form holds what the user typed |
| AppV2.CalculatorV2.MarginDashboard | js/app-v2.js:433-461 | an empty cart shows no dashboard; otherwise the loop's accumulated price, cost, margin, percent and zero-margin flag equal `DashboardOf`, whose flag is true iff some entry is flagged |
| AppV2.CalculatorV2.SaveCalculation | js/app-v2.js:582-614 | an empty cart saves nothing; otherwise the history becomes the capped push of a calculation with cart, discount inputs, client and `calculateTotals`; the history stays ≤ 50 |
| AppV2.CalculatorV2.LoadCalculation | js/app-v2.js:684-704 | an unknown id changes nothing; otherwise client, discount inputs and cart become those of the newest saved calculation with that id |

## Left out

- DOM and view code: rendering, HTML templates, event wiring, modals, the button animation and the per-service margin badges (`createServiceBadges`, `updateMarginServicesList`).
- Dialogs and browser calls:
  - `alert` is left out;
  - `confirm` is the `confirmed` parameter;
  - clipboard, print and the proposal text (`generateProposal`) are not modelled.
- Formatting: `formatPrice` and locale date formatting.
- Storage and JSON: the cart and the history live in memory as fields. Two consequences:
  - `loadCartFromStorage` is not modelled: neither the second generation's `try/catch`, nor the first generation's lack of one.
  - Sharing between `items: this.cart` and the cart loaded back in the second generation is not modelled. The source stringifies the history on save and re-parses it on every read, so the sharing is never observable. Both generations are modelled as copying values.
- Clock, parsing and dynamic values:
  - The save time stamp (`Date.now()`) and the date are parameters.
  - Discount inputs are already-parsed numbers, and an empty input is 0.
  - NaN from `parseInt`/`parseFloat` is not modelled, nor are `price || 0` and `quantity || 1` applied to NaN or to missing values.
- AddToCart: requires q ≥ 1, because the quantity counter it reads is clamped at 1 and reset to 1 after every add.
- Arithmetic: money is exact real arithmetic, not IEEE doubles, so rounding error and overflow are not modelled.
- Catalog data:
  - Loading `window.PRICES_DATA(_V2)` and the catalog content are not modelled.
  - An absent item label is the empty string. In the source, an item with neither label makes the slug call throw, which is not modelled.
  - An absent catalog array is an empty sequence. The source does the same only for the arrays it guards with `if (…)`: `subcategories`, `services`, `items`, `packages` and `studios` of a category.
  - The first generation iterates these other arrays unguarded, so an absent one throws in the source, which is not modelled: a subcategory's `packages` (js/app.js:135), a category's `services` in the mannequin and model-shoot blocks (js/app.js:173, 202), a service's `variants` (js/app.js:175), a textile package's `tariffs` (js/app.js:190), the postproduction groups and their `items` (js/app.js:249, 251), and the additional services (js/app.js:264).
  - The second generation iterates these arrays unguarded, with the same consequence: a subcategory's `packages` (js/app-v2.js:168), the postproduction groups and their `items` (js/app-v2.js:197, 199), the additional services (js/app-v2.js:211) and the studios (js/app-v2.js:222).
- CatalogV2.LineItemsLayout: the second generation's package and service ids are modelled as present strings. A missing id (`undefined`) is not modelled.
- Category navigation (`showCategory`, `showCategories`), the portfolio modal and the history list view are UI and are not modelled.
