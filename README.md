# Shopping-cart pricing model

This project models the cart state of a food-ordering page (`index.js`): a
fixed catalog of four meals, a `MealData` counter per meal that the "+" and
"-" buttons raise and lower, and the `PageData` object that owns those
counters and answers the cart bar's questions — the order total, the number
of units in the cart, whether the delivery minimum of 100 is reached and how
much is still missing.

- `pricing.dfy`, module `Pricing`: the value model. `Meal` is a catalog
  entry; `Line` is the observable state of one `MealData` (meal and selected
  quantity) with the two getters `TotalPrice` and `IsAddedToCart` and the two
  transitions `Increased` and `Decreased`. `OrderTotal` and `CartTotalNum`
  are the two `reduce` folds of `PageData`, written as left folds over the
  lines; `CanDeliver` and `NeedCostToDelivery` are the delivery test and the
  missing amount. The lemmas state how each click moves the aggregates.
- `cart.dfy`, module `Cart`: the state that the page mutates in place. The
  catalog `Meals`; class `MealData` with its mutable `selectQuantity` and
  methods `Increase`/`Decrease`; class `PageData` whose constructor builds one
  fresh `MealData` per catalog entry in a loop, whose `Increase(index)` and
  `Decrease(index)` delegate to the addressed item and change nothing else,
  and whose aggregates are recomputed from `Lines()` on every read, never
  cached.
- `scenarios.dfy`, module `Scenarios`: click sequences on a fresh page with
  the figures the cart bar then shows.

`PageData.Lines()` is the bridge: each state-changing method of `PageData`
states its new state as a function of `old(Lines())`, and the `Pricing`
lemmas then give the new aggregates.

The page's methods do not check the index they are given (index.js:65-71),
so `PageData.Increase` and `PageData.Decrease` require an index inside the
list. The constructor fixes the delivery minimum at 100 (index.js:62).

## Model

| member | source | states |
|---|---|---|
| Cart.MealData.constructor | index.js:26-29 | a new item wraps the given meal with quantity 0 |
| Cart.MealData.Increase | index.js:32-34 | the quantity goes up by exactly one, with no upper bound |
| Cart.MealData.Decrease | index.js:37-39 | at 0 the quantity stays 0; otherwise it goes down by exactly one |
| Pricing.DecreasedClamps | index.js:37-39 | "-" keeps the meal; on an unselected line it is a no-op and so idempotent; on a selected line it removes exactly one unit |
| Pricing.IncreasedThenDecreased | index.js:32-39 | after "+" the line is in the cart, and "+" then "-" gives back the original line |
| Pricing.LineTotalZero | index.js:42-49 | a line total is 0 exactly when the line is not in the cart or the meal is free |
| Pricing.IncreasedTotal | index.js:32-44 | one more unit adds exactly the unit price to the line total |
| Cart.PageData.constructor | index.js:56-63 | a new page has one distinct, fresh item per catalog meal, in catalog order, each with quantity 0, and a delivery minimum of 100 |
| Cart.PageData.Increase | index.js:65-67 | "+" at `index` raises that line's quantity by one; every other line, every price and the list length are unchanged |
| Cart.PageData.Decrease | index.js:69-71 | "-" at `index` lowers that line's quantity with the clamp at zero; every other line, every price and the list length are unchanged |
| Pricing.OrderTotalAppend | index.js:74-78 | the order total of two concatenated carts is the sum of their totals, so the fold is the plain sum of the line totals |
| Pricing.CartTotalNumAppend | index.js:81-85 | the unit count of two concatenated carts is the sum of their counts |
| Pricing.OrderTotalUpdate | index.js:74-78 | replacing one line changes the order total by exactly the difference of the old and new line totals |
| Pricing.CartTotalNumUpdate | index.js:81-85 | replacing one line changes the unit count by exactly the difference of the quantities |
| Pricing.IncreaseAtTotals | index.js:65-85 | "+" on a line raises the order total by that meal's price and the unit count by one |
| Pricing.DecreaseAtTotals | index.js:69-85 | "-" on a selected line lowers the order total by that meal's price and the unit count by one; on an unselected line the cart is unchanged |
| Pricing.IncreaseThenDecreaseAt | index.js:65-71 | "+" then "-" on the same line restores the whole cart |
| Pricing.OrderTotalZero | index.js:74-78 | the order total is 0 exactly when every line total is 0 |
| Pricing.CartTotalNumZero | index.js:81-85 | the unit count is 0 exactly when no line is in the cart |
| Pricing.EmptyCartTotal | index.js:74-85 | a cart with no units has order total 0 |
| Pricing.OrderTotalCoversLine | index.js:74-78 | the order total is at least every single line total |
| Pricing.NeedCostToDelivery | index.js:88-95 | the missing amount is positive exactly when delivery is not possible, and then it is the least amount whose addition reaches the minimum |
| Cart.PageData.GetNeedCostToDelivery | index.js:88-95 | the page's missing amount is positive exactly when the page cannot deliver |
| Scenarios.OneShawarma | index.js:2-19 | one "+" on the first meal (price 66) gives total 66, no delivery, 34 missing |
| Scenarios.UpAndDownAgain | index.js:55-95 | two "+" on the first meal give 132 and delivery; two "-" then give total 0 and unit count 0 |
| Scenarios.IndependentLines | index.js:65-71 | "-" on an empty line changes nothing; "+" on the second meal puts only it in the cart, total 88 |

## Left out

- `UIRender` (index.js:101-247): building the list's HTML, toggling CSS classes and writing the totals into the page; it only reads the values modelled here.
- `addAnimate` and `getCartRect` (index.js:198-246): floating-point geometry from the browser layout and CSS transitions.
- The click handler (index.js:252-259): it passes `dataset.index`, a string, straight into array indexing; the model takes an in-range natural-number index instead of JavaScript's string-to-index coercion and its `undefined` behaviour for a bad index.
- Cart.MealData.Increase: JavaScript numbers are doubles, exact only up to 2^53; the model's quantities and totals are unbounded integers.
- Prices are whole non-negative numbers; the catalog's prices are all such, and no fractional or negative price is modelled.
- The single page-wide instance created at load time is not modelled; scenarios construct their own `PageData`.
