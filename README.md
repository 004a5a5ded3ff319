# Order domain model in Dafny

A verified model of the domain layer of a small order-management system:

- the `Money` value (a non-negative amount in one currency),
- the `EntityId` value (a non-blank string id),
- the `Customer` entity (with its e-mail format check and mutable address),
- the `Product` entity (a catalog item with a shared, mutable stock counter),
- the `Order` aggregate (item lines, a derived total, and a status machine running
  PENDING → CONFIRMED → SHIPPED → DELIVERED, with CANCELLED reachable from anything
  but DELIVERED and CANCELLED),
- the `OrderDiscountService` rules (quantity tiers, the large-order bonus, free shipping).

Every operation that throws in the source returns a `Result` or an `Outcome`
here (`errors.dfy`), with one error constructor per message the source throws.

Files, one module each:

| file | module | models |
|---|---|---|
| errors.dfy | `DomainErrors` | the thrown errors, `Result`, `Outcome` |
| text.dfy | `Text` | JavaScript whitespace (`\s`, `String.prototype.trim`) |
| money.dfy | `MoneyValues` | src/domain/value-objects/Money.ts |
| entity_id.dfy | `EntityIds` | src/domain/value-objects/EntityId.ts |
| customer.dfy | `Customers` | src/domain/entities/Customer.ts |
| product.dfy | `Products` | src/domain/entities/Product.ts |
| order.dfy | `Orders` | src/domain/entities/Order.ts |
| discount.dfy | `OrderDiscounts` | src/domain/services/OrderDiscountService.ts |
| scenarios.dfy | `OrderScenarios` | concrete runs of the aggregate through its contracts |

How the source's forms are kept:

- `Money` and `EntityId` are immutable, so they are datatypes. Their private
  constructors validate, so the fields have subset types: a `Money` amount is
  never negative, and an `EntityId` value is never blank.
- `Product`, `Customer` and `Order` are classes whose methods update fields in place.
  `Product.stock` is a `nat`: every assignment to it is guarded.
  Orders hold references to the products, and `AddItem` and `Cancel` change their stock.
  A source constructor that can throw becomes a static `Create` method returning a `Result`.
  `Customer.Create` calls a Dafny constructor whose precondition is the e-mail check that passed;
  `Product.Create` checks the sign of the stock and passes it on as a `nat`.
- `recalculateTotal` is a left fold (`FoldTotal`) that stops at the first error, as `reduce` does.
  It adds each line's `price.add(Money.of(quantity))`: the unit price plus the quantity as money in USD.
  This is the formula as written, not price times quantity.
  `TotalIsLineSum` states what it computes.
- `cancel` is a loop over the lines calling `UpdateStock`.
  It is proved never to fail part-way: quantities are positive, stocks are never negative,
  and distinct product ids make the line products distinct objects.
- `Order.Valid()` allows a stale total only when the fold fails.
  That happens when a line is priced in another currency than USD: `addItem` has then
  already changed the lines, throws in `recalculateTotal`, and never takes the stock.

Facts of the code the model keeps as they are:

- the discount is built with `Money.of(x)` and so is always in USD, whatever the order's
  currency (src/domain/services/OrderDiscountService.ts:33);
- `cancel` restores stock line by line with no check beforehand that every restoration
  will succeed (src/domain/entities/Order.ts:103-114); `Cancel` proves none can fail;
- `addItem` does not look at the status, so lines can be added to a confirmed, delivered
  or cancelled order (src/domain/entities/Order.ts:49-73);
- the default currency is the literal `"USD"` (src/domain/value-objects/Money.ts:11);
- an `addItem` that fails on a currency mismatch has already added its line but taken no
  stock (src/domain/entities/Order.ts:61-72), and a later `cancel` gives that line's
  quantity back all the same (src/domain/entities/Order.ts:109-111): the product ends with
  more stock than it started with (`FailedLineRestockedOnCancel`).

## Model

| member | source | states |
|---|---|---|
| `MoneyValues.Of` | src/domain/value-objects/Money.ts:11-13 | `Money.of(amount, currency = "USD")`; what it returns is stated by `OfFailsIffNegative` and `OfDefaultsToUsd` |
| `MoneyValues.OfFailsIffNegative` | src/domain/value-objects/Money.ts:6-13 | `Money.of(a, c)` fails with the negative-amount error exactly when `a < 0`; otherwise the getters give back `a` and `c` |
| `MoneyValues.OfDefaultsToUsd` | src/domain/value-objects/Money.ts:11 | omitting the currency means `"USD"` |
| `MoneyValues.Add` | src/domain/value-objects/Money.ts:23-28 | succeeds exactly when the currencies match, with amount `a + b` in the first currency; the only failure is the currency mismatch, so the sum never trips the negative check |
| `MoneyValues.AddOfOf` | src/domain/value-objects/Money.ts:27 | `Money.of(a).add(Money.of(b)) == Money.of(a + b)` for non-negative `a`, `b` |
| `MoneyValues.AddCurrencyMismatch` | src/domain/value-objects/Money.ts:24-26 | adding different currencies fails with the mismatch error |
| `MoneyValues.AddCommutative` | src/domain/value-objects/Money.ts:23-28 | same-currency addition is commutative |
| `MoneyValues.AddAssociative` | src/domain/value-objects/Money.ts:23-28 | same-currency addition is associative |
| `MoneyValues.AddZeroIdentity` | src/domain/value-objects/Money.ts:23-28 | `Money.of(0, c)` is a left and right identity in currency `c` |
| `MoneyValues.Equals` | src/domain/value-objects/Money.ts:30-32 | `equals` holds exactly when the two values are equal in amount and currency |
| `MoneyValues.EqualsReflexiveSymmetric` | src/domain/value-objects/Money.ts:30-32 | `equals` is reflexive and symmetric |
| `EntityIds.FromString` | src/domain/value-objects/EntityId.ts:12-20 | fails with the empty-id error exactly when the string is empty or all whitespace; otherwise `toString` gives the string back untrimmed |
| `EntityIds.ToString` | src/domain/value-objects/EntityId.ts:26-28 | the string given back is never empty or all whitespace; with `FromString` it returns the argument untrimmed |
| `EntityIds.Equals` | src/domain/value-objects/EntityId.ts:22-24 | holds exactly when the wrapped strings are equal, which is value equality |
| `EntityIds.EqualsIsEquivalence` | src/domain/value-objects/EntityId.ts:22-24 | `equals` is reflexive, symmetric and transitive |
| `EntityIds.ValueNotBlank` | src/domain/value-objects/EntityId.ts:4-20 | every EntityId holds a character that is not whitespace |
| `Text.BlankIffAllWhitespace` | src/domain/entities/Customer.ts:35 | `!s.trim()` holds exactly when every character of `s` is whitespace |
| `Customers.IsValidEmailIffShape` | src/domain/entities/Customer.ts:11-16 | the e-mail check accepts exactly local `@` domain `.` tld with three non-empty parts free of whitespace and `@` |
| `Customers.DottedDomainAccepted` | src/domain/entities/Customer.ts:12 | the domain part may itself contain dots |
| `Customers.MissingDotRejected` | src/domain/entities/Customer.ts:12 | every string with no dot after its first `@` (or with no `@`) is rejected |
| `Customers.SpaceRejected` | src/domain/entities/Customer.ts:12 | every string containing a whitespace character anywhere is rejected |
| `Customers.Customer.Create` | src/domain/entities/Customer.ts:2-16 | construction fails with the e-mail error unless the e-mail has the required shape; id, name and address are stored unchecked |
| `Customers.Customer.UpdateAddress` | src/domain/entities/Customer.ts:34-39 | an empty or whitespace-only address fails and leaves the address; otherwise the argument is stored untrimmed; id, name and e-mail never change, so the e-mail stays well-formed |
| `Products.Product.Create` | src/domain/entities/Product.ts:4-14 | construction fails exactly when the initial stock is negative, otherwise stores every field |
| `Products.Product.UpdateStock` | src/domain/entities/Product.ts:36-42 | sets stock to `stock + d` when that is not negative, otherwise fails leaving it; id, name, description and price never change |
| `Products.StockAfterFailsIffNegative` | src/domain/entities/Product.ts:37-41 | `updateStock(d)` fails exactly when `stock + d < 0` and otherwise yields `stock + d` |
| `Products.OverdrawFails` | src/domain/entities/Product.ts:38-40 | `updateStock(-s - 1)` on stock `s` fails |
| `Products.StockRoundTrip` | src/domain/entities/Product.ts:37-41 | a successful `updateStock(d)` followed by `updateStock(-d)` restores the stock |
| `Orders.Order.constructor` | src/domain/entities/Order.ts:18-27 | a new order is PENDING with no lines and total `Money.of(0)` in USD |
| `Orders.LineAmount` | src/domain/entities/Order.ts:77 | a line's `price.add(Money.of(quantity))`: for a non-negative quantity it succeeds exactly when the price is in USD, giving price + quantity in USD; otherwise it fails with the currency mismatch; a negative quantity fails in `Money.of` |
| `Orders.FoldTotal` | src/domain/entities/Order.ts:76-79 | the `reduce`: on success the result keeps the seed's currency and is at least the seed; with no lines it is the seed |
| `Orders.Total` | src/domain/entities/Order.ts:75-80 | the recomputed total is in USD whenever it succeeds, and is `Money.of(0)` for no lines |
| `Orders.FoldTotalIsLineSum` | src/domain/entities/Order.ts:76-79 | the fold from any USD seed adds Σ(price + quantity) to it when every line is in USD, and fails with a currency mismatch otherwise |
| `Orders.TotalIsLineSum` | src/domain/entities/Order.ts:75-80 | the recomputed total is Σ over the lines of (price amount + quantity) in USD, and computing it fails exactly when some line is priced in another currency |
| `Orders.Order.RecalculateTotal` | src/domain/entities/Order.ts:75-80 | sets the total to the fold of the lines, or fails leaving the total unchanged |
| `Orders.IndexOfProduct` | src/domain/entities/Order.ts:58-60 | finds the first line whose product has the given id (by id, not by object), or reports that there is none |
| `Orders.MergeLine` | src/domain/entities/Order.ts:58-69 | the lines grow by at most one, every existing line keeps its product and price, and afterwards some line has the product's id |
| `Orders.MergeIntoExistingLine` | src/domain/entities/Order.ts:58-62 | when a line has the product's id, that line's quantity grows, it keeps its first product reference and price, and the number of lines and every other line stay the same |
| `Orders.MergeAppendsNewLine` | src/domain/entities/Order.ts:63-69 | otherwise exactly one line is appended with the product and its current price, and the existing lines are unchanged |
| `Orders.MergeLinePreservesLines` | src/domain/entities/Order.ts:58-69 | merging a positive quantity keeps quantities positive and product ids distinct |
| `Orders.NewLineInOtherCurrencyFails` | src/domain/entities/Order.ts:61-71 | a new line priced in another currency than USD makes the recomputed total fail |
| `Orders.OtherCurrencyLineBlocksLaterTotals` | src/domain/entities/Order.ts:71-79 | once a line in another currency is in the order, every later recomputation fails |
| `Orders.Order.AddItem` | src/domain/entities/Order.ts:49-73 | a non-positive quantity or a quantity above the product's stock fails and changes nothing; otherwise the lines are merged by product id; with all lines in USD the total becomes Σ(price + quantity) and the passed product's stock drops by exactly the quantity; otherwise it fails with the lines changed, the total kept and the stock untouched; the status is neither checked nor changed |
| `Orders.Step` | src/domain/entities/Order.ts:82-114 | the transition table; every successful step moves strictly forward along PENDING, CONFIRMED, SHIPPED, DELIVERED, CANCELLED |
| `Orders.StepGuards` | src/domain/entities/Order.ts:82-114 | confirm, ship and deliver succeed exactly from PENDING, CONFIRMED and SHIPPED; cancel exactly from anything but DELIVERED and CANCELLED; a successful step always changes the status |
| `Orders.FinalStatuses` | src/domain/entities/Order.ts:82-114 | every transition from DELIVERED or CANCELLED fails |
| `Orders.Order.Confirm` | src/domain/entities/Order.ts:82-87 | moves PENDING to CONFIRMED, otherwise fails leaving the status; lines and total are untouched |
| `Orders.Order.Ship` | src/domain/entities/Order.ts:89-94 | moves CONFIRMED to SHIPPED, otherwise fails leaving the status; lines and total are untouched |
| `Orders.Order.Deliver` | src/domain/entities/Order.ts:96-101 | moves SHIPPED to DELIVERED, otherwise fails leaving the status; lines and total are untouched |
| `Orders.Order.Cancel` | src/domain/entities/Order.ts:103-114 | fails on DELIVERED or CANCELLED touching no stock; otherwise gives each line's quantity back to that line's product and sets CANCELLED, with no restoration able to fail; of the products only the stock can change |
| `Orders.ReplayToDelivered` | src/domain/entities/Order.ts:82-101 | from any status, ending DELIVERED means the successful calls were exactly the rest of the confirm, ship, deliver path |
| `Orders.DeliveredOnlyThroughFullPath` | src/domain/entities/Order.ts:82-101 | from PENDING, DELIVERED is reached only when the successful calls were confirm, ship, deliver in that order |
| `Orders.ReplayNeverGoesBack` | src/domain/entities/Order.ts:82-114 | no sequence of calls moves the status backwards along PENDING, CONFIRMED, SHIPPED, DELIVERED, CANCELLED |
| `OrderDiscounts.TotalQuantity` | src/domain/services/OrderDiscountService.ts:13-15 | the `reduce` over the quantities: with positive quantities it is at least the number of lines and at least any one line's quantity |
| `OrderDiscounts.DiscountPercentage` | src/domain/services/OrderDiscountService.ts:12-27 | the percentage is one of 0, 5, 7, 10, 12, 17 |
| `OrderDiscounts.PercentageRules` | src/domain/services/OrderDiscountService.ts:17-27 | tier 10 above 10 units, 5 for 6 to 10, 0 otherwise; 7 more points exactly when the total exceeds 1000 |
| `OrderDiscounts.PercentageMonotone` | src/domain/services/OrderDiscountService.ts:17-27 | more units or a larger total never lower the percentage |
| `OrderDiscounts.DiscountFor` | src/domain/services/OrderDiscountService.ts:29-33 | total − total·(100−p)/100 equals total·p/100, lies between 0 and the total, and is returned in USD without failing |
| `OrderDiscounts.CalculateDiscount` | src/domain/services/OrderDiscountService.ts:11-34 | the discount of an order never fails, is in USD and never exceeds the order's total; the order is only read |
| `OrderDiscounts.DiscountExamples` | src/domain/services/OrderDiscountService.ts:11-33 | 11 units for 1200 give 204; 3 units for 100 give 0 |
| `OrderDiscounts.IsEligibleForFreeShipping` | src/domain/services/OrderDiscountService.ts:40-42 | `isEligibleForFreeShipping`, a reads-only test of the order's total; its properties are the three lemmas below |
| `OrderDiscounts.FreeShippingBoundary` | src/domain/services/OrderDiscountService.ts:40-42 | free shipping is strict: an order totalling 500 does not qualify, one totalling 501 does |
| `OrderDiscounts.FreeShippingMonotone` | src/domain/services/OrderDiscountService.ts:40-42 | a total at least that of an eligible order is eligible; equal totals decide alike, whatever the lines or the status |
| `OrderDiscounts.FreeShippingAndBonus` | src/domain/services/OrderDiscountService.ts:24-42 | every order over 1000 qualifies for free shipping and gets at least 7 points; at or below 1000 the percentage is the quantity tier alone |
| `OrderDiscounts.MergeLineAddsQuantity` | src/domain/services/OrderDiscountService.ts:13-15 | adding `q` units, merged or as a new line, adds exactly `q` to the units the discount counts |
| `OrderScenarios.AddSameProductTwice` | src/domain/entities/Order.ts:58-72 | 3 then 2 units of one product give a single line of 5 and take 5 from the stock |
| `OrderScenarios.OverdrawLeavesOrderAlone` | src/domain/entities/Order.ts:54-56 | asking for more than the stock fails with lines and stock unchanged |
| `OrderScenarios.ForeignPriceFailsHalfway` | src/domain/entities/Order.ts:61-72 | a product priced in EUR leaves its line in the order, the total at zero and the stock untouched |
| `OrderScenarios.CancelConfirmedOrder` | src/domain/entities/Order.ts:103-114 | cancelling a confirmed order with lines of 2 and 3 gives 2 and 3 back to the two products |
| `OrderScenarios.FailedLineRestockedOnCancel` | src/domain/entities/Order.ts:61-111 | 2 units of a EUR-priced product with stock 3: `addItem` fails with a currency mismatch taking nothing, `cancel` then gives 2 back, leaving stock 5 and the price unchanged |
| `OrderScenarios.Lifecycle` | src/domain/entities/Order.ts:82-114 | ship before confirm fails; confirm, ship, deliver succeed; a delivered order cannot be cancelled |

## Left out

- The application services (`OrderService`, `OrderProcessingService`, `ValidationService`), the DTOs and the TypeORM persistence are not part of this model: they are asynchronous plumbing over ports, decorators and a foreign library.
- `EntityId.generate` (a random UUID) and `Order.createdAt` (the clock) are not modelled.
- Amounts are exact reals: JavaScript double-precision rounding, in `add` and in the discount arithmetic, is not modelled.
- Non-finite numbers are excluded. In the source `NaN` passes every guard: `Money.of(NaN)` succeeds (`NaN < 0` is false) and its `equals` is then not reflexive; `new Product(..., NaN)` is accepted; `addItem(p, NaN)` passes both the quantity and the stock guard, and `updateStock` then stores `NaN` as the stock. The model's `real` and `int` types have no `NaN` (nor infinities), so `EqualsReflexiveSymmetric`, the non-negative stock and the other properties hold of the source only for finite numbers.
- Quantities and stock are integers: the source's `number` would also accept fractional quantities.
- Stock, quantity and unit-count arithmetic is exact integer arithmetic here. In the source it is double-precision and rounds above 2^53: `stock + quantity` (src/domain/entities/Product.ts:37), `existingItem.quantity += quantity` (src/domain/entities/Order.ts:62) and the unit count of the discount (src/domain/services/OrderDiscountService.ts:15). The three lines below name the contracts that hold of the source only below that bound.
- `Products.StockRoundTrip` holds of the source only while the stock stays at most 2^53: with stock 2^53, `updateStock(1)` rounds back to 2^53 and a following `updateStock(-1)` leaves 2^53 − 1.
- `Orders.Order.AddItem` promises the stock drops by exactly the quantity, which the source keeps only below 2^53: `addItem(p, 1)` on stock 2^53 + 2 lowers it by 2.
- `Orders.Order.Cancel` promises each line's quantity is added back exactly, which the source keeps only while stocks and merged quantities stay below 2^53.
- The getters are plain field reads. `getItems` returns a shallow copy whose line objects the order later updates in place. Lines here are values, so that aliasing of line objects is not modelled.
- Strings are sequences of Unicode code points, not UTF-16 code units, so a lone surrogate half is not represented. The whitespace set is ECMAScript's full `\s` / `trim` set.
- A thrown error becomes a returned `Result` or `Outcome`, so a caller may catch it and go on. Only status transitions have a general lemma over call sequences (`Replay`). Going on after a failed `addItem` is covered by `OtherCurrencyLineBlocksLaterTotals` and by the scenario `FailedLineRestockedOnCancel`, not by a lemma over arbitrary call sequences.
