/** OrderDiscountService: fixed business thresholds read off an order
    (src/domain/services/OrderDiscountService.ts). Both operations are
    functions reading the order, so neither can change it. The arithmetic is
    exact; the source's double-precision rounding is not modelled. */
module OrderDiscounts {
  import opened DomainErrors
  import opened MoneyValues
  import opened Products
  import opened Orders

  /** Units in the order: `items.reduce((sum, item) => sum + item.quantity, 0)`.
      With positive quantities every line contributes at least one unit, and
      no single line holds more than the whole. */
  function TotalQuantity(items: seq<OrderItem>): (units: int)
    ensures PositiveQuantities(items) ==> units >= |items|
    ensures PositiveQuantities(items) ==> forall k :: 0 <= k < |items| ==> items[k].quantity <= units
  {
    if items == [] then 0 else items[0].quantity + TotalQuantity(items[1..])
  }

  /** Percentage for the number of units: more than 10 gives 10, more than 5
      gives 5. */
  function QuantityTier(totalItems: int): nat {
    if totalItems > 10 then 10 else if totalItems > 5 then 5 else 0
  }

  /** The quantity tier plus 7 points when the total amount exceeds 1000. */
  function DiscountPercentage(totalItems: int, totalAmount: real): (p: nat)
    ensures p in {0, 5, 7, 10, 12, 17}
  {
    QuantityTier(totalItems) + if totalAmount > 1000.0 then 7 else 0
  }

  /** The discount for a total and a number of units:
      `Money.of(total - total * (100 - p) / 100)`, which is `total * p / 100`,
      between zero and the total, in the default currency whatever the
      currency of the total. `Money.of` never fails here. */
  function DiscountFor(totalItems: int, total: Money): (r: Result<Money>)
    ensures r.Ok?
    ensures r.value.currency == DefaultCurrency
    ensures r.value.amount == total.amount * DiscountPercentage(totalItems, total.amount) as real / 100.0
    ensures r.value.amount <= total.amount
  {
    var p := DiscountPercentage(totalItems, total.amount);
    var multiplier := (100 - p) as real / 100.0;
    var finalAmount := total.amount * multiplier;
    Of(total.amount - finalAmount)
  }

  /** `calculateDiscount(order)` */
  function CalculateDiscount(order: Order): (r: Result<Money>)
    reads order
    ensures r.Ok? && r.value.currency == DefaultCurrency
    ensures r.value.amount <= order.totalAmount.amount
  {
    DiscountFor(TotalQuantity(order.items), order.totalAmount)
  }

  /** `isEligibleForFreeShipping(order)`: the total amount is strictly over
      500, whatever its currency. */
  predicate IsEligibleForFreeShipping(order: Order)
    reads order
  {
    order.totalAmount.amount > 500.0
  }

  /** The tier is 10 above 10 units, 5 for 6 to 10 units, 0 otherwise; the 7
      further points apply exactly when the total is over 1000. */
  lemma PercentageRules(totalItems: int, totalAmount: real)
    ensures QuantityTier(totalItems) == 10 <==> totalItems > 10
    ensures QuantityTier(totalItems) == 5 <==> 6 <= totalItems <= 10
    ensures QuantityTier(totalItems) == 0 <==> totalItems <= 5
    ensures DiscountPercentage(totalItems, totalAmount) - QuantityTier(totalItems) ==
              if totalAmount > 1000.0 then 7 else 0
  {
  }

  /** More units or a larger total never lower the percentage. */
  lemma PercentageMonotone(q1: int, q2: int, t1: real, t2: real)
    requires q1 <= q2 && t1 <= t2
    ensures DiscountPercentage(q1, t1) <= DiscountPercentage(q2, t2)
  {
  }

  /** 11 units for 1200: 17 percent, a discount of 204. 3 units for 100: none. */
  lemma DiscountExamples()
    ensures DiscountFor(11, Money(1200.0, DefaultCurrency)) == Ok(Money(204.0, DefaultCurrency))
    ensures DiscountFor(3, Money(100.0, DefaultCurrency)) == Ok(Money(0.0, DefaultCurrency))
  {
  }

  /** Free shipping is strict: an order totalling 500 does not qualify, one
      totalling 501 does. */
  lemma FreeShippingBoundary(order: Order)
    ensures order.totalAmount.amount == 500.0 ==> !IsEligibleForFreeShipping(order)
    ensures order.totalAmount.amount == 501.0 ==> IsEligibleForFreeShipping(order)
  {
  }

  /** An order whose total is at least that of an eligible order is eligible
      too, and only the total decides: the lines and the status play no part. */
  lemma FreeShippingMonotone(a: Order, b: Order)
    requires a.totalAmount.amount <= b.totalAmount.amount
    ensures IsEligibleForFreeShipping(a) ==> IsEligibleForFreeShipping(b)
    ensures a.totalAmount == b.totalAmount ==> IsEligibleForFreeShipping(a) == IsEligibleForFreeShipping(b)
  {
  }

  /** An order that qualifies for free shipping also gets at least the 7
      points of the large-order bonus once its total passes 1000, but
      qualifying alone (a total between 500 and 1000) gives no bonus. */
  lemma FreeShippingAndBonus(order: Order)
    ensures order.totalAmount.amount > 1000.0 ==>
              IsEligibleForFreeShipping(order)
              && DiscountPercentage(TotalQuantity(order.items), order.totalAmount.amount) >= 7
    ensures order.totalAmount.amount <= 1000.0 ==>
              DiscountPercentage(TotalQuantity(order.items), order.totalAmount.amount) == QuantityTier(TotalQuantity(order.items))
  {
  }

  lemma {:induction false} TotalQuantityAppend(items: seq<OrderItem>, item: OrderItem)
    ensures TotalQuantity(items + [item]) == TotalQuantity(items) + item.quantity
    decreases |items|
  {
    if items != [] {
      assert (items + [item])[1..] == items[1..] + [item];
      TotalQuantityAppend(items[1..], item);
    }
  }

  lemma {:induction false} TotalQuantityUpdate(items: seq<OrderItem>, k: nat, item: OrderItem)
    requires k < |items|
    ensures TotalQuantity(items[k := item]) == TotalQuantity(items) - items[k].quantity + item.quantity
    decreases |items|
  {
    if k > 0 {
      assert items[k := item][1..] == items[1..][k - 1 := item];
      TotalQuantityUpdate(items[1..], k - 1, item);
    }
  }

  /** Adding `quantity` units of a product adds exactly `quantity` to the
      number of units the discount counts, whether the line is merged or new. */
  lemma MergeLineAddsQuantity(items: seq<OrderItem>, product: Product, price: Money, quantity: int)
    ensures TotalQuantity(MergeLine(items, product, price, quantity)) == TotalQuantity(items) + quantity
  {
    var k := IndexOfProduct(items, product.id);
    if k < |items| {
      TotalQuantityUpdate(items, k, items[k].(quantity := items[k].quantity + quantity));
    } else {
      TotalQuantityAppend(items, OrderItem(product, quantity, price));
    }
  }
}
