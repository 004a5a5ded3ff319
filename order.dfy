/** Order: the aggregate root (src/domain/entities/Order.ts). It holds item
    lines that reference shared Product objects, a total derived from the
    lines, and a status that follows a small state machine. Adding an item
    takes stock from the product; cancelling gives it back. */
module Orders {
  import opened DomainErrors
  import opened MoneyValues
  import opened Products
  import opened Customers

  datatype OrderStatus = Pending | Confirmed | Shipped | Delivered | Cancelled

  /** One line: a reference to the product, how many, and the product's price
      when the line was created. */
  datatype OrderItem = OrderItem(product: Product, quantity: int, price: Money)

  predicate PositiveQuantities(items: seq<OrderItem>) {
    forall k :: 0 <= k < |items| ==> items[k].quantity > 0
  }

  /** No two lines are for products with the same id. */
  predicate DistinctProducts(items: seq<OrderItem>) {
    forall i, j :: 0 <= i < j < |items| ==> items[i].product.id != items[j].product.id
  }

  predicate AllPricedInDefaultCurrency(items: seq<OrderItem>) {
    forall k :: 0 <= k < |items| ==> items[k].price.currency == DefaultCurrency
  }

  // ----- recalculateTotal -----------------------------------------------------

  /** `Money.of(0)`, the initial total and the seed of the fold. */
  const Zero: Money := Money(0.0, DefaultCurrency)

  /** A line's contribution, `item.price.add(Money.of(item.quantity))`: the
      quantity is turned into money in the default currency. */
  function LineAmount(item: OrderItem): (r: Result<Money>)
    ensures item.quantity >= 0 ==> (r.Ok? <==> item.price.currency == DefaultCurrency)
    ensures item.quantity < 0 ==> r == Err(NegativeAmount)
    ensures r.Ok? ==> r.value == Money(item.price.amount + item.quantity as real, DefaultCurrency)
    ensures r.Err? && item.quantity >= 0 ==> r.error == CurrencyMismatch
  {
    var quantity :- Of(item.quantity as real);
    Add(item.price, quantity)
  }

  /** `items.reduce((total, item) => total.add(LineAmount(item)), acc)`: a left
      fold that stops at the first error. */
  function FoldTotal(acc: Money, items: seq<OrderItem>): (r: Result<Money>)
    ensures r.Ok? ==> r.value.currency == acc.currency && acc.amount <= r.value.amount
    ensures items == [] ==> r == Ok(acc)
    decreases |items|
  {
    if items == [] then Ok(acc)
    else
      var line :- LineAmount(items[0]);
      var next :- Add(acc, line);
      FoldTotal(next, items[1..])
  }

  /** The total `recalculateTotal` computes for the given lines. */
  function Total(items: seq<OrderItem>): (r: Result<Money>)
    ensures r.Ok? ==> r.value.currency == DefaultCurrency
    ensures items == [] ==> Of(0.0) == r
  {
    FoldTotal(Zero, items)
  }

  /** The pricing formula as the source writes it: the sum over the lines of
      unit price plus quantity (not price times quantity). */
  function LineSum(items: seq<OrderItem>): real {
    if items == [] then 0.0
    else items[0].price.amount + items[0].quantity as real + LineSum(items[1..])
  }

  lemma {:induction false} FoldTotalIsLineSum(acc: Money, items: seq<OrderItem>)
    requires acc.currency == DefaultCurrency && PositiveQuantities(items)
    ensures FoldTotal(acc, items).Ok? <==> AllPricedInDefaultCurrency(items)
    ensures FoldTotal(acc, items).Err? ==> FoldTotal(acc, items).error == CurrencyMismatch
    ensures FoldTotal(acc, items).Ok? ==>
              && FoldTotal(acc, items).value.amount == acc.amount + LineSum(items)
              && FoldTotal(acc, items).value.currency == DefaultCurrency
    decreases |items|
  {
    if items != [] {
      var item := items[0];
      if item.price.currency == DefaultCurrency {
        var next := Money(acc.amount + item.price.amount + item.quantity as real, DefaultCurrency);
        assert LineAmount(item) == Ok(Money(item.price.amount + item.quantity as real, DefaultCurrency));
        assert FoldTotal(acc, items) == FoldTotal(next, items[1..]);
        FoldTotalIsLineSum(next, items[1..]);
      } else {
        assert LineAmount(item) == Err(CurrencyMismatch);
      }
    }
  }

  /** With positive quantities, the total is the sum over the lines of price
      plus quantity, in the default currency, when every line is priced in the
      default currency; otherwise computing it fails on a currency mismatch. */
  lemma TotalIsLineSum(items: seq<OrderItem>)
    requires PositiveQuantities(items)
    ensures Total(items).Ok? <==> AllPricedInDefaultCurrency(items)
    ensures Total(items).Err? ==> Total(items).error == CurrencyMismatch
    ensures Total(items).Ok? ==>
              Total(items).value.amount == LineSum(items) && Total(items).value.currency == DefaultCurrency
  {
    FoldTotalIsLineSum(Zero, items);
  }

  // ----- finding and merging lines ------------------------------------------

  /** `items.find(item => item.product.getId() === id)`, as the index of the
      first such line, or `|items|` when there is none. */
  function IndexOfProduct(items: seq<OrderItem>, id: string): (k: nat)
    ensures k <= |items|
    ensures k < |items| ==> items[k].product.id == id
    ensures forall j :: 0 <= j < k ==> items[j].product.id != id
  {
    if items == [] || items[0].product.id == id then 0
    else 1 + IndexOfProduct(items[1..], id)
  }

  /** The change `addItem` makes to the lines: the first line whose product has
      the same id gets its quantity increased in place (and keeps its own
      product reference and price); otherwise a new line snapshotting `price`
      is appended. */
  function MergeLine(items: seq<OrderItem>, product: Product, price: Money, quantity: int): (merged: seq<OrderItem>)
    ensures |items| <= |merged| <= |items| + 1
    ensures forall k :: 0 <= k < |items| ==> merged[k].product == items[k].product && merged[k].price == items[k].price
    ensures exists k :: 0 <= k < |merged| && merged[k].product.id == product.id
  {
    var k := IndexOfProduct(items, product.id);
    if k < |items| then
      var merged := items[k := items[k].(quantity := items[k].quantity + quantity)];
      assert merged[k].product.id == product.id;
      merged
    else
      var merged := items + [OrderItem(product, quantity, price)];
      assert merged[|items|].product == product;
      merged
  }

  /** Adding a product whose id already has a line grows that line and leaves
      the number of lines and every other line unchanged. The line keeps the
      product reference it was created with, even when `product` is another
      object with the same id. */
  lemma MergeIntoExistingLine(items: seq<OrderItem>, product: Product, price: Money, quantity: int, k: nat)
    requires DistinctProducts(items)
    requires k < |items| && items[k].product.id == product.id
    ensures |MergeLine(items, product, price, quantity)| == |items|
    ensures MergeLine(items, product, price, quantity)[k] ==
              OrderItem(items[k].product, items[k].quantity + quantity, items[k].price)
    ensures forall j :: 0 <= j < |items| && j != k ==> MergeLine(items, product, price, quantity)[j] == items[j]
  {
    assert IndexOfProduct(items, product.id) == k;
  }

  /** Adding a product whose id has no line appends exactly one line with the
      given price and leaves the existing lines unchanged. */
  lemma MergeAppendsNewLine(items: seq<OrderItem>, product: Product, price: Money, quantity: int)
    requires forall j :: 0 <= j < |items| ==> items[j].product.id != product.id
    ensures MergeLine(items, product, price, quantity) == items + [OrderItem(product, quantity, price)]
  {
  }

  /** Merging a positive quantity keeps the lines positive and keyed by
      distinct product ids. */
  lemma MergeLinePreservesLines(items: seq<OrderItem>, product: Product, price: Money, quantity: int)
    requires PositiveQuantities(items) && DistinctProducts(items) && quantity > 0
    ensures PositiveQuantities(MergeLine(items, product, price, quantity))
    ensures DistinctProducts(MergeLine(items, product, price, quantity))
  {
  }

  /** A new line for a product priced in another currency than the default
      makes the total fail. (A product whose id already has a line is merged
      into it and priced at that line's price instead.) */
  lemma NewLineInOtherCurrencyFails(items: seq<OrderItem>, product: Product, price: Money, quantity: int)
    requires PositiveQuantities(items) && quantity > 0
    requires forall j :: 0 <= j < |items| ==> items[j].product.id != product.id
    requires price.currency != DefaultCurrency
    ensures Total(MergeLine(items, product, price, quantity)).Err?
  {
    var merged := MergeLine(items, product, price, quantity);
    MergeAppendsNewLine(items, product, price, quantity);
    assert merged[|items|].price.currency != DefaultCurrency;
    TotalIsLineSum(merged);
  }

  /** Once a line priced in another currency is in the order, the total of
      every later merge fails too: lines never lose their price. */
  lemma OtherCurrencyLineBlocksLaterTotals(items: seq<OrderItem>, product: Product, price: Money, quantity: int)
    requires PositiveQuantities(items) && DistinctProducts(items) && quantity > 0
    requires !AllPricedInDefaultCurrency(items)
    ensures Total(MergeLine(items, product, price, quantity)).Err?
  {
    var merged := MergeLine(items, product, price, quantity);
    var bad :| 0 <= bad < |items| && items[bad].price.currency != DefaultCurrency;
    assert merged[bad].price == items[bad].price;
    MergeLinePreservesLines(items, product, price, quantity);
    TotalIsLineSum(merged);
  }

  // ----- the status state machine ---------------------------------------------

  datatype Transition = Confirm | Ship | Deliver | Cancel

  /** The transition table of `confirm`, `ship`, `deliver` and `cancel`. */
  function Step(s: OrderStatus, t: Transition): (r: Result<OrderStatus>)
    ensures r.Ok? ==> Rank(s) < Rank(r.value)
  {
    match t
    case Confirm => if s == Pending then Ok(Confirmed) else Err(NotPending)
    case Ship => if s == Confirmed then Ok(Shipped) else Err(NotConfirmed)
    case Deliver => if s == Shipped then Ok(Delivered) else Err(NotShipped)
    case Cancel => if s == Delivered || s == Cancelled then Err(NotCancellable) else Ok(Cancelled)
  }

  /** A call of transition `t` from status `before` returned `r` and left the
      status `after`: as the table says, and a failed call leaves the status
      unchanged. */
  predicate StepTaken(before: OrderStatus, t: Transition, r: Outcome, after: OrderStatus) {
    match Step(before, t)
    case Ok(next) => r == Pass && after == next
    case Err(e) => r == Fail(e) && after == before
  }

  /** confirm, ship and deliver succeed only from PENDING, CONFIRMED and SHIPPED
      respectively; cancel succeeds from anything but DELIVERED and CANCELLED. */
  lemma StepGuards(s: OrderStatus)
    ensures Step(s, Confirm).Ok? <==> s == Pending
    ensures Step(s, Ship).Ok? <==> s == Confirmed
    ensures Step(s, Deliver).Ok? <==> s == Shipped
    ensures Step(s, Cancel).Ok? <==> s != Delivered && s != Cancelled
    ensures forall t :: Step(s, t).Ok? ==> Step(s, t).value != s
  {
  }

  /** DELIVERED and CANCELLED are final: every transition from them fails. */
  lemma FinalStatuses(t: Transition)
    ensures Step(Delivered, t).Err? && Step(Cancelled, t).Err?
  {
  }

  /** The status after a sequence of calls, each failed call leaving it unchanged. */
  function Replay(s: OrderStatus, ts: seq<Transition>): OrderStatus
    decreases |ts|
  {
    if ts == [] then s
    else
      match Step(s, ts[0])
      case Ok(next) => Replay(next, ts[1..])
      case Err(_) => Replay(s, ts[1..])
  }

  /** The calls of a sequence that succeeded, in order. */
  function Succeeded(s: OrderStatus, ts: seq<Transition>): seq<Transition>
    decreases |ts|
  {
    if ts == [] then []
    else
      match Step(s, ts[0])
      case Ok(next) => [ts[0]] + Succeeded(next, ts[1..])
      case Err(_) => Succeeded(s, ts[1..])
  }

  /** The successful calls that lead from `s` to DELIVERED. */
  function PathToDelivered(s: OrderStatus): seq<Transition> {
    match s
    case Pending => [Confirm, Ship, Deliver]
    case Confirmed => [Ship, Deliver]
    case Shipped => [Deliver]
    case Delivered => []
    case Cancelled => []
  }

  lemma {:induction false} ReplayToDelivered(s: OrderStatus, ts: seq<Transition>)
    requires Replay(s, ts) == Delivered
    ensures s != Cancelled
    ensures Succeeded(s, ts) == PathToDelivered(s)
    decreases |ts|
  {
    if ts == [] {
    } else {
      match Step(s, ts[0])
      case Ok(next) =>
        ReplayToDelivered(next, ts[1..]);
      case Err(_) =>
        ReplayToDelivered(s, ts[1..]);
    }
  }

  /** Starting from PENDING, whatever calls are made (failed ones included),
      the order ends DELIVERED only if the calls that took effect were
      exactly confirm, ship, deliver. */
  lemma DeliveredOnlyThroughFullPath(ts: seq<Transition>)
    requires Replay(Pending, ts) == Delivered
    ensures Succeeded(Pending, ts) == [Confirm, Ship, Deliver]
  {
    ReplayToDelivered(Pending, ts);
  }

  /** The position of a status along PENDING, CONFIRMED, SHIPPED, DELIVERED,
      with CANCELLED last. */
  function Rank(s: OrderStatus): nat {
    match s
    case Pending => 0
    case Confirmed => 1
    case Shipped => 2
    case Delivered => 3
    case Cancelled => 4
  }

  /** The status never moves backwards, however many calls are made. */
  lemma {:induction false} ReplayNeverGoesBack(s: OrderStatus, ts: seq<Transition>)
    ensures Rank(s) <= Rank(Replay(s, ts))
    decreases |ts|
  {
    if ts != [] {
      match Step(s, ts[0])
      case Ok(next) =>
        ReplayNeverGoesBack(next, ts[1..]);
      case Err(_) =>
        ReplayNeverGoesBack(s, ts[1..]);
    }
  }

  // ----- the aggregate --------------------------------------------------------

  /** The products the lines of `items` refer to. */
  ghost function LineProducts(items: seq<OrderItem>): set<Product> {
    set k | 0 <= k < |items| :: items[k].product
  }

  class Order {
    const id: string
    const customer: Customer
    var items: seq<OrderItem>
    var totalAmount: Money
    var status: OrderStatus

    /** Lines have positive quantities and distinct product ids; the total is
        in the default currency and is the fold of the lines whenever that
        fold succeeds (when it fails, the total keeps its last value). */
    ghost predicate Valid()
      reads this
    {
      && PositiveQuantities(items)
      && DistinctProducts(items)
      && totalAmount.currency == DefaultCurrency
      && (Total(items).Ok? ==> totalAmount == Total(items).value)
    }

    /** `new Order(id, customer)`: PENDING, no lines, total `Money.of(0)`. */
    constructor (id: string, customer: Customer)
      ensures Valid()
      ensures this.id == id && this.customer == customer
      ensures items == [] && status == Pending && Of(0.0) == Ok(totalAmount)
    {
      this.id := id;
      this.customer := customer;
      items := [];
      totalAmount := Zero;
      status := Pending;
    }

    /** `recalculateTotal()`: sets the total to the fold of the lines, or
        fails leaving it unchanged. */
    method RecalculateTotal() returns (r: Outcome)
      modifies this`totalAmount
      ensures r.Pass? <==> Total(items).Ok?
      ensures r.Pass? ==> totalAmount == Total(items).value
      ensures r.Fail? ==> r.error == Total(items).error && totalAmount == old(totalAmount)
    {
      var total := Total(items);
      if total.Err? {
        return Fail(total.error);
      }
      totalAmount := total.value;
      return Pass;
    }

    /** `addItem(product, quantity)`. The guards on the quantity and on the
        product's stock fail without changing anything. Otherwise the lines
        are merged, then the total is recomputed: if that fails (a line priced
        in another currency than the default) the call fails with the lines
        already changed but the stock untouched; else the stock of `product`,
        the object passed in, drops by exactly `quantity`. The status is
        neither checked nor changed. */
    method AddItem(product: Product, quantity: int) returns (r: Outcome)
      requires Valid()
      modifies this`items, this`totalAmount, product`stock
      ensures Valid()
      ensures status == old(status)
      ensures quantity <= 0 ==>
                && r == Fail(InvalidQuantity)
                && items == old(items) && totalAmount == old(totalAmount) && product.stock == old(product.stock)
      ensures 0 < quantity && old(product.stock) < quantity ==>
                && r == Fail(InsufficientStock)
                && items == old(items) && totalAmount == old(totalAmount) && product.stock == old(product.stock)
      ensures 0 < quantity <= old(product.stock) ==>
                items == MergeLine(old(items), product, product.price, quantity)
      ensures 0 < quantity <= old(product.stock) && AllPricedInDefaultCurrency(items) ==>
                && r == Pass
                && totalAmount.amount == LineSum(items) && totalAmount.currency == DefaultCurrency
                && product.stock == old(product.stock) - quantity
      ensures 0 < quantity <= old(product.stock) && !AllPricedInDefaultCurrency(items) ==>
                && r == Fail(CurrencyMismatch)
                && totalAmount == old(totalAmount) && product.stock == old(product.stock)
    {
      if quantity <= 0 {
        return Fail(InvalidQuantity);
      }
      if product.stock < quantity {
        return Fail(InsufficientStock);
      }
      MergeLinePreservesLines(items, product, product.price, quantity);
      items := MergeLine(items, product, product.price, quantity);
      TotalIsLineSum(items);
      r := RecalculateTotal();
      if r.Fail? {
        return;
      }
      var restocked := product.UpdateStock(-quantity);
      assert restocked.Pass?;
    }

    /** `confirm()`: PENDING to CONFIRMED, otherwise fails. */
    method Confirm() returns (r: Outcome)
      requires Valid()
      modifies this`status
      ensures Valid()
      ensures StepTaken(old(status), Transition.Confirm, r, status)
    {
      if status != Pending {
        return Fail(NotPending);
      }
      status := Confirmed;
      return Pass;
    }

    /** `ship()`: CONFIRMED to SHIPPED, otherwise fails. */
    method Ship() returns (r: Outcome)
      requires Valid()
      modifies this`status
      ensures Valid()
      ensures StepTaken(old(status), Transition.Ship, r, status)
    {
      if status != Confirmed {
        return Fail(NotConfirmed);
      }
      status := Shipped;
      return Pass;
    }

    /** `deliver()`: SHIPPED to DELIVERED, otherwise fails. */
    method Deliver() returns (r: Outcome)
      requires Valid()
      modifies this`status
      ensures Valid()
      ensures StepTaken(old(status), Transition.Deliver, r, status)
    {
      if status != Shipped {
        return Fail(NotShipped);
      }
      status := Delivered;
      return Pass;
    }

    /** `cancel()`: fails on DELIVERED or CANCELLED without touching any stock.
        Otherwise gives each line's quantity back to that line's product and
        sets CANCELLED. Line quantities are positive and stocks are never
        negative, so no restoration can fail part-way through the loop. */
    method Cancel() returns (r: Outcome)
      requires Valid()
      modifies this`status, LineProducts(items)`stock
      ensures Valid()
      ensures StepTaken(old(status), Transition.Cancel, r, status)
      ensures items == old(items) && totalAmount == old(totalAmount)
      ensures r.Fail? ==> forall k :: 0 <= k < |items| ==> items[k].product.stock == old(items[k].product.stock)
      ensures r.Pass? ==>
                forall k :: 0 <= k < |items| ==>
                  items[k].product.stock == old(items[k].product.stock) + items[k].quantity
    {
      if status == Delivered || status == Cancelled {
        return Fail(NotCancellable);
      }
      var k := 0;
      while k < |items|
        invariant 0 <= k <= |items|
        invariant forall j :: 0 <= j < k ==> items[j].product.stock == old(items[j].product.stock) + items[j].quantity
        invariant forall j :: k <= j < |items| ==> items[j].product.stock == old(items[j].product.stock)
      {
        var restored := items[k].product.UpdateStock(items[k].quantity);
        assert restored.Pass?;
        k := k + 1;
      }
      status := Cancelled;
      return Pass;
    }
  }
}
