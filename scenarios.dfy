/** Concrete runs of the order aggregate against its contracts: what a
    caller can conclude from the specifications of Customer, Product and
    Order alone. */
module OrderScenarios {
  import opened DomainErrors
  import opened MoneyValues
  import opened Products
  import opened Customers
  import opened Orders

  method NewCustomer() returns (c: Customer)
  {
    DottedDomainAccepted();
    c := new Customer("c-1", "Ana", "ana@mail.shop.com", "");
  }

  /** Adding 3 units and then 2 more of the same product gives one line of 5,
      priced at the product's price, and takes 5 units from the stock. */
  method AddSameProductTwice() returns (lines: seq<OrderItem>, total: Money, stock: nat)
    ensures |lines| == 1 && lines[0].quantity == 5 && lines[0].price == Money(2.0, DefaultCurrency)
    ensures total == Money(7.0, DefaultCurrency)
    ensures stock == 5
  {
    var customer := NewCustomer();
    var order := new Order("o-1", customer);
    var pen := new Product("p-1", "Pen", "blue", Money(2.0, DefaultCurrency), 10);
    var first := order.AddItem(pen, 3);
    var second := order.AddItem(pen, 2);
    lines, total, stock := order.items, order.totalAmount, pen.stock;
  }

  /** Asking for more than the stock fails and changes neither the lines nor
      the stock. */
  method OverdrawLeavesOrderAlone() returns (r: Outcome, lines: seq<OrderItem>, stock: nat)
    ensures r == Fail(InsufficientStock) && lines == [] && stock == 4
  {
    var customer := NewCustomer();
    var order := new Order("o-2", customer);
    var pen := new Product("p-1", "Pen", "blue", Money(2.0, DefaultCurrency), 4);
    r := order.AddItem(pen, 5);
    lines, stock := order.items, pen.stock;
  }

  /** A product priced in another currency makes `addItem` fail while
      recomputing the total: the line is already in the order, the total is
      still zero, and no stock was taken. */
  method ForeignPriceFailsHalfway() returns (r: Outcome, lines: seq<OrderItem>, total: Money, stock: nat)
    ensures r == Fail(CurrencyMismatch)
    ensures |lines| == 1 && lines[0].quantity == 1
    ensures total == Zero && stock == 3
  {
    var customer := NewCustomer();
    var order := new Order("o-3", customer);
    var book := new Product("p-2", "Book", "", Money(10.0, "EUR"), 3);
    r := order.AddItem(book, 1);
    lines, total, stock := order.items, order.totalAmount, book.stock;
  }

  /** Cancelling a confirmed order with lines of 2 and 3 units gives 2 and 3
      units back to the two products. */
  method CancelConfirmedOrder() returns (r: Outcome, status: OrderStatus, stockA: nat, stockB: nat)
    ensures r == Pass && status == Cancelled
    ensures stockA == 10 && stockB == 7
  {
    var customer := NewCustomer();
    var order := new Order("o-4", customer);
    var a := new Product("p-a", "A", "", Money(1.0, DefaultCurrency), 10);
    var b := new Product("p-b", "B", "", Money(1.0, DefaultCurrency), 7);
    var added := order.AddItem(a, 2);
    added := order.AddItem(b, 3);
    assert a.stock == 8 && b.stock == 4;
    var confirmed := order.Confirm();
    r := order.Cancel();
    assert order.items[0].product == a && order.items[1].product == b;
    status, stockA, stockB := order.status, a.stock, b.stock;
  }

  /** A failed `addItem` still leaves its line in the order, and `cancel`
      gives back every line's quantity: after adding 2 units of a product
      priced in EUR (which fails and takes nothing) and cancelling, the
      product holds 2 units more than it started with. Its price is kept. */
  method FailedLineRestockedOnCancel() returns (added: Outcome, cancelled: Outcome, stock: nat, price: Money)
    ensures added == Fail(CurrencyMismatch) && cancelled == Pass
    ensures stock == 5 && price == Money(10.0, "EUR")
  {
    var customer := NewCustomer();
    var order := new Order("o-6", customer);
    var book := new Product("p-2", "Book", "", Money(10.0, "EUR"), 3);
    added := order.AddItem(book, 2);
    assert book.stock == 3 && order.items[0].product == book;
    cancelled := order.Cancel();
    stock, price := book.stock, book.price;
  }

  /** Shipping before confirming fails; confirm, ship, deliver succeed in
      that order; a delivered order cannot be cancelled. */
  method Lifecycle() returns (early: Outcome, status: OrderStatus, late: Outcome)
    ensures early == Fail(NotConfirmed)
    ensures status == Delivered && late == Fail(NotCancellable)
  {
    var customer := NewCustomer();
    var order := new Order("o-5", customer);
    early := order.Ship();
    var step := order.Confirm();
    step := order.Ship();
    step := order.Deliver();
    late := order.Cancel();
    status := order.status;
  }
}
