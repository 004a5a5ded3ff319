/** Product: a catalog item whose stock counter is shared by reference with
    the orders that hold it and updated in place (src/domain/entities/Product.ts).
    The stock is a `nat`: every state a Product can reach has a stock of zero
    or more, because every assignment to it is guarded. */
module Products {
  import opened DomainErrors
  import opened MoneyValues

  /** The check-then-set of `updateStock(delta)`: the new stock, unless it
      would be negative. */
  function StockAfter(stock: nat, delta: int): Result<nat> {
    if stock + delta < 0 then Err(NegativeStock) else Ok(stock + delta)
  }

  /** `updateStock(d)` fails exactly when `stock + d < 0`, and otherwise sets
      the stock to `stock + d`. */
  lemma StockAfterFailsIffNegative(stock: nat, delta: int)
    ensures StockAfter(stock, delta).Err? <==> stock + delta < 0
    ensures StockAfter(stock, delta).Err? ==> StockAfter(stock, delta).error == NegativeStock
    ensures StockAfter(stock, delta).Ok? ==> StockAfter(stock, delta).value == stock + delta
  {
  }

  /** Taking one more unit than there is fails. */
  lemma OverdrawFails(stock: nat)
    ensures StockAfter(stock, -(stock as int) - 1) == Err(NegativeStock)
  {
  }

  /** A successful `updateStock(d)` followed by `updateStock(-d)` restores the
      original stock. */
  lemma StockRoundTrip(stock: nat, delta: int)
    requires StockAfter(stock, delta).Ok?
    ensures StockAfter(StockAfter(stock, delta).value, -delta) == Ok(stock)
  {
  }

  class Product {
    const id: string
    var name: string
    var description: string
    var price: Money
    var stock: nat

    /** The private half of the source constructor: storing the fields once
        the stock has passed the check. */
    constructor (id: string, name: string, description: string, price: Money, stock: nat)
      ensures this.id == id && this.name == name && this.description == description
      ensures this.price == price && this.stock == stock
    {
      this.id := id;
      this.name := name;
      this.description := description;
      this.price := price;
      this.stock := stock;
    }

    /** `new Product(id, name, description, price, stock)`: fails when the
        initial stock is negative; otherwise stores every field as given. */
    static method Create(id: string, name: string, description: string, price: Money, stock: int)
      returns (r: Result<Product>)
      ensures r.Ok? <==> 0 <= stock
      ensures r.Err? ==> r.error == NegativeInitialStock
      ensures r.Ok? ==> fresh(r.value)
      ensures r.Ok? ==> r.value.id == id && r.value.name == name && r.value.description == description
      ensures r.Ok? ==> r.value.price == price && r.value.stock == stock
    {
      if stock < 0 {
        return Err(NegativeInitialStock);
      }
      var p := new Product(id, name, description, price, stock);
      return Ok(p);
    }

    /** `updateStock(delta)`: sets the stock to `stock + delta` when that is not
        negative, and otherwise fails leaving it unchanged. Id, name,
        description and price never change. */
    method UpdateStock(delta: int) returns (r: Outcome)
      modifies this`stock
      ensures r.Pass? <==> StockAfter(old(stock), delta).Ok?
      ensures r.Fail? ==> r.error == NegativeStock
      ensures stock == if r.Pass? then StockAfter(old(stock), delta).value else old(stock)
      ensures name == old(name) && description == old(description) && price == old(price)
    {
      var newStock := stock + delta;
      if newStock < 0 {
        return Fail(NegativeStock);
      }
      stock := newStock;
      return Pass;
    }
  }
}
