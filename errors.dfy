/** The failures the domain layer raises, one constructor per distinct error
    message thrown by the source, and the two failure-compatible wrappers the
    model uses in place of exceptions. */
module DomainErrors {

  datatype Error =
    | NegativeAmount        // Money: "Amount cannot be negative"
    | CurrencyMismatch      // Money.add: "Cannot add different currencies"
    | EmptyId               // EntityId: "ID cannot be empty"
    | InvalidEmail          // Customer: "Invalid email format"
    | EmptyAddress          // Customer.updateAddress: "Address cannot be empty"
    | NegativeInitialStock  // Product constructor: "Stock cannot be negative"
    | NegativeStock         // Product.updateStock: "Cannot have negative stock"
    | InvalidQuantity       // Order.addItem: "Quantity must be positive"
    | InsufficientStock     // Order.addItem: "Insufficient stock"
    | NotPending            // Order.confirm
    | NotConfirmed          // Order.ship
    | NotShipped            // Order.deliver
    | NotCancellable        // Order.cancel

  /** The value an operation returns, or the error it throws. */
  datatype Result<+T> = Ok(value: T) | Err(error: Error) {
    predicate IsFailure() { Err? }

    function PropagateFailure<U>(): Result<U>
      requires Err?
    {
      Err(error)
    }

    function Extract(): T
      requires Ok?
    {
      value
    }
  }

  /** Completion of an operation that returns nothing (`void`), or the error it throws. */
  datatype Outcome = Pass | Fail(error: Error) {
    predicate IsFailure() { Fail? }

    function PropagateFailure(): Outcome
      requires Fail?
    {
      this
    }
  }
}
