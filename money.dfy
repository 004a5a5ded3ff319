/** Money: an immutable, non-negative amount in one currency
    (src/domain/value-objects/Money.ts). The amount is an exact real; the
    source's double-precision arithmetic is not modelled. */
module MoneyValues {
  import opened DomainErrors

  /** The currency `Money.of` uses when none is given. */
  const DefaultCurrency: string := "USD"

  /** The private constructor rejects negative amounts, so no Money value
      ever holds one. */
  type Amount = x: real | 0.0 <= x

  datatype Money = Money(amount: Amount, currency: string)

  /** `Money.of(amount, currency = "USD")` */
  function Of(amount: real, currency: string := DefaultCurrency): Result<Money> {
    if amount < 0.0 then Err(NegativeAmount) else Ok(Money(amount, currency))
  }

  /** `a.add(b)`: the sum, in the currency of `a`, of two amounts in the same
      currency. The only failure is a currency mismatch: the sum of two valid
      amounts never trips the negative-amount check inside `Money.of`. */
  function Add(a: Money, b: Money): (r: Result<Money>)
    ensures r.Ok? <==> a.currency == b.currency
    ensures r.Ok? ==> r.value == Money(a.amount + b.amount, a.currency)
    ensures r.Err? ==> r.error == CurrencyMismatch
  {
    if a.currency != b.currency then Err(CurrencyMismatch)
    else Of(a.amount + b.amount, a.currency)
  }

  /** `a.equals(b)`: field-wise comparison, which is value equality of Money. */
  function Equals(a: Money, b: Money): (eq: bool)
    ensures eq <==> a == b
  {
    a.amount == b.amount && a.currency == b.currency
  }

  /** `Money.of` fails exactly on a negative amount; otherwise the getters give
      back the amount and currency it was built from. */
  lemma OfFailsIffNegative(amount: real, currency: string)
    ensures Of(amount, currency).Err? <==> amount < 0.0
    ensures Of(amount, currency).Err? ==> Of(amount, currency).error == NegativeAmount
    ensures Of(amount, currency).Ok? ==>
              Of(amount, currency).value.amount == amount && Of(amount, currency).value.currency == currency
  {
  }

  lemma OfDefaultsToUsd(amount: real)
    ensures Of(amount) == Of(amount, "USD")
  {
  }

  /** `Money.of(a).add(Money.of(b))` equals `Money.of(a + b)`. */
  lemma AddOfOf(a: real, b: real, currency: string)
    requires 0.0 <= a && 0.0 <= b
    ensures Add(Of(a, currency).value, Of(b, currency).value) == Of(a + b, currency)
  {
  }

  lemma AddCurrencyMismatch(a: Money, b: Money)
    requires a.currency != b.currency
    ensures Add(a, b) == Err(CurrencyMismatch)
  {
  }

  lemma AddCommutative(a: Money, b: Money)
    requires a.currency == b.currency
    ensures Add(a, b) == Add(b, a)
  {
  }

  lemma AddAssociative(a: Money, b: Money, c: Money)
    requires a.currency == b.currency == c.currency
    ensures Add(Add(a, b).value, c) == Add(a, Add(b, c).value)
  {
  }

  /** `Money.of(0, c)` is the identity of addition in currency `c`. */
  lemma AddZeroIdentity(a: Money)
    ensures Add(a, Of(0.0, a.currency).value) == Ok(a)
    ensures Add(Of(0.0, a.currency).value, a) == Ok(a)
  {
  }

  lemma EqualsReflexiveSymmetric(a: Money, b: Money)
    ensures Equals(a, a)
    ensures Equals(a, b) == Equals(b, a)
  {
  }
}
