/** The keyed encoding of `CurrencyAndAmount`, the amount in the body of a transfer into a savings goal. */
module TransferInput {
  import opened Wrappers
  import Models
  import opened AccountFeedOutput

  /**
   * `CurrencyAndAmount.encode(to:)`: a fresh keyed container receives the
   * currency under "currency" and then the minor units under "minorUnits".
   * Exactly those two keys are written, with the values unchanged, and
   * decoding the container gives the amount back.
   */
  method Encode(amount: Models.CurrencyAndAmount) returns (container: KeyedContainer)
    ensures container.Keys == {CurrencyKey, MinorUnitsKey}
    ensures container[CurrencyKey] == JsonString(amount.currency)
    ensures container[MinorUnitsKey] == JsonNumber(amount.minorUnits as int)
    ensures DecodeCurrencyAndAmount(container) == Success(amount)
  {
    container := map[];
    container := container[CurrencyKey := JsonString(amount.currency)];
    container := container[MinorUnitsKey := JsonNumber(amount.minorUnits as int)];
  }
}
