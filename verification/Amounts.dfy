/** Exact monetary amounts in integer minor units. */
module Amounts {
  datatype Money = Money(currency: string, minorUnits: int)
}
