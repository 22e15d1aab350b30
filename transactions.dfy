/**
 * The transaction record shared by the store, the analytics and the API.
 *
 * Amounts are whole cents (positive = income, negative = expense), so the
 * source's `Math.round(x * 100) / 100` leaves every amount unchanged.
 * Dates are already parsed into year, month (1-based) and day.
 */
module Transactions {

  /** A calendar date as held in a record's `date` field. */
  datatype Date = Date(year: nat, month: nat, day: nat)

  /** One stored transaction; `id` is the string id the store assigned. */
  datatype Transaction = Transaction(
    id: string,
    amount: int,
    description: string,
    date: Date,
    category: string)

  /** `Math.abs` on whole cents. */
  function Abs(x: int): (r: nat)
    ensures r == x || r == -x
  {
    if x < 0 then -x else x
  }
}
