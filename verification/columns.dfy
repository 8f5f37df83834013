/** Database column types the entities declare, as predicates on values. */
module Columns {
  import opened Exceptions

  /** An `int` column: a signed 32-bit integer. */
  predicate IsInt32(n: int) {
    -0x8000_0000 <= n <= 0x7FFF_FFFF
  }

  function Pow10(n: nat): (r: nat)
    ensures r >= 1
  {
    if n == 0 then 1 else 10 * Pow10(n - 1)
  }

  /** A `decimal(precision, 2)` column holding an amount given in cents: at most
      `precision - 2` integer digits and two fractional digits, i.e. fewer than
      `precision` digits of cents. */
  predicate FitsDecimal2(cents: int, precision: nat) {
    -(Pow10(precision) as int) < cents < Pow10(precision)
  }

  /** A `varchar(length)` column. */
  predicate FitsVarchar(s: string, length: nat) {
    |s| <= length
  }

  /** A nullable `varchar(length)` column. */
  predicate FitsNullableVarchar(s: Option<string>, length: nat) {
    s.None? || |s.value| <= length
  }
}
