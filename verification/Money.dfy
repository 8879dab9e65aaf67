/** Exact decimal amounts and the two-decimal column they are stored in. */
module Money {

  /** Rounding of a `Numeric(_, 2)` column, in cents: to nearest, ties away from zero. */
  function ToCents(a: real): int {
    if a >= 0.0 then (a * 100.0 + 0.5).Floor else -((-a * 100.0 + 0.5).Floor)
  }

  function FromCents(c: int): real {
    c as real / 100.0
  }

  /** Eighteen digits in all, two of them after the point. */
  predicate FitsNumeric(c: int) {
    -1_000_000_000_000_000_000 < c < 1_000_000_000_000_000_000
  }

  /** A decimal with at most two fractional digits. */
  predicate WholeCents(a: real) {
    a * 100.0 == (a * 100.0).Floor as real
  }

  lemma CentsRoundTrip(c: int)
    ensures ToCents(FromCents(c)) == c
    ensures WholeCents(FromCents(c))
  {
  }

  /** Storing moves an amount by at most half a cent, and not at all when it is whole cents. */
  lemma RoundingError(a: real)
    ensures -0.5 <= ToCents(a) as real - a * 100.0 <= 0.5
    ensures FromCents(ToCents(a)) == a <==> WholeCents(a)
    ensures a >= 0.0 ==> ToCents(a) >= 0 && (ToCents(a) > 0 <==> a >= 0.005)
  {
  }

  /** Which cents an amount is stored as: the nearest, a tie going away from zero, alike on both
      sides of zero. */
  lemma NearestCent(a: real, c: int)
    ensures a >= 0.0 ==> (ToCents(a) == c <==> c as real - 0.5 <= a * 100.0 < c as real + 0.5)
    ensures ToCents(-a) == -ToCents(a)
  {
  }

  /** The column takes exactly the amounts that round to less than ten to the sixteenth. */
  lemma ColumnHolds(a: real)
    requires a >= 0.0
    ensures FitsNumeric(ToCents(a)) <==> a < 9_999_999_999_999_999.995
  {
  }
}
