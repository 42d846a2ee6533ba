/** The machine's 64-bit integers. */
module Machine {
  const TWO63: int := 0x8000_0000_0000_0000

  predicate Int64(x: int) { -TWO63 <= x < TWO63 }

  // What is left of an integer after a 64-bit operation.
  function Wrap(x: int): int {
    (x + TWO63) % (2 * TWO63) - TWO63
  }

  // Go's quotient, rounded toward zero.
  function Quotient(a: int, b: int): int
    requires b > 0
  {
    if a >= 0 then a / b else -((-a) / b)
  }

  lemma WrapIsIdentity(x: int)
    requires Int64(x)
    ensures Wrap(x) == x
  {}

  lemma WrapOverflows(x: int)
    requires TWO63 <= x < 2 * TWO63
    ensures Wrap(x) == x - 2 * TWO63
  {}

  // The quotient is rounded toward zero, whatever the sign.
  lemma QuotientMeans(a: int, b: int)
    requires b > 0
    ensures a >= 0 ==> Quotient(a, b) * b <= a < (Quotient(a, b) + 1) * b
    ensures a <= 0 ==> (Quotient(a, b) - 1) * b < a <= Quotient(a, b) * b
  {
    var x := if a >= 0 then a else -a;
    assert x == b * (x / b) + x % b;
  }

  // Wrapping keeps an integer's residue and brings it into range.
  lemma WrapMeans(x: int)
    ensures Int64(Wrap(x)) && (Wrap(x) - x) % (2 * TWO63) == 0
  {
    var m := 2 * TWO63;
    var q := (x + TWO63) / m;
    assert x + TWO63 == m * q + (x + TWO63) % m;
    assert Wrap(x) - x == m * (-q);
    assert (m * (-q)) % m == 0;
  }

  lemma QuotientOfNegative(a: int, b: int)
    requires a <= 0 < b
    ensures Quotient(a, b) <= 0
  {}

  lemma Monotone(a: int, b: int, c: int)
    requires a <= b && c >= 0
    ensures a * c <= b * c
  {}
}
