/** Human-readable sizes over 64-bit integers. */
module HumanSize {
  import opened Machine

  const UNIT: int := 1024
  const UNITS := "KMGTPE"

  function Power(k: nat): int { if k == 0 then 1 else UNIT * Power(k - 1) }

  // Bytes as they are, or the quotient n / div still to be rounded, and its unit.
  datatype Size = Bytes(n: int) | Scaled(n: int, div: int, unit: char)

  lemma {:induction false} PowersGrow(j: nat, k: nat)
    requires j <= k
    ensures 1 <= Power(j) <= Power(k)
    decreases k
  {
    if j < k { PowersGrow(j, k - 1); } else if k > 0 { PowersGrow(k - 1, k - 1); }
  }

  lemma {:induction false} NextPowers(j: nat, k: nat)
    ensures j < k ==> UNIT * Power(j) <= Power(k)
  {
    if j < k { PowersGrow(j + 1, k); }
  }

  // The scale is the one power of the unit that leaves a quotient from 1 up to the unit.
  lemma {:induction false} ScaleIsUnique(n: int, j: nat, k: nat)
    requires Power(j) <= n < UNIT * Power(j) && Power(k) <= n < UNIT * Power(k)
    ensures j == k
  {
    NextPowers(j, k);
    NextPowers(k, j);
  }

  method Scale(n: int) returns (r: Size, exp: nat)
    requires Int64(n)
    ensures n < UNIT ==> r == Bytes(n)
    ensures n >= UNIT ==>
              && r.Scaled? && r.n == n && r.div == Power(exp + 1) < TWO63
              && r.div <= n < UNIT * r.div
              && exp < |UNITS| && r.unit == "KMGTPE"[exp]
  {
    if n < UNIT {
      return Bytes(n), 0;
    }
    var div, n2 := UNIT, n / UNIT;
    exp := 0;
    // Every value div takes is at most n, so the multiplication never overflows.
    assert Power(1) == UNIT * Power(0);
    while n2 >= UNIT
      invariant div == Power(exp + 1)
      invariant div <= n
      invariant 1 <= n2 && n2 * div <= n < (n2 + 1) * div
      decreases n2
    {
      var q := n2 / UNIT;
      Rescale(n, n2, q, div);
      Monotone(1, q, div * UNIT);
      div := div * UNIT;
      exp := exp + 1;
      n2 := q;
    }
    Bounded(n, n2, div, exp);
    r := Scaled(n, div, UNITS[exp]);
  }

  lemma Rescale(n: int, m: int, q: int, div: int)
    requires div > 0 && m * div <= n < (m + 1) * div && q == m / UNIT && m >= UNIT
    ensures 1 <= q && q * (div * UNIT) <= n < (q + 1) * (div * UNIT)
  {
    Monotone(UNIT * q, m, div);
    Monotone(m + 1, UNIT * q + UNIT, div);
    Regroup(q, div);
    Regroup(q + 1, div);
  }

  lemma Regroup(q: int, div: int)
    ensures q * (div * UNIT) == (UNIT * q) * div
  {
    assert q * (div * UNIT) == (q * div) * UNIT;
  }

  lemma Bounded(n: int, m: int, div: int, exp: nat)
    requires n < TWO63 && 1 <= m < UNIT && div == Power(exp + 1) && m * div <= n < (m + 1) * div
    ensures exp < |UNITS| && div <= n < UNIT * div
  {
    PowersGrow(exp + 1, exp + 1);
    Monotone(1, m, div);
    Monotone(m + 1, UNIT, div);
    if exp >= 6 {
      PowersGrow(7, exp + 1);
      Seventh();
    }
  }

  lemma Seventh()
    ensures Power(6) < TWO63 < Power(7)
  {
    assert Power(2) == 0x10_0000;
    assert Power(4) == UNIT * (UNIT * Power(2));
    assert Power(6) == UNIT * (UNIT * Power(4));
  }
}
