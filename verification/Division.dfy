// Quotients and remainders by what they are, and that truncating division gives
// them.

module Division {
  import opened Words

  lemma MulGap(m: int, d: int)
    requires m > 0
    ensures (d > 0 ==> m * d >= m) && (d < 0 ==> m * d <= -m) && (d == 0 ==> m * d == 0)
  {
    if d > 0 {
      assert m * (d - 1) >= 0;
    } else if d < 0 {
      assert m * (-d - 1) >= 0;
    }
  }

  lemma DivSplit(x: int, m: int)
    requires m > 0
    ensures x == m * (x / m) + x % m && 0 <= x % m < m
  {
  }

  lemma DivIs(x: int, m: int, q: int, r: int)
    requires x == m * q + r && 0 <= r < m
    ensures x / m == q && x % m == r
  {
    var k, s := x / m, x % m;
    DivSplit(x, m);
    var d := k - q;
    assert m * d == r - s by {
      assert m * d == m * k - m * q;
    }
    MulGap(m, d);
  }

  function Size(x: int): int { if x < 0 then -x else x }

  /** `q` is a / b with the fraction dropped (section 6.5.5 of C11). */
  predicate Truncated(q: int, a: int, b: int) {
    var r := a - q * b;
    -Size(b) < r < Size(b) && (r > 0 ==> a > 0) && (r < 0 ==> a < 0)
  }

  predicate Remainder(r: int, a: int, b: int) {
    b != 0 && -Size(b) < r < Size(b) && (r > 0 ==> a > 0) && (r < 0 ==> a < 0) && (a - r) % Size(b) == 0
  }

  lemma Signs(k: int, v: int)
    ensures -k * v == -(k * v) && k * -v == -(k * v) && -k * -v == k * v
  {
  }

  lemma TDivSizes(a: int, b: int)
    requires b != 0
    ensures var u, v := Size(a), Size(b);
            && TDiv(a, b) == (if (a >= 0) == (b > 0) then u / v else -(u / v))
            && TDiv(a, b) * b == if a >= 0 then v * (u / v) else -(v * (u / v))
  {
    var u, v := Size(a), Size(b);
    Signs(u / v, v);
  }

  lemma TDivIs(a: int, b: int)
    requires b != 0
    ensures Truncated(TDiv(a, b), a, b) && Remainder(TMod(a, b), a, b)
  {
    var u, v := Size(a), Size(b);
    TDivSizes(a, b);
    DivSplit(u, v);
    hide TDiv;
    var q, k := TDiv(a, b), u / v;
    assert b * q == q * b;
    AddMultiple(0, if a >= 0 then k else -k, v);
    Signs(k, v);
  }

  lemma FloorFits(a: int, p: int)
    requires p >= 1
    ensures a / p * p <= a < (a / p + 1) * p
    ensures 0 <= a ==> 0 <= a / p <= a && (a > 0 && p > 1 ==> a / p < a)
    ensures a < 0 ==> a <= a / p < 0
  {
    var q := a / p;
    DivSplit(a, p);
    assert (q + 1) * p == q * p + p && p * q == q * p;
    MulGap(p, q);
    if q > 0 {
      MulGap(q, p - 1);
      assert q * p == q * (p - 1) + q;
    } else if q < 0 {
      MulGap(-q, p - 1);
      assert -q * p == -q * (p - 1) + -q;
      Signs(q, p);
    }
  }

  lemma TDivSmall(a: int, b: int)
    requires b != 0
    ensures var q := TDiv(a, b);
            && -Size(a) <= q <= Size(a) && (Size(a) > 0 && Size(b) > 1 ==> Size(q) < Size(a))
            && (a >= 0 && b > 0 ==> q >= 0) && (b == -1 ==> q == -a)
  {
    TDivSizes(a, b);
    FloorFits(Size(a), Size(b));
  }

  lemma RestSmall(r: int, a: int, b: int)
    requires Remainder(r, a, b)
    ensures -Size(b) < r < Size(b) && (r > 0 ==> a > 0) && (r < 0 ==> a < 0)
  {
  }
}
