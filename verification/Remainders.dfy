/** Remainders by a variable modulus. */
module Remainders {

  lemma {:induction false} MultipleGrows(m: nat, d: nat)
    requires d > 0
    ensures m * d >= m
    decreases d
  {
    if d > 1 {
      MultipleGrows(m, d - 1);
      assert m * d == m * (d - 1) + m;
    }
  }

  lemma SmallMultiple(m: nat, d: int)
    requires m * d < m && m * d + m > 0
    ensures d == 0
  {
    if d > 0 {
      MultipleGrows(m, d);
    } else if d < 0 {
      assert m * d == -(m * -d);
      MultipleGrows(m, -d);
    }
  }

  lemma RemainderIs(a: nat, m: nat, q: nat, r: nat)
    requires a == m * q + r && r < m
    ensures a % m == r
  {
    var whole, rest := a / m, a % m;
    assert a == m * whole + rest;
    assert m * (whole - q) == m * whole - m * q;
    SmallMultiple(m, whole - q);
  }

  lemma NextRemainder(a: nat, m: nat)
    requires m > 0
    ensures (a + m) % m == a % m
  {
    assert a + m == m * (a / m + 1) + a % m;
    RemainderIs(a + m, m, a / m + 1, a % m);
  }

  /** Numbers less than a modulus apart have different remainders. */
  lemma RemaindersDiffer(a: nat, b: nat, m: nat)
    requires a < b < a + m
    ensures a % m != b % m
  {
    if a % m == b % m {
      assert m * (b / m - a / m) == b - a;
      SmallMultiple(m, b / m - a / m);
    }
  }
}
