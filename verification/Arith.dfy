/** Facts about integer division by a variable, each small enough for the solver. */
module Arith {

  lemma MulDist(p: int, q: int, d: int)
    ensures (p - q) * d == p * d - q * d
  {}

  lemma MulGe(k: int, d: nat)
    requires k >= 1
    ensures k * d >= d
  {
    MulDist(k, 1, d);
    assert (k-1) * d >= 0;
  }

  lemma DivUnique(x: nat, d: nat, q: int, r: nat)
    requires r < d && x == q * d + r
    ensures x / d == q
  {
    var p, s := x / d, x % d;
    DivMod(x, d, p, s);
    MulDist(p, q, d);
    MulDist(q, p, d);
    if p > q {
      MulGe(p - q, d);
    } else if p < q {
      MulGe(q - p, d);
    }
  }

  lemma DivMod(x: nat, d: nat, p: int, s: int)
    requires d > 0 && p == x / d && s == x % d
    ensures x == p * d + s && 0 <= s < d
  {}

  lemma DivPlusOne(x: nat, d: nat)
    requires d > 0
    ensures (x + d) / d == x / d + 1
  {
    DivMod(x, d, x / d, x % d);
    MulDist(x / d, -1, d);
    DivUnique(x + d, d, x / d + 1, x % d);
  }

  lemma DivMonotone(x: nat, y: nat, d: nat)
    requires d > 0 && x <= y
    ensures x / d <= y / d
  {
    var p, q := x / d, y / d;
    DivMod(x, d, p, x % d);
    DivMod(y, d, q, y % d);
    MulDist(p, q, d);
    if p > q {
      MulGe(p - q, d);
    }
  }
}
