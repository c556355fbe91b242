/** Products and quotients of variables, where the solver needs help. */
module Arithmetic {
  lemma {:induction false} Grows(k: int, c: int)
    requires k >= 0 && c >= 1
    ensures k * c >= k && (k >= 1 ==> k * c >= c)
    decreases k
  {
    if k > 0 {
      Grows(k - 1, c);
      assert k * c == (k - 1) * c + c;
    }
  }

  lemma Ordered(x: int, y: int, b: int)
    requires b > 0
    ensures x <= y <==> x * b <= y * b
    ensures x < y ==> x * b + b <= y * b
  {
    assert (y - x) * b == y * b - x * b && (x - y) * b == x * b - y * b;
    if x < y { Grows(y - x, b); }
    if y < x { Grows(x - y, b); }
  }

  lemma Division(x: nat, b: nat)
    requires b > 0
    ensures x == b * (x / b) + x % b && x / b >= 0 && 0 <= x % b < b
  {
  }

  lemma Unique(n: int, base: int, q: int, r: int)
    requires base > 0 && n == q * base + r && 0 <= r < base
    ensures q == n / base && r == n % base
  {
    var k := q - n / base;
    assert n == base * (n / base) + n % base;
    assert k * base == q * base - base * (n / base);
    if k > 0 { Grows(k, base); }
    if k < 0 { Grows(-k, base); }
  }
}
