/** Division of a 64-bit number by a 32-bit one by shifting and subtracting. The machine
    types make every intermediate value a proof obligation: nothing overflows. */
module Divide {
  import opened Arithmetic

  newtype u64 = x: int | 0 <= x < 0x1_0000_0000_0000_0000
  newtype u32 = x: int | 0 <= x < 0x1_0000_0000

  const SIGN: u64 := 0x8000_0000_0000_0000
  const WORD: u64 := 0x1_0000_0000

  ghost predicate Pow2(d: int)
    decreases d
  {
    d == 1 || (d > 1 && d % 2 == 0 && Pow2(d / 2))
  }

  lemma Halved(base: int, d: int)
    requires Pow2(d) && d > 1
    ensures Pow2(d / 2) && base * d / 2 == base * (d / 2) && 2 * (d / 2) == d
  {
    assert base * d == 2 * (base * (d / 2));
  }

  /** The quotient's high word, and the rest. */
  method ReduceHigh(n: u64, base: u32) returns (res: u64, rem: u64)
    requires base > 0
    ensures n as int == res as int * base as int + rem as int && rem as int / WORD as int < base as int
    ensures res as int % WORD as int == 0
  {
    rem, res := n, 0;
    var high: u32 := (n / WORD) as u32;
    if high >= base {
      var low := n % WORD;
      ghost var was := high as int;
      high := high / base;
      HighWord(was, base as int);
      res := high as u64 * WORD;
      assert (high * base) as u64 * WORD <= n;
      rem := rem - (high * base) as u64 * WORD;
      assert rem as int == (was % base as int) * WORD as int + low as int;
      assert res as int * base as int == (high as int * base as int) * WORD as int;
    }
  }

  lemma HighWord(high: int, base: int)
    requires 0 < base <= high
    ensures 0 <= (high / base) * base <= high && high - (high / base) * base == high % base
  {
  }

  lemma Doubled(base: int, d: int)
    requires Pow2(d)
    ensures Pow2(d + d) && base * (d + d) == base * d + base * d
  {
  }

  method Divide64By32(n: u64, base: u32) returns (res: u64, rem: u64)
    requires base > 0
    ensures res as int == n as int / base as int && rem as int == n as int % base as int
  {
    hide Pow2;
    ghost var c := base as int;
    res, rem := ReduceHigh(n, base);
    var b: u64 := base as u64;
    var d: u64 := 1;
    Pow2One();
    while b < SIGN && b < rem
      invariant b as int == c * d as int && Pow2(d as int) && 0 < d <= b
      decreases SIGN as int - b as int
    {
      Doubled(c, d as int);
      b := b + b;
      d := d + d;
    }
    while true
      invariant n as int == res as int * c + rem as int && rem as int < 2 * b as int
      invariant d > 0 && Pow2(d as int) && b as int == c * d as int
      decreases d
    {
      if rem >= b {
        QuotientFits(n as int, res as int, c, rem as int, d as int);
        rem := rem - b;
        res := res + d;
      }
      if d > 1 { Halved(c, d as int); }
      b := b / 2;
      d := d / 2;
      if d == 0 { break; }
    }
    Unique(n as int, c, res as int, rem as int);
  }

  lemma Pow2One()
    ensures Pow2(1)
  {
  }

  lemma QuotientFits(n: int, res: int, base: int, rem: int, d: int)
    requires base > 0 && n == res * base + rem && rem >= base * d && 0 <= res && 0 <= d
    ensures res + d <= n && n == (res + d) * base + (rem - base * d)
  {
    assert (res + d) * base == res * base + base * d;
    Grows(res + d, base);
  }
}
