/** The power-of-two helpers on 32-bit machine words. */
module Words {
  import opened BuddySpec
  import opened BuddyLinks

  const TOP_BIT: bv32 := 0x8000_0000

  function Half(x: bv32): bv32 { x >> 1 }

  predicate Odd(x: bv32) { x & 1 == 1 }

  function Dec(x: bv32): bv32 { x - 1 }

  /** Every bit set in `a` is set in `b`. */
  predicate Within(a: bv32, b: bv32) { a & b == a }

  predicate IsZero(x: bv32) { x == 0 }

  /** The number a word stands for. */
  function Val(x: bv32): nat
    decreases x
  {
    if x == 0 then 0 else (if Odd(x) then 1 else 0) + 2 * Val(Half(x))
  }

  function RoundUpPower2(n: bv32): bv32 {
    var x0 := n - 1;
    var x1 := x0 | (x0 >> 1);
    var x2 := x1 | (x1 >> 2);
    var x3 := x2 | (x2 >> 4);
    var x4 := x3 | (x3 >> 8);
    var x5 := x4 | (x4 >> 16);
    x5 + 1
  }

  function RoundDownPower2(n: bv32): bv32 {
    if n == 0 then 0
    else
      var x1 := n | (n >> 1);
      var x2 := x1 | (x1 >> 2);
      var x3 := x2 | (x2 >> 4);
      var x4 := x3 | (x3 >> 8);
      var x5 := x4 | (x4 >> 16);
      x5 - (x5 >> 1)
  }

  /** `bsf`: the index of the lowest set bit; undefined on 0. */
  function TrailingZero(x: bv32): nat
    requires !IsZero(x)
    decreases x
  {
    if Odd(x) then 0 else 1 + TrailingZero(Half(x))
  }

  lemma ValStep(x: bv32)
    ensures Val(x) == (if Odd(x) then 1 else 0) + 2 * Val(Half(x))
  {
  }

  lemma ValZero(x: bv32)
    requires IsZero(x)
    ensures Val(x) == 0
  {
  }

  lemma HalfLess(x: bv32)
    requires !IsZero(x)
    ensures Half(x) < x
  {
  }

  lemma HalfWithin(a: bv32, b: bv32)
    requires Within(a, b)
    ensures Within(Half(a), Half(b))
    ensures Odd(a) ==> Odd(b)
    ensures IsZero(b) ==> IsZero(a)
  {
  }

  /** A word whose bits are among another's is no larger. */
  lemma {:induction false} WithinVal(a: bv32, b: bv32)
    requires Within(a, b)
    ensures Val(a) <= Val(b)
    decreases b
  {
    hide Val, Half, Odd, Within, IsZero;
    HalfWithin(a, b);
    if IsZero(b) {
      ValZero(a);
    } else {
      ValStep(a);
      ValStep(b);
      HalfLess(b);
      WithinVal(Half(a), Half(b));
    }
  }

  lemma DecOdd(x: bv32)
    requires Odd(x)
    ensures !IsZero(x) && Half(Dec(x)) == Half(x) && !Odd(Dec(x))
  {
  }

  lemma DecEven(x: bv32)
    requires !Odd(x) && !IsZero(x)
    ensures !IsZero(Half(x)) && Half(Dec(x)) == Dec(Half(x)) && Odd(Dec(x))
  {
  }

  lemma {:induction false} DecVal(x: bv32)
    requires !IsZero(x)
    ensures Val(x) == Val(Dec(x)) + 1
    decreases x
  {
    hide Val, Half, Odd, Dec, IsZero;
    ValStep(x);
    ValStep(Dec(x));
    if Odd(x) {
      DecOdd(x);
    } else {
      DecEven(x);
      HalfLess(x);
      DecVal(Half(x));
    }
  }

  predicate PowerOfTwo(r: bv32) {
    r != 0 && r & (r - 1) == 0
  }

  lemma PowerOdd(r: bv32)
    requires PowerOfTwo(r)
    ensures !IsZero(r)
    ensures Odd(r) ==> IsZero(Half(r))
    ensures !Odd(r) ==> PowerOfTwo(Half(r)) && Half(r) < r
  {
  }

  lemma TrailingStep(x: bv32)
    requires !IsZero(x)
    ensures Odd(x) ==> TrailingZero(x) == 0
    ensures !Odd(x) ==> !IsZero(Half(x)) && TrailingZero(x) == 1 + TrailingZero(Half(x))
  {
    if !Odd(x) { DecEven(x); }
  }

  /** A power of two is 1 shifted left by the number of its trailing zeros. */
  lemma {:induction false} PowerVal(r: bv32)
    requires PowerOfTwo(r)
    ensures !IsZero(r)
    ensures Val(r) == Shl(1, TrailingZero(r))
    ensures TrailingZero(r) > 0 ==> Val(Half(r)) == Shl(1, TrailingZero(r) - 1)
    decreases r
  {
    hide Val, Half, Odd, IsZero, PowerOfTwo, TrailingZero;
    PowerOdd(r);
    ValStep(r);
    TrailingStep(r);
    if Odd(r) {
      ValZero(Half(r));
    } else {
      PowerVal(Half(r));
      ShlAdd(1, 1, TrailingZero(Half(r)));
    }
  }

  /** The range for which rounding up works: 1 to 2^31. */
  predicate Roundable(n: bv32) {
    n != 0 && (n - 1) & TOP_BIT == 0
  }

  lemma RoundUpPower(n: bv32)
    requires Roundable(n)
    ensures PowerOfTwo(RoundUpPower2(n)) && !IsZero(n)
  {
  }

  lemma RoundUpAbove(n: bv32)
    requires Roundable(n)
    ensures Within(Dec(n), Dec(RoundUpPower2(n)))
  {
  }

  lemma RoundUpBelow(n: bv32)
    requires Roundable(n)
    ensures Within(Half(RoundUpPower2(n)), Dec(n))
  {
  }

  lemma RoundDownPower(n: bv32)
    requires !IsZero(n)
    ensures PowerOfTwo(RoundDownPower2(n))
  {
  }

  lemma RoundDownBelow(n: bv32)
    requires !IsZero(n)
    ensures Within(RoundDownPower2(n), n)
  {
  }

  lemma RoundDownAbove(n: bv32)
    requires !IsZero(n)
    ensures Within(Half(n), Dec(RoundDownPower2(n)))
  {
  }

  /** The order `page_alloc` asks for. */
  function PageOrder(n: bv32): nat
    requires Roundable(n)
  {
    RoundUpPower(n);
    PowerOdd(RoundUpPower2(n));
    TrailingZero(RoundUpPower2(n))
  }

  /** It is the least order whose blocks hold `n` pages. */
  lemma PageOrderLeast(n: bv32)
    requires Roundable(n)
    ensures Val(n) <= Shl(1, PageOrder(n))
    ensures PageOrder(n) > 0 ==> Shl(1, PageOrder(n) - 1) < Val(n)
  {
    hide Val, Half, Dec, IsZero, Within, PowerOfTwo, Roundable, RoundUpPower2, TrailingZero, Shl;
    var r := RoundUpPower2(n);
    RoundUpPower(n);
    PowerVal(r);
    DecVal(n);
    DecVal(r);
    RoundUpAbove(n);
    WithinVal(Dec(n), Dec(r));
    RoundUpBelow(n);
    WithinVal(Half(r), Dec(n));
  }

  /** `round_down_power_2` is the largest power of two not above its argument. */
  lemma RoundDownGreatest(n: bv32)
    requires !IsZero(n)
    ensures PowerOfTwo(RoundDownPower2(n)) && Val(RoundDownPower2(n)) <= Val(n) < 2 * Val(RoundDownPower2(n))
  {
    hide Val, Half, Dec, IsZero, Within, PowerOfTwo, RoundDownPower2;
    var r := RoundDownPower2(n);
    RoundDownPower(n);
    PowerOdd(r);
    RoundDownBelow(n);
    WithinVal(r, n);
    RoundDownAbove(n);
    WithinVal(Half(n), Dec(r));
    DecVal(r);
    ValStep(n);
  }

  /** Outside that range the result is 0, for which `bsf` is undefined. */
  lemma RoundUpOverflow(n: bv32)
    ensures IsZero(RoundUpPower2(n)) <==> !Roundable(n)
  {
  }
}
