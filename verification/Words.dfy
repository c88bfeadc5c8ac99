/** Go's fixed-width integers and the 64-bit word primitives of `math/bits`. */
module Words {
  const TWO63: int := 0x8000_0000_0000_0000
  const TWO64: int := 0x1_0000_0000_0000_0000

  type int64 = x: int | -TWO63 <= x < TWO63
  type uint64 = x: int | 0 <= x < TWO64

  function Min(a: int, b: int): int { if a <= b then a else b }

  /** Conversion of any integer result to int64: two's complement wrap-around. */
  function Wrap64(x: int): (r: int64)
    ensures -TWO63 <= x < TWO63 ==> r == x
  {
    var m := x % TWO64;
    if m < TWO63 then m else m - TWO64
  }

  /** The word keeps the value up to multiples of 2^64. */
  lemma WrapCongruent(x: int)
    ensures Wrap64(x) % TWO64 == x % TWO64
  {
  }

  /** The Go conversion `uint64(x)`. */
  function ToU64(x: int64): (r: uint64)
    ensures 0 <= x ==> r == x
  {
    if x < 0 then x + TWO64 else x
  }

  /** `bits.Mul64`: the double word of a product, high word first. */
  function Mul64(x: uint64, y: uint64): (r: (uint64, uint64))
    ensures r.0 * TWO64 + r.1 == x * y
  {
    MulHighFits(x, y);
    (x * y / TWO64, x * y % TWO64)
  }

  /** Wrap-around addition of words. */
  function Add64(x: uint64, y: uint64): (r: uint64)
    ensures r == if x + y < TWO64 then x + y else x + y - TWO64
  {
    if x + y < TWO64 then x + y else x + y - TWO64
  }

  /** `bits.Div64`: panics unless the quotient fits one word, which is its precondition. */
  function Div64(hi: uint64, lo: uint64, y: uint64): (r: (uint64, uint64))
    requires 0 < y && hi < y
    ensures r.0 * y + r.1 == hi * TWO64 + lo && r.1 < y
  {
    var n := hi * TWO64 + lo;
    QuotientFits(hi, lo, y);
    (n / y, n % y)
  }

  lemma MulHighFits(x: uint64, y: uint64)
    ensures 0 <= x * y / TWO64 < TWO64
  {
    MulMono(x, TWO64 - 1, y, TWO64 - 1);
    HighFits(x * y);
  }

  lemma HighFits(p: nat)
    requires p <= (TWO64 - 1) * (TWO64 - 1)
    ensures p / TWO64 < TWO64
  {
  }

  lemma MulMono(a: nat, a': nat, b: nat, b': nat)
    requires a <= a' && b <= b'
    ensures a * b <= a' * b'
  {
    assert a' * b' - a * b == (a' - a) * b' + a * (b' - b);
    assert 0 <= (a' - a) * b' && 0 <= a * (b' - b);
  }

  lemma QuotientFits(hi: uint64, lo: uint64, y: uint64)
    requires 0 < y && hi < y
    ensures (hi * TWO64 + lo) / y < TWO64
  {
    var n := hi * TWO64 + lo;
    assert n < y * TWO64 by { MulMono(hi + 1, y, TWO64, TWO64); }
    assert n == n / y * y + n % y;
    forall q: int | q >= TWO64 ensures q * y > n { MulMono(TWO64, q, y, y); }
  }

  /** A number beyond all of a finite set, for identifiers that have not been used. */
  lemma {:induction false} Beyond<T>(s: set<T>, number: T -> int) returns (x: nat)
    ensures forall y :: y in s ==> number(y) < x
    decreases |s|
  {
    x := 0;
    if s != {} {
      var z :| z in s;
      var rest := s - {z};
      var x0 := Beyond(rest, number);
      x := if x0 > number(z) then x0 else number(z) + 1;
      forall y | y in s ensures number(y) < x {
        if y != z { assert y in rest; }
      }
    }
  }
}
