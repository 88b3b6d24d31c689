/** Small shared vocabulary: an Option type, the C++ conversion of a
    `double` to `int` (truncation toward zero) and C++ integer division. */
module Util {

  datatype Option<+T> = None | Some(value: T)

  /** Concatenation regrouped, for loops that append to a sequence. */
  lemma AppendAssoc<T>(a: seq<T>, b: seq<T>, c: seq<T>)
    ensures a + b + c == a + (b + c)
  {
  }

  /** Euclidean quotient and remainder are the only pair with the
      remainder in range. */
  lemma DivModUnique(x: int, k: int, q: int, r: int)
    requires k > 0 && 0 <= r < k && x == q * k + r
    ensures x / k == q && x % k == r
  {
    var q', r' := x / k, x % k;
    assert x == q' * k + r';
    assert (q - q') * k == r' - r;
    MultipleBounds(q - q', k);
  }

  /** A non-zero multiple of a positive `k` is at least `k` away from zero. */
  lemma MultipleBounds(d: int, k: int)
    requires k > 0
    ensures d >= 1 ==> d * k >= k
    ensures d <= -1 ==> d * k <= -k
  {
    if d >= 1 {
      assert d * k == (d - 1) * k + k;
      assert (d - 1) * k >= 0;
    } else if d <= -1 {
      assert d * k == -((-d - 1) * k) - k;
      assert (-d - 1) * k >= 0;
    }
  }

  /** Reducing modulo `k * m` first does not change the remainder modulo `m`. */
  lemma ModOfMod(x: int, k: int, m: int)
    requires k > 0 && m > 0
    ensures (x % (k * m)) % m == x % m
  {
    var q, r := x / (k * m), x % (k * m);
    assert x == q * (k * m) + r;
    assert r == (r / m) * m + r % m;
    assert q * (k * m) == (q * k) * m;
    DivModUnique(x, m, q * k + r / m, r % m);
  }

  /** A prefix one longer is the prefix and the next element. */
  lemma TakeNext<T>(p: seq<T>, k: nat)
    requires k < |p|
    ensures p[..k + 1] == p[..k] + [p[k]]
  {
  }

  /** The elements of a sequence with one more at its end. */
  lemma SnocIndex<T>(p: seq<T>, x: T)
    ensures |p + [x]| == |p| + 1 && (p + [x])[|p|] == x
    ensures forall i :: 0 <= i < |p| ==> (p + [x])[i] == p[i]
  {
  }

  /** `int(x)` in C++: the real number truncated toward zero. */
  function Trunc(x: real): (n: int)
    ensures x >= 0.0 ==> n as real <= x < n as real + 1.0
    ensures x < 0.0 ==> n as real - 1.0 < x <= n as real
  {
    if x >= 0.0 then x.Floor else -((-x).Floor)
  }

  /** Dividing a non-negative integer by a positive one as doubles and
      truncating gives the integer quotient. */
  lemma TruncQuotient(a: int, b: int)
    requires a >= 0 && b > 0
    ensures Trunc(a as real / b as real) == a / b
  {
    var q, r := a / b, a % b;
    assert a == q * b + r && 0 <= r < b;
    assert (a as real) == (q as real) * (b as real) + (r as real);
    var x, br := a as real / b as real, b as real;
    assert x * br == a as real;
    assert (q as real) * br <= x * br;
    CancelFactor(q as real, x, br);
    var qb := (q as real) * br;
    assert (q as real + 1.0) * br == qb + br;
    assert a as real == qb + r as real;
    assert (r as real) < br;
    assert x * br < qb + br;
    CancelFactorStrict(x, q as real + 1.0, br);
  }

  lemma CancelFactor(x: real, y: real, c: real)
    requires c > 0.0 && x * c <= y * c
    ensures x <= y
  {
  }

  lemma CancelFactorStrict(x: real, y: real, c: real)
    requires c > 0.0 && x * c < y * c
    ensures x < y
  {
  }

  /** The same, one lower: `int(a / b - 1)` when `a >= b`. */
  lemma TruncQuotientMinusOne(a: int, b: int)
    requires a >= b > 0
    ensures Trunc(a as real / b as real - 1.0) == a / b - 1
  {
    TruncQuotient(a, b);
    assert a / b >= 1;
    var x := a as real / b as real;
    assert x >= 1.0 by {
      assert (a / b) as real <= x;
    }
    assert Trunc(x - 1.0) == (x - 1.0).Floor;
    assert (x - 1.0).Floor == x.Floor - 1;
  }

  /** C++ `a / b` on int: the quotient truncated toward zero. */
  function CDiv(a: int, b: int): (q: int)
    requires b != 0
    ensures a >= 0 && b > 0 ==> q == a / b
    ensures b > 0 ==> (a >= 0 ==> q * b <= a) && (a < 0 ==> q * b >= a)
  {
    var q := (if a < 0 then -a else a) / (if b < 0 then -b else b);
    if (a < 0) == (b < 0) then q else -q
  }

  /** C++ `a % b` on int: the remainder takes the sign of the dividend. */
  function CMod(a: int, b: int): (r: int)
    requires b != 0
    ensures a == CDiv(a, b) * b + r
    ensures a >= 0 && b > 0 ==> 0 <= r < b && r == a % b
  {
    a - CDiv(a, b) * b
  }
}
