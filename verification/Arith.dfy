/** Integer arithmetic as the Go code performs it: division truncates toward zero, int64 wraps. */
module Arith {

  const SECOND: int := 1_000_000_000 // time.Second, in nanoseconds

  const TWO_32: int := 0x1_0000_0000
  const TWO_63: int := 0x8000_0000_0000_0000
  const TWO_64: int := 0x1_0000_0000_0000_0000

  function Max(a: int, b: int): int {
    if a < b then b else a
  }

  function Abs(a: int): nat {
    if a < 0 then -a else a
  }

  // Go's `/`.
  function Quo(a: int, b: int): int
    requires b > 0
  {
    if a >= 0 then a / b else -((-a) / b)
  }

  // Go's `%`.
  function Rem(a: int, b: int): int
    requires b > 0
  {
    a - b * Quo(a, b)
  }

  // What an int64 holds after a computation whose exact result is a.
  function Wrap64(a: int): int {
    (a + TWO_63) % TWO_64 - TWO_63
  }

  predicate FitsInt64(a: int) {
    -TWO_63 <= a < TWO_63
  }

  // What a uint32 conversion keeps.
  function Uint32(a: int): (r: int)
    ensures 0 <= r < TWO_32
    ensures 0 <= a < TWO_32 ==> r == a
  {
    a % TWO_32
  }

  // multiplyAndDivide / multiplyAndDivide2 / durationGoToMp4 / durationMp4ToGo, on unbounded integers.
  function MultiplyAndDivide(v: int, m: int, d: int): int
    requires d > 0
  {
    Quo(v, d) * m + Quo(Rem(v, d) * m, d)
  }

  // The same expression with every operation performed on int64.
  function MultiplyAndDivide64(v: int, m: int, d: int): int
    requires d > 0
  {
    Wrap64(Wrap64(Quo(v, d) * m) + Quo(Wrap64(Rem(v, d) * m), d))
  }

  // timestampToDuration: clock ticks to nanoseconds.
  function ToDuration(ticks: int, rate: int): int
    requires rate > 0
  {
    MultiplyAndDivide(ticks, SECOND, rate)
  }

  // durationGoToMp4: nanoseconds to clock ticks.
  function ToTicks(duration: int, rate: int): int {
    MultiplyAndDivide(duration, rate, SECOND)
  }

  lemma MulLe(a: int, b: int, c: int)
    requires a <= b && c >= 0
    ensures a * c <= b * c
  {
  }

  lemma MulSplit(a: int, b: int, c: int)
    ensures (a + b) * c == a * c + b * c && (a - b) * c == a * c - b * c
  {
  }

  lemma MulAssoc(a: int, b: int, c: int)
    ensures (a * b) * c == a * (b * c)
  {
  }

  // Two multiples of d that lie strictly within d of each other are the same multiple.
  lemma SameMultiple(d: int, p: int, q: int)
    requires -d < p * d - q * d < d
    ensures p == q
  {
    MulSplit(p, q, d);
    if p > q {
      MulLe(1, p - q, d);
    } else if p < q {
      MulLe(p - q, -1, d);
    }
  }

  lemma EuclidBounds(x: nat, d: int)
    requires d > 0
    ensures x / d >= 0 && (x / d) * d <= x < (x / d) * d + d
    ensures -(x / d) * d == -((x / d) * d)
  {
    assert x == d * (x / d) + x % d;
  }

  lemma QuoBounds(x: int, d: int)
    requires d > 0
    ensures x >= 0 ==> Quo(x, d) >= 0 && Quo(x, d) * d <= x < Quo(x, d) * d + d
    ensures x < 0 ==> Quo(x, d) <= 0 && x <= Quo(x, d) * d < x + d
    ensures x == Quo(x, d) * d + Rem(x, d)
    ensures x >= 0 ==> 0 <= Rem(x, d) < d
    ensures x < 0 ==> -d < Rem(x, d) <= 0
  {
    if x >= 0 {
      EuclidBounds(x, d);
    } else {
      EuclidBounds(-x, d);
    }
    assert d * Quo(x, d) == Quo(x, d) * d;
  }

  lemma QuoUnique(x: int, d: int, q: int)
    requires d > 0
    requires x >= 0 ==> q * d <= x < q * d + d
    requires x < 0 ==> x <= q * d < x + d
    ensures Quo(x, d) == q
  {
    QuoBounds(x, d);
    SameMultiple(d, Quo(x, d), q);
  }

  lemma SignOfProduct(v: int, m: int)
    requires m >= 0
    ensures v >= 0 ==> v * m >= 0
    ensures v <= 0 ==> v * m <= 0
  {
  }

  // The split form never loses more than the single truncation of the exact product.
  lemma MultiplyAndDivideIsTruncatedProduct(v: int, m: int, d: int)
    requires m >= 0 && d > 0
    ensures MultiplyAndDivide(v, m, d) == Quo(v * m, d)
  {
    var q, r := Quo(v, d), Rem(v, d);
    var s := Quo(r * m, d);
    QuoBounds(v, d);
    QuoBounds(r * m, d);
    SignOfProduct(v, m);
    SignOfProduct(r, m);
    MulSplit(q * d, r, m);
    MulAssoc(q, d, m);
    MulAssoc(q, m, d);
    MulSplit(q * m, s, d);
    assert v * m == (q * m) * d + r * m;
    if v == 0 || m == 0 || r == 0 {
      QuoZero(v, m, d);
    }
    QuoUnique(v * m, d, q * m + s);
  }

  lemma QuoZero(v: int, m: int, d: int)
    requires d > 0 && m >= 0
    ensures Quo(0, d) == 0
    ensures Rem(v, d) == 0 ==> Rem(v, d) * m == 0
  {
  }

  lemma MultiplyAndDivideBounds(v: int, m: int, d: int)
    requires m >= 0 && d > 0
    ensures v >= 0 ==> MultiplyAndDivide(v, m, d) >= 0
    ensures v >= 0 ==> v * m - d < MultiplyAndDivide(v, m, d) * d <= v * m
    ensures v < 0 ==> v * m <= MultiplyAndDivide(v, m, d) * d < v * m + d
  {
    MultiplyAndDivideIsTruncatedProduct(v, m, d);
    QuoBounds(v * m, d);
    SignOfProduct(v, m);
    if v * m == 0 { QuoZero(v, m, d); }
  }

  lemma MultiplyAndDivideZero(m: int, d: int)
    requires d > 0
    ensures MultiplyAndDivide(0, m, d) == 0
  {
  }

  lemma QuoMonotone(x: int, y: int, d: int)
    requires d > 0 && x <= y
    ensures Quo(x, d) <= Quo(y, d)
  {
    QuoBounds(x, d);
    QuoBounds(y, d);
    var p, q := Quo(x, d), Quo(y, d);
    if p > q {
      MulLe(q + 1, p, d);
      MulSplit(q, 1, d);
    }
  }

  lemma MultiplyAndDivideMonotone(v: int, w: int, m: int, d: int)
    requires m >= 0 && d > 0 && v <= w
    ensures MultiplyAndDivide(v, m, d) <= MultiplyAndDivide(w, m, d)
  {
    MultiplyAndDivideIsTruncatedProduct(v, m, d);
    MultiplyAndDivideIsTruncatedProduct(w, m, d);
    MulLe(v, w, m);
    QuoMonotone(v * m, w * m, d);
  }

  lemma QuoWithin(x: int, d: int, m: int)
    requires d > 0 && m >= 0 && -(m * d) <= x <= m * d
    ensures -m <= Quo(x, d) <= m
  {
    QuoBounds(x, d);
    var q := Quo(x, d);
    if q > m {
      MulLe(m + 1, q, d);
      MulSplit(m, 1, d);
    } else if q < -m {
      MulLe(q, -m - 1, d);
      MulSplit(-m, 1, d);
    }
  }

  lemma Wrap64Id(a: int)
    requires FitsInt64(a)
    ensures Wrap64(a) == a
  {
  }

  // No operation of the int64 computation overflows in this range.
  lemma MultiplyAndDivideFits(v: int, m: int, d: int)
    requires m >= 0 && d > 0
    requires Abs(Quo(v, d)) * m + m < TWO_63 && d * m < TWO_63
    ensures MultiplyAndDivide64(v, m, d) == MultiplyAndDivide(v, m, d)
  {
    var q, r := Quo(v, d), Rem(v, d);
    QuoBounds(v, d);
    MulLe(r, d, m);
    MulLe(-d, r, m);
    assert (-d) * m == -(d * m);
    assert d * m == m * d;
    QuoWithin(r * m, d, m);
    MulLe(q, Abs(q), m);
    var a: int := Abs(q);
    MulLe(-a, q, m);
    assert (-a) * m == -(a * m);
    Wrap64Id(q * m);
    Wrap64Id(r * m);
    Wrap64Id(q * m + Quo(r * m, d));
  }

  // Ticks survive a conversion to nanoseconds and back with an error of at most one tick.
  lemma TicksRoundTrip(ticks: int, rate: int)
    requires ticks >= 0 && 0 < rate <= SECOND
    ensures ticks - 1 <= ToTicks(ToDuration(ticks, rate), rate) <= ticks
  {
    var d := ToDuration(ticks, rate);
    MultiplyAndDivideBounds(ticks, SECOND, rate);
    MultiplyAndDivideBounds(d, rate, SECOND);
    var t := ToTicks(d, rate);
    assert t * SECOND > d * rate - SECOND;
  }
}
