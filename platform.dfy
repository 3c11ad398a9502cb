/** The arithmetic of the C++ toolchain and of the Arduino and Mozzi helpers
    that the synth relies on, written out over unbounded integers and reals. */
module Platform {

  /** Mozzi's control rate in Hz (the constants of the synth are tuned for 64). */
  const ControlRate: int := 64
  /** Mozzi's audio rate in Hz on the ESP32 board the kit runs on. */
  const AudioRate: int := 32768
  /** INT_MAX of the 32-bit target. */
  const IntMax: int := 0x7fff_ffff
  /** Arduino's PI macro. */
  const Pi: real := 3.1415926535897932384626433832795

  /** Values of an `unsigned long` (32 bits on the target), e.g. results of millis(). */
  type ULong = x: int | 0 <= x < 0x1_0000_0000

  /** Floating-point routines the model does not define: libm's expf, cosf and
      log10, and the bit-level `fastPow` approximation. They are injected once,
      at construction, and every consumer reads them from there. */
  datatype Numerics = Numerics(
    expf: real -> real,
    cosf: real -> real,
    log10f: real -> real,
    fastPow: (real, real) -> real)

  function Min(a: int, b: int): int { if a < b then a else b }
  function Max(a: int, b: int): int { if a > b then a else b }
  function MinR(a: real, b: real): real { if a < b then a else b }
  function MaxR(a: real, b: real): real { if a > b then a else b }
  function Abs(x: int): nat { if x < 0 then -x else x }
  function AbsR(x: real): real { if x < 0.0 then -x else x }

  /** C's `/` on integers: the quotient truncated toward zero. */
  function DivT(a: int, b: int): (q: int)
    requires b != 0
    ensures Abs(q) * Abs(b) <= Abs(a) < (Abs(q) + 1) * Abs(b)
    ensures q > 0 ==> (a > 0 <==> b > 0)
    ensures q < 0 ==> (a > 0 <==> b < 0)
  {
    var m := Abs(a) / Abs(b);
    EuclidBounds(Abs(a), Abs(b));
    if (a >= 0) == (b > 0) then m else -m
  }

  lemma EuclidBounds(a: nat, b: nat)
    requires b > 0
    ensures 0 <= a / b && (a / b) * b <= a < (a / b + 1) * b
    ensures a / b > 0 ==> a > 0
  {
    var q, r := a / b, a % b;
    assert a == q * b + r && 0 <= r < b;
    if q > 0 {
      assert q * b >= b;
    }
  }

  /** Arduino's `map`: linear re-scaling in `long` arithmetic, C division. */
  function Map(x: int, inMin: int, inMax: int, outMin: int, outMax: int): int
    requires inMin != inMax
  {
    DivT((x - inMin) * (outMax - outMin), inMax - inMin) + outMin
  }

  /** Arduino's `constrain` macro. */
  function Constrain(x: int, lo: int, hi: int): (r: int)
    requires lo <= hi
    ensures lo <= r <= hi
    ensures lo <= x <= hi ==> r == x
  {
    if x < lo then lo else if x > hi then hi else x
  }

  /** Difference of two `unsigned long` time stamps, which wraps modulo 2^32. */
  function Elapsed(now: ULong, since: ULong): (r: ULong)
    ensures since <= now ==> r == now - since
  {
    (now - since) % 0x1_0000_0000
  }

  /** C conversion of a floating value to an integer: truncation toward zero. */
  function Trunc(r: real): (n: int)
    ensures r >= 0.0 ==> 0 <= n && n as real <= r < n as real + 1.0
  {
    if r >= 0.0 then r.Floor else -((-r).Floor)
  }

  /** roundf: the nearest integer, halves rounded away from zero. */
  function Round(r: real): (n: int)
    ensures r >= 0.0 ==> 0 <= n && r - 0.5 < n as real <= r + 0.5
  {
    if r >= 0.0 then (r + 0.5).Floor else -((-r + 0.5).Floor)
  }

  /** Conversion of an integer to an 8-bit `byte` (unsigned char): modulo 256. */
  function ToByte(x: int): (b: int)
    ensures 0 <= b < 256
    ensures 0 <= x < 256 ==> b == x
  {
    x % 256
  }

  lemma MulAbs(a: int, b: int)
    ensures Abs(a * b) == Abs(a) * Abs(b)
  {
    if a < 0 && b < 0 { assert a * b == (-a) * (-b); }
    else if a < 0 { assert a * b == -((-a) * b); }
    else if b < 0 { assert a * b == -(a * (-b)); }
  }

  lemma MulLeftMono(a: nat, b: nat, c: nat)
    requires a <= b
    ensures a * c <= b * c
  {
  }

  /** Cancelling a positive factor from an inequality of products. */
  lemma MulCancel(q: nat, r: nat, s: nat)
    requires r > 0 && q * r <= s * r
    ensures q <= s
  {
    if q > s {
      MulLeftMono(s + 1, q, r);
    }
  }

  lemma MulSigns(a: int, b: int)
    ensures a >= 0 && b >= 0 ==> a * b >= 0
    ensures a <= 0 && b <= 0 ==> a * b >= 0
    ensures a >= 0 && b <= 0 ==> a * b <= 0
    ensures a <= 0 && b >= 0 ==> a * b <= 0
  {
    if a <= 0 && b <= 0 { assert a * b == (-a) * (-b); }
    if a >= 0 && b <= 0 { assert a * b == -(a * (-b)); }
    if a <= 0 && b >= 0 { assert a * b == -((-a) * b); }
  }

  /** Arduino's map sends an input between its two input bounds to a value
      between its two output bounds, whichever way each pair is ordered. */
  lemma MapWithin(x: int, inMin: int, inMax: int, outMin: int, outMax: int)
    requires inMin != inMax
    requires inMin <= x <= inMax || inMax <= x <= inMin
    ensures outMin <= outMax ==> outMin <= Map(x, inMin, inMax, outMin, outMax) <= outMax
    ensures outMax <= outMin ==> outMax <= Map(x, inMin, inMax, outMin, outMax) <= outMin
  {
    var d, run, rise := x - inMin, inMax - inMin, outMax - outMin;
    var n := d * rise;
    var q := DivT(n, run);
    MapQuotient(d, run, rise, n, q);
    MulSigns(d, rise);
    if n == 0 {
      MulCancel(Abs(q), Abs(run), 0);
    }
  }

  /** The quotient inside map is no larger in size than the output span. */
  lemma MapQuotient(d: int, run: int, rise: int, n: int, q: int)
    requires run != 0 && Abs(d) <= Abs(run) && n == d * rise && q == DivT(n, run)
    ensures Abs(q) <= Abs(rise)
  {
    MulAbs(d, rise);
    MulLeftMono(Abs(d), Abs(run), Abs(rise));
    assert Abs(run) * Abs(rise) == Abs(rise) * Abs(run);
    MulCancel(Abs(q), Abs(run), Abs(rise));
  }
}
