/** Shared building blocks: optional values, results, and the machine arithmetic
    that the runtime relies on (saturating float-to-integer casts, wrapping narrowing
    casts, the truncated remainder).  Floating-point numbers are idealised as reals. */
module Machine {

  datatype Option<+T> = None | Some(value: T)

  datatype Result<+T, +E> = Ok(value: T) | Err(error: E) {
    predicate IsFailure() {
      Err?
    }

    function PropagateFailure<U>(): Result<U, E>
      requires Err?
    {
      Err(error)
    }

    function Extract(): T
      requires Ok?
    {
      value
    }
  }

  const I64_MIN: int := -0x8000_0000_0000_0000
  const I64_MAX: int := 0x7FFF_FFFF_FFFF_FFFF
  const U64_MAX: int := 0xFFFF_FFFF_FFFF_FFFF

  type i16 = x: int | -0x8000 <= x < 0x8000
  type i32 = x: int | -0x8000_0000 <= x < 0x8000_0000
  type i64 = x: int | I64_MIN <= x <= I64_MAX
  type u16 = x: int | 0 <= x < 0x1_0000
  type u32 = x: int | 0 <= x < 0x1_0000_0000
  type u64 = x: int | 0 <= x <= U64_MAX

  /** The double-precision machine epsilon, 2^-52. */
  const EPSILON: real := 1.0 / 4503599627370496.0

  predicate FitsI64(x: int) {
    I64_MIN <= x <= I64_MAX
  }

  /** Whether integer overflow panics, as in a debug build, or wraps around, as in a release build.  The choice is
      left open: every result holds for both. */
  const OVERFLOW_CHECKS: bool

  /** An integer reduced to 64 bits, read as two's complement. */
  function LowI64(x: int): (y: i64)
    ensures (x - y) % 0x1_0000_0000_0000_0000 == 0
    ensures FitsI64(x) ==> y == x
  {
    (x + 0x8000_0000_0000_0000) % 0x1_0000_0000_0000_0000 - 0x8000_0000_0000_0000
  }

  /** 64-bit addition; None is a panic. */
  function AddI64(a: i64, b: i64): (sum: Option<i64>)
    ensures FitsI64(a + b) ==> sum == Some(a + b)
    ensures sum.None? <==> OVERFLOW_CHECKS && !FitsI64(a + b)
  {
    if FitsI64(a + b) || !OVERFLOW_CHECKS then Some(LowI64(a + b)) else None
  }

  /** Rounding toward zero. */
  function Truncate(r: real): (i: int)
    ensures r >= 0.0 ==> 0 <= i && i as real <= r < (i + 1) as real
    ensures r < 0.0 ==> i <= 0 && (i - 1) as real < r <= i as real
  {
    if r >= 0.0 then r.Floor else -((-r).Floor)
  }

  function Clamp(x: int, low: int, high: int): (y: int)
    requires low <= high
    ensures low <= y <= high
    ensures low <= x <= high ==> y == x
    ensures x < low ==> y == low
    ensures x > high ==> y == high
  {
    if x < low then low else if x > high then high else x
  }

  /** A float cast to a 64-bit signed integer: truncates, then saturates. */
  function ToI64(r: real): i64 {
    Clamp(Truncate(r), I64_MIN, I64_MAX)
  }

  /** A float cast to a 64-bit unsigned integer: truncates, then saturates. */
  function ToU64(r: real): u64 {
    Clamp(Truncate(r), 0, U64_MAX)
  }

  /** An integer narrowed to 32 bits keeps its low 32 bits, read as two's complement. */
  function LowI32(x: int): (y: i32)
    ensures (x - y) % 0x1_0000_0000 == 0
    ensures -0x8000_0000 <= x < 0x8000_0000 ==> y == x
  {
    (x + 0x8000_0000) % 0x1_0000_0000 - 0x8000_0000
  }

  /** An integer narrowed to 16 bits keeps its low 16 bits, read as two's complement. */
  function LowI16(x: int): (y: i16)
    ensures (x - y) % 0x1_0000 == 0
    ensures -0x8000 <= x < 0x8000 ==> y == x
  {
    (x + 0x8000) % 0x1_0000 - 0x8000
  }

  function SaturatingAdd(a: u64, b: u64): (c: u64) {
    Clamp(a + b, 0, U64_MAX)
  }

  function Abs(x: real): real {
    if x < 0.0 then -x else x
  }

  function Magnitude(b: int): nat {
    if b < 0 then -b else b
  }

  /** The remainder of a division that truncates toward zero. */
  function TruncatedRemainder(a: int, b: int): int
    requires b != 0
  {
    if a >= 0 then a % Magnitude(b) else -((-a) % Magnitude(b))
  }

  /** It is smaller than the divisor, takes the sign of the dividend, and leaves a multiple of the divisor. */
  lemma TruncatedRemainderSpec(a: int, b: int) returns (q: int)
    requires b != 0
    ensures a == q * b + TruncatedRemainder(a, b)
    ensures Magnitude(TruncatedRemainder(a, b)) < Magnitude(b)
    ensures a >= 0 ==> TruncatedRemainder(a, b) >= 0
    ensures a <= 0 ==> TruncatedRemainder(a, b) <= 0
  {
    if a >= 0 {
      q := SignedQuotient(a, b);
    } else {
      q := SignedQuotient(-a, b);
      q := -q;
    }
  }

  lemma SignedQuotient(a: nat, b: int) returns (q: int)
    requires b != 0
    ensures a == q * b + a % Magnitude(b) && 0 <= a % Magnitude(b) < Magnitude(b)
  {
    var m := Magnitude(b);
    q := if b < 0 then -(a / m) else a / m;
  }

  /** Division by a positive number, as a Galois connection. */
  lemma QuotientSpec(i: nat, d: nat, m: nat)
    requires m > 0
    ensures i * m <= d <==> i <= d / m
  {
    var q := d / m;
    if i <= q {
      assert i * m <= q * m <= d;
    } else {
      assert i * m >= (q + 1) * m > d;
    }
  }

  function UpperChar(c: char): char {
    if 'a' <= c <= 'z' then c - 'a' + 'A' else c
  }

  /** ASCII upper-casing of a string. */
  function Upper(s: string): (u: string)
    ensures |u| == |s|
    ensures forall i :: 0 <= i < |s| ==> u[i] == UpperChar(s[i])
  {
    seq(|s|, i requires 0 <= i < |s| => UpperChar(s[i]))
  }
}
