/** Small shared vocabulary: Kotlin's nullable values, caught exceptions and
    32-bit `Int` arithmetic, written out explicitly. */
module Common {

  /** A Kotlin nullable value: `None` stands for `null`. */
  datatype Option<+T> = None | Some(value: T) {
    /** Kotlin's `?: default`. */
    function GetOr(default: T): T {
      match this
      case Some(v) => v
      case None => default
    }
  }

  /** The outcome of a call that may throw: `Failure` carries the exception's
      `message`, which Kotlin allows to be `null`. */
  datatype Result<+T> = Success(value: T) | Failure(message: Option<string>)

  const MinInt32: int := -0x8000_0000
  const MaxInt32: int := 0x7fff_ffff

  /** Kotlin's `Int`. */
  type int32 = x: int | MinInt32 <= x <= MaxInt32

  /** Two's-complement wrap-around of an unbounded integer into `Int`. */
  function Wrap32(x: int): (r: int32)
    ensures MinInt32 <= x <= MaxInt32 ==> r == x
    ensures (r - x) % 0x1_0000_0000 == 0
  {
    (x - MinInt32) % 0x1_0000_0000 + MinInt32
  }

  /** Kotlin's `%` on `Int` for a positive divisor: the remainder takes the sign
      of the dividend (truncated division), unlike Dafny's Euclidean `%`. */
  function Rem(a: int32, b: int32): (r: int32)
    requires b > 0
    ensures a >= 0 ==> 0 <= r < b
    ensures a < 0 ==> -b < r <= 0
    ensures 0 <= a < b ==> r == a
    ensures a == b ==> r == 0
    ensures (a - r) % b == 0
  {
    ModFacts(a, b);
    ModCongruent(a, b);
    if a >= 0 || a % b == 0 then a % b else a % b - b
  }

  /** A multiple of a positive `b` leaves no remainder. */
  lemma MulModZero(q: int, b: int)
    requires b > 0
    ensures (q * b) % b == 0
  {
    var x := q * b;
    assert x == b * (x / b) + x % b;
    assert b * (q - x / b) == x % b;
    MultipleInRange(b, q - x / b);
  }

  /** The only multiple of `b` in `[0, b)` is `0`. */
  lemma MultipleInRange(b: int, k: int)
    requires b > 0 && 0 <= b * k < b
    ensures k == 0
  {
  }

  /** Both candidates `Rem` picks from differ from `a` by a multiple of `b`. */
  lemma ModCongruent(a: int, b: int)
    requires b > 0
    ensures (a - a % b) % b == 0
    ensures (a - (a % b - b)) % b == 0
  {
    assert a - a % b == (a / b) * b;
    MulModZero(a / b, b);
    assert a - (a % b - b) == (a / b + 1) * b;
    MulModZero(a / b + 1, b);
  }

  /** The facts about Dafny's `%` that `Rem` relies on. */
  lemma ModFacts(a: int, b: int)
    requires b > 0
    ensures 0 <= a % b < b
    ensures 0 <= a < b ==> a % b == a
    ensures a == b ==> a % b == 0
  {
    if 0 <= a < b { ModOfSmall(a, b); }
    if a == b { ModOfSelf(b); }
  }

  lemma ModOfSmall(a: int, b: int)
    requires 0 <= a < b
    ensures a % b == a
  {
  }

  lemma ModOfSelf(b: int)
    requires b > 0
    ensures b % b == 0
  {
  }
}
