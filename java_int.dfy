/** Java `int` arithmetic used by the shard pool to pick a lane:
    `Math.abs` with its wrap-around at `Integer.MIN_VALUE`, and `%`,
    which truncates toward zero. */
module JavaInt {

  const MIN_VALUE: int := -0x8000_0000
  const MAX_VALUE: int := 0x7fff_ffff

  newtype Int32 = x: int | -0x8000_0000 <= x < 0x8000_0000

  /** The number of single-thread executors in the shard pool (`_esArray.length`). */
  const LANE_COUNT: Int32 := 8

  /** Mathematical absolute value, used to state what the Java operators mean. */
  function Magnitude(x: int): (m: nat)
    ensures m == x || m == -x
  {
    if x < 0 then -x else x
  }

  /** `Math.abs(int)`: the negation of `MIN_VALUE` overflows back to `MIN_VALUE`. */
  function Abs(x: Int32): (r: Int32)
    ensures x as int != MIN_VALUE ==> r as int == Magnitude(x as int)
    ensures x as int == MIN_VALUE ==> r == x
    ensures r < 0 <==> x as int == MIN_VALUE
  {
    if x >= 0 then x
    else if x as int == MIN_VALUE then x
    else -x
  }

  /** Java's `a % n` for a positive divisor: the remainder of truncating
      division, which takes the sign of the dividend and is smaller than the
      divisor in magnitude. */
  function Rem(a: Int32, n: Int32): (r: Int32)
    requires n > 0
    ensures Magnitude(r as int) < n as int
    ensures a >= 0 ==> r >= 0
    ensures a < 0 ==> r <= 0
    ensures Magnitude(r as int) == Magnitude(a as int) % n as int
  {
    var m := Magnitude(a as int) % n as int;
    if a >= 0 then m as Int32 else (-m) as Int32
  }

  /** The lane index `Math.abs(bindId) % _esArray.length`. */
  function EsIndex(bindId: Int32): (i: Int32)
    ensures 0 <= i < LANE_COUNT
    ensures i as int == Magnitude(bindId as int) % LANE_COUNT as int
  {
    Rem(Abs(bindId), LANE_COUNT)
  }

  /** `Integer.MIN_VALUE` is the one id whose absolute value is negative, yet
      its remainder by 8 is 0, so it still lands on lane 0. */
  lemma MinValueLandsOnLaneZero()
    ensures Abs(MIN_VALUE as Int32) < 0
    ensures EsIndex(MIN_VALUE as Int32) == 0
  {
  }

  /** Ids whose magnitudes agree modulo 8 share a lane: for non-negative ids,
      congruence modulo 8; an id and its negation always share one. */
  lemma CongruentIdsShareLane(x: Int32, y: Int32)
    requires Magnitude(x as int) % 8 == Magnitude(y as int) % 8
    ensures EsIndex(x) == EsIndex(y)
  {
  }

  /** A negative id does not share the lane of the non-negative ids congruent
      to it modulo 8: -3 goes to lane 3, while 5 (which is -3 plus 8) goes to lane 5. */
  lemma NegativeIdsAreNotReducedModulo()
    ensures EsIndex(-3) == 3 && EsIndex(5) == 5
  {
  }
}
