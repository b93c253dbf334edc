/** The coarse speed presets and their wheel-speed magnitudes. */
module SpeedLevels {

  datatype SpeedLevel = LEVEL_ONE | LEVEL_TWO | LEVEL_THREE | LEVEL_FOUR

  /** Position of a level in declaration order (Java's `ordinal()`). */
  function Ordinal(level: SpeedLevel): (n: nat)
    ensures n < 4
    ensures n == 0 <==> level == LEVEL_ONE
    ensures n == 1 <==> level == LEVEL_TWO
    ensures n == 2 <==> level == LEVEL_THREE
    ensures n == 3 <==> level == LEVEL_FOUR
  {
    match level
    case LEVEL_ONE => 0
    case LEVEL_TWO => 1
    case LEVEL_THREE => 2
    case LEVEL_FOUR => 3
  }

  /** Distinct levels have distinct positions. */
  lemma OrdinalInjective(a: SpeedLevel, b: SpeedLevel)
    requires Ordinal(a) == Ordinal(b)
    ensures a == b
  {
  }

  /** The speed of a level. Every level is matched, so the fall-through
      `0` of the Java method never applies and the speed is always positive;
      the constants are whole numbers, so `int` loses nothing. */
  function GetSpeed(level: SpeedLevel): (speed: int)
    ensures 200 <= speed <= 1800
    ensures speed % 200 == 0
  {
    match level
    case LEVEL_ONE => 200
    case LEVEL_TWO => 600
    case LEVEL_THREE => 1200
    case LEVEL_FOUR => 1800
  }

  lemma SpeedTable()
    ensures GetSpeed(LEVEL_ONE) == 200 && GetSpeed(LEVEL_TWO) == 600
    ensures GetSpeed(LEVEL_THREE) == 1200 && GetSpeed(LEVEL_FOUR) == 1800
  {
  }

  /** The speed strictly increases with declaration order, in both
      directions: a later level is faster, and a faster level is later. */
  lemma SpeedStrictlyIncreasing(a: SpeedLevel, b: SpeedLevel)
    ensures Ordinal(a) < Ordinal(b) <==> GetSpeed(a) < GetSpeed(b)
  {
  }

  /** Distinct levels have distinct speeds. */
  lemma SpeedInjective(a: SpeedLevel, b: SpeedLevel)
    requires GetSpeed(a) == GetSpeed(b)
    ensures a == b
  {
  }
}
