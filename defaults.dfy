/**
 * The defaults and limits table of the Pomodoro timer configuration
 * (backend/src/constants/pomodoroConfig/pomodoroConfigDefaults.ts).
 * Every other module reads its constants from here.
 */
module PomodoroConfigDefaults {

  // POMODORO_CONFIG_DEFAULTS
  const WORK_DURATION: int := 25
  const SHORT_BREAK_DURATION: int := 5
  const LONG_BREAK_DURATION: int := 15
  const CYCLES_BEFORE_LONG_BREAK: int := 4
  const ADVANCED_CONFIG_ACTIVE: bool := false

  // POMODORO_CONFIG_LIMITS
  const WORK_DURATION_MIN: int := 1
  const WORK_DURATION_MAX: int := 60
  const SHORT_BREAK_MIN: int := 1
  const SHORT_BREAK_MAX: int := 10
  const LONG_BREAK_MIN: int := 15
  const LONG_BREAK_MAX: int := 30
  const CYCLES_MIN: int := 2
  const CYCLES_MAX: int := 8

  /** The four numeric fields of a configuration. */
  datatype Field = WorkDuration | ShortBreakDuration | LongBreakDuration | CyclesBeforeLongBreak

  /** An inclusive range of accepted values. */
  datatype Bounds = Bounds(min: int, max: int)

  /** The limits of a numeric field; every range is non-empty. */
  function Limits(f: Field): (b: Bounds)
    ensures b.min <= b.max
    ensures 1 <= b.min
  {
    match f
    case WorkDuration => Bounds(WORK_DURATION_MIN, WORK_DURATION_MAX)
    case ShortBreakDuration => Bounds(SHORT_BREAK_MIN, SHORT_BREAK_MAX)
    case LongBreakDuration => Bounds(LONG_BREAK_MIN, LONG_BREAK_MAX)
    case CyclesBeforeLongBreak => Bounds(CYCLES_MIN, CYCLES_MAX)
  }

  /** The default of a numeric field; it always lies within the field's limits. */
  function Default(f: Field): (d: int)
    ensures Limits(f).min <= d <= Limits(f).max
  {
    match f
    case WorkDuration => WORK_DURATION
    case ShortBreakDuration => SHORT_BREAK_DURATION
    case LongBreakDuration => LONG_BREAK_DURATION
    case CyclesBeforeLongBreak => CYCLES_BEFORE_LONG_BREAK
  }

  predicate InLimits(f: Field, x: int) {
    Limits(f).min <= x <= Limits(f).max
  }

  /** The table holds the traditional Pomodoro values. */
  lemma TableValues()
    ensures Default(WorkDuration) == 25 && Default(ShortBreakDuration) == 5
    ensures Default(LongBreakDuration) == 15 && Default(CyclesBeforeLongBreak) == 4
    ensures !ADVANCED_CONFIG_ACTIVE
    ensures Limits(WorkDuration) == Bounds(1, 60) && Limits(ShortBreakDuration) == Bounds(1, 10)
    ensures Limits(LongBreakDuration) == Bounds(15, 30) && Limits(CyclesBeforeLongBreak) == Bounds(2, 8)
  {
  }

  /** The default long break exceeds the default short break, so the default
      configuration satisfies the cross-field rule. */
  lemma DefaultsKeepLongAboveShort()
    ensures Default(LongBreakDuration) > Default(ShortBreakDuration)
  {
  }

  /** Any in-range short break is below any in-range long break: the short
      break's maximum lies under the long break's minimum. */
  lemma RangesSeparateBreaks(short: int, long: int)
    requires InLimits(ShortBreakDuration, short) && InLimits(LongBreakDuration, long)
    ensures long > short
  {
  }
}
