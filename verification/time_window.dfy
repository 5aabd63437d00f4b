/** The reporting window shared by the repair statistics and the dashboard: a
    start instant chosen by range, and a "previous period" of equal length
    ending where the current window starts (a symmetric look-back, not the
    previous calendar period). */
module TimeWindow {

  datatype Range = Today | Week | Month

  const HourMs: int := 60 * 60 * 1000
  const DayMs: int := 24 * HourMs
  const WeekMs: int := 7 * DayMs

  /** The current instant together with the two calendar facts about it that
      depend on the local time zone: local midnight of today and local
      midnight of the first day of this month. */
  datatype Clock = Clock(now: int, todayStart: int, monthStart: int)

  /** The window start: local midnight, seven days ago, or the first of the month. */
  function Start(range: Range, clock: Clock): int
  {
    match range
    case Today => clock.todayStart
    case Week => clock.now - WeekMs
    case Month => clock.monthStart
  }

  /** The start of the comparison period, as far before `Start` as `Start` is before now. */
  function PreviousStart(range: Range, clock: Clock): int
  {
    var start := Start(range, clock);
    start - (clock.now - start)
  }

  /** A creation instant in the current window: no upper bound. */
  predicate InCurrent(range: Range, clock: Clock, t: int)
  {
    t >= Start(range, clock)
  }

  /** A creation instant in the comparison window: half-open, ending at the window start. */
  predicate InPrevious(range: Range, clock: Clock, t: int)
  {
    PreviousStart(range, clock) <= t < Start(range, clock)
  }

  /** No instant is in both windows. */
  lemma WindowsDisjoint(range: Range, clock: Clock, t: int)
    ensures !(InCurrent(range, clock, t) && InPrevious(range, clock, t))
  {
  }

  /** The week window starts exactly seven days before now, and when the window
      start is not in the future the comparison window lies before it. */
  lemma WindowShape(range: Range, clock: Clock)
    ensures range == Week ==> Start(range, clock) == clock.now - 604800000
    ensures Start(range, clock) <= clock.now ==> PreviousStart(range, clock) <= Start(range, clock)
  {
  }
}
