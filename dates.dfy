/** The two due-date predicates of src/utils/dateUtils.js. Both compare raw
    time values against the clock reading `now` (milliseconds); neither looks
    at calendar days. */
module Dates {
  import opened Js

  const DayMs: int := 24 * 60 * 60 * 1000
  /** `setDate(getDate() + 7)` taken as a fixed offset (local-time and DST shifts are not modelled). */
  const WeekMs: int := 7 * DayMs

  /** `new Date(date) <= nextWeek`: no lower bound, so every past date qualifies. */
  predicate IsWithinNextWeek(date: Value, now: int)
    ensures IsWithinNextWeek(date, now) ==> ToTime(date).Some?
  {
    var t := ToTime(date);
    t.Some? && t.value <= now + WeekMs
  }

  /** `new Date(date) < new Date()`: strictly before the clock reading. */
  predicate IsOverdue(date: Value, now: int)
    ensures IsOverdue(date, now) ==> IsWithinNextWeek(date, now)
  {
    var t := ToTime(date);
    t.Some? && t.value < now
  }

  /** A date in the past, however far back, is within the next week. */
  lemma PastIsWithinNextWeek(ms: int, now: int)
    requires ms <= now
    ensures IsWithinNextWeek(DateText(ms), now)
  {
  }

  /** The boundaries: `now` itself is due within the week but not overdue, and
      so is `now + 7 days`; one millisecond later is neither. */
  lemma Boundaries(now: int)
    ensures !IsOverdue(DateText(now), now) && IsWithinNextWeek(DateText(now), now)
    ensures IsWithinNextWeek(DateText(now + WeekMs), now)
    ensures !IsWithinNextWeek(DateText(now + WeekMs + 1), now)
    ensures IsOverdue(DateText(now - 1), now)
  {
  }

  /** An absent or unparsable date is neither due soon nor overdue, while
      `null` converts to the epoch and counts as a date of 1 January 1970. */
  lemma AbsentAndNullDates(s: string, now: int)
    ensures !IsWithinNextWeek(Undefined, now) && !IsOverdue(Undefined, now)
    ensures !IsWithinNextWeek(Str(s), now) && !IsOverdue(Str(s), now)
    ensures IsOverdue(Null, now) <==> 0 < now
    ensures IsWithinNextWeek(Null, now) <==> -WeekMs <= now
  {
  }
}
