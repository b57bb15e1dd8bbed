/** Quiet hours of the follow-up tool: 22:00 to 08:00 on the wall clock of the trigger
  * time, which is a number of microseconds since some midnight. */
module QuietHours {
  import opened Basics

  const HOUR: int := 3_600_000_000
  const DAY: int := 24 * HOUR
  const QUIET_START: int := 22
  const QUIET_END: int := 8

  function HourOf(t: int): (h: int)
    ensures 0 <= h < 24
  {
    (t % DAY) / HOUR
  }

  function Midnight(t: int): int {
    t - t % DAY
  }

  predicate IsQuiet(t: int) {
    if QUIET_START > QUIET_END then HourOf(t) >= QUIET_START || HourOf(t) < QUIET_END
    else QUIET_START <= HourOf(t) < QUIET_END
  }

  /** _next_non_quiet_time: 08:00 of the same day, or of the next if that has passed. */
  function NextNonQuiet(t: int): int {
    if !IsQuiet(t) then t
    else
      var candidate := Midnight(t) + QUIET_END * HOUR;
      if candidate <= t then candidate + DAY else candidate
  }

  lemma SameDay(t: int, u: int)
    requires Midnight(t) <= u < Midnight(t) + DAY
    ensures u % DAY == u - Midnight(t)
  {
    var q := t / DAY;
    assert Midnight(t) == q * DAY;
  }

  lemma NextDay(t: int, u: int)
    requires Midnight(t) + DAY <= u < Midnight(t) + 2 * DAY
    ensures u % DAY == u - Midnight(t) - DAY
  {
    var q := t / DAY;
    assert Midnight(t) == q * DAY;
  }

  /** The adjusted time is the earliest instant, not before the given one, outside quiet
    * hours; it is at most ten hours later. */
  lemma NextNonQuietIsEarliest(t: int)
    ensures t <= NextNonQuiet(t) <= t + 10 * HOUR
    ensures !IsQuiet(NextNonQuiet(t))
    ensures forall u :: t <= u < NextNonQuiet(t) ==> IsQuiet(u)
  {
    var m, n := Midnight(t), NextNonQuiet(t);
    if IsQuiet(t) {
      if n < m + DAY {
        SameDay(t, n);
      } else {
        NextDay(t, n);
      }
      forall u | t <= u < n
        ensures IsQuiet(u)
      {
        if u < m + DAY {
          SameDay(t, u);
        } else {
          NextDay(t, u);
        }
      }
    }
  }

  /** Adjusting twice is adjusting once, and never reorders two triggers. */
  lemma NextNonQuietIsMonotone(t: int, u: int)
    requires t <= u
    ensures NextNonQuiet(NextNonQuiet(t)) == NextNonQuiet(t)
    ensures NextNonQuiet(t) <= NextNonQuiet(u)
  {
    NextNonQuietIsEarliest(t);
    NextNonQuietIsEarliest(u);
  }

  /** How build_followup_schedule_payload arrives at trigger_at. */
  datatype Request = At(t: int) | Malformed | After(delay: int)

  function Trigger(now: int, r: Request): int {
    match r
    case At(t) => NextNonQuiet(t)
    case Malformed => NextNonQuiet(now + HOUR)
    case After(delay) => NextNonQuiet(now + Max(0, delay))
  }

  /** Quiet is from 22:00 to 08:00 of every day, in microseconds. */
  lemma QuietExactly(t: int)
    ensures IsQuiet(t) <==> t % 86_400_000_000 >= 79_200_000_000 || t % 86_400_000_000 < 28_800_000_000
  {
  }

  /** A follow-up triggers at the first instant outside quiet hours from the time asked for: an
    * explicit time, an hour from now if that cannot be read, or the delay from now, none if it
    * is negative. */
  lemma TriggerIsAwake(now: int, r: Request)
    ensures var base := match r
                        case At(t) => t
                        case Malformed => now + 3_600_000_000
                        case After(delay) => if delay > 0 then now + delay else now;
            && base <= Trigger(now, r) <= base + 36_000_000_000 && !IsQuiet(Trigger(now, r))
            && forall u :: base <= u < Trigger(now, r) ==> IsQuiet(u)
  {
    match r
    case At(t) => NextNonQuietIsEarliest(t);
    case Malformed => NextNonQuietIsEarliest(now + HOUR);
    case After(delay) => NextNonQuietIsEarliest(now + Max(0, delay));
  }
}
