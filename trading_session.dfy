/**
 * The trading-session classifier: a time of day falls into session 1 (before 15:00),
 * session 2 (from 15:00 up to but not including 17:00) or session 3 (from 17:00 on).
 */
module TradingSession {

  /** A local time of day with microsecond resolution, as Python's `datetime.time`. */
  datatype Time = Time(hour: int, minute: int, second: int, microsecond: int) {
    predicate Valid() {
      0 <= hour < 24 && 0 <= minute < 60 && 0 <= second < 60 && 0 <= microsecond < 1000000
    }
  }

  /** The session codes stored in `post.session` and used in the `session_<n>` tag. */
  type SessionCode = n: int | 1 <= n <= 3 witness 1

  const AfternoonOpen := Time(15, 0, 0, 0)
  const AfternoonClose := Time(17, 0, 0, 0)

  /** `a < b` on `datetime.time`: fields are compared in order, hour first. */
  predicate Before(a: Time, b: Time) {
    a.hour < b.hour
    || (a.hour == b.hour && a.minute < b.minute)
    || (a.hour == b.hour && a.minute == b.minute && a.second < b.second)
    || (a.hour == b.hour && a.minute == b.minute && a.second == b.second && a.microsecond < b.microsecond)
  }

  /** Microseconds elapsed since midnight: an independent clock reading of the same time. */
  function MicrosOfDay(t: Time): int {
    ((t.hour * 60 + t.minute) * 60 + t.second) * 1000000 + t.microsecond
  }

  /** Field-by-field comparison agrees with comparing the elapsed time since midnight. */
  lemma BeforeIsEarlier(a: Time, b: Time)
    requires a.Valid() && b.Valid()
    ensures Before(a, b) <==> MicrosOfDay(a) < MicrosOfDay(b)
  {
  }

  /** `get_trading_session(dt)`, on the time of day of `dt`. */
  function Session(t: Time): (r: SessionCode)
    requires t.Valid()
    ensures r == 1 <==> MicrosOfDay(t) < MicrosOfDay(AfternoonOpen)
    ensures r == 2 <==> MicrosOfDay(AfternoonOpen) <= MicrosOfDay(t) < MicrosOfDay(AfternoonClose)
    ensures r == 3 <==> MicrosOfDay(AfternoonClose) <= MicrosOfDay(t)
  {
    BeforeIsEarlier(t, AfternoonOpen);
    BeforeIsEarlier(t, AfternoonClose);
    if Before(t, AfternoonOpen) then 1
    else if !Before(t, AfternoonOpen) && Before(t, AfternoonClose) then 2
    else 3
  }

  /** Later times never fall into an earlier session. */
  lemma SessionMonotonic(a: Time, b: Time)
    requires a.Valid() && b.Valid()
    requires MicrosOfDay(a) <= MicrosOfDay(b)
    ensures Session(a) <= Session(b)
  {
  }

  /** The half-open boundaries: 15:00:00 opens session 2 and 17:00:00 opens session 3. */
  lemma SessionBoundaries()
    ensures Session(Time(14, 59, 59, 999999)) == 1
    ensures Session(Time(15, 0, 0, 0)) == 2
    ensures Session(Time(16, 59, 59, 999999)) == 2
    ensures Session(Time(17, 0, 0, 0)) == 3
  {
  }
}
