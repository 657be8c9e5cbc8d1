/** The available-time arithmetic shared by both `get_total_time`s: the
    minutes from "now" until today's deadline on the Seoul clock (a fixed
    +09:00 offset), as `timedelta.seconds // 60` computes them. Instants are
    integer microseconds since the Unix epoch. */
module Clock {
  import opened Wrappers

  const MicrosPerSecond: int := 1_000_000
  const MicrosPerMinute: int := 60_000_000
  const MicrosPerDay: int := 86_400_000_000
  const MinutesPerDay: int := 1440

  /** The Asia/Seoul offset from UTC, +09:00 (no daylight saving). */
  const SeoulOffset: int := 32_400_000_000

  /** Microseconds since 00:00 on the Seoul clock. */
  function SeoulTimeOfDay(t: int): (r: int)
    ensures 0 <= r < MicrosPerDay
  {
    (t + SeoulOffset) % MicrosPerDay
  }

  /** The instant of 00:00 +09:00 on the Seoul calendar date of `t`. */
  function SeoulMidnight(t: int): (r: int)
    ensures r <= t < r + MicrosPerDay
    ensures SeoulTimeOfDay(r) == 0
  {
    t - SeoulTimeOfDay(t)
  }

  /** The instant that `dateparser(f"{month}-{day} {hour}:{minute}+9")`
      denotes for the Seoul date of `now`; an hour or minute off the clock
      makes the parser raise. */
  function Deadline(hour: int, minute: int, now: int): (r: Result<int>)
    ensures r.Ok? <==> 0 <= hour < 24 && 0 <= minute < 60
    ensures r.Ok? ==> SeoulMidnight(r.value) == SeoulMidnight(now)
    ensures r.Ok? ==> SeoulTimeOfDay(r.value) == (hour * 60 + minute) * MicrosPerMinute
  {
    if 0 <= hour < 24 && 0 <= minute < 60 then
      Ok(SeoulMidnight(now) + (hour * 60 + minute) * MicrosPerMinute)
    else
      Err(ValueError("hour or minute out of range"))
  }

  /** `.seconds` of a `timedelta` of `delta` microseconds: Python normalises
      a timedelta to whole days (rounded down), seconds in 0..86399 and
      microseconds in 0..999999, and `.seconds` is the middle part. */
  function TimedeltaSeconds(delta: int): (s: int)
    ensures 0 <= s < 86400
    ensures delta == (delta / MicrosPerDay) * MicrosPerDay + s * MicrosPerSecond + delta % MicrosPerSecond
  {
    var withinDay := delta % MicrosPerDay;
    assert withinDay == (withinDay / MicrosPerSecond) * MicrosPerSecond + withinDay % MicrosPerSecond;
    assert withinDay % MicrosPerSecond == delta % MicrosPerSecond;
    withinDay / MicrosPerSecond
  }

  /** `available_time = (limit_time - now).seconds // 60`. */
  function AvailableTime(hour: int, minute: int, now: int): (r: Result<int>)
    ensures r.Ok? <==> 0 <= hour < 24 && 0 <= minute < 60
    ensures r.Ok? ==> 0 <= r.value < MinutesPerDay
  {
    var deadline :- Deadline(hour, minute, now);
    Ok(TimedeltaSeconds(deadline - now) / 60)
  }

  /** A deadline still ahead today gives the whole minutes until it; a
      deadline already passed today wraps to the same clock time tomorrow
      rather than going negative. */
  lemma AvailableTimeWraps(hour: int, minute: int, now: int)
    requires 0 <= hour < 24 && 0 <= minute < 60
    ensures var deadline := Deadline(hour, minute, now).value;
            var minutes := AvailableTime(hour, minute, now).value;
            if deadline >= now then minutes == (deadline - now) / MicrosPerSecond / 60
            else minutes == (deadline + MicrosPerDay - now) / MicrosPerSecond / 60
  {
  }

  /** Only the Seoul clock time of `now` matters, not its date: the result
      is the clock distance from now forward to the deadline, modulo a day. */
  lemma AvailableTimeOfClock(hour: int, minute: int, now: int)
    requires 0 <= hour < 24 && 0 <= minute < 60
    ensures AvailableTime(hour, minute, now).value
            == ((hour * 60 + minute) * MicrosPerMinute - SeoulTimeOfDay(now)) % MicrosPerDay / MicrosPerSecond / 60
  {
  }

  /** At 14:00 in Seoul a 15:30 deadline leaves 90 minutes; at 16:00 it
      leaves 1410, the minutes until 15:30 the next day. */
  lemma AvailableTimeExamples(before: int, after: int)
    requires SeoulTimeOfDay(before) == 14 * 60 * MicrosPerMinute
    requires SeoulTimeOfDay(after) == 16 * 60 * MicrosPerMinute
    ensures AvailableTime(15, 30, before) == Ok(90)
    ensures AvailableTime(15, 30, after) == Ok(1410)
  {
  }
}
