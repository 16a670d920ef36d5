/** Go's time.Time and time.Duration as whole nanoseconds. */
module Clock {

  /** Nanoseconds since Go's zero time, midnight of 1 January of year 1 UTC.
      Zero is the zero Time, which the program reads as "not stamped". */
  type Time = nat

  const SECOND: nat := 1_000_000_000

  /** Seconds between Go's zero time and the Unix epoch. */
  const UNIX_EPOCH: nat := 62_135_596_800

  predicate IsZero(t: Time) { t == 0 }

  /** time.Time.Unix: whole seconds since the Unix epoch, rounded down. */
  function Unix(t: Time): int { t / SECOND - UNIX_EPOCH }

  /** The last whole second since the epoch, which lies 719162 days after the zero time. */
  lemma UnixIsTheLastWholeSecond(t: Time)
    ensures var since := t - 719_162 * 86_400 * 1_000_000_000; Unix(t) * 1_000_000_000 <= since < (Unix(t) + 1) * 1_000_000_000
  {
  }

  /** time.Duration.Seconds. */
  function Seconds(d: int): real { d as real / SECOND as real }

  /** math.Round on a non-negative operand: to the nearest integer, halves up. */
  function Round(x: real): int { (x + 0.5).Floor }

  /** The earlier of two readings, a zero ts meaning "unknown". */
  function Earliest(cur: Time, ts: Time): Time {
    if !IsZero(ts) && (IsZero(cur) || ts < cur) then ts else cur
  }

  /** The later of two readings, a zero ts meaning "unknown". */
  function Latest(cur: Time, ts: Time): Time {
    if !IsZero(ts) && cur < ts then ts else cur
  }
}
