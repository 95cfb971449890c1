/**
 * Time arithmetic of the laundry tracker. Times are whole seconds on a
 * naive timeline; the wall clock itself is never read here, callers pass
 * their readings in.
 */
module Clock {

  const SecondsPerMinute: int := 60

  /** India Standard Time is UTC plus 5 hours 30 minutes. */
  const IstOffsetSeconds: int := 5 * 3600 + 30 * SecondsPerMinute

  /** Local (IST) time for a UTC reading, as `get_ist_time` computes it. */
  function IstTime(utc: int): (ist: int)
    ensures ist - utc == 19800
  {
    utc + IstOffsetSeconds
  }

  /** `timedelta(minutes = n)` in seconds. */
  function Minutes(n: int): (secs: int)
  {
    n * SecondsPerMinute
  }

  /** The IST times for a sequence of UTC readings, reading by reading. */
  function IstTimes(utcs: seq<int>): (ists: seq<int>)
    ensures |ists| == |utcs|
    ensures forall k :: 0 <= k < |utcs| ==> ists[k] == IstTime(utcs[k])
  {
    seq(|utcs|, k requires 0 <= k < |utcs| => IstTime(utcs[k]))
  }

  /**
   * Whole minutes in a span of seconds, as Python's `int(secs / 60)`:
   * the quotient truncated toward zero, so a negative span rounds up.
   */
  function WholeMinutes(secs: int): (m: int)
    ensures secs >= 0 ==> 0 <= m * 60 <= secs < (m + 1) * 60
    ensures secs < 0 ==> (m - 1) * 60 < secs <= m * 60 <= 0
  {
    if secs >= 0 then secs / SecondsPerMinute
    else -((-secs) / SecondsPerMinute)
  }

  /** Adding whole minutes to a span adds exactly that many whole minutes. */
  lemma WholeMinutesShift(secs: int, n: nat)
    requires secs >= 0
    ensures WholeMinutes(secs + Minutes(n)) == WholeMinutes(secs) + n
  {
  }
}
