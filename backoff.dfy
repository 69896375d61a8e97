/** Durations and the retry delay arithmetic of the forwarding worker.
    A duration is Go's `time.Duration`: a signed 64-bit count of nanoseconds. */
module Backoff {

  /** A signed 64-bit nanosecond count. Every arithmetic result of this type is
      checked to stay in range, so an overflow of `lastDuration *= 3` would be
      a verification error. */
  newtype Duration = d: int | -0x8000_0000_0000_0000 <= d <= 0x7fff_ffff_ffff_ffff

  const Second: Duration := 1_000_000_000
  const Minute: Duration := 60 * Second

  /** The cap on the wait before a send (`maxDuration`). */
  const MaxDuration: Duration := 15 * Minute

  /** The cap in whole seconds. */
  const CapSeconds: nat := 900

  lemma CapInSeconds()
    ensures MaxDuration == CapSeconds as Duration * Second
  {
  }

  /** The sleep of an iteration that finds the queue empty. */
  const IdlePoll: Duration := 5 * Second

  /** `min(lastDuration, maxDuration)`. */
  function Clamp(d: Duration): (r: Duration)
    ensures r <= d && r <= MaxDuration
    ensures r == d || r == MaxDuration
  {
    if d <= MaxDuration then d else MaxDuration
  }

  /** The new delay after a failed attempt that waited `d`: one second after a
      wait of zero, otherwise `d` multiplied by the failure's factor (2 for a
      transport error, 3 for a non-200 status). */
  function Grow(d: Duration, factor: Duration): (r: Duration)
    requires 0 <= d <= MaxDuration
    requires factor == 2 || factor == 3
    ensures d < r <= factor * MaxDuration
    ensures d == 0 ==> r == Second
  {
    if d == 0 then Second else d * factor
  }

  function Pow(b: nat, k: nat): (r: nat)
    ensures b >= 1 ==> r >= 1
  {
    if k == 0 then 1 else b * Pow(b, k - 1)
  }

  /** The wait before attempt k + 1 when the k attempts before it all failed
      with the same factor and the delay started at zero: nothing before the
      first attempt, then factor^(k-1) seconds, never more than the cap. */
  function Schedule(factor: nat, k: nat): (r: Duration)
    requires factor >= 1
    ensures 0 <= r <= MaxDuration
    ensures k == 0 <==> r == 0
  {
    if k == 0 then 0
    else if Pow(factor, k - 1) <= CapSeconds then Pow(factor, k - 1) as Duration * Second
    else MaxDuration
  }
}
