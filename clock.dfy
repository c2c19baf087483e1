/** Time as integer milliseconds, and the fixed shift the processor and the
    worker apply to every timestamp they write and every cutoff they query. */
module Clock {

  const MinuteMs := 60 * 1000

  /** 330 minutes: the offset subtracted from server time before writing. */
  const ShiftMs := 330 * MinuteMs

  /** `getDbTime` (and the identical `getShiftedTime` of the worker): the
      instant 5 h 30 min earlier. */
  function DbTime(t: int): (r: int)
    ensures r < t
  {
    t - ShiftMs
  }

  /** The shift is strictly monotone: comparing shifted instants orders them
      as the unshifted ones. */
  lemma ShiftPreservesOrder(a: int, b: int)
    ensures DbTime(a) <= DbTime(b) <==> a <= b
    ensures DbTime(a) < DbTime(b) <==> a < b
    ensures DbTime(a) == DbTime(b) <==> a == b
  {
  }

  /** A stored shifted stamp compared against a shifted cutoff "now minus
      `mins` minutes" selects exactly the instants at least `mins` minutes old. */
  lemma ShiftedCutoff(stamp: int, now: int, mins: int)
    ensures DbTime(stamp) <= DbTime(now - mins * MinuteMs) <==> now - stamp >= mins * MinuteMs
  {
  }
}
