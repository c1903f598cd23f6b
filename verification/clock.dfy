/** Elapsed fill time in whole minutes, as the fill states compute it:
    `round((now - start).total_seconds() / 60)` with Python's `round`, which rounds
    halves to the even neighbour. Time is an injected clock in integer seconds. */
module Clock {

  /** Python's `round(seconds / 60)`: the nearest whole minute, ties to even. */
  function MinutesRounded(seconds: int): (m: int)
    ensures 60 * m - 30 <= seconds <= 60 * m + 30
    ensures seconds == 60 * m - 30 || seconds == 60 * m + 30 ==> m % 2 == 0
  {
    var q := seconds / 60;
    var r := seconds % 60;
    if r < 30 then q
    else if r > 30 then q + 1
    else if q % 2 == 0 then q
    else q + 1
  }

  /** The rounded minutes between a fill's start and `now`. */
  function ElapsedMinutes(start: int, now: int): (m: int)
    ensures now >= start ==> m >= 0
    ensures 60 * m - 30 <= now - start <= 60 * m + 30
    ensures now - start == 60 * m - 30 || now - start == 60 * m + 30 ==> m % 2 == 0
  {
    MinutesRounded(now - start)
  }

  /** The two properties of `MinutesRounded`'s contract single out its result: any
      whole number of minutes within half a minute of `seconds`, even on a tie, is it. */
  lemma MinutesRoundedUnique(seconds: int, k: int)
    requires 60 * k - 30 <= seconds <= 60 * k + 30
    requires seconds == 60 * k - 30 || seconds == 60 * k + 30 ==> k % 2 == 0
    ensures k == MinutesRounded(seconds)
  {
  }

  /** A start exactly `k` minutes ago reads as `k` minutes. */
  lemma WholeMinutes(start: int, k: int)
    ensures ElapsedMinutes(start, start + 60 * k) == k
  {
    MinutesRoundedUnique(60 * k, k);
  }
}
