/**
  Instants as the handlers turn them into the `after` cursor of the
  recently-played request: `int(ts.timestamp())`, whole seconds since the
  Unix epoch.
*/
module Clock {

  /** One second, in the microseconds instants are counted in. */
  const Second := 1000000

  /** `int(ts.timestamp())` for an instant `w` in microseconds: whole
      seconds since the epoch, truncated toward zero. */
  function UnixSeconds(w: int): (s: int)
    ensures w >= 0 ==> 0 <= s * Second <= w < (s + 1) * Second
    ensures w < 0 ==> (s - 1) * Second < w <= s * Second <= 0
  {
    if w >= 0 then w / Second else -((-w) / Second)
  }

  /** A later instant never gives an earlier cursor. */
  lemma UnixSecondsMonotonic(w1: int, w2: int)
    requires w1 <= w2
    ensures UnixSeconds(w1) <= UnixSeconds(w2)
  {
    var s1, s2 := UnixSeconds(w1), UnixSeconds(w2);
    assert s1 * Second <= w1 < (s1 + 1) * Second || (s1 - 1) * Second < w1 <= s1 * Second;
    assert s2 * Second <= w2 < (s2 + 1) * Second || (s2 - 1) * Second < w2 <= s2 * Second;
  }

  /** Whole seconds are kept exactly. */
  lemma UnixSecondsOfWhole(s: int)
    ensures UnixSeconds(s * Second) == s
  {
    var r := UnixSeconds(s * Second);
    if s >= 0 {
      assert r * Second <= s * Second < (r + 1) * Second;
    } else {
      assert (r - 1) * Second < s * Second <= r * Second;
    }
  }
}
