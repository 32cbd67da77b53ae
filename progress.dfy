/** The arithmetic of the progress display (`showProgress`, main.js:435-442). */
module Progress {

  /** How long a full wash takes, in milliseconds. */
  const WashDurationMs: int := 20000

  function Min(a: real, b: real): real { if a <= b then a else b }
  function Max(a: real, b: real): real { if a >= b then a else b }

  /** `Math.min(100, (elapsed / total) * 100)`. */
  function PercentComplete(elapsed: int, total: int): (pct: real)
    requires total > 0
    ensures pct <= 100.0
    ensures elapsed >= 0 ==> pct >= 0.0
    ensures pct == 100.0 <==> elapsed >= total
    ensures elapsed <= total ==> pct * total as real == elapsed as real * 100.0
  {
    Min(100.0, (elapsed as real / total as real) * 100.0)
  }

  /** `Math.max(0, (total - elapsed) / 1000)`, in seconds. */
  function SecondsRemaining(elapsed: int, total: int): (r: real)
    ensures r >= 0.0
    ensures r == 0.0 <==> elapsed >= total
    ensures elapsed <= total ==> r * 1000.0 == (total - elapsed) as real
  {
    Max(0.0, (total - elapsed) as real / 1000.0)
  }

  /** As time passes the percentage never falls and the remaining time never grows. */
  lemma ProgressMonotone(e1: int, e2: int, total: int)
    requires total > 0
    requires e1 <= e2
    ensures PercentComplete(e1, total) <= PercentComplete(e2, total)
    ensures SecondsRemaining(e1, total) >= SecondsRemaining(e2, total)
  {
    var t := total as real;
    var d := (e2 - e1) as real / t;
    assert d * t == (e2 - e1) as real;
    assert d >= 0.0;
    assert e2 as real / t == e1 as real / t + d;
  }
}
