/** How many transition threads a transition frame spawns, as a function of
    the milliseconds elapsed since the transition started. */
module SpawnSchedule {

  /** Length of the transition, in ms. */
  const TransitionDuration: int := 2000
  /** Extra threads added near the end of the transition. */
  const Burst: int := 40

  /** `Math.min(elapsed / 2000, 1)`, in exact arithmetic. */
  function Progress(elapsed: int): real
  {
    var p := elapsed as real / TransitionDuration as real;
    if p <= 1.0 then p else 1.0
  }

  /** The spawn rule as the source writes it, over the progress fraction. */
  function SpawnFromProgress(p: real): int
  {
    (if p < 0.5 then 3 + (p * 40.0).Floor else 23 + ((p - 0.5) * 10.0).Floor)
    + (if p > 0.85 then Burst else 0)
  }

  /** The same rule over integer milliseconds. Dafny's `/` by a positive
      divisor rounds toward negative infinity, as `Math.floor` does. From the
      start of the transition on, every frame spawns between 3 and 68 threads. */
  function SpawnCount(elapsed: int): (n: int)
    ensures elapsed >= 0 ==> 3 <= n <= 68
  {
    (if elapsed < 1000 then 3 + elapsed / 50
     else 23 + ((if elapsed <= TransitionDuration then elapsed else TransitionDuration) - 1000) / 200)
    + (if elapsed > 1700 then Burst else 0)
  }

  /** `floor(n / d)` computed on reals equals integer division. */
  lemma FloorOfQuotient(n: int, d: int)
    requires d > 0
    ensures (n as real / d as real).Floor == n / d
  {
    var q, r := n / d, n % d;
    assert n == d * q + r && 0 <= r < d;
    assert n as real / d as real == q as real + r as real / d as real;
    assert 0.0 <= r as real / d as real < 1.0;
  }

  /** The integer formula agrees with the progress-based formula for every elapsed time. */
  lemma SpawnCountMatchesProgress(elapsed: int)
    ensures SpawnCount(elapsed) == SpawnFromProgress(Progress(elapsed))
  {
    var p := Progress(elapsed);
    var c := if elapsed <= TransitionDuration then elapsed else TransitionDuration;
    assert p == c as real / 2000.0;
    assert p < 0.5 <==> elapsed < 1000;
    assert p > 0.85 <==> elapsed > 1700;
    if elapsed < 1000 {
      assert p * 40.0 == elapsed as real / 50.0;
      FloorOfQuotient(elapsed, 50);
    } else {
      assert (p - 0.5) * 10.0 == (c - 1000) as real / 200.0;
      FloorOfQuotient(c - 1000, 200);
    }
  }

  /** Later frames never spawn fewer threads. */
  lemma SpawnCountMonotone(e1: int, e2: int)
    requires e1 <= e2
    ensures SpawnCount(e1) <= SpawnCount(e2)
  {
    if e2 < 1000 {
      assert e1 / 50 <= e2 / 50;
    } else if e1 >= 1000 {
      var c1 := if e1 <= TransitionDuration then e1 else TransitionDuration;
      var c2 := if e2 <= TransitionDuration then e2 else TransitionDuration;
      assert (c1 - 1000) / 200 <= (c2 - 1000) / 200;
    }
  }

  /** The 40-thread burst applies exactly when progress exceeds 0.85: a frame
      spawns more than 28 threads if and only if that is so. */
  lemma BurstExactlyLate(elapsed: int)
    requires elapsed >= 0
    ensures SpawnCount(elapsed) > 28 <==> Progress(elapsed) > 0.85
    ensures Progress(elapsed) > 0.85 ==> SpawnCount(elapsed) >= 66
  {
    assert Progress(elapsed) > 0.85 <==> elapsed > 1700;
  }

  /** Once the transition has run its length, the count stays at its maximum. */
  lemma SpawnCountSaturates(elapsed: int)
    requires elapsed >= TransitionDuration
    ensures SpawnCount(elapsed) == 68
  {
  }
}
