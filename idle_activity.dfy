/** The idle-activity tracker: exponential smoothing of the idle-thread opacity
    toward 0 (recent input) or 0.2 (no input for more than 3000 ms). The same
    smoothing step drives the radial pattern's rotation. */
module IdleActivity {

  /** Milliseconds without input after which the scene counts as idle. */
  const IdleThreshold: int := 3000
  /** Fraction of the remaining distance covered by one smoothing step. */
  const Blend: real := 0.02
  /** Opacity the idle threads fade toward while idle. */
  const IdleOpacity: real := 0.2
  /** Idle threads are drawn only above this opacity. */
  const VisibleThreshold: real := 0.001

  /** One smoothing step, `x += (target - x) * 0.02`. The remaining distance to
      the target shrinks to 98% of what it was, so the value moves toward the
      target and never overshoots it. */
  function Ease(x: real, target: real): (y: real)
    ensures y - target == (1.0 - Blend) * (x - target)
    ensures x <= target ==> x <= y <= target
    ensures target <= x ==> target <= y <= x
  {
    x + (target - x) * Blend
  }

  /** The opacity the idle threads fade toward at time `now`: full idle
      opacity once more than 3000 ms passed since the last input, else 0. */
  function IdleTarget(now: int, lastActivity: int): (t: real)
    ensures t == IdleOpacity <==> now - lastActivity > IdleThreshold
    ensures t == 0.0 <==> now - lastActivity <= IdleThreshold
  {
    if now - lastActivity > IdleThreshold then IdleOpacity else 0.0
  }

  /** One tick of the tracker: 98% of the distance to the idle target
      remains. From an opacity in [0, 0.2] it stays in [0, 0.2], rising while
      idle and falling (or staying) otherwise. */
  function IdleStep(x: real, now: int, lastActivity: int): (y: real)
    ensures y - IdleTarget(now, lastActivity) == (1.0 - Blend) * (x - IdleTarget(now, lastActivity))
    ensures 0.0 <= x <= IdleOpacity ==> 0.0 <= y <= IdleOpacity
    ensures x <= IdleOpacity && now - lastActivity > IdleThreshold ==> x <= y
    ensures 0.0 <= x && now - lastActivity <= IdleThreshold ==> y <= x
  {
    Ease(x, IdleTarget(now, lastActivity))
  }

  /** Whether the idle threads are drawn this tick. */
  predicate Visible(opacity: real)
  {
    opacity > VisibleThreshold
  }

  /** `n` consecutive smoothing steps toward the same target. */
  function Iterate(x: real, target: real, n: nat): real
    decreases n
  {
    if n == 0 then x else Iterate(Ease(x, target), target, n - 1)
  }

  /** `(1 - Blend)^n`: the fraction of the distance left after `n` steps. */
  function Remaining(n: nat): (r: real)
    ensures 0.0 < r <= 1.0
  {
    if n == 0 then 1.0 else (1.0 - Blend) * Remaining(n - 1)
  }

  /** After `n` steps exactly `(0.98)^n` of the initial distance to the target remains. */
  lemma {:induction false} IterateClosedForm(x: real, target: real, n: nat)
    ensures Iterate(x, target, n) - target == Remaining(n) * (x - target)
    decreases n
  {
    if n > 0 {
      IterateClosedForm(Ease(x, target), target, n - 1);
      calc {
        Iterate(x, target, n) - target;
        Remaining(n - 1) * (Ease(x, target) - target);
        Remaining(n - 1) * ((1.0 - Blend) * (x - target));
        Remaining(n) * (x - target);
      }
    }
  }

  /** While the target stays the same, the opacity converges monotonically:
      more steps never move it away from the target and never past it. */
  lemma {:induction false} IterateMonotone(x: real, target: real, m: nat, n: nat)
    requires m <= n
    ensures x <= target ==> x <= Iterate(x, target, m) <= Iterate(x, target, n) <= target
    ensures target <= x ==> target <= Iterate(x, target, n) <= Iterate(x, target, m) <= x
    decreases n
  {
    if m > 0 {
      IterateMonotone(Ease(x, target), target, m - 1, n - 1);
    } else if n > 0 {
      IterateMonotone(Ease(x, target), target, 0, n - 1);
    }
  }
}
