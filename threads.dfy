/** The two kinds of decorative thread (`IdleThread` and `TransitionThread`),
    built from the random draws their constructors make. The sinusoidal
    per-frame curve of an idle thread is not modelled; only its fixed anchors. */
module Threads {
  import opened Geometry

  /** Distance outside the surface at which transition threads start and end. */
  const EdgeMargin: real := 20.0
  /** Half-range of the random offset added to a transition control point. */
  const ControlJitter: real := 100.0

  /** The anchors and pacing of one idle thread. `phaseTurns` is the phase as a
      fraction of a full turn (the source multiplies the draw by 2*pi). */
  datatype IdleThread = IdleThread(start: Point, centerBase: Point, phaseTurns: real, speed: real)

  /** The six `Math.random()` results an idle thread's constructor consumes,
      in the order it consumes them. */
  datatype IdleDraws = IdleDraws(edge: real, along: real, cx: real, cy: real, phase: real, speed: real)

  predicate ValidIdleDraws(d: IdleDraws)
  {
    UnitDraw(d.edge) && UnitDraw(d.along) && UnitDraw(d.cx) && UnitDraw(d.cy) &&
    UnitDraw(d.phase) && UnitDraw(d.speed)
  }

  /** A transition thread: fixed end points and control points. `progress`
      and `speed` are set but never read by any drawing code. */
  datatype TransitionThread = TransitionThread(start: Point, target: Point, cp1: Point, cp2: Point,
                                               progress: real, speed: real)

  /** The eight `Math.random()` results `TransitionThread.reset` consumes, in order. */
  datatype TransitionDraws = TransitionDraws(edge: real, first: real, second: real,
                                             c1x: real, c1y: real, c2x: real, c2y: real, speed: real)

  predicate ValidTransitionDraws(d: TransitionDraws)
  {
    UnitDraw(d.edge) && UnitDraw(d.first) && UnitDraw(d.second) && UnitDraw(d.c1x) &&
    UnitDraw(d.c1y) && UnitDraw(d.c2x) && UnitDraw(d.c2y) && UnitDraw(d.speed)
  }

  /** `Math.floor(Math.random() * 4)`: which edge a thread starts from. */
  function EdgeOf(r: real): int
  {
    (r * 4.0).Floor
  }

  /** `p` lies on the border of the `w` by `h` surface. */
  predicate OnBorder(p: Point, w: real, h: real)
  {
    ((p.y == 0.0 || p.y == h) && 0.0 <= p.x <= w) ||
    ((p.x == 0.0 || p.x == w) && 0.0 <= p.y <= h)
  }

  /** `p` lies in the central half of the surface along both axes. */
  predicate InCentralHalf(p: Point, w: real, h: real)
  {
    w / 4.0 <= p.x <= 3.0 * w / 4.0 && h / 4.0 <= p.y <= 3.0 * h / 4.0
  }

  /** `start` and `target` sit `EdgeMargin` outside two opposite edges. */
  predicate AcrossSurface(start: Point, target: Point, w: real, h: real)
  {
    (start.y == -EdgeMargin && target.y == h + EdgeMargin) ||
    (start.x == w + EdgeMargin && target.x == -EdgeMargin) ||
    (start.y == h + EdgeMargin && target.y == -EdgeMargin) ||
    (start.x == -EdgeMargin && target.x == w + EdgeMargin)
  }

  /** `p` is within `r` of `q` along each axis. */
  predicate Near(p: Point, q: Point, r: real)
  {
    q.x - r <= p.x <= q.x + r && q.y - r <= p.y <= q.y + r
  }

  /** `IdleThread.init`: the start point on the edge picked by the first draw. */
  function IdleStart(w: real, h: real, d: IdleDraws): Point
  {
    var e := EdgeOf(d.edge);
    if e == 0 then Point(d.along * w, 0.0)
    else if e == 1 then Point(w, d.along * h)
    else if e == 2 then Point(d.along * w, h)
    else Point(0.0, d.along * h)
  }

  /** `IdleThread.init`: one coordinate of the centre anchor. */
  function CentreCoord(r: real, w: real): real
  {
    w * 0.5 + (r - 0.5) * w * 0.5
  }

  /** `IdleThread`'s constructor (`init` followed by the phase and speed
      draws). From valid draws, the thread is anchored on the border and aims
      at the central half of the surface, with a speed in [0.0005, 0.0015)
      and a phase of less than one turn. */
  function NewIdleThread(w: real, h: real, d: IdleDraws): (t: IdleThread)
    ensures w >= 0.0 && h >= 0.0 && ValidIdleDraws(d) ==>
              OnBorder(t.start, w, h) && InCentralHalf(t.centerBase, w, h) &&
              0.0005 <= t.speed < 0.0015 && 0.0 <= t.phaseTurns < 1.0
  {
    var t := IdleThread(IdleStart(w, h, d), Point(CentreCoord(d.cx, w), CentreCoord(d.cy, h)),
                        d.phase, 0.0005 + d.speed * 0.001);
    if w >= 0.0 && h >= 0.0 && ValidIdleDraws(d) then
      IdleStartOnBorder(w, h, d);
      CentreInRange(d.cx, w);
      CentreInRange(d.cy, h);
      t
    else
      t
  }

  lemma ScaledDrawInRange(r: real, w: real)
    requires UnitDraw(r) && w >= 0.0
    ensures 0.0 <= r * w <= w
  {
    assert r * w <= 1.0 * w by {
      assert (1.0 - r) * w >= 0.0;
    }
  }

  /** The centre anchor coordinate `w*0.5 + (r-0.5)*w*0.5` lies in [w/4, 3w/4]. */
  lemma CentreInRange(r: real, w: real)
    requires UnitDraw(r) && w >= 0.0
    ensures w / 4.0 <= CentreCoord(r, w) <= 3.0 * w / 4.0
  {
    ScaledDrawInRange(r, w);
    assert (r - 0.5) * w * 0.5 == (r * w) / 2.0 - w / 4.0;
  }

  /** The start point chosen by an idle thread's constructor is on the border. */
  lemma IdleStartOnBorder(w: real, h: real, d: IdleDraws)
    requires w >= 0.0 && h >= 0.0 && UnitDraw(d.along)
    ensures OnBorder(IdleStart(w, h, d), w, h)
  {
    ScaledDrawInRange(d.along, w);
    ScaledDrawInRange(d.along, h);
    var e := EdgeOf(d.edge);
    if e == 0 {
      assert IdleStart(w, h, d) == Point(d.along * w, 0.0);
    } else if e == 1 {
      assert IdleStart(w, h, d) == Point(w, d.along * h);
    } else if e == 2 {
      assert IdleStart(w, h, d) == Point(d.along * w, h);
    } else {
      assert IdleStart(w, h, d) == Point(0.0, d.along * h);
    }
  }

  /** `TransitionThread.reset`: opposite-edge end points just outside the
      surface and control points jittered around the 30% and 70% marks. From
      valid draws, the thread crosses the whole surface from one edge to the
      opposite one, its control points stay within 100 units of the straight
      line's 30% and 70% points, and its speed starts in [0.02, 0.05). */
  function NewTransitionThread(w: real, h: real, d: TransitionDraws): (t: TransitionThread)
    ensures w >= 0.0 && h >= 0.0 && ValidTransitionDraws(d) ==>
              AcrossSurface(t.start, t.target, w, h) &&
              Near(t.cp1, Lerp(t.start, t.target, 0.3), ControlJitter) &&
              Near(t.cp2, Lerp(t.start, t.target, 0.7), ControlJitter) &&
              0.02 <= t.speed < 0.05
    ensures t.progress == 0.0
  {
    var e := EdgeOf(d.edge);
    var start :=
      if e == 0 then Point(d.first * w, -EdgeMargin)
      else if e == 1 then Point(w + EdgeMargin, d.first * h)
      else if e == 2 then Point(d.first * w, h + EdgeMargin)
      else Point(-EdgeMargin, d.first * h);
    var target :=
      if e == 0 then Point(d.second * w, h + EdgeMargin)
      else if e == 1 then Point(-EdgeMargin, d.second * h)
      else if e == 2 then Point(d.second * w, -EdgeMargin)
      else Point(w + EdgeMargin, d.second * h);
    var a := Lerp(start, target, 0.3);
    var b := Lerp(start, target, 0.7);
    var cp1 := Point(a.x + (d.c1x - 0.5) * 200.0, a.y + (d.c1y - 0.5) * 200.0);
    var cp2 := Point(b.x + (d.c2x - 0.5) * 200.0, b.y + (d.c2y - 0.5) * 200.0);
    TransitionThread(start, target, cp1, cp2, 0.0, 0.02 + d.speed * 0.03)
  }

  /** `initIdleThreads` / `initGeneratorThreads`: a fresh list of `n` threads. */
  method BuildThreads(n: nat, w: real, h: real, draws: seq<IdleDraws>) returns (ts: seq<IdleThread>)
    requires |draws| == n
    ensures |ts| == n
    ensures forall i :: 0 <= i < n ==> ts[i] == NewIdleThread(w, h, draws[i])
  {
    ts := [];
    var i := 0;
    while i < n
      invariant 0 <= i <= n
      invariant |ts| == i
      invariant forall k :: 0 <= k < i ==> ts[k] == NewIdleThread(w, h, draws[k])
    {
      ts := ts + [NewIdleThread(w, h, draws[i])];
      i := i + 1;
    }
  }

  /** Every thread of a list built from valid draws is anchored on the border. */
  lemma BuiltThreadsOnBorder(w: real, h: real, draws: seq<IdleDraws>, ts: seq<IdleThread>)
    requires w >= 0.0 && h >= 0.0
    requires |ts| == |draws| && forall i :: 0 <= i < |ts| ==> ts[i] == NewIdleThread(w, h, draws[i])
    requires forall i :: 0 <= i < |draws| ==> ValidIdleDraws(draws[i])
    ensures forall i :: 0 <= i < |ts| ==> OnBorder(ts[i].start, w, h) && InCentralHalf(ts[i].centerBase, w, h)
  {
    forall i | 0 <= i < |ts|
      ensures OnBorder(ts[i].start, w, h) && InCentralHalf(ts[i].centerBase, w, h)
    {
      assert ts[i] == NewIdleThread(w, h, draws[i]) && ValidIdleDraws(draws[i]);
    }
  }
}
