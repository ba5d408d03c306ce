/** The hero/generator animation: one scene object whose `draw` frame depends
    on the current phase. Every frame is recorded as an abstract log entry. */
module Scene {
  import opened Geometry
  import opened Threads
  import opened IdleActivity
  import opened SpawnSchedule
  import opened Phases

  const IdleThreadCount: nat := 25
  const GeneratorThreadCount: nat := 30
  /** `targetRotation = mouseX * 0.2`. */
  const RotationFollow: real := 0.2
  /** Breathing-phase advance per radial frame. */
  const BreathingStep: real := 0.005
  /** Slow constant rotation drift per ms. */
  const DriftPerMs: real := 0.00005

  /** How a frame starts: cleared, kept (lines accumulate), or filled black. */
  datatype Background = Cleared | Kept | FilledBlack

  /** Dark lines on white (hero) or white lines on black (generator). */
  datatype Palette = Dark | Light

  datatype DrawOp =
    | RadialArt(palette: Palette, angleOffset: real, breathing: real)
    | IdleCurves(count: nat, opacity: real, palette: Palette)
    | TransitionCurves(count: nat)
    | BlackFill

  datatype Frame = Frame(background: Background, ops: seq<DrawOp>)

  /** How a frame begins in each phase. */
  function FrameStart(p: Phase): (b: Background)
    ensures (b == Cleared) <==> (p == Hero)
    ensures (b == Kept) <==> (p == Transition)
    ensures (b == FilledBlack) <==> (p == Generator)
  {
    match p
    case Hero => Cleared
    case Transition => Kept
    case Generator => FilledBlack
  }

  function PaletteOf(p: Phase): Palette
  {
    if p == Generator then Light else Dark
  }

  /** The frame a radial phase (hero or generator) draws, given the rotation
      and opacity after this frame's update and the breathing phase before it. */
  function RadialFrame(p: Phase, rotation: real, now: int, breathing: real, threads: nat, opacity: real): (f: Frame)
    ensures f.background == FrameStart(p)
    ensures |f.ops| >= 1 && f.ops[0].RadialArt? && f.ops[0].breathing == breathing
    ensures f.ops[0].palette == Light <==> p == Generator
    ensures |f.ops| == 2 <==> Visible(opacity)
    ensures |f.ops| == 2 ==> f.ops[1] == IdleCurves(threads, opacity, f.ops[0].palette)
  {
    Frame(FrameStart(p),
          [RadialArt(PaletteOf(p), rotation + now as real * DriftPerMs, breathing)] +
          (if Visible(opacity) then [IdleCurves(threads, opacity, PaletteOf(p))] else []))
  }

  /** The frame a transition phase draws after `elapsed` ms; the black fill is the phase exit. */
  function TransitionFrame(elapsed: int): (f: Frame)
    ensures f.background == Kept && |f.ops| >= 1
    ensures elapsed >= 0 ==> f.ops[0] == TransitionCurves(SpawnCount(elapsed))
    ensures BlackFill in f.ops <==> elapsed > TransitionDuration
  {
    var n := SpawnCount(elapsed);
    Frame(Kept, [TransitionCurves(if n >= 0 then n else 0)] +
                (if elapsed > TransitionDuration then [BlackFill] else []))
  }

  class SceneState {
    var phase: Phase
    var transitionStart: int
    var width: real
    var height: real
    var idleThreads: seq<IdleThread>
    var generatorThreads: seq<IdleThread>
    var rotation: real
    var breathing: real
    var mouseX: real
    var mouseY: real
    var lastActivity: int
    var idleOpacity: real
    /** Every frame drawn so far. */
    var frames: seq<Frame>

    ghost predicate Valid()
      reads this
    {
      width > 0.0 && height > 0.0 &&
      |idleThreads| == IdleThreadCount &&
      (phase == Generator ==> |generatorThreads| == GeneratorThreadCount) &&
      0.0 <= idleOpacity <= IdleOpacity
    }

    function State(): PhaseState
      reads this
    {
      PhaseState(phase, transitionStart)
    }

    /** Page load: hero phase, `resize()` builds the idle threads, the last
        activity is the load time. */
    constructor (w: real, h: real, now: int, draws: seq<IdleDraws>)
      requires w > 0.0 && h > 0.0 && |draws| == IdleThreadCount
      ensures Valid()
      ensures phase == Hero && transitionStart == 0 && frames == []
      ensures width == w && height == h && generatorThreads == []
      ensures |idleThreads| == IdleThreadCount &&
              forall i :: 0 <= i < IdleThreadCount ==> idleThreads[i] == NewIdleThread(w, h, draws[i])
      ensures rotation == 0.0 && breathing == 0.0 && mouseX == 0.0 && mouseY == 0.0
      ensures lastActivity == now && idleOpacity == 0.0
    {
      var ts := BuildThreads(IdleThreadCount, w, h, draws);
      phase, transitionStart := Hero, 0;
      width, height := w, h;
      generatorThreads := [];
      rotation, breathing, mouseX, mouseY := 0.0, 0.0, 0.0, 0.0;
      lastActivity, idleOpacity := now, 0.0;
      frames := [];
      idleThreads := ts;
    }

    /** `resize`: new dimensions, fresh idle threads, and fresh generator
        threads when the generator phase is showing. Setting the canvas size
        wipes the surface, so the log records a cleared, empty frame: lines
        the transition accumulated so far are gone. */
    method Resize(w: real, h: real, idleDraws: seq<IdleDraws>, genDraws: seq<IdleDraws>)
      requires Valid()
      requires w > 0.0 && h > 0.0 && |idleDraws| == IdleThreadCount && |genDraws| == GeneratorThreadCount
      modifies this
      ensures Valid()
      ensures width == w && height == h
      ensures |idleThreads| == IdleThreadCount &&
              forall i :: 0 <= i < IdleThreadCount ==> idleThreads[i] == NewIdleThread(w, h, idleDraws[i])
      ensures phase == Generator ==>
                |generatorThreads| == GeneratorThreadCount &&
                forall i :: 0 <= i < GeneratorThreadCount ==> generatorThreads[i] == NewIdleThread(w, h, genDraws[i])
      ensures phase != Generator ==> generatorThreads == old(generatorThreads)
      ensures frames == old(frames) + [Frame(Cleared, [])]
      ensures phase == old(phase) && transitionStart == old(transitionStart)
      ensures rotation == old(rotation) && breathing == old(breathing) && idleOpacity == old(idleOpacity)
      ensures mouseX == old(mouseX) && mouseY == old(mouseY) && lastActivity == old(lastActivity)
    {
      width, height := w, h;
      frames := frames + [Frame(Cleared, [])];
      idleThreads := BuildThreads(IdleThreadCount, w, h, idleDraws);
      if phase == Generator {
        generatorThreads := BuildThreads(GeneratorThreadCount, w, h, genDraws);
      }
    }

    /** A pointer move: the normalised pointer offset, and the idle timer restarts. */
    method PointerMove(clientX: real, clientY: real, now: int)
      requires Valid()
      modifies this
      ensures Valid()
      ensures mouseX == (clientX - width / 2.0) / width && mouseY == (clientY - height / 2.0) / height
      ensures lastActivity == now
      ensures phase == old(phase) && transitionStart == old(transitionStart) && frames == old(frames)
      ensures width == old(width) && height == old(height)
      ensures idleThreads == old(idleThreads) && generatorThreads == old(generatorThreads)
      ensures rotation == old(rotation) && breathing == old(breathing) && idleOpacity == old(idleOpacity)
    {
      mouseX := (clientX - width / 2.0) / width;
      mouseY := (clientY - height / 2.0) / height;
      lastActivity := now;
    }

    /** A scroll, click or touch: only the idle timer restarts. */
    method Activity(now: int)
      modifies this`lastActivity
      ensures lastActivity == now
    {
      lastActivity := now;
    }

    /** `startTransition`: the hero phase enters the transition and records the
        start time; in any other phase nothing changes. */
    method StartTransition(now: int)
      requires Valid()
      modifies this`phase, this`transitionStart
      ensures Valid()
      ensures State() == OnStart(old(State()), now)
      ensures old(phase) == Hero ==> phase == Transition && transitionStart == now
      ensures old(phase) != Hero ==> phase == old(phase) && transitionStart == old(transitionStart)
    {
      if phase != Hero {
        return;
      }
      phase := Transition;
      transitionStart := now;
    }

    /** One `draw` frame at time `now`. The hero phase clears the surface, the
        transition keeps it (lines accumulate), the generator fills it black.
        Rotation, breathing and idle opacity move only in the hero and
        generator phases. `genDraws` are the random draws for the generator
        threads built when the transition ends. */
    method Draw(now: int, genDraws: seq<IdleDraws>)
      requires Valid() && |genDraws| == GeneratorThreadCount
      modifies this
      ensures Valid()
      ensures State() == OnFrame(old(State()), now)
      ensures Rank(old(phase)) <= Rank(phase)
      ensures |frames| == |old(frames)| + 1 && frames[..|old(frames)|] == old(frames)
      ensures frames[|old(frames)|].background == FrameStart(old(phase))
      ensures old(phase) == Transition ==>
                frames[|old(frames)|] == TransitionFrame(now - transitionStart) &&
                rotation == old(rotation) && breathing == old(breathing) && idleOpacity == old(idleOpacity)
      ensures old(phase) == Transition && phase == Generator ==>
                forall i :: 0 <= i < GeneratorThreadCount ==> generatorThreads[i] == NewIdleThread(width, height, genDraws[i])
      ensures !(old(phase) == Transition && phase == Generator) ==> generatorThreads == old(generatorThreads)
      ensures old(phase) != Transition ==>
                rotation == Ease(old(rotation), mouseX * RotationFollow) &&
                breathing == old(breathing) + BreathingStep &&
                idleOpacity == IdleStep(old(idleOpacity), now, lastActivity) &&
                frames[|old(frames)|] ==
                  RadialFrame(phase, rotation, now, old(breathing),
                              |if phase == Generator then generatorThreads else idleThreads|, idleOpacity)
      ensures width == old(width) && height == old(height) && idleThreads == old(idleThreads)
      ensures mouseX == old(mouseX) && mouseY == old(mouseY) && lastActivity == old(lastActivity)
    {
      if phase == Hero || phase == Generator {
        rotation := Ease(rotation, mouseX * RotationFollow);
        var b := breathing;
        breathing := breathing + BreathingStep;
        idleOpacity := IdleStep(idleOpacity, now, lastActivity);
        var threads := if phase == Generator then generatorThreads else idleThreads;
        frames := frames + [RadialFrame(phase, rotation, now, b, |threads|, idleOpacity)];
      } else {
        var elapsed := now - transitionStart;
        frames := frames + [TransitionFrame(elapsed)];
        if elapsed > TransitionDuration {
          phase := Generator;
          generatorThreads := BuildThreads(GeneratorThreadCount, width, height, genDraws);
        }
      }
    }
  }
}
