/** The incremental generation loop: each animation frame asks the external
    line-selection engine for up to 10 segments and draws them additively
    onto the art canvas, until the chosen line count is reached or the user
    stops or resets. */
module Generation {
  import opened Geometry

  /** Segments requested from the engine per frame. */
  const BatchSize: nat := 10
  /** Line count used when the page has no line-count selector. */
  const DefaultMaxLines: int := 3000

  /** The status line's messages. */
  datatype Status = Initial | Ready | Generating | Complete | Stopped

  class GenerationLoop {
    /** Whether a line-selection engine exists (`generatorEngine !== null`). */
    var engineReady: bool
    var generating: bool
    /** `MAX_LINES` and `linesDrawn` of the current run. */
    var maxLines: int
    var linesDrawn: nat
    var status: Status
    /** Segments on the art canvas since it was last filled white. */
    var canvas: seq<Segment>
    /** Progress bar width, in percent. */
    var progress: real
    var startEnabled: bool
    var saveEnabled: bool

    /** A run never stops more than one partial batch past its target, and
        only a loop with an engine can be generating. */
    ghost predicate Valid()
      reads this
    {
      (linesDrawn == 0 || linesDrawn < maxLines + BatchSize) &&
      (generating ==> engineReady)
    }

    constructor ()
      ensures Valid()
      ensures !engineReady && !generating && linesDrawn == 0 && status == Initial && canvas == []
    {
      engineReady, generating := false, false;
      maxLines, linesDrawn := 0, 0;
      status, canvas, progress := Initial, [], 0.0;
      startEnabled, saveEnabled := false, false;
    }

    /** The end of the crop-confirm handler. The art canvas is filled white
        and the cropped image is drawn onto it. When the engine script is
        loaded, a fresh engine reads that image, the canvas is filled white
        again and start is enabled; otherwise the image stays on the canvas.
        Either way no segment has been drawn since the last white fill, so
        `canvas` is empty. */
    method AttachEngine(engineDefined: bool)
      requires Valid()
      modifies this
      ensures Valid()
      ensures canvas == []
      ensures engineDefined ==> engineReady && status == Ready && startEnabled
      ensures !engineDefined ==> engineReady == old(engineReady) && status == old(status) &&
                                 startEnabled == old(startEnabled)
      ensures generating == old(generating) && linesDrawn == old(linesDrawn) && maxLines == old(maxLines)
      ensures progress == old(progress) && saveEnabled == old(saveEnabled)
    {
      canvas := [];
      if engineDefined {
        engineReady := true;
        status := Ready;
        startEnabled := true;
      }
    }

    /** One frame of `loop`. `batch` is what `generateSteps(10)` returns; it
        is only consumed when the run is active and under its target. */
    method Tick(batch: seq<Segment>)
      requires Valid() && |batch| <= BatchSize
      modifies this
      ensures Valid()
      ensures !old(generating) ==>
                generating == old(generating) && linesDrawn == old(linesDrawn) && canvas == old(canvas) &&
                status == old(status) && progress == old(progress) &&
                startEnabled == old(startEnabled) && saveEnabled == old(saveEnabled)
      ensures old(generating) && old(linesDrawn) >= maxLines ==>
                !generating && status == Complete && startEnabled && saveEnabled &&
                linesDrawn == old(linesDrawn) && canvas == old(canvas) && progress == old(progress)
      ensures old(generating) && old(linesDrawn) < maxLines ==>
                generating && canvas == old(canvas) + batch && linesDrawn == old(linesDrawn) + |batch| &&
                progress == (linesDrawn as real / maxLines as real) * 100.0 &&
                status == old(status) && startEnabled == old(startEnabled) && saveEnabled == old(saveEnabled)
      ensures engineReady == old(engineReady) && maxLines == old(maxLines)
      ensures old(linesDrawn) <= linesDrawn
    {
      if !generating {
        return;
      }
      if linesDrawn >= maxLines {
        generating := false;
        status := Complete;
        startEnabled := true;
        saveEnabled := true;
        return;
      }
      canvas := canvas + batch;
      linesDrawn := linesDrawn + |batch|;
      progress := (linesDrawn as real / maxLines as real) * 100.0;
    }

    /** The start button: ignored without an engine or while a run is active;
        otherwise the canvas is filled white, a run with target `lines` and no
        lines drawn begins, and its first frame runs at once. */
    method Start(lines: int, first: seq<Segment>)
      requires Valid() && |first| <= BatchSize
      modifies this
      ensures Valid()
      ensures !old(engineReady) || old(generating) ==>
                generating == old(generating) && linesDrawn == old(linesDrawn) && canvas == old(canvas) &&
                status == old(status) && maxLines == old(maxLines) && startEnabled == old(startEnabled) &&
                progress == old(progress) && saveEnabled == old(saveEnabled)
      ensures old(engineReady) && !old(generating) ==>
                maxLines == lines &&
                (lines <= 0 ==> !generating && status == Complete && linesDrawn == 0 && canvas == [] &&
                                startEnabled && saveEnabled && progress == old(progress)) &&
                (lines > 0 ==> generating && status == Generating && linesDrawn == |first| && canvas == first &&
                               !startEnabled && saveEnabled == old(saveEnabled) &&
                               progress == (|first| as real / lines as real) * 100.0)
      ensures engineReady == old(engineReady)
    {
      if !engineReady || generating {
        return;
      }
      canvas := [];
      generating := true;
      startEnabled := false;
      maxLines := lines;
      linesDrawn := 0;
      status := Generating;
      Tick(first);
    }

    /** The stop button: the run ends and no pending frame draws again. */
    method Stop()
      requires Valid()
      modifies this
      ensures Valid()
      ensures !generating && status == Stopped && startEnabled
      ensures engineReady == old(engineReady) && linesDrawn == old(linesDrawn) && maxLines == old(maxLines)
      ensures canvas == old(canvas) && progress == old(progress) && saveEnabled == old(saveEnabled)
    {
      generating := false;
      status := Stopped;
      startEnabled := true;
    }

    /** The reset button: the run ends and the engine is discarded. The art
        canvas itself is left as it is. */
    method Reset()
      requires Valid()
      modifies this
      ensures Valid()
      ensures !generating && !engineReady && startEnabled && !saveEnabled && progress == 0.0
      ensures status == old(status) && canvas == old(canvas) && linesDrawn == old(linesDrawn) &&
              maxLines == old(maxLines)
    {
      generating := false;
      engineReady := false;
      startEnabled := true;
      progress := 0.0;
      saveEnabled := false;
    }
  }

  /** A run with a target of `k` full batches, fed full batches: `k`
      drawing frames (the first inside the start handler), all `k * 10`
      lines drawn in engine order, then one more frame reports completion.
      A target of zero completes inside the start handler. */
  method RunScenario(g: GenerationLoop, k: nat, batches: seq<seq<Segment>>) returns (drawingFrames: nat)
    requires g.Valid() && g.engineReady && !g.generating
    requires |batches| == k && forall i :: 0 <= i < k ==> |batches[i]| == BatchSize
    modifies g
    ensures drawingFrames == k
    ensures !g.generating && g.status == Complete && g.linesDrawn == k * BatchSize
    ensures |g.canvas| == k * BatchSize
    ensures forall i, j :: 0 <= i < k && 0 <= j < BatchSize ==> g.canvas[i * BatchSize + j] == batches[i][j]
  {
    if k == 0 {
      g.Start(0, []);
      return 0;
    }
    g.Start(k * BatchSize, batches[0]);
    drawingFrames := 1;
    while drawingFrames < k
      invariant 1 <= drawingFrames <= k
      invariant g.Valid() && g.generating && g.maxLines == k * BatchSize
      invariant g.linesDrawn == drawingFrames * BatchSize && |g.canvas| == g.linesDrawn
      invariant forall i, j :: 0 <= i < drawingFrames && 0 <= j < BatchSize ==>
                  g.canvas[i * BatchSize + j] == batches[i][j]
    {
      ghost var before := g.canvas;
      g.Tick(batches[drawingFrames]);
      forall i, j | 0 <= i < drawingFrames + 1 && 0 <= j < BatchSize
        ensures g.canvas[i * BatchSize + j] == batches[i][j]
      {
        if i < drawingFrames {
          assert i * BatchSize + j < |before|;
          assert g.canvas[i * BatchSize + j] == before[i * BatchSize + j];
        } else {
          assert g.canvas[i * BatchSize + j] == batches[drawingFrames][j];
        }
      }
      drawingFrames := drawingFrames + 1;
    }
    g.Tick([]);
  }
}
