/** The crop/pan/zoom step: an image is shown on a square preview canvas under
    a translate-then-scale transform that the pointer and wheel handlers edit,
    and confirming composites it onto the 500 x 500 art canvas. */
module Crop {
  import opened Geometry

  /** Side of the art canvas the confirmed crop is drawn onto. */
  const OutputSize: real := 500.0
  /** Largest preview side, and the viewport margin kept around it. */
  const MaxPreview: int := 400
  const PreviewMargin: int := 40
  /** Scale change per unit of wheel delta. */
  const ZoomPerDelta: real := 0.001

  datatype Option<T> = None | Some(value: T)

  /** Pixel dimensions of a decoded image. */
  datatype Image = Image(width: real, height: real)

  /** `cropState`: the preview transform. `minScale` is recorded but no
      handler reads it. */
  datatype CropState = CropState(x: real, y: real, scale: real, minScale: real)

  /** `x -> k * x + dx`, `y -> k * y + dy`: a uniform scale then a translation. */
  datatype Affine = Affine(k: real, dx: real, dy: real)

  function MapPoint(a: Affine, p: Point): Point
  {
    Point(a.k * p.x + a.dx, a.k * p.y + a.dy)
  }

  /** A canvas transform call, `ctx.scale(f, f)` or `ctx.translate(tx, ty)`. */
  datatype CanvasCall = Scale(f: real) | Translate(tx: real, ty: real)

  /** Where a point drawn under the calls `cs` (issued in order) lands: the
      last call issued acts first on the drawn coordinates. */
  function Place(cs: seq<CanvasCall>, p: Point): Point
    decreases |cs|
  {
    if cs == [] then p
    else
      var q := Place(cs[1..], p);
      match cs[0]
      case Scale(f) => Point(f * q.x, f * q.y)
      case Translate(tx, ty) => Point(q.x + tx, q.y + ty)
  }

  /** `Math.min(window.innerWidth - 40, 400)`: the viewport width less the
      margin, but never more than 400. */
  function PreviewSize(innerWidth: int): (s: int)
    ensures s <= MaxPreview && s <= innerWidth - PreviewMargin
    ensures s == MaxPreview || s == innerWidth - PreviewMargin
  {
    if innerWidth - PreviewMargin <= MaxPreview then innerWidth - PreviewMargin else MaxPreview
  }

  /** `initCropper`: scale the image to cover the square preview (the larger of
      the two fit ratios) and centre it. */
  function InitialCrop(size: real, img: Image): (c: CropState)
    requires img.width > 0.0 && img.height > 0.0
    ensures img.width * c.scale >= size && img.height * c.scale >= size
    ensures img.width * c.scale == size || img.height * c.scale == size
    ensures c.x <= 0.0 && c.y <= 0.0
    ensures c.x == size - (c.x + img.width * c.scale)
    ensures c.y == size - (c.y + img.height * c.scale)
    ensures c.minScale == 0.1
  {
    var scaleW := size / img.width;
    var scaleH := size / img.height;
    var s := Max(scaleW, scaleH);
    assert img.width * scaleW == size && img.height * scaleH == size;
    assert img.width * s >= size by { assert img.width * (s - scaleW) >= 0.0; }
    assert img.height * s >= size by { assert img.height * (s - scaleH) >= 0.0; }
    CropState((size - img.width * s) / 2.0, (size - img.height * s) / 2.0, s, 0.1)
  }

  /** `drawCrop`: translate, then scale, then draw the image at the origin. */
  function PreviewCalls(c: CropState): seq<CanvasCall>
  {
    [Translate(c.x, c.y), Scale(c.scale)]
  }

  /** Under the preview calls an image point `p` lands at `(x, y) + scale * p`. */
  lemma PlacePreview(c: CropState, p: Point)
    ensures Place(PreviewCalls(c), p) == Point(c.scale * p.x + c.x, c.scale * p.y + c.y)
  {
    var cs := PreviewCalls(c);
    assert cs[1..] == [Scale(c.scale)];
    assert cs[1..][1..] == [];
    assert Place(cs[1..][1..], p) == p;
    assert Place(cs[1..], p) == Point(c.scale * p.x, c.scale * p.y);
  }

  /** The crop-confirm handler's calls: the preview's, preceded by the
      upscale from the preview side to the output side. */
  function ConfirmCalls(c: CropState, size: real): seq<CanvasCall>
    requires size > 0.0
  {
    [Scale(OutputSize / size)] + PreviewCalls(c)
  }

  /** The single affine map the confirm handler's calls compose to: an image
      point `p` lands at `(500 / size) * (x + scale * p)`. */
  function Composite(c: CropState, size: real): (a: Affine)
    requires size > 0.0
    ensures a.k == (OutputSize / size) * c.scale
    ensures forall p :: MapPoint(a, p) == Place(ConfirmCalls(c, size), p)
  {
    var u := OutputSize / size;
    var a := Affine(u * c.scale, u * c.x, u * c.y);
    forall p ensures MapPoint(a, p) == Place(ConfirmCalls(c, size), p) {
      var cs := ConfirmCalls(c, size);
      assert cs[1..] == PreviewCalls(c);
      PlacePreview(c, p);
      var q := Place(PreviewCalls(c), p);
      assert Place(cs, p) == Point(u * q.x, u * q.y);
      assert u * q.x == u * c.scale * p.x + u * c.x;
      assert u * q.y == u * c.scale * p.y + u * c.y;
    }
    a
  }

  /** The confirmed image is the preview, enlarged by `500 / size`. */
  lemma CompositeEnlargesPreview(c: CropState, size: real, p: Point)
    requires size > 0.0
    ensures var q := Place(PreviewCalls(c), p);
      MapPoint(Composite(c, size), p) == Point((OutputSize / size) * q.x, (OutputSize / size) * q.y)
  {
    PlacePreview(c, p);
    var q := Place(PreviewCalls(c), p);
    var u := OutputSize / size;
    assert u * q.x == u * c.scale * p.x + u * c.x;
    assert u * q.y == u * c.scale * p.y + u * c.y;
  }

  /** Inverse of a non-degenerate affine map. */
  function Unmap(a: Affine, q: Point): Point
    requires a.k != 0.0
  {
    Point((q.x - a.dx) / a.k, (q.y - a.dy) / a.k)
  }

  /** The composite is invertible while the scale is non-zero: every output
      pixel shows exactly one image point. */
  lemma CompositeRoundTrip(c: CropState, size: real, p: Point)
    requires size > 0.0 && c.scale != 0.0
    ensures Composite(c, size).k != 0.0
    ensures Unmap(Composite(c, size), MapPoint(Composite(c, size), p)) == p
  {
    var a := Composite(c, size);
    assert OutputSize / size > 0.0;
    assert a.k != 0.0 by {
      assert a.k == (OutputSize / size) * c.scale;
    }
    var q := MapPoint(a, p);
    assert (q.x - a.dx) / a.k == p.x by { assert q.x - a.dx == a.k * p.x; }
    assert (q.y - a.dy) / a.k == p.y by { assert q.y - a.dy == a.k * p.y; }
  }

  /** Confirming the initial crop without panning or zooming fills the whole
      output square: the image's top-left corner lands at or before the
      output's, its bottom-right corner at or beyond it. */
  lemma InitialCropFillsOutput(size: real, img: Image)
    requires size > 0.0 && img.width > 0.0 && img.height > 0.0
    ensures var a := Composite(InitialCrop(size, img), size);
      MapPoint(a, Point(0.0, 0.0)).x <= 0.0 && MapPoint(a, Point(0.0, 0.0)).y <= 0.0 &&
      MapPoint(a, Point(img.width, img.height)).x >= OutputSize &&
      MapPoint(a, Point(img.width, img.height)).y >= OutputSize
  {
    var c := InitialCrop(size, img);
    var u := OutputSize / size;
    assert u > 0.0;
    var a := Composite(c, size);
    assert a == Affine(u * c.scale, u * c.x, u * c.y);
    assert c.x + img.width * c.scale >= size;
    assert c.y + img.height * c.scale >= size;
    assert u * c.x <= 0.0 && u * c.y <= 0.0;
    assert u * size == OutputSize;
    assert u * (c.x + img.width * c.scale) >= u * size by {
      assert u * ((c.x + img.width * c.scale) - size) >= 0.0;
    }
    assert u * (c.y + img.height * c.scale) >= u * size by {
      assert u * ((c.y + img.height * c.scale) - size) >= 0.0;
    }
    assert MapPoint(a, Point(img.width, img.height)).x == u * (c.x + img.width * c.scale);
    assert MapPoint(a, Point(img.width, img.height)).y == u * (c.y + img.height * c.scale);
  }

  /** With no pan and the image fitted to the preview width, the image's
      top-left pixel lands on the output's top-left pixel and its width spans
      the output exactly. */
  lemma IdentityPanKeepsCorner(size: real, img: Image, minScale: real)
    requires size > 0.0 && img.width > 0.0
    ensures var a := Composite(CropState(0.0, 0.0, size / img.width, minScale), size);
      MapPoint(a, Point(0.0, 0.0)) == Point(0.0, 0.0) &&
      MapPoint(a, Point(img.width, 0.0)) == Point(OutputSize, 0.0)
  {
    var c := CropState(0.0, 0.0, size / img.width, minScale);
    var u := OutputSize / size;
    assert Composite(c, size) == Affine(u * c.scale, 0.0, 0.0);
    assert c.scale * img.width == size;
    assert u * c.scale * img.width == u * size == OutputSize;
  }

  /** The crop preview and its event handlers. */
  class Cropper {
    /** `uploadedImage`. */
    var image: Option<Image>
    /** Side of the square preview canvas. */
    var size: real
    var state: CropState
    var dragging: bool
    var startX: real
    var startY: real
    var lastX: real
    var lastY: real

    ghost predicate Valid()
      reads this
    {
      image.Some? ==> image.value.width > 0.0 && image.value.height > 0.0 && size > 0.0
    }

    constructor ()
      ensures Valid()
      ensures image == None && state == CropState(0.0, 0.0, 1.0, 1.0) && !dragging
    {
      image := None;
      size := 0.0;
      state := CropState(0.0, 0.0, 1.0, 1.0);
      dragging := false;
      startX, startY, lastX, lastY := 0.0, 0.0, 0.0, 0.0;
    }

    /** A decoded image arrives: it becomes the uploaded image and `initCropper`
        sizes the preview to the viewport, covers it with the image, and
        installs fresh handlers (so no drag is in progress). */
    method Load(img: Image, innerWidth: int)
      requires img.width > 0.0 && img.height > 0.0 && innerWidth > PreviewMargin
      modifies this
      ensures Valid()
      ensures image == Some(img) && size == PreviewSize(innerWidth) as real
      ensures state == InitialCrop(size, img) && !dragging
    {
      image := Some(img);
      size := PreviewSize(innerWidth) as real;
      state := InitialCrop(size, img);
      dragging := false;
    }

    /** `onDown`: a drag starts at `(px, py)` from the current translation. */
    method Down(px: real, py: real)
      modifies this`dragging, this`startX, this`startY, this`lastX, this`lastY
      ensures dragging && startX == px && startY == py
      ensures lastX == state.x && lastY == state.y
    {
      dragging := true;
      startX, startY := px, py;
      lastX, lastY := state.x, state.y;
    }

    /** `onMove`: while dragging, the translation is the one at the down point
        plus the pointer's offset from the down point; otherwise nothing. */
    method Move(px: real, py: real)
      modifies this`state
      ensures dragging ==> state == old(state).(x := lastX + (px - startX), y := lastY + (py - startY))
      ensures !dragging ==> state == old(state)
    {
      if !dragging {
        return;
      }
      state := state.(x := lastX + (px - startX), y := lastY + (py - startY));
    }

    /** Mouse up or touch end. */
    method Release()
      modifies this`dragging
      ensures !dragging
    {
      dragging := false;
    }

    /** `ontouchstart`: only a one-finger touch starts a drag. */
    method TouchStart(touches: nat, px: real, py: real)
      modifies this`dragging, this`startX, this`startY, this`lastX, this`lastY
      ensures touches == 1 ==> dragging && startX == px && startY == py && lastX == state.x && lastY == state.y
      ensures touches != 1 ==> dragging == old(dragging) && startX == old(startX) && startY == old(startY) &&
                               lastX == old(lastX) && lastY == old(lastY)
    {
      if touches == 1 {
        Down(px, py);
      }
    }

    /** `ontouchmove`: only a one-finger touch pans. */
    method TouchMove(touches: nat, px: real, py: real)
      modifies this`state
      ensures touches == 1 && dragging ==> state == old(state).(x := lastX + (px - startX), y := lastY + (py - startY))
      ensures touches != 1 || !dragging ==> state == old(state)
    {
      if touches == 1 {
        Move(px, py);
      }
    }

    /** `onwheel`: the scale drops by `deltaY * 0.001`, with no floor or ceiling. */
    method Wheel(deltaY: real)
      modifies this`state
      ensures state == old(state).(scale := old(state).scale - deltaY * ZoomPerDelta)
    {
      state := state.(scale := state.scale - deltaY * ZoomPerDelta);
    }

    /** The cancel button discards the uploaded image. */
    method Cancel()
      modifies this`image
      ensures image == None
    {
      image := None;
    }

    /** The confirm button: with an uploaded image, the transform its canvas
        calls compose to; without one, nothing. */
    method Confirm() returns (r: Option<Affine>)
      requires Valid()
      ensures image.None? ==> r.None?
      ensures image.Some? ==> r.Some? && r.value.k == (OutputSize / size) * state.scale &&
                              forall p :: MapPoint(r.value, p) == Place(ConfirmCalls(state, size), p)
    {
      if image.None? {
        return None;
      }
      r := Some(Composite(state, size));
    }
  }

  /** Two successive drag moves leave the same translation as the last one
      alone: panning depends only on the down point. */
  method DragIsPathIndependent(c: Cropper, downX: real, downY: real, x1: real, y1: real, x2: real, y2: real)
    modifies c
    ensures c.state == old(c.state).(x := old(c.state).x + (x2 - downX), y := old(c.state).y + (y2 - downY))
  {
    c.Down(downX, downY);
    c.Move(x1, y1);
    c.Move(x2, y2);
  }
}
