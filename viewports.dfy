/**
 * The two-view render context of the VR-scale demos: the fixed split of the
 * canvas into an orthographic view (left) and a perspective view (right),
 * the per-view pixel rectangles, the responsive-resize cache, and
 * `renderScene`, which draws every view once per frame.
 *
 * The WebGL renderer and the cameras are library code. What the model keeps
 * of them is a trace of RenderCall values: the calls made on the renderer,
 * interleaved with each camera's projection refresh (per view, five renderer
 * calls and one camera call). Sizes are exact reals and `Math.floor` is
 * `.Floor`.
 */
module Viewports {

  /** `new THREE.Color().setRGB(r, g, b)`. */
  datatype Rgb = Rgb(r: real, g: real, b: real)

  datatype CameraKind = Orthographic | Perspective

  /** A view descriptor: its camera, clear colour and rectangle as fractions of the canvas. */
  datatype View = View(camera: CameraKind, background: Rgb, left: real, bottom: real, width: real, height: real)

  /** A rectangle in pixels, as passed to `setViewport` and `setScissor`. */
  datatype Rect = Rect(left: int, bottom: int, width: int, height: int)

  /** `context.ortho` as `createDefaultContext` sets it: the left half of the canvas. */
  const OrthoView := View(Orthographic, Rgb(0.5, 0.5, 0.7), 0.0, 0.0, 0.5, 1.0)

  /** `context.persp` as `createDefaultContext` sets it: the right half of the canvas. */
  const PerspView := View(Perspective, Rgb(0.7, 0.5, 0.5), 0.5, 0.0, 0.5, 1.0)

  /**
   * The calls `renderScene` makes, in the order it makes them: on the
   * renderer, except `UpdateProjection`, which is made on the view's camera.
   */
  datatype RenderCall =
    | SetSize(width: real, height: real)
    | SetViewport(rect: Rect)
    | SetScissor(rect: Rect)
    | EnableScissorTest(on: bool)
    | SetClearColor(color: Rgb)
    | UpdateProjection(camera: CameraKind)
    | Draw(camera: CameraKind, cameraX: real)

  /** The pixel rectangle of view v on a w by h canvas: each fraction scaled by its dimension and rounded down. */
  function ViewRect(w: real, h: real, v: View): (r: Rect)
    ensures r.left as real <= w * v.left < r.left as real + 1.0
    ensures r.bottom as real <= h * v.bottom < r.bottom as real + 1.0
    ensures r.width as real <= w * v.width < r.width as real + 1.0
    ensures r.height as real <= h * v.height < r.height as real + 1.0
  {
    Rect((w * v.left).Floor, (h * v.bottom).Floor, (w * v.width).Floor, (h * v.height).Floor)
  }

  /** The x coordinate of a camera: the orthographic camera never moves along x. */
  function CameraX(camera: CameraKind, perspX: real): real {
    if camera == Orthographic then 0.0 else perspX
  }

  /**
   * One iteration of the view loop of `renderScene`: five renderer calls and
   * the camera's projection refresh, with the scissor on the viewport's
   * rectangle and the refresh right before the draw.
   */
  function ViewCalls(w: real, h: real, v: View, perspX: real): (calls: seq<RenderCall>)
    ensures |calls| == 6
    ensures ScissorFollowsViewport(calls) && ProjectionRefreshedBeforeDraw(calls)
  {
    var r := ViewRect(w, h, v);
    [ SetViewport(r), SetScissor(r), EnableScissorTest(true), SetClearColor(v.background),
      UpdateProjection(v.camera), Draw(v.camera, CameraX(v.camera, perspX)) ]
  }

  /** The calls of the view loop over `views`, in declaration order. */
  function FrameCalls(w: real, h: real, views: seq<View>, perspX: real): (calls: seq<RenderCall>)
    ensures |calls| == 6 * |views|
  {
    if views == [] then []
    else FrameCalls(w, h, views[..|views| - 1], perspX) + ViewCalls(w, h, views[|views| - 1], perspX)
  }

  lemma FrameCallsExtend(w: real, h: real, views: seq<View>, i: nat, perspX: real)
    requires i < |views|
    ensures var v, r := views[i], ViewRect(w, h, views[i]);
      FrameCalls(w, h, views[..i + 1], perspX) == FrameCalls(w, h, views[..i], perspX)
        + [SetViewport(r), SetScissor(r), EnableScissorTest(true), SetClearColor(v.background),
           UpdateProjection(v.camera), Draw(v.camera, CameraX(v.camera, perspX))]
  {
    assert views[..i + 1][..i] == views[..i];
  }

  /** The cameras drawn by a trace, in the order they are drawn. */
  function DrawnCameras(calls: seq<RenderCall>): seq<CameraKind> {
    if calls == [] then []
    else DrawnCameras(calls[..|calls| - 1]) + (if calls[|calls| - 1].Draw? then [calls[|calls| - 1].camera] else [])
  }

  lemma {:induction false} DrawnCamerasAppend(a: seq<RenderCall>, b: seq<RenderCall>)
    ensures DrawnCameras(a + b) == DrawnCameras(a) + DrawnCameras(b)
    decreases |b|
  {
    if b == [] {
      assert a + b == a;
    } else {
      var b' := b[..|b| - 1];
      assert (a + b)[..|a + b| - 1] == a + b';
      DrawnCamerasAppend(a, b');
    }
  }

  /** The shape of one view's calls: viewport and scissor on one rectangle first, projection refresh, then the one draw. */
  lemma ViewCallsShape(w: real, h: real, v: View, perspX: real)
    ensures var vc := ViewCalls(w, h, v, perspX);
      && vc[0] == SetViewport(ViewRect(w, h, v)) && vc[1] == SetScissor(ViewRect(w, h, v))
      && (forall k :: 1 <= k < 6 ==> !vc[k].SetViewport?)
      && (forall k :: 0 <= k < 5 ==> !vc[k].Draw?)
      && vc[4] == UpdateProjection(v.camera) && vc[5].Draw? && vc[5].camera == v.camera
      && DrawnCameras(vc) == [v.camera]
  {
    var vc := ViewCalls(w, h, v, perspX);
    assert vc[..1][..0] == [];
    assert DrawnCameras(vc[..1]) == [];
    assert vc[..2][..1] == vc[..1];
    assert DrawnCameras(vc[..2]) == [];
    assert vc[..3][..2] == vc[..2];
    assert DrawnCameras(vc[..3]) == [];
    assert vc[..4][..3] == vc[..3];
    assert DrawnCameras(vc[..4]) == [];
    assert vc[..5][..4] == vc[..4];
    assert DrawnCameras(vc[..5]) == [];
  }

  /** The views are drawn exactly once each, in declaration order. */
  lemma {:induction false} DrawOrder(w: real, h: real, views: seq<View>, perspX: real)
    ensures |DrawnCameras(FrameCalls(w, h, views, perspX))| == |views|
    ensures forall i :: 0 <= i < |views| ==> DrawnCameras(FrameCalls(w, h, views, perspX))[i] == views[i].camera
  {
    if views != [] {
      var front, v := views[..|views| - 1], views[|views| - 1];
      DrawOrder(w, h, front, perspX);
      DrawnCamerasAppend(FrameCalls(w, h, front, perspX), ViewCalls(w, h, v, perspX));
      ViewCallsShape(w, h, v, perspX);
    }
  }

  /** In `calls`, every `setViewport` is followed at once by a `setScissor` with the identical rectangle. */
  ghost predicate ScissorFollowsViewport(calls: seq<RenderCall>) {
    forall k :: 0 <= k < |calls| && calls[k].SetViewport? ==> k + 1 < |calls| && calls[k + 1] == SetScissor(calls[k].rect)
  }

  /** In `calls`, every draw comes right after its own camera's projection was refreshed. */
  ghost predicate ProjectionRefreshedBeforeDraw(calls: seq<RenderCall>) {
    forall k :: 0 <= k < |calls| && calls[k].Draw? ==> 1 <= k && calls[k - 1] == UpdateProjection(calls[k].camera)
  }

  /** Each view's viewport and scissor rectangles are identical. */
  lemma {:induction false} ScissorMatchesViewport(w: real, h: real, views: seq<View>, perspX: real)
    ensures ScissorFollowsViewport(FrameCalls(w, h, views, perspX))
  {
    if views != [] {
      var front, v := views[..|views| - 1], views[|views| - 1];
      ScissorMatchesViewport(w, h, front, perspX);
      ViewCallsShape(w, h, v, perspX);
      var fc, vc := FrameCalls(w, h, front, perspX), ViewCalls(w, h, v, perspX);
      var calls := fc + vc;
      assert calls == FrameCalls(w, h, views, perspX);
      forall k | 0 <= k < |calls| && calls[k].SetViewport?
        ensures k + 1 < |calls| && calls[k + 1] == SetScissor(calls[k].rect)
      {
        if k >= |fc| {
          assert calls[k] == vc[k - |fc|];
          assert k == |fc|;
          assert calls[k + 1] == vc[1];
        } else {
          assert calls[k] == fc[k];
          assert k + 1 < |fc|;
          assert calls[k + 1] == fc[k + 1];
        }
      }
    }
  }

  /** Each camera's projection is refreshed immediately before it draws. */
  lemma {:induction false} ProjectionBeforeDraw(w: real, h: real, views: seq<View>, perspX: real)
    ensures ProjectionRefreshedBeforeDraw(FrameCalls(w, h, views, perspX))
  {
    if views != [] {
      var front, v := views[..|views| - 1], views[|views| - 1];
      ProjectionBeforeDraw(w, h, front, perspX);
      ViewCallsShape(w, h, v, perspX);
      var fc, vc := FrameCalls(w, h, front, perspX), ViewCalls(w, h, v, perspX);
      var calls := fc + vc;
      assert calls == FrameCalls(w, h, views, perspX);
      forall k | 0 <= k < |calls| && calls[k].Draw?
        ensures 1 <= k && calls[k - 1] == UpdateProjection(calls[k].camera)
      {
        if k >= |fc| {
          assert calls[k] == vc[k - |fc|];
          assert k == |fc| + 5;
          assert calls[k - 1] == vc[4];
        } else {
          assert calls[k] == fc[k];
          assert 1 <= k;
          assert calls[k - 1] == fc[k - 1];
        }
      }
    }
  }

  /**
   * With the default fractions on a W by H canvas, the orthographic view
   * starts at x = 0 and the perspective view at floor(W / 2); both are
   * floor(W / 2) wide and floor(H) high. So they are adjacent, do not
   * overlap, and together stay within the canvas.
   */
  lemma DefaultSplit(w: real, h: real)
    requires 0.0 <= w && 0.0 <= h
    ensures var o, p := ViewRect(w, h, OrthoView), ViewRect(w, h, PerspView);
      && o == Rect(0, 0, (w * 0.5).Floor, h.Floor)
      && p == Rect((w * 0.5).Floor, 0, (w * 0.5).Floor, h.Floor)
      && o.left + o.width == p.left
      && 0 <= p.left + p.width <= w.Floor
  {
  }

  /** Whether `renderScene` must resize: the parent width, or the height it implies, differs from the cache. */
  predicate NeedsResize(cachedWidth: real, cachedHeight: real, width: real, aspect: real): (b: bool)
    requires aspect != 0.0
    ensures !b <==> cachedWidth == width && cachedHeight * aspect == width
  {
    width != cachedWidth || width / aspect != cachedHeight
  }

  /** Once the cache holds (w, w / aspect), drawing again at width w does not resize; any other width does. */
  lemma ResizeOnlyOnChange(cachedWidth: real, width: real, aspect: real)
    requires aspect > 0.0
    ensures NeedsResize(cachedWidth, cachedWidth / aspect, width, aspect) <==> width != cachedWidth
  {
  }

  /** The `setSize` call, if any, that `renderScene` makes before drawing. */
  function ResizeCalls(cachedWidth: real, cachedHeight: real, width: real, aspect: real): (calls: seq<RenderCall>)
    requires aspect != 0.0
    ensures calls == [] ==> cachedWidth == width && cachedHeight * aspect == width
    ensures calls != [] ==> calls == [SetSize(width, width / aspect)] && (cachedWidth != width || cachedHeight * aspect != width)
  {
    if NeedsResize(cachedWidth, cachedHeight, width, aspect) then [SetSize(width, width / aspect)] else []
  }

  /**
   * The render context of one demo canvas: the fixed aspect ratio, the two
   * views, the cached canvas size, the perspective camera's x position and
   * the trace so far (renderer calls and projection refreshes).
   */
  class RenderContext {
    const aspect: real
    const ortho: View
    const persp: View
    var width: real
    var height: real
    var perspCameraX: real
    var trace: seq<RenderCall>

    /**
     * `createDefaultContext(canvas, aspect)`: caches the canvas size, sets up
     * the default views and sizes the renderer to the canvas. The demos pass
     * aspect 2; a zero aspect would divide by zero in `renderScene`.
     */
    constructor (canvasWidth: real, canvasHeight: real, aspect: real)
      requires aspect > 0.0
      ensures this.aspect == aspect && ortho == OrthoView && persp == PerspView
      ensures width == canvasWidth && height == canvasHeight && perspCameraX == 0.0
      ensures trace == [SetSize(canvasWidth, canvasHeight)]
    {
      this.aspect := aspect;
      ortho := OrthoView;
      persp := PerspView;
      width := canvasWidth;
      height := canvasHeight;
      perspCameraX := 0.0;
      trace := [SetSize(canvasWidth, canvasHeight)];
    }

    /**
     * `renderScene(context, scene)`, given the canvas parent's width. The
     * size cache is refreshed, with one `setSize`, exactly when the width
     * or the height it implies changed; then each view is drawn in turn.
     */
    method RenderScene(parentWidth: real)
      requires aspect > 0.0
      modifies this`width, this`height, this`trace
      ensures width == parentWidth && height == parentWidth / aspect
      ensures trace == old(trace) + ResizeCalls(old(width), old(height), parentWidth, aspect)
                       + FrameCalls(width, height, [ortho, persp], perspCameraX)
    {
      Resize(parentWidth);
      DrawViews();
    }

    /** The "make canvas responsive" step of `renderScene`. */
    method Resize(parentWidth: real)
      requires aspect > 0.0
      modifies this`width, this`height, this`trace
      ensures width == parentWidth && height == parentWidth / aspect
      ensures trace == old(trace) + ResizeCalls(old(width), old(height), parentWidth, aspect)
    {
      var newHeight := parentWidth / aspect;
      if parentWidth != width || newHeight != height {
        width := parentWidth;
        height := newHeight;
        trace := trace + [SetSize(parentWidth, newHeight)];
      }
    }

    /** The view loop of `renderScene`: every view, in declaration order, at the cached size. */
    method DrawViews()
      modifies this`trace
      ensures trace == old(trace) + FrameCalls(width, height, [ortho, persp], perspCameraX)
    {
      var views := [ortho, persp];
      var ii := 0;
      while ii < |views|
        invariant 0 <= ii <= |views|
        invariant trace == old(trace) + FrameCalls(width, height, views[..ii], perspCameraX)
      {
        var view := views[ii];
        var r := ViewRect(width, height, view);
        trace := trace + [SetViewport(r), SetScissor(r), EnableScissorTest(true), SetClearColor(view.background)];
        trace := trace + [UpdateProjection(view.camera)];
        trace := trace + [Draw(view.camera, CameraX(view.camera, perspCameraX))];
        FrameCallsExtend(width, height, views, ii, perspCameraX);
        ii := ii + 1;
      }
      assert views[..2] == views;
    }
  }
}
