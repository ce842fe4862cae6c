/**
 * The parallax demo: a row of spheres, an eye whose x position sways, the
 * perspective camera and the field-of-view graphic that move with the eye,
 * and the guide lines from the eye to each sphere, rebuilt every tick.
 *
 * The sway is 3 * sin(t / 700) in the source; the model takes that value as
 * a parameter (`offset`), because the clock and the sine are outside it.
 */
module Parallax {
  import opened Wrappers
  import opened Vectors
  import opened SceneGraph
  import opened Viewports

  /** A sphere mesh as the guide lines see it: its position and the `radius` property set on it. */
  datatype Sphere = Sphere(position: Vec3, radius: real)

  /**
   * What `followSphere(eye, center, radius)` builds: two lines from the eye
   * to either side of the sphere. The side offsets need a cross product and
   * `setLength`, so the graphic is kept as the inputs it was built from.
   */
  datatype FollowGraphic = FollowGraphic(eye: Vec3, center: Vec3, radius: real)

  /** `createFollowLinesForSpheres(eye, spheres)`: one follow graphic per sphere, at the sphere's own index. */
  method CreateFollowLinesForSpheres(eye: Vec3, spheres: seq<Sphere>) returns (lines: seq<FollowGraphic>)
    ensures |lines| == |spheres|
    ensures forall i :: 0 <= i < |spheres| ==> lines[i] == FollowGraphic(eye, spheres[i].position, spheres[i].radius)
  {
    lines := [];
    var ii := 0;
    while ii < |spheres|
      invariant 0 <= ii <= |spheres|
      invariant |lines| == ii
      invariant forall i :: 0 <= i < ii ==> lines[i] == FollowGraphic(eye, spheres[i].position, spheres[i].radius)
    {
      var sphere := spheres[ii];
      lines := lines + [FollowGraphic(eye, sphere.position, sphere.radius)];
      ii := ii + 1;
    }
  }

  /**
   * The state `initParallaxScene` closes over. In the source the FOV
   * graphic's position IS the eye-origin vector (createFovGraphic stores the
   * vector it is given), so the two always agree; here they are two fields
   * that the update sets together.
   */
  class ParallaxScene {
    var eyeOrigin: Vec3
    var fovPosition: Vec3
    const spheres: seq<Sphere>
    const follow: Object3D<FollowGraphic>

    /**
     * `initParallaxScene`, given the spheres `createLineOfSpheres` built: the
     * eye at the origin and one follow graphic per sphere, in sphere order.
     */
    constructor (spheres: seq<Sphere>)
      ensures this.spheres == spheres && eyeOrigin == Vec3(0.0, 0.0, 0.0) && fovPosition == eyeOrigin
      ensures fresh(follow)
      ensures |follow.children| == |spheres|
      ensures forall i :: 0 <= i < |spheres| ==> follow.children[i] == FollowGraphic(eyeOrigin, spheres[i].position, spheres[i].radius)
    {
      this.spheres := spheres;
      var eye := Vec(None, None, None);
      eyeOrigin := eye;
      fovPosition := eye;
      var lines := CreateFollowLinesForSpheres(eye, spheres);
      var f := new Object3D<FollowGraphic>();
      f.children := lines;
      follow := f;
    }

    /**
     * The scene's `updateFun`: the eye, the perspective camera and the FOV
     * graphic all move to x = offset, and the guide lines are rebuilt from the
     * moved eye with `replaceChildren`, which leaves them in reverse sphere
     * order: exactly one graphic per sphere.
     */
    method Update(ctx: RenderContext, offset: real)
      modifies this`eyeOrigin, this`fovPosition, ctx`perspCameraX, follow
      ensures eyeOrigin == old(eyeOrigin).(x := offset)
      ensures fovPosition == old(fovPosition).(x := offset)
      ensures ctx.perspCameraX == offset
      ensures |follow.children| == |spheres|
      ensures forall i :: 0 <= i < |spheres| ==>
        follow.children[i] == FollowGraphic(eyeOrigin, spheres[|spheres| - 1 - i].position, spheres[|spheres| - 1 - i].radius)
    {
      eyeOrigin := eyeOrigin.(x := offset);
      ctx.perspCameraX := offset;
      fovPosition := fovPosition.(x := offset);
      var lines := CreateFollowLinesForSpheres(eyeOrigin, spheres);
      ReplaceChildren(follow, lines);
      forall i | 0 <= i < |spheres|
        ensures follow.children[i] == FollowGraphic(eyeOrigin, spheres[|spheres| - 1 - i].position, spheres[|spheres| - 1 - i].radius)
      {
        ReverseAt(lines, i);
      }
    }
  }

  /**
   * One tick of `startRenderLoop` for the parallax scene: the scene update
   * runs first, then `renderScene`, so the frame drawn is the one of the
   * updated scene: the perspective view draws from camera x = offset.
   */
  method Tick(ctx: RenderContext, scene: ParallaxScene, offset: real, parentWidth: real)
    requires ctx.aspect > 0.0
    modifies ctx, scene, scene.follow
    ensures scene.eyeOrigin == old(scene.eyeOrigin).(x := offset)
    ensures scene.fovPosition == old(scene.fovPosition).(x := offset)
    ensures ctx.perspCameraX == offset
    ensures |scene.follow.children| == |scene.spheres|
    ensures forall i :: 0 <= i < |scene.spheres| ==>
      scene.follow.children[i] == FollowGraphic(scene.eyeOrigin, scene.spheres[|scene.spheres| - 1 - i].position,
                                                scene.spheres[|scene.spheres| - 1 - i].radius)
    ensures ctx.width == parentWidth && ctx.height == parentWidth / ctx.aspect
    ensures ctx.trace == old(ctx.trace) + ResizeCalls(old(ctx.width), old(ctx.height), parentWidth, ctx.aspect)
                         + FrameCalls(ctx.width, ctx.height, [ctx.ortho, ctx.persp], offset)
  {
    scene.Update(ctx, offset);
    ctx.RenderScene(parentWidth);
  }

  /**
   * The frame of a tick with the default views: the orthographic view is
   * drawn first, from x = 0, then the perspective view, from the eye's new
   * x position.
   */
  lemma DefaultFrameDraws(w: real, h: real, offset: real)
    ensures var calls := FrameCalls(w, h, [OrthoView, PerspView], offset);
      && DrawnCameras(calls) == [Orthographic, Perspective]
      && calls[5] == Draw(Orthographic, 0.0)
      && calls[11] == Draw(Perspective, offset)
  {
    var views := [OrthoView, PerspView];
    DrawOrder(w, h, views, offset);
    FrameCallsExtend(w, h, views, 0, offset);
    FrameCallsExtend(w, h, views, 1, offset);
    assert views[..0] == [];
    assert views[..2] == views;
  }
}
