# VR-scale demo scenes and benchmark charts: a Dafny model

This project models the computational core of a technical blog's presentation scripts.

- `javascripts/posts/vr-scale.js`: the interactive two-view WebGL scenes. Modelled here:
  - the `vec` and `lineGeometry`/`makeLine` geometry helpers;
  - `replaceChildren`, which empties a scene node's child list and refills it;
  - the render context made by `createDefaultContext`, with an orthographic view on the left half and a perspective view on the right half of one canvas;
  - `renderScene`, which keeps a responsive-resize cache of the canvas size and draws each view into its own pixel rectangle;
  - one tick of the render loop;
  - the parallax scene, whose eye, perspective camera and field-of-view graphic sway together while the guide lines to the spheres are rebuilt every tick.
- `javascripts/render-charts.js`: the per-chart canonicalisation of the benchmark charts. Every dataset gets end-aligned data labels, the highlight list defaults to empty, data-point colours depend on membership in the highlight list, and the legend appears only for charts with several datasets.

Modules:

- `Vectors` (vectors.dfy): `Vec3`, `vec`, linear interpolation, `lineGeometry`, `makeLine`.
- `SceneGraph` (scene_graph.dfy): `Object3D` as a class holding a `children` sequence, with `add`/`remove`, and `replaceChildren` with its two count-down loops.
- `Viewports` (viewports.dfy): views, pixel rectangles, the trace of renderer calls and camera projection refreshes, and the `RenderContext` class (cached `width`/`height`, perspective camera x, trace) with `renderScene`.
- `Parallax` (parallax.dfy): `createFollowLinesForSpheres`, the parallax scene's state and update, and a render-loop tick.
- `Charts` (charts.dfy): chart descriptors (a `Chart` class whose datasets are relabelled in place), the canonical copy, colours, legend, title and axes, and the loop over all charts.
- `BenchmarkCharts` (benchmark_charts.dfy): two worked charts.
- `Wrappers` (wrappers.dfy): `Option`, standing for "undefined or a value".

Modelling choices:

- Numbers are exact `real`s and `Math.floor` is `.Floor`. JavaScript doubles are abstracted, so equalities such as "the last vertex of a line is its end point" hold in the exact model only.
- Library objects (meshes, lines, cameras, the renderer) are values. What `renderScene` does to the WebGL renderer and the cameras is a trace of `RenderCall` values: per view, five renderer calls and one camera projection refresh.
- THREE's `Object3D.add` appends a child. `remove` takes out the first occurrence of the object and does nothing when it is absent.
- Inputs that come from the page or the clock are parameters:
  - the canvas parent's width, which the source reads with jQuery;
  - the eye offset `3 * sin(t / 700)`;
  - the spheres built by `createLineOfSpheres`.

## Model

| member | source | states |
|---|---|---|
| `Vectors.Vec` | javascripts/posts/vr-scale.js:3-9 | a missing x is 0, a missing y copies x, a missing z copies y; so `vec()` = (0,0,0), `vec(a)` = (a,a,a), `vec(a,b)` = (a,b,b), and three given arguments are kept |
| `Vectors.Lerp` | javascripts/posts/vr-scale.js:149 | interpolating at 0 gives the start vertex and at 1 gives the end vertex |
| `Vectors.LerpBetween` | javascripts/posts/vr-scale.js:146-150 | with a fraction in [0, 1], every interpolated vertex lies, coordinate by coordinate, between start and end |
| `Vectors.LineGeometry` | javascripts/posts/vr-scale.js:143-152 | for n > 0 segments: exactly n + 1 vertices; vertex i is start interpolated toward end at i / n; vertex 0 is start and vertex n is end |
| `Vectors.MakeLine` | javascripts/posts/vr-scale.js:11-19 | always 11 segments, so 12 vertices from start to end; the line mode defaults to LinePieces |
| `SceneGraph.IndexOf` | javascripts/posts/vr-scale.js:28 | the index `remove` looks up holds the child, and no earlier position does |
| `SceneGraph.RemoveFirst` | javascripts/posts/vr-scale.js:28 | removing a present child takes out its first occurrence and keeps everything before and after it in order, so the list shrinks by one and exactly one occurrence leaves the multiset; removing an absent child changes nothing |
| `SceneGraph.Object3D.Add` | javascripts/posts/vr-scale.js:35 | `add` appends the child to the child list |
| `SceneGraph.Object3D.Remove` | javascripts/posts/vr-scale.js:28 | `remove` takes the first occurrence of the child out of the child list |
| `SceneGraph.ReverseAt` | javascripts/posts/vr-scale.js:31-36 | the list built by adding from the last element to the first holds element len(s)-1-k at position k |
| `SceneGraph.ReversePermutes` | javascripts/posts/vr-scale.js:31-36 | that list holds exactly the same elements, with the same multiplicities |
| `SceneGraph.ReplaceChildren` | javascripts/posts/vr-scale.js:21-37 | afterwards the children are the new children in reverse order: none of the old children remain unless also new, there are exactly as many as new children, and all are drawn from the new list |
| `Viewports.ViewRect` | javascripts/posts/vr-scale.js:128-131 | each of the four pixel values is its fraction times the canvas dimension, rounded down: at most that product and less than one below it |
| `Viewports.ViewCalls` | javascripts/posts/vr-scale.js:127-139 | one view makes five renderer calls and one camera projection refresh; its scissor repeats its viewport and its draw comes right after the refresh |
| `Viewports.FrameCalls` | javascripts/posts/vr-scale.js:125-140 | per view, five renderer calls and one camera projection refresh, in view order |
| `Viewports.ViewCallsShape` | javascripts/posts/vr-scale.js:127-139 | a view sets the viewport and then the scissor on one rectangle, refreshes its camera's projection, and then draws exactly once with that camera |
| `Viewports.DrawOrder` | javascripts/posts/vr-scale.js:122-140 | the frame draws each view exactly once, in declaration order |
| `Viewports.ScissorMatchesViewport` | javascripts/posts/vr-scale.js:128-133 | every `setViewport` is followed at once by `setScissor` with the identical rectangle |
| `Viewports.ProjectionBeforeDraw` | javascripts/posts/vr-scale.js:137-139 | every draw comes immediately after its own camera's projection refresh |
| `Viewports.DefaultSplit` | javascripts/posts/vr-scale.js:128-131 | with the default fractions (lines 69-72 and 79-82), the orthographic view is (0, 0, floor(W/2), floor(H)) and the perspective view is (floor(W/2), 0, floor(W/2), floor(H)); the views are adjacent, do not overlap, and together stay within floor(W) |
| `Viewports.NeedsResize` | javascripts/posts/vr-scale.js:115 | no resize is needed exactly when the cached width is the parent width and the cached height times the aspect ratio gives that width back |
| `Viewports.ResizeCalls` | javascripts/posts/vr-scale.js:115-120 | with the cache already at the parent width and its implied height there is no call; otherwise there is exactly one `setSize(w, w/aspect)` |
| `Viewports.ResizeOnlyOnChange` | javascripts/posts/vr-scale.js:112-120 | once the cache holds (w, w/aspect), a resize is needed exactly when the parent width differs from w, so an unchanged width performs no resize |
| `Viewports.RenderContext.constructor` | javascripts/posts/vr-scale.js:39-106 | the cache starts at the canvas size, the views are the default left and right halves, the perspective camera is at x = 0, and the renderer is sized to the canvas |
| `Viewports.RenderContext.RenderScene` | javascripts/posts/vr-scale.js:108-141 | `setSize(w, w/aspect)` is called exactly when w or w/aspect differs from the cache, and the cache then equals (w, w/aspect); after that, the orthographic and perspective views are drawn in that order |
| `Viewports.RenderContext.Resize` | javascripts/posts/vr-scale.js:110-120 | the cache ends at (w, w/aspect), and the trace grows by exactly the resize calls the old cache calls for |
| `Viewports.RenderContext.DrawViews` | javascripts/posts/vr-scale.js:122-140 | the trace grows by the frame's calls for the orthographic and then the perspective view, at the cached size |
| `Parallax.CreateFollowLinesForSpheres` | javascripts/posts/vr-scale.js:325-337 | one follow graphic per sphere, index-aligned with the input, each built from the eye and that sphere's position and radius |
| `Parallax.ParallaxScene.constructor` | javascripts/posts/vr-scale.js:339-366 | the eye and the FOV graphic start at the origin, and the follow container holds one graphic per sphere, in sphere order |
| `Parallax.ParallaxScene.Update` | javascripts/posts/vr-scale.js:370-385 | eye-origin x, perspective-camera x and FOV-graphic x all equal the offset, and nothing else of them changes; the follow container holds exactly one graphic per sphere, rebuilt from the moved eye, in reverse sphere order |
| `Parallax.Tick` | javascripts/posts/vr-scale.js:189-198 | a tick updates the scene before rendering: the eye origin, the FOV graphic and the perspective camera move to the offset along x, and the follow graphics are rebuilt from the moved eye in reverse sphere order; the frame is then drawn with the camera already at the new offset, after the resize calls the cache calls for |
| `Parallax.DefaultFrameDraws` | javascripts/posts/vr-scale.js:122-140 | with the default views, the frame draws the orthographic camera (at x = 0) and then the perspective camera (at the eye's x) |
| `Charts.EndLabelled` | javascripts/render-charts.js:32-35 | a labelled dataset keeps its name and values and gets data labels {align: 'end', anchor: 'end'} |
| `Charts.WithEndLabels` | javascripts/render-charts.js:32-35 | labelling a list keeps its length and order: element i is dataset i, end-labelled |
| `Charts.WithEndLabelsIdempotent` | javascripts/render-charts.js:32-35 | labelling again changes nothing |
| `Charts.Chart.AddEndLabels` | javascripts/render-charts.js:32-35 | the in-place loop leaves the datasets exactly end-labelled |
| `Charts.HighlightDefault` | javascripts/render-charts.js:36 | a chart without `highlightIndices` gets [], and one that supplies a list keeps it unchanged |
| `Charts.Chart.Canonical` | javascripts/render-charts.js:36 | the copy handed to the library keeps the chart's canvas id, type, title, labels and datasets, and its highlight list is defaulted |
| `Charts.BaseColor` | javascripts/render-charts.js:38-40 | a point's colour is 'rgb(35, 216, 158)' exactly when its index is highlighted, and '#2ba6cb' exactly when it is not |
| `Charts.Colorize` | javascripts/render-charts.js:38-42 | the opaque variant is the base colour itself; the other variant is the same base colour at alpha 0.5 |
| `Charts.LegendOptions` | javascripts/render-charts.js:44-47 | the legend is displayed exactly when there is more than one dataset, and it is always at the top |
| `Charts.Configure` | javascripts/render-charts.js:50-68 | the configuration is responsive and keeps the chart's type and canonical data; title displayed with the chart's own title; legend rule; the y axis starts at 0 and is labelled 'ns'; the border of point i is its opaque base colour and the background is that colour at alpha 0.5 |
| `Charts.RenderChart` | javascripts/render-charts.js:30-68 | one chart: its datasets are end-labelled in place, and its configuration is built from the canonical copy taken after the labelling, whose datasets are the original ones end-labelled |
| `Charts.RenderAllCharts` | javascripts/render-charts.js:30-69 | every chart's datasets are end-labelled in place (to the same effect as once, even if a chart is listed twice), and one configuration per chart, in list order, is built from its canonical copy with its original datasets end-labelled |
| `BenchmarkCharts.NaiveBenchmarkChart` | javascripts/posts/faster-integer-parsing-bar-charts.js:21-43 | with highlight index 4 over five benchmarks, point 4 alone is drawn in the highlight colour, its series is end-labelled, and no legend is shown |
| `BenchmarkCharts.UnhighlightedChart` | javascripts/render-charts.js:36-47 | labels A, B, C, one series, no highlight list: the highlight list is [], no point is highlighted, and the legend is hidden |

## Left out

- THREE.js and WebGL internals are not modelled:
  - renderer construction and its shadow settings;
  - the cameras' frusta, `up` and `lookAt`;
  - lights, materials and meshes of `initLitScene`;
  - the scene graph passed to `renderer.render`, which the `Draw` call does not record.
- The field-of-view graphic's rotation by (fov/360)·π and the side offsets of `followSphere` are not modelled. Both need trigonometry, cross products or `setLength` on floating-point vectors. A follow graphic is kept as the eye, centre and radius it was built from.
- `createLineOfSpheres` (depth scaling) is not modelled. The parallax scene receives its spheres as a parameter.
- The sphere scene (`initSphereScene`) and its sine-driven update are not modelled. `Parallax.Tick` models the render-loop tick for the parallax scene only.
- The clock (`getTick` reads `Date`), `Math.sin`, `requestAnimationFrame`, `window.onload`, jQuery and DOM lookups, and `withCanvas` are not modelled. The eye offset and the parent width are parameters.
- The charting library's global theme defaults (render-charts.js lines 2-7) are not modelled. The colour helper is abstracted to `Alpha(c, 0.5)`.
- Floating point is not modelled. Reals stand for doubles, so NaN, Infinity and rounding are not represented.
- `Vectors.LineGeometry`: requires at least one segment. With zero segments the source divides 0 by 0 and yields a NaN vertex, which reals cannot express.
- `Viewports.RenderContext.constructor`: requires a positive aspect ratio. The demos always pass 2, and a zero aspect would divide by zero.
- Aliasing is not modelled:
  - the FOV graphic's position is the same vector object as the eye origin (two fields set together here);
  - `Object.assign` makes a shallow copy that shares the datasets array;
  - a `replaceChildren` call whose new list is the node's own child array;
  - THREE's re-parenting of a child that already had a parent.
- `Object.assign` behaviour with a `highlightIndices` key present but set to undefined is not modelled. Such a key counts as absent here.
- The accidental implicit globals (`i`, `alpha`, `sphereIndex`, `ii`) are a scoping artefact and are not reproduced.
