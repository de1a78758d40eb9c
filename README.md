# Fornjot kernel: partial edges, transforms and face–face intersection

This project models part of the Fornjot CAD kernel (`fj-kernel`) in Dafny and
proves properties of the model. It covers four pieces:

- **Partial edges** (`partial/objects/edge.rs`). `PartialHalfEdge` and
  `PartialGlobalEdge` are records of optional fields.
  - The chained `with_*` setters overwrite a field with `Some` and keep it with `None`.
  - `as_circle_from_radius`, `as_line_segment_from_points` and `as_line_segment`
    infer a curve and place the vertices on it.
  - `build` finishes the curve, interns it in the object store, hands it to
    every vertex, and derives the global edge when none is given.
  - `From<&HalfEdge>` and `From<&GlobalEdge>` turn a finished object back into a partial one.
- **Transforms** (`algorithms/transform/`):
  - a `GlobalPath` keeps its variant;
  - a partial half-edge re-points both vertices and its global form at the one transformed curve;
  - a partial global edge transforms its present fields;
  - a face transforms its surface once and rebuilds every cycle on it;
  - `Faces` and `Sketch` map each face into a fresh collection.
- **Face–face intersection** (`algorithms/intersect/face_face.rs`). The two
  surfaces are intersected, and each resulting curve is clipped against its own face.
  The two interval sets are then merged. An empty merge means no intersection.

The modules are:

- `Wrappers`: `Option`, `Result` and `Pair`, Rust's `[T; 2]`.
- `Geometry`: paths and the abstract `Transform`.
- `Objects`: the finished objects, their handles, the object store, `Faces` and `Sketch`.
- `PartialObjects`: the partial objects that edge.rs uses but does not define, and `MaybePartial`.
- `PartialEdge`: edge.rs itself.
- `PathTransform`, `EdgeTransform`, `FaceTransform` and `SketchTransform`: the transforms.
- `FaceFace`: the intersection.

Several algorithms are called but not defined in these files. The model takes
each of them as a function-typed field of a parameter record. These records are
`Builders`, `LeafTransforms`, `FaceLeafTransforms`, `Intersectors` and
`Transform`.

Each builder panic (`expect`) becomes a `Failure` that carries a `BuildError`
naming the message.

A handle is modelled as its store identity together with the object it
dereferences to. `ObjectStore`, Rust's `Objects`, keeps only the curve
partition. That is the only partition the modelled `build` writes to itself.

`PartialHalfEdge::build` finishes and interns the curve before it checks for
vertices. A half-edge without vertices therefore fails only after its curve has
entered the store. `BuildHalfEdge` states this order.

## Model

| member | source | states |
|---|---|---|
| `PathTransform.TransformGlobalPath` | crates/fj-kernel/src/algorithms/transform/path.rs:8-15 | a circle stays a circle and a line stays a line, in both directions, and the payload is the transformed circle or line |
| `PathTransform.TransformComposes` | crates/fj-kernel/src/algorithms/transform/path.rs:9-14 | transforming twice equals transforming once by the composed transform |
| `PathTransform.IdentityFixesPath` | crates/fj-kernel/src/algorithms/transform/path.rs:9-14 | a transform that fixes the underlying circle or line leaves the path unchanged |
| `PartialEdge.PartialGlobalEdge.WithCurve` | crates/fj-kernel/src/partial/objects/edge.rs:243-249 | the curve becomes the given one when present and is kept otherwise; the vertices never change; `None` returns the partial unchanged |
| `PartialEdge.PartialGlobalEdge.WithVertices` | crates/fj-kernel/src/partial/objects/edge.rs:251-260 | the vertices become the given ones when present and are kept otherwise; the curve never changes |
| `PartialEdge.PartialGlobalEdge.FromCurveAndVertices` | crates/fj-kernel/src/partial/objects/edge.rs:262-272 | the curve is the finished curve's global form and the vertices are the two vertices' global forms, in order |
| `PartialEdge.PartialGlobalEdge.Build` | crates/fj-kernel/src/partial/objects/edge.rs:274-284 | no inference: it fails without a curve, then without vertices, and succeeds exactly when both are present, giving the curve and the normalised vertex pair |
| `PartialEdge.GlobalEdgeSettersUnion` | crates/fj-kernel/src/partial/objects/edge.rs:243-260 | setting the curve or the vertices of a partial global edge twice keeps the last value given, or the earlier one when the last is `None` |
| `PartialEdge.FromGlobalEdge` | crates/fj-kernel/src/partial/objects/edge.rs:287-296 | every field is populated: the edge's curve, and its vertex pair in the normalised order the edge stores |
| `PartialEdge.GlobalEdgeRoundTrip` | crates/fj-kernel/src/partial/objects/edge.rs:287-296 | the partial of a global edge, whose vertices are in normalised order, builds back into that edge |
| `PartialEdge.PartialHalfEdge.WithSurface` | crates/fj-kernel/src/partial/objects/edge.rs:33-39 | `Some` sets the surface, `None` keeps it, and no other field changes |
| `PartialEdge.PartialHalfEdge.WithCurve` | crates/fj-kernel/src/partial/objects/edge.rs:41-50 | `Some` sets the curve, `None` keeps it, and no other field changes |
| `PartialEdge.PartialHalfEdge.WithVertices` | crates/fj-kernel/src/partial/objects/edge.rs:52-61 | `Some` sets the vertices, `None` keeps them, and no other field changes |
| `PartialEdge.PartialHalfEdge.WithGlobalForm` | crates/fj-kernel/src/partial/objects/edge.rs:63-72 | `Some` sets the global form, `None` keeps it, and no other field changes |
| `PartialEdge.SettersUnion` | crates/fj-kernel/src/partial/objects/edge.rs:33-72 | setting any of the four fields (surface, curve, vertices, global form) twice keeps the last value given, or the earlier one when the last is `None` |
| `PartialEdge.PartialHalfEdge.AsCircleFromRadius` | crates/fj-kernel/src/partial/objects/edge.rs:74-99 | surface and global form are untouched; the new curve is a partial circle of that radius on the half-edge's surface; the two vertices sit at 0 and tau on that curve and share one global vertex, derived from the curve at coordinate 0 |
| `PartialEdge.PartialHalfEdge.ExtractGlobalCurve` | crates/fj-kernel/src/partial/objects/edge.rs:119-137 | the existing curve's global form wins, then the global form's curve, otherwise none |
| `PartialEdge.PartialHalfEdge.AsLineSegment` | crates/fj-kernel/src/partial/objects/edge.rs:117-181 | succeeds exactly when vertices, both surface forms, a surface and both positions are found, with each missing piece giving its own error. The surface is taken from the half-edge's own field, then the `from` vertex, then the `to` vertex. The new curve is the line through the two positions and carries the extracted global curve. Partial vertices move to 0 and 1 on it, while full ones are untouched. Surface and global form are kept |
| `PartialEdge.PartialHalfEdge.AsLineSegmentFromPoints` | crates/fj-kernel/src/partial/objects/edge.rs:101-115 | succeeds exactly when the half-edge has a surface and otherwise fails for want of one; the two vertices carry surface forms with that surface and the given points, at 0 and 1 on the line through them |
| `PartialEdge.PartialHalfEdge.FinishWithCurve` | crates/fj-kernel/src/partial/objects/edge.rs:191-211 | fails without vertices. Each vertex is handed the finished curve and then finished. An explicit global form is finished as given; otherwise the global edge is the curve's global form with the vertices' global forms in order. It succeeds whenever every part it finishes does |
| `PartialEdge.IntoFullCurve` | crates/fj-kernel/src/partial/objects/edge.rs:186-190 | a full curve is returned with the store unchanged; a partial one is finished and appended to the store under the next identity, or its failure is returned with the store unchanged |
| `PartialEdge.BuildHalfEdge` | crates/fj-kernel/src/partial/objects/edge.rs:183-212 | fails without a curve, leaving the store unchanged. The half-edge's surface is pushed into a partial curve before that curve is finished and interned. The rest is finished against the interned curve |
| `PartialEdge.BuiltVerticesShareCurve` | crates/fj-kernel/src/partial/objects/edge.rs:191-200 | every vertex that was partial references the finished curve in the built half-edge |
| `PartialEdge.FromHalfEdge` | crates/fj-kernel/src/partial/objects/edge.rs:215-224 | every field is populated: the surface of the half-edge's curve, that curve as a full handle, both vertices as full vertices in order, and the global edge as a full object |
| `PartialEdge.HalfEdgeRoundTrip` | crates/fj-kernel/src/partial/objects/edge.rs:215-224 | the partial of a half-edge holds its curve and finishes back into the same half-edge |
| `EdgeTransform.TransformOption` | crates/fj-kernel/src/algorithms/transform/edge.rs:52 | an absent value stays absent; a present one is transformed, and a failure propagates |
| `EdgeTransform.TransformGlobalEdge` | crates/fj-kernel/src/algorithms/transform/edge.rs:46-63 | succeeds exactly when the curve and every present vertex transform, and otherwise returns the first failing leaf's own error, in the order curve, first vertex, second vertex; absent vertices stay absent and present ones are each transformed, in order |
| `EdgeTransform.TransformHalfEdge` | crates/fj-kernel/src/algorithms/transform/edge.rs:12-44 | succeeds exactly when every leaf transform does. The first failure in source order is the result: the curve's error, or, once the curve and both vertices succeed, the global edge's error (a vertex failure is stated by `VertexFailureAborts`). On success, both vertices are re-pointed to the one transformed curve. The global form's curve is that curve's global form when it has one, and otherwise the global form's own transformed curve. The surface is absent |
| `EdgeTransform.VertexFailureAborts` | crates/fj-kernel/src/algorithms/transform/edge.rs:23-30 | a failing vertex transform fails the half-edge transform with that error |
| `EdgeTransform.GlobalFormKeepsOwnCurve` | crates/fj-kernel/src/algorithms/transform/edge.rs:31-37 | without a global identity on the transformed curve, the global form keeps its own transformed curve |
| `FaceTransform.RebuildCycles` | crates/fj-kernel/src/algorithms/transform/face.rs:19-25 | one output interior per input interior, each rebuilt on the given surface, in order |
| `FaceTransform.TransformFace` | crates/fj-kernel/src/algorithms/transform/face.rs:10-33 | the colour is kept, and the exterior and every interior are rebuilt on the one transformed surface of the face |
| `FaceTransform.FaceSharesOneSurface` | crates/fj-kernel/src/algorithms/transform/face.rs:12-25 | the transformed face lies on the transform of its surface, and every interior cycle shares that surface |
| `FaceTransform.TransformFaces` | crates/fj-kernel/src/algorithms/transform/face.rs:35-43 | a fresh `Faces` whose contents are exactly the transforms of the input faces |
| `SketchTransform.TransformSketch` | crates/fj-kernel/src/algorithms/transform/sketch.rs:7-15 | every face's transform is in the result, and every face of the result is the transform of an input face |
| `SketchTransform.TransformSketchIsPerFace` | crates/fj-kernel/src/algorithms/transform/sketch.rs:8-14 | transforming a union of faces is the union of the transforms: no state passes between faces |
| `SketchTransform.EmptySketchStaysEmpty` | crates/fj-kernel/src/algorithms/transform/sketch.rs:8-14 | the transform of an empty sketch is empty |
| `FaceFace.Surfaces` | crates/fj-kernel/src/algorithms/intersect/face_face.rs:28 | the surfaces handed on are the two faces' surfaces, in input order |
| `FaceFace.Compute` | crates/fj-kernel/src/algorithms/intersect/face_face.rs:27-58 | `None` when the surfaces do not intersect. A result exists exactly when they do and the merged intervals are non-empty. The result's curves are the surface–surface curves, unchanged and in order. Its intervals are the merge of curve A clipped by face A and curve B clipped by face B, and they are non-empty |
| `FaceFace.ComputeSymmetric` | crates/fj-kernel/src/algorithms/intersect/face_face.rs:36-48 | suppose the surface intersection follows the order of its surfaces and merge is commutative. Then swapping the faces swaps the curves and keeps the intervals: each curve stays with its own face |

## Left out

- Geometry is not modelled: `Transform` is a pair of abstract maps on circles and lines, and surface paths are kept symbolic (`CircleFromRadius`, `LineFromPoints`). Evaluating them needs floating point, which is out of scope.
- `TAU` is the shortest decimal that round-trips to the `f64` constant, not its exact binary value, and arithmetic on curve coordinates is not performed.
- Several collaborators are taken as abstract function parameters, because their code is not part of this model: `PartialCurve::build`, `PartialVertex::build`, `PartialGlobalVertex::from_curve_and_position`, the vertex normalisation of `GlobalEdge::new`, the leaf transforms, `Handle<Surface>::transform`, `PartialCycle::transform` and `build`, `SurfaceSurfaceIntersection::compute`, `CurveFaceIntersection::compute` and `merge`.
- `HalfEdge::new` is taken as the plain constructor; any check it performs is not part of this model.
- `CurveFaceIntersection::is_empty` is taken to mean "no intervals".
- The object store keeps only its curve partition. Inserts made by the abstract collaborators are not tracked.
- Panics become `Failure` results. The model cannot express that a panic aborts the process.
- The concrete face–face tests over the xy and xz planes need real plane intersection and polygon clipping, so they are not modelled.
- `EdgeTransform.TransformHalfEdge` is modelled against `curve()`, `vertices()` and `global_form()` accessors. These read an absent field as an empty partial, because transform/edge.rs comes from a version of the struct whose fields are not optional.
- `FaceTransform.TransformFace` states that the face's surface is transformed exactly once by passing one transformed value to every cycle rebuild. That surface transform is a function of its input, so the model does not capture that the source calls it only once, and it does not model the freshness of handles.
- `Objects.DefaultColor` stands in for the kernel's default face colour, whose value is not part of this model.
- The application entry point (`fj-app`) is not part of this model.
