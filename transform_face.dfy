/**
 * `TransformObject for Face` and `for Faces` (algorithms/transform/face.rs).
 * A face's surface is transformed once and that one transformed surface is
 * handed to the rebuild of every cycle, exterior and interiors alike.
 */
module FaceTransform {
  import opened Wrappers
  import opened Objects
  import opened PartialObjects

  /** One transform applied to surfaces and cycles, with the store it interns into. */
  datatype FaceLeafTransforms = FaceLeafTransforms(
    surface: SurfaceHandle -> SurfaceHandle,    // `Handle<Surface>::transform`
    toPartial: CycleHandle -> PartialCycle,     // `Cycle::to_partial`
    cycle: PartialCycle -> PartialCycle,        // `PartialCycle::transform`
    build: PartialCycle -> CycleHandle)         // `PartialCycle::build`

  /** A cycle transformed and rebuilt on the given surface. */
  function RebuildCycle(c: CycleHandle, surface: SurfaceHandle, t: FaceLeafTransforms): CycleHandle {
    t.build(t.cycle(t.toPartial(c)).WithSurface(Some(surface)))
  }

  /** Each interior rebuilt on the same surface, one output per input, in order. */
  function RebuildCycles(cycles: seq<CycleHandle>, surface: SurfaceHandle, t: FaceLeafTransforms): (r: seq<CycleHandle>)
    ensures |r| == |cycles|
    ensures forall i :: 0 <= i < |cycles| ==> r[i] == RebuildCycle(cycles[i], surface, t)
  {
    if cycles == [] then []
    else [RebuildCycle(cycles[0], surface, t)] + RebuildCycles(cycles[1..], surface, t)
  }

  /** The transform of a face. */
  function TransformFace(face: Face, t: FaceLeafTransforms): (r: Face)
    ensures r.color == face.color
    ensures r.exterior == RebuildCycle(face.exterior, t.surface(face.SurfaceOf()), t)
    ensures |r.interiors| == |face.interiors|
    ensures forall i :: 0 <= i < |face.interiors| ==>
      r.interiors[i] == RebuildCycle(face.interiors[i], t.surface(face.SurfaceOf()), t)
  {
    var surface := t.surface(face.SurfaceOf());
    var exterior := RebuildCycle(face.exterior, surface, t);
    var interiors := RebuildCycles(face.interiors, surface, t);
    FaceFromExterior(exterior).WithInteriors(interiors).WithColor(face.color)
  }

  /** The cycle builder puts the cycle on the surface it is given. */
  ghost predicate BuildKeepsSurface(t: FaceLeafTransforms) {
    forall p: PartialCycle :: p.surface.Some? ==> t.build(p).obj.surface == p.surface.value
  }

  /**
   * A transformed face lies on the transform of its surface, and every cycle
   * of it, exterior and interiors, shares that one surface.
   */
  lemma FaceSharesOneSurface(face: Face, t: FaceLeafTransforms)
    requires BuildKeepsSurface(t)
    ensures var r := TransformFace(face, t);
      && r.SurfaceOf() == t.surface(face.SurfaceOf())
      && forall i :: 0 <= i < |r.interiors| ==> r.interiors[i].obj.surface == r.SurfaceOf()
  {
  }

  /** The transform of a set of faces: a new `Faces`, filled with the transform of each. */
  method TransformFaces(faces: Faces, t: FaceLeafTransforms) returns (r: Faces)
    ensures fresh(r)
    ensures r.contents == set f | f in faces.contents :: TransformFace(f, t)
  {
    r := new Faces();
    var rest := faces.contents;
    while rest != {}
      invariant rest <= faces.contents
      invariant r.contents == set f | f in faces.contents - rest :: TransformFace(f, t)
      decreases rest
    {
      var f :| f in rest;
      r.Insert(TransformFace(f, t));
      rest := rest - {f};
    }
  }
}
