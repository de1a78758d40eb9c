/**
 * `FaceFaceIntersection::compute` (algorithms/intersect/face_face.rs): the
 * surfaces of two faces are intersected, each resulting curve is clipped
 * against its own face, the two interval sets are merged, and an empty merge
 * means the faces do not intersect.
 */
module FaceFace {
  import opened Wrappers
  import opened Objects

  /** `CurveFaceIntersection`: intervals in curve coordinates. */
  datatype CurveFaceIntersection = CurveFaceIntersection(intervals: seq<Pair<real>>) {

    /** `is_empty`: there are no intervals. */
    predicate IsEmpty() {
      |intervals| == 0
    }
  }

  /** The result record: one curve per face, and the intervals valid on both. */
  datatype FaceFaceIntersection = FaceFaceIntersection(
    intersectionCurves: Pair<CurveHandle>,
    intersectionIntervals: CurveFaceIntersection)

  /** The intersection algorithms `compute` is built from. */
  datatype Intersectors = Intersectors(
    // `SurfaceSurfaceIntersection::compute`, reduced to its curves
    surfaceSurface: Pair<SurfaceHandle> -> Option<Pair<CurveHandle>>,
    // `CurveFaceIntersection::compute`
    curveFace: (CurveHandle, Face) -> CurveFaceIntersection,
    // `CurveFaceIntersection::merge`
    merge: (CurveFaceIntersection, CurveFaceIntersection) -> CurveFaceIntersection)

  /** The surfaces of both faces, in input order. */
  function Surfaces(faces: Pair<Face>): (r: Pair<SurfaceHandle>)
    ensures r.first == faces.first.SurfaceOf() && r.second == faces.second.SurfaceOf()
  {
    faces.Map((f: Face) => f.SurfaceOf())
  }

  /** The merged intervals of curve A clipped by face A and curve B clipped by face B. */
  function MergedIntervals(curves: Pair<CurveHandle>, faces: Pair<Face>, x: Intersectors): CurveFaceIntersection {
    x.merge(x.curveFace(curves.first, faces.first), x.curveFace(curves.second, faces.second))
  }

  /** `FaceFaceIntersection::compute` */
  function Compute(faces: Pair<Face>, x: Intersectors): (r: Option<FaceFaceIntersection>)
    ensures x.surfaceSurface(Surfaces(faces)).None? ==> r.None?
    ensures r.Some? <==>
      && x.surfaceSurface(Surfaces(faces)).Some?
      && !MergedIntervals(x.surfaceSurface(Surfaces(faces)).value, faces, x).IsEmpty()
    ensures r.Some? ==>
      && r.value.intersectionCurves == x.surfaceSurface(Surfaces(faces)).value
      && r.value.intersectionIntervals == x.merge(
           x.curveFace(r.value.intersectionCurves.first, faces.first),
           x.curveFace(r.value.intersectionCurves.second, faces.second))
      && |r.value.intersectionIntervals.intervals| > 0
  {
    var intersectionCurves :- x.surfaceSurface(Surfaces(faces));
    var a := x.curveFace(intersectionCurves.first, faces.first);
    var b := x.curveFace(intersectionCurves.second, faces.second);
    var intersectionIntervals := x.merge(a, b);
    if intersectionIntervals.IsEmpty() then None
    else Some(FaceFaceIntersection(intersectionCurves, intersectionIntervals))
  }

  /** The surface–surface intersection reports its curves in the order of its surfaces. */
  ghost predicate SwapsWithSurfaces(x: Intersectors) {
    forall s: Pair<SurfaceHandle> {:trigger x.surfaceSurface(s)} ::
      && (x.surfaceSurface(s.Swap()).Some? <==> x.surfaceSurface(s).Some?)
      && (x.surfaceSurface(s).Some? ==> x.surfaceSurface(s.Swap()).value == x.surfaceSurface(s).value.Swap())
  }

  /** Merging interval sets does not depend on their order. */
  ghost predicate MergeCommutes(x: Intersectors) {
    forall a, b {:trigger x.merge(a, b)} :: x.merge(a, b) == x.merge(b, a)
  }

  /**
   * Intersecting the faces in the other order finds the same intervals, with
   * the curves swapped along with the faces: each curve stays with its own face.
   */
  lemma ComputeSymmetric(faces: Pair<Face>, x: Intersectors)
    requires SwapsWithSurfaces(x)
    requires MergeCommutes(x)
    ensures Compute(faces.Swap(), x).Some? <==> Compute(faces, x).Some?
    ensures Compute(faces, x).Some? ==>
      && Compute(faces.Swap(), x).value.intersectionCurves == Compute(faces, x).value.intersectionCurves.Swap()
      && Compute(faces.Swap(), x).value.intersectionIntervals == Compute(faces, x).value.intersectionIntervals
  {
  }
}
