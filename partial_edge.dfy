/**
 * `PartialHalfEdge` and `PartialGlobalEdge` (partial/objects/edge.rs): records
 * of optional fields with chained setters, derivation helpers that infer a
 * curve and place vertices on it, and `build`, which finalises into the store.
 */
module PartialEdge {
  import opened Wrappers
  import opened Geometry
  import opened Objects
  import opened PartialObjects

  /** The `expect` messages of the builders, and failures of the builders they call. */
  datatype BuildError =
    | LineSegmentWithoutVertices        // "Can't infer line segment without vertices"
    | LineSegmentWithoutSurfaceVertices // "... without two surface vertices"
    | LineSegmentWithoutSurface         // "... without a surface"
    | LineSegmentWithoutSurfacePosition // "... without surface position"
    | HalfEdgeWithoutCurve              // "Can't build `HalfEdge` without curve"
    | HalfEdgeWithoutVertices           // "Can't build `HalfEdge` without vertices"
    | GlobalEdgeWithoutCurve            // "Can't build `GlobalEdge` without `GlobalCurve`"
    | GlobalEdgeWithoutVertices         // "Can't build `GlobalEdge` without vertices"
    | Incomplete(what: string)          // a sub-object's own builder gave up

  /** The builders and constructors edge.rs calls but does not define. */
  datatype Builders = Builders(
    globalVertexAt: (PartialCurve, real) -> PartialGlobalVertex, // `PartialGlobalVertex::from_curve_and_position`
    finishCurve: PartialCurve -> Result<Curve, BuildError>,     // `PartialCurve::build`, before interning
    finishVertex: PartialVertex -> Result<Vertex, BuildError>,  // `PartialVertex::build`
    normalize: Pair<GlobalVertexHandle> -> Pair<GlobalVertexHandle>) // the vertex order `GlobalEdge::new` stores

  /** A partial `GlobalEdge`. */
  datatype PartialGlobalEdge = PartialGlobalEdge(
    curve: Option<GlobalCurveHandle>,
    vertices: Option<Pair<GlobalVertexHandle>>)
  {
    static function Default(): PartialGlobalEdge {
      PartialGlobalEdge(None, None)
    }

    function WithCurve(c: Option<GlobalCurveHandle>): (r: PartialGlobalEdge)
      ensures r.curve == c.Or(curve) && r.vertices == vertices
      ensures c.None? ==> r == this
    {
      if c.Some? then this.(curve := c) else this
    }

    function WithVertices(vs: Option<Pair<GlobalVertexHandle>>): (r: PartialGlobalEdge)
      ensures r.vertices == vs.Or(vertices) && r.curve == curve
      ensures vs.None? ==> r == this
    {
      if vs.Some? then this.(vertices := vs) else this
    }

    /** `from_curve_and_vertices`: the global forms of a finished curve and its vertices. */
    function FromCurveAndVertices(c: Curve, vs: Pair<Vertex>): (r: PartialGlobalEdge)
      ensures r.curve == Some(c.globalForm)
      ensures r.vertices == Some(Pair(vs.first.globalForm, vs.second.globalForm))
    {
      WithCurve(Some(c.globalForm)).WithVertices(Some(vs.Map((v: Vertex) => v.globalForm)))
    }

    /** `build`: no inference; both fields must be present. */
    function Build(b: Builders): (r: Result<GlobalEdge, BuildError>)
      ensures curve.None? ==> r == Failure(GlobalEdgeWithoutCurve)
      ensures curve.Some? && vertices.None? ==> r == Failure(GlobalEdgeWithoutVertices)
      ensures r.Success? <==> curve.Some? && vertices.Some?
      ensures r.Success? ==> r.value == GlobalEdge(curve.value, b.normalize(vertices.value))
    {
      if curve.None? then Failure(GlobalEdgeWithoutCurve)
      else if vertices.None? then Failure(GlobalEdgeWithoutVertices)
      else Success(GlobalEdge(curve.value, b.normalize(vertices.value)))
    }
  }

  /** Setting a field of a partial global edge twice keeps the last value given, or the earlier one when the last is `None`. */
  lemma GlobalEdgeSettersUnion(edge: PartialGlobalEdge, c1: Option<GlobalCurveHandle>, c2: Option<GlobalCurveHandle>,
                               v1: Option<Pair<GlobalVertexHandle>>, v2: Option<Pair<GlobalVertexHandle>>)
    ensures edge.WithCurve(c1).WithCurve(c2) == edge.WithCurve(c2.Or(c1))
    ensures edge.WithVertices(v1).WithVertices(v2) == edge.WithVertices(v2.Or(v1))
  {
  }

  /** `From<&GlobalEdge>`: every field, vertices in their normalised order. */
  function FromGlobalEdge(edge: GlobalEdge): (r: PartialGlobalEdge)
    ensures r.curve == Some(edge.curve)
    ensures r.vertices == Some(edge.vertices)
  {
    PartialGlobalEdge(Some(edge.curve), Some(edge.vertices))
  }

  /** Building the partial of a global edge gives that edge back, when its order is already normal. */
  lemma GlobalEdgeRoundTrip(edge: GlobalEdge, b: Builders)
    requires b.normalize(edge.vertices) == edge.vertices
    ensures FromGlobalEdge(edge).Build(b) == Success(edge)
  {
  }

  type MaybeGlobalEdge = MaybePartial<GlobalEdge, PartialGlobalEdge>

  /** `MaybePartial<GlobalEdge>::curve()` */
  function GlobalEdgeCurve(edge: MaybeGlobalEdge): Option<GlobalCurveHandle> {
    match edge
    case Full(e) => Some(e.curve)
    case Partial(p) => p.curve
  }

  /** `MaybePartial<GlobalEdge>::into_partial()` */
  function IntoPartialGlobalEdge(edge: MaybeGlobalEdge): PartialGlobalEdge {
    match edge
    case Full(e) => FromGlobalEdge(e)
    case Partial(p) => p
  }

  /** `MaybePartial<GlobalEdge>::into_full()` */
  function IntoFullGlobalEdge(edge: MaybeGlobalEdge, b: Builders): Result<GlobalEdge, BuildError> {
    match edge
    case Full(e) => Success(e)
    case Partial(p) => p.Build(b)
  }

  /** `MaybePartial<Vertex>::into_full()` */
  function IntoFullVertex(v: MaybeVertex, b: Builders): Result<Vertex, BuildError> {
    match v
    case Full(x) => Success(x)
    case Partial(p) => b.finishVertex(p)
  }

  /** A vertex handed the finished curve: a partial one gets it, a full one is kept. */
  function VertexOnCurve(v: MaybeVertex, curve: CurveHandle): MaybeVertex {
    v.UpdatePartial((p: PartialVertex) => p.WithCurve(Some(Full(curve))))
  }

  /**
   * `before` moved to `position` on `curve`: a partial vertex gets that position
   * and curve and keeps its other fields; a full vertex is left as it was.
   */
  predicate Repositioned(before: MaybeVertex, after: MaybeVertex, position: real, curve: MaybeCurve) {
    match before
    case Full(_) => after == before
    case Partial(p) => after == Partial(p.(position := Some(position), curve := Some(curve)))
  }

  /** A partial `HalfEdge`. */
  datatype PartialHalfEdge = PartialHalfEdge(
    surface: Option<SurfaceHandle>,
    curve: Option<MaybeCurve>,
    vertices: Option<Pair<MaybeVertex>>,
    globalForm: Option<MaybeGlobalEdge>)
  {
    static function Default(): PartialHalfEdge {
      PartialHalfEdge(None, None, None, None)
    }

    function WithSurface(s: Option<SurfaceHandle>): (r: PartialHalfEdge)
      ensures r.surface == s.Or(surface)
      ensures r.curve == curve && r.vertices == vertices && r.globalForm == globalForm
      ensures s.None? ==> r == this
    {
      if s.Some? then this.(surface := s) else this
    }

    function WithCurve(c: Option<MaybeCurve>): (r: PartialHalfEdge)
      ensures r.curve == c.Or(curve)
      ensures r.surface == surface && r.vertices == vertices && r.globalForm == globalForm
      ensures c.None? ==> r == this
    {
      if c.Some? then this.(curve := c) else this
    }

    function WithVertices(vs: Option<Pair<MaybeVertex>>): (r: PartialHalfEdge)
      ensures r.vertices == vs.Or(vertices)
      ensures r.surface == surface && r.curve == curve && r.globalForm == globalForm
      ensures vs.None? ==> r == this
    {
      if vs.Some? then this.(vertices := vs) else this
    }

    function WithGlobalForm(g: Option<MaybeGlobalEdge>): (r: PartialHalfEdge)
      ensures r.globalForm == g.Or(globalForm)
      ensures r.surface == surface && r.curve == curve && r.vertices == vertices
      ensures g.None? ==> r == this
    {
      if g.Some? then this.(globalForm := g) else this
    }

    /**
     * `as_circle_from_radius`: a circle curve on this half-edge's surface, and
     * two vertices on it at 0 and tau that share one global vertex, the one at 0.
     */
    function AsCircleFromRadius(radius: real, b: Builders): (r: PartialHalfEdge)
      ensures r.surface == surface && r.globalForm == globalForm
      ensures r.curve.Some? && r.curve.value.Partial?
      ensures var c := r.curve.value.partial;
        c.surface == surface && c.path == Some(CircleFromRadius(radius)) && c.globalForm == None
      ensures r.vertices.Some? && r.vertices.value.first.Partial? && r.vertices.value.second.Partial?
      ensures var a, z := r.vertices.value.first.partial, r.vertices.value.second.partial;
        && a.position == Some(0.0) && z.position == Some(TAU)
        && a.curve == r.curve && z.curve == r.curve
        && a.globalForm == z.globalForm == Some(Partial(b.globalVertexAt(r.curve.value.partial, 0.0)))
        && a.surfaceForm == None && z.surfaceForm == None
    {
      var c := PartialCurve.Default().WithSurface(surface).AsCircleFromRadius(radius);
      var globalVertex := b.globalVertexAt(c, 0.0);
      var vs := Pair(0.0, TAU).Map((position: real) =>
        Partial(PartialVertex.Default()
          .WithPosition(Some(position))
          .WithCurve(Some(Partial(c)))
          .WithGlobalForm(Some(Partial(globalVertex)))));
      this.(curve := Some(Partial(c)), vertices := Some(vs))
    }

    /**
     * The global curve `as_line_segment` carries forward: the existing curve's
     * global form wins over the global form's curve; without either, none.
     */
    function ExtractGlobalCurve(): (r: Option<GlobalCurveHandle>)
      ensures curve.Some? && CurveGlobalForm(curve.value).Some? ==> r == CurveGlobalForm(curve.value)
      ensures !(curve.Some? && CurveGlobalForm(curve.value).Some?) && globalForm.Some?
        ==> r == GlobalEdgeCurve(globalForm.value)
      ensures !(curve.Some? && CurveGlobalForm(curve.value).Some?) && globalForm.None? ==> r == None
    {
      var fromCurve := if curve.Some? then CurveGlobalForm(curve.value) else None;
      var fromGlobalForm := if globalForm.Some? then GlobalEdgeCurve(globalForm.value) else None;
      fromCurve.Or(fromGlobalForm)
    }

    /** Both vertices exist and have surface forms, a surface can be found, and both positions exist. */
    predicate LineSegmentInferable() {
      && vertices.Some?
      && VertexSurfaceForm(vertices.value.first).Some?
      && VertexSurfaceForm(vertices.value.second).Some?
      && (surface.Some?
          || SurfaceVertexSurface(VertexSurfaceForm(vertices.value.first).value).Some?
          || SurfaceVertexSurface(VertexSurfaceForm(vertices.value.second).value).Some?)
      && SurfaceVertexPosition(VertexSurfaceForm(vertices.value.first).value).Some?
      && SurfaceVertexPosition(VertexSurfaceForm(vertices.value.second).value).Some?
    }

    /**
     * `as_line_segment`: infers the line through the vertices' surface positions
     * and places the vertices at 0 and 1 on it. Only `curve` and `vertices` change.
     */
    function AsLineSegment(): (r: Result<PartialHalfEdge, BuildError>)
      ensures r.Success? <==> LineSegmentInferable()
      ensures vertices.None? ==> r == Failure(LineSegmentWithoutVertices)
      ensures vertices.Some?
        && (VertexSurfaceForm(vertices.value.first).None? || VertexSurfaceForm(vertices.value.second).None?)
        ==> r == Failure(LineSegmentWithoutSurfaceVertices)
      ensures vertices.Some?
        && VertexSurfaceForm(vertices.value.first).Some? && VertexSurfaceForm(vertices.value.second).Some?
        && surface.None?
        && SurfaceVertexSurface(VertexSurfaceForm(vertices.value.first).value).None?
        && SurfaceVertexSurface(VertexSurfaceForm(vertices.value.second).value).None?
        ==> r == Failure(LineSegmentWithoutSurface)
      ensures vertices.Some?
        && VertexSurfaceForm(vertices.value.first).Some? && VertexSurfaceForm(vertices.value.second).Some?
        && (surface.Some?
            || SurfaceVertexSurface(VertexSurfaceForm(vertices.value.first).value).Some?
            || SurfaceVertexSurface(VertexSurfaceForm(vertices.value.second).value).Some?)
        && (SurfaceVertexPosition(VertexSurfaceForm(vertices.value.first).value).None?
            || SurfaceVertexPosition(VertexSurfaceForm(vertices.value.second).value).None?)
        ==> r == Failure(LineSegmentWithoutSurfacePosition)
      ensures r.Failure? && r.error == LineSegmentWithoutSurfacePosition ==>
        && vertices.Some?
        && VertexSurfaceForm(vertices.value.first).Some? && VertexSurfaceForm(vertices.value.second).Some?
        && (SurfaceVertexPosition(VertexSurfaceForm(vertices.value.first).value).None?
            || SurfaceVertexPosition(VertexSurfaceForm(vertices.value.second).value).None?)
      ensures r.Success? ==> r.value.surface == surface && r.value.globalForm == globalForm
      ensures r.Success? ==>
        var from, to := VertexSurfaceForm(vertices.value.first).value, VertexSurfaceForm(vertices.value.second).value;
        && r.value.curve.Some? && r.value.curve.value.Partial?
        && r.value.curve.value.partial.path
             == Some(LineFromPoints(Pair(SurfaceVertexPosition(from).value, SurfaceVertexPosition(to).value)))
        && r.value.curve.value.partial.globalForm == ExtractGlobalCurve()
        && (surface.Some? ==> r.value.curve.value.partial.surface == surface)
        && (surface.None? ==>
              r.value.curve.value.partial.surface == SurfaceVertexSurface(from).Or(SurfaceVertexSurface(to)))
      ensures r.Success? ==>
        && r.value.vertices.Some?
        && Repositioned(vertices.value.first, r.value.vertices.value.first, 0.0, r.value.curve.value)
        && Repositioned(vertices.value.second, r.value.vertices.value.second, 1.0, r.value.curve.value)
    {
      if vertices.None? then Failure(LineSegmentWithoutVertices)
      else
        var from, to := vertices.value.first, vertices.value.second;
        var fromSurface, toSurface := VertexSurfaceForm(from), VertexSurfaceForm(to);
        if fromSurface.None? || toSurface.None? then Failure(LineSegmentWithoutSurfaceVertices)
        else
          var s := surface.Or(SurfaceVertexSurface(fromSurface.value)).Or(SurfaceVertexSurface(toSurface.value));
          if s.None? then Failure(LineSegmentWithoutSurface)
          else
            var a, z := SurfaceVertexPosition(fromSurface.value), SurfaceVertexPosition(toSurface.value);
            if a.None? || z.None? then Failure(LineSegmentWithoutSurfacePosition)
            else
              var c := PartialCurve(None, None, ExtractGlobalCurve())
                .WithSurface(s)
                .AsLineFromPoints(Pair(a.value, z.value));
              var vs := Pair(
                from.UpdatePartial((v: PartialVertex) => v.WithPosition(Some(0.0)).WithCurve(Some(Partial(c)))),
                to.UpdatePartial((v: PartialVertex) => v.WithPosition(Some(1.0)).WithCurve(Some(Partial(c)))));
              Success(this.(curve := Some(Partial(c)), vertices := Some(vs)))
    }

    /**
     * `as_line_segment_from_points`: two fresh vertices whose surface forms carry
     * this half-edge's surface and the given points, then `as_line_segment`.
     * It can only fail for want of a surface.
     */
    function AsLineSegmentFromPoints(points: Pair<Point2>): (r: Result<PartialHalfEdge, BuildError>)
      ensures r.Success? <==> surface.Some?
      ensures r.Failure? ==> r.error == LineSegmentWithoutSurface
      ensures r.Success? ==>
        && r.value.surface == surface && r.value.globalForm == globalForm
        && r.value.curve == Some(Partial(PartialCurve(surface, Some(LineFromPoints(points)), ExtractGlobalCurve())))
        && r.value.vertices == Some(Pair(
             Partial(PartialVertex(Some(0.0), r.value.curve,
               Some(Partial(PartialSurfaceVertex(Some(points.first), surface, None))), None)),
             Partial(PartialVertex(Some(1.0), r.value.curve,
               Some(Partial(PartialSurfaceVertex(Some(points.second), surface, None))), None))))
    {
      var s := surface;
      WithVertices(Some(points.Map((point: Point2) =>
        Partial(PartialVertex.Default().WithSurfaceForm(Some(Partial(
          PartialSurfaceVertex.Default().WithSurface(s).WithPosition(Some(point)))))))))
      .AsLineSegment()
    }

    /**
     * The part of `build` after the curve is final: every vertex is handed that
     * curve and finished, and without an explicit global form one is derived
     * from the curve's global form and the vertices' global forms, in order.
     */
    function FinishWithCurve(c: CurveHandle, b: Builders): (r: Result<HalfEdge, BuildError>)
      ensures vertices.None? ==> r == Failure(HalfEdgeWithoutVertices)
      ensures r.Success? ==>
        && vertices.Some?
        && IntoFullVertex(VertexOnCurve(vertices.value.first, c), b) == Success(r.value.vertices.first)
        && IntoFullVertex(VertexOnCurve(vertices.value.second, c), b) == Success(r.value.vertices.second)
      ensures r.Success? && globalForm.Some? ==> IntoFullGlobalEdge(globalForm.value, b) == Success(r.value.globalForm)
      ensures r.Success? && globalForm.None? ==>
        r.value.globalForm == GlobalEdge(c.obj.globalForm,
          b.normalize(Pair(r.value.vertices.first.globalForm, r.value.vertices.second.globalForm)))
      ensures vertices.Some?
        && IntoFullVertex(VertexOnCurve(vertices.value.first, c), b).Success?
        && IntoFullVertex(VertexOnCurve(vertices.value.second, c), b).Success?
        && (globalForm.Some? ==> IntoFullGlobalEdge(globalForm.value, b).Success?)
        ==> r.Success?
    {
      if vertices.None? then Failure(HalfEdgeWithoutVertices)
      else
        var first :- IntoFullVertex(VertexOnCurve(vertices.value.first, c), b);
        var second :- IntoFullVertex(VertexOnCurve(vertices.value.second, c), b);
        var vs := Pair(first, second);
        var edge :- if globalForm.Some? then IntoFullGlobalEdge(globalForm.value, b)
                    else PartialGlobalEdge.Default().FromCurveAndVertices(c.obj, vs).Build(b);
        Success(HalfEdge(vs, edge))
    }
  }

  /** `From<&HalfEdge>`: every field populated from the finished half-edge. */
  function FromHalfEdge(edge: HalfEdge): (r: PartialHalfEdge)
    ensures r.surface == Some(edge.vertices.first.curve.obj.surface)
    ensures r.curve == Some(Full(edge.vertices.first.curve))
    ensures r.vertices == Some(Pair(Full(edge.vertices.first), Full(edge.vertices.second)))
    ensures r.globalForm == Some(Full(edge.globalForm))
  {
    PartialHalfEdge(
      Some(edge.CurveOf().obj.surface),
      Some(Full(edge.CurveOf())),
      Some(Pair(Full(edge.vertices.first), Full(edge.vertices.second))),
      Some(Full(edge.globalForm)))
  }

  /** `MaybePartial<Handle<Curve>>::into_full()`: a partial curve is finished and interned. */
  method IntoFullCurve(c: MaybeCurve, objects: ObjectStore, b: Builders) returns (r: Result<CurveHandle, BuildError>)
    modifies objects
    ensures c.Full? ==> r == Success(c.full) && objects.curves == old(objects.curves)
    ensures c.Partial? && b.finishCurve(c.partial).Failure?
      ==> r == Failure(b.finishCurve(c.partial).error) && objects.curves == old(objects.curves)
    ensures c.Partial? && b.finishCurve(c.partial).Success? ==>
      && objects.curves == old(objects.curves) + [b.finishCurve(c.partial).value]
      && r == Success(CurveHandle(|old(objects.curves)|, b.finishCurve(c.partial).value))
  {
    match c
    case Full(h) =>
      r := Success(h);
    case Partial(p) =>
      var finished := b.finishCurve(p);
      if finished.Failure? {
        r := Failure(finished.error);
      } else {
        var h := objects.InsertCurve(finished.value);
        r := Success(h);
      }
  }

  /**
   * `PartialHalfEdge::build`: fails without a curve; pushes the half-edge's
   * surface into a partial curve, finishes and interns it, then finishes the
   * rest against that curve (and fails there without vertices).
   */
  method BuildHalfEdge(edge: PartialHalfEdge, objects: ObjectStore, b: Builders) returns (r: Result<HalfEdge, BuildError>)
    modifies objects
    ensures edge.curve.None? ==> r == Failure(HalfEdgeWithoutCurve) && objects.curves == old(objects.curves)
    ensures edge.curve.Some? && edge.curve.value.Full? ==>
      && objects.curves == old(objects.curves)
      && r == edge.FinishWithCurve(edge.curve.value.full, b)
    ensures edge.curve.Some? && edge.curve.value.Partial? ==>
      var p := edge.curve.value.partial.WithSurface(edge.surface);
      && (b.finishCurve(p).Failure? ==> r == Failure(b.finishCurve(p).error) && objects.curves == old(objects.curves))
      && (b.finishCurve(p).Success? ==>
            && objects.curves == old(objects.curves) + [b.finishCurve(p).value]
            && r == edge.FinishWithCurve(CurveHandle(|old(objects.curves)|, b.finishCurve(p).value), b))
  {
    if edge.curve.None? {
      return Failure(HalfEdgeWithoutCurve);
    }
    var s := edge.surface;
    var c := IntoFullCurve(edge.curve.value.UpdatePartial((p: PartialCurve) => p.WithSurface(s)), objects, b);
    if c.Failure? {
      return Failure(c.error);
    }
    r := edge.FinishWithCurve(c.value, b);
  }

  /** The vertex builder keeps the curve handle it is given. */
  ghost predicate FinishVertexKeepsCurve(b: Builders) {
    forall p: PartialVertex, h: CurveHandle
      :: p.curve == Some(Full(h)) && b.finishVertex(p).Success? ==> b.finishVertex(p).value.curve == h
  }

  /**
   * Every vertex that was still partial references the finished curve; when
   * both were, the built half-edge lies on that curve.
   */
  lemma BuiltVerticesShareCurve(edge: PartialHalfEdge, c: CurveHandle, b: Builders)
    requires FinishVertexKeepsCurve(b)
    requires edge.FinishWithCurve(c, b).Success?
    ensures var built := edge.FinishWithCurve(c, b).value;
      && (edge.vertices.value.first.Partial? ==> built.vertices.first.curve == c)
      && (edge.vertices.value.second.Partial? ==> built.vertices.second.curve == c)
      && (edge.vertices.value.first.Partial? ==> built.CurveOf() == c)
  {
  }

  /** A half-edge made partial and built again is the same half-edge, and its curve needs no new interning. */
  lemma HalfEdgeRoundTrip(edge: HalfEdge, b: Builders)
    ensures FromHalfEdge(edge).curve == Some(Full(edge.CurveOf()))
    ensures FromHalfEdge(edge).FinishWithCurve(edge.CurveOf(), b) == Success(edge)
  {
  }

  /** Setting a field twice keeps the last value given, or the earlier one when the last is `None`. */
  lemma SettersUnion(edge: PartialHalfEdge, s1: Option<SurfaceHandle>, s2: Option<SurfaceHandle>,
                     c1: Option<MaybeCurve>, c2: Option<MaybeCurve>,
                     v1: Option<Pair<MaybeVertex>>, v2: Option<Pair<MaybeVertex>>,
                     g1: Option<MaybeGlobalEdge>, g2: Option<MaybeGlobalEdge>)
    ensures edge.WithSurface(s1).WithSurface(s2) == edge.WithSurface(s2.Or(s1))
    ensures edge.WithCurve(c1).WithCurve(c2) == edge.WithCurve(c2.Or(c1))
    ensures edge.WithVertices(v1).WithVertices(v2) == edge.WithVertices(v2.Or(v1))
    ensures edge.WithGlobalForm(g1).WithGlobalForm(g2) == edge.WithGlobalForm(g2.Or(g1))
  {
  }
}
