/**
 * `TransformObject for PartialHalfEdge` and `for PartialGlobalEdge`
 * (algorithms/transform/edge.rs). The transforms of the leaf objects are
 * collaborators that may fail; what is modelled is how their results are
 * wired together: every vertex is re-pointed to the one transformed curve,
 * and the global form takes the transformed curve's global identity.
 */
module EdgeTransform {
  import opened Wrappers
  import opened Objects
  import opened PartialObjects
  import opened PartialEdge

  /** `ValidationError`, opaque to the transform engine. */
  datatype ValidationError = ValidationError(message: string)

  /** One transform applied to each leaf kind, with the store it interns into. */
  datatype LeafTransforms = LeafTransforms(
    curve: PartialCurve -> Result<PartialCurve, ValidationError>,
    vertex: PartialVertex -> Result<PartialVertex, ValidationError>,
    globalCurve: GlobalCurveHandle -> Result<GlobalCurveHandle, ValidationError>,
    globalVertex: GlobalVertexHandle -> Result<GlobalVertexHandle, ValidationError>)

  /** The transform of an optional object: absent stays absent, a failure propagates. */
  function TransformOption<T>(x: Option<T>, f: T -> Result<T, ValidationError>): (r: Result<Option<T>, ValidationError>)
    ensures x.None? ==> r == Success(None)
    ensures x.Some? && f(x.value).Failure? ==> r == Failure(f(x.value).error)
    ensures x.Some? && f(x.value).Success? ==> r == Success(Some(f(x.value).value))
  {
    match x
    case None => Success(None)
    case Some(v) =>
      var w :- f(v);
      Success(Some(w))
  }

  /** The transform of a partial global edge: curve and each present vertex, failures propagated. */
  function TransformGlobalEdge(edge: PartialGlobalEdge, t: LeafTransforms): (r: Result<PartialGlobalEdge, ValidationError>)
    ensures r.Success? <==>
      && TransformOption(edge.curve, t.globalCurve).Success?
      && (edge.vertices.Some? ==>
            t.globalVertex(edge.vertices.value.first).Success? && t.globalVertex(edge.vertices.value.second).Success?)
    ensures TransformOption(edge.curve, t.globalCurve).Failure? ==>
      r == Failure(TransformOption(edge.curve, t.globalCurve).error)
    ensures TransformOption(edge.curve, t.globalCurve).Success? && edge.vertices.Some? ==>
      var first, second := t.globalVertex(edge.vertices.value.first), t.globalVertex(edge.vertices.value.second);
      && (first.Failure? ==> r == Failure(first.error))
      && (first.Success? && second.Failure? ==> r == Failure(second.error))
    ensures r.Success? ==> r.value.curve == TransformOption(edge.curve, t.globalCurve).value
    ensures r.Success? ==> (r.value.curve.Some? <==> edge.curve.Some?)
    ensures r.Success? && edge.vertices.None? ==> r.value.vertices.None?
    ensures r.Success? && edge.vertices.Some? ==> r.value.vertices == Some(Pair(
      t.globalVertex(edge.vertices.value.first).value, t.globalVertex(edge.vertices.value.second).value))
  {
    var c :- TransformOption(edge.curve, t.globalCurve);
    var vs :- if edge.vertices.None? then Success(None)
              else
                var a :- t.globalVertex(edge.vertices.value.first);
                var z :- t.globalVertex(edge.vertices.value.second);
                Success(Some(Pair(a, z)));
    Success(PartialGlobalEdge(c, vs))
  }

  /*
   * The accessors the transform reads through. A half-edge whose field is
   * absent is read as an empty partial in that field.
   */

  function CurveOrEmpty(edge: PartialHalfEdge): MaybeCurve {
    if edge.curve.Some? then edge.curve.value else Partial(PartialCurve.Default())
  }

  function VerticesOrEmpty(edge: PartialHalfEdge): Pair<MaybeVertex> {
    if edge.vertices.Some? then edge.vertices.value
    else Pair(Partial(PartialVertex.Default()), Partial(PartialVertex.Default()))
  }

  function GlobalFormOrEmpty(edge: PartialHalfEdge): MaybeGlobalEdge {
    if edge.globalForm.Some? then edge.globalForm.value else Partial(PartialGlobalEdge.Default())
  }

  /** Every leaf transform the half-edge transform runs succeeds. */
  predicate LeavesSucceed(edge: PartialHalfEdge, t: LeafTransforms) {
    && t.curve(IntoPartialCurve(CurveOrEmpty(edge))).Success?
    && t.vertex(IntoPartialVertex(VerticesOrEmpty(edge).first)).Success?
    && t.vertex(IntoPartialVertex(VerticesOrEmpty(edge).second)).Success?
    && TransformGlobalEdge(IntoPartialGlobalEdge(GlobalFormOrEmpty(edge)), t).Success?
  }

  /**
   * The sharing a transformed half-edge keeps: both vertices are partial and
   * point to the half-edge's own curve, and when that curve has a global
   * identity, the global form's curve is that identity.
   */
  predicate Linked(edge: PartialHalfEdge) {
    && edge.curve.Some?
    && edge.vertices.Some?
    && edge.vertices.value.first.Partial? && edge.vertices.value.first.partial.curve == edge.curve
    && edge.vertices.value.second.Partial? && edge.vertices.value.second.partial.curve == edge.curve
    && edge.globalForm.Some? && edge.globalForm.value.Partial?
    && (CurveGlobalForm(edge.curve.value).Some? ==>
          edge.globalForm.value.partial.curve == CurveGlobalForm(edge.curve.value))
  }

  /** The transform of a partial half-edge. */
  function TransformHalfEdge(edge: PartialHalfEdge, t: LeafTransforms): (r: Result<PartialHalfEdge, ValidationError>)
    ensures r.Success? <==> LeavesSucceed(edge, t)
    ensures t.curve(IntoPartialCurve(CurveOrEmpty(edge))).Failure? ==>
      r == Failure(t.curve(IntoPartialCurve(CurveOrEmpty(edge))).error)
    ensures
      var g := TransformGlobalEdge(IntoPartialGlobalEdge(GlobalFormOrEmpty(edge)), t);
      && t.curve(IntoPartialCurve(CurveOrEmpty(edge))).Success?
      && t.vertex(IntoPartialVertex(VerticesOrEmpty(edge).first)).Success?
      && t.vertex(IntoPartialVertex(VerticesOrEmpty(edge).second)).Success?
      && g.Failure?
      ==> r == Failure(g.error)
    ensures r.Success? ==> Linked(r.value) && r.value.surface.None?
    ensures r.Success? ==>
      && r.value.curve == Some(Partial(t.curve(IntoPartialCurve(CurveOrEmpty(edge))).value))
      && r.value.vertices.value.first.partial
           == t.vertex(IntoPartialVertex(VerticesOrEmpty(edge).first)).value.(curve := r.value.curve)
      && r.value.vertices.value.second.partial
           == t.vertex(IntoPartialVertex(VerticesOrEmpty(edge).second)).value.(curve := r.value.curve)
    ensures r.Success? ==>
      var g := TransformGlobalEdge(IntoPartialGlobalEdge(GlobalFormOrEmpty(edge)), t).value;
      && r.value.globalForm.value.partial.vertices == g.vertices
      && r.value.globalForm.value.partial.curve == CurveGlobalForm(r.value.curve.value).Or(g.curve)
  {
    var c :- t.curve(IntoPartialCurve(CurveOrEmpty(edge)));
    var curve: MaybeCurve := Partial(c);
    var a :- t.vertex(IntoPartialVertex(VerticesOrEmpty(edge).first));
    var z :- t.vertex(IntoPartialVertex(VerticesOrEmpty(edge).second));
    var vs: Pair<MaybeVertex> := Pair(Partial(a.(curve := Some(curve))), Partial(z.(curve := Some(curve))));
    var g :- TransformGlobalEdge(IntoPartialGlobalEdge(GlobalFormOrEmpty(edge)), t);
    var globalForm := if CurveGlobalForm(curve).Some? then g.(curve := CurveGlobalForm(curve)) else g;
    Success(PartialHalfEdge.Default()
      .WithCurve(Some(curve))
      .WithVertices(Some(vs))
      .WithGlobalForm(Some(Partial(globalForm))))
  }

  /** A failure of either vertex transform fails the whole half-edge transform with that error. */
  lemma VertexFailureAborts(edge: PartialHalfEdge, t: LeafTransforms)
    requires t.curve(IntoPartialCurve(CurveOrEmpty(edge))).Success?
    ensures var first := t.vertex(IntoPartialVertex(VerticesOrEmpty(edge).first));
      first.Failure? ==> TransformHalfEdge(edge, t) == Failure(first.error)
    ensures var first := t.vertex(IntoPartialVertex(VerticesOrEmpty(edge).first));
      var second := t.vertex(IntoPartialVertex(VerticesOrEmpty(edge).second));
      first.Success? && second.Failure? ==> TransformHalfEdge(edge, t) == Failure(second.error)
  {
  }

  /**
   * When the transformed curve carries no global identity, the transformed
   * global form keeps the curve its own transform gave it.
   */
  lemma GlobalFormKeepsOwnCurve(edge: PartialHalfEdge, t: LeafTransforms)
    requires TransformHalfEdge(edge, t).Success?
    requires t.curve(IntoPartialCurve(CurveOrEmpty(edge))).value.globalForm.None?
    ensures TransformHalfEdge(edge, t).value.globalForm.value.partial.curve
         == TransformOption(IntoPartialGlobalEdge(GlobalFormOrEmpty(edge)).curve, t.globalCurve).value
  {
  }
}
