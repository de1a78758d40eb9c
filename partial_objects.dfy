/**
 * Partial objects the edge builders and transforms handle but do not define:
 * their fields, their setters (which follow the same protocol as the edge
 * builders': `Some` overwrites, `None` keeps), and `MaybePartial`, the union
 * of a finished object and a partial one.
 */
module PartialObjects {
  import opened Wrappers
  import opened Geometry
  import opened Objects

  /** `MaybePartial<T>`: either a finished object or a partial one. */
  datatype MaybePartial<+F, +P> = Full(full: F) | Partial(partial: P) {

    /** `update_partial(f)`: applies `f` to a partial object; a full one is kept as is. */
    function UpdatePartial<Q>(f: P -> Q): MaybePartial<F, Q> {
      match this
      case Full(x) => Full(x)
      case Partial(p) => Partial(f(p))
    }
  }

  /** A partial `Curve`. */
  datatype PartialCurve = PartialCurve(
    surface: Option<SurfaceHandle>,
    path: Option<SurfacePath>,
    globalForm: Option<GlobalCurveHandle>)
  {
    static function Default(): PartialCurve {
      PartialCurve(None, None, None)
    }

    function WithSurface(s: Option<SurfaceHandle>): PartialCurve {
      if s.Some? then this.(surface := s) else this
    }

    /** `as_circle_from_radius`: the path becomes a circle of that radius. */
    function AsCircleFromRadius(radius: real): PartialCurve {
      this.(path := Some(CircleFromRadius(radius)))
    }

    /** `as_line_from_points`: the path becomes the line through both points. */
    function AsLineFromPoints(points: Pair<Point2>): PartialCurve {
      this.(path := Some(LineFromPoints(points)))
    }
  }

  type MaybeCurve = MaybePartial<CurveHandle, PartialCurve>

  /** `MaybePartial<Handle<Curve>>::global_form()`, read without building. */
  function CurveGlobalForm(curve: MaybeCurve): Option<GlobalCurveHandle> {
    match curve
    case Full(h) => Some(h.obj.globalForm)
    case Partial(p) => p.globalForm
  }

  /** `Curve::to_partial`: every field populated from the full curve. */
  function CurveToPartial(curve: Curve): PartialCurve {
    PartialCurve(Some(curve.surface), Some(curve.path), Some(curve.globalForm))
  }

  /** `MaybePartial<Handle<Curve>>::into_partial()` */
  function IntoPartialCurve(curve: MaybeCurve): PartialCurve {
    match curve
    case Full(h) => CurveToPartial(h.obj)
    case Partial(p) => p
  }

  /** A partial `GlobalVertex`. */
  datatype PartialGlobalVertex = PartialGlobalVertex(position: Option<Point3>)

  type MaybeGlobalVertex = MaybePartial<GlobalVertexHandle, PartialGlobalVertex>

  /** A partial `SurfaceVertex`. */
  datatype PartialSurfaceVertex = PartialSurfaceVertex(
    position: Option<Point2>,
    surface: Option<SurfaceHandle>,
    globalForm: Option<MaybeGlobalVertex>)
  {
    static function Default(): PartialSurfaceVertex {
      PartialSurfaceVertex(None, None, None)
    }

    function WithSurface(s: Option<SurfaceHandle>): PartialSurfaceVertex {
      if s.Some? then this.(surface := s) else this
    }

    function WithPosition(p: Option<Point2>): PartialSurfaceVertex {
      if p.Some? then this.(position := p) else this
    }
  }

  type MaybeSurfaceVertex = MaybePartial<SurfaceVertexHandle, PartialSurfaceVertex>

  /** `MaybePartial<SurfaceVertex>::surface()` */
  function SurfaceVertexSurface(v: MaybeSurfaceVertex): Option<SurfaceHandle> {
    match v
    case Full(h) => Some(h.obj.surface)
    case Partial(p) => p.surface
  }

  /** `MaybePartial<SurfaceVertex>::position()` */
  function SurfaceVertexPosition(v: MaybeSurfaceVertex): Option<Point2> {
    match v
    case Full(h) => Some(h.obj.position)
    case Partial(p) => p.position
  }

  /** A partial `Vertex`. */
  datatype PartialVertex = PartialVertex(
    position: Option<real>,
    curve: Option<MaybeCurve>,
    surfaceForm: Option<MaybeSurfaceVertex>,
    globalForm: Option<MaybeGlobalVertex>)
  {
    static function Default(): PartialVertex {
      PartialVertex(None, None, None, None)
    }

    function WithPosition(p: Option<real>): PartialVertex {
      if p.Some? then this.(position := p) else this
    }

    function WithCurve(c: Option<MaybeCurve>): PartialVertex {
      if c.Some? then this.(curve := c) else this
    }

    function WithSurfaceForm(s: Option<MaybeSurfaceVertex>): PartialVertex {
      if s.Some? then this.(surfaceForm := s) else this
    }

    function WithGlobalForm(g: Option<MaybeGlobalVertex>): PartialVertex {
      if g.Some? then this.(globalForm := g) else this
    }
  }

  type MaybeVertex = MaybePartial<Vertex, PartialVertex>

  /** `MaybePartial<Vertex>::surface_form()` */
  function VertexSurfaceForm(v: MaybeVertex): Option<MaybeSurfaceVertex> {
    match v
    case Full(x) => Some(Full(x.surfaceForm))
    case Partial(p) => p.surfaceForm
  }

  /** `Vertex::to_partial`: every field populated from the full vertex. */
  function VertexToPartial(v: Vertex): PartialVertex {
    PartialVertex(Some(v.position), Some(Full(v.curve)), Some(Full(v.surfaceForm)), Some(Full(v.globalForm)))
  }

  /** `MaybePartial<Vertex>::into_partial()` */
  function IntoPartialVertex(v: MaybeVertex): PartialVertex {
    match v
    case Full(x) => VertexToPartial(x)
    case Partial(p) => p
  }

  /** A partial `Cycle`. */
  datatype PartialCycle = PartialCycle(surface: Option<SurfaceHandle>, halfEdges: seq<HalfEdgeHandle>) {

    function WithSurface(s: Option<SurfaceHandle>): PartialCycle {
      if s.Some? then this.(surface := s) else this
    }
  }
}
