/**
 * The full (finished, immutable) objects of the kernel and the store that
 * interns them. A handle is the identity the store issued together with the
 * object it refers to, so dereferencing needs no store lookup.
 */
module Objects {
  import opened Wrappers
  import opened Geometry

  /*
   * `Handle<T>`, one datatype per object kind: the identity the store issued
   * (`id`) and the object it dereferences to (`obj`). Handles compare by both;
   * in a store that issued them, equal identities mean equal objects.
   */
  datatype SurfaceHandle = SurfaceHandle(id: nat, obj: Surface)
  datatype GlobalCurveHandle = GlobalCurveHandle(id: nat, obj: GlobalCurve)
  datatype CurveHandle = CurveHandle(id: nat, obj: Curve)
  datatype GlobalVertexHandle = GlobalVertexHandle(id: nat, obj: GlobalVertex)
  datatype SurfaceVertexHandle = SurfaceVertexHandle(id: nat, obj: SurfaceVertex)
  datatype HalfEdgeHandle = HalfEdgeHandle(id: nat, obj: HalfEdge)
  datatype CycleHandle = CycleHandle(id: nat, obj: Cycle)

  /** `Surface`, given by its `u` path and its `v` direction. */
  datatype Surface = Surface(u: GlobalPath, v: Vector3)

  datatype GlobalCurve = GlobalCurve(path: GlobalPath)

  /** A local curve: a path on one surface, the image of a global curve. */
  datatype Curve = Curve(surface: SurfaceHandle, path: SurfacePath, globalForm: GlobalCurveHandle)

  datatype GlobalVertex = GlobalVertex(position: Point3)

  datatype SurfaceVertex = SurfaceVertex(position: Point2, surface: SurfaceHandle, globalForm: GlobalVertexHandle)

  /** A point on a curve, at a 1D curve coordinate. */
  datatype Vertex = Vertex(
    position: real,
    curve: CurveHandle,
    surfaceForm: SurfaceVertexHandle,
    globalForm: GlobalVertexHandle)

  /**
   * `GlobalEdge`: a global curve and its two bounding global vertices, stored in
   * the order `GlobalEdge::new` normalised them to.
   */
  datatype GlobalEdge = GlobalEdge(curve: GlobalCurveHandle, vertices: Pair<GlobalVertexHandle>)

  /** `HalfEdge::new(vertices, global_form)`. */
  datatype HalfEdge = HalfEdge(vertices: Pair<Vertex>, globalForm: GlobalEdge) {

    /** The curve a half-edge lies on is its first vertex's. */
    function CurveOf(): CurveHandle {
      vertices.first.curve
    }
  }

  datatype Cycle = Cycle(surface: SurfaceHandle, halfEdges: seq<HalfEdgeHandle>)

  datatype Color = Color(r: bv8, g: bv8, b: bv8, a: bv8)

  /** A face: an exterior cycle, hole cycles and a color. */
  datatype Face = Face(exterior: CycleHandle, interiors: seq<CycleHandle>, color: Color) {

    /** A face lies in the surface of its exterior cycle. */
    function SurfaceOf(): SurfaceHandle {
      exterior.obj.surface
    }

    /** `Face::with_interiors`: appends hole cycles. */
    function WithInteriors(cycles: seq<CycleHandle>): Face {
      this.(interiors := interiors + cycles)
    }

    function WithColor(c: Color): Face {
      this.(color := c)
    }
  }

  /** The color a face starts with before `with_color`. */
  const DefaultColor := Color(255, 0, 0, 255)

  /** `Face::from_exterior`: no holes, the default color. */
  function FaceFromExterior(exterior: CycleHandle): Face {
    Face(exterior, [], DefaultColor)
  }

  /** `Sketch`: an unordered collection of faces. */
  datatype Sketch = Sketch(faces: set<Face>) {

    /** `Sketch::with_faces`: adds the given faces. */
    function WithFaces(more: set<Face>): Sketch {
      Sketch(faces + more)
    }
  }

  /** `Sketch::new()` */
  function NewSketch(): Sketch {
    Sketch({})
  }

  /**
   * `Objects`, the store. Only the partition of curves is kept: it is the one
   * the modelled builders insert into themselves.
   */
  class ObjectStore {
    var curves: seq<Curve>

    constructor ()
      ensures curves == []
    {
      curves := [];
    }

    /** The store issued `h`, and `h` refers to what the store holds. */
    predicate Issued(h: CurveHandle)
      reads this
    {
      h.id < |curves| && curves[h.id] == h.obj
    }

    /** Interns a curve under a new identity; what was interned stays as it was. */
    method InsertCurve(curve: Curve) returns (h: CurveHandle)
      modifies this
      ensures curves == old(curves) + [curve]
      ensures h == CurveHandle(|old(curves)|, curve) && Issued(h)
      ensures forall g: CurveHandle :: g.id < |old(curves)| && old(curves)[g.id] == g.obj ==> Issued(g) && g.id != h.id
    {
      h := CurveHandle(|curves|, curve);
      curves := curves + [curve];
    }
  }

  /** `Faces`: a set of faces that is filled in place. */
  class Faces {
    var contents: set<Face>

    /** `Faces::new()` */
    constructor ()
      ensures contents == {}
    {
      contents := {};
    }

    /** One step of `Faces::extend`. */
    method Insert(face: Face)
      modifies this
      ensures contents == old(contents) + {face}
    {
      contents := contents + {face};
    }
  }
}
