/**
 * The numeric vocabulary the kernel passes around (fj_math). Its arithmetic is
 * not modelled: an affine transform is known only by what it does to circles
 * and lines, and surface paths are kept as the construction that made them.
 */
module Geometry {
  import opened Wrappers

  /** Tau as an `f64` (`Scalar::TAU`), to the precision that round-trips. */
  const TAU: real := 6.283185307179586

  datatype Point2 = Point2(u: real, v: real)
  datatype Point3 = Point3(x: real, y: real, z: real)
  datatype Vector3 = Vector3(x: real, y: real, z: real)

  /** `Circle<3>`: a center and two radius vectors. */
  datatype Circle3 = Circle3(center: Point3, a: Vector3, b: Vector3)

  /** `Line<3>`: an origin and a direction. */
  datatype Line3 = Line3(origin: Point3, direction: Vector3)

  /** `GlobalPath`: the 3D path a global curve follows. */
  datatype GlobalPath = Circle(circle: Circle3) | Line(line: Line3)

  /**
   * `SurfacePath`: a 2D path in a surface's parameter space, recorded as the
   * construction that produced it (`circle_from_radius`, `line_from_points`).
   */
  datatype SurfacePath =
    | CircleFromRadius(radius: real)
    | LineFromPoints(points: Pair<Point2>)

  /**
   * `fj_math::Transform`, known only by its action on the analytic curves
   * (`transform_circle`, `transform_line`).
   */
  datatype Transform = Transform(circle: Circle3 -> Circle3, line: Line3 -> Line3) {

    /** The transform that applies this one, then `next`. */
    function Then(next: Transform): Transform {
      Transform(c => next.circle(circle(c)), l => next.line(line(l)))
    }

    predicate IsIdentityOn(path: GlobalPath) {
      match path
      case Circle(c) => circle(c) == c
      case Line(l) => line(l) == l
    }
  }
}
