/** `TransformObject for GlobalPath` (algorithms/transform/path.rs). */
module PathTransform {
  import opened Geometry

  /**
   * Transforms a global path by dispatching on its variant. The object store is
   * not an argument: the source receives it and ignores it.
   */
  function TransformGlobalPath(path: GlobalPath, transform: Transform): (r: GlobalPath)
    ensures path.Circle? <==> r.Circle?
    ensures path.Line? <==> r.Line?
    ensures path.Circle? ==> r.circle == transform.circle(path.circle)
    ensures path.Line? ==> r.line == transform.line(path.line)
  {
    match path
    case Circle(curve) => Circle(transform.circle(curve))
    case Line(curve) => Line(transform.line(curve))
  }

  /** Transforming twice is transforming once by the composed transform. */
  lemma TransformComposes(path: GlobalPath, first: Transform, second: Transform)
    ensures TransformGlobalPath(TransformGlobalPath(path, first), second)
         == TransformGlobalPath(path, first.Then(second))
  {
  }

  /** A transform that fixes the underlying analytic curve fixes the path. */
  lemma IdentityFixesPath(path: GlobalPath, transform: Transform)
    requires transform.IsIdentityOn(path)
    ensures TransformGlobalPath(path, transform) == path
  {
  }
}
