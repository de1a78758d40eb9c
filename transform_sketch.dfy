/**
 * `TransformObject for Sketch` (algorithms/transform/sketch.rs): a fresh sketch
 * holding the transform of each face, computed face by face.
 */
module SketchTransform {
  import opened Objects
  import opened FaceTransform

  /** The transform of a sketch. */
  function TransformSketch(sketch: Sketch, t: FaceLeafTransforms): (r: Sketch)
    ensures forall f :: f in sketch.faces ==> TransformFace(f, t) in r.faces
    ensures forall g :: g in r.faces ==> exists f :: f in sketch.faces && g == TransformFace(f, t)
  {
    NewSketch().WithFaces(set f | f in sketch.faces :: TransformFace(f, t))
  }

  /**
   * No state passes between faces: transforming the faces of two sketches
   * together is transforming each sketch alone and uniting the results.
   */
  lemma TransformSketchIsPerFace(a: Sketch, b: Sketch, t: FaceLeafTransforms)
    ensures TransformSketch(Sketch(a.faces + b.faces), t).faces
         == TransformSketch(a, t).faces + TransformSketch(b, t).faces
  {
  }

  /** The transform of an empty sketch is empty. */
  lemma EmptySketchStaysEmpty(t: FaceLeafTransforms)
    ensures TransformSketch(NewSketch(), t) == NewSketch()
  {
  }
}
