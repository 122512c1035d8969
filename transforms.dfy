/**
 * Rigid transforms in the two shapes the calibrator handles: tf's tuple form
 * `((x, y, z), (qx, qy, qz, qw))` and the `geometry_msgs/Transform` message.
 * Components are only ever copied between the two, never computed on, so they
 * are kept as `real` and no floating-point behaviour is involved.
 */
module Transforms {

  /** tf tuple form: translation `(x, y, z)` and rotation quaternion `(x, y, z, w)`. */
  type TfTuple = ((real, real, real), (real, real, real, real))

  datatype Vector3 = Vector3(x: real, y: real, z: real)
  datatype Quaternion = Quaternion(x: real, y: real, z: real, w: real)

  /** A `geometry_msgs/Transform` message. */
  datatype Transform = Transform(translation: Vector3, rotation: Quaternion)

  /** A ViSP `TransformArray` message: a header frame and an ordered list of transforms. */
  datatype TransformArray = TransformArray(frameId: string, transforms: seq<Transform>)
  {
    /** The same array with `t` added at the end (`transforms.append(t)`). */
    function Append(t: Transform): (r: TransformArray)
      ensures r.frameId == frameId
      ensures |r.transforms| == |transforms| + 1
      ensures r.transforms[..|transforms|] == transforms && r.transforms[|transforms|] == t
    {
      TransformArray(frameId, transforms + [t])
    }
  }

  /** Reads a message transform back into tf tuple form, component by component. */
  function MsgTransformToTuple(m: Transform): TfTuple
  {
    ((m.translation.x, m.translation.y, m.translation.z),
     (m.rotation.x, m.rotation.y, m.rotation.z, m.rotation.w))
  }

  /**
   * Builds the message from a tf tuple (`Vector3(*t[0])`, `Quaternion(*t[1])`).
   * Nothing is lost: reading the message back gives the tuple again.
   */
  function TupleToMsgTransform(t: TfTuple): (m: Transform)
    ensures MsgTransformToTuple(m) == t
  {
    Transform(Vector3(t.0.0, t.0.1, t.0.2), Quaternion(t.1.0, t.1.1, t.1.2, t.1.3))
  }

  /** The other direction of the round trip: every message is the image of its own tuple. */
  lemma MsgTupleRoundTrip(m: Transform)
    ensures TupleToMsgTransform(MsgTransformToTuple(m)) == m
  {
  }
}
