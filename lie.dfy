/**
 * The parts of the jaxlie rigid-transform library that the collision geometry
 * and the IK problem touch. Group operations (composition, log/exp maps) are not
 * modelled: where the code composes transforms, the model takes the composition
 * as a parameter.
 */
module Lie {

  /** A rotation as jaxlie stores it: a quaternion (w, x, y, z). */
  datatype SO3 = SO3(wxyz: seq<real>)

  /** A rigid transform: jaxlie's `SE3.from_rotation_and_translation(rotation, translation)`. */
  datatype SE3 = SE3(rotation: SO3, translation: seq<real>)

  /** `SO3.identity()`; also what `SO3.from_matrix` yields for the identity matrix. */
  const IdentitySO3: SO3 := SO3([1.0, 0.0, 0.0, 0.0])

  /** `SE3.identity()`. */
  const IdentitySE3: SE3 := SE3(IdentitySO3, [0.0, 0.0, 0.0])
}
