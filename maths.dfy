/** Matrices and vectors are kept symbolic: the engine's floating-point
 *  linear algebra (the glm library) is outside the model, so a matrix is the
 *  term that says how it was built. Two matrices are equal when they were
 *  built the same way. */
module Maths {

  datatype Vec3 =
    | Vec3(x: real, y: real, z: real)
    | TranslationOf(m: Mat)     // the translation column of a world matrix (a world position)
    | Plus(a: Vec3, b: Vec3)    // `a.clone().add(b)`
    | DirectionOf(m: Mat)       // +X turned by the rotation of a model matrix

  datatype Vec4 =
    | Vec4(x: real, y: real, z: real, w: real)
    | Unprojected(inv: Mat, ndc: Vec4)   // `ndc.applyMat4(inv)` followed by the divide by `w`

  datatype Mat =
    | Identity                            // `new Mat4()`
    | Local(id: nat)                      // a node's `get_model_matrix()`
    | Mul(l: Mat, r: Mat)                 // `l.clone().mul(r)`
    | PerspectiveZO(fovyDegrees: real, aspect: real, near: real, far: real)
    | LookAt(eye: Vec3, center: Vec3, up: Vec3)
    | Inverted(m: Mat)
    | RotationOf(m: Mat)                  // the rotation part of a world matrix, as a mat4
    | LightSpace(direction: Vec3, corners: seq<Vec4>)   // `get_light_space_matrix`
}
