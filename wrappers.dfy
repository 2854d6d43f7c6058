/** Value-level vocabulary shared by every module: optional values, results, the
 *  errors the engine throws, and the loosely typed JavaScript arguments that the
 *  overloaded constructors inspect at run time. */
module Wrappers {

  datatype Option<T> = None | Some(value: T)

  /** The engine's exceptions, one constructor per kind of throw site. */
  datatype Error =
    | TypeError                   // dereferencing `undefined` / `null`
    | NoShaderProgram             // "... has no shader program ..."
    | NoMainCamera                // "... no main 3D camera ..."
    | UnsupportedAttachment       // "Unsupported attachment type ..."
    | MissingTextureArrayIndex    // array attachment without `texture_array_index`
    | MissingColorAttachment      // attachment without `color_attachment_number`
    | IncompleteFramebuffer       // checkFramebufferStatus is not FRAMEBUFFER_COMPLETE
    | InvalidTextureType          // "Invalid texture type ..."

  datatype Result<T> = Ok(value: T) | Err(error: Error)

  /** Result of an operation that returns nothing but may throw. */
  datatype Outcome = Done | Fail(error: Error)

  /** A JavaScript value handed to an overloaded `any`-typed parameter.
   *  Numbers are kept integral: every numeric argument of the modelled
   *  constructors is a size, a layer count, a mip level or a GL enumerant. */
  datatype JsValue =
    | Undefined
    | Null
    | Num(n: int)
    | Str(s: string)
    | Image(id: nat)                  // an HTMLImageElement
    | Images(ids: seq<nat>)           // an array of images
    | Params(entries: seq<(int, int)>) // a `{ [pname]: value }` parameter object, its entries
                                       // in enumeration order (ascending, the keys being enumerants)

  /** A JavaScript number where an integer division can leave the reals. */
  datatype JsNumber = Finite(r: real) | NaN | PositiveInfinity

  /** `a / b` for a length `a` divided by an integral size `b`. */
  function Divide(a: nat, b: int): (q: JsNumber)
    ensures b != 0 ==> q == Finite(a as real / b as real)
    ensures b == 0 ==> (q == NaN <==> a == 0)
  {
    if b != 0 then Finite(a as real / b as real)
    else if a == 0 then NaN
    else PositiveInfinity
  }

  /** JavaScript truthiness of the values above (objects and arrays are truthy). */
  predicate Truthy(v: JsValue)
  {
    match v
    case Undefined => false
    case Null => false
    case Num(n) => n != 0
    case Str(s) => s != ""
    case _ => true
  }
}
