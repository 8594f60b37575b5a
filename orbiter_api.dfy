/** Types and constants the vessel module takes from the simulator host's SDK
    (OrbiterAPI.h, which is not part of this model), and the C++ standard
    library's std::min and std::max. */
module OrbiterApi {

  /** The host's VECTOR3, over the reals. */
  datatype Vec3 = Vec3(x: real, y: real, z: real)

  /** Where a touchdown vertex sits: a literal `_V(x, y, z)`, or a location
      constant from the mesh-definitions header, kept by name. */
  datatype Point = At(v: Vec3) | MeshLocation(name: string)

  /** The host's TOUCHDOWNVTX. An aggregate initialiser that lists fewer
      members leaves the rest zero, hence the defaults: `{p, 1e7, 1e5}` has
      mu == mu_lng == 0. */
  datatype TouchdownVtx = TouchdownVtx(pos: Point, stiffness: real, damping: real, mu: real := 0.0, muLng: real := 0.0)

  /** std::min and std::max on doubles, over the reals. */
  function Min(a: real, b: real): real { if b < a then b else a }
  function Max(a: real, b: real): real { if a < b then b else a }

  /** Keyboard scan codes the vessel reacts to (DirectInput numbering). */
  const OAPI_KEY_G: int := 0x22
  const OAPI_KEY_K: int := 0x25
  const OAPI_KEY_C: int := 0x2E
}
