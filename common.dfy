/** Value types shared by the demo models: a nullable wrapper standing for
    the scripts' `T | null` variables, and the three.js / cannon-es vector
    and quaternion records, with floating point numbers taken as reals. */
module Common {

  datatype Option<T> = None | Some(value: T)

  /** A 3-component vector (`THREE.Vector3`, `CANNON.Vec3`). */
  datatype Vec3 = Vec3(x: real, y: real, z: real)

  /** A rotation quaternion (`THREE.Quaternion`, `CANNON.Quaternion`). */
  datatype Quaternion = Quaternion(x: real, y: real, z: real, w: real)

  const Origin: Vec3 := Vec3(0.0, 0.0, 0.0)
  const UnitScale: Vec3 := Vec3(1.0, 1.0, 1.0)
  const IdentityRotation: Quaternion := Quaternion(0.0, 0.0, 0.0, 1.0)

  /** `Math.PI`, as the decimal that JavaScript prints for it. */
  const PI: real := 3.141592653589793

  /** `indexOf` followed by `splice(index, 1)` when found: how
      cannon-es `world.removeBody` and three.js `Object3D.remove` drop an
      element. */
  function Without<T(==)>(s: seq<T>, x: T): (r: seq<T>)
    ensures x !in s ==> r == s
    ensures x in s ==> |r| == |s| - 1
    decreases |s|
  {
    if s == [] then []
    else if s[0] == x then s[1..]
    else [s[0]] + Without(s[1..], x)
  }

  /** JavaScript's `Math.round`: the nearest integer, halves rounded up. */
  function Round(x: real): (k: int)
    ensures k as real <= x + 0.5 < k as real + 1.0
    ensures -0.5 <= x - k as real < 0.5
  {
    (x + 0.5).Floor
  }
}
