/** Axis-aligned boxes in the scene's millimetre coordinates: the shape every
    builder's `BoxGeometry` mesh takes once positioned. */
module Geometry {

  datatype Vec3 = Vec3(x: real, y: real, z: real) {
    function Plus(o: Vec3): Vec3 {
      Vec3(x + o.x, y + o.y, z + o.z)
    }
  }

  /** A `BoxGeometry(size.x, size.y, size.z)` mesh positioned at `center`. */
  datatype Box = Box(center: Vec3, size: Vec3) {
    function MinX(): real { center.x - size.x / 2.0 }
    function MaxX(): real { center.x + size.x / 2.0 }
    function MinY(): real { center.y - size.y / 2.0 }
    function MaxY(): real { center.y + size.y / 2.0 }
    function MinZ(): real { center.z - size.z / 2.0 }
    function MaxZ(): real { center.z + size.z / 2.0 }
  }
}
