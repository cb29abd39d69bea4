/** Geometry values shared by the simplifier and the merger. */
module Geometry {

  /** A position; the editor's single-precision floats are modelled as reals. */
  datatype Vec3 = Vec3(x: real, y: real, z: real)

  /** An integer grid coordinate (Unity's `Vector3Int`), the clustering key. */
  datatype Cell = Cell(x: int, y: int, z: int)

  /** Width of a mesh's index buffer. */
  datatype IndexFormat = UInt16 | UInt32

  /** Largest vertex count a 16-bit index buffer can address. */
  const MaxUInt16VertexCount: int := 65535

  /**
   * Both the simplifier and the merger switch to 32-bit indices exactly when
   * the new mesh has more vertices than a 16-bit index can address.
   */
  function IndexFormatFor(vertexCount: int): (f: IndexFormat)
    ensures f == UInt32 <==> vertexCount > MaxUInt16VertexCount
  {
    if vertexCount > MaxUInt16VertexCount then UInt32 else UInt16
  }
}
