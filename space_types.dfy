// The value types of three-dimensional space: points, points with a
// normal, and triangles of either.

module SpaceTypes {

  /** A point or a vector in space. */
  datatype Point = Point(x: real, y: real, z: real)

  /** A vertex with its normal vector. */
  datatype PointN = PointN(p: Point, n: Point)

  /** A triangle given by its three vertices. */
  datatype Triangle = Triangle(p0: Point, p1: Point, p2: Point)

  /** A triangle whose vertices carry normals. */
  datatype TriangleN = TriangleN(p0: PointN, p1: PointN, p2: PointN)

  const Origin: Point := Point(0.0, 0.0, 0.0)
}
