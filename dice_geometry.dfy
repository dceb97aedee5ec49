/**
  The tables a die builds once, at construction (Dices/dice_d20.py): its mass,
  its vertices and faces, the face normals, and the diagonal inertia tensor
  with its guarded inverse. The die's kind is the number of sides the source
  branches on: 4 is the tetrahedron, 6 the cube, and any other number gets no
  geometry, mass 1.0 and the identity tensor.
 */
module DiceGeometry {
  import opened Vectors

  /** Mass: 0.8 for the tetrahedron, 1.0 for the cube and every other kind. */
  function Mass(numSides: int): (m: real)
    ensures m > 0.0
    ensures numSides == 4 <==> m == 0.8
  {
    if numSides == 4 then 0.8 else if numSides == 6 then 1.0 else 1.0
  }

  /** The local vertices: alternate corners of a cube of half-side `size` (tetrahedron), or the corners at +-size/2 (cube). */
  function Vertices(numSides: int, size: real): (vs: seq<Vec3>)
    ensures |vs| == VertexCount(numSides)
  {
    if numSides == 4 then
      var s := size;
      [[s, s, s], [s, -s, -s], [-s, s, -s], [-s, -s, s]]
    else if numSides == 6 then
      var s := size / 2.0;
      [[s, s, -s], [s, -s, -s], [-s, -s, -s], [-s, s, -s],
       [s, s, s], [s, -s, s], [-s, -s, s], [-s, s, s]]
    else
      []
  }

  function VertexCount(numSides: int): nat {
    if numSides == 4 then 4 else if numSides == 6 then 8 else 0
  }

  /** Every face lists at least three distinct vertex indices, all in range. */
  predicate WellFormed(vertexCount: nat, faces: seq<seq<nat>>) {
    forall i :: 0 <= i < |faces| ==>
      |faces[i]| >= 3 &&
      (forall k :: 0 <= k < |faces[i]| ==> faces[i][k] < vertexCount) &&
      (forall k, l :: 0 <= k < l < |faces[i]| ==> faces[i][k] != faces[i][l])
  }

  /** The face index tables: four triangles for the tetrahedron, six quadrilaterals for the cube. */
  function Faces(numSides: int): (fs: seq<seq<nat>>)
    ensures WellFormed(VertexCount(numSides), fs)
    ensures |fs| == (if numSides == 4 then 4 else if numSides == 6 then 6 else 0)
    ensures forall i :: 0 <= i < |fs| ==> |fs[i]| == (if numSides == 4 then 3 else 4)
  {
    if numSides == 4 then
      [[0, 1, 2], [0, 1, 3], [0, 2, 3], [1, 2, 3]]
    else if numSides == 6 then
      [[0, 1, 2, 3], [4, 5, 6, 7], [0, 1, 5, 4],
       [2, 3, 7, 6], [0, 3, 7, 4], [1, 2, 6, 5]]
    else
      []
  }

  /**
    The normal of the plane through v1, v2, v3: the cross product of the two
    edges from v1, divided by its length, or the zero vector when the length
    is zero. The square root is the caller's.
   */
  function CalculateNormal(sqrt: real -> real, v1: Vec3, v2: Vec3, v3: Vec3): (n: Vec3)
    ensures Dot(n, Sub(v2, v1)) == 0.0 && Dot(n, Sub(v3, v1)) == 0.0
    ensures var c := Cross(Sub(v2, v1), Sub(v3, v1));
            var length := sqrt(NormSq(c));
            (length == 0.0 ==> n == Zero) && (length != 0.0 ==> Scale(length, n) == c)
  {
    var edge1 := Sub(v2, v1);
    var edge2 := Sub(v3, v1);
    var normal := Cross(edge1, edge2);
    var length := sqrt(NormSq(normal));
    CrossOrthogonal(edge1, edge2);
    if length == 0.0 then Zero
    else
      var n: Vec3 := [normal[0] / length, normal[1] / length, normal[2] / length];
      ScaledOrthogonal(normal, length, edge1);
      ScaledOrthogonal(normal, length, edge2);
      assert Scale(length, n)[0] == length * (normal[0] / length) == normal[0];
      assert Scale(length, n)[1] == length * (normal[1] / length) == normal[1];
      assert Scale(length, n)[2] == length * (normal[2] / length) == normal[2];
      n
  }

  lemma ScaledOrthogonal(c: Vec3, length: real, e: Vec3)
    requires length != 0.0 && Dot(c, e) == 0.0
    ensures Dot([c[0] / length, c[1] / length, c[2] / length], e) == 0.0
  {
    var k := 1.0 / length;
    assert c[0] / length == k * c[0] && c[1] / length == k * c[1] && c[2] / length == k * c[2];
    calc {
      Dot([c[0] / length, c[1] / length, c[2] / length], e);
      k * c[0] * e[0] + k * c[1] * e[1] + k * c[2] * e[2];
      k * Dot(c, e);
    }
  }

  /** One normal per face, computed from the face's first three vertices. */
  function FaceNormals(sqrt: real -> real, vertices: seq<Vec3>, faces: seq<seq<nat>>): (ns: seq<Vec3>)
    requires WellFormed(|vertices|, faces)
    ensures |ns| == |faces|
    ensures forall i :: 0 <= i < |faces| ==>
              var e1 := Sub(vertices[faces[i][1]], vertices[faces[i][0]]);
              var e2 := Sub(vertices[faces[i][2]], vertices[faces[i][0]]);
              var c := Cross(e1, e2);
              var length := sqrt(NormSq(c));
              Dot(ns[i], e1) == 0.0 && Dot(ns[i], e2) == 0.0 &&
              (length == 0.0 ==> ns[i] == Zero) && (length != 0.0 ==> Scale(length, ns[i]) == c)
  {
    seq(|faces|, i requires 0 <= i < |faces| =>
      CalculateNormal(sqrt, vertices[faces[i][0]], vertices[faces[i][1]], vertices[faces[i][2]]))
  }

  /** Tetrahedron face i is made of every vertex except vertex 3 - i. */
  lemma TetrahedronFaceOmitsOneVertex(i: nat)
    requires i < 4
    ensures forall v: nat :: v < 4 ==> (v in Faces(4)[i] <==> v != 3 - i)
  {
  }

  /**
    Each cube face lies in one axis-aligned plane: there is an axis on which
    all four of its vertices have the same coordinate, +size/2 or -size/2.
   */
  lemma CubeFacesAxisAligned(size: real, i: nat)
    requires i < 6
    ensures exists axis :: 0 <= axis < 3 && (
              var c := Vertices(6, size)[Faces(6)[i][0]][axis];
              (c == size / 2.0 || c == -size / 2.0) &&
              forall k :: 0 <= k < 4 ==> Vertices(6, size)[Faces(6)[i][k]][axis] == c)
  {
    var axis := if i < 2 then 2 else if i < 4 then 0 else 1;
    var vs := Vertices(6, size);
    var f := Faces(6)[i];
    assert forall k :: 0 <= k < 4 ==> vs[f[k]][axis] == vs[f[0]][axis];
  }

  /**
    As the source winds the cube's faces, faces 1 and 2 get the same normal,
    and so do faces 5 and 6: their first three vertices differ by a
    translation, so their edges are equal.
   */
  lemma CubeNormalsRepeat(sqrt: real -> real, size: real)
    ensures var ns := FaceNormals(sqrt, Vertices(6, size), Faces(6));
            ns[0] == ns[1] && ns[4] == ns[5]
  {
    var vs := Vertices(6, size);
    var fs := Faces(6);
    assert fs[0] == [0, 1, 2, 3] && fs[1] == [4, 5, 6, 7];
    assert fs[4] == [0, 3, 7, 4] && fs[5] == [1, 2, 6, 5];
    SameEdgesSameNormal(sqrt, vs[0], vs[1], vs[2], vs[4], vs[5], vs[6]);
    SameEdgesSameNormal(sqrt, vs[0], vs[3], vs[7], vs[1], vs[2], vs[6]);
  }

  /** Two triangles whose edges from the first vertex are equal have the same normal. */
  lemma SameEdgesSameNormal(sqrt: real -> real, a1: Vec3, a2: Vec3, a3: Vec3, b1: Vec3, b2: Vec3, b3: Vec3)
    requires Sub(a2, a1) == Sub(b2, b1) && Sub(a3, a1) == Sub(b3, b1)
    ensures CalculateNormal(sqrt, a1, a2, a3) == CalculateNormal(sqrt, b1, b2, b3)
  {
  }

  // ---------------------------------------------------------------------------
  // Inertia.

  /**
    The inertia tensor: diagonal and the same on every axis, mass*size^2/6 for
    the cube, mass*size^2/4 for the tetrahedron (written (1/20)*m*s^2*5), and
    the identity for any other kind.
   */
  function InertiaTensor(numSides: int, mass: real, size: real): (t: Mat3)
    ensures IsDiagonal(t)
    ensures forall i :: 0 <= i < 3 ==> (
              t[i][i] == if numSides == 6 then mass * (size * size) / 6.0
                         else if numSides == 4 then mass * (size * size) / 4.0
                         else 1.0)
  {
    if numSides == 6 then
      Diagonal((1.0 / 6.0) * mass * (size * size))
    else if numSides == 4 then
      Diagonal((1.0 / 20.0) * mass * (size * size) * 5.0)
    else
      Diagonal(1.0)
  }

  /** inv is t's inverse with a guard: 1/t[i][i] on the diagonal where that is non-zero, 0 everywhere else. */
  predicate IsGuardedInverse(inv: Mat3, t: Mat3) {
    IsDiagonal(inv) &&
    forall i :: 0 <= i < 3 ==> inv[i][i] == (if t[i][i] != 0.0 then 1.0 / t[i][i] else 0.0)
  }

  /** Starts from the zero matrix and fills in 1/t[i][i] for every non-zero diagonal entry. */
  method CalculateInverseInertiaTensor(numSides: int, mass: real, size: real) returns (inv: Mat3)
    ensures IsGuardedInverse(inv, InertiaTensor(numSides, mass, size))
    ensures forall i :: 0 <= i < 3 && InertiaTensor(numSides, mass, size)[i][i] != 0.0 ==>
      inv[i][i] * InertiaTensor(numSides, mass, size)[i][i] == 1.0
  {
    var tensor := InertiaTensor(numSides, mass, size);
    inv := [Zero, Zero, Zero];
    var i := 0;
    while i < 3
      invariant 0 <= i <= 3
      invariant IsDiagonal(inv)
      invariant forall k :: 0 <= k < i ==> inv[k][k] == (if tensor[k][k] != 0.0 then 1.0 / tensor[k][k] else 0.0)
      invariant forall k :: i <= k < 3 ==> inv[k][k] == 0.0
    {
      if tensor[i][i] != 0.0 {
        inv := inv[i := inv[i][i := 1.0 / tensor[i][i]]];
      }
      i := i + 1;
    }
  }
}
