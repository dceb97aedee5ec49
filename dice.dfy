/**
  The rigid-body step of a thrown die over a horizontal floor and the way it
  reads off its result (class `Dice` in Dices/dice_d20.py).

  A die is idle until it is thrown, rolls while `update` integrates gravity,
  motion and a floor contact, and falls asleep once it has been on the floor
  for a while, lies on a face and has almost stopped; it then reports the
  face it shows. The motion state is a `Dice` object whose fields the methods
  update in place; every method is proved against a pure function over a
  `Motion` value, and the properties are lemmas about those functions.

  The rotation of a point by three Euler angles (trigonometry) and the square
  root are not modelled: the die is given them as functions when it is built.
 */
module DicePhysics {
  import opened Wrappers
  import opened Vectors
  import opened Sequences
  import opened DiceGeometry
  import opened Selection

  const Gravity: real := 9.81
  const Restitution: real := 0.6
  const Friction: real := 0.8
  const StableThreshold: real := 0.98
  const MaxImpulse: real := 10.0
  /** A vertex closer to the floor than this counts as touching it. */
  const ContactDistance: real := 0.01
  /** Below this tangential speed the contact has no friction direction. */
  const TangentEpsilon: real := 0.000001
  /** How long the die must have been touching the floor before it may sleep. */
  const SettleTime: real := 0.1
  const RestSpeed: real := 0.1
  const RestSpin: real := 0.5
  /** The floor height `update` uses when the caller gives none. */
  const DefaultPlaneY: real := -2.0
  /** The tetrahedron's reference direction, straight down. */
  const Down: Vec3 := [0.0, -1.0, 0.0]

  /** The motion fields of a die, as one value. */
  datatype Motion = Motion(
    position: Vec3, rotation: Vec3, velocity: Vec3, angularVelocity: Vec3,
    isRolling: bool, isSleeping: bool, groundedTimer: real, result: int)

  /** The lowest vertex: its index, its height above the floor and its rotated offset from the centre. */
  datatype Contact = Contact(index: nat, distance: real, localVertex: Vec3)

  /** Python's `r % 360` on a float: r reduced into [0, 360). */
  function WrapDegrees(r: real): (w: real)
    ensures 0.0 <= w < 360.0
    ensures 0.0 <= r < 360.0 ==> w == r
  {
    r - 360.0 * (r / 360.0).Floor as real
  }

  /** A whole turn more or less gives the same wrapped angle. */
  lemma WrapDegreesPeriodic(r: real)
    ensures WrapDegrees(r + 360.0) == WrapDegrees(r)
    ensures WrapDegrees(r - 360.0) == WrapDegrees(r)
  {
    assert (r + 360.0) / 360.0 == r / 360.0 + 1.0;
    assert (r - 360.0) / 360.0 == r / 360.0 - 1.0;
  }

  function Abs(x: real): real {
    if x < 0.0 then -x else x
  }

  /** Every speed component is below 0.1 and every spin component below 0.5. */
  predicate AtRest(v: Vec3, w: Vec3) {
    forall i :: 0 <= i < 3 ==> Abs(v[i]) < RestSpeed && Abs(w[i]) < RestSpin
  }

  /** p moved along v for dt, component by component. */
  function Advance(p: Vec3, v: Vec3, dt: real): Vec3 {
    [p[0] + v[0] * dt, p[1] + v[1] * dt, p[2] + v[2] * dt]
  }

  /** The loop `for i in range(3): p[i] += v[i] * dt` on a copy of p. */
  method AdvanceEach(p: Vec3, v: Vec3, dt: real) returns (q: Vec3)
    ensures q == Advance(p, v, dt)
  {
    q := p;
    for i := 0 to 3
      invariant forall k :: 0 <= k < 3 ==> q[k] == if k < i then p[k] + v[k] * dt else p[k]
    {
      q := q[i := q[i] + v[i] * dt];
    }
    assert forall k :: 0 <= k < 3 ==> q[k] == Advance(p, v, dt)[k];
  }

  /** Gravity on the vertical speed, then position and rotation advanced, the rotation wrapped to [0, 360). */
  function Integrate(s: Motion, dt: real): (r: Motion)
    ensures forall i :: 0 <= i < 3 ==> 0.0 <= r.rotation[i] < 360.0
  {
    var velocity := s.velocity[1 := s.velocity[1] + (-Gravity) * dt];
    var turned := Advance(s.rotation, s.angularVelocity, dt);
    s.(velocity := velocity,
       position := Advance(s.position, velocity, dt),
       rotation := [WrapDegrees(turned[0]), WrapDegrees(turned[1]), WrapDegrees(turned[2])])
  }

  /** The first j products of row and d, added left to right. */
  function RowSum(row: Vec3, d: Vec3, j: nat): real
    requires j <= 3
  {
    if j == 0 then 0.0 else RowSum(row, d, j - 1) + row[j - 1] * d[j - 1]
  }

  lemma RowSumFull(row: Vec3, d: Vec3)
    ensures RowSum(row, d, 3) == row[0] * d[0] + row[1] * d[1] + row[2] * d[2]
  {
    assert RowSum(row, d, 1) == row[0] * d[0];
    assert RowSum(row, d, 2) == row[0] * d[0] + row[1] * d[1];
  }

  /**
    Adds inv * d to w, one product at a time as the nested loop over i and j
    does.
   */
  method ApplyInverseInertia(w: Vec3, inv: Mat3, d: Vec3) returns (r: Vec3)
    ensures r == Add(w, MatVec(inv, d))
  {
    r := w;
    for i := 0 to 3
      invariant forall k :: 0 <= k < 3 ==> r[k] == if k < i then w[k] + RowSum(inv[k], d, 3) else w[k]
    {
      var acc := r[i];
      for j := 0 to 3
        invariant acc == w[i] + RowSum(inv[i], d, j)
      {
        acc := acc + inv[i][j] * d[j];
      }
      r := r[i := acc];
    }
    RowSumFull(inv[0], d);
    RowSumFull(inv[1], d);
    RowSumFull(inv[2], d);
    assert forall k :: 0 <= k < 3 ==> r[k] == Add(w, MatVec(inv, d))[k];
  }

  class Dice {
    const numSides: int
    const size: real
    /** `rotate_point(point, rotation)`, given by the caller. */
    const rotatePoint: (Vec3, Vec3) -> Vec3
    /** `math.sqrt`, given by the caller. */
    const sqrt: real -> real
    const vertices: seq<Vec3>
    const faces: seq<seq<nat>>
    const normals: seq<Vec3>
    const mass: real
    const inertiaTensor: Mat3
    const invInertiaTensor: Mat3

    var position: Vec3
    var rotation: Vec3
    var velocity: Vec3
    var angularVelocity: Vec3
    var isRolling: bool
    var isSleeping: bool
    var groundedTimer: real
    var result: int

    /** The tables were built from numSides and size as the constructor builds them. */
    predicate Built() {
      vertices == Vertices(numSides, size) &&
      faces == Faces(numSides) &&
      normals == FaceNormals(sqrt, vertices, faces) &&
      mass == Mass(numSides) &&
      inertiaTensor == InertiaTensor(numSides, mass, size) &&
      IsGuardedInverse(invInertiaTensor, inertiaTensor)
    }

    function State(): Motion
      reads this
    {
      Motion(position, rotation, velocity, angularVelocity, isRolling, isSleeping, groundedTimer, result)
    }

    /**
      The states the die can be in: asleep (not rolling, showing a face
      between 1 and the number of faces) or awake with no result yet.
     */
    predicate Consistent(s: Motion) {
      (s.isSleeping ==> !s.isRolling && 1 <= s.result <= |faces|) &&
      (!s.isSleeping ==> s.result == 0)
    }

    constructor (numSides: int, size: real := 1.0, rotatePoint: (Vec3, Vec3) -> Vec3, sqrt: real -> real)
      ensures Built()
      ensures this.numSides == numSides && this.size == size
      ensures this.rotatePoint == rotatePoint && this.sqrt == sqrt
      ensures State() == Motion(Zero, Zero, Zero, Zero, false, false, 0.0, 0)
      ensures Consistent(State())
    {
      this.numSides := numSides;
      this.size := size;
      this.rotatePoint := rotatePoint;
      this.sqrt := sqrt;
      var vs := Vertices(numSides, size);
      var fs := Faces(numSides);
      vertices := vs;
      faces := fs;
      normals := FaceNormals(sqrt, vs, fs);
      var m := Mass(numSides);
      mass := m;
      inertiaTensor := InertiaTensor(numSides, m, size);
      var inv := CalculateInverseInertiaTensor(numSides, m, size);
      invInertiaTensor := inv;
      position := Zero;
      rotation := Zero;
      velocity := Zero;
      angularVelocity := Zero;
      isRolling := false;
      isSleeping := false;
      groundedTimer := 0.0;
      result := 0;
    }

    // -------------------------------------------------------------------------
    // Throwing the die.

    /** The state after `start_roll(v, w)`. */
    function Roll(s: Motion, v: Vec3, w: Vec3): (r: Motion)
      ensures r.velocity == v && r.angularVelocity == w
      ensures r.isRolling && !r.isSleeping && r.result == 0 && r.groundedTimer == 0.0
      ensures r.position == s.position && r.rotation == s.rotation
    {
      s.(velocity := v, angularVelocity := w, isRolling := true, result := 0,
         isSleeping := false, groundedTimer := 0.0)
    }

    method StartRoll(v: Vec3, w: Vec3)
      modifies this
      ensures State() == Roll(old(State()), v, w)
    {
      velocity := v;
      angularVelocity := w;
      isRolling := true;
      result := 0;
      isSleeping := false;
      groundedTimer := 0.0;
    }

    /** A thrown die is awake whatever state it was in. */
    lemma RollConsistent(s: Motion, v: Vec3, w: Vec3)
      ensures Consistent(Roll(s, v, w))
    {
    }

    // -------------------------------------------------------------------------
    // Finding the lowest vertex.

    /** Height above the floor of vertex k once the die is rotated by rot and placed at pos. */
    function Distance(rot: Vec3, pos: Vec3, planeY: real, k: nat): real
      requires k < |vertices|
    {
      Add(pos, rotatePoint(vertices[k], rot))[1] - planeY
    }

    /**
      The lowest of the first n vertices, the earliest one among equally low
      vertices (the scan replaces its candidate only on a strictly smaller
      distance); none when n is 0, where the scan's minimum stays infinite.
     */
    function Lowest(rot: Vec3, pos: Vec3, planeY: real, n: nat): (c: Option<Contact>)
      requires n <= |vertices|
      ensures c.None? <==> n == 0
      ensures c.Some? ==>
        c.value.index < n &&
        c.value.distance == Distance(rot, pos, planeY, c.value.index) &&
        c.value.localVertex == rotatePoint(vertices[c.value.index], rot) &&
        (forall k :: 0 <= k < n ==> c.value.distance <= Distance(rot, pos, planeY, k)) &&
        (forall k :: 0 <= k < c.value.index ==> c.value.distance < Distance(rot, pos, planeY, k))
      decreases n
    {
      if n == 0 then None
      else
        var prev := Lowest(rot, pos, planeY, n - 1);
        var d := Distance(rot, pos, planeY, n - 1);
        if prev.None? || d < prev.value.distance then
          Some(Contact(n - 1, d, rotatePoint(vertices[n - 1], rot)))
        else
          prev
    }

    /** The scan over the vertices at the current rotation and position. */
    method FindContact(planeY: real) returns (c: Option<Contact>)
      ensures c == Lowest(rotation, position, planeY, |vertices|)
    {
      c := None;
      for k := 0 to |vertices|
        invariant c == Lowest(rotation, position, planeY, k)
      {
        var rotated := rotatePoint(vertices[k], rotation);
        var world := Add(position, rotated);
        var distance := world[1] - planeY;
        if c.None? || distance < c.value.distance {
          c := Some(Contact(k, distance, rotated));
        }
      }
    }

    /** Some vertex touches the floor exactly when the lowest one does. */
    lemma LowestTouches(rot: Vec3, pos: Vec3, planeY: real)
      ensures var c := Lowest(rot, pos, planeY, |vertices|);
              (c.Some? && c.value.distance < ContactDistance) <==>
              exists k :: 0 <= k < |vertices| && Distance(rot, pos, planeY, k) < ContactDistance
    {
      var c := Lowest(rot, pos, planeY, |vertices|);
      if exists k :: 0 <= k < |vertices| && Distance(rot, pos, planeY, k) < ContactDistance {
        var k :| 0 <= k < |vertices| && Distance(rot, pos, planeY, k) < ContactDistance;
        assert c.Some?;
      }
    }

    // -------------------------------------------------------------------------
    // The floor contact.

    /** The clamped restitution impulse for a normal relative speed dot. */
    function Impulse(dot: real): (j: real)
      requires Built()
      ensures j <= MaxImpulse
      ensures dot < 0.0 ==> j > 0.0
    {
      assert mass == 0.8 || mass == 1.0;
      Min(-(1.0 + Restitution) * dot / (1.0 / mass), MaxImpulse)
    }

    /**
      The response to a touching vertex: when the contact point moves into
      the floor, a vertical impulse on the speed, a friction torque on the
      spin (or no spin at all when there is no tangential motion), and the
      die lifted so the vertex is back on the floor. Nothing happens when
      the contact point is leaving the floor.
     */
    function Respond(s: Motion, c: Contact): (r: Motion)
      requires Built()
      ensures r.rotation == s.rotation
    {
      var rel := Add(s.velocity, Cross(s.angularVelocity, c.localVertex));
      var dot := Dot(rel, Up);
      if dot < 0.0 then
        var impulse := Impulse(dot);
        var velocity := Add(s.velocity, Scale(impulse / mass, Up));
        var tangent := Sub(rel, Scale(dot, Up));
        var magnitude := sqrt(NormSq(tangent));
        var spin := if magnitude > TangentEpsilon then Spin(s.angularVelocity, c.localVertex, impulse, magnitude) else Zero;
        s.(velocity := velocity, angularVelocity := spin,
           position := s.position[1 := s.position[1] + -c.distance])
      else
        s
    }

    /**
      The spin after an impulse at the contact vertex lv: the impulse's
      torque less the friction torque, through the inverse inertia tensor;
      friction is 0.8 of the impulse, at most the tangential speed.
     */
    function Spin(w: Vec3, lv: Vec3, impulse: real, magnitude: real): Vec3
    {
      var frictionImpulse := Min(impulse * Friction, magnitude);
      var arm := Cross(lv, Up);
      Add(w, MatVec(invInertiaTensor, Sub(Scale(impulse, arm), Scale(frictionImpulse, arm))))
    }

    /** The normal component of the contact point's velocity. */
    function Approach(s: Motion, c: Contact): real {
      Dot(Add(s.velocity, Cross(s.angularVelocity, c.localVertex)), Up)
    }

    /**
      The impulse only acts upwards: the horizontal speeds do not change, and
      when the contact point approaches the floor the vertical speed grows by
      more than 0 and at most 10 / mass. A contact point that is not
      approaching leaves the state as it is.
     */
    lemma ImpulseLiftsOnly(s: Motion, c: Contact)
      requires Built()
      ensures var r := Respond(s, c);
              r.velocity[0] == s.velocity[0] && r.velocity[2] == s.velocity[2] &&
              (Approach(s, c) < 0.0 ==>
                 s.velocity[1] < r.velocity[1] <= s.velocity[1] + MaxImpulse / mass) &&
              (Approach(s, c) >= 0.0 ==> r == s)
    {
      var dot := Approach(s, c);
      if dot < 0.0 {
        var impulse := Impulse(dot);
        assert Respond(s, c).velocity == Add(s.velocity, Scale(impulse / mass, Up));
        if mass == 0.8 {
          assert impulse / 0.8 <= MaxImpulse / 0.8;
        }
      }
    }

    /** With no tangential motion at an approaching contact the spin is stopped outright. */
    lemma NoTangentStopsSpin(s: Motion, c: Contact)
      requires Built()
      requires Approach(s, c) < 0.0
      requires var rel := Add(s.velocity, Cross(s.angularVelocity, c.localVertex));
               sqrt(NormSq(Sub(rel, Scale(Approach(s, c), Up)))) <= TangentEpsilon
      ensures Respond(s, c).angularVelocity == Zero
    {
    }

    /**
      After the response to the lowest vertex, no vertex is below the floor
      and the contact vertex lies exactly on it.
     */
    lemma RespondRestsOnFloor(s: Motion, planeY: real)
      requires Built() && |vertices| > 0
      ensures var c := Lowest(s.rotation, s.position, planeY, |vertices|).value;
              var r := Respond(s, c);
              Approach(s, c) < 0.0 ==>
                Distance(r.rotation, r.position, planeY, c.index) == 0.0 &&
                forall k :: 0 <= k < |vertices| ==> Distance(r.rotation, r.position, planeY, k) >= 0.0
    {
      var c := Lowest(s.rotation, s.position, planeY, |vertices|).value;
      var r := Respond(s, c);
      if Approach(s, c) < 0.0 {
        assert r.rotation == s.rotation;
        assert r.position[1] == s.position[1] - c.distance;
        forall k | 0 <= k < |vertices|
          ensures Distance(r.rotation, r.position, planeY, k) == Distance(s.rotation, s.position, planeY, k) - c.distance
        {
        }
      }
    }

    // -------------------------------------------------------------------------
    // Stability and the result.

    /** Some face from i on has a rotated normal within the stability threshold of straight up. */
    predicate FaceUpFrom(rot: Vec3, i: nat)
      requires i <= |normals|
      ensures FaceUpFrom(rot, i) <==>
        exists k :: i <= k < |normals| && Dot(rotatePoint(normals[k], rot), Up) >= StableThreshold
      decreases |normals| - i
    {
      i < |normals| &&
      (Dot(rotatePoint(normals[i], rot), Up) >= StableThreshold || FaceUpFrom(rot, i + 1))
    }

    /** `is_stable`: the die lies on a face. */
    predicate IsStable(rot: Vec3) {
      FaceUpFrom(rot, 0)
    }

    /** The cube's score for each face: how far its rotated normal points up. */
    function CubeScores(rot: Vec3): (scores: seq<real>)
      ensures |scores| == |normals|
    {
      seq(|normals|, i requires 0 <= i < |normals| => Dot(rotatePoint(normals[i], rot), Up))
    }

    /**
      The tetrahedron's score for each face: the face with the smallest
      `1 - dot(n, down)` wins, so the score is that value negated and the
      starting minimum 2 becomes the floor -2.
     */
    function TetraScores(rot: Vec3): (scores: seq<real>)
      ensures |scores| == |normals|
    {
      seq(|normals|, i requires 0 <= i < |normals| => -(1.0 - Dot(rotatePoint(normals[i], rot), Down)))
    }

    /**
      `determine_result`: the 1-based face the scan picks for the tetrahedron
      and the cube; any other kind keeps its current result.
     */
    function ResultFace(rot: Vec3, current: int): (face: int)
      requires Built()
      ensures numSides == 4 || numSides == 6 ==> 1 <= face <= |faces|
      ensures numSides != 4 && numSides != 6 ==> face == current
    {
      if numSides == 4 then ScanBest(TetraScores(rot), -2.0).index
      else if numSides == 6 then ScanBest(CubeScores(rot), -2.0).index
      else current
    }

    /** The tetrahedron's scan: the first face whose `1 - dot(n, down)` is smallest and below 2. */
    method TetraResult() returns (face: nat)
      ensures face == ScanBest(TetraScores(rotation), -2.0).index
    {
      var scores := TetraScores(rotation);
      var minDot := 2.0;
      face := 1;
      for i := 0 to |normals|
        invariant ScanBest(scores[..i], -2.0) == Pick(face, -minDot)
      {
        var rotated := rotatePoint(normals[i], rotation);
        var dot := rotated[0] * Down[0] + rotated[1] * Down[1] + rotated[2] * Down[2];
        assert scores[i] == -(1.0 - dot);
        ScanBestSnoc(scores, -2.0, i);
        if 1.0 - dot < minDot {
          minDot := 1.0 - dot;
          face := i + 1;
        }
      }
      assert scores[..|normals|] == scores;
    }

    /** The cube's scan: the first face whose upward dot product is largest and above -2. */
    method CubeResult() returns (face: nat)
      ensures face == ScanBest(CubeScores(rotation), -2.0).index
    {
      var scores := CubeScores(rotation);
      var maxDot := -2.0;
      face := 1;
      for i := 0 to |normals|
        invariant ScanBest(scores[..i], -2.0) == Pick(face, maxDot)
      {
        var rotated := rotatePoint(normals[i], rotation);
        var dot := rotated[0] * Up[0] + rotated[1] * Up[1] + rotated[2] * Up[2];
        assert scores[i] == dot;
        ScanBestSnoc(scores, -2.0, i);
        if dot > maxDot {
          maxDot := dot;
          face := i + 1;
        }
      }
      assert scores[..|normals|] == scores;
    }

    method DetermineResult()
      requires Built()
      modifies this`result
      ensures result == ResultFace(rotation, old(result))
    {
      if numSides == 4 {
        result := TetraResult();
      } else if numSides == 6 {
        result := CubeResult();
      }
    }

    /**
      As the cube's faces are wound, faces 1 and 2 share a normal and so do
      faces 5 and 6, so the earlier face of each pair always wins: a cube
      never reports 2 or 6.
     */
    lemma CubeNeverShowsTwoOrSix(rot: Vec3, current: int)
      requires Built() && numSides == 6
      ensures ResultFace(rot, current) != 2 && ResultFace(rot, current) != 6
    {
      CubeNormalsRepeat(sqrt, size);
      var scores := CubeScores(rot);
      TieGoesToEarlier(scores, -2.0, 0, 1);
      TieGoesToEarlier(scores, -2.0, 4, 5);
    }

    // -------------------------------------------------------------------------
    // One step.

    /** Falling asleep: on the floor long enough, lying on a face and nearly still. */
    predicate ReadyToSleep(s: Motion) {
      s.groundedTimer > SettleTime && IsStable(s.rotation) && AtRest(s.velocity, s.angularVelocity)
    }

    function Settle(s: Motion): (r: Motion)
      requires Built()
      ensures r.rotation == s.rotation
    {
      if ReadyToSleep(s) then
        s.(isRolling := false, isSleeping := true, result := ResultFace(s.rotation, s.result))
      else
        s
    }

    /** The floor contact of a moved die: whether it touches, and the state after the response and the timer. */
    function Touch(moved: Motion, dt: real, planeY: real): (r: Motion)
      requires Built()
      ensures r.rotation == moved.rotation
    {
      var low := Lowest(moved.rotation, moved.position, planeY, |vertices|);
      if low.Some? && low.value.distance < ContactDistance then
        Respond(moved, low.value).(groundedTimer := moved.groundedTimer + dt)
      else
        moved.(groundedTimer := 0.0)
    }

    /**
      `update(dt, plane_y)`: nothing for a sleeping or idle die; otherwise
      integrate, respond to the floor, run the timer and maybe fall asleep.
     */
    function Step(s: Motion, dt: real, planeY: real): (r: Motion)
      requires Built()
      ensures s.isSleeping || !s.isRolling ==> r == s
      ensures r.isSleeping && !s.isSleeping ==>
        !r.isRolling && r.groundedTimer > SettleTime && IsStable(r.rotation) &&
        AtRest(r.velocity, r.angularVelocity) && r.result == ResultFace(r.rotation, s.result)
      ensures s.isRolling && !s.isSleeping ==> forall i :: 0 <= i < 3 ==> 0.0 <= r.rotation[i] < 360.0
    {
      if s.isSleeping || !s.isRolling then s
      else Settle(Touch(Integrate(s, dt), dt, planeY))
    }

    /**
      The grounded timer of a rolling die grows by dt when some vertex of the
      moved die is closer to the floor than 0.01 and restarts from 0 when none is.
     */
    lemma GroundedTimer(s: Motion, dt: real, planeY: real)
      requires Built() && s.isRolling && !s.isSleeping
      ensures var m := Integrate(s, dt);
              Step(s, dt, planeY).groundedTimer ==
                if exists k :: 0 <= k < |vertices| && Distance(m.rotation, m.position, planeY, k) < ContactDistance
                then s.groundedTimer + dt else 0.0
    {
      var m := Integrate(s, dt);
      LowestTouches(m.rotation, m.position, planeY);
    }

    /** A die with neither tetrahedron nor cube geometry has no vertex to land on and never falls asleep. */
    lemma OtherKindsNeverSettle(s: Motion, dt: real, planeY: real)
      requires Built() && numSides != 4 && numSides != 6
      ensures Step(s, dt, planeY).isSleeping == s.isSleeping
    {
    }

    /** Steps and throws keep the die in one of its consistent states. */
    lemma StepConsistent(s: Motion, dt: real, planeY: real)
      requires Built() && Consistent(s)
      ensures Consistent(Step(s, dt, planeY))
    {
      if s.isRolling && !s.isSleeping && Step(s, dt, planeY).isSleeping {
        if numSides != 4 && numSides != 6 {
          OtherKindsNeverSettle(s, dt, planeY);
        }
      }
    }

    /** Gravity, then the position and rotation loops and the wrap of the rotation. */
    method Move(dt: real)
      modifies this
      ensures State() == Integrate(old(State()), dt)
    {
      velocity := velocity[1 := velocity[1] + (-Gravity) * dt];
      position := AdvanceEach(position, velocity, dt);
      rotation := AdvanceEach(rotation, angularVelocity, dt);
      rotation := [WrapDegrees(rotation[0]), WrapDegrees(rotation[1]), WrapDegrees(rotation[2])];
    }

    /** The linear impulse loop: velocity[i] grows by k times the floor normal's component i. */
    method Lift(k: real)
      modifies this
      ensures State() == old(State()).(velocity := Add(old(velocity), Scale(k, Up)))
    {
      var v := velocity;
      for i := 0 to 3
        invariant forall j :: 0 <= j < 3 ==> v[j] == if j < i then velocity[j] + k * Up[j] else velocity[j]
      {
        v := v[i := v[i] + k * Up[i]];
      }
      velocity := v;
    }

    /** The response to a touching vertex: the impulse, friction or a full stop of the spin, and the lift out of the floor. */
    method Bounce(c: Contact)
      requires Built()
      modifies this
      ensures State() == Respond(old(State()), c)
    {
      var rel := Add(velocity, Cross(angularVelocity, c.localVertex));
      var dot := Dot(rel, Up);
      if dot < 0.0 {
        var impulse := Impulse(dot);
        Lift(impulse / mass);
        angularVelocity := Slide(angularVelocity, c.localVertex, rel, dot, impulse);
        position := position[1 := position[1] + -c.distance];
      }
    }

    /** The tangential speed of the contact point, then friction or a full stop of the spin. */
    method Slide(w: Vec3, lv: Vec3, rel: Vec3, dot: real, impulse: real) returns (r: Vec3)
      ensures var magnitude := sqrt(NormSq(Sub(rel, Scale(dot, Up))));
              r == if magnitude > TangentEpsilon then Spin(w, lv, impulse, magnitude) else Zero
    {
      var tangent := Sub(rel, Scale(dot, Up));
      var magnitude := sqrt(NormSq(tangent));
      if magnitude > TangentEpsilon {
        r := Twist(w, lv, impulse, magnitude);
      } else {
        r := Zero;
      }
    }

    /** The friction branch: the torques and the nested loop through the inverse inertia tensor. */
    method Twist(w: Vec3, lv: Vec3, impulse: real, magnitude: real) returns (r: Vec3)
      ensures r == Spin(w, lv, impulse, magnitude)
    {
      var frictionImpulse := Min(impulse * Friction, magnitude);
      var arm := Cross(lv, Up);
      var angularImpulse := Scale(impulse, arm);
      var frictionTorque := Scale(frictionImpulse, arm);
      r := ApplyInverseInertia(w, invInertiaTensor, Sub(angularImpulse, frictionTorque));
    }

    /** The floor test on the lowest vertex and the grounded timer. */
    method TouchFloor(dt: real, planeY: real)
      requires Built()
      modifies this
      ensures State() == Touch(old(State()), dt, planeY)
    {
      var low := FindContact(planeY);
      if low.Some? && low.value.distance < ContactDistance {
        Bounce(low.value);
        groundedTimer := groundedTimer + dt;
      } else {
        groundedTimer := 0.0;
      }
    }

    /** The sleep test and, when it passes, the result. */
    method MaybeSettle()
      requires Built()
      modifies this`isRolling, this`isSleeping, this`result
      ensures ReadyToSleep(old(State())) ==>
        isSleeping && !isRolling && result == ResultFace(rotation, old(result))
      ensures !ReadyToSleep(old(State())) ==>
        isSleeping == old(isSleeping) && isRolling == old(isRolling) && result == old(result)
    {
      if ReadyToSleep(State()) {
        isRolling := false;
        isSleeping := true;
        DetermineResult();
      }
    }

    method Update(dt: real, planeY: real := DefaultPlaneY)
      requires Built()
      modifies this
      ensures State() == Step(old(State()), dt, planeY)
    {
      if isSleeping {
        return;
      }
      if !isRolling {
        return;
      }
      Move(dt);
      TouchFloor(dt, planeY);
      MaybeSettle();
    }
  }
}
