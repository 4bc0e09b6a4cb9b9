/**
 * The vertical kinematics and collision of the endless-climber game: a sphere of
 * radius 5 that walks, jumps under constant gravity, lands on axis-aligned platforms
 * of 50 x 3 x 50 or on the ground plane at height -10, and a camera pitch that is
 * clamped after every mouse move. JavaScript numbers are modelled as reals.
 */
module Cheepchoop {
  import opened Wrappers

  datatype Vec3 = Vec3(x: real, y: real, z: real)

  /** A horizontal vector: the rotation by the camera's yaw keeps the vertical part at zero. */
  datatype Planar = Planar(x: real, z: real)

  const SphereRadius: real := 5.0
  /** Height of the ground plane. */
  const GroundY: real := -10.0
  /** Half the size of a platform box. */
  const BoxHalf: Vec3 := Vec3(25.0, 1.5, 25.0)
  /** Lowest height the sphere's centre may take: resting on the ground. */
  const RestHeight: real := GroundY + SphereRadius

  const JumpHeight: real := 8.0
  const WalkSpeed: real := 1.0
  const RunSpeed: real := 2.0
  const Gravity: real := -0.4
  /** The fall speed is never allowed below this. */
  const TerminalVelocity: real := -4.0

  const Sensitivity: real := 0.002
  /** `Math.PI`, to the precision JavaScript prints it. */
  const Pi: real := 3.141592653589793
  const PitchMin: real := -Pi / 2.0 + 0.5
  const PitchMax: real := Pi / 2.0

  const PlatformCount: nat := 10
  const PlatformSpacing: real := 20.0
  const PlacementRange: real := 100.0

  function Min(a: real, b: real): real { if a <= b then a else b }
  function Max(a: real, b: real): real { if a >= b then a else b }

  /** `Math.max(lo, Math.min(v, hi))` */
  function Clamp(v: real, lo: real, hi: real): real {
    Max(lo, Min(v, hi))
  }

  // ---------------------------------------------------------------------------
  // Collision
  // ---------------------------------------------------------------------------

  /** The point `q` lies in the box of the platform centred at `p`. */
  predicate InBox(q: Vec3, p: Vec3) {
    && p.x - BoxHalf.x <= q.x <= p.x + BoxHalf.x
    && p.y - BoxHalf.y <= q.y <= p.y + BoxHalf.y
    && p.z - BoxHalf.z <= q.z <= p.z + BoxHalf.z
  }

  /** Squared Euclidean distance. */
  function Dist2(a: Vec3, b: Vec3): real {
    (a.x - b.x) * (a.x - b.x) + (a.y - b.y) * (a.y - b.y) + (a.z - b.z) * (a.z - b.z)
  }

  /** The sphere centre `c` clamped, coordinate by coordinate, into the box centred at `p`. */
  function ClosestPoint(c: Vec3, p: Vec3): (q: Vec3)
    ensures InBox(q, p)
    ensures InBox(c, p) ==> q == c
  {
    Vec3(Clamp(c.x, p.x - BoxHalf.x, p.x + BoxHalf.x),
         Clamp(c.y, p.y - BoxHalf.y, p.y + BoxHalf.y),
         Clamp(c.z, p.z - BoxHalf.z, p.z + BoxHalf.z))
  }

  lemma SquareMonotone(a: real, b: real)
    requires 0.0 <= a <= b
    ensures a * a <= b * b
  {
    assert b * b - a * a == (b - a) * (b + a);
  }

  /** Clamping a coordinate into `[lo, hi]` gives the value of that interval nearest to it. */
  lemma ClampIsNearest(v: real, lo: real, hi: real, w: real)
    requires lo <= w <= hi
    ensures (v - Clamp(v, lo, hi)) * (v - Clamp(v, lo, hi)) <= (v - w) * (v - w)
  {
    var k := Clamp(v, lo, hi);
    if v < lo {
      SquareMonotone(k - v, w - v);
      assert (v - k) * (v - k) == (k - v) * (k - v);
      assert (v - w) * (v - w) == (w - v) * (w - v);
    } else if v > hi {
      SquareMonotone(v - k, v - w);
    } else {
      assert k == v;
      SquareMonotone(0.0, if v >= w then v - w else w - v);
      assert (v - w) * (v - w) == (w - v) * (w - v);
    }
  }

  /** No point of the box is nearer to the sphere centre than the clamped point. */
  lemma ClosestPointIsNearest(c: Vec3, p: Vec3)
    ensures forall b :: InBox(b, p) ==> Dist2(c, ClosestPoint(c, p)) <= Dist2(c, b)
  {
    forall b | InBox(b, p)
      ensures Dist2(c, ClosestPoint(c, p)) <= Dist2(c, b)
    {
      ClampIsNearest(c.x, p.x - BoxHalf.x, p.x + BoxHalf.x, b.x);
      ClampIsNearest(c.y, p.y - BoxHalf.y, p.y + BoxHalf.y, b.y);
      ClampIsNearest(c.z, p.z - BoxHalf.z, p.z + BoxHalf.z, b.z);
    }
  }

  /**
   * `checkSphereBoxCollision`: the distance from the centre to the clamped point is below
   * the radius; both sides are non-negative, so the squares are compared instead.
   */
  function SphereBoxCollision(c: Vec3, p: Vec3): (r: bool)
    ensures InBox(c, p) ==> r
  {
    Dist2(c, ClosestPoint(c, p)) < SphereRadius * SphereRadius
  }

  /** The collision test holds exactly when some point of the box lies strictly inside the sphere. */
  lemma SphereBoxCollisionMeaning(c: Vec3, p: Vec3)
    ensures SphereBoxCollision(c, p) <==> exists b :: InBox(b, p) && Dist2(c, b) < SphereRadius * SphereRadius
  {
    ClosestPointIsNearest(c, p);
    if SphereBoxCollision(c, p) {
      assert InBox(ClosestPoint(c, p), p);
    }
  }

  /** A sphere touching a platform has its centre less than 6.5 above or below the platform's centre. */
  lemma CollisionIsNear(c: Vec3, p: Vec3)
    requires SphereBoxCollision(c, p)
    ensures p.y - BoxHalf.y - SphereRadius < c.y < p.y + BoxHalf.y + SphereRadius
  {
    var q := ClosestPoint(c, p);
    var dy := c.y - q.y;
    assert dy * dy <= Dist2(c, q) by {
      assert (c.x - q.x) * (c.x - q.x) >= 0.0;
      assert (c.z - q.z) * (c.z - q.z) >= 0.0;
    }
    if dy >= SphereRadius {
      SquareMonotone(SphereRadius, dy);
    } else if dy <= -SphereRadius {
      SquareMonotone(SphereRadius, -dy);
    }
  }

  /** `checkSpherePlaneCollision`: the lowest point of the sphere is at or below the ground. */
  function SpherePlaneCollision(c: Vec3): (r: bool)
    ensures r <==> c.y - SphereRadius <= GroundY
  {
    c.y - (GroundY + SphereRadius) <= 0.0
  }

  /** The ground test holds exactly when some point at or below the ground lies in the sphere or on it. */
  lemma SpherePlaneCollisionMeaning(c: Vec3)
    ensures SpherePlaneCollision(c) <==>
      exists q: Vec3 :: q.y <= GroundY && Dist2(c, q) <= SphereRadius * SphereRadius
  {
    if SpherePlaneCollision(c) {
      var q := Vec3(c.x, c.y - SphereRadius, c.z);
      assert Dist2(c, q) == (c.x - q.x) * (c.x - q.x) + (c.y - q.y) * (c.y - q.y) + (c.z - q.z) * (c.z - q.z);
      assert c.x - q.x == 0.0 && c.y - q.y == SphereRadius && c.z - q.z == 0.0;
    } else {
      forall q: Vec3 | q.y <= GroundY
        ensures Dist2(c, q) > SphereRadius * SphereRadius
      {
        var dy := c.y - q.y;
        SquareMonotone(SphereRadius, dy);
        assert dy * dy > SphereRadius * SphereRadius by {
          assert dy * dy - SphereRadius * SphereRadius == (dy - SphereRadius) * (dy + SphereRadius);
        }
        assert (c.x - q.x) * (c.x - q.x) >= 0.0;
        assert (c.z - q.z) * (c.z - q.z) >= 0.0;
        assert Dist2(c, q) == (c.x - q.x) * (c.x - q.x) + dy * dy + (c.z - q.z) * (c.z - q.z);
      }
    }
  }

  /**
   * The height of the highest platform in `ps` that collides with a sphere at `c`, scanning
   * in order and keeping a strictly higher one; `None` stands for the initial `-Infinity`.
   */
  function HighestHit(ps: seq<Vec3>, c: Vec3): (r: Option<real>)
    ensures forall i :: 0 <= i < |ps| && SphereBoxCollision(c, ps[i]) ==> r.Some? && ps[i].y <= r.value
  {
    if ps == [] then None
    else
      var h := HighestHit(ps[..|ps| - 1], c);
      var p := ps[|ps| - 1];
      if SphereBoxCollision(c, p) && (h.None? || p.y > h.value) then Some(p.y) else h
  }

  /**
   * The scan finds a platform exactly when one collides, and what it finds is the height
   * of a colliding platform that no other colliding platform exceeds.
   */
  lemma {:induction false} HighestHitIsMax(ps: seq<Vec3>, c: Vec3)
    ensures HighestHit(ps, c).None? <==> forall i :: 0 <= i < |ps| ==> !SphereBoxCollision(c, ps[i])
    ensures HighestHit(ps, c).Some? ==>
      exists i :: 0 <= i < |ps| && SphereBoxCollision(c, ps[i]) && ps[i].y == HighestHit(ps, c).value
    ensures HighestHit(ps, c).Some? ==>
      forall i :: 0 <= i < |ps| && SphereBoxCollision(c, ps[i]) ==> ps[i].y <= HighestHit(ps, c).value
  {
    if ps != [] {
      var n := |ps| - 1;
      var front := ps[..n];
      HighestHitIsMax(front, c);
      assert forall i :: 0 <= i < n ==> front[i] == ps[i];
      var h := HighestHit(front, c);
      if SphereBoxCollision(c, ps[n]) && (h.None? || ps[n].y > h.value) {
        assert HighestHit(ps, c) == Some(ps[n].y);
      } else {
        assert HighestHit(ps, c) == h;
        if h.Some? {
          var k :| 0 <= k < n && SphereBoxCollision(c, front[k]) && front[k].y == h.value;
          assert SphereBoxCollision(c, ps[k]) && ps[k].y == h.value;
        }
      }
    }
  }

  // ---------------------------------------------------------------------------
  // One frame of movement
  // ---------------------------------------------------------------------------

  /** The scalars `move()` keeps between frames, and the sphere's position. */
  datatype Body = Body(position: Vec3, momentum: Planar, jumpVelocity: real, grounded: bool)

  /**
   * The input of one frame: the jump key, the run key, and the unit (or zero) walking
   * direction already rotated by the camera's yaw.
   */
  datatype Input = Input(jump: bool, run: bool, direction: Planar)

  /** What holds of the body after every frame. */
  predicate ValidBody(b: Body) {
    && b.position.y >= RestHeight
    && (b.grounded ==> b.jumpVelocity == 0.0)
    && TerminalVelocity <= b.jumpVelocity <= JumpHeight + Gravity
  }

  /** Horizontal motion: momentum follows the input on the ground and is kept in the air. */
  function Steer(b: Body, input: Input): (r: Body)
    ensures r.position.y == b.position.y && r.jumpVelocity == b.jumpVelocity && r.grounded == b.grounded
    ensures r.position.x == b.position.x + r.momentum.x && r.position.z == b.position.z + r.momentum.z
    ensures !b.grounded ==> r.momentum == b.momentum
    ensures b.grounded ==>
      var s := if input.run then RunSpeed else WalkSpeed;
      r.momentum == Planar(input.direction.x * s, input.direction.z * s)
    ensures b.grounded && input.direction == Planar(0.0, 0.0) ==> r.momentum == Planar(0.0, 0.0)
  {
    var speed := if input.run then RunSpeed else WalkSpeed;
    var m := if b.grounded then Planar(input.direction.x * speed, input.direction.z * speed) else b.momentum;
    b.(momentum := m, position := Vec3(b.position.x + m.x, b.position.y, b.position.z + m.z))
  }

  /** On the ground a unit walking direction moves the sphere by 1 per frame, and by 2 running. */
  lemma GroundStepLength(b: Body, input: Input)
    requires b.grounded
    requires input.direction.x * input.direction.x + input.direction.z * input.direction.z == 1.0
    ensures var m := Steer(b, input).momentum;
      m.x * m.x + m.z * m.z == if input.run then 4.0 else 1.0
  {
    var d := input.direction;
    var s := if input.run then RunSpeed else WalkSpeed;
    var m := Steer(b, input).momentum;
    assert m.x * m.x + m.z * m.z == s * s * (d.x * d.x + d.z * d.z);
  }

  /** A jump starts only from the ground. */
  function Jump(b: Body, input: Input): (r: Body)
    ensures r.position == b.position && r.momentum == b.momentum
    ensures input.jump && b.grounded ==> !r.grounded && r.jumpVelocity == JumpHeight
    ensures !(input.jump && b.grounded) ==> r == b
  {
    if input.jump && b.grounded then b.(jumpVelocity := JumpHeight, grounded := false) else b
  }

  /** Gravity while airborne, with the fall speed capped. */
  function Fall(b: Body): (r: Body)
    ensures b.grounded ==> r == b
    ensures !b.grounded ==> r.jumpVelocity == Max(b.jumpVelocity + Gravity, TerminalVelocity)
    ensures r.jumpVelocity >= Min(b.jumpVelocity, TerminalVelocity)
    ensures r.position.y == b.position.y + (if b.grounded then 0.0 else r.jumpVelocity)
    ensures r.position.x == b.position.x && r.position.z == b.position.z && r.grounded == b.grounded
  {
    if b.grounded then b
    else
      var v := b.jumpVelocity + Gravity;
      var v' := if v < TerminalVelocity then TerminalVelocity else v;
      b.(jumpVelocity := v', position := b.position.(y := b.position.y + v'))
  }

  /** Landing: the highest colliding platform while falling, else the ground, else airborne. */
  function Settle(b: Body, ps: seq<Vec3>): (r: Body)
    ensures r.momentum == b.momentum && r.position.x == b.position.x && r.position.z == b.position.z
    ensures r.grounded ==> r.jumpVelocity == 0.0
    ensures !r.grounded ==> r == b.(grounded := false)
    ensures SpherePlaneCollision(b.position) ==> r.grounded
    ensures b.jumpVelocity < 0.0 && (exists i :: 0 <= i < |ps| && SphereBoxCollision(b.position, ps[i])) ==> r.grounded
    ensures !SpherePlaneCollision(b.position)
            && !(b.jumpVelocity < 0.0 && exists i :: 0 <= i < |ps| && SphereBoxCollision(b.position, ps[i]))
            ==> r == b.(grounded := false)
  {
    HighestHitIsMax(ps, b.position);
    var onGround := SpherePlaneCollision(b.position);
    var hit := if b.jumpVelocity < 0.0 then HighestHit(ps, b.position) else None;
    if hit.Some? then
      b.(position := b.position.(y := hit.value + BoxHalf.y + SphereRadius), jumpVelocity := 0.0, grounded := true)
    else if onGround then
      b.(position := b.position.(y := GroundY + SphereRadius), jumpVelocity := 0.0, grounded := true)
    else
      b.(grounded := false)
  }

  /** A sphere found below the ground is put back on it. */
  function ResetBelowGround(b: Body): (r: Body)
    ensures r.position.y >= RestHeight
    ensures b.position.y >= RestHeight ==> r == b
    ensures r.position.x == b.position.x && r.position.z == b.position.z && r.momentum == b.momentum
  {
    if b.position.y < GroundY + SphereRadius then
      b.(position := b.position.(y := GroundY + SphereRadius), jumpVelocity := 0.0, grounded := true)
    else b
  }

  /** The body where the collision checks of a frame are made. */
  function Airborne(b: Body, input: Input): Body {
    Fall(Jump(Steer(b, input), input))
  }

  /** The movement part of `move()`. */
  function Frame(b: Body, input: Input, ps: seq<Vec3>): (r: Body)
    ensures r.grounded ==> r.jumpVelocity == 0.0
    ensures r.position.y >= RestHeight
  {
    ResetBelowGround(Settle(Airborne(b, input), ps))
  }

  /** Every frame keeps the body valid: on the ground at rest, above the ground, and within the speed limits. */
  lemma FramePreservesValid(b: Body, input: Input, ps: seq<Vec3>)
    requires ValidBody(b)
    ensures ValidBody(Frame(b, input, ps))
  {
  }

  /** Momentum is replaced from the input only on the ground; in the air it is kept and applied again. */
  lemma MomentumInAir(b: Body, input: Input, ps: seq<Vec3>)
    requires !b.grounded
    ensures Frame(b, input, ps).momentum == b.momentum
    ensures Frame(b, input, ps).position.x == b.position.x + b.momentum.x
    ensures Frame(b, input, ps).position.z == b.position.z + b.momentum.z
  {
  }

  /**
   * A jump from a valid grounded state always leaves the ground: the frame ends airborne,
   * 7.6 higher, still rising at 7.6.
   */
  lemma JumpTakesOff(b: Body, input: Input, ps: seq<Vec3>)
    requires ValidBody(b) && b.grounded && input.jump
    ensures var r := Frame(b, input, ps);
      && !r.grounded
      && r.jumpVelocity == JumpHeight + Gravity
      && r.position.y == b.position.y + JumpHeight + Gravity
  {
  }

  /** Upward speed is gained only by jumping from the ground (landing resets it to zero). */
  lemma JumpOnlyFromGround(b: Body, input: Input, ps: seq<Vec3>)
    requires ValidBody(b)
    requires Frame(b, input, ps).jumpVelocity > b.jumpVelocity
    requires Frame(b, input, ps).jumpVelocity != 0.0
    ensures input.jump && b.grounded
  {
  }

  /** While airborne, the speed drops by 0.4 per frame and never goes below -4. */
  lemma GravityWhileAirborne(b: Body, input: Input)
    requires !b.grounded
    ensures Airborne(b, input).jumpVelocity == Max(b.jumpVelocity + Gravity, TerminalVelocity)
    ensures Airborne(b, input).position.y == b.position.y + Airborne(b, input).jumpVelocity
  {
  }

  /**
   * Falling into one or more platforms snaps the sphere onto the highest of them, ahead
   * of any contact with the ground.
   */
  lemma LandOnHighestPlatform(b: Body, input: Input, ps: seq<Vec3>)
    requires Airborne(b, input).jumpVelocity < 0.0
    requires exists i :: 0 <= i < |ps| && SphereBoxCollision(Airborne(b, input).position, ps[i])
    requires forall i :: 0 <= i < |ps| ==> ps[i].y >= 0.0
    ensures var a, r := Airborne(b, input), Frame(b, input, ps);
      && r.grounded && r.jumpVelocity == 0.0
      && (exists i :: 0 <= i < |ps| && SphereBoxCollision(a.position, ps[i])
                      && r.position.y == ps[i].y + BoxHalf.y + SphereRadius)
      && (forall i :: 0 <= i < |ps| && SphereBoxCollision(a.position, ps[i])
                      ==> ps[i].y + BoxHalf.y + SphereRadius <= r.position.y)
  {
    var a := Airborne(b, input);
    var h := HighestHit(ps, a.position);
    HighestHitIsMax(ps, a.position);
    assert h.Some?;
    var i :| 0 <= i < |ps| && SphereBoxCollision(a.position, ps[i]) && ps[i].y == h.value;
    assert Frame(b, input, ps).position.y == ps[i].y + BoxHalf.y + SphereRadius;
  }

  /** Without a platform to land on, reaching the ground puts the sphere at rest on it. */
  lemma LandOnGround(b: Body, input: Input, ps: seq<Vec3>)
    requires Airborne(b, input).jumpVelocity >= 0.0
          || forall i :: 0 <= i < |ps| ==> !SphereBoxCollision(Airborne(b, input).position, ps[i])
    requires SpherePlaneCollision(Airborne(b, input).position)
    ensures var r := Frame(b, input, ps);
      r.grounded && r.jumpVelocity == 0.0 && r.position.y == RestHeight
  {
    HighestHitIsMax(ps, Airborne(b, input).position);
  }

  /** With neither a platform nor the ground below, the frame ends airborne where gravity put it. */
  lemma StayAirborne(b: Body, input: Input, ps: seq<Vec3>)
    requires Airborne(b, input).jumpVelocity >= 0.0
          || forall i :: 0 <= i < |ps| ==> !SphereBoxCollision(Airborne(b, input).position, ps[i])
    requires !SpherePlaneCollision(Airborne(b, input).position)
    ensures Frame(b, input, ps) == Airborne(b, input).(grounded := false)
  {
    HighestHitIsMax(ps, Airborne(b, input).position);
  }

  /**
   * Resting on a platform is not stable: a grounded sphere above the ground that does not
   * jump checks no platform (its speed is zero, not negative) and ends the frame airborne.
   */
  lemma RestingOnPlatformFlickers(b: Body, input: Input, ps: seq<Vec3>)
    requires ValidBody(b) && b.grounded && !input.jump
    requires b.position.y > RestHeight
    ensures !Frame(b, input, ps).grounded
    ensures Frame(b, input, ps).position.y == b.position.y
  {
  }

  /**
   * The flicker repeats: a sphere resting still on a placed platform ends the next frame
   * airborne at the same height, and the frame after that falls 0.4 back into the platform
   * and lands on it again.
   */
  lemma RestingOnPlatformLandsAgain(b: Body, input: Input, ps: seq<Vec3>, k: nat)
    requires Placed(ps) && k < |ps|
    requires ValidBody(b) && b.grounded && !input.jump && input.direction == Planar(0.0, 0.0)
    requires b.position.y == ps[k].y + BoxHalf.y + SphereRadius
    requires InBox(Vec3(b.position.x, ps[k].y, b.position.z), ps[k])
    ensures !Frame(b, input, ps).grounded
    ensures Frame(Frame(b, input, ps), input, ps).grounded
  {
    var r1 := Frame(b, input, ps);
    assert r1 == b.(momentum := Planar(0.0, 0.0), grounded := false);
    var a := Airborne(r1, input);
    assert a.jumpVelocity == Gravity;
    assert a.position == Vec3(b.position.x, b.position.y + Gravity, b.position.z);
    assert ClosestPoint(a.position, ps[k]) == Vec3(b.position.x, ps[k].y + BoxHalf.y, b.position.z);
    assert SphereBoxCollision(a.position, ps[k]);
  }

  // ---------------------------------------------------------------------------
  // Camera pitch
  // ---------------------------------------------------------------------------

  /** `Math.max(-PI/2 + 0.5, Math.min(PI/2, pitch))` */
  function ClampPitch(pitch: real): (r: real)
    ensures PitchMin <= r <= PitchMax
    ensures PitchMin <= pitch <= PitchMax ==> r == pitch
    ensures pitch < PitchMin ==> r == PitchMin
    ensures pitch > PitchMax ==> r == PitchMax
  {
    Max(PitchMin, Min(PitchMax, pitch))
  }

  // ---------------------------------------------------------------------------
  // Platform placement
  // ---------------------------------------------------------------------------

  /** `((Math.random() * 2) - 1) * 100` for a draw `r` of `Math.random()`. */
  function Spread(r: real): (v: real)
    ensures 0.0 <= r < 1.0 ==> -PlacementRange <= v < PlacementRange
  {
    ((r * 2.0) - 1.0) * PlacementRange
  }

  /** Platform `i`, with `rz` and `rx` the two draws made for it (z first). */
  function PlatformAt(i: nat, rz: real, rx: real): Vec3 {
    Vec3(Spread(rx), (i as real) * PlatformSpacing, Spread(rz))
  }

  /** Ten platforms, 20 apart in height from 0, each centred within `[-100, 100)` in x and z. */
  predicate Placed(ps: seq<Vec3>) {
    && |ps| == PlatformCount
    && forall i :: 0 <= i < |ps| ==>
         && ps[i].y == (i as real) * PlatformSpacing
         && -PlacementRange <= ps[i].x < PlacementRange
         && -PlacementRange <= ps[i].z < PlacementRange
  }

  /** The draws of `Math.random()`, two per platform, each in `[0, 1)`. */
  predicate ValidDraws(randoms: seq<real>) {
    |randoms| == 2 * PlatformCount && forall i :: 0 <= i < |randoms| ==> 0.0 <= randoms[i] < 1.0
  }

  /** The platform-building loop, with the random draws given as input. */
  method PlacePlatforms(randoms: seq<real>) returns (platforms: seq<Vec3>)
    requires ValidDraws(randoms)
    ensures Placed(platforms)
    ensures forall i :: 0 <= i < PlatformCount ==> platforms[i] == PlatformAt(i, randoms[2 * i], randoms[2 * i + 1])
  {
    platforms := [];
    var i := 0;
    while i < PlatformCount
      invariant 0 <= i <= PlatformCount
      invariant |platforms| == i
      invariant forall k :: 0 <= k < i ==> platforms[k] == PlatformAt(k, randoms[2 * k], randoms[2 * k + 1])
      invariant forall k :: 0 <= k < i ==>
        && platforms[k].y == (k as real) * PlatformSpacing
        && -PlacementRange <= platforms[k].x < PlacementRange
        && -PlacementRange <= platforms[k].z < PlacementRange
    {
      var y := (i as real) * PlatformSpacing;
      var z := ((randoms[2 * i] * 2.0) - 1.0) * PlacementRange;
      var x := ((randoms[2 * i + 1] * 2.0) - 1.0) * PlacementRange;
      platforms := platforms + [Vec3(x, y, z)];
      i := i + 1;
    }
  }

  /**
   * Placed platforms are 20 apart in height and a colliding sphere is within 6.5 of a
   * platform's centre, so a sphere touches at most one of them.
   */
  lemma PlacedPlatformsHitAtMostOnce(ps: seq<Vec3>, c: Vec3, i: nat, j: nat)
    requires Placed(ps)
    requires i < j < |ps|
    ensures !(SphereBoxCollision(c, ps[i]) && SphereBoxCollision(c, ps[j]))
  {
    if SphereBoxCollision(c, ps[i]) && SphereBoxCollision(c, ps[j]) {
      CollisionIsNear(c, ps[i]);
      CollisionIsNear(c, ps[j]);
      assert false;
    }
  }

  /**
   * The `forEach` over the platforms in `move()`: while falling, the highest platform the
   * sphere collides with; `None` stands for the initial `-Infinity`.
   */
  method ScanPlatforms(ps: seq<Vec3>, position: Vec3, jumpVelocity: real)
    returns (landedOnPlatformThisFrame: bool, closestPlatformY: Option<real>)
    ensures closestPlatformY == if jumpVelocity < 0.0 then HighestHit(ps, position) else None
    ensures landedOnPlatformThisFrame <==> closestPlatformY.Some?
  {
    landedOnPlatformThisFrame := false;
    closestPlatformY := None;
    var i := 0;
    while i < |ps|
      invariant 0 <= i <= |ps|
      invariant closestPlatformY == if jumpVelocity < 0.0 then HighestHit(ps[..i], position) else None
      invariant landedOnPlatformThisFrame == closestPlatformY.Some?
    {
      var platform := ps[i];
      if SphereBoxCollision(position, platform) {
        if jumpVelocity < 0.0 {
          if closestPlatformY.None? || platform.y > closestPlatformY.value {
            closestPlatformY := Some(platform.y);
          }
          landedOnPlatformThisFrame := true;
        }
      }
      assert ps[..i + 1][..i] == ps[..i];
      i := i + 1;
    }
    assert ps[..i] == ps;
  }

  // ---------------------------------------------------------------------------
  // The game state
  // ---------------------------------------------------------------------------

  /** The module-level state of the game that the frame loop and the mouse handler update. */
  class Climber {
    var position: Vec3
    var momentum: Planar
    var jumpVelocity: real
    var grounded: bool
    var yaw: real
    var pitch: real
    const platforms: seq<Vec3>

    function State(): Body
      reads this
    {
      Body(position, momentum, jumpVelocity, grounded)
    }

    ghost predicate Valid()
      reads this
    {
      ValidBody(State()) && PitchMin <= pitch <= PitchMax && Placed(platforms)
    }

    /** The sphere starts at height 5, airborne and still; the platforms are placed from the draws. */
    constructor (randoms: seq<real>)
      requires ValidDraws(randoms)
      ensures Valid()
      ensures State() == Body(Vec3(0.0, 5.0, 0.0), Planar(0.0, 0.0), 0.0, false)
      ensures yaw == 0.0 && pitch == 0.0
      ensures forall i :: 0 <= i < PlatformCount ==> platforms[i] == PlatformAt(i, randoms[2 * i], randoms[2 * i + 1])
    {
      var ps := PlacePlatforms(randoms);
      platforms := ps;
      position := Vec3(0.0, 5.0, 0.0);
      momentum := Planar(0.0, 0.0);
      jumpVelocity := 0.0;
      grounded := false;
      yaw := 0.0;
      pitch := 0.0;
    }

    /** `move()` without the rolling rotation and the camera. */
    method Move(input: Input)
      requires Valid()
      modifies this`position, this`momentum, this`jumpVelocity, this`grounded
      ensures Valid()
      ensures State() == Frame(old(State()), input, platforms)
    {
      ghost var start := State();
      FramePreservesValid(start, input, platforms);

      var moveSpeed := if input.run then RunSpeed else WalkSpeed;
      if grounded {
        momentum := Planar(input.direction.x * moveSpeed, input.direction.z * moveSpeed);
      }
      position := Vec3(position.x + momentum.x, position.y, position.z + momentum.z);
      assert State() == Steer(start, input);

      if input.jump && grounded {
        jumpVelocity := JumpHeight;
        grounded := false;
      }
      assert State() == Jump(Steer(start, input), input);

      if !grounded {
        jumpVelocity := jumpVelocity + Gravity;
        if jumpVelocity < TerminalVelocity {
          jumpVelocity := TerminalVelocity;
        }
        position := position.(y := position.y + jumpVelocity);
      }
      ghost var airborne := State();
      assert airborne == Airborne(start, input);

      var onGround := SpherePlaneCollision(position);
      var landedOnPlatformThisFrame, closestPlatformY := ScanPlatforms(platforms, position, jumpVelocity);

      if landedOnPlatformThisFrame {
        position := position.(y := closestPlatformY.value + BoxHalf.y + SphereRadius);
        jumpVelocity := 0.0;
        grounded := true;
      } else if onGround {
        position := position.(y := GroundY + SphereRadius);
        jumpVelocity := 0.0;
        grounded := true;
      } else {
        grounded := false;
      }
      assert State() == Settle(airborne, platforms);

      if position.y < GroundY + SphereRadius {
        position := position.(y := GroundY + SphereRadius);
        jumpVelocity := 0.0;
        grounded := true;
      }
    }

    /** `onMouseMove`: turn by the mouse movement while the pointer is locked, keeping the pitch in range. */
    method OnMouseMove(pointerLocked: bool, movementX: real, movementY: real)
      requires Valid()
      modifies this`yaw, this`pitch
      ensures Valid()
      ensures pointerLocked ==> yaw == old(yaw) - movementX * Sensitivity
      ensures pointerLocked ==> pitch == ClampPitch(old(pitch) - movementY * Sensitivity)
      ensures !pointerLocked ==> yaw == old(yaw) && pitch == old(pitch)
    {
      if pointerLocked {
        yaw := yaw - movementX * Sensitivity;
        pitch := pitch - movementY * Sensitivity;
        pitch := ClampPitch(pitch);
      }
    }
  }
}
