/** The physics engine: per-tick friction and integration, reflection at the
    circular boundary, pairwise equal-mass collisions, pocket capture, and the
    trajectory predictor the assistant uses. */
module PhysicsEngine {
  import opened Geometry
  import opened GameTypes

  /** The engine's configuration: the per-tick friction factor and the restitution. */
  datatype Engine = Engine(friction: real, restitution: real)

  /** `new PhysicsEngine()`. */
  const DefaultEngine := Engine(0.98, 0.8)

  /** A body whose speed is at or below this settles. */
  const MinVelocity: real := 0.1

  /** Share of a body's radius allowed to stick out of a pocket at capture. */
  const CaptureMargin: real := 0.3

  /** The hypothetical body the trajectory predictor moves. */
  const PredictorStep: real := 16.67
  const PredictorRadius: real := 15.0
  const PredictorSteps: int := 100

  /** The striker record, updated in place by the engine and by the game. */
  class Striker {
    var position: Vec
    var velocity: Vec
    const radius: real
    var isActive: bool

    function AsBody(): Body
      reads this
    {
      Body(position, velocity, radius, isActive)
    }

    constructor (b: Body)
      ensures AsBody() == b
    {
      position := b.position;
      velocity := b.velocity;
      radius := b.radius;
      isActive := b.isActive;
    }

    /** Stores a state computed for this body; the radius never changes. */
    method Assign(b: Body)
      requires b.radius == radius
      modifies this
      ensures AsBody() == b
    {
      position, velocity, isActive := b.position, b.velocity, b.isActive;
    }
  }

  // ----- single-body rules -----

  function GetVelocityMagnitude(m: MathLib, v: Vec): real {
    m.sqrt(NormSq(v))
  }

  predicate IsMoving(m: MathLib, v: Vec) {
    GetVelocityMagnitude(m, v) > MinVelocity
  }

  /** "Moving" compares squared speed with the squared threshold. */
  lemma MovingIff(m: MathLib, v: Vec)
    requires Sound(m)
    ensures IsMoving(m, v) <==> MinVelocity * MinVelocity < NormSq(v)
  {
    NormSqNonNegative(v);
    RootAtMost(m.sqrt(NormSq(v)), NormSq(v), MinVelocity);
  }

  /** Friction on both velocity components, then one Euler step of the position. */
  function UpdateObject(e: Engine, b: Body, dt: real): Body {
    var v := Scale(b.velocity, e.friction);
    b.(velocity := v, position := Add(b.position, Scale(v, dt)))
  }

  lemma FrictionNeverSpeedsUp(e: Engine, b: Body, dt: real)
    requires 0.0 <= e.friction <= 1.0
    ensures NormSq(UpdateObject(e, b, dt).velocity) <= NormSq(b.velocity)
    ensures UpdateObject(e, b, dt).radius == b.radius && UpdateObject(e, b, dt).isActive == b.isActive
  {
    var n := NormSq(b.velocity);
    ScaleNormSq(b.velocity, e.friction);
    SquareMonotone(e.friction, 1.0);
    NormSqNonNegative(b.velocity);
    MulNonNegative(1.0 - e.friction * e.friction, n);
  }

  predicate HitsBoundary(m: MathLib, b: Body, board: Board) {
    Distance(m, b.position, board.outerBoundary.center) + b.radius > board.outerBoundary.radius
  }

  /** Clamp a body that reaches past the circular boundary back onto it and
      reflect its velocity about the boundary normal, scaled by restitution. */
  function CheckBoardCollisions(e: Engine, m: MathLib, b: Body, board: Board): Body {
    var center := board.outerBoundary.center;
    var boardRadius := board.outerBoundary.radius;
    var distFromCenter := Distance(m, b.position, center);
    if distFromCenter + b.radius > boardRadius then
      var normal := Direction(Sub(b.position, center), distFromCenter);
      var dotProduct := Dot(b.velocity, normal);
      b.(position := Add(center, Scale(normal, boardRadius - b.radius)),
         velocity := Scale(Sub(b.velocity, Scale(normal, 2.0 * dotProduct)), e.restitution))
    else
      b
  }

  /** Reflection about a unit normal keeps the speed. */
  lemma ReflectionKeepsSpeed(v: Vec, n: Vec)
    requires NormSq(n) == 1.0
    ensures NormSq(Sub(v, Scale(n, 2.0 * Dot(v, n)))) == NormSq(v)
  {
    var d := Dot(v, n);
    var k := 2.0 * d;
    calc {
      NormSq(Sub(v, Scale(n, k)));
      (v.x - n.x * k) * (v.x - n.x * k) + (v.y - n.y * k) * (v.y - n.y * k);
      (v.x * v.x + v.y * v.y) - 2.0 * k * (v.x * n.x + v.y * n.y) + k * k * (n.x * n.x + n.y * n.y);
      NormSq(v) - 2.0 * k * d + k * k * NormSq(n);
      NormSq(v) - 2.0 * k * d + k * k;
      NormSq(v);
    }
  }

  /** After the boundary rule a body's centre is no farther from the board
      centre than the boundary radius minus the body radius; a body that hit
      the boundary sits exactly there and keeps its speed times restitution. */
  lemma BoundaryKeepsInside(e: Engine, m: MathLib, b: Body, board: Board)
    requires Sound(m)
    ensures var r := CheckBoardCollisions(e, m, b, board);
      var c := board.outerBoundary.center;
      var reach := board.outerBoundary.radius - b.radius;
      && r.radius == b.radius && r.isActive == b.isActive
      && DistSq(r.position, c) <= reach * reach
      && (!HitsBoundary(m, b, board) ==> r == b)
      && (HitsBoundary(m, b, board) ==>
            NormSq(r.velocity) == e.restitution * e.restitution * NormSq(b.velocity))
      && (HitsBoundary(m, b, board) && 0.0 <= reach ==> DistSq(r.position, c) == reach * reach)
  {
    if HitsBoundary(m, b, board) {
      BoundaryHit(e, m, b, board);
    } else {
      var dsq := DistSq(b.position, board.outerBoundary.center);
      NormSqNonNegative(Sub(b.position, board.outerBoundary.center));
      SqrtOf(m, dsq);
      RootAtMost(m.sqrt(dsq), dsq, board.outerBoundary.radius - b.radius);
    }
  }

  /** The hit case of `BoundaryKeepsInside`. */
  lemma BoundaryHit(e: Engine, m: MathLib, b: Body, board: Board)
    requires Sound(m) && HitsBoundary(m, b, board)
    ensures var r := CheckBoardCollisions(e, m, b, board);
      var c := board.outerBoundary.center;
      var reach := board.outerBoundary.radius - b.radius;
      && NormSq(r.velocity) == e.restitution * e.restitution * NormSq(b.velocity)
      && DistSq(r.position, c) <= reach * reach
      && (0.0 <= reach ==> DistSq(r.position, c) == reach * reach)
  {
    var c := board.outerBoundary.center;
    var delta := Sub(b.position, c);
    NormSqNonNegative(delta);
    SqrtOf(m, NormSq(delta));
    var d := m.sqrt(NormSq(delta));
    BoundaryVelocity(b.velocity, delta, d, e.restitution);
    BoundaryPosition(c, delta, d, board.outerBoundary.radius - b.radius);
  }

  /** Reflecting about the direction of delta and scaling by k multiplies
      the squared speed by k^2. */
  lemma BoundaryVelocity(v: Vec, delta: Vec, d: real, k: real)
    requires 0.0 <= d && d * d == NormSq(delta)
    ensures var n := Direction(delta, d);
      NormSq(Scale(Sub(v, Scale(n, 2.0 * Dot(v, n))), k)) == k * k * NormSq(v)
  {
    var n := Direction(delta, d);
    var reflected := Sub(v, Scale(n, 2.0 * Dot(v, n)));
    ScaleNormSq(reflected, k);
    if d == 0.0 {
      assert reflected == v;
    } else {
      DirectionIsUnit(delta, d);
      ReflectionKeepsSpeed(v, n);
    }
  }

  /** Clamping onto the circle of radius reach along the direction of delta,
      for a centre farther out than reach. */
  lemma BoundaryPosition(c: Vec, delta: Vec, d: real, reach: real)
    requires 0.0 <= d && d * d == NormSq(delta) && reach < d
    ensures var p := Add(c, Scale(Direction(delta, d), reach));
      && DistSq(p, c) <= reach * reach
      && (0.0 <= reach ==> DistSq(p, c) == reach * reach)
  {
    var n := Direction(delta, d);
    OffsetDistSq(c, n, reach);
    if d == 0.0 {
      assert n == Zero;
      MulPositive(-reach, -reach);
    } else {
      DirectionIsUnit(delta, d);
    }
  }

  /** A point k units along n from c is k^2 |n|^2 away from c, squared. */
  lemma OffsetDistSq(c: Vec, n: Vec, k: real)
    ensures DistSq(Add(c, Scale(n, k)), c) == k * k * NormSq(n)
  {
    assert Sub(Add(c, Scale(n, k)), c) == Scale(n, k);
    ScaleNormSq(n, k);
  }

  // ----- two-body collisions -----

  datatype Collision = Collision(occurred: bool, point: Vec, normal: Vec, penetration: real)

  const NoCollision := Collision(false, Zero, Zero, 0.0)

  function DetectCollision(m: MathLib, b1: Body, b2: Body): Collision {
    var delta := Sub(b2.position, b1.position);
    var distance := m.sqrt(NormSq(delta));
    var minDistance := b1.radius + b2.radius;
    if distance < minDistance then
      var normal := Direction(delta, distance);
      Collision(true, Add(b1.position, Scale(normal, b1.radius)), normal, minDistance - distance)
    else
      NoCollision
  }

  /** Two bodies collide exactly when their centres are closer than the sum of
      their radii; the penetration is then positive and at most that sum, and
      the normal is a unit vector unless the centres coincide. */
  lemma DetectCollisionIff(m: MathLib, b1: Body, b2: Body)
    requires Sound(m)
    ensures var c := DetectCollision(m, b1, b2);
      var reach := b1.radius + b2.radius;
      var dsq := DistSq(b2.position, b1.position);
      && (c.occurred <==> 0.0 < reach && dsq < reach * reach)
      && (c.occurred ==> 0.0 < c.penetration <= reach)
      && (c.occurred ==> c.penetration == reach - m.sqrt(dsq))
      && (c.occurred && 0.0 < dsq ==> NormSq(c.normal) == 1.0)
      && (!c.occurred ==> c == NoCollision)
  {
    var delta := Sub(b2.position, b1.position);
    NormSqNonNegative(delta);
    var d := m.sqrt(NormSq(delta));
    SqrtOf(m, NormSq(delta));
    RootBelow(d, NormSq(delta), b1.radius + b2.radius);
    if 0.0 < NormSq(delta) && d < b1.radius + b2.radius {
      assert d != 0.0;
      DirectionIsUnit(delta, d);
    }
  }

  /** Push the bodies apart along the normal by half the penetration each and,
      unless they already separate, exchange an equal-mass impulse. */
  function ResolveCollision(e: Engine, b1: Body, b2: Body, c: Collision): (r: (Body, Body))
    ensures r.0.radius == b1.radius && r.1.radius == b2.radius
    ensures Add(r.0.position, r.1.position) == Add(b1.position, b2.position)
    ensures Sub(r.1.position, r.0.position) == Add(Sub(b2.position, b1.position), Scale(c.normal, c.penetration))
    ensures Dot(Sub(b2.velocity, b1.velocity), c.normal) > 0.0 ==>
      && r.0.velocity == b1.velocity && r.1.velocity == b2.velocity
      && r.0.isActive == b1.isActive && r.1.isActive == b2.isActive
    ensures Dot(Sub(b2.velocity, b1.velocity), c.normal) <= 0.0 ==>
      && Add(r.0.velocity, r.1.velocity) == Add(b1.velocity, b2.velocity)
      && r.0.isActive && r.1.isActive
  {
    var separation := Scale(c.normal, c.penetration * 0.5);
    var p1 := Sub(b1.position, separation);
    var p2 := Add(b2.position, separation);
    SplitApart(b1.position, b2.position, c.normal, c.penetration);
    var velocityAlongNormal := Dot(Sub(b2.velocity, b1.velocity), c.normal);
    if velocityAlongNormal > 0.0 then
      (b1.(position := p1), b2.(position := p2))
    else
      var impulse := -(1.0 + e.restitution) * velocityAlongNormal / 2.0;
      var j := Scale(c.normal, impulse);
      (Body(p1, Sub(b1.velocity, j), b1.radius, true), Body(p2, Add(b2.velocity, j), b2.radius, true))
  }

  /** Moving two points half a penetration apart each along n widens
      their separation by the whole penetration and keeps their sum. */
  lemma SplitApart(a: Vec, b: Vec, n: Vec, p: real)
    ensures var s := Scale(n, p * 0.5);
      && Sub(Add(b, s), Sub(a, s)) == Add(Sub(b, a), Scale(n, p))
      && Add(Sub(a, s), Add(b, s)) == Add(a, b)
  {
    assert n.x * (p * 0.5) + n.x * (p * 0.5) == n.x * p;
    assert n.y * (p * 0.5) + n.y * (p * 0.5) == n.y * p;
  }

  /** With a unit normal, an approaching pair leaves with its normal relative
      velocity reversed and scaled by restitution. */
  lemma ImpulseObeysRestitution(e: Engine, b1: Body, b2: Body, c: Collision)
    requires NormSq(c.normal) == 1.0
    requires Dot(Sub(b2.velocity, b1.velocity), c.normal) <= 0.0
    ensures var r := ResolveCollision(e, b1, b2, c);
      Dot(Sub(r.1.velocity, r.0.velocity), c.normal)
        == -e.restitution * Dot(Sub(b2.velocity, b1.velocity), c.normal)
  {
    var n := c.normal;
    var vn := Dot(Sub(b2.velocity, b1.velocity), n);
    var impulse := -(1.0 + e.restitution) * vn / 2.0;
    var r := ResolveCollision(e, b1, b2, c);
    assert Sub(r.1.velocity, r.0.velocity) == Add(Sub(b2.velocity, b1.velocity), Scale(n, 2.0 * impulse));
    calc {
      Dot(Add(Sub(b2.velocity, b1.velocity), Scale(n, 2.0 * impulse)), n);
      vn + 2.0 * impulse * (n.x * n.x + n.y * n.y);
      vn + 2.0 * impulse;
      -e.restitution * vn;
    }
  }

  /** A moving body striking a resting one head-on along x keeps (1-e)/2 of
      its velocity and passes (1+e)/2 of it on. */
  lemma HeadOnTransfer(e: Engine, v: real, p1: Vec, p2: Vec, radius: real, penetration: real)
    requires 0.0 <= v
    ensures var c := Collision(true, p1, Vec(1.0, 0.0), penetration);
      var r := ResolveCollision(e, Body(p1, Vec(v, 0.0), radius, true), Body(p2, Zero, radius, false), c);
      && r.0.velocity == Vec(v * (1.0 - e.restitution) / 2.0, 0.0)
      && r.1.velocity == Vec(v * (1.0 + e.restitution) / 2.0, 0.0)
      && r.1.isActive
  {
  }

  // ----- pockets -----

  /** A body is captured when its centre lies within the pocket radius less
      0.3 of its own radius. */
  predicate IsInPocket(m: MathLib, position: Vec, radius: real, pocket: Pocket) {
    Distance(m, position, pocket.position) <= pocket.radius - radius * CaptureMargin
  }

  lemma IsInPocketIff(m: MathLib, position: Vec, radius: real, pocket: Pocket)
    requires Sound(m)
    ensures var reach := pocket.radius - radius * CaptureMargin;
      IsInPocket(m, position, radius, pocket) <==>
        0.0 <= reach && DistSq(position, pocket.position) <= reach * reach
  {
    var dsq := DistSq(position, pocket.position);
    NormSqNonNegative(Sub(position, pocket.position));
    SqrtOf(m, dsq);
    RootAtMost(m.sqrt(dsq), dsq, pocket.radius - radius * CaptureMargin);
  }

  // ----- the tick as a function of the bodies -----

  /** The striker's integration rule. */
  function StepStriker(e: Engine, m: MathLib, b: Body, board: Board, dt: real): Body {
    if b.isActive && IsMoving(m, b.velocity) then
      CheckBoardCollisions(e, m, UpdateObject(e, b, dt), board)
    else if b.isActive then
      b.(velocity := Zero, isActive := false)
    else
      b
  }

  /** A piece's integration rule; pocketed pieces are never integrated. */
  function StepPiece(e: Engine, m: MathLib, p: Piece, board: Board, dt: real): Piece {
    if p.body.isActive && !p.isPocketed && IsMoving(m, p.body.velocity) then
      p.(body := CheckBoardCollisions(e, m, UpdateObject(e, p.body, dt), board))
    else if p.body.isActive then
      p.(body := p.body.(velocity := Zero, isActive := false))
    else
      p
  }

  function StepPieces(e: Engine, m: MathLib, ps: seq<Piece>, board: Board, dt: real): (r: seq<Piece>)
    ensures |r| == |ps|
  {
    seq(|ps|, k requires 0 <= k < |ps| => StepPiece(e, m, ps[k], board, dt))
  }

  /** Pieces keep their identity, colour, radius and pocketed flag, and
      pocketed pieces are left exactly as they were. */
  ghost predicate SameRoster(ps: seq<Piece>, qs: seq<Piece>) {
    && |qs| == |ps|
    && forall k :: 0 <= k < |ps| ==>
         && qs[k].id == ps[k].id
         && qs[k].color == ps[k].color
         && qs[k].body.radius == ps[k].body.radius
         && qs[k].isPocketed == ps[k].isPocketed
         && (ps[k].isPocketed ==> qs[k] == ps[k])
  }

  /** The striker against piece i, if that piece is on the board. */
  function StrikerPieceStep(e: Engine, m: MathLib, s: Body, ps: seq<Piece>, i: nat): (r: (Body, seq<Piece>))
    requires i < |ps|
    ensures SameRoster(ps, r.1) && r.0.radius == s.radius
  {
    if ps[i].isPocketed then (s, ps)
    else
      var c := DetectCollision(m, s, ps[i].body);
      if !c.occurred then (s, ps)
      else
        var resolved := ResolveCollision(e, s, ps[i].body, c);
        (resolved.0, ps[i := ps[i].(body := resolved.1)])
  }

  /** The striker against pieces i, i+1, ... in order. */
  function StrikerSweep(e: Engine, m: MathLib, s: Body, ps: seq<Piece>, i: nat): (Body, seq<Piece>)
    decreases |ps| - i
  {
    if i >= |ps| then (s, ps)
    else
      var next := StrikerPieceStep(e, m, s, ps, i);
      StrikerSweep(e, m, next.0, next.1, i + 1)
  }

  /** Pieces i and j against each other, if both are on the board. */
  function PairStep(e: Engine, m: MathLib, ps: seq<Piece>, i: nat, j: nat): (r: seq<Piece>)
    requires i < j < |ps|
    ensures SameRoster(ps, r)
  {
    if ps[i].isPocketed || ps[j].isPocketed then ps
    else
      var c := DetectCollision(m, ps[i].body, ps[j].body);
      if !c.occurred then ps
      else
        var resolved := ResolveCollision(e, ps[i].body, ps[j].body, c);
        ps[i := ps[i].(body := resolved.0)][j := ps[j].(body := resolved.1)]
  }

  /** The pairs (i, j), (i, j+1), ..., then (i+1, i+2), ... in ascending order. */
  function PairSweep(e: Engine, m: MathLib, ps: seq<Piece>, i: nat, j: nat): seq<Piece>
    requires i < j
    decreases |ps| - i, |ps| - j
  {
    if i >= |ps| then ps
    else if j >= |ps| then PairSweep(e, m, ps, i + 1, i + 2)
    else PairSweep(e, m, PairStep(e, m, ps, i, j), i, j + 1)
  }

  /** Striker against every piece (only when the striker is active), then every piece pair. */
  function CollisionPass(e: Engine, m: MathLib, s: Body, ps: seq<Piece>): (Body, seq<Piece>) {
    var swept := if s.isActive then StrikerSweep(e, m, s, ps, 0) else (s, ps);
    (swept.0, PairSweep(e, m, swept.1, 0, 1))
  }

  function CaptureStrikerAt(m: MathLib, s: Body, pocket: Pocket): Body {
    if s.isActive && IsInPocket(m, s.position, s.radius, pocket) then
      s.(isActive := false, velocity := Zero)
    else
      s
  }

  /** The striker checked against the pockets in order. */
  function CaptureStriker(m: MathLib, s: Body, pockets: seq<Pocket>): Body
    decreases |pockets|
  {
    if |pockets| == 0 then s
    else CaptureStrikerAt(m, CaptureStriker(m, s, pockets[..|pockets| - 1]), pockets[|pockets| - 1])
  }

  function CapturePieceAt(m: MathLib, p: Piece, pocket: Pocket): Piece {
    if !p.isPocketed && IsInPocket(m, p.body.position, p.body.radius, pocket) then
      p.(isPocketed := true, body := p.body.(isActive := false, velocity := Zero))
    else
      p
  }

  /** A piece checked against the pockets in order. */
  function CapturePiece(m: MathLib, p: Piece, pockets: seq<Pocket>): Piece
    decreases |pockets|
  {
    if |pockets| == 0 then p
    else CapturePieceAt(m, CapturePiece(m, p, pockets[..|pockets| - 1]), pockets[|pockets| - 1])
  }

  function CapturePieces(m: MathLib, ps: seq<Piece>, pockets: seq<Pocket>): (r: seq<Piece>)
    ensures |r| == |ps|
  {
    seq(|ps|, k requires 0 <= k < |ps| => CapturePiece(m, ps[k], pockets))
  }

  /** One tick: integrate the striker, integrate the pieces, resolve collisions, capture. */
  function Tick(e: Engine, m: MathLib, s: Body, ps: seq<Piece>, board: Board, dt: real): (Body, seq<Piece>) {
    var collided := CollisionPass(e, m, StepStriker(e, m, s, board, dt), StepPieces(e, m, ps, board, dt));
    (CaptureStriker(m, collided.0, board.pockets), CapturePieces(m, collided.1, board.pockets))
  }

  // ----- properties of the tick -----

  /** Settling, and what integration does to a moving striker. */
  lemma StepStrikerFacts(e: Engine, m: MathLib, b: Body, board: Board, dt: real)
    requires Sound(m)
    ensures var r := StepStriker(e, m, b, board, dt);
      var reach := board.outerBoundary.radius - b.radius;
      && r.radius == b.radius
      && (!b.isActive ==> r == b)
      && (b.isActive && !IsMoving(m, b.velocity) ==>
            r.velocity == Zero && !r.isActive && r.position == b.position)
      && (b.isActive && IsMoving(m, b.velocity) ==>
            && r.isActive
            && DistSq(r.position, board.outerBoundary.center) <= reach * reach
            && (0.0 <= e.friction <= 1.0 && 0.0 <= e.restitution <= 1.0 ==>
                  NormSq(r.velocity) <= NormSq(b.velocity)))
  {
    if b.isActive && IsMoving(m, b.velocity) {
      MovingBodySlows(e, m, b, board, dt);
    }
  }

  /** One integration step of a moving body ends inside the board and, with
      friction and restitution in [0, 1], no faster than it started. */
  lemma MovingBodySlows(e: Engine, m: MathLib, b: Body, board: Board, dt: real)
    requires Sound(m)
    ensures var r := CheckBoardCollisions(e, m, UpdateObject(e, b, dt), board);
      var reach := board.outerBoundary.radius - b.radius;
      && r.radius == b.radius && r.isActive == b.isActive
      && DistSq(r.position, board.outerBoundary.center) <= reach * reach
      && (0.0 <= e.friction <= 1.0 && 0.0 <= e.restitution <= 1.0 ==>
            NormSq(r.velocity) <= NormSq(b.velocity))
  {
    var u := UpdateObject(e, b, dt);
    BoundaryKeepsInside(e, m, u, board);
    if 0.0 <= e.friction <= 1.0 && 0.0 <= e.restitution <= 1.0 {
      FrictionNeverSpeedsUp(e, b, dt);
      var r := CheckBoardCollisions(e, m, u, board);
      if HitsBoundary(m, u, board) {
        SquareMonotone(e.restitution, 1.0);
        NormSqNonNegative(u.velocity);
        MulNonNegative(1.0 - e.restitution * e.restitution, NormSq(u.velocity));
      }
    }
  }

  lemma StepPieceFacts(e: Engine, m: MathLib, p: Piece, board: Board, dt: real)
    requires Sound(m)
    ensures var r := StepPiece(e, m, p, board, dt);
      var reach := board.outerBoundary.radius - p.body.radius;
      && r.id == p.id && r.color == p.color && r.isPocketed == p.isPocketed
      && r.body.radius == p.body.radius
      && (!p.body.isActive ==> r == p)
      && (p.body.isActive && (p.isPocketed || !IsMoving(m, p.body.velocity)) ==>
            r.body.velocity == Zero && !r.body.isActive && r.body.position == p.body.position)
      && (p.body.isActive && !p.isPocketed && IsMoving(m, p.body.velocity) ==>
            && r.body.isActive
            && DistSq(r.body.position, board.outerBoundary.center) <= reach * reach
            && (0.0 <= e.friction <= 1.0 && 0.0 <= e.restitution <= 1.0 ==>
                  NormSq(r.body.velocity) <= NormSq(p.body.velocity)))
  {
    if p.body.isActive && !p.isPocketed && IsMoving(m, p.body.velocity) {
      MovingBodySlows(e, m, p.body, board, dt);
    }
  }

  lemma SameRosterTransitive(ps: seq<Piece>, qs: seq<Piece>, rs: seq<Piece>)
    requires SameRoster(ps, qs) && SameRoster(qs, rs)
    ensures SameRoster(ps, rs)
  {
  }

  lemma {:induction false} StrikerSweepKeepsRoster(e: Engine, m: MathLib, s: Body, ps: seq<Piece>, i: nat)
    ensures SameRoster(ps, StrikerSweep(e, m, s, ps, i).1)
    ensures StrikerSweep(e, m, s, ps, i).0.radius == s.radius
    decreases |ps| - i
  {
    if i < |ps| {
      var next := StrikerPieceStep(e, m, s, ps, i);
      StrikerSweepKeepsRoster(e, m, next.0, next.1, i + 1);
      SameRosterTransitive(ps, next.1, StrikerSweep(e, m, next.0, next.1, i + 1).1);
    }
  }

  lemma {:induction false} PairSweepKeepsRoster(e: Engine, m: MathLib, ps: seq<Piece>, i: nat, j: nat)
    requires i < j
    ensures SameRoster(ps, PairSweep(e, m, ps, i, j))
    decreases |ps| - i, |ps| - j
  {
    if i >= |ps| {
    } else if j >= |ps| {
      PairSweepKeepsRoster(e, m, ps, i + 1, i + 2);
    } else {
      var next := PairStep(e, m, ps, i, j);
      PairSweepKeepsRoster(e, m, next, i, j + 1);
      SameRosterTransitive(ps, next, PairSweep(e, m, next, i, j + 1));
    }
  }

  /** Collisions never touch a pocketed piece or any piece's identity, and an
      inactive striker takes no part in them. */
  lemma CollisionPassKeepsRoster(e: Engine, m: MathLib, s: Body, ps: seq<Piece>)
    ensures var r := CollisionPass(e, m, s, ps);
      && SameRoster(ps, r.1)
      && r.0.radius == s.radius
      && (!s.isActive ==> r.0 == s)
  {
    var swept := if s.isActive then StrikerSweep(e, m, s, ps, 0) else (s, ps);
    if s.isActive {
      StrikerSweepKeepsRoster(e, m, s, ps, 0);
    }
    PairSweepKeepsRoster(e, m, swept.1, 0, 1);
    SameRosterTransitive(ps, swept.1, PairSweep(e, m, swept.1, 0, 1));
  }

  /** Capture keeps a piece where it is; it pockets the piece exactly when the
      piece was pocketed already or some pocket holds its centre, and a newly
      pocketed piece is stopped. */
  lemma {:induction false} CapturePieceFacts(m: MathLib, p: Piece, pockets: seq<Pocket>)
    ensures var q := CapturePiece(m, p, pockets);
      && q.id == p.id && q.color == p.color
      && q.body.position == p.body.position && q.body.radius == p.body.radius
      && (p.isPocketed ==> q == p)
      && (q.isPocketed <==>
            p.isPocketed || exists k :: 0 <= k < |pockets| && IsInPocket(m, p.body.position, p.body.radius, pockets[k]))
      && (q.isPocketed && !p.isPocketed ==> !q.body.isActive && q.body.velocity == Zero)
      && (!q.isPocketed ==> q == p)
    decreases |pockets|
  {
    if |pockets| > 0 {
      var init := pockets[..|pockets| - 1];
      var last := pockets[|pockets| - 1];
      CapturePieceFacts(m, p, init);
      var q0 := CapturePiece(m, p, init);
      var held := exists k :: 0 <= k < |pockets| && IsInPocket(m, p.body.position, p.body.radius, pockets[k]);
      var heldBefore := exists k :: 0 <= k < |init| && IsInPocket(m, p.body.position, p.body.radius, init[k]);
      if heldBefore {
        var k :| 0 <= k < |init| && IsInPocket(m, p.body.position, p.body.radius, init[k]);
        assert pockets[k] == init[k];
      }
      if held && !heldBefore {
        var k :| 0 <= k < |pockets| && IsInPocket(m, p.body.position, p.body.radius, pockets[k]);
        assert k == |pockets| - 1 by {
          assert forall j :: 0 <= j < |init| ==> init[j] == pockets[j];
        }
      }
      if IsInPocket(m, p.body.position, p.body.radius, last) {
        assert pockets[|pockets| - 1] == last;
      }
    }
  }

  /** Capture stops an active striker held by some pocket and never moves it. */
  lemma {:induction false} CaptureStrikerFacts(m: MathLib, s: Body, pockets: seq<Pocket>)
    ensures var r := CaptureStriker(m, s, pockets);
      && r.position == s.position && r.radius == s.radius
      && (!s.isActive ==> r == s)
      && (r.isActive <==>
            s.isActive && forall k :: 0 <= k < |pockets| ==> !IsInPocket(m, s.position, s.radius, pockets[k]))
      && (r.isActive ==> r == s)
      && (s.isActive && !r.isActive ==> r.velocity == Zero)
    decreases |pockets|
  {
    if |pockets| > 0 {
      var init := pockets[..|pockets| - 1];
      CaptureStrikerFacts(m, s, init);
      var r0 := CaptureStriker(m, s, init);
      if r0.isActive && !IsInPocket(m, s.position, s.radius, pockets[|pockets| - 1]) {
        forall k | 0 <= k < |pockets|
          ensures !IsInPocket(m, s.position, s.radius, pockets[k])
        {
          if k < |init| {
            assert init[k] == pockets[k];
          }
        }
      }
      if !r0.isActive && s.isActive {
        var k :| 0 <= k < |init| && IsInPocket(m, s.position, s.radius, init[k]);
        assert pockets[k] == init[k];
      }
    }
  }

  ghost predicate PocketedAtRest(ps: seq<Piece>) {
    forall k :: 0 <= k < |ps| && ps[k].isPocketed ==> !ps[k].body.isActive && ps[k].body.velocity == Zero
  }

  /** Across a tick pieces keep their identity, colour and radius; pocketing
      is one-way; a pocketed piece that is not active is left exactly as it
      was; and pocketed pieces stay at rest. */
  lemma TickKeepsPocketedPieces(e: Engine, m: MathLib, s: Body, ps: seq<Piece>, board: Board, dt: real)
    requires Sound(m)
    ensures var r := Tick(e, m, s, ps, board, dt);
      && |r.1| == |ps|
      && r.0.radius == s.radius
      && (forall k :: 0 <= k < |ps| ==>
            && r.1[k].id == ps[k].id && r.1[k].color == ps[k].color
            && r.1[k].body.radius == ps[k].body.radius
            && (ps[k].isPocketed ==> r.1[k].isPocketed)
            && (ps[k].isPocketed && !ps[k].body.isActive ==> r.1[k] == ps[k]))
      && (PocketedAtRest(ps) ==> PocketedAtRest(r.1))
  {
    var s1 := StepStriker(e, m, s, board, dt);
    var ps1 := StepPieces(e, m, ps, board, dt);
    var collided := CollisionPass(e, m, s1, ps1);
    var r := Tick(e, m, s, ps, board, dt);
    StepStrikerFacts(e, m, s, board, dt);
    CollisionPassKeepsRoster(e, m, s1, ps1);
    CaptureStrikerFacts(m, collided.0, board.pockets);
    forall k | 0 <= k < |ps|
      ensures && r.1[k].id == ps[k].id && r.1[k].color == ps[k].color
              && r.1[k].body.radius == ps[k].body.radius
              && (ps[k].isPocketed ==> r.1[k].isPocketed)
              && (ps[k].isPocketed && !ps[k].body.isActive ==> r.1[k] == ps[k])
              && (r.1[k].isPocketed && (ps[k].isPocketed ==> !ps[k].body.isActive && ps[k].body.velocity == Zero) ==>
                    !r.1[k].body.isActive && r.1[k].body.velocity == Zero)
    {
      StepPieceFacts(e, m, ps[k], board, dt);
      CapturePieceFacts(m, collided.1[k], board.pockets);
    }
  }

  // ----- the tick, in place -----

  /** physics-engine.ts updatePhysics: bodies change in place, in the order
      integration, collisions, capture. */
  method UpdatePhysics(e: Engine, m: MathLib, pieces: array<Piece>, striker: Striker, board: Board, dt: real)
    modifies pieces, striker
    ensures (striker.AsBody(), pieces[..]) == Tick(e, m, old(striker.AsBody()), old(pieces[..]), board, dt)
  {
    if striker.isActive && GetVelocityMagnitude(m, striker.velocity) > MinVelocity {
      striker.Assign(CheckBoardCollisions(e, m, UpdateObject(e, striker.AsBody(), dt), board));
    } else if striker.isActive {
      striker.velocity := Zero;
      striker.isActive := false;
    }
    ghost var s1 := striker.AsBody();
    assert s1 == StepStriker(e, m, old(striker.AsBody()), board, dt);

    var i := 0;
    while i < pieces.Length
      invariant 0 <= i <= pieces.Length
      invariant forall k :: 0 <= k < i ==> pieces[k] == StepPiece(e, m, old(pieces[k]), board, dt)
      invariant forall k :: i <= k < pieces.Length ==> pieces[k] == old(pieces[k])
      modifies pieces
    {
      var piece := pieces[i];
      if piece.body.isActive && !piece.isPocketed && GetVelocityMagnitude(m, piece.body.velocity) > MinVelocity {
        pieces[i] := piece.(body := CheckBoardCollisions(e, m, UpdateObject(e, piece.body, dt), board));
      } else if piece.body.isActive {
        pieces[i] := piece.(body := piece.body.(velocity := Zero, isActive := false));
      }
      i := i + 1;
    }
    ghost var ps1 := pieces[..];
    assert ps1 == StepPieces(e, m, old(pieces[..]), board, dt);

    CheckCollisions(e, m, pieces, striker);
    ghost var collided := (striker.AsBody(), pieces[..]);
    assert collided == CollisionPass(e, m, s1, ps1);

    CheckPocketCollisions(m, pieces, striker, board.pockets);
  }

  /** physics-engine.ts checkCollisions. */
  method CheckCollisions(e: Engine, m: MathLib, pieces: array<Piece>, striker: Striker)
    modifies pieces, striker
    ensures (striker.AsBody(), pieces[..]) == CollisionPass(e, m, old(striker.AsBody()), old(pieces[..]))
  {
    if striker.isActive {
      SweepStriker(e, m, pieces, striker);
    }
    SweepPairs(e, m, pieces);
  }

  /** The striker loop of checkCollisions. */
  method SweepStriker(e: Engine, m: MathLib, pieces: array<Piece>, striker: Striker)
    modifies pieces, striker
    ensures (striker.AsBody(), pieces[..]) == StrikerSweep(e, m, old(striker.AsBody()), old(pieces[..]), 0)
  {
    var i := 0;
    while i < pieces.Length
      invariant 0 <= i <= pieces.Length
      invariant StrikerSweep(e, m, striker.AsBody(), pieces[..], i)
             == StrikerSweep(e, m, old(striker.AsBody()), old(pieces[..]), 0)
    {
      ghost var before := (striker.AsBody(), pieces[..]);
      CollideStrikerWith(e, m, pieces, striker, i);
      assert StrikerSweep(e, m, before.0, before.1, i)
          == StrikerSweep(e, m, striker.AsBody(), pieces[..], i + 1);
      i := i + 1;
    }
  }

  /** The piece-pair loops of checkCollisions. */
  method SweepPairs(e: Engine, m: MathLib, pieces: array<Piece>)
    modifies pieces
    ensures pieces[..] == PairSweep(e, m, old(pieces[..]), 0, 1)
  {
    var i := 0;
    while i < pieces.Length
      invariant 0 <= i <= pieces.Length
      invariant PairSweep(e, m, pieces[..], i, i + 1) == PairSweep(e, m, old(pieces[..]), 0, 1)
    {
      SweepPairsOf(e, m, pieces, i);
      i := i + 1;
    }
  }

  /** The inner loop of the piece-pair loops: piece i against every later piece. */
  method SweepPairsOf(e: Engine, m: MathLib, pieces: array<Piece>, i: nat)
    requires i < pieces.Length
    modifies pieces
    ensures PairSweep(e, m, pieces[..], i + 1, i + 2) == PairSweep(e, m, old(pieces[..]), i, i + 1)
  {
    var j := i + 1;
    while j < pieces.Length
      invariant i + 1 <= j <= pieces.Length
      invariant PairSweep(e, m, pieces[..], i, j) == PairSweep(e, m, old(pieces[..]), i, i + 1)
    {
      ghost var before := pieces[..];
      CollidePair(e, m, pieces, i, j);
      assert PairSweep(e, m, before, i, j) == PairSweep(e, m, pieces[..], i, j + 1);
      j := j + 1;
    }
  }

  /** One iteration of the striker loop of checkCollisions. */
  method CollideStrikerWith(e: Engine, m: MathLib, pieces: array<Piece>, striker: Striker, i: nat)
    requires i < pieces.Length
    modifies pieces, striker
    ensures (striker.AsBody(), pieces[..]) == StrikerPieceStep(e, m, old(striker.AsBody()), old(pieces[..]), i)
  {
    if !pieces[i].isPocketed {
      var collision := DetectCollision(m, striker.AsBody(), pieces[i].body);
      if collision.occurred {
        var resolved := ResolveCollision(e, striker.AsBody(), pieces[i].body, collision);
        striker.Assign(resolved.0);
        pieces[i] := pieces[i].(body := resolved.1);
      }
    }
  }

  /** One iteration of the piece-pair loops of checkCollisions. */
  method CollidePair(e: Engine, m: MathLib, pieces: array<Piece>, i: nat, j: nat)
    requires i < j < pieces.Length
    modifies pieces
    ensures pieces[..] == PairStep(e, m, old(pieces[..]), i, j)
  {
    var piece1 := pieces[i];
    var piece2 := pieces[j];
    if !piece1.isPocketed && !piece2.isPocketed {
      var collision := DetectCollision(m, piece1.body, piece2.body);
      if collision.occurred {
        var resolved := ResolveCollision(e, piece1.body, piece2.body, collision);
        pieces[i] := piece1.(body := resolved.0);
        pieces[j] := piece2.(body := resolved.1);
      }
    }
  }

  /** physics-engine.ts checkPocketCollisions: for each pocket, the striker, then every piece. */
  method CheckPocketCollisions(m: MathLib, pieces: array<Piece>, striker: Striker, pockets: seq<Pocket>)
    modifies pieces, striker
    ensures striker.AsBody() == CaptureStriker(m, old(striker.AsBody()), pockets)
    ensures pieces[..] == CapturePieces(m, old(pieces[..]), pockets)
  {
    var k := 0;
    while k < |pockets|
      invariant 0 <= k <= |pockets|
      invariant striker.AsBody() == CaptureStriker(m, old(striker.AsBody()), pockets[..k])
      invariant forall j :: 0 <= j < pieces.Length ==> pieces[j] == CapturePiece(m, old(pieces[j]), pockets[..k])
    {
      var pocket := pockets[k];
      assert pockets[..k + 1][..k] == pockets[..k];
      if striker.isActive && IsInPocket(m, striker.position, striker.radius, pocket) {
        striker.isActive := false;
        striker.velocity := Zero;
      }
      var i := 0;
      while i < pieces.Length
        invariant 0 <= i <= pieces.Length
        invariant forall j :: 0 <= j < i ==> pieces[j] == CapturePiece(m, old(pieces[j]), pockets[..k + 1])
        invariant forall j :: i <= j < pieces.Length ==> pieces[j] == CapturePiece(m, old(pieces[j]), pockets[..k])
        modifies pieces
      {
        var piece := pieces[i];
        if !piece.isPocketed && IsInPocket(m, piece.body.position, piece.body.radius, pocket) {
          pieces[i] := piece.(isPocketed := true, body := piece.body.(isActive := false, velocity := Zero));
        }
        i := i + 1;
      }
      k := k + 1;
    }
    assert pockets[..|pockets|] == pockets;
  }

  // ----- trajectory prediction -----

  /** The positions of a hypothetical body, one per tick, until it is slower
      than the minimum speed or `steps` positions have been recorded. */
  function Trajectory(e: Engine, m: MathLib, probe: Body, board: Board, steps: int): seq<Vec>
    decreases steps
  {
    if steps <= 0 then []
    else if !probe.isActive || GetVelocityMagnitude(m, probe.velocity) < MinVelocity then [probe.position]
    else [probe.position] + Trajectory(e, m, CheckBoardCollisions(e, m, UpdateObject(e, probe, PredictorStep), board), board, steps - 1)
  }

  /** A trajectory has at most `steps` points and, unless `steps` is not
      positive, starts at the body's position. */
  lemma {:induction false} TrajectoryShape(e: Engine, m: MathLib, probe: Body, board: Board, steps: int)
    ensures var t := Trajectory(e, m, probe, board, steps);
      && (steps <= 0 ==> t == [])
      && (0 < steps ==> 1 <= |t| <= steps && t[0] == probe.position)
    decreases steps
  {
    if 0 < steps && probe.isActive && GetVelocityMagnitude(m, probe.velocity) >= MinVelocity {
      TrajectoryShape(e, m, CheckBoardCollisions(e, m, UpdateObject(e, probe, PredictorStep), board), board, steps - 1);
    }
  }

  /** Every point after the first is within `reach` of `c`. */
  ghost predicate InsideAfterFirst(t: seq<Vec>, c: Vec, reach: real) {
    forall k :: 1 <= k < |t| ==> DistSq(t[k], c) <= reach * reach
  }

  /** Every point of a trajectory after the first lies inside the boundary
      less the body's radius. */
  lemma {:induction false} TrajectoryInside(e: Engine, m: MathLib, probe: Body, board: Board, steps: int)
    requires Sound(m)
    ensures InsideAfterFirst(Trajectory(e, m, probe, board, steps), board.outerBoundary.center,
                             board.outerBoundary.radius - probe.radius)
    decreases steps
  {
    var c := board.outerBoundary.center;
    var reach := board.outerBoundary.radius - probe.radius;
    if 0 < steps && probe.isActive && GetVelocityMagnitude(m, probe.velocity) >= MinVelocity {
      var next := CheckBoardCollisions(e, m, UpdateObject(e, probe, PredictorStep), board);
      MovingBodySlows(e, m, probe, board, PredictorStep);
      assert next.radius == probe.radius && DistSq(next.position, c) <= reach * reach;
      TrajectoryInside(e, m, next, board, steps - 1);
      TrajectoryShape(e, m, next, board, steps - 1);
      var rest := Trajectory(e, m, next, board, steps - 1);
      assert Trajectory(e, m, probe, board, steps) == [probe.position] + rest;
      ConsInside(probe.position, rest, next.position, c, reach);
    } else {
      assert Trajectory(e, m, probe, board, steps) == if steps <= 0 then [] else [probe.position];
    }
  }

  lemma ConsInside(p: Vec, rest: seq<Vec>, first: Vec, c: Vec, reach: real)
    requires InsideAfterFirst(rest, c, reach) && (0 < |rest| ==> rest[0] == first)
    requires DistSq(first, c) <= reach * reach
    ensures InsideAfterFirst([p] + rest, c, reach)
  {
    var t := [p] + rest;
    forall k | 1 <= k < |t|
      ensures DistSq(t[k], c) <= reach * reach
    {
      assert t[k] == rest[k - 1];
    }
  }

  /** physics-engine.ts calculateTrajectory (its unused pieces argument is dropped). */
  method CalculateTrajectory(e: Engine, m: MathLib, startPosition: Vec, velocity: Vec, board: Board, steps: int)
    returns (trajectory: seq<Vec>)
    ensures trajectory == Trajectory(e, m, Body(startPosition, velocity, PredictorRadius, true), board, steps)
  {
    trajectory := [];
    var probe := Body(startPosition, velocity, PredictorRadius, true);
    ghost var start := probe;
    var i := 0;
    while i < steps
      invariant 0 <= i
      invariant trajectory + Trajectory(e, m, probe, board, steps - i) == Trajectory(e, m, start, board, steps)
    {
      trajectory := trajectory + [probe.position];
      if !probe.isActive || GetVelocityMagnitude(m, probe.velocity) < MinVelocity {
        return;
      }
      probe := CheckBoardCollisions(e, m, UpdateObject(e, probe, PredictorStep), board);
      i := i + 1;
    }
  }

  /** physics-engine.ts calculateOptimalShot: aim straight at the target with
      power proportional to the distance, clamped to [200, 800]. */
  method CalculateOptimalShot(e: Engine, m: MathLib, strikerPos: Vec, targetPos: Vec, board: Board)
    returns (angle: real, power: real, trajectory: seq<Vec>)
    ensures 200.0 <= power <= 800.0
    ensures power == Min(Max(Distance(m, targetPos, strikerPos) * 0.3, 200.0), 800.0)
    ensures angle == HeadingDegrees(m, strikerPos, targetPos)
    ensures trajectory == Trajectory(e, m, Body(strikerPos, Polar(m, angle, power), PredictorRadius, true), board, PredictorSteps)
    ensures 1 <= |trajectory| <= PredictorSteps && trajectory[0] == strikerPos
  {
    var dx := targetPos.x - strikerPos.x;
    var dy := targetPos.y - strikerPos.y;
    var radians := m.atan2(dy, dx);
    assert dx * dx + dy * dy == DistSq(targetPos, strikerPos);
    var distance := m.sqrt(dx * dx + dy * dy);
    power := Min(Max(distance * 0.3, 200.0), 800.0);
    angle := radians * 180.0 / PI;
    var velocity := Vec(m.cos(radians) * power, m.sin(radians) * power);
    assert angle * PI / 180.0 == radians;
    assert velocity == Polar(m, angle, power);
    trajectory := CalculateTrajectory(e, m, strikerPos, velocity, board, PredictorSteps);
    TrajectoryShape(e, m, Body(strikerPos, velocity, PredictorRadius, true), board, PredictorSteps);
  }
}
