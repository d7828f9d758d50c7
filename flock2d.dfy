/**
 * The 2D flock: a boid is a triangle (three points), its centroid, a facing
 * angle and a velocity. One flocking pass visits the boids in index order
 * and updates each one in place from the others: neighbour scan,
 * separation, cohesion, alignment, margin nudges, speed clamp, integration
 * and re-orientation. The same pass appears twice in the program (the
 * fixed-step loop of `main.rs` and the variable-step loop of `boids2d.rs`);
 * this module is shared by both.
 */
module Flock2D {
  import opened Vectors
  import opened SplitOne

  /** `90f32.to_radians()`, the exact value of the nearest `f32` to pi/2. */
  const HalfPi: real := 1.57079637050628662109375

  datatype Boid = Boid(p1: Vec2, p2: Vec2, p3: Vec2, angle: real, centroid: Vec2, velocity: Vec2)

  /** The viewport extents, `screen_width()` and `screen_height()`. */
  datatype Screen = Screen(width: real, height: real)

  function Mean(p1: Vec2, p2: Vec2, p3: Vec2): Vec2
  {
    Vec2((p1.x + p2.x + p3.x) / 3.0, (p1.y + p2.y + p3.y) / 3.0)
  }

  /** The shape invariant: the centroid is the mean of the three points. */
  predicate CentroidIsMean(b: Boid)
  {
    b.centroid == Mean(b.p1, b.p2, b.p3)
  }

  predicate AllCentroidsAreMeans(s: seq<Boid>)
  {
    forall j :: 0 <= j < |s| ==> CentroidIsMean(s[j])
  }

  // ---------------------------------------------------------------- Boid::new

  /** `Boid::new`; the random initial velocity is a parameter. */
  function NewBoid(p1: Vec2, p2: Vec2, p3: Vec2, velocity: Vec2): (b: Boid)
    ensures CentroidIsMean(b)
    ensures b.angle == HalfPi && b.velocity == velocity
    ensures b.p1 == p1 && b.p2 == p2 && b.p3 == p3
  {
    Boid(p1, p2, p3, HalfPi, Mean(p1, p2, p3), velocity)
  }

  /**
   * The start-up triangle spawned at a (random) point `pos`: points `pos`,
   * `pos + (5, -15)` and `pos + (10, 0)`.
   */
  function Spawn(pos: Vec2, velocity: Vec2): (b: Boid)
    ensures CentroidIsMean(b)
    ensures b.centroid == Vec2(pos.x + 5.0, pos.y - 5.0)
    ensures b.angle == HalfPi && b.velocity == velocity
  {
    NewBoid(pos, Vec2(pos.x + 5.0, pos.y - 15.0), Vec2(pos.x + 10.0, pos.y), velocity)
  }

  // ---------------------------------------------------------------- Boid::rotate

  /**
   * Rotation of `p` about `o` with cosine `c` and sine `s`: clockwise in y-up
   * coordinates, that is counter-clockwise as drawn on the y-down screen.
   */
  function RotateAbout(p: Vec2, o: Vec2, c: real, s: real): Vec2
  {
    var dx, dy := p.x - o.x, p.y - o.y;
    Vec2(dx * c + dy * s + o.x, -dx * s + dy * c + o.y)
  }

  /** The boid after `rotate(rAngle)`: turned by `rAngle - angle` about its centroid, facing `rAngle`. */
  function Rotated(b: Boid, rAngle: real, n: Numerics): Boid
  {
    var d := rAngle - b.angle;
    var c, s := n.cos(d), n.sin(d);
    b.(angle := rAngle,
       p1 := RotateAbout(b.p1, b.centroid, c, s),
       p2 := RotateAbout(b.p2, b.centroid, c, s),
       p3 := RotateAbout(b.p3, b.centroid, c, s))
  }

  /**
   * The two statements that turn one point of `rotate`: the x offset is
   * saved first because the y update reads the old x.
   */
  method RotatePoint(p: Vec2, o: Vec2, cos: real, sin: real) returns (q: Vec2)
    ensures q == RotateAbout(p, o, cos, sin)
  {
    q := p;
    var px := q.x - o.x;
    q := q.(x := px * cos + (q.y - o.y) * sin + o.x);
    q := q.(y := -px * sin + (q.y - o.y) * cos + o.y);
  }

  /** `Boid::rotate`: record the new angle, then turn the three points about the centroid by the difference. */
  method Rotate(b: Boid, rAngle: real, n: Numerics) returns (r: Boid)
    ensures r == Rotated(b, rAngle, n)
  {
    var angle := rAngle - b.angle;
    r := b.(angle := rAngle);
    var cos, sin := n.cos(angle), n.sin(angle);
    var p1 := RotatePoint(r.p1, r.centroid, cos, sin);
    r := r.(p1 := p1);
    var p2 := RotatePoint(r.p2, r.centroid, cos, sin);
    r := r.(p2 := p2);
    var p3 := RotatePoint(r.p3, r.centroid, cos, sin);
    r := r.(p3 := p3);
  }

  /** The three offsets from the centroid sum to zero exactly when the centroid is the mean. */
  lemma OffsetsSumToZero(b: Boid)
    requires CentroidIsMean(b)
    ensures (b.p1.x - b.centroid.x) + (b.p2.x - b.centroid.x) + (b.p3.x - b.centroid.x) == 0.0
    ensures (b.p1.y - b.centroid.y) + (b.p2.y - b.centroid.y) + (b.p3.y - b.centroid.y) == 0.0
  {
  }

  /** Rotation keeps the centroid, the velocity and the centroid-is-mean invariant, whatever `cos` and `sin` give. */
  lemma RotatedKeepsCentroidMean(b: Boid, rAngle: real, n: Numerics)
    requires CentroidIsMean(b)
    ensures var r := Rotated(b, rAngle, n);
            CentroidIsMean(r) && r.centroid == b.centroid && r.velocity == b.velocity && r.angle == rAngle
  {
    var d := rAngle - b.angle;
    var c, s := n.cos(d), n.sin(d);
    var o := b.centroid;
    var x1, x2, x3 := b.p1.x - o.x, b.p2.x - o.x, b.p3.x - o.x;
    var y1, y2, y3 := b.p1.y - o.y, b.p2.y - o.y, b.p3.y - o.y;
    OffsetsSumToZero(b);
    assert x1 * c + x2 * c + x3 * c == (x1 + x2 + x3) * c;
    assert y1 * s + y2 * s + y3 * s == (y1 + y2 + y3) * s;
    assert x1 * s + x2 * s + x3 * s == (x1 + x2 + x3) * s;
    assert y1 * c + y2 * c + y3 * c == (y1 + y2 + y3) * c;
  }

  lemma RotateAboutKeepsDistance(p: Vec2, o: Vec2, c: real, s: real)
    requires c * c + s * s == 1.0
    ensures DistSq2(RotateAbout(p, o, c, s), o) == DistSq2(p, o)
  {
    var dx, dy := p.x - o.x, p.y - o.y;
    calc {
      (dx * c + dy * s) * (dx * c + dy * s) + (-dx * s + dy * c) * (-dx * s + dy * c);
      dx * dx * (c * c + s * s) + dy * dy * (c * c + s * s);
      dx * dx + dy * dy;
    }
  }

  /** With `cos² + sin² = 1`, rotation preserves every point's distance to the centroid. */
  lemma RotatedKeepsShape(b: Boid, rAngle: real, n: Numerics)
    requires UnitCircleAt(n, rAngle - b.angle)
    ensures var r := Rotated(b, rAngle, n);
            DistSq2(r.p1, r.centroid) == DistSq2(b.p1, b.centroid) &&
            DistSq2(r.p2, r.centroid) == DistSq2(b.p2, b.centroid) &&
            DistSq2(r.p3, r.centroid) == DistSq2(b.p3, b.centroid)
  {
    var d := rAngle - b.angle;
    RotateAboutKeepsDistance(b.p1, b.centroid, n.cos(d), n.sin(d));
    RotateAboutKeepsDistance(b.p2, b.centroid, n.cos(d), n.sin(d));
    RotateAboutKeepsDistance(b.p3, b.centroid, n.cos(d), n.sin(d));
  }

  lemma RotateAboutUndo(p: Vec2, o: Vec2, c: real, s: real)
    requires c * c + s * s == 1.0
    ensures RotateAbout(RotateAbout(p, o, c, s), o, c, -s) == p
  {
    var dx, dy := p.x - o.x, p.y - o.y;
    var ex, ey := dx * c + dy * s, -dx * s + dy * c;
    calc {
      ex * c + ey * -s;
      dx * (c * c + s * s) + dy * (s * c - c * s);
      dx;
    }
    calc {
      -ex * -s + ey * c;
      dx * (c * s - s * c) + dy * (s * s + c * c);
      dy;
    }
  }

  /** Rotating to `theta` and back to the old angle restores the boid, given the usual trigonometric identities. */
  lemma RotateRoundTrip(b: Boid, theta: real, n: Numerics)
    requires UnitCircleAt(n, theta - b.angle) && ParityAt(n, theta - b.angle)
    ensures Rotated(Rotated(b, theta, n), b.angle, n) == b
  {
    var d := theta - b.angle;
    assert b.angle - theta == -d;
    RotateAboutUndo(b.p1, b.centroid, n.cos(d), n.sin(d));
    RotateAboutUndo(b.p2, b.centroid, n.cos(d), n.sin(d));
    RotateAboutUndo(b.p3, b.centroid, n.cos(d), n.sin(d));
  }

  // ---------------------------------------------------------------- integration

  /** `centroid += velocity; p1 += velocity; p2 += velocity; p3 += velocity`. */
  function Integrated(b: Boid): Boid
  {
    b.(centroid := Add2(b.centroid, b.velocity),
       p1 := Add2(b.p1, b.velocity), p2 := Add2(b.p2, b.velocity), p3 := Add2(b.p3, b.velocity))
  }

  /** Moving the centroid and all three points by the same velocity keeps the centroid the mean. */
  lemma IntegratedKeepsCentroidMean(b: Boid)
    requires CentroidIsMean(b)
    ensures CentroidIsMean(Integrated(b))
    ensures Integrated(b).velocity == b.velocity && Integrated(b).angle == b.angle
    ensures Integrated(b).centroid == Add2(b.centroid, b.velocity)
  {
  }

  // ---------------------------------------------------------------- neighbour scan

  /** The running sums of the scan: `nbrs`, `center`, `avg_vel`, `move_`. */
  datatype Sums = Sums(nbrs: nat, center: Vec2, avgVel: Vec2, move: Vec2)

  const NoSums: Sums := Sums(0, Zero2, Zero2, Zero2)

  /** `(me - other.centroid).length() < 75` */
  predicate IsNeighbour(me: Vec2, other: Boid)
  {
    DistSq2(me, other.centroid) < 75.0 * 75.0
  }

  /** `(me - other.centroid).length() < 25` */
  predicate IsTooClose(me: Vec2, other: Boid)
  {
    DistSq2(me, other.centroid) < 25.0 * 25.0
  }

  /** One iteration of the scan over the others. */
  function Accumulate(acc: Sums, me: Vec2, other: Boid): Sums
  {
    var a := if IsNeighbour(me, other)
      then Sums(acc.nbrs + 1, Add2(acc.center, other.centroid), Add2(acc.avgVel, other.velocity), acc.move)
      else acc;
    if IsTooClose(me, other) then a.(move := Add2(a.move, Sub2(me, other.centroid))) else a
  }

  /** The sums after scanning `others` in order from a boid at `me`. */
  function Scan(me: Vec2, others: seq<Boid>): (r: Sums)
    ensures r.nbrs <= |others|
    ensures r.nbrs == 0 <==> forall j :: 0 <= j < |others| ==> !IsNeighbour(me, others[j])
    ensures r.nbrs == |others| <==> forall j :: 0 <= j < |others| ==> IsNeighbour(me, others[j])
    ensures r.nbrs == 0 ==> r == NoSums
  {
    if others == [] then NoSums
    else
      var last := |others| - 1;
      var acc := Scan(me, others[..last]);
      assert forall j :: 0 <= j < last ==> others[..last][j] == others[j];
      Accumulate(acc, me, others[last])
  }

  /** Every boid that contributes to separation is also counted as a neighbour. */
  lemma SeparationOnlyFromNeighbours(me: Vec2, others: seq<Boid>)
    ensures forall j :: 0 <= j < |others| && IsTooClose(me, others[j]) ==> IsNeighbour(me, others[j])
  {
  }

  // ---------------------------------------------------------------- the rules

  /**
   * Separation always, then cohesion and alignment when there is a
   * neighbour. Alignment is computed from the velocity that already
   * includes cohesion.
   */
  function Steer(me: Boid, sums: Sums): Vec2
  {
    var v := Add2(me.velocity, Scale2(sums.move, 0.05));
    if sums.nbrs > 0 then
      var center := Div2(sums.center, sums.nbrs as real);
      var avgVel := Div2(sums.avgVel, sums.nbrs as real);
      var v1 := Add2(v, Scale2(Sub2(center, me.centroid), 0.005));
      Add2(v1, Scale2(Sub2(avgVel, v1), 0.05))
    else v
  }

  /** With no boid inside the cohesion radius, the flocking rules leave the velocity exactly as it was. */
  lemma NoNeighbourNoSteering(me: Boid, others: seq<Boid>)
    requires forall j :: 0 <= j < |others| ==> !IsNeighbour(me.centroid, others[j])
    ensures Steer(me, Scan(me.centroid, others)) == me.velocity
  {
  }

  /**
   * With exactly one other boid, at a distance in [25, 75): no separation,
   * full cohesion towards it and alignment with it.
   */
  lemma OneNeighbourSteer(me: Boid, other: Boid)
    requires IsNeighbour(me.centroid, other) && !IsTooClose(me.centroid, other)
    ensures var v1 := Add2(me.velocity, Scale2(Sub2(other.centroid, me.centroid), 0.005));
            Steer(me, Scan(me.centroid, [other])) == Add2(v1, Scale2(Sub2(other.velocity, v1), 0.05))
  {
    assert [other][..0] == [];
    var sums := Scan(me.centroid, [other]);
    assert sums == Sums(1, other.centroid, other.velocity, Zero2);
    assert Div2(other.centroid, 1.0) == other.centroid;
    assert Div2(other.velocity, 1.0) == other.velocity;
  }

  /**
   * Two resting boids 10 apart at (0,0) and (10,0). Being closer than 25,
   * the other one pushes: separation gives -0.5, cohesion adds 0.05, and
   * alignment with the zero mean velocity takes 5% off what is left.
   */
  lemma TwoRestingBoids(a: Boid, b: Boid)
    requires a.centroid == Zero2 && b.centroid == Vec2(10.0, 0.0)
    requires a.velocity == Zero2 && b.velocity == Zero2
    ensures Steer(a, Scan(a.centroid, [b])) == Vec2(-0.4275, 0.0)
  {
    var sums := Scan(a.centroid, [b]);
    assert sums == Sums(1, Vec2(10.0, 0.0), Zero2, Vec2(-10.0, 0.0)) by {
      assert [b][..0] == [];
      assert DistSq2(a.centroid, b.centroid) == 100.0;
    }
    var v := Add2(Zero2, Scale2(Vec2(-10.0, 0.0), 0.05));
    var v1 := Add2(v, Scale2(Sub2(Vec2(10.0, 0.0), Zero2), 0.005));
    assert Steer(a, sums) == Add2(v1, Scale2(Sub2(Zero2, v1), 0.05)) by {
      assert Div2(sums.center, sums.nbrs as real) == sums.center;
      assert Div2(sums.avgVel, sums.nbrs as real) == sums.avgVel;
    }
    TwoRestingBoidsArithmetic();
  }

  lemma TwoRestingBoidsArithmetic()
    ensures var v := Add2(Zero2, Scale2(Vec2(-10.0, 0.0), 0.05));
            var v1 := Add2(v, Scale2(Sub2(Vec2(10.0, 0.0), Zero2), 0.005));
            Add2(v1, Scale2(Sub2(Zero2, v1), 0.05)) == Vec2(-0.4275, 0.0)
  {
  }

  /** The four margin nudges: +1 or -1 on an axis whose coordinate is within 80 of an edge. */
  function Nudge(c: Vec2, v: Vec2, screen: Screen): (r: Vec2)
    ensures 80.0 <= c.x <= screen.width - 80.0 ==> r.x == v.x
    ensures 80.0 <= c.y <= screen.height - 80.0 ==> r.y == v.y
    ensures -1.0 <= r.x - v.x <= 1.0 && -1.0 <= r.y - v.y <= 1.0
  {
    var margin := 80.0;
    var vx := if c.x < margin then v.x + 1.0 else v.x;
    var vx' := if c.x > screen.width - margin then vx - 1.0 else vx;
    var vy := if c.y < margin then v.y + 1.0 else v.y;
    var vy' := if c.y > screen.height - margin then vy - 1.0 else vy;
    Vec2(vx', vy')
  }

  /** The axes are independent: the x nudge depends only on x quantities, the y nudge only on y ones. */
  lemma NudgeAxesIndependent(c: Vec2, v: Vec2, c': Vec2, v': Vec2, screen: Screen, screen': Screen)
    ensures c.x == c'.x && v.x == v'.x && screen.width == screen'.width ==>
              Nudge(c, v, screen).x == Nudge(c', v', screen').x
    ensures c.y == c'.y && v.y == v'.y && screen.height == screen'.height ==>
              Nudge(c, v, screen).y == Nudge(c', v', screen').y
  {
  }

  /** On a screen wider and taller than two margins, a boid near an edge is pushed back by exactly 1. */
  lemma NudgeTowardsInside(c: Vec2, v: Vec2, screen: Screen)
    requires screen.width >= 160.0 && screen.height >= 160.0
    ensures c.x < 80.0 ==> Nudge(c, v, screen).x == v.x + 1.0
    ensures c.x > screen.width - 80.0 ==> Nudge(c, v, screen).x == v.x - 1.0
    ensures c.y < 80.0 ==> Nudge(c, v, screen).y == v.y + 1.0
    ensures c.y > screen.height - 80.0 ==> Nudge(c, v, screen).y == v.y - 1.0
  {
  }

  // ---------------------------------------------------------------- one boid, one pass

  /** The heading handed to `rotate`: `-(velocity.y).atan2(velocity.x)`. */
  function Heading(v: Vec2, n: Numerics): real
  {
    -n.atan2(v.y, v.x)
  }

  /** Boid `me` after its turn of the pass, given the others as it sees them. */
  function Update(me: Boid, others: seq<Boid>, screen: Screen, n: Numerics): Boid
  {
    var v := n.clampLength2(Nudge(me.centroid, Steer(me, Scan(me.centroid, others)), screen), 5.5);
    var moved := Integrated(me.(velocity := v));
    Rotated(moved, Heading(v, n), n)
  }

  /** One turn of the pass, as a function of the borrowed boid and the others. */
  function BoidTurn(screen: Screen, n: Numerics): (Boid, seq<Boid>) -> Boid
  {
    (me, others) => Update(me, others, screen, n)
  }

  /** Boid `i` after its turn, when the flock stands at `s`. */
  function UpdateAt(s: seq<Boid>, i: nat, screen: Screen, n: Numerics): Boid
    requires i < |s|
  {
    TurnAt(s, i, BoidTurn(screen, n))
  }

  /** The flock after one whole pass. */
  function Pass(s: seq<Boid>, screen: Screen, n: Numerics): seq<Boid>
  {
    Turns(s, |s|, BoidTurn(screen, n))
  }

  /** The neighbour count of turn `i` never exceeds the number of other boids. */
  lemma NeighbourCountBound(s: seq<Boid>, i: nat, screen: Screen, n: Numerics)
    requires i < |s|
    ensures var (me, others) := SplitOneMut(Turns(s, i, BoidTurn(screen, n)), i);
            Scan(me.centroid, others).nbrs <= |s| - 1
  {
  }

  lemma UpdateKeepsCentroidMean(me: Boid, others: seq<Boid>, screen: Screen, n: Numerics)
    requires CentroidIsMean(me)
    ensures CentroidIsMean(Update(me, others, screen, n))
  {
    var v := n.clampLength2(Nudge(me.centroid, Steer(me, Scan(me.centroid, others)), screen), 5.5);
    var moved := Integrated(me.(velocity := v));
    IntegratedKeepsCentroidMean(me.(velocity := v));
    RotatedKeepsCentroidMean(moved, Heading(v, n), n);
  }

  /** A pass keeps every boid's centroid the mean of its triangle. */
  lemma {:induction false} PassKeepsCentroidMeans(s: seq<Boid>, k: nat, screen: Screen, n: Numerics)
    requires k <= |s| && AllCentroidsAreMeans(s)
    ensures AllCentroidsAreMeans(Turns(s, k, BoidTurn(screen, n)))
  {
    if k > 0 {
      PassKeepsCentroidMeans(s, k - 1, screen, n);
      var t := Turns(s, k - 1, BoidTurn(screen, n));
      var (me, others) := SplitOneMut(t, k - 1);
      UpdateKeepsCentroidMean(me, others, screen, n);
    }
  }

  /** Each turn leaves its boid with speed at most 5.5. */
  lemma UpdateCapsSpeed(me: Boid, others: seq<Boid>, screen: Screen, n: Numerics)
    requires ClampLaw2(n)
    ensures LenSq2(Update(me, others, screen, n).velocity) <= 5.5 * 5.5
  {
    var v := n.clampLength2(Nudge(me.centroid, Steer(me, Scan(me.centroid, others)), screen), 5.5);
    assert LenSq2(v) <= 5.5 * 5.5;
  }

  /** After a whole pass every boid moves at speed at most 5.5. */
  lemma PassCapsSpeed(s: seq<Boid>, screen: Screen, n: Numerics)
    requires ClampLaw2(n)
    ensures forall j :: 0 <= j < |s| ==> LenSq2(Pass(s, screen, n)[j].velocity) <= 5.5 * 5.5
  {
    TurnsFrame(s, |s|, BoidTurn(screen, n));
    forall j | 0 <= j < |s|
      ensures LenSq2(Pass(s, screen, n)[j].velocity) <= 5.5 * 5.5
    {
      var t := Turns(s, j, BoidTurn(screen, n));
      var (me, others) := SplitOneMut(t, j);
      UpdateCapsSpeed(me, others, screen, n);
    }
  }

  // ---------------------------------------------------------------- the pass, in place

  /** The `for boid_nbr in others` loop: the running sums over the others, in order. */
  method ScanOthers(me: Vec2, others: seq<Boid>) returns (nbrs: nat, center: Vec2, avgVel: Vec2, move: Vec2)
    ensures Sums(nbrs, center, avgVel, move) == Scan(me, others)
  {
    nbrs, center, avgVel, move := 0, Zero2, Zero2, Zero2;
    var j := 0;
    while j < |others|
      invariant 0 <= j <= |others|
      invariant Sums(nbrs, center, avgVel, move) == Scan(me, others[..j])
    {
      var nbr := others[j];
      assert others[..j + 1][..j] == others[..j];
      if DistSq2(me, nbr.centroid) < 75.0 * 75.0 {
        center := Add2(center, nbr.centroid);
        avgVel := Add2(avgVel, nbr.velocity);
        nbrs := nbrs + 1;
      }
      if DistSq2(me, nbr.centroid) < 25.0 * 25.0 {
        move := Add2(move, Sub2(me, nbr.centroid));
      }
      j := j + 1;
    }
    assert others[..j] == others;
  }

  /**
   * Turn `i` of the pass: borrow boid `i` apart from the others, scan them,
   * apply the rules, the nudges and the clamp, integrate and re-orient. The
   * program changes slot `i` in place through the borrow; here the new value
   * is built in the local `boid` and written to the slot once, which is the
   * same because the others never include index `i`.
   */
  method Turn(boids: array<Boid>, i: nat, screen: Screen, n: Numerics)
    requires i < boids.Length
    modifies boids
    ensures boids[..] == old(boids[..])[i := UpdateAt(old(boids[..]), i, screen, n)]
  {
    var boid, others := SplitOneMut(boids[..], i).0, SplitOneMut(boids[..], i).1;
    var nbrs, center, avgVel, move := ScanOthers(boid.centroid, others);
    ghost var before := boid;
    assert UpdateAt(boids[..], i, screen, n) == Update(before, others, screen, n);

    boid := boid.(velocity := Add2(boid.velocity, Scale2(move, 0.05)));
    if nbrs > 0 {
      center := Div2(center, nbrs as real);
      avgVel := Div2(avgVel, nbrs as real);
      boid := boid.(velocity := Add2(boid.velocity, Scale2(Sub2(center, boid.centroid), 0.005)));
      boid := boid.(velocity := Add2(boid.velocity, Scale2(Sub2(avgVel, boid.velocity), 0.05)));
    }
    assert boid == before.(velocity := Steer(before, Scan(before.centroid, others)));

    var margin := 80.0;
    if boid.centroid.x < margin {
      boid := boid.(velocity := boid.velocity.(x := boid.velocity.x + 1.0));
    }
    if boid.centroid.x > screen.width - margin {
      boid := boid.(velocity := boid.velocity.(x := boid.velocity.x - 1.0));
    }
    if boid.centroid.y < margin {
      boid := boid.(velocity := boid.velocity.(y := boid.velocity.y + 1.0));
    }
    if boid.centroid.y > screen.height - margin {
      boid := boid.(velocity := boid.velocity.(y := boid.velocity.y - 1.0));
    }
    ghost var nudged := Nudge(before.centroid, Steer(before, Scan(before.centroid, others)), screen);
    assert boid == before.(velocity := nudged);

    boid := boid.(velocity := n.clampLength2(boid.velocity, 5.5));
    boid := boid.(centroid := Add2(boid.centroid, boid.velocity));
    boid := boid.(p1 := Add2(boid.p1, boid.velocity));
    boid := boid.(p2 := Add2(boid.p2, boid.velocity));
    boid := boid.(p3 := Add2(boid.p3, boid.velocity));
    assert boid == Integrated(before.(velocity := n.clampLength2(nudged, 5.5)));
    var mAngle := -n.atan2(boid.velocity.y, boid.velocity.x);
    boid := Rotate(boid, mAngle, n);

    boids[i] := boid;
  }

  /** One flocking pass over the whole flock, in place and in index order. */
  method FlockPass(boids: array<Boid>, screen: Screen, n: Numerics)
    modifies boids
    ensures boids[..] == Pass(old(boids[..]), screen, n)
  {
    ghost var s := boids[..];
    var i := 0;
    while i < boids.Length
      invariant 0 <= i <= boids.Length
      invariant boids[..] == Turns(s, i, BoidTurn(screen, n))
    {
      Turn(boids, i, screen, n);
      i := i + 1;
    }
  }
}
