/**
 * The 3D flock of `boids3d.rs`: a boid is a point with a velocity, drawn as
 * a short segment `p1 -> p2` centred on it along its direction of travel,
 * in one colour fixed at start-up. The pass has the same shape as the 2D
 * one, with its own radii and weights, a repulsion from the free camera,
 * soft per-axis bounds of the cube `[-12, 12]^3` and a speed cap of 0.2.
 */
module Flock3D {
  import opened Vectors
  import opened SplitOne

  datatype Color = Rgba(r: nat, g: nat, b: nat, a: nat)

  datatype Boid = Boid(position: Vec3, velocity: Vec3, p1: Vec3, p2: Vec3, color: Color)

  /** The seven colours a boid may be given at start-up. */
  const Palette: seq<Color> := [
    Rgba(129, 161, 193, 255), Rgba(191, 97, 106, 255), Rgba(208, 135, 112, 255),
    Rgba(163, 190, 140, 255), Rgba(235, 203, 139, 255), Rgba(143, 188, 187, 255),
    Rgba(136, 192, 208, 255)]

  /** The shape invariant: the position is the midpoint of the segment. */
  predicate IsMidpoint(b: Boid)
  {
    Sub3(b.p1, b.position) == Sub3(b.position, b.p2)
  }

  predicate AllMidpoints(s: seq<Boid>)
  {
    forall j :: 0 <= j < |s| ==> IsMidpoint(s[j])
  }

  /**
   * A start-up boid at a (random) position with a (random) velocity and a
   * (random) palette colour: its segment runs from `pos + (0.2, 0.2, 0.2)`
   * to `pos - (0.2, 0.2, 0.2)`.
   */
  function Spawn(pos: Vec3, velocity: Vec3, colorIndex: nat): (b: Boid)
    requires colorIndex < |Palette|
    ensures IsMidpoint(b)
    ensures b.position == pos && b.velocity == velocity && b.color in Palette
  {
    Boid(pos, velocity, Add3(pos, Vec3(0.2, 0.2, 0.2)), Sub3(pos, Vec3(0.2, 0.2, 0.2)), Palette[colorIndex])
  }

  // ---------------------------------------------------------------- neighbour scan

  datatype Sums = Sums(nbrs: nat, center: Vec3, avgVel: Vec3, move: Vec3)

  const NoSums: Sums := Sums(0, Zero3, Zero3, Zero3)

  /** `(me - other.position).length() < 2.7` */
  predicate IsNeighbour(me: Vec3, other: Boid)
  {
    DistSq3(me, other.position) < 2.7 * 2.7
  }

  /** `(me - other.position).length() < 0.5` */
  predicate IsTooClose(me: Vec3, other: Boid)
  {
    DistSq3(me, other.position) < 0.5 * 0.5
  }

  function Accumulate(acc: Sums, me: Vec3, other: Boid): Sums
  {
    var a := if IsNeighbour(me, other)
      then Sums(acc.nbrs + 1, Add3(acc.center, other.position), Add3(acc.avgVel, other.velocity), acc.move)
      else acc;
    if IsTooClose(me, other) then a.(move := Add3(a.move, Sub3(me, other.position))) else a
  }

  /** The sums after scanning `others` in order from a boid at `me`. */
  function Scan(me: Vec3, others: seq<Boid>): (r: Sums)
    ensures r.nbrs <= |others|
    ensures r.nbrs == 0 <==> forall j :: 0 <= j < |others| ==> !IsNeighbour(me, others[j])
    ensures r.nbrs == |others| <==> forall j :: 0 <= j < |others| ==> IsNeighbour(me, others[j])
    ensures r.nbrs == 0 ==> r == NoSums
  {
    if others == [] then NoSums
    else
      var last := |others| - 1;
      var acc := Scan(me, others[..last]);
      assert forall j :: 0 <= j < last ==> others[..last][j] == others[j];
      Accumulate(acc, me, others[last])
  }

  /** Every boid that contributes to separation is also counted as a neighbour. */
  lemma SeparationOnlyFromNeighbours(me: Vec3, others: seq<Boid>)
    ensures forall j :: 0 <= j < |others| && IsTooClose(me, others[j]) ==> IsNeighbour(me, others[j])
  {
  }

  // ---------------------------------------------------------------- the rules

  /** The separation sum with the camera folded in: `(position - camera) * 1.3` when it is closer than 0.5. */
  function WithCamera(position: Vec3, camera: Vec3, move: Vec3): Vec3
  {
    if DistSq3(position, camera) < 0.5 * 0.5 then Add3(move, Scale3(Sub3(position, camera), 1.3)) else move
  }

  /** Separation (camera included), then cohesion and alignment when there is a neighbour. */
  function Steer(me: Boid, sums: Sums, camera: Vec3): Vec3
  {
    var v := Add3(me.velocity, Scale3(WithCamera(me.position, camera, sums.move), 0.05));
    if sums.nbrs > 0 then
      var center := Div3(sums.center, sums.nbrs as real);
      var avgVel := Div3(sums.avgVel, sums.nbrs as real);
      var v1 := Add3(v, Scale3(Sub3(center, me.position), 0.001));
      Add3(v1, Scale3(Sub3(avgVel, v1), 0.05))
    else v
  }

  /**
   * With no boid inside the cohesion radius only the camera can steer: it
   * leaves the velocity alone when it is 0.5 or more away and otherwise
   * pushes it away by `(position - camera) * 1.3 * 0.05`.
   */
  lemma NoNeighbourOnlyCamera(me: Boid, others: seq<Boid>, camera: Vec3)
    requires forall j :: 0 <= j < |others| ==> !IsNeighbour(me.position, others[j])
    ensures DistSq3(me.position, camera) >= 0.5 * 0.5 ==>
              Steer(me, Scan(me.position, others), camera) == me.velocity
    ensures DistSq3(me.position, camera) < 0.5 * 0.5 ==>
              Steer(me, Scan(me.position, others), camera) == Add3(me.velocity, Scale3(Sub3(me.position, camera), 0.065))
  {
  }

  /**
   * With exactly one other boid, at a distance in [0.5, 2.7), and the camera
   * 0.5 or more away: no separation, cohesion 0.001 towards the other boid,
   * then alignment 0.05 with it from the velocity that includes cohesion.
   */
  lemma OneNeighbourSteer(me: Boid, other: Boid, camera: Vec3)
    requires IsNeighbour(me.position, other) && !IsTooClose(me.position, other)
    requires DistSq3(me.position, camera) >= 0.5 * 0.5
    ensures var v1 := Add3(me.velocity, Scale3(Sub3(other.position, me.position), 0.001));
            Steer(me, Scan(me.position, [other]), camera) == Add3(v1, Scale3(Sub3(other.velocity, v1), 0.05))
  {
    assert [other][..0] == [];
    var sums := Scan(me.position, [other]);
    assert sums == Sums(1, other.position, other.velocity, Zero3);
    assert Div3(other.position, 1.0) == other.position;
    assert Div3(other.velocity, 1.0) == other.velocity;
  }

  /** One axis of the soft bounds: the cube is 12 in half-extent with a margin of 3.5. */
  function SoftBound(p: real, v: real): (r: real)
    ensures p >= 8.5 ==> r == v - 0.005
    ensures p <= -8.5 ==> r == v + 0.005
    ensures -8.5 < p < 8.5 ==> r == v
  {
    var margin := 3.5;
    var v1 := if p >= 12.0 - margin then v - 0.005 else v;
    if p <= -12.0 + margin then v1 + 0.005 else v1
  }

  /** The soft bounds applied to every axis independently. */
  function Bounded(position: Vec3, v: Vec3): (r: Vec3)
    ensures forall a :: 0 <= a < 3 ==> Axis(r, a) == SoftBound(Axis(position, a), Axis(v, a))
  {
    Vec3(SoftBound(position.x, v.x), SoftBound(position.y, v.y), SoftBound(position.z, v.z))
  }

  /** The `for axi in 0..3` loop over the axes, one component at a time. */
  method ApplyBounds(position: Vec3, v: Vec3) returns (r: Vec3)
    ensures r == Bounded(position, v)
  {
    var margin := 3.5;
    r := v;
    var axi := 0;
    while axi < 3
      invariant 0 <= axi <= 3
      invariant forall a :: 0 <= a < axi ==> Axis(r, a) == SoftBound(Axis(position, a), Axis(v, a))
      invariant forall a :: axi <= a < 3 ==> Axis(r, a) == Axis(v, a)
    {
      if Axis(position, axi) >= 12.0 - margin {
        r := WithAxis(r, axi, Axis(r, axi) - 0.005);
      }
      if Axis(position, axi) <= -12.0 + margin {
        r := WithAxis(r, axi, Axis(r, axi) + 0.005);
      }
      axi := axi + 1;
    }
    assert Axis(r, 0) == Axis(Bounded(position, v), 0);
    assert Axis(r, 1) == Axis(Bounded(position, v), 1);
    assert Axis(r, 2) == Axis(Bounded(position, v), 2);
  }

  // ---------------------------------------------------------------- one boid, one pass

  /** Boid `me` after its turn of the pass, given the others as it sees them and the camera position. */
  function Update(me: Boid, others: seq<Boid>, camera: Vec3, n: Numerics): Boid
  {
    var v := n.clampLength3(Bounded(me.position, Steer(me, Scan(me.position, others), camera)), 0.2);
    var position := Add3(me.position, v);
    var dir := Scale3(n.normalize3(v), 0.2);
    Boid(position, v, Add3(position, dir), Sub3(position, dir), me.color)
  }

  /** One turn of the pass, as a function of the borrowed boid and the others. */
  function BoidTurn(camera: Vec3, n: Numerics): (Boid, seq<Boid>) -> Boid
  {
    (me, others) => Update(me, others, camera, n)
  }

  /** Boid `bi` after its turn, when the flock stands at `s`. */
  function UpdateAt(s: seq<Boid>, bi: nat, camera: Vec3, n: Numerics): Boid
    requires bi < |s|
  {
    TurnAt(s, bi, BoidTurn(camera, n))
  }

  /** The flock after one whole pass. */
  function Pass(s: seq<Boid>, camera: Vec3, n: Numerics): seq<Boid>
  {
    Turns(s, |s|, BoidTurn(camera, n))
  }

  /**
   * After its turn a boid sits at the midpoint of its segment, keeps its
   * colour and moves at speed at most 0.2 when the clamp obeys its law.
   */
  lemma UpdateShape(me: Boid, others: seq<Boid>, camera: Vec3, n: Numerics)
    ensures var r := Update(me, others, camera, n);
            IsMidpoint(r) && r.color == me.color &&
            r.position == Add3(me.position, r.velocity)
    ensures ClampLaw3(n) ==> LenSq3(Update(me, others, camera, n).velocity) <= 0.2 * 0.2
  {
    var v := n.clampLength3(Bounded(me.position, Steer(me, Scan(me.position, others), camera)), 0.2);
    if ClampLaw3(n) {
      assert LenSq3(v) <= 0.2 * 0.2;
    }
  }

  /** With a unit-length `normalize`, both endpoints lie exactly 0.2 from the position. */
  lemma SegmentEndpointsAtDistance(me: Boid, others: seq<Boid>, camera: Vec3, n: Numerics)
    requires NormalizeLaw3(n)
    requires Update(me, others, camera, n).velocity != Zero3
    ensures var r := Update(me, others, camera, n);
            DistSq3(r.p1, r.position) == 0.2 * 0.2 && DistSq3(r.p2, r.position) == 0.2 * 0.2
  {
    var r := Update(me, others, camera, n);
    var u := n.normalize3(r.velocity);
    assert LenSq3(u) == 1.0;
    var d := Scale3(u, 0.2);
    assert LenSq3(d) == 0.04 * LenSq3(u);
    assert Sub3(r.p1, r.position) == d;
    assert Sub3(r.p2, r.position) == Scale3(u, -0.2);
  }

  /** After a pass every boid is the midpoint of its segment, keeps its colour, and moves at speed at most 0.2. */
  lemma PassShape(s: seq<Boid>, camera: Vec3, n: Numerics)
    ensures |Pass(s, camera, n)| == |s|
    ensures AllMidpoints(Pass(s, camera, n))
    ensures forall j :: 0 <= j < |s| ==> Pass(s, camera, n)[j].color == s[j].color
    ensures ClampLaw3(n) ==> forall j :: 0 <= j < |s| ==> LenSq3(Pass(s, camera, n)[j].velocity) <= 0.2 * 0.2
  {
    TurnsFrame(s, |s|, BoidTurn(camera, n));
    forall j | 0 <= j < |s|
      ensures IsMidpoint(Pass(s, camera, n)[j]) && Pass(s, camera, n)[j].color == s[j].color
      ensures ClampLaw3(n) ==> LenSq3(Pass(s, camera, n)[j].velocity) <= 0.2 * 0.2
    {
      var t := Turns(s, j, BoidTurn(camera, n));
      TurnsFrame(s, j, BoidTurn(camera, n));
      var (me, others) := SplitOneMut(t, j);
      UpdateShape(me, others, camera, n);
    }
  }

  // ---------------------------------------------------------------- the pass, in place

  method ScanOthers(me: Vec3, others: seq<Boid>) returns (nbrs: nat, center: Vec3, avgVel: Vec3, move: Vec3)
    ensures Sums(nbrs, center, avgVel, move) == Scan(me, others)
  {
    nbrs, center, avgVel, move := 0, Zero3, Zero3, Zero3;
    var j := 0;
    while j < |others|
      invariant 0 <= j <= |others|
      invariant Sums(nbrs, center, avgVel, move) == Scan(me, others[..j])
    {
      var nbr := others[j];
      assert others[..j + 1][..j] == others[..j];
      if DistSq3(me, nbr.position) < 2.7 * 2.7 {
        center := Add3(center, nbr.position);
        avgVel := Add3(avgVel, nbr.velocity);
        nbrs := nbrs + 1;
      }
      if DistSq3(me, nbr.position) < 0.5 * 0.5 {
        move := Add3(move, Sub3(me, nbr.position));
      }
      j := j + 1;
    }
    assert others[..j] == others;
  }

  /** Turn `bi` of the pass, with the camera at `camera`. */
  method Turn(boids: array<Boid>, bi: nat, camera: Vec3, n: Numerics)
    requires bi < boids.Length
    modifies boids
    ensures boids[..] == old(boids[..])[bi := UpdateAt(old(boids[..]), bi, camera, n)]
  {
    var boid, others := SplitOneMut(boids[..], bi).0, SplitOneMut(boids[..], bi).1;
    var nbrs, center, avgVel, move := ScanOthers(boid.position, others);
    ghost var before := boid;
    ghost var sums := Sums(nbrs, center, avgVel, move);
    assert UpdateAt(boids[..], bi, camera, n) == Update(before, others, camera, n);

    if DistSq3(boid.position, camera) < 0.5 * 0.5 {
      move := Add3(move, Scale3(Sub3(boid.position, camera), 1.3));
    }
    boid := boid.(velocity := Add3(boid.velocity, Scale3(move, 0.05)));
    if nbrs > 0 {
      center := Div3(center, nbrs as real);
      avgVel := Div3(avgVel, nbrs as real);
      boid := boid.(velocity := Add3(boid.velocity, Scale3(Sub3(center, boid.position), 0.001)));
      boid := boid.(velocity := Add3(boid.velocity, Scale3(Sub3(avgVel, boid.velocity), 0.05)));
    }
    assert boid == before.(velocity := Steer(before, sums, camera));

    var v := ApplyBounds(boid.position, boid.velocity);
    boid := boid.(velocity := v);
    boid := boid.(velocity := n.clampLength3(boid.velocity, 0.2));
    boid := boid.(position := Add3(boid.position, boid.velocity));
    boid := boid.(p1 := Add3(boid.position, Scale3(n.normalize3(boid.velocity), 0.2)));
    boid := boid.(p2 := Sub3(boid.position, Scale3(n.normalize3(boid.velocity), 0.2)));

    boids[bi] := boid;
  }

  /** One 3D flocking pass, in place and in index order. */
  method FlockPass(boids: array<Boid>, camera: Vec3, n: Numerics)
    modifies boids
    ensures boids[..] == Pass(old(boids[..]), camera, n)
  {
    ghost var s := boids[..];
    var bi := 0;
    while bi < boids.Length
      invariant 0 <= bi <= boids.Length
      invariant boids[..] == Turns(s, bi, BoidTurn(camera, n))
    {
      Turn(boids, bi, camera, n);
      bi := bi + 1;
    }
  }
}
