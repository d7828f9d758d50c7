/**
 * The fixed-timestep driver of `main.rs`: every frame adds the frame time
 * to an accumulator and runs one flocking pass per whole `1/60` second in
 * it, carrying the rest over to the next frame.
 */
module FixedStep {
  import opened Vectors
  import opened Flock2D

  /** `f` applied `k` times. */
  function Iterate<T>(f: T -> T, x: T, k: nat): T
  {
    if k == 0 then x else f(Iterate(f, x, k - 1))
  }

  lemma {:induction false} IterateAdd<T>(f: T -> T, x: T, j: nat, k: nat, total: nat)
    requires total == j + k
    ensures Iterate(f, Iterate(f, x, j), k) == Iterate(f, x, total)
  {
    if k > 0 {
      IterateAdd(f, x, j, k - 1, total - 1);
    }
  }

  /** One whole pass, as a function of the flock. */
  function PassFn(screen: Screen, n: Numerics): seq<Boid> -> seq<Boid>
  {
    t => Pass(t, screen, n)
  }

  /** The flock after `k` whole passes. */
  function Passes(s: seq<Boid>, k: nat, screen: Screen, n: Numerics): seq<Boid>
  {
    Iterate(PassFn(screen, n), s, k)
  }

  /**
   * One frame: `time_left += get_frame_time()` and then
   * `while time_left >= delta { time_left -= delta; <pass> }`. The number
   * of passes run is returned so that the contract can speak of it.
   */
  method FixedStepFrame(boids: array<Boid>, timeLeft: real, frameTime: real, screen: Screen, n: Numerics)
    returns (left: real, passes: nat)
    requires 0.0 <= timeLeft && 0.0 <= frameTime
    modifies boids
    ensures 0.0 <= left < 1.0 / 60.0
    ensures left + passes as real / 60.0 == timeLeft + frameTime
    ensures boids[..] == Passes(old(boids[..]), passes, screen, n)
  {
    ghost var s := boids[..];
    var delta := 1.0 / 60.0;
    left := timeLeft + frameTime;
    passes := 0;
    while left >= delta
      invariant 0.0 <= left
      invariant left + passes as real / 60.0 == timeLeft + frameTime
      invariant boids[..] == Passes(s, passes, screen, n)
      decreases (left * 60.0).Floor
    {
      left := left - delta;
      FlockPass(boids, screen, n);
      passes := passes + 1;
    }
  }

  /** The number of passes in a frame is the number of whole `1/60` seconds accumulated. */
  lemma PassesAreWholeSteps(total: real, left: real, passes: nat)
    requires 0.0 <= left < 1.0 / 60.0
    requires left + passes as real / 60.0 == total
    ensures passes == (total * 60.0).Floor
  {
    assert total * 60.0 == left * 60.0 + passes as real;
    assert 0.0 <= left * 60.0 < 1.0;
  }

  function Sum(ts: seq<real>): real
  {
    if ts == [] then 0.0 else Sum(ts[..|ts| - 1]) + ts[|ts| - 1]
  }

  /**
   * A run of frames with the given frame times, starting from
   * `time_left = 0`: the leftover stays below one step and every whole step
   * of elapsed time has been simulated.
   */
  method RunFixedStep(boids: array<Boid>, frameTimes: seq<real>, screen: Screen, n: Numerics)
    returns (timeLeft: real, passes: nat)
    requires forall f :: 0 <= f < |frameTimes| ==> 0.0 <= frameTimes[f]
    modifies boids
    ensures 0.0 <= timeLeft < 1.0 / 60.0
    ensures timeLeft + passes as real / 60.0 == Sum(frameTimes)
    ensures boids[..] == Passes(old(boids[..]), passes, screen, n)
  {
    ghost var s := boids[..];
    timeLeft, passes := 0.0, 0;
    var f := 0;
    while f < |frameTimes|
      invariant 0 <= f <= |frameTimes|
      invariant 0.0 <= timeLeft < 1.0 / 60.0
      invariant timeLeft + passes as real / 60.0 == Sum(frameTimes[..f])
      invariant boids[..] == Passes(s, passes, screen, n)
    {
      var k;
      ghost var elapsed := timeLeft + passes as real / 60.0;
      timeLeft, k := FixedStepFrame(boids, timeLeft, frameTimes[f], screen, n);
      var total := passes + k;
      IterateAdd(PassFn(screen, n), s, passes, k, total);
      passes := total;
      assert frameTimes[..f + 1][..f] == frameTimes[..f];
      assert Sum(frameTimes[..f + 1]) == elapsed + frameTimes[f];
      f := f + 1;
    }
    assert frameTimes[..f] == frameTimes;
  }

  /** However many passes run, every centroid stays the mean of its triangle. */
  lemma {:induction false} PassesKeepCentroidMeans(s: seq<Boid>, k: nat, screen: Screen, n: Numerics)
    requires AllCentroidsAreMeans(s)
    ensures AllCentroidsAreMeans(Passes(s, k, screen, n))
  {
    if k > 0 {
      PassesKeepCentroidMeans(s, k - 1, screen, n);
      var t := Passes(s, k - 1, screen, n);
      PassKeepsCentroidMeans(t, |t|, screen, n);
    }
  }
}
