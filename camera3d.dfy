/**
 * The per-frame scalar state of `boids3d.rs` outside the flock: the look
 * angles driven by the mouse, with the pitch kept inside `[-1.5, 1.5]`, and
 * the oscillating value `x` that walks between about -8 and 8 in steps of
 * 0.04, turning round once it reaches the bound.
 */
module Camera3D {
  import opened Vectors

  const LookSpeed: real := 0.14

  /** The two clamps of the pitch, upper bound first. */
  function ClampPitch(pitch: real): (r: real)
    ensures -1.5 <= r <= 1.5
    ensures -1.5 <= pitch <= 1.5 ==> r == pitch
    ensures pitch > 1.5 ==> r == 1.5
    ensures pitch < -1.5 ==> r == -1.5
  {
    var p := if pitch > 1.5 then 1.5 else pitch;
    if p < -1.5 then -1.5 else p
  }

  /** Clamping twice is clamping once. */
  lemma ClampPitchIdempotent(pitch: real)
    ensures ClampPitch(ClampPitch(pitch)) == ClampPitch(pitch)
  {
  }

  /**
   * The look update of one frame: yaw turns with the horizontal mouse
   * motion, pitch against the vertical one, scaled by the frame time, and
   * the pitch is then clamped. Returns the new `(yaw, pitch)`.
   */
  function Look(yaw: real, pitch: real, mouseDelta: Vec2, delta: real): (r: (real, real))
    ensures -1.5 <= r.1 <= 1.5
    ensures r.0 - yaw == mouseDelta.x * delta * LookSpeed
    ensures mouseDelta.y * delta == 0.0 ==> r.1 == ClampPitch(pitch)
  {
    (yaw + mouseDelta.x * delta * LookSpeed, ClampPitch(pitch + mouseDelta.y * delta * -LookSpeed))
  }

  // ---------------------------------------------------------------- the oscillator

  /** `bounds` */
  const Bound: real := 8.0

  /** One frame of the oscillator: step by 0.04 in the current direction, then turn round at or past either bound. */
  function Oscillated(x: real, switch: bool): (r: (real, bool))
    ensures r.0 == if switch then x + 0.04 else x - 0.04
    ensures r.1 != switch <==> (r.0 >= Bound || r.0 <= -Bound)
  {
    var x' := x + (if switch then 0.04 else -0.04);
    (x', if x' >= Bound || x' <= -Bound then !switch else switch)
  }

  /**
   * What stays true from frame to frame: moving up (`switch`), `x` is below
   * the bound and at most one step under the lower bound; moving down, the
   * mirror image.
   */
  predicate OscillatorInvariant(x: real, switch: bool)
  {
    if switch then -Bound - 0.04 < x < Bound else -Bound < x < Bound + 0.04
  }

  lemma OscillatedKeepsInvariant(x: real, switch: bool)
    requires OscillatorInvariant(x, switch)
    ensures OscillatorInvariant(Oscillated(x, switch).0, Oscillated(x, switch).1)
  {
  }

  /** The two statements of the frame loop that update `x` and `switch`. */
  method Oscillate(x: real, switch: bool) returns (x': real, switch': bool)
    ensures (x', switch') == Oscillated(x, switch)
  {
    x' := x;
    switch' := switch;
    x' := x' + if switch' then 0.04 else -0.04;
    if x' >= Bound || x' <= -Bound {
      switch' := !switch';
    }
  }

  /** The oscillator after `k` frames from its start-up state `x = 0`, `switch = false`. */
  function OscillatorAfter(k: nat): (real, bool)
  {
    if k == 0 then (0.0, false) else Oscillated(OscillatorAfter(k - 1).0, OscillatorAfter(k - 1).1)
  }

  /** However many frames have run, `x` stays strictly within one step of the bounds. */
  lemma {:induction false} OscillatorBounded(k: nat)
    ensures OscillatorInvariant(OscillatorAfter(k).0, OscillatorAfter(k).1)
    ensures -Bound - 0.04 < OscillatorAfter(k).0 < Bound + 0.04
  {
    if k > 0 {
      OscillatorBounded(k - 1);
      OscillatedKeepsInvariant(OscillatorAfter(k - 1).0, OscillatorAfter(k - 1).1);
    }
  }

  /** `frames` frames of the oscillator from start-up. */
  method RunOscillator(frames: nat) returns (x: real, switch: bool)
    ensures (x, switch) == OscillatorAfter(frames)
    ensures -Bound - 0.04 < x < Bound + 0.04
  {
    x, switch := 0.0, false;
    var f := 0;
    while f < frames
      invariant 0 <= f <= frames
      invariant (x, switch) == OscillatorAfter(f)
      invariant OscillatorInvariant(x, switch)
    {
      OscillatedKeepsInvariant(x, switch);
      x, switch := Oscillate(x, switch);
      f := f + 1;
    }
  }
}
