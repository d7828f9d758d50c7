/**
 * The variable-step 2D variant of `boids2d.rs`: one flocking pass per
 * frame, then every boid's trail history is cut to its 20 newest entries
 * and the new centroid is put in front. Drawing the trail joins
 * consecutive entries with fading line segments.
 */
module Trails {
  import opened Vectors
  import opened Flock2D

  /** `Vec::truncate(len)`: the first `len` entries, or all of them when there are fewer. */
  function Truncate<T>(h: seq<T>, len: nat): (r: seq<T>)
    ensures |r| == if |h| < len then |h| else len
    ensures r == h[..|r|]
  {
    if |h| > len then h[..len] else h
  }

  /** A history after `truncate(20)` and `insert(0, c)`. */
  function Recorded(h: seq<Vec2>, c: Vec2): (r: seq<Vec2>)
    ensures |r| <= 21
    ensures |r| == (if |h| < 20 then |h| else 20) + 1
    ensures r[0] == c
    ensures r[1..] == h[..|r| - 1]
  {
    [c] + Truncate(h, 20)
  }

  /** Every history holds at most 21 entries: the cut to 20 comes before the insertion. */
  predicate HistoriesBounded(hs: seq<seq<Vec2>>)
  {
    forall i :: 0 <= i < |hs| ==> |hs[i]| <= 21
  }

  /** `vec![Vec::new(); 100]`: one empty history per boid. */
  method NewHistories() returns (histories: array<seq<Vec2>>)
    ensures fresh(histories)
    ensures histories.Length == 100
    ensures forall i :: 0 <= i < 100 ==> histories[i] == []
    ensures HistoriesBounded(histories[..])
  {
    histories := new seq<Vec2>[100](_ => []);
  }

  /**
   * The history loop: for every boid index `i`, `truncate(20)` then
   * `insert(0, boids[i].centroid)`. It indexes the histories with every
   * boid index, so there must be a history per boid.
   */
  method RecordTrails(histories: array<seq<Vec2>>, boids: array<Boid>)
    requires boids.Length <= histories.Length
    modifies histories
    ensures forall i :: 0 <= i < boids.Length ==> histories[i] == Recorded(old(histories[i]), boids[i].centroid)
    ensures forall i :: boids.Length <= i < histories.Length ==> histories[i] == old(histories[i])
  {
    var i := 0;
    while i < boids.Length
      invariant 0 <= i <= boids.Length
      invariant forall j :: 0 <= j < i ==> histories[j] == Recorded(old(histories[j]), boids[j].centroid)
      invariant forall j :: i <= j < histories.Length ==> histories[j] == old(histories[j])
    {
      histories[i] := Truncate(histories[i], 20);
      histories[i] := [boids[i].centroid] + histories[i];
      i := i + 1;
    }
  }

  /**
   * One frame of the variable-step variant: a flocking pass, then the
   * history update; afterwards every trail starts at its boid's centroid.
   */
  method Frame(boids: array<Boid>, histories: array<seq<Vec2>>, screen: Screen, n: Numerics)
    requires boids.Length <= histories.Length
    modifies boids, histories
    ensures boids[..] == Pass(old(boids[..]), screen, n)
    ensures forall i :: 0 <= i < boids.Length ==>
              histories[i] == Recorded(old(histories[i]), boids[i].centroid) && histories[i][0] == boids[i].centroid
    ensures forall i :: boids.Length <= i < histories.Length ==> histories[i] == old(histories[i])
    ensures HistoriesBounded(old(histories[..])) ==> HistoriesBounded(histories[..])
  {
    FlockPass(boids, screen, n);
    RecordTrails(histories, boids);
  }

  // ---------------------------------------------------------------- drawing

  /** One `draw_line` call of a trail: from one entry to the next, with its alpha. */
  datatype Segment = Segment(from: Vec2, to: Vec2, alpha: nat)

  /**
   * The alpha of segment `bh`: `255 - (bh * 10) as u8`. The cast keeps the
   * low 8 bits; the `u8` subtraction cannot underflow because the cast
   * result is at most 255.
   */
  function Alpha(bh: nat): (a: nat)
    ensures a <= 255
  {
    255 - (bh * 10) % 256
  }

  /** For the segment indices a trail of at most 21 entries produces, the cast does not wrap and the alpha stays at 75 or more. */
  lemma AlphaFades(bh: nat)
    requires bh <= 18
    ensures Alpha(bh) == 255 - bh * 10
    ensures 75 <= Alpha(bh)
  {
  }

  /**
   * The drawing loop of one trail: when it has more than two entries,
   * segments `bh -> bh + 1` for `bh` in `0 .. len - 2`, newest first; the
   * last (oldest) link is never drawn.
   */
  method TrailSegments(h: seq<Vec2>) returns (segments: seq<Segment>)
    ensures |segments| == if |h| > 2 then |h| - 2 else 0
    ensures forall k :: 0 <= k < |segments| ==> segments[k] == Segment(h[k], h[k + 1], Alpha(k))
  {
    segments := [];
    if |h| > 2 {
      var bh := 0;
      while bh < |h| - 2
        invariant 0 <= bh <= |h| - 2
        invariant |segments| == bh
        invariant forall k :: 0 <= k < bh ==> segments[k] == Segment(h[k], h[k + 1], Alpha(k))
      {
        segments := segments + [Segment(h[bh], h[bh + 1], Alpha(bh))];
        bh := bh + 1;
      }
    }
  }

  /** Every segment of a recorded trail fades linearly from 255 and never below 75. */
  lemma RecordedTrailAlphas(h: seq<Vec2>, c: Vec2)
    ensures var r := Recorded(h, c);
            forall k :: 0 <= k < |r| - 2 ==> Alpha(k) == 255 - k * 10 && 75 <= Alpha(k)
  {
    var r := Recorded(h, c);
    forall k | 0 <= k < |r| - 2 ensures Alpha(k) == 255 - k * 10 && 75 <= Alpha(k) {
      AlphaFades(k);
    }
  }
}
