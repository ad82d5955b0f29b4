/** The centroid stabiliser: a single-round RANSAC vote picks the body with the most
    bodies within radius 150 of it, and the centroid is the sum of that body's
    inliers divided by the number of ALL bodies. After each step every body and every
    trail marker is moved by a tenth of the centroid towards the origin. */
module Ransac {
  import opened Bodies

  /** Inlier radius. */
  const Radius: real := 150.0

  /** `b` lies strictly within `Radius` of (cx, cy). The distance is compared by its
      square, which for exact reals is the same test as sqrt(d^2) < 150. */
  predicate Near(cx: real, cy: real, b: Body)
  {
    (cx - b.x) * (cx - b.x) + (cy - b.y) * (cy - b.y) < Radius * Radius
  }

  /** How many of `points` lie within `Radius` of (cx, cy). */
  function InlierCount(points: seq<Body>, cx: real, cy: real): (c: nat)
    ensures c <= |points|
  {
    if points == [] then 0
    else InlierCount(points[..|points| - 1], cx, cy) + (if Near(cx, cy, points[|points| - 1]) then 1 else 0)
  }

  /** The summed positions of the points within `Radius` of (cx, cy). */
  function InlierSum(points: seq<Body>, cx: real, cy: real): Vec
  {
    if points == [] then Zero
    else
      var prior := InlierSum(points[..|points| - 1], cx, cy);
      var last := points[|points| - 1];
      if Near(cx, cy, last) then prior.Plus(Vec(last.x, last.y)) else prior
  }

  /** The inlier count of each candidate, candidate k being points[k]'s position. */
  function Counts(points: seq<Body>): (cs: seq<nat>)
    ensures |cs| == |points|
  {
    seq(|points|, k requires 0 <= k < |points| => InlierCount(points, points[k].x, points[k].y))
  }

  /** The centre produced when candidate `k` wins: its inlier sum over ALL bodies. */
  function CandidateCentre(points: seq<Body>, k: nat): Vec
    requires k < |points|
  {
    var s := InlierSum(points, points[k].x, points[k].y);
    Vec(s.x / |points| as real, s.y / |points| as real)
  }

  /** The index a left-to-right scan keeps when it replaces its best only on a
      strictly larger value. */
  function FirstMax(s: seq<nat>): (w: nat)
    requires |s| >= 1
    ensures w < |s|
  {
    if |s| == 1 then 0
    else
      var w := FirstMax(s[..|s| - 1]);
      if s[|s| - 1] > s[w] then |s| - 1 else w
  }

  /** The scan's index holds a maximum, and every earlier index holds strictly less:
      it is the first maximum. */
  lemma {:induction false} FirstMaxIsFirstMaximum(s: seq<nat>)
    requires |s| >= 1
    ensures forall k :: 0 <= k < |s| ==> s[k] <= s[FirstMax(s)]
    ensures forall k :: 0 <= k < FirstMax(s) ==> s[k] < s[FirstMax(s)]
  {
    if |s| > 1 {
      var p := s[..|s| - 1];
      FirstMaxIsFirstMaximum(p);
      assert forall k :: 0 <= k < |p| ==> s[k] == p[k];
    }
  }

  /** Only one index is a first maximum, so the winner is fully determined. */
  lemma FirstMaximumUnique(s: seq<nat>, w: nat)
    requires w < |s|
    requires forall k :: 0 <= k < |s| ==> s[k] <= s[w]
    requires forall k :: 0 <= k < w ==> s[k] < s[w]
    ensures FirstMax(s) == w
  {
    FirstMaxIsFirstMaximum(s);
    var f := FirstMax(s);
    assert s[f] <= s[w] && s[w] <= s[f];
  }

  /** Every candidate is its own inlier, so each count is at least one. */
  lemma {:induction false} SelfIsInlier(points: seq<Body>, k: nat)
    requires k < |points|
    ensures InlierCount(points, points[k].x, points[k].y) >= 1
  {
    var p := points[..|points| - 1];
    if k < |points| - 1 {
      assert p[k] == points[k];
      SelfIsInlier(p, k);
    } else {
      assert Near(points[k].x, points[k].y, points[k]);
    }
  }

  /** The centroid the stabiliser computes: (0, 0) for no bodies, otherwise the
      centre of the first candidate with the most inliers. */
  function Centroid(points: seq<Body>): Vec
  {
    if points == [] then Zero else CandidateCentre(points, FirstMax(Counts(points)))
  }

  /** The vote: candidates in order, a strictly larger inlier count replacing the
      best so far, starting from zero inliers and centre (0, 0). */
  method RansacCentroid(points: seq<Body>) returns (center: Vec)
    ensures center == Centroid(points)
  {
    center := Zero;
    var highest: nat := 0;
    for i := 0 to |points|
      invariant i == 0 ==> center == Zero && highest == 0
      invariant i > 0 ==> highest == Counts(points)[FirstMax(Counts(points)[..i])]
      invariant i > 0 ==> center == CandidateCentre(points, FirstMax(Counts(points)[..i]))
    {
      var inliers := InlierCount(points, points[i].x, points[i].y);
      if i == 0 {
        SelfIsInlier(points, 0);
      }
      assert Counts(points)[..i + 1][..i] == Counts(points)[..i];
      if inliers > highest {
        highest := inliers;
        center := CandidateCentre(points, i);
      }
    }
    assert points != [] ==> Counts(points)[..|points|] == Counts(points);
  }

  /** `b` moved by minus (ox, oy). */
  function Moved(b: Body, ox: real, oy: real): Body
  {
    b.(x := b.x - ox, y := b.y - oy)
  }

  /** Every body moved by minus (ox, oy). */
  function MovedAll(bs: seq<Body>, ox: real, oy: real): (r: seq<Body>)
    ensures |r| == |bs|
  {
    seq(|bs|, k requires 0 <= k < |bs| => Moved(bs[k], ox, oy))
  }

  /** One pass over a collection, subtracting (ox, oy) from each position in place. */
  method MoveAll(bs: seq<Body>, ox: real, oy: real) returns (r: seq<Body>)
    ensures r == MovedAll(bs, ox, oy)
  {
    r := bs;
    for k := 0 to |bs|
      invariant |r| == |bs|
      invariant forall m :: 0 <= m < k ==> r[m] == Moved(bs[m], ox, oy)
      invariant forall m :: k <= m < |bs| ==> r[m] == bs[m]
    {
      r := r[k := Moved(r[k], ox, oy)];
    }
  }

  /** The trail passes AS WRITTEN: two passes that both subtract a tenth of the
      centroid's x, none that touches y. */
  function TrailRecenterAsWritten(trail: seq<Body>, c: Vec): (r: seq<Body>)
    ensures |r| == |trail|
    ensures forall k :: 0 <= k < |trail| ==> r[k] == Moved(trail[k], 0.2 * c.x, 0.0)
  {
    MovedAll(MovedAll(trail, 0.1 * c.x, 0.0), 0.1 * c.x, 0.0)
  }

  /** The recentering passes over one collection, as the entity passes are written
      and as the trail passes were evidently meant: a tenth of the centroid's x, then
      a tenth of its y. Together they move every body by a tenth of the centroid. */
  function Recentred(bs: seq<Body>, c: Vec): (r: seq<Body>)
    ensures |r| == |bs|
    ensures forall k :: 0 <= k < |bs| ==> r[k] == Moved(bs[k], 0.1 * c.x, 0.1 * c.y)
  {
    MovedAll(MovedAll(bs, 0.1 * c.x, 0.0), 0.0, 0.1 * c.y)
  }

  /** As written, recentering never moves a trail marker vertically and moves it
      twice as far horizontally as the bodies. */
  lemma TrailRecenterAsWrittenDrifts(trail: seq<Body>, c: Vec)
    ensures var t := TrailRecenterAsWritten(trail, c);
            |t| == |trail| &&
            forall k :: 0 <= k < |trail| ==> t[k].y == trail[k].y && t[k].x == trail[k].x - 0.2 * c.x
  {
  }

  /** A concrete case: a body and the marker it just left at the same point, with
      centroid (10, 10). As written the body lands on (-1, -1) and its marker on
      (-2, 0), so the trail no longer starts where the body was. */
  lemma TrailRecenterAsWrittenCounterexample()
    ensures var b := Body(1.0, 0.0, 0.0, 0.0, 0.0, Icon(SunGlyph, Red));
            var c := Vec(10.0, 10.0);
            var e := Recentred([b], c)[0];
            var m := TrailRecenterAsWritten([GetTrail(b)], c)[0];
            e.x == -1.0 && e.y == -1.0 && m.x == -2.0 && m.y == 0.0
  {
  }

  /** The intended recentering moves bodies and trail markers by the same vector, so
      every marker keeps its offset from every body. */
  lemma RecenterKeepsOffsets(entities: seq<Body>, trail: seq<Body>, c: Vec)
    ensures var es, ts := Recentred(entities, c), Recentred(trail, c);
            |es| == |entities| && |ts| == |trail| &&
            forall a, b :: 0 <= a < |entities| && 0 <= b < |trail| ==>
              es[a].x - ts[b].x == entities[a].x - trail[b].x &&
              es[a].y - ts[b].y == entities[a].y - trail[b].y
  {
  }
}
