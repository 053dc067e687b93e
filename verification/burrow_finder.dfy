/** The list and point bookkeeping of `BurrowFinder` in
    mousetracking/burrow_finder.py. The image processing that produces
    contours, bounding rectangles and region sizes is not modelled: those
    arrive here as inputs. */
module BurrowFinder {
  import opened Wrappers
  import opened Burrows

  /** A bounding rectangle `(x, y, width, height)` in frame coordinates. */
  datatype Rect = Rect(x: int, y: int, w: int, h: int)

  /** A point with real coordinates, as the ground profile holds them. */
  datatype RealPoint = RealPoint(x: real, y: real)

  // ---------------------------------------------------------------------------
  // refine_burrow_outline
  // ---------------------------------------------------------------------------

  /** Reference definition: the points of `outline` whose flag is set, in
      order. */
  function Kept<T>(outline: seq<T>, free: seq<bool>): seq<T>
    requires |free| >= |outline|
  {
    if |outline| == 0 then []
    else
      var n := |outline| - 1;
      Kept(outline[..n], free) + (if free[n] then [outline[n]] else [])
  }

  /** The number of set flags among the first `n`. */
  function CountSet(free: seq<bool>, n: nat): nat
    requires n <= |free|
  {
    if n == 0 then 0 else CountSet(free, n - 1) + (if free[n - 1] then 1 else 0)
  }

  /** The indices below `n` whose flag is set, in increasing order. */
  function SetIndices(free: seq<bool>, n: nat): (r: seq<nat>)
    requires n <= |free|
    ensures forall j :: 0 <= j < |r| ==> r[j] < n && free[r[j]]
    ensures forall j, l :: 0 <= j < l < |r| ==> r[j] < r[l]
    ensures forall k :: 0 <= k < n && free[k] ==> k in r
  {
    if n == 0 then [] else SetIndices(free, n - 1) + (if free[n - 1] then [n - 1] else [])
  }

  /** `refine_burrow_outline`: the list comprehension over
      `enumerate(burrow.outline)` that keeps the points whose entry of
      `free_points` is true. A flag list shorter than the outline is an
      `IndexError`; extra flags are never read. */
  method RefineBurrowOutline(outline: seq<Point>, free: seq<bool>)
    returns (r: Result<seq<Point>, PyException>)
    ensures |free| < |outline| ==> r == Failure(IndexError)
    ensures |free| >= |outline| ==> r.Success? && r.value == Kept(outline, free)
  {
    if |free| < |outline| {
      return Failure(IndexError);
    }
    var points: seq<Point> := [];
    var k := 0;
    while k < |outline|
      invariant 0 <= k <= |outline|
      invariant points == Kept(outline[..k], free)
    {
      assert outline[..k + 1][..k] == outline[..k];
      if free[k] {
        points := points + [outline[k]];
      }
      k := k + 1;
    }
    assert outline[..k] == outline;
    return Success(points);
  }

  /** The kept points are exactly the outline points at the set indices, in
      the original order. */
  lemma {:induction false} KeptAtSetIndices<T>(outline: seq<T>, free: seq<bool>)
    requires |free| >= |outline|
    ensures var idx := SetIndices(free, |outline|);
      && |Kept(outline, free)| == |idx|
      && forall j :: 0 <= j < |idx| ==> Kept(outline, free)[j] == outline[idx[j]]
    decreases |outline|
  {
    if |outline| > 0 {
      var n := |outline| - 1;
      KeptAtSetIndices(outline[..n], free);
    }
  }

  /** As many points survive as there are set flags. */
  lemma {:induction false} KeptLength<T>(outline: seq<T>, free: seq<bool>)
    requires |free| >= |outline|
    ensures |Kept(outline, free)| == CountSet(free, |outline|)
    decreases |outline|
  {
    if |outline| > 0 {
      KeptLength(outline[..|outline| - 1], free);
    }
  }

  /** With every flag set the outline comes back unchanged. */
  lemma {:induction false} KeptAllFree<T>(outline: seq<T>, free: seq<bool>)
    requires |free| >= |outline|
    requires forall k :: 0 <= k < |outline| ==> free[k]
    ensures Kept(outline, free) == outline
    decreases |outline|
  {
    if |outline| > 0 {
      var n := |outline| - 1;
      KeptAllFree(outline[..n], free);
      assert outline[..n] + [outline[n]] == outline;
    }
  }

  /** With no flag set nothing survives. */
  lemma {:induction false} KeptNoneFree<T>(outline: seq<T>, free: seq<bool>)
    requires |free| >= |outline|
    requires forall k :: 0 <= k < |outline| ==> !free[k]
    ensures Kept(outline, free) == []
    decreases |outline|
  {
    if |outline| > 0 {
      KeptNoneFree(outline[..|outline| - 1], free);
    }
  }

  // ---------------------------------------------------------------------------
  // The free-point rule
  // ---------------------------------------------------------------------------

  /** A point on the border that lies one pixel inside the region of
      interest of width `roiW` and height `roiH`. */
  predicate OnInsetBorder(p: Point, roiW: int, roiH: int) {
    p.x == 1 || p.y == 1 || p.x == roiW - 2 || p.y == roiH - 2
  }

  /** The flags of `find_burrows`: start with every point free, then clear
      the flag of each point on the inset border. */
  method FreePoints(points: seq<Point>, roiW: int, roiH: int) returns (free: seq<bool>)
    ensures |free| == |points|
    ensures forall k :: 0 <= k < |points| ==> (free[k] <==> !OnInsetBorder(points[k], roiW, roiH))
  {
    free := seq(|points|, _ => true);
    var k := 0;
    while k < |points|
      invariant 0 <= k <= |points|
      invariant |free| == |points|
      invariant forall j :: 0 <= j < k ==> (free[j] <==> !OnInsetBorder(points[j], roiW, roiH))
      invariant forall j :: k <= j < |points| ==> free[j]
    {
      var p := points[k];
      if p.x == 1 || p.y == 1 || p.x == roiW - 2 || p.y == roiH - 2 {
        free := free[k := false];
      }
      k := k + 1;
    }
  }

  /** Reference definition: the points off the inset border, in order. */
  function OffBorder(points: seq<Point>, roiW: int, roiH: int): seq<Point> {
    if |points| == 0 then []
    else
      var n := |points| - 1;
      OffBorder(points[..n], roiW, roiH) +
        (if OnInsetBorder(points[n], roiW, roiH) then [] else [points[n]])
  }

  /** Filtering by the free-point flags keeps exactly the points off the
      inset border. */
  lemma {:induction false} KeptFreeIsOffBorder(points: seq<Point>, free: seq<bool>, roiW: int, roiH: int)
    requires |free| >= |points|
    requires forall k :: 0 <= k < |points| ==> (free[k] <==> !OnInsetBorder(points[k], roiW, roiH))
    ensures Kept(points, free) == OffBorder(points, roiW, roiH)
    decreases |points|
  {
    if |points| > 0 {
      KeptFreeIsOffBorder(points[..|points| - 1], free, roiW, roiH);
    }
  }

  /** Every point that survives is off the inset border and comes from the
      input; every input point off the border survives. */
  lemma {:induction false} OffBorderMembers(points: seq<Point>, roiW: int, roiH: int)
    ensures forall p :: p in OffBorder(points, roiW, roiH) <==>
      p in points && !OnInsetBorder(p, roiW, roiH)
    decreases |points|
  {
    if |points| > 0 {
      var n := |points| - 1;
      OffBorderMembers(points[..n], roiW, roiH);
      assert points == points[..n] + [points[n]];
    }
  }

  // ---------------------------------------------------------------------------
  // Region and frame coordinates
  // ---------------------------------------------------------------------------

  /** Line 90: a contour shifted into the coordinates of its bounding
      rectangle. The program does not read the shifted contour again: the
      outline it shifts back at lines 119-120 is a different contour, the
      one found in the region at lines 94-106. The round trip below states
      that the two shifts are inverse maps, not that any point makes both
      trips. */
  function ToRegion(points: seq<Point>, rect: Rect): (r: seq<Point>)
    ensures |r| == |points|
  {
    seq(|points|, i requires 0 <= i < |points| => Point(points[i].x - rect.x, points[i].y - rect.y))
  }

  /** Lines 119-120: an outline shifted from region back to frame
      coordinates. */
  function ToFrame(points: seq<Point>, rect: Rect): (r: seq<Point>)
    ensures |r| == |points|
  {
    seq(|points|, i requires 0 <= i < |points| => Point(points[i].x + rect.x, points[i].y + rect.y))
  }

  /** The two translations undo each other. */
  lemma RegionFrameRoundTrip(points: seq<Point>, rect: Rect)
    ensures ToFrame(ToRegion(points, rect), rect) == points
    ensures ToRegion(ToFrame(points, rect), rect) == points
  {
  }

  // ---------------------------------------------------------------------------
  // One detected burrow
  // ---------------------------------------------------------------------------

  /** The input one contour brings from the image processing: its expanded
      bounding rectangle, the simplified outline found in that region (in
      region coordinates) and the region's width and height. */
  datatype Detection = Detection(rect: Rect, points: seq<Point>, roiW: int, roiH: int)

  /** The body of the loop over contours in `find_burrows` after the image
      processing: flag the border points, drop them, move the rest to frame
      coordinates and record the frame index. */
  method OutlineBurrow(d: Detection, frameId: int) returns (b: Burrow)
    ensures b.time == Some(frameId)
    ensures b.outline == ToFrame(OffBorder(d.points, d.roiW, d.roiH), d.rect)
    ensures forall p :: p in b.outline ==> exists q :: (q in d.points && !OnInsetBorder(q, d.roiW, d.roiH) &&
                                                         p == Point(q.x + d.rect.x, q.y + d.rect.y))
  {
    var free := FreePoints(d.points, d.roiW, d.roiH);
    var refined := RefineBurrowOutline(d.points, free);
    KeptFreeIsOffBorder(d.points, free, d.roiW, d.roiH);
    var kept := refined.value;
    OffBorderMembers(d.points, d.roiW, d.roiH);
    b := Burrow(ToFrame(kept, d.rect), Some(frameId));
    forall p | p in b.outline
      ensures exists q :: (q in d.points && !OnInsetBorder(q, d.roiW, d.roiH) &&
                           p == Point(q.x + d.rect.x, q.y + d.rect.y))
    {
      var i :| 0 <= i < |b.outline| && b.outline[i] == p;
      assert kept[i] in kept;
    }
  }

  /** `find_burrows` after the image processing: one burrow per contour, in
      contour order, each stamped with the frame index. */
  method FindBurrows(detections: seq<Detection>, frameId: int) returns (burrows: seq<Burrow>)
    ensures |burrows| == |detections|
    ensures forall i :: 0 <= i < |burrows| ==>
      burrows[i].time == Some(frameId) &&
      burrows[i].outline == ToFrame(OffBorder(detections[i].points, detections[i].roiW, detections[i].roiH),
                                    detections[i].rect)
  {
    burrows := [];
    var i := 0;
    while i < |detections|
      invariant 0 <= i <= |detections|
      invariant |burrows| == i
      invariant forall j :: 0 <= j < i ==>
        burrows[j].time == Some(frameId) &&
        burrows[j].outline == ToFrame(OffBorder(detections[j].points, detections[j].roiW, detections[j].roiH),
                                      detections[j].rect)
    {
      var b := OutlineBurrow(detections[i], frameId);
      burrows := burrows + [b];
      i := i + 1;
    }
  }

  // ---------------------------------------------------------------------------
  // Closing the ground profile
  // ---------------------------------------------------------------------------

  /** The cast of a float to numpy's integer type: truncation toward zero. */
  function TruncateToInt(x: real): (r: int)
    ensures x >= 0.0 ==> r as real <= x < r as real + 1.0
    ensures x < 0.0 ==> r as real - 1.0 < x <= r as real
  {
    if x >= 0.0 then x.Floor else -((-x).Floor)
  }

  function TruncatePoint(p: RealPoint): Point {
    Point(TruncateToInt(p.x), TruncateToInt(p.y))
  }

  /** The polygon below the ground profile in a frame of `width` by
      `height`: the profile (cast to integers) followed by the points
      `(width, last.y)`, `(width, height)`, `(0, height)` and
      `(0, first.y)`. The profile is an `(n, 2)` array; when it is empty the
      read of the fifth row from the end of a four-row array fails, an
      `IndexError`. */
  function GroundPolygon(profile: seq<RealPoint>, width: int, height: int)
    : (r: Result<seq<Point>, PyException>)
    ensures |profile| == 0 <==> r.Failure?
    ensures r.Failure? ==> r.error == IndexError
    ensures r.Success? ==> |r.value| == |profile| + 4
    ensures r.Success? ==> forall i :: 0 <= i < |profile| ==> r.value[i] == TruncatePoint(profile[i])
  {
    if |profile| == 0 then Failure(IndexError)
    else
      var body := seq(|profile|, i requires 0 <= i < |profile| => TruncatePoint(profile[i]));
      Success(body + [Point(width, body[|body| - 1].y), Point(width, height),
                      Point(0, height), Point(0, body[0].y)])
  }

  /** The four added corners close the profile along the right, bottom and
      left edges of the frame: every edge from the last profile point round
      to the first one is horizontal or vertical, and runs along the frame
      border where it is not a step of the profile. */
  lemma GroundPolygonClosesAlongFrame(profile: seq<RealPoint>, width: int, height: int)
    requires |profile| > 0
    ensures var poly := GroundPolygon(profile, width, height).value;
      var n := |profile|;
      && poly[n - 1].y == poly[n].y && poly[n].x == width
      && poly[n].x == poly[n + 1].x && poly[n + 1] == Point(width, height)
      && poly[n + 1].y == poly[n + 2].y && poly[n + 2] == Point(0, height)
      && poly[n + 2].x == poly[n + 3].x && poly[n + 3].x == 0
      && poly[n + 3].y == poly[0].y
  {
  }

  /** A profile whose coordinates are already whole numbers is copied into
      the polygon unchanged. */
  lemma GroundPolygonKeepsIntegralProfile(profile: seq<Point>, width: int, height: int)
    requires |profile| > 0
    ensures var asReal := seq(|profile|, i requires 0 <= i < |profile| =>
                                RealPoint(profile[i].x as real, profile[i].y as real));
      GroundPolygon(asReal, width, height).value[..|profile|] == profile
  {
    var asReal := seq(|profile|, i requires 0 <= i < |profile| =>
                        RealPoint(profile[i].x as real, profile[i].y as real));
    var poly := GroundPolygon(asReal, width, height).value;
    forall i | 0 <= i < |profile|
      ensures poly[i] == profile[i]
    {
      TruncateIntegral(profile[i].x);
      TruncateIntegral(profile[i].y);
    }
  }

  lemma TruncateIntegral(n: int)
    ensures TruncateToInt(n as real) == n
  {
  }
}
