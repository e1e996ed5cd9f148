/** Wire routing between component pins: L-shaped ("Manhattan") routes,
    straight routes, detours around rectangular obstacles, merging of
    collinear segments, star-shaped multi-pin nets, and the router's
    bookkeeping of obstacles and routes.

    Points are (x, y) pairs in millimetres; connection points come from
    `PinMapper.PinPoint`. */
module WireRouting {
  import opened Common
  import PinMapper
  import ComponentLayout

  type Coord = (real, real)

  datatype RouteStrategy = Manhattan | Direct | Optimized

  datatype SegmentType = Horizontal | Vertical | Junction

  /** Width of every segment the router creates. */
  const DefaultWidth: real := 0.15

  /** Clearance kept between a detour and the obstacle it avoids. */
  const Clearance: real := 2.54

  /** Offsets up to this size count as "the same coordinate". */
  const Tolerance: real := 0.1

  datatype WireSegment = WireSegment(start: Coord, end: Coord, segmentType: SegmentType, width: real)

  function Segment(start: Coord, end: Coord, t: SegmentType): WireSegment {
    WireSegment(start, end, t, DefaultWidth)
  }

  datatype WireRoute = WireRoute(netName: string, segments: seq<WireSegment>,
                                 connectedPins: seq<PinMapper.ComponentPin>, priority: int)
  {
    /** `start_point`: the first segment's start, or the origin without segments. */
    function StartPoint(): (p: Coord)
      ensures segments != [] ==> p == segments[0].start
      ensures segments == [] ==> p == (0.0, 0.0)
    {
      if segments != [] then segments[0].start else (0.0, 0.0)
    }

    /** `end_point`: the last segment's end, or the origin without segments. */
    function EndPoint(): (p: Coord)
      ensures segments != [] ==> p == segments[|segments| - 1].end
      ensures segments == [] ==> p == (0.0, 0.0)
    {
      if segments != [] then segments[|segments| - 1].end else (0.0, 0.0)
    }
  }

  /** An obstacle's bounds are (min_x, min_y, max_x, max_y). */
  datatype RoutingObstacle = RoutingObstacle(bounds: (real, real, real, real), obstacleType: string, reference: string)

  /** `intersects_segment`: the segment's bounding box and the obstacle's
      bounds share at least one point (edges included). */
  predicate IntersectsSegment(o: RoutingObstacle, s: WireSegment) {
    !(MaxReal(s.start.0, s.end.0) < o.bounds.0 || MinReal(s.start.0, s.end.0) > o.bounds.2
      || MaxReal(s.start.1, s.end.1) < o.bounds.1 || MinReal(s.start.1, s.end.1) > o.bounds.3)
  }

  /** The test is a closed-interval overlap on both axes: it holds exactly
      when some point of the segment's extent lies within the obstacle. */
  lemma IntersectsIffCommonPoint(o: RoutingObstacle, s: WireSegment)
    requires o.bounds.0 <= o.bounds.2 && o.bounds.1 <= o.bounds.3
    ensures IntersectsSegment(o, s) <==> exists x, y :: SharedPoint(o, s, x, y)
  {
    if IntersectsSegment(o, s) {
      var x := MaxReal(MinReal(s.start.0, s.end.0), o.bounds.0);
      var y := MaxReal(MinReal(s.start.1, s.end.1), o.bounds.1);
      assert SharedPoint(o, s, x, y);
    }
  }

  /** (x, y) lies in the segment's extent and within the obstacle. */
  predicate SharedPoint(o: RoutingObstacle, s: WireSegment, x: real, y: real) {
    MinReal(s.start.0, s.end.0) <= x <= MaxReal(s.start.0, s.end.0)
    && MinReal(s.start.1, s.end.1) <= y <= MaxReal(s.start.1, s.end.1)
    && o.bounds.0 <= x <= o.bounds.2 && o.bounds.1 <= y <= o.bounds.3
  }

  // ---------------------------------------------------------------------------
  // Chains of segments

  /** Each segment starts where the previous one ended, the first at `from`. */
  predicate Chained(segs: seq<WireSegment>, from: Coord) {
    (segs != [] ==> segs[0].start == from)
    && forall i :: 0 < i < |segs| ==> segs[i].start == segs[i - 1].end
  }

  /** Where a chain starting at `from` ends. */
  function ChainEnd(segs: seq<WireSegment>, from: Coord): Coord {
    if segs == [] then from else segs[|segs| - 1].end
  }

  lemma ChainAppend(a: seq<WireSegment>, b: seq<WireSegment>, from: Coord)
    ensures Chained(a + b, from) <==> Chained(a, from) && Chained(b, ChainEnd(a, from))
    ensures ChainEnd(a + b, from) == ChainEnd(b, ChainEnd(a, from))
  {
    var ab := a + b;
    if Chained(a, from) && Chained(b, ChainEnd(a, from)) {
      forall i | 0 < i < |ab|
        ensures ab[i].start == ab[i - 1].end
      {
        if i < |a| {
          assert ab[i] == a[i] && ab[i - 1] == a[i - 1];
        } else if i == |a| {
          assert ab[i] == b[0] && ab[i - 1] == a[|a| - 1];
        } else {
          assert ab[i] == b[i - |a|] && ab[i - 1] == b[i - |a| - 1];
        }
      }
      if a == [] {
        assert ab == b;
      }
    }
    if Chained(ab, from) {
      forall i | 0 < i < |a| ensures a[i].start == a[i - 1].end {
        assert ab[i] == a[i] && ab[i - 1] == a[i - 1];
      }
      forall i | 0 < i < |b| ensures b[i].start == b[i - 1].end {
        assert ab[|a| + i] == b[i] && ab[|a| + i - 1] == b[i - 1];
      }
      if b != [] && a != [] {
        assert ab[|a|] == b[0] && ab[|a| - 1] == a[|a| - 1];
      }
      if a == [] {
        assert ab == b;
      }
    }
    if b == [] {
      assert ab == a;
    }
  }

  // ---------------------------------------------------------------------------
  // Route shapes

  /** `_route_manhattan`: horizontal to the end's x (when the x offset is
      more than 0.1), then vertical to the end (when the y offset is). */
  function RouteManhattan(start: Coord, end: Coord): seq<WireSegment> {
    var mid := (end.0, start.1);
    if Abs(end.0 - start.0) > Tolerance then
      if Abs(end.1 - start.1) > Tolerance then
        [Segment(start, mid, Horizontal), Segment(mid, end, Vertical)]
      else [Segment(start, mid, Horizontal)]
    else if Abs(end.1 - start.1) > Tolerance then [Segment(start, end, Vertical)]
    else []
  }

  /** The four outcomes of Manhattan routing, decided by the two offsets. */
  lemma ManhattanCases(start: Coord, end: Coord)
    ensures var r := RouteManhattan(start, end);
      var dx, dy := Abs(end.0 - start.0), Abs(end.1 - start.1);
      && (dx <= Tolerance && dy <= Tolerance ==> r == [])
      && (dx <= Tolerance && dy > Tolerance ==> r == [Segment(start, end, Vertical)])
      && (dx > Tolerance && dy <= Tolerance ==> r == [Segment(start, (end.0, start.1), Horizontal)])
      && (dx > Tolerance && dy > Tolerance ==>
            r == [Segment(start, (end.0, start.1), Horizontal), Segment((end.0, start.1), end, Vertical)])
  {
  }

  /** A Manhattan route is a chain from the start; it ends at the end point
      unless it leaves out a vertical offset of at most 0.1. */
  lemma ManhattanIsChain(start: Coord, end: Coord)
    ensures Chained(RouteManhattan(start, end), start)
    ensures var e := ChainEnd(RouteManhattan(start, end), start);
      e.1 == start.1 || e == end
    ensures Abs(end.1 - start.1) > Tolerance ==> ChainEnd(RouteManhattan(start, end), start) == end
    ensures |RouteManhattan(start, end)| <= 2
  {
  }

  /** `_route_direct`: one straight segment, classified horizontal. */
  function RouteDirect(start: Coord, end: Coord): (r: seq<WireSegment>)
    ensures Chained(r, start) && ChainEnd(r, start) == end && |r| == 1
  {
    [Segment(start, end, Horizontal)]
  }

  /** `_create_detour`: a horizontal segment is replaced by a vertical step
      to a line 2.54 above the obstacle (when it starts above its top) or
      below it, a horizontal run there, and a vertical step back; any other
      segment likewise by a run left or right of the obstacle. */
  function CreateDetour(s: WireSegment, o: RoutingObstacle): seq<WireSegment> {
    var (minX, minY, maxX, maxY) := o.bounds;
    var (sx, sy) := s.start;
    var (ex, ey) := s.end;
    if s.segmentType == Horizontal then
      var dy := if sy < minY then minY - Clearance else maxY + Clearance;
      [Segment((sx, sy), (sx, dy), Vertical), Segment((sx, dy), (ex, dy), Horizontal), Segment((ex, dy), (ex, ey), Vertical)]
    else
      var dx := if sx < minX then minX - Clearance else maxX + Clearance;
      [Segment((sx, sy), (dx, sy), Horizontal), Segment((dx, sy), (dx, ey), Vertical), Segment((dx, ey), (ex, ey), Horizontal)]
  }

  /** A detour is three chained segments from the segment's start to its
      end, whose middle run lies 2.54 outside the obstacle's bounds. */
  lemma DetourShape(s: WireSegment, o: RoutingObstacle)
    ensures var d := CreateDetour(s, o);
      |d| == 3 && Chained(d, s.start) && ChainEnd(d, s.start) == s.end
    ensures var d := CreateDetour(s, o);
      s.segmentType == Horizontal ==>
        d[1].start.1 == d[1].end.1 && (d[1].start.1 == o.bounds.1 - Clearance || d[1].start.1 == o.bounds.3 + Clearance)
    ensures var d := CreateDetour(s, o);
      s.segmentType != Horizontal ==>
        d[1].start.0 == d[1].end.0 && (d[1].start.0 == o.bounds.0 - Clearance || d[1].start.0 == o.bounds.2 + Clearance)
  {
  }

  /** The replacement of one segment when avoiding an obstacle. */
  function AvoidOne(s: WireSegment, o: RoutingObstacle): seq<WireSegment> {
    if IntersectsSegment(o, s) then CreateDetour(s, o) else [s]
  }

  /** `_avoid_obstacle` as a function: every intersecting segment is replaced by its detour. */
  function AvoidObstacleSpec(segs: seq<WireSegment>, o: RoutingObstacle): seq<WireSegment> {
    if segs == [] then [] else AvoidObstacleSpec(segs[..|segs| - 1], o) + AvoidOne(segs[|segs| - 1], o)
  }

  /** Avoiding an obstacle keeps a chain a chain, with the same ends. */
  lemma {:induction false} AvoidKeepsChain(segs: seq<WireSegment>, o: RoutingObstacle, from: Coord)
    requires Chained(segs, from)
    ensures Chained(AvoidObstacleSpec(segs, o), from)
    ensures ChainEnd(AvoidObstacleSpec(segs, o), from) == ChainEnd(segs, from)
  {
    if segs != [] {
      var init, last := segs[..|segs| - 1], segs[|segs| - 1];
      assert segs == init + [last];
      ChainAppend(init, [last], from);
      AvoidKeepsChain(init, o, from);
      assert [last][0] == last;
      if IntersectsSegment(o, last) {
        DetourShape(last, o);
      }
      ChainAppend(AvoidObstacleSpec(init, o), AvoidOne(last, o), from);
    }
  }

  /** Each obstacle in turn applied to the route. */
  function AvoidAll(segs: seq<WireSegment>, obstacles: seq<RoutingObstacle>): seq<WireSegment> {
    if obstacles == [] then segs
    else AvoidObstacleSpec(AvoidAll(segs, obstacles[..|obstacles| - 1]), obstacles[|obstacles| - 1])
  }

  lemma {:induction false} AvoidAllKeepsChain(segs: seq<WireSegment>, obstacles: seq<RoutingObstacle>, from: Coord)
    requires Chained(segs, from)
    ensures Chained(AvoidAll(segs, obstacles), from)
    ensures ChainEnd(AvoidAll(segs, obstacles), from) == ChainEnd(segs, from)
  {
    if obstacles != [] {
      AvoidAllKeepsChain(segs, obstacles[..|obstacles| - 1], from);
      AvoidKeepsChain(AvoidAll(segs, obstacles[..|obstacles| - 1]), obstacles[|obstacles| - 1], from);
    }
  }

  /** Segments for a strategy; the optimized one avoids every obstacle. */
  function RouteSegments(strategy: RouteStrategy, obstacles: seq<RoutingObstacle>, start: Coord, end: Coord): seq<WireSegment> {
    match strategy
    case Manhattan => RouteManhattan(start, end)
    case Direct => RouteDirect(start, end)
    case Optimized => AvoidAll(RouteManhattan(start, end), obstacles)
  }

  /** Every strategy yields a chain starting at the start point and ending
      where the Manhattan route (or, for a direct route, the end point) does. */
  lemma RouteSegmentsChained(strategy: RouteStrategy, obstacles: seq<RoutingObstacle>, start: Coord, end: Coord)
    ensures Chained(RouteSegments(strategy, obstacles, start, end), start)
    ensures strategy != Direct ==>
      ChainEnd(RouteSegments(strategy, obstacles, start, end), start) == ChainEnd(RouteManhattan(start, end), start)
  {
    ManhattanIsChain(start, end);
    if strategy == Optimized {
      AvoidAllKeepsChain(RouteManhattan(start, end), obstacles, start);
    }
  }

  /** `_avoid_obstacle`. */
  method AvoidObstacle(segs: seq<WireSegment>, o: RoutingObstacle) returns (r: seq<WireSegment>)
    ensures r == AvoidObstacleSpec(segs, o)
    ensures forall from :: Chained(segs, from) ==> Chained(r, from) && ChainEnd(r, from) == ChainEnd(segs, from)
  {
    r := [];
    var i := 0;
    while i < |segs|
      invariant 0 <= i <= |segs|
      invariant r == AvoidObstacleSpec(segs[..i], o)
    {
      assert segs[..i + 1][..i] == segs[..i];
      if IntersectsSegment(o, segs[i]) {
        r := r + CreateDetour(segs[i], o);
      } else {
        r := r + [segs[i]];
      }
      i := i + 1;
    }
    assert segs[..i] == segs;
    forall from | Chained(segs, from)
      ensures Chained(r, from) && ChainEnd(r, from) == ChainEnd(segs, from)
    {
      AvoidKeepsChain(segs, o, from);
    }
  }

  /** `_route_optimized`: the Manhattan route, then each obstacle avoided in turn. */
  method RouteOptimized(obstacles: seq<RoutingObstacle>, start: Coord, end: Coord) returns (segments: seq<WireSegment>)
    ensures segments == AvoidAll(RouteManhattan(start, end), obstacles)
    ensures Chained(segments, start) && ChainEnd(segments, start) == ChainEnd(RouteManhattan(start, end), start)
  {
    segments := RouteManhattan(start, end);
    var k := 0;
    while k < |obstacles|
      invariant 0 <= k <= |obstacles|
      invariant segments == AvoidAll(RouteManhattan(start, end), obstacles[..k])
    {
      assert obstacles[..k + 1][..k] == obstacles[..k];
      segments := AvoidObstacle(segments, obstacles[k]);
      k := k + 1;
    }
    assert obstacles[..k] == obstacles;
    RouteSegmentsChained(Optimized, obstacles, start, end);
  }

  // ---------------------------------------------------------------------------
  // Merging collinear segments

  /** `_try_merge_segments`. */
  function TryMerge(a: WireSegment, b: WireSegment): Option<WireSegment> {
    if a.end != b.start then None
    else if a.segmentType != b.segmentType then None
    else if a.segmentType == Horizontal then
      if Abs(a.start.1 - b.end.1) < Tolerance then Some(Segment(a.start, b.end, Horizontal)) else None
    else if a.segmentType == Vertical && Abs(a.start.0 - b.end.0) < Tolerance then
      Some(Segment(a.start, b.end, Vertical))
    else None
  }

  /** Two segments merge exactly when they meet, have the same horizontal or
      vertical type, and are collinear within 0.1; the merged segment spans
      from the first's start to the second's end. */
  lemma TryMergeIff(a: WireSegment, b: WireSegment)
    ensures TryMerge(a, b).Some? <==>
      a.end == b.start && a.segmentType == b.segmentType
      && ((a.segmentType == Horizontal && Abs(a.start.1 - b.end.1) < Tolerance)
          || (a.segmentType == Vertical && Abs(a.start.0 - b.end.0) < Tolerance))
    ensures TryMerge(a, b).Some? ==> TryMerge(a, b).value == Segment(a.start, b.end, a.segmentType)
  {
  }

  /** The left-to-right merge pass of `_optimize_route_segments`, from index `i`. */
  function MergeFrom(segs: seq<WireSegment>, i: nat): seq<WireSegment>
    decreases |segs| - i
  {
    if i >= |segs| then []
    else if i + 1 < |segs| && TryMerge(segs[i], segs[i + 1]).Some? then
      [TryMerge(segs[i], segs[i + 1]).value] + MergeFrom(segs, i + 2)
    else [segs[i]] + MergeFrom(segs, i + 1)
  }

  /** Each merge removes one segment and no pair is merged twice, so the
      result keeps between half (rounded up) and all of the segments. */
  lemma {:induction false} MergeFromLength(segs: seq<WireSegment>, i: nat)
    requires i <= |segs|
    ensures |MergeFrom(segs, i)| <= |segs| - i <= 2 * |MergeFrom(segs, i)|
    decreases |segs| - i
  {
    if i < |segs| {
      if i + 1 < |segs| && TryMerge(segs[i], segs[i + 1]).Some? {
        MergeFromLength(segs, i + 2);
      } else {
        MergeFromLength(segs, i + 1);
      }
    }
  }

  /** Merging keeps a chain a chain with the same ends. */
  lemma {:induction false} MergeFromKeepsChain(segs: seq<WireSegment>, i: nat, from: Coord)
    requires i <= |segs| && Chained(segs[i..], from)
    ensures Chained(MergeFrom(segs, i), from)
    ensures ChainEnd(MergeFrom(segs, i), from) == ChainEnd(segs[i..], from)
    decreases |segs| - i
  {
    if i < |segs| {
      var rest := segs[i..];
      assert rest[0] == segs[i];
      if i + 1 < |segs| && TryMerge(segs[i], segs[i + 1]).Some? {
        assert rest == [segs[i], segs[i + 1]] + segs[i + 2..];
        ChainAppend([segs[i], segs[i + 1]], segs[i + 2..], from);
        MergeFromKeepsChain(segs, i + 2, segs[i + 1].end);
        ChainAppend([TryMerge(segs[i], segs[i + 1]).value], MergeFrom(segs, i + 2), from);
      } else {
        assert rest == [segs[i]] + segs[i + 1..];
        ChainAppend([segs[i]], segs[i + 1..], from);
        MergeFromKeepsChain(segs, i + 1, segs[i].end);
        ChainAppend([segs[i]], MergeFrom(segs, i + 1), from);
      }
    }
  }

  /** `_optimize_route_segments`. */
  method OptimizeRouteSegments(segs: seq<WireSegment>) returns (r: seq<WireSegment>)
    ensures r == MergeFrom(segs, 0)
    ensures |r| <= |segs| <= 2 * |r|
    ensures forall from :: Chained(segs, from) ==> Chained(r, from) && ChainEnd(r, from) == ChainEnd(segs, from)
  {
    MergeFromLength(segs, 0);
    MergeKeepsChains(segs);
    if |segs| <= 1 {
      return segs;
    }
    r := MergePass(segs);
  }

  /** The whole merge pass keeps every chain of `segs`. */
  lemma MergeKeepsChains(segs: seq<WireSegment>)
    ensures forall from :: Chained(segs, from) ==> Chained(MergeFrom(segs, 0), from) && ChainEnd(MergeFrom(segs, 0), from) == ChainEnd(segs, from)
  {
    forall from | Chained(segs, from)
      ensures Chained(MergeFrom(segs, 0), from) && ChainEnd(MergeFrom(segs, 0), from) == ChainEnd(segs, from)
    {
      assert segs[0..] == segs;
      MergeFromKeepsChain(segs, 0, from);
    }
  }

  /** The loop of `_optimize_route_segments`. */
  method MergePass(segs: seq<WireSegment>) returns (r: seq<WireSegment>)
    ensures r == MergeFrom(segs, 0)
  {
    r := [];
    var i := 0;
    while i < |segs|
      invariant 0 <= i <= |segs| + 1
      invariant r + MergeFrom(segs, i) == MergeFrom(segs, 0)
      decreases |segs| - i
    {
      var current := segs[i];
      if i + 1 < |segs| {
        var merged := TryMerge(current, segs[i + 1]);
        if merged.Some? {
          r := r + [merged.value];
          i := i + 2;
          continue;
        }
      }
      r := r + [current];
      i := i + 1;
    }
  }

  /** A route with its collinear segments merged. */
  function Merged(r: WireRoute): (m: WireRoute)
    ensures m.priority == r.priority && m.netName == r.netName && m.connectedPins == r.connectedPins
    ensures |m.segments| <= |r.segments| <= 2 * |m.segments|
  {
    MergeFromLength(r.segments, 0);
    r.(segments := MergeFrom(r.segments, 0))
  }

  /** The loop of `optimize_routes` over the sorted routes. */
  method OptimizeEach(sorted: seq<WireRoute>) returns (out: seq<WireRoute>)
    ensures |out| == |sorted|
    ensures forall k :: 0 <= k < |sorted| ==> out[k] == Merged(sorted[k])
  {
    out := [];
    var i := 0;
    while i < |sorted|
      invariant 0 <= i <= |sorted| && |out| == i
      invariant forall k :: 0 <= k < i ==> out[k] == Merged(sorted[k])
    {
      var segs := OptimizeRouteSegments(sorted[i].segments);
      out := out + [sorted[i].(segments := segs)];
      i := i + 1;
    }
  }

  /** Two collinear horizontal segments meeting at (10, 10) merge into one. */
  lemma MergeCollinearExample()
    ensures MergeFrom([Segment((0.0, 10.0), (10.0, 10.0), Horizontal), Segment((10.0, 10.0), (20.0, 10.0), Horizontal)], 0)
         == [Segment((0.0, 10.0), (20.0, 10.0), Horizontal)]
  {
  }

  // ---------------------------------------------------------------------------
  // Ordering by priority

  /** Insert `r` after every route of at least its priority (a stable step). */
  function InsertByPriority(sorted: seq<WireRoute>, r: WireRoute): (out: seq<WireRoute>)
    ensures |out| == |sorted| + 1
    ensures multiset(out) == multiset(sorted) + multiset{r}
  {
    if sorted == [] then [r]
    else if sorted[0].priority < r.priority then [r] + sorted
    else
      assert sorted == [sorted[0]] + sorted[1..];
      [sorted[0]] + InsertByPriority(sorted[1..], r)
  }

  /** Python's stable `sort(key=priority, reverse=True)`. */
  function SortByPriority(routes: seq<WireRoute>): (out: seq<WireRoute>)
    ensures |out| == |routes|
  {
    if routes == [] then []
    else InsertByPriority(SortByPriority(routes[..|routes| - 1]), routes[|routes| - 1])
  }

  predicate DescendingPriority(rs: seq<WireRoute>) {
    forall i, j :: 0 <= i < j < |rs| ==> rs[i].priority >= rs[j].priority
  }

  predicate AllAtMost(rs: seq<WireRoute>, p: int) {
    forall k :: 0 <= k < |rs| ==> rs[k].priority <= p
  }

  lemma {:induction false} InsertKeepsBound(sorted: seq<WireRoute>, r: WireRoute, p: int)
    requires AllAtMost(sorted, p) && r.priority <= p
    ensures AllAtMost(InsertByPriority(sorted, r), p)
  {
    if sorted != [] && sorted[0].priority >= r.priority {
      InsertKeepsBound(sorted[1..], r, p);
    }
  }

  lemma {:induction false} InsertKeepsDescending(sorted: seq<WireRoute>, r: WireRoute)
    requires DescendingPriority(sorted)
    ensures DescendingPriority(InsertByPriority(sorted, r))
  {
    if sorted != [] && sorted[0].priority >= r.priority {
      var tail := InsertByPriority(sorted[1..], r);
      InsertKeepsDescending(sorted[1..], r);
      InsertKeepsBound(sorted[1..], r, sorted[0].priority);
      assert InsertByPriority(sorted, r) == [sorted[0]] + tail;
    } else if sorted != [] {
      InsertKeepsBound(sorted, r, r.priority);
      assert InsertByPriority(sorted, r) == [r] + sorted;
    }
  }

  /** `optimize_routes` orders the routes by descending priority and neither
      adds nor removes any. */
  lemma SortByPriorityIsOrderedPermutation(routes: seq<WireRoute>)
    ensures DescendingPriority(SortByPriority(routes))
    ensures multiset(SortByPriority(routes)) == multiset(routes)
  {
    SortByPriorityIsOrdered(routes);
    SortByPriorityIsPermutation(routes);
  }

  lemma {:induction false} SortByPriorityIsOrdered(routes: seq<WireRoute>)
    ensures DescendingPriority(SortByPriority(routes))
  {
    if routes != [] {
      var init := routes[..|routes| - 1];
      var sorted := SortByPriority(init);
      SortByPriorityIsOrdered(init);
      InsertKeepsDescending(sorted, routes[|routes| - 1]);
    }
  }

  lemma {:induction false} SortByPriorityIsPermutation(routes: seq<WireRoute>)
    ensures multiset(SortByPriority(routes)) == multiset(routes)
  {
    if routes != [] {
      var init := routes[..|routes| - 1];
      var last := routes[|routes| - 1];
      SortByPriorityIsPermutation(init);
      assert routes == init + [last];
      assert multiset(routes) == multiset(init) + multiset{last};
    }
  }

  // ---------------------------------------------------------------------------
  // Statistics

  datatype RoutingStatistics =
    | NoRoutes
    | RoutingStatistics(totalRoutes: nat, totalSegments: nat, routesByPriority: Dict<int, nat>)

  function CountOf(d: Dict<int, nat>, k: int): nat {
    match Lookup(d, k)
    case Some(n) => n
    case None => 0
  }

  /** `_get_priority_distribution` as a function: routes counted per priority. */
  function Distribution(routes: seq<WireRoute>): Dict<int, nat> {
    if routes == [] then []
    else
      var d := Distribution(routes[..|routes| - 1]);
      var p := routes[|routes| - 1].priority;
      Put<int, nat>(d, p, CountOf(d, p) + 1)
  }

  function SumCounts(d: Dict<int, nat>): nat {
    if d == [] then 0 else d[0].1 + SumCounts(d[1..])
  }

  lemma {:induction false} SumCountsPut(d: Dict<int, nat>, k: int, v: nat)
    requires Distinct(Keys(d))
    ensures SumCounts(Put(d, k, v)) + CountOf(d, k) == SumCounts(d) + v
  {
    if d != [] && d[0].0 != k {
      assert Keys(d[1..]) == Keys(d)[1..];
      SumCountsPut(d[1..], k, v);
    } else if d != [] {
      assert Put(d, k, v)[1..] == d[1..];
    }
  }

  /** Every route is counted under exactly one priority: the counts add up
      to the number of routes, and no priority appears twice. */
  lemma {:induction false} DistributionSums(routes: seq<WireRoute>)
    ensures Distinct(Keys(Distribution(routes)))
    ensures SumCounts(Distribution(routes)) == |routes|
  {
    if routes != [] {
      var init := routes[..|routes| - 1];
      var d := Distribution(init);
      var p := routes[|routes| - 1].priority;
      var v: nat := CountOf(d, p) + 1;
      assert Distribution(routes) == Put<int, nat>(d, p, v);
      DistributionSums(init);
      PutKeepsDistinctKeys<int, nat>(d, p, v);
      SumCountsPut(d, p, v);
    }
  }

  /** `_get_priority_distribution`. */
  method PriorityDistribution(routes: seq<WireRoute>) returns (d: Dict<int, nat>)
    ensures d == Distribution(routes)
    ensures SumCounts(d) == |routes|
  {
    d := [];
    var i := 0;
    while i < |routes|
      invariant 0 <= i <= |routes|
      invariant d == Distribution(routes[..i])
    {
      assert routes[..i + 1][..i] == routes[..i];
      var p := routes[i].priority;
      d := Put<int, nat>(d, p, CountOf(d, p) + 1);
      i := i + 1;
    }
    assert routes[..i] == routes;
    DistributionSums(routes);
  }

  function SegmentCount(routes: seq<WireRoute>): nat {
    if routes == [] then 0 else SegmentCount(routes[..|routes| - 1]) + |routes[|routes| - 1].segments|
  }

  // ---------------------------------------------------------------------------
  // The router

  /** The route `route_connection` makes from `hub` to `pin`: the net, the
      priority, the two pins, and the strategy's chain between their
      connection points. */
  predicate StarRoute(route: WireRoute, hub: PinMapper.ComponentPin, pin: PinMapper.ComponentPin, netName: string,
                   strategy: RouteStrategy, obstacles: seq<RoutingObstacle>, priority: int)
  {
    && route.connectedPins == [hub, pin] && route.netName == netName && route.priority == priority
    && route.segments == RouteSegments(strategy, obstacles, PinMapper.PinPoint(hub), PinMapper.PinPoint(pin))
    && Chained(route.segments, PinMapper.PinPoint(hub))
  }

  class WireRouter {
    const bounds: ComponentLayout.SchematicBounds
    const gridSpacing: real := 2.54
    const minWireSpacing: real := 2.54
    var obstacles: seq<RoutingObstacle>
    var routes: seq<WireRoute>

    constructor (b: ComponentLayout.SchematicBounds)
      ensures bounds == b && obstacles == [] && routes == []
      ensures gridSpacing == 2.54 && minWireSpacing == 2.54
    {
      bounds := b;
      obstacles := [];
      routes := [];
    }

    method AddObstacle(o: RoutingObstacle)
      modifies this
      ensures obstacles == old(obstacles) + [o] && routes == old(routes)
    {
      obstacles := obstacles + [o];
    }

    method ClearObstacles()
      modifies this
      ensures obstacles == [] && routes == old(routes)
    {
      obstacles := [];
    }

    method ClearRoutes()
      modifies this
      ensures routes == [] && obstacles == old(obstacles)
    {
      routes := [];
    }

    /** `route_connection`: one new route between the two pins' connection
        points, appended to the router's routes. */
    method RouteConnection(pin1: PinMapper.ComponentPin, pin2: PinMapper.ComponentPin, netName: string,
                           strategy: RouteStrategy, priority: int) returns (route: WireRoute)
      modifies this
      ensures route.netName == netName && route.priority == priority
      ensures route.connectedPins == [pin1, pin2]
      ensures route.segments == RouteSegments(strategy, obstacles, PinMapper.PinPoint(pin1), PinMapper.PinPoint(pin2))
      ensures Chained(route.segments, PinMapper.PinPoint(pin1))
      ensures routes == old(routes) + [route] && obstacles == old(obstacles)
    {
      var start := PinMapper.PinPoint(pin1);
      var end := PinMapper.PinPoint(pin2);
      var segments;
      match strategy {
        case Manhattan =>
          segments := RouteManhattan(start, end);
        case Direct =>
          segments := RouteDirect(start, end);
        case Optimized =>
          segments := RouteOptimized(obstacles, start, end);
      }
      RouteSegmentsChained(strategy, obstacles, start, end);
      route := WireRoute(netName, segments, [pin1, pin2], priority);
      routes := routes + [route];
    }

    /** `route_multi_point_net`: a star from the first pin to every other
        pin, one route each; nothing for fewer than two pins. */
    method RouteMultiPointNet(pins: seq<PinMapper.ComponentPin>, netName: string, strategy: RouteStrategy, priority: int)
      returns (rs: seq<WireRoute>)
      modifies this
      ensures |pins| < 2 ==> rs == []
      ensures |pins| >= 2 ==> |rs| == |pins| - 1
      ensures forall i :: 0 <= i < |rs| ==> StarRoute(rs[i], pins[0], pins[i + 1], netName, strategy, old(obstacles), priority)
      ensures routes == old(routes) + rs && obstacles == old(obstacles)
    {
      if |pins| < 2 {
        return [];
      }
      rs := [];
      var i := 1;
      while i < |pins|
        invariant 1 <= i <= |pins| && |rs| == i - 1
        invariant forall k :: 0 <= k < |rs| ==> StarRoute(rs[k], pins[0], pins[k + 1], netName, strategy, old(obstacles), priority)
        invariant routes == old(routes) + rs && obstacles == old(obstacles)
      {
        var route := RouteConnection(pins[0], pins[i], netName, strategy, priority);
        rs := rs + [route];
        i := i + 1;
      }
    }

    /** `snap_to_grid` on the 2.54 mm routing grid. */
    function SnapToGrid(p: Coord): (r: Coord)
      reads this
    {
      (Round(p.0 / gridSpacing) as real * gridSpacing, Round(p.1 / gridSpacing) as real * gridSpacing)
    }

    /** `optimize_routes`: routes in descending priority, each with its
        collinear segments merged. */
    method OptimizeRoutes()
      modifies this
      ensures |routes| == |old(routes)| && obstacles == old(obstacles)
      ensures forall i :: 0 <= i < |routes| ==> routes[i] == Merged(SortByPriority(old(routes))[i])
    {
      var sorted := SortByPriority(routes);
      routes := OptimizeEach(sorted);
    }

    /** `get_routing_statistics`, without the Euclidean lengths. */
    method GetRoutingStatistics() returns (s: RoutingStatistics)
      ensures routes == [] ==> s == NoRoutes
      ensures routes != [] ==> s.RoutingStatistics?
      ensures s.RoutingStatistics? ==> s.totalRoutes == |routes| && s.totalSegments == SegmentCount(routes)
      ensures s.RoutingStatistics? ==> s.routesByPriority == Distribution(routes)
      ensures s.RoutingStatistics? ==> SumCounts(s.routesByPriority) == s.totalRoutes
    {
      if routes == [] {
        return NoRoutes;
      }
      var d := PriorityDistribution(routes);
      s := RoutingStatistics(|routes|, SegmentCount(routes), d);
    }
  }

  /** Routing with priorities 1 and 2 gives one route at each priority. */
  lemma DistributionExample(r1: WireRoute, r2: WireRoute)
    requires r1.priority == 1 && r2.priority == 2
    ensures Distribution([r1, r2]) == [(1, 1), (2, 1)]
  {
    assert [r1, r2][..1] == [r1];
    assert [r1][..0] == [];
    assert Distribution([r1]) == [(1, 1)];
    assert CountOf([(1, 1)], 2) == 0;
    assert Put<int, nat>([(1, 1)], 2, 1) == [(1, 1)] + Put<int, nat>([], 2, 1);
  }
}
