/** Route summary and daily statistics (src/routes/tracking.ts).  Times are milliseconds, durations
    and distances reals; the distance between two positions is a parameter. */
module RouteSummary {
  import opened Options
  import opened Sequences
  import opened RoutePoints

  /** What one segment, from a point to the next, adds to a total. */
  type Weight = (Point, Point) -> real

  function Seconds(prev: Point, curr: Point): real {
    (curr.at - prev.at) as real / 1000.0
  }

  function Metres(dist: Distance, prev: Point, curr: Point): real {
    dist(prev.place, curr.place)
  }

  /** The three totals; a segment that takes no time counts for none of them. */
  function Travelled(dist: Distance): Weight {
    (prev: Point, curr: Point) => if curr.at > prev.at then Metres(dist, prev, curr) else 0.0
  }

  function Stopped(prev: Point, curr: Point): real {
    if curr.at > prev.at && prev.isStop && curr.isStop then Seconds(prev, curr) else 0.0
  }

  function Moving(prev: Point, curr: Point): real {
    if curr.at > prev.at && !(prev.isStop && curr.isStop) then Seconds(prev, curr) else 0.0
  }

  function Total(w: Weight, points: seq<Point>): real {
    var n := |points|;
    if n < 2 then 0.0 else Total(w, points[..n - 1]) + w(points[n - 2], points[n - 1])
  }

  // ---------------------------------------------------------------- one route

  datatype Summary = Summary(distance: real, moving: real, stopped: real, maxSpeed: Option<real>,
      averageSpeed: Option<real>)

  /** Moving and stopped time share the whole recorded time. */
  lemma {:induction false} DurationsAddUp(points: seq<Point>)
    requires InOrder(points) && points != []
    ensures Total(Moving, points) + Total(Stopped, points) == Seconds(points[0], points[|points| - 1])
  {
    var n := |points|;
    if n >= 2 {
      DurationsAddUp(points[..n - 1]);
      assert Moving(points[n - 2], points[n - 1]) + Stopped(points[n - 2], points[n - 1])
          == Seconds(points[n - 2], points[n - 1]);
    }
  }

  lemma Monotone(a: real, b: real, t: real)
    requires a <= b && t >= 0.0
    ensures a * t <= b * t
  {
  }

  function Elapsed(prev: Point, curr: Point): real {
    if curr.at > prev.at then Seconds(prev, curr) else 0.0
  }

  function Scaled(speed: real, w: Weight): Weight {
    (prev: Point, curr: Point) => speed * w(prev, curr)
  }

  predicate Below(w: Weight, v: Weight, points: seq<Point>) {
    forall i :: 0 < i < |points| ==> w(points[i - 1], points[i]) <= v(points[i - 1], points[i])
  }

  lemma {:induction false} TotalsCompare(w: Weight, v: Weight, points: seq<Point>)
    requires Below(w, v, points)
    ensures Total(w, points) <= Total(v, points)
  {
    var n := |points|;
    if n >= 2 {
      assert Below(w, v, points[..n - 1]);
      TotalsCompare(w, v, points[..n - 1]);
    }
  }

  lemma {:induction false} ScaledTotal(speed: real, w: Weight, points: seq<Point>)
    ensures Total(Scaled(speed, w), points) == speed * Total(w, points)
  {
    var n := |points|;
    if n >= 2 {
      ScaledTotal(speed, w, points[..n - 1]);
    }
  }

  lemma {:induction false} ElapsedTotal(points: seq<Point>)
    ensures Total(Elapsed, points) == Total(Moving, points) + Total(Stopped, points)
    ensures Total(Elapsed, points) >= 0.0
  {
    if |points| >= 2 { ElapsedTotal(points[..|points| - 1]); }
  }

  /** No segment is faster than `speed`. */
  predicate Bounds(dist: Distance, points: seq<Point>, speed: real) {
    Below(Travelled(dist), Scaled(speed, Elapsed), points)
  }

  /** The fastest segment bounds the whole distance by the whole time. */
  lemma DistanceIsBounded(dist: Distance, points: seq<Point>, speed: real, duration: real)
    requires Bounds(dist, points, speed) && duration == Total(Moving, points) + Total(Stopped, points)
    ensures Total(Travelled(dist), points) <= speed * duration
  {
    TotalsCompare(Travelled(dist), Scaled(speed, Elapsed), points);
    ScaledTotal(speed, Elapsed, points);
    ElapsedTotal(points);
  }

  /** Segment i runs at exactly `speed`. */
  predicate Attains(dist: Distance, points: seq<Point>, speed: real, i: int) {
    0 < i < |points| && points[i].at > points[i - 1].at && RunsAt(dist, points[i - 1], points[i], speed)
  }

  predicate RunsAt(dist: Distance, prev: Point, curr: Point, speed: real) {
    Metres(dist, prev, curr) == speed * Seconds(prev, curr)
  }

  predicate RunsWithin(dist: Distance, prev: Point, curr: Point, speed: real) {
    Travelled(dist)(prev, curr) <= Scaled(speed, Elapsed)(prev, curr)
  }

  lemma FasterBound(dist: Distance, prev: Point, curr: Point, slow: real, speed: real)
    requires RunsWithin(dist, prev, curr, slow) && slow <= speed
    ensures RunsWithin(dist, prev, curr, speed)
  {
    Monotone(slow, speed, Elapsed(prev, curr));
  }

  lemma SkippedWithin(dist: Distance, prev: Point, curr: Point, speed: real)
    requires curr.at <= prev.at
    ensures RunsWithin(dist, prev, curr, speed)
  {
    assert Elapsed(prev, curr) == 0.0;
  }

  lemma {:induction false} BoundsGrow(dist: Distance, points: seq<Point>, slow: real, speed: real)
    requires |points| >= 2 && Bounds(dist, points[..|points| - 1], slow) && slow <= speed
    requires RunsWithin(dist, points[|points| - 2], points[|points| - 1], speed)
    ensures Bounds(dist, points, speed)
  {
    var before := points[..|points| - 1];
    forall i | 0 < i < |points| ensures RunsWithin(dist, points[i - 1], points[i], speed) {
      if i < |points| - 1 {
        assert before[i] == points[i] && before[i - 1] == points[i - 1];
        FasterBound(dist, points[i - 1], points[i], slow, speed);
      }
    }
  }

  /** The speed of one segment against the fastest so far. */
  method Fastest(dist: Distance, prev: Point, curr: Point, slow: real) returns (speed: real)
    requires curr.at > prev.at && slow >= 0.0
    ensures speed >= slow && RunsWithin(dist, prev, curr, speed)
    ensures speed == slow || RunsAt(dist, prev, curr, speed)
  {
    var dt, metres := Seconds(prev, curr), Metres(dist, prev, curr);
    var own := metres / dt;
    assert Elapsed(prev, curr) == dt;
    assert Scaled(own, Elapsed)(prev, curr) == own * dt;
    speed := slow;
    if own > speed { speed := own; }
    FasterBound(dist, prev, curr, own, speed);
  }

  /** An average exists once time has passed, and takes that time to cover the distance. */
  function Quotient(distance: real, duration: real): (average: Option<real>)
    ensures average.Some? <==> duration > 0.0
    ensures average.Some? ==> average.value * duration == distance
  {
    if duration > 0.0 then Some(distance / duration) else None
  }

  method Average(distance: real, duration: real, speed: real) returns (average: Option<real>)
    requires distance <= speed * duration
    ensures average == Quotient(distance, duration)
    ensures average.Some? ==> average.value <= speed
  {
    if duration <= 0.0 { return None; }
    average := Some(distance / duration);
  }

  lemma TotalStep(w: Weight, points: seq<Point>, i: nat)
    requires 0 < i < |points|
    ensures Total(w, points[..i + 1]) == Total(w, points[..i]) + w(points[i - 1], points[i])
  {
    assert points[..i + 1][..i] == points[..i];
  }

  lemma BoundsStep(dist: Distance, points: seq<Point>, i: nat, slow: real, speed: real)
    requires 0 < i < |points| && Bounds(dist, points[..i], slow) && slow <= speed
    requires RunsWithin(dist, points[i - 1], points[i], speed)
    ensures Bounds(dist, points[..i + 1], speed)
  {
    assert points[..i + 1][..i] == points[..i];
    BoundsGrow(dist, points[..i + 1], slow, speed);
  }

  /** The summary loop: exact totals, and a maximum speed that every segment respects and, unless
      it is zero, segment `fastest` attains. */
  method Accumulate(dist: Distance, points: seq<Point>)
    returns (distance: real, moving: real, stopped: real, maxSpeed: real, ghost fastest: int)
    requires |points| >= 2
    ensures distance == Total(Travelled(dist), points)
    ensures moving == Total(Moving, points) && stopped == Total(Stopped, points)
    ensures maxSpeed >= 0.0 && Bounds(dist, points, maxSpeed)
    ensures maxSpeed > 0.0 ==> Attains(dist, points, maxSpeed, fastest)
  {
    distance, moving, stopped, maxSpeed, fastest := 0.0, 0.0, 0.0, 0.0, 0;
    for i := 1 to |points|
      invariant distance == Total(Travelled(dist), points[..i])
      invariant moving == Total(Moving, points[..i]) && stopped == Total(Stopped, points[..i])
      invariant maxSpeed >= 0.0 && Bounds(dist, points[..i], maxSpeed)
      invariant maxSpeed > 0.0 ==> Attains(dist, points, maxSpeed, fastest)
    {
      var prev, curr := points[i - 1], points[i];
      ghost var slow := maxSpeed;
      TotalStep(Travelled(dist), points, i);
      TotalStep(Moving, points, i);
      TotalStep(Stopped, points, i);
      if curr.at > prev.at {
        var dt := Seconds(prev, curr);
        distance := distance + Metres(dist, prev, curr);
        maxSpeed := Fastest(dist, prev, curr, maxSpeed);
        if maxSpeed > slow { fastest := i; }
        if prev.isStop && curr.isStop {
          stopped := stopped + dt;
        } else {
          moving := moving + dt;
        }
      } else {
        SkippedWithin(dist, prev, curr, maxSpeed);
      }
      BoundsStep(dist, points, i, slow, maxSpeed);
    }
    assert points[..|points|] == points;
  }

  /** The summary endpoint: exact totals, and an average speed that never exceeds the maximum. */
  method Summarize(dist: Distance, points: seq<Point>) returns (s: Summary)
    ensures s.distance == Total(Travelled(dist), points) && s.moving == Total(Moving, points)
        && s.stopped == Total(Stopped, points)
    ensures var max := s.maxSpeed.GetOr(0.0);
      && max >= 0.0 && Bounds(dist, points, max)
      && (s.maxSpeed.Some? ==> max > 0.0 && exists i :: Attains(dist, points, max, i))
    ensures s.averageSpeed == Quotient(s.distance, s.moving + s.stopped)
    ensures s.averageSpeed.Some? ==> s.averageSpeed.value <= s.maxSpeed.GetOr(0.0)
  {
    if |points| < 2 { return Summary(0.0, 0.0, 0.0, None, None); }
    var distance, moving, stopped, maxSpeed, fastest := Accumulate(dist, points);
    var duration := moving + stopped;
    DistanceIsBounded(dist, points, maxSpeed, duration);
    var average := Average(distance, duration, maxSpeed);
    s := Summary(distance, moving, stopped, if maxSpeed == 0.0 then None else Some(maxSpeed), average);
  }

  // ---------------------------------------------------------------- days

  /** The UTC calendar day of a moment. */
  function Day(at: int): int {
    at / 86_400_000
  }

  /** A segment is counted when both ends are on one route and it takes time. */
  predicate Counted(prev: Point, curr: Point) {
    prev.route == curr.route && curr.at > prev.at
  }

  /** What one day adds up to: its segments are those that begin on it. */
  function DayTotal(w: Weight, points: seq<Point>, day: int): real {
    var n := |points|;
    if n < 2 then 0.0
    else DayTotal(w, points[..n - 1], day)
         + if Counted(points[n - 2], points[n - 1]) && Day(points[n - 2].at) == day
           then w(points[n - 2], points[n - 1]) else 0.0
  }

  function DayRoutes(points: seq<Point>, day: int): set<nat> {
    var n := |points|;
    if n < 2 then {}
    else DayRoutes(points[..n - 1], day)
         + if Counted(points[n - 2], points[n - 1]) && Day(points[n - 2].at) == day then {points[n - 2].route} else {}
  }

  /** All counted segments together. */
  function CountedTotal(w: Weight, points: seq<Point>): real {
    var n := |points|;
    if n < 2 then 0.0
    else
      var prev, curr := points[n - 2], points[n - 1];
      CountedTotal(w, points[..n - 1]) + if Counted(prev, curr) then w(prev, curr) else 0.0
  }

  function SumDays(w: Weight, points: seq<Point>, days: seq<int>): real {
    if days == [] then 0.0 else SumDays(w, points, days[..|days| - 1]) + DayTotal(w, points, days[|days| - 1])
  }

  /** Adding a segment raises the sum over days exactly by its weight. */
  lemma {:induction false} SumDaysStep(w: Weight, points: seq<Point>, days: seq<int>)
    requires |points| >= 2 && Distinct(days)
    ensures var n := |points|;
      var counts := Counted(points[n - 2], points[n - 1]) && Day(points[n - 2].at) in days;
      SumDays(w, points, days)
      == SumDays(w, points[..n - 1], days) + if counts then w(points[n - 2], points[n - 1]) else 0.0
    decreases |days|
  {
    if days != [] {
      var last := |days| - 1;
      LastIsNew(days);
      SumDaysStep(w, points, days[..last]);
    }
  }

  lemma {:induction false} SumDaysOfNothing(w: Weight, points: seq<Point>, days: seq<int>)
    requires |points| < 2
    ensures SumDays(w, points, days) == 0.0
  {
    if days != [] { SumDaysOfNothing(w, points, days[..|days| - 1]); }
  }

  predicate Covers(points: seq<Point>, days: seq<int>) {
    forall i :: 0 < i < |points| && Counted(points[i - 1], points[i]) ==> Day(points[i - 1].at) in days
  }

  /** Daily totals over all days add up to all counted segments. */
  lemma {:induction false} DaysAddUp(w: Weight, points: seq<Point>, days: seq<int>)
    requires Distinct(days) && Covers(points, days)
    ensures SumDays(w, points, days) == CountedTotal(w, points)
  {
    var n := |points|;
    if n < 2 {
      SumDaysOfNothing(w, points, days);
    } else {
      var before := points[..n - 1];
      assert Covers(before, days);
      DaysAddUp(w, before, days);
      SumDaysStep(w, points, days);
    }
  }

  // ---------------------------------------------------------------- routes

  function OnRoute(points: seq<Point>, route: nat): seq<Point> {
    if points == [] then []
    else
      var last := points[|points| - 1];
      OnRoute(points[..|points| - 1], route) + if last.route == route then [last] else []
  }

  function SumRoutes(w: Weight, points: seq<Point>, routes: seq<nat>): real {
    if routes == [] then 0.0
    else SumRoutes(w, points, routes[..|routes| - 1]) + Total(w, OnRoute(points, routes[|routes| - 1]))
  }

  predicate ByRoute(points: seq<Point>) {
    forall i, j :: 0 <= i <= j < |points| ==> points[i].route <= points[j].route
  }

  /** A total that ignores segments taking no time, like the three above. */
  ghost predicate SkipsInstants(w: Weight) {
    forall prev: Point, curr: Point :: curr.at <= prev.at ==> w(prev, curr) == 0.0
  }

  /** On points grouped by route, a point's predecessor on its route is its neighbour. */
  lemma {:induction false} LastOnRoute(points: seq<Point>, route: nat)
    requires ByRoute(points) && (forall i :: 0 <= i < |points| ==> points[i].route <= route)
    ensures var own := OnRoute(points, route);
      if points != [] && points[|points| - 1].route == route
      then own != [] && own[|own| - 1] == points[|points| - 1]
      else own == []
  {
    if points != [] && points[|points| - 1].route != route {
      assert forall i :: 0 <= i < |points| - 1 ==> points[i].route <= points[|points| - 1].route;
      LastOnRoute(points[..|points| - 1], route);
    }
  }

  lemma RouteStep(w: Weight, points: seq<Point>, route: nat)
    requires |points| >= 2 && ByRoute(points) && SkipsInstants(w)
    ensures var n := |points|;
      Total(w, OnRoute(points, route)) == Total(w, OnRoute(points[..n - 1], route))
        + if Counted(points[n - 2], points[n - 1]) && points[n - 2].route == route
          then w(points[n - 2], points[n - 1]) else 0.0
  {
    var n := |points|;
    var own := OnRoute(points[..n - 1], route);
    if points[n - 1].route == route {
      LastOnRoute(points[..n - 1], route);
      assert (own + [points[n - 1]])[..|own|] == own;
    } else {
      assert OnRoute(points, route) == own;
    }
  }

  lemma {:induction false} SumRoutesStep(w: Weight, points: seq<Point>, routes: seq<nat>)
    requires |points| >= 2 && ByRoute(points) && SkipsInstants(w) && Distinct(routes)
    ensures var n := |points|;
      var counts := Counted(points[n - 2], points[n - 1]) && points[n - 2].route in routes;
      SumRoutes(w, points, routes)
      == SumRoutes(w, points[..n - 1], routes) + if counts then w(points[n - 2], points[n - 1]) else 0.0
    decreases |routes|
  {
    if routes != [] {
      var last := |routes| - 1;
      LastIsNew(routes);
      SumRoutesStep(w, points, routes[..last]);
      RouteStep(w, points, routes[last]);
    }
  }

  lemma {:induction false} SumRoutesOfNothing(w: Weight, points: seq<Point>, routes: seq<nat>)
    requires |points| < 2
    ensures SumRoutes(w, points, routes) == 0.0
  {
    if routes != [] {
      SumRoutesOfNothing(w, points, routes[..|routes| - 1]);
      assert |OnRoute(points, routes[|routes| - 1])| < 2 by {
        if points != [] { assert OnRoute(points[..0], routes[|routes| - 1]) == []; }
      }
    }
  }

  /** Per-route totals over all routes add up to all counted segments. */
  lemma {:induction false} RoutesAddUp(w: Weight, points: seq<Point>, routes: seq<nat>)
    requires ByRoute(points) && SkipsInstants(w) && Distinct(routes)
    requires forall i :: 0 <= i < |points| ==> points[i].route in routes
    ensures SumRoutes(w, points, routes) == CountedTotal(w, points)
  {
    var n := |points|;
    if n < 2 {
      SumRoutesOfNothing(w, points, routes);
    } else {
      RoutesAddUp(w, points[..n - 1], routes);
      SumRoutesStep(w, points, routes);
    }
  }

  /** Daily totals over all days equal the per-route totals of the summary over all routes. */
  lemma DaysEqualRoutes(dist: Distance, points: seq<Point>, days: seq<int>, routes: seq<nat>)
    requires ByRoute(points) && Distinct(days) && Distinct(routes) && Covers(points, days)
    requires forall i :: 0 <= i < |points| ==> points[i].route in routes
    ensures SumDays(Travelled(dist), points, days) == SumRoutes(Travelled(dist), points, routes)
    ensures SumDays(Moving, points, days) == SumRoutes(Moving, points, routes)
    ensures SumDays(Stopped, points, days) == SumRoutes(Stopped, points, routes)
  {
    DaysAddUp(Travelled(dist), points, days);
    RoutesAddUp(Travelled(dist), points, routes);
    DaysAddUp(Moving, points, days);
    RoutesAddUp(Moving, points, routes);
    DaysAddUp(Stopped, points, days);
    RoutesAddUp(Stopped, points, routes);
  }

  // ---------------------------------------------------------------- the daily loop

  datatype DayAgg = DayAgg(distance: real, moving: real, stopped: real, routes: set<nat>)

  function AggOf(dist: Distance, points: seq<Point>, day: int): DayAgg {
    DayAgg(DayTotal(Travelled(dist), points, day), DayTotal(Moving, points, day), DayTotal(Stopped, points, day),
        DayRoutes(points, day))
  }

  lemma {:induction false} NoRoutesNoTotals(dist: Distance, points: seq<Point>, day: int)
    requires DayRoutes(points, day) == {}
    ensures AggOf(dist, points, day) == DayAgg(0.0, 0.0, 0.0, {})
  {
    if |points| >= 2 {
      NoRoutesNoTotals(dist, points[..|points| - 1], day);
    }
  }

  ghost predicate DayOk(dist: Distance, points: seq<Point>, byDay: map<int, DayAgg>, day: int) {
    if day in byDay then DayRoutes(points, day) != {} && byDay[day] == AggOf(dist, points, day)
    else DayRoutes(points, day) == {}
  }

  /** The aggregate after one more counted segment. */
  function AddSegment(dist: Distance, agg: DayAgg, prev: Point, curr: Point): DayAgg {
    DayAgg(agg.distance + Metres(dist, prev, curr), agg.moving + Moving(prev, curr),
           agg.stopped + Stopped(prev, curr), agg.routes + {prev.route})
  }

  lemma DayKept(dist: Distance, points: seq<Point>, byDay: map<int, DayAgg>, after: map<int, DayAgg>, day: int)
    requires |points| >= 2 && DayOk(dist, points[..|points| - 1], byDay, day)
    requires var prev, curr := points[|points| - 2], points[|points| - 1];
      if Counted(prev, curr) && day == Day(prev.at)
      then
        var agg := if day in byDay then byDay[day] else DayAgg(0.0, 0.0, 0.0, {});
        day in after && after[day] == AddSegment(dist, agg, prev, curr)
      else (day in after <==> day in byDay) && (day in after ==> after[day] == byDay[day])
    ensures DayOk(dist, points, after, day)
  {
    if day !in byDay { NoRoutesNoTotals(dist, points[..|points| - 1], day); }
  }

  /** The daily loop: a day is present exactly when some counted segment begins on it, and then
      with the totals and routes of that day. */
  method ByDay(dist: Distance, points: seq<Point>) returns (byDay: map<int, DayAgg>)
    ensures forall day {:trigger DayOk(dist, points, byDay, day)} :: DayOk(dist, points, byDay, day)
  {
    byDay := map[];
    if |points| < 2 { return; }
    for i := 1 to |points|
      invariant forall day {:trigger DayOk(dist, points[..i], byDay, day)} :: DayOk(dist, points[..i], byDay, day)
    {
      var prev, curr := points[i - 1], points[i];
      ghost var before := byDay;
      if prev.route == curr.route && curr.at > prev.at {
        var day := Day(prev.at);
        var agg := DayAgg(0.0, 0.0, 0.0, {});
        if day in byDay { agg := byDay[day]; }
        agg := agg.(distance := agg.distance + Metres(dist, prev, curr));
        if prev.isStop && curr.isStop {
          agg := agg.(stopped := agg.stopped + Seconds(prev, curr));
        } else {
          agg := agg.(moving := agg.moving + Seconds(prev, curr));
        }
        byDay := byDay[day := agg.(routes := agg.routes + {prev.route})];
      }
      assert points[..i + 1][..i] == points[..i];
      ghost var now := points[..i + 1];
      forall day {:trigger DayOk(dist, now, byDay, day)} ensures DayOk(dist, now, byDay, day) {
        assert DayOk(dist, points[..i], before, day);
        DayKept(dist, now, before, byDay, day);
      }
    }
    assert points[..|points|] == points;
  }

  // ---------------------------------------------------------------- the daily answer

  datatype DayStat = DayStat(date: int, distance: real, moving: real, stopped: real, routesCount: nat)

  predicate Increasing(days: seq<int>) {
    forall i, j :: 0 <= i < j < |days| ==> days[i] < days[j]
  }

  function InsertDay(days: seq<int>, day: int): seq<int> {
    if days == [] || days[|days| - 1] < day then days + [day]
    else InsertDay(days[..|days| - 1], day) + [days[|days| - 1]]
  }

  lemma {:induction false} InsertDayHolds(days: seq<int>, day: int, d: int)
    ensures d in InsertDay(days, day) <==> d in days || d == day
  {
    if days != [] {
      var n := |days| - 1;
      InsertDayHolds(days[..n], day, d);
      assert days == days[..n] + [days[n]];
    }
  }

  lemma {:induction false} InsertDaySorts(days: seq<int>, day: int)
    requires Increasing(days) && day !in days
    ensures Increasing(InsertDay(days, day))
  {
    if days != [] && days[|days| - 1] >= day {
      var n := |days| - 1;
      InsertDaySorts(days[..n], day);
      var r := InsertDay(days[..n], day);
      forall i | 0 <= i < |r| ensures r[i] < days[n] {
        InsertDayHolds(days[..n], day, r[i]);
        if r[i] in days[..n] {
          var j :| 0 <= j < n && days[..n][j] == r[i];
        }
      }
    }
  }

  method SortedDays(keys: set<int>) returns (days: seq<int>)
    ensures Increasing(days) && forall d :: d in days <==> d in keys
  {
    days := [];
    var rest: set<int> := keys;
    while rest != {}
      invariant rest <= keys && Increasing(days)
      invariant forall d :: d in days <==> d in keys && d !in rest
      decreases rest
    {
      assert (forall d :: d !in rest) ==> rest == {};
      var d :| d in rest;
      forall x ensures x in InsertDay(days, d) <==> x in days || x == d { InsertDayHolds(days, d, x); }
      InsertDaySorts(days, d);
      days := InsertDay(days, d);
      rest := rest - {d};
    }
  }

  lemma {:induction false} CountedDayIsPresent(points: seq<Point>, i: nat)
    requires 0 < i < |points| && Counted(points[i - 1], points[i])
    ensures points[i - 1].route in DayRoutes(points, Day(points[i - 1].at))
    decreases |points|
  {
    if i < |points| - 1 { CountedDayIsPresent(points[..|points| - 1], i); }
  }

  function StatOf(dist: Distance, points: seq<Point>, day: int): DayStat {
    var agg := AggOf(dist, points, day);
    DayStat(day, agg.distance, agg.moving, agg.stopped, |agg.routes|)
  }

  /** The statistics endpoint: one entry per day with a counted segment, in date order; these days
      miss no counted segment, so that DaysEqualRoutes applies to them. */
  method DailyStats(dist: Distance, points: seq<Point>) returns (stats: seq<DayStat>, days: seq<int>)
    ensures Increasing(days) && Covers(points, days) && forall d :: d in days ==> DayRoutes(points, d) != {}
    ensures |stats| == |days| && forall k :: 0 <= k < |days| ==> stats[k] == StatOf(dist, points, days[k])
  {
    var byDay := ByDay(dist, points);
    days := SortedDays(byDay.Keys);
    forall i | 0 < i < |points| && Counted(points[i - 1], points[i]) ensures Day(points[i - 1].at) in days {
      CountedDayIsPresent(points, i);
      assert DayOk(dist, points, byDay, Day(points[i - 1].at));
    }
    forall d | d in days ensures DayRoutes(points, d) != {} { assert DayOk(dist, points, byDay, d); }
    stats := [];
    for k := 0 to |days|
      invariant |stats| == k && forall j :: 0 <= j < k ==> stats[j] == StatOf(dist, points, days[j])
    {
      assert DayOk(dist, points, byDay, days[k]);
      var agg := byDay[days[k]];
      stats := stats + [DayStat(days[k], agg.distance, agg.moving, agg.stopped, |agg.routes|)];
    }
  }
}
