/** Stop detection on a recorded route (src/routes/tracking.ts): one pass over the points, against
    the definition by maximal runs of close points.  Coordinates are reals and the distance between
    two positions is a parameter. */
module Stops {
  import opened RoutePoints

  datatype Stop = Stop(latitude: real, longitude: real, startedAt: int, endedAt: int, durationSeconds: int)

  const MIN_STOP_DURATION_MS := 60_000
  const MAX_STOP_RADIUS := 30.0

  // ---------------------------------------------------------------- the definition

  /** Points i and i + 1 are close enough to belong to one stop. */
  predicate Near(dist: Distance, points: seq<Point>, i: nat)
    requires i + 1 < |points|
  {
    dist(points[i].place, points[i + 1].place) <= MAX_STOP_RADIUS
  }

  /** points[a..b] is a maximal run of points with close neighbours. */
  predicate MaximalRun(dist: Distance, points: seq<Point>, a: nat, b: nat) {
    && a < b <= |points|
    && (forall i: nat :: a <= i < b - 1 ==> Near(dist, points, i))
    && (a > 0 ==> !Near(dist, points, a - 1))
    && (b < |points| ==> !Near(dist, points, b - 1))
  }

  predicate Long(points: seq<Point>, a: nat, b: nat)
    requires a < b <= |points|
  {
    points[b - 1].at - points[a].at >= MIN_STOP_DURATION_MS
  }

  function Latitudes(points: seq<Point>, a: nat, b: nat): real
    requires a <= b <= |points|
  {
    if a == b then 0.0 else Latitudes(points, a, b - 1) + points[b - 1].place.latitude
  }

  function Longitudes(points: seq<Point>, a: nat, b: nat): real
    requires a <= b <= |points|
  {
    if a == b then 0.0 else Longitudes(points, a, b - 1) + points[b - 1].place.longitude
  }

  /** Math.round of milliseconds as seconds. */
  function RoundSeconds(ms: int): int {
    (ms + 500) / 1000
  }

  /** The stop made of a run: its mean position and its first and last times. */
  function StopOf(points: seq<Point>, a: nat, b: nat): Stop
    requires a < b <= |points|
  {
    Stop(Latitudes(points, a, b) / (b - a) as real, Longitudes(points, a, b) / (b - a) as real,
         points[a].at, points[b - 1].at, RoundSeconds(points[b - 1].at - points[a].at))
  }

  /** Where the run holding point i begins. */
  function RunStart(dist: Distance, points: seq<Point>, i: nat): (a: nat)
    requires i < |points|
    ensures a <= i
  {
    if i == 0 || !Near(dist, points, i - 1) then i else RunStart(dist, points, i - 1)
  }

  /** A stop ends at point i. */
  predicate StopEnds(dist: Distance, points: seq<Point>, i: nat)
    requires i < |points|
  {
    (i + 1 == |points| || !Near(dist, points, i)) && Long(points, RunStart(dist, points, i), i + 1)
  }

  /** The stops that end among the first n points, in order. */
  function StopsWithin(dist: Distance, points: seq<Point>, n: nat): seq<Stop>
    requires n <= |points|
  {
    if n == 0 then []
    else StopsWithin(dist, points, n - 1)
         + if StopEnds(dist, points, n - 1) then [StopOf(points, RunStart(dist, points, n - 1), n)] else []
  }

  // ---------------------------------------------------------------- what the definition means

  lemma {:induction false} RunStartIsMaximal(dist: Distance, points: seq<Point>, i: nat)
    requires i < |points|
    ensures var a := RunStart(dist, points, i);
      (forall k: nat :: a <= k < i ==> Near(dist, points, k)) && (a > 0 ==> !Near(dist, points, a - 1))
  {
    if i > 0 && Near(dist, points, i - 1) { RunStartIsMaximal(dist, points, i - 1); }
  }

  lemma {:induction false} RunStartIsOnly(dist: Distance, points: seq<Point>, a: nat, i: nat)
    requires a <= i < |points|
    requires (forall k: nat :: a <= k < i ==> Near(dist, points, k)) && (a > 0 ==> !Near(dist, points, a - 1))
    ensures RunStart(dist, points, i) == a
    decreases i
  {
    if a < i {
      assert Near(dist, points, i - 1);
      RunStartIsOnly(dist, points, a, i - 1);
    }
  }

  /** Maximal runs are exactly the stretches from a run's start to a point with no close successor. */
  lemma RunsAreDetermined(dist: Distance, points: seq<Point>, a: nat, b: nat)
    requires a < b <= |points|
    ensures MaximalRun(dist, points, a, b)
        <==> (b == |points| || !Near(dist, points, b - 1)) && a == RunStart(dist, points, b - 1)
  {
    RunStartIsMaximal(dist, points, b - 1);
    if MaximalRun(dist, points, a, b) { RunStartIsOnly(dist, points, a, b - 1); }
  }

  /** Every point lies in exactly one maximal run. */
  lemma {:induction false} EveryPointInOneRun(dist: Distance, points: seq<Point>, i: nat) returns (a: nat, b: nat)
    requires i < |points|
    ensures a <= i < b && MaximalRun(dist, points, a, b)
    ensures forall c: nat, d: nat :: c <= i < d && MaximalRun(dist, points, c, d) ==> c == a && d == b
    decreases |points| - i
  {
    if i + 1 == |points| || !Near(dist, points, i) {
      a, b := RunStart(dist, points, i), i + 1;
      RunsAreDetermined(dist, points, a, b);
      forall c: nat, d: nat | c <= i < d && MaximalRun(dist, points, c, d) ensures c == a && d == b {
        assert d == i + 1;
        RunsAreDetermined(dist, points, c, d);
      }
    } else {
      a, b := EveryPointInOneRun(dist, points, i + 1);
      assert a <= i;
      forall c: nat, d: nat | c <= i < d && MaximalRun(dist, points, c, d) ensures c == a && d == b {
        assert i + 1 < d;
      }
    }
  }

  /** The list has the stop of every long maximal run, each at its own place in time order. */
  lemma {:induction false} OneStopPerRun(dist: Distance, points: seq<Point>, a: nat, b: nat, n: nat)
    requires MaximalRun(dist, points, a, b) && Long(points, a, b) && b <= n <= |points|
    ensures var k := |StopsWithin(dist, points, b - 1)|;
      k < |StopsWithin(dist, points, n)| && StopsWithin(dist, points, n)[k] == StopOf(points, a, b)
    decreases n
  {
    RunsAreDetermined(dist, points, a, b);
    if b < n { OneStopPerRun(dist, points, a, b, n - 1); }
  }

  /** And nothing else: each entry is the stop of one long maximal run. */
  lemma {:induction false} OnlyRunsStop(dist: Distance, points: seq<Point>, n: nat, k: nat) returns (a: nat, b: nat)
    requires n <= |points| && k < |StopsWithin(dist, points, n)|
    ensures b <= n && MaximalRun(dist, points, a, b) && Long(points, a, b)
    ensures k == |StopsWithin(dist, points, b - 1)| && StopsWithin(dist, points, n)[k] == StopOf(points, a, b)
    decreases n
  {
    if k < |StopsWithin(dist, points, n - 1)| {
      a, b := OnlyRunsStop(dist, points, n - 1, k);
    } else {
      a, b := RunStart(dist, points, n - 1), n;
      RunsAreDetermined(dist, points, a, b);
    }
  }

  lemma {:induction false} StopsWithinGrow(dist: Distance, points: seq<Point>, m: nat, n: nat)
    requires m <= n <= |points|
    ensures |StopsWithin(dist, points, m)| <= |StopsWithin(dist, points, n)|
    decreases n
  {
    if m < n { StopsWithinGrow(dist, points, m, n - 1); }
  }

  /** On points in time order the stops follow one another without overlapping. */
  lemma StopsDoNotOverlap(dist: Distance, points: seq<Point>, j: nat, k: nat)
    requires InOrder(points) && j < k < |StopsWithin(dist, points, |points|)|
    ensures var stops := StopsWithin(dist, points, |points|);
      stops[j].startedAt < stops[j].endedAt <= stops[k].startedAt < stops[k].endedAt
  {
    var a, b := OnlyRunsStop(dist, points, |points|, j);
    var c, d := OnlyRunsStop(dist, points, |points|, k);
    if d <= b { StopsWithinGrow(dist, points, d - 1, b - 1); }
  }

  // ---------------------------------------------------------------- the one-pass detector

  method DetectStops(dist: Distance, points: seq<Point>) returns (stops: seq<Stop>)
    ensures stops == StopsWithin(dist, points, |points|)
  {
    stops := [];
    if |points| > 0 {
      var start := 0;
      var latSum, lonSum, count := points[0].place.latitude, points[0].place.longitude, 1;
      for i := 1 to |points|
        invariant start == RunStart(dist, points, i - 1) && count == i - start
        invariant latSum == Latitudes(points, start, i) && lonSum == Longitudes(points, start, i)
        invariant stops == StopsWithin(dist, points, i - 1)
      {
        var prev, curr := points[i - 1], points[i];
        if dist(prev.place, curr.place) <= MAX_STOP_RADIUS {
          assert Near(dist, points, i - 1);
          latSum, lonSum, count := latSum + curr.place.latitude, lonSum + curr.place.longitude, count + 1;
        } else {
          var span := prev.at - points[start].at;
          if span >= MIN_STOP_DURATION_MS {
            stops := stops + [Stop(latSum / count as real, lonSum / count as real, points[start].at, prev.at,
                RoundSeconds(span))];
          }
          start, latSum, lonSum, count := i, curr.place.latitude, curr.place.longitude, 1;
        }
      }
      var last := points[|points| - 1];
      var span := last.at - points[start].at;
      if span >= MIN_STOP_DURATION_MS {
        stops := stops + [Stop(latSum / count as real, lonSum / count as real, points[start].at, last.at,
            RoundSeconds(span))];
      }
    }
  }
}
