/** Tracking sessions, routes and the filtering point upload (src/routes/tracking.ts).
    Each transaction is one step; times are milliseconds; the distance between two places is a
    parameter. */
module Tracking {
  import opened Numbers
  import opened Options
  import opened RoutePoints

  const MAX_POINTS_BATCH := 1000
  const MAX_ACCURACY := 100.0
  const MIN_DISTANCE := 5.0
  const MIN_MOVING_DISTANCE := 12.0
  const MIN_MOVING_INTERVAL := 12_000
  const STATIONARY_ALIVE_INTERVAL := 90_000

  /** One uploaded point. */
  datatype Fix = Fix(clientId: Option<string>, place: Place, at: int, isStop: bool, accuracy: Option<real>)

  datatype RouteStatus = ACTIVE | COMPLETED

  datatype Route = Route(user: nat, status: RouteStatus, startedAt: int, endedAt: Option<int>)

  datatype Row = Row(route: nat, user: nat, point: Fix, sequence: nat)

  datatype DB = DB(routes: map<nat, Route>, next: nat, rows: seq<Row>)

  // ---------------------------------------------------------------- the filter

  datatype Filtered = Filtered(kept: seq<Fix>, seen: set<string>, duplicates: nat, inaccurate: nat, jitter: nat)

  predicate IsJitter(dist: Distance, prev: Fix, p: Fix) {
    var distance, elapsed := dist(prev.place, p.place), Max(0, p.at - prev.at);
    || (distance < MIN_DISTANCE && elapsed < STATIONARY_ALIVE_INTERVAL)
    || (distance < MIN_MOVING_DISTANCE && elapsed < MIN_MOVING_INTERVAL)
  }

  predicate Inaccurate(p: Fix) {
    p.accuracy.Some? && p.accuracy.value > MAX_ACCURACY
  }

  /** The point a new one is compared with: the last kept one, or the last stored one. */
  function Previous(kept: seq<Fix>, last: Option<Fix>): Option<Fix> {
    if kept == [] then last else Some(kept[|kept| - 1])
  }

  predicate TooClose(dist: Distance, prev: Option<Fix>, p: Fix) {
    prev.Some? && !p.isStop && IsJitter(dist, prev.value, p)
  }

  function Consider(dist: Distance, last: Option<Fix>, stored: set<string>, f: Filtered, p: Fix): Filtered {
    if p.clientId.Some? && (p.clientId.value in stored || p.clientId.value in f.seen)
    then f.(duplicates := f.duplicates + 1)
    else
      var g := if p.clientId.Some? then f.(seen := f.seen + {p.clientId.value}) else f;
      if Inaccurate(p) then g.(inaccurate := g.inaccurate + 1)
      else if TooClose(dist, Previous(g.kept, last), p) then g.(jitter := g.jitter + 1)
      else g.(kept := g.kept + [p])
  }

  function Filter(dist: Distance, last: Option<Fix>, stored: set<string>, points: seq<Fix>): Filtered {
    if points == [] then Filtered([], {}, 0, 0, 0)
    else Consider(dist, last, stored, Filter(dist, last, stored, points[..|points| - 1]), points[|points| - 1])
  }

  /** A point repeats an id when it is stored already or came earlier in the same batch. */
  predicate Repeats(points: seq<Fix>, stored: set<string>, i: nat)
    requires i < |points|
  {
    points[i].clientId.Some?
        && (points[i].clientId.value in stored || exists j :: 0 <= j < i && points[j].clientId == points[i].clientId)
  }

  function Repeated(points: seq<Fix>, stored: set<string>, n: nat): nat
    requires n <= |points|
  {
    if n == 0 then 0 else Repeated(points, stored, n - 1) + if Repeats(points, stored, n - 1) then 1 else 0
  }

  function Blurred(points: seq<Fix>, stored: set<string>, n: nat): nat
    requires n <= |points|
  {
    if n == 0 then 0
    else Blurred(points, stored, n - 1) + if !Repeats(points, stored, n - 1) && Inaccurate(points[n - 1]) then 1 else 0
  }

  /** Kept points: accurate, with fresh and distinct ids, each far enough from the one before. */
  predicate Spaced(dist: Distance, last: Option<Fix>, kept: seq<Fix>) {
    forall i :: 0 <= i < |kept| ==> !Inaccurate(kept[i]) && !TooClose(dist, Previous(kept[..i], last), kept[i])
  }

  predicate NewIds(kept: seq<Fix>, stored: set<string>) {
    && (forall i :: 0 <= i < |kept| && kept[i].clientId.Some? ==> kept[i].clientId.value !in stored)
    && (forall i, j :: 0 <= i < j < |kept| && kept[i].clientId.Some? ==> kept[i].clientId != kept[j].clientId)
  }

  predicate SeenIds(points: seq<Fix>, stored: set<string>, seen: set<string>) {
    && (forall i :: 0 <= i < |points| && points[i].clientId.Some? ==>
          points[i].clientId.value in stored || points[i].clientId.value in seen)
    && (forall id :: id in seen ==> id !in stored && exists i :: 0 <= i < |points| && points[i].clientId == Some(id))
  }

  lemma {:induction false} FilterSeen(dist: Distance, last: Option<Fix>, stored: set<string>, points: seq<Fix>)
    ensures SeenIds(points, stored, Filter(dist, last, stored, points).seen)
  {
    if points != [] {
      var n := |points| - 1;
      var f, g := Filter(dist, last, stored, points[..n]), Filter(dist, last, stored, points);
      FilterSeen(dist, last, stored, points[..n]);
      assert points == points[..n] + [points[n]];
      forall id | id in g.seen
          ensures id !in stored && exists i :: 0 <= i < |points| && points[i].clientId == Some(id) {
        if id in f.seen {
          var i :| 0 <= i < n && points[..n][i].clientId == Some(id);
          assert points[i].clientId == Some(id);
        } else {
          assert points[n].clientId == Some(id);
        }
      }
    }
  }

  lemma {:induction false} RepeatedOfPrefix(points: seq<Fix>, stored: set<string>, m: nat, n: nat)
    requires n <= m <= |points|
    ensures Repeated(points[..m], stored, n) == Repeated(points, stored, n)
    ensures Blurred(points[..m], stored, n) == Blurred(points, stored, n)
  {
    if n > 0 {
      RepeatedOfPrefix(points, stored, m, n - 1);
      assert Repeats(points[..m], stored, n - 1) == Repeats(points, stored, n - 1);
    }
  }

  /** Every received point is counted once. */
  lemma {:induction false} FilterCounts(dist: Distance, last: Option<Fix>, stored: set<string>, points: seq<Fix>)
    ensures var f := Filter(dist, last, stored, points);
      |points| == |f.kept| + f.duplicates + f.inaccurate + f.jitter
  {
    if points != [] { FilterCounts(dist, last, stored, points[..|points| - 1]); }
  }

  /** The duplicate and accuracy counters are exact. */
  lemma {:induction false} CountersAreExact(dist: Distance, last: Option<Fix>, stored: set<string>, points: seq<Fix>)
    ensures var f := Filter(dist, last, stored, points);
      && f.duplicates == Repeated(points, stored, |points|)
      && f.inaccurate == Blurred(points, stored, |points|)
  {
    if points != [] {
      var n := |points| - 1;
      CountersAreExact(dist, last, stored, points[..n]);
      FilterSeen(dist, last, stored, points[..n]);
      RepeatedOfPrefix(points, stored, n, n);
      SeenDecides(points, stored, Filter(dist, last, stored, points[..n]).seen);
    }
  }

  lemma SeenDecides(points: seq<Fix>, stored: set<string>, seen: set<string>)
    requires points != [] && SeenIds(points[..|points| - 1], stored, seen)
    ensures var p := points[|points| - 1];
      Repeats(points, stored, |points| - 1)
      <==> p.clientId.Some? && (p.clientId.value in stored || p.clientId.value in seen)
  {
    var n := |points| - 1;
    var p := points[n];
    if p.clientId.Some? {
      if p.clientId.value in seen {
        var i :| 0 <= i < n && points[..n][i].clientId == Some(p.clientId.value);
        assert points[i].clientId == p.clientId;
      }
      forall j | 0 <= j < n && points[j].clientId == p.clientId
          ensures p.clientId.value in stored || p.clientId.value in seen {
        assert points[..n][j].clientId.Some?;
      }
    }
  }

  /** What is kept obeys the filter's rules, whatever the batch. */
  lemma {:induction false} FilterKeeps(dist: Distance, last: Option<Fix>, stored: set<string>, points: seq<Fix>)
    ensures var f := Filter(dist, last, stored, points);
      && Spaced(dist, last, f.kept)
      && NewIds(f.kept, stored)
      && IdsAmong(f.kept, f.seen)
  {
    if points != [] {
      var n := |points| - 1;
      FilterKeeps(dist, last, stored, points[..n]);
      var f, p := Filter(dist, last, stored, points[..n]), points[n];
      if !(p.clientId.Some? && (p.clientId.value in stored || p.clientId.value in f.seen)) {
        NewIdsGrow(f.kept, stored, f.seen, p);
        if !Inaccurate(p) && !TooClose(dist, Previous(f.kept, last), p) { SpacedGrows(dist, last, f.kept, p); }
      }
    }
  }

  predicate IdsAmong(kept: seq<Fix>, seen: set<string>) {
    forall i :: 0 <= i < |kept| && kept[i].clientId.Some? ==> kept[i].clientId.value in seen
  }

  lemma NewIdsGrow(kept: seq<Fix>, stored: set<string>, seen: set<string>, p: Fix)
    requires NewIds(kept, stored) && IdsAmong(kept, seen)
    requires p.clientId.Some? ==> p.clientId.value !in stored && p.clientId.value !in seen
    ensures NewIds(kept + [p], stored)
    ensures p.clientId.Some? ==>
        IdsAmong(kept + [p], seen + {p.clientId.value}) && IdsAmong(kept, seen + {p.clientId.value})
    ensures p.clientId.None? ==> IdsAmong(kept + [p], seen)
  {
  }

  lemma SpacedGrows(dist: Distance, last: Option<Fix>, kept: seq<Fix>, p: Fix)
    requires Spaced(dist, last, kept) && !Inaccurate(p) && !TooClose(dist, Previous(kept, last), p)
    ensures Spaced(dist, last, kept + [p])
  {
    forall i | 0 <= i <= |kept|
      ensures !Inaccurate((kept + [p])[i]) && !TooClose(dist, Previous((kept + [p])[..i], last), (kept + [p])[i])
    {
      if i < |kept| { assert (kept + [p])[..i] == kept[..i]; } else { assert (kept + [p])[..i] == kept; }
    }
  }

  // ---------------------------------------------------------------- exactly what is kept

  /** Far enough, or far and long enough, or long enough after the point before. */
  predicate Moved(dist: Distance, prev: Fix, p: Fix) {
    var distance, elapsed := dist(prev.place, p.place), p.at - prev.at;
    distance >= 12.0 || (distance >= 5.0 && elapsed >= 12_000) || elapsed >= 90_000
  }

  /** How many of the increasing positions lie before i. */
  function Before(pos: seq<nat>, i: nat): (m: nat)
    ensures m <= |pos| && (m > 0 ==> pos[m - 1] < i)
  {
    if pos == [] then 0
    else if pos[|pos| - 1] < i then |pos| else Before(pos[..|pos| - 1], i)
  }

  /** The kept point before position i, or the last stored one. */
  function KeptBefore(last: Option<Fix>, points: seq<Fix>, pos: seq<nat>, i: nat): Option<Fix>
    requires i <= |points|
  {
    var m := Before(pos, i);
    if m == 0 then last else Some(points[pos[m - 1]])
  }

  /** Neither repeated nor blurred. */
  predicate Sound(stored: set<string>, points: seq<Fix>, i: nat)
    requires i < |points|
  {
    !Repeats(points, stored, i) && (points[i].accuracy.Some? ==> points[i].accuracy.value <= 100.0)
  }

  /** The point at position i is worth keeping after those kept at `pos`. */
  predicate Wanted(dist: Distance, last: Option<Fix>, stored: set<string>, points: seq<Fix>, pos: seq<nat>, i: nat)
    requires i < |points|
  {
    && Sound(stored, points, i)
    && (points[i].isStop
        || match KeptBefore(last, points, pos, i)
           case None => true
           case Some(prev) => Moved(dist, prev, points[i]))
  }

  /** `kept` are the points at the increasing positions `pos`. */
  predicate Selects(points: seq<Fix>, pos: seq<nat>, kept: seq<Fix>) {
    && |pos| == |kept|
    && (forall k :: 0 <= k < |pos| ==> pos[k] < |points| && kept[k] == points[pos[k]])
    && (forall j, k :: 0 <= j < k < |pos| ==> pos[j] < pos[k])
  }

  /** How many of the first n points are sound and still not kept. */
  function PassedOver(stored: set<string>, points: seq<Fix>, pos: seq<nat>, n: nat): nat
    requires n <= |points|
  {
    if n == 0 then 0
    else PassedOver(stored, points, pos, n - 1) + One(Sound(stored, points, n - 1) && n - 1 !in pos)
  }

  lemma {:induction false} PassedOverGrows(stored: set<string>, points: seq<Fix>, pos: seq<nat>, pos': seq<nat>, n: nat)
    requires n < |points| && (pos' == pos || pos' == pos + [|points| - 1])
    ensures PassedOver(stored, points, pos', n) == PassedOver(stored, points[..|points| - 1], pos, n)
  {
    if n > 0 { PassedOverGrows(stored, points, pos, pos', n - 1); }
  }

  lemma PassedOverStep(stored: set<string>, points: seq<Fix>, pos: seq<nat>, kept: seq<Fix>, wanted: bool)
    requires points != [] && Selects(points[..|points| - 1], pos, kept)
    ensures var (n, pos') := (|points| - 1, if wanted then pos + [|points| - 1] else pos);
      PassedOver(stored, points, pos', |points|)
      == PassedOver(stored, points[..n], pos, n) + One(Sound(stored, points, n) && !wanted)
  {
    var n := |points| - 1;
    PassedOverGrows(stored, points, pos, if wanted then pos + [n] else pos, n);
    assert forall k :: 0 <= k < |pos| ==> pos[k] < n;
  }

  lemma BeforeEnd(points: seq<Fix>, pos: seq<nat>, kept: seq<Fix>, i: nat)
    requires Selects(points, pos, kept)
    ensures i == |points| ==> Before(pos, i) == |pos|
    ensures i <= |points| ==> Before(pos + [|points|], i) == Before(pos, i)
  {
    assert (pos + [|points|])[..|pos|] == pos;
  }

  lemma WantedGrows(dist: Distance, last: Option<Fix>, stored: set<string>, points: seq<Fix>, pos: seq<nat>,
      pos': seq<nat>, i: nat)
    requires i + 1 < |points| && Before(pos', i) == Before(pos, i)
    requires pos <= pos'
    ensures Wanted(dist, last, stored, points, pos', i)
         == Wanted(dist, last, stored, points[..|points| - 1], pos, i)
  {
    assert points[..|points| - 1][i] == points[i];
    SoundStands(stored, points, i);
    KeptBeforeStands(last, points, pos, pos', i);
  }

  lemma SoundStands(stored: set<string>, points: seq<Fix>, i: nat)
    requires i + 1 < |points|
    ensures Sound(stored, points, i) == Sound(stored, points[..|points| - 1], i)
  {
  }

  lemma KeptBeforeStands(last: Option<Fix>, points: seq<Fix>, pos: seq<nat>, pos': seq<nat>, i: nat)
    requires i + 1 < |points| && Before(pos', i) == Before(pos, i) && pos <= pos'
    ensures KeptBefore(last, points, pos', i) == KeptBefore(last, points[..|points| - 1], pos, i)
  {
    var m := Before(pos, i);
    if m > 0 { assert pos'[m - 1] == pos[m - 1]; }
  }

  lemma ConsiderDecides(dist: Distance, last: Option<Fix>, stored: set<string>, points: seq<Fix>, pos: seq<nat>,
      f: Filtered)
    requires points != [] && Selects(points[..|points| - 1], pos, f.kept)
    requires SeenIds(points[..|points| - 1], stored, f.seen)
    ensures var (n, g) := (|points| - 1, Consider(dist, last, stored, f, points[|points| - 1]));
      && g.kept == (if Wanted(dist, last, stored, points, pos, n) then f.kept + [points[n]] else f.kept)
      && g.jitter == f.jitter + One(Sound(stored, points, n) && !Wanted(dist, last, stored, points, pos, n))
  {
    var n := |points| - 1;
    SeenDecides(points, stored, f.seen);
    BeforeEnd(points[..n], pos, f.kept, n);
    assert Previous(f.kept, last) == KeptBefore(last, points, pos, n);
  }

  /** A later point changes no earlier decision. */
  lemma DecisionStands(dist: Distance, last: Option<Fix>, stored: set<string>, points: seq<Fix>, pos: seq<nat>,
      pos': seq<nat>, kept: seq<Fix>, i: nat)
    requires i < |points| && Selects(points[..|points| - 1], pos, kept)
    requires pos' == pos || pos' == pos + [|points| - 1]
    ensures i < |points| - 1 ==>
      Wanted(dist, last, stored, points, pos', i) == Wanted(dist, last, stored, points[..|points| - 1], pos, i)
    ensures i == |points| - 1 ==>
      Wanted(dist, last, stored, points, pos', i) == Wanted(dist, last, stored, points, pos, i)
  {
    BeforeEnd(points[..|points| - 1], pos, kept, i);
    if i < |points| - 1 { WantedGrows(dist, last, stored, points, pos, pos', i); }
  }

  predicate Decided(dist: Distance, last: Option<Fix>, stored: set<string>, points: seq<Fix>, pos: seq<nat>) {
    forall i :: 0 <= i < |points| ==> (i in pos <==> Wanted(dist, last, stored, points, pos, i))
  }

  lemma DecidedGrows(dist: Distance, last: Option<Fix>, stored: set<string>, points: seq<Fix>, pos: seq<nat>,
      pos': seq<nat>, kept: seq<Fix>)
    requires points != [] && Selects(points[..|points| - 1], pos, kept)
    requires Decided(dist, last, stored, points[..|points| - 1], pos)
    requires var n := |points| - 1; pos' == if Wanted(dist, last, stored, points, pos, n) then pos + [n] else pos
    ensures Decided(dist, last, stored, points, pos')
  {
    forall i: nat | i < |points| ensures i in pos' <==> Wanted(dist, last, stored, points, pos', i) {
      DecisionStands(dist, last, stored, points, pos, pos', kept, i);
      if i == |points| - 1 { assert i !in pos; } else { assert i in pos' <==> i in pos; }
    }
  }

  lemma SelectsGrows(points: seq<Fix>, pos: seq<nat>, kept: seq<Fix>)
    requires points != [] && Selects(points[..|points| - 1], pos, kept)
    ensures Selects(points, pos, kept) && Selects(points, pos + [|points| - 1], kept + [points[|points| - 1]])
  {
  }

  /** `pos` are the positions of the points worth keeping, in their order, and jitter counts exactly the
      sound points passed over. */
  predicate Exact(dist: Distance, last: Option<Fix>, stored: set<string>, points: seq<Fix>, pos: seq<nat>,
      kept: seq<Fix>, jitter: nat)
  {
    && Selects(points, pos, kept) && Decided(dist, last, stored, points, pos)
    && jitter == PassedOver(stored, points, pos, |points|)
  }

  lemma ExactGrows(dist: Distance, last: Option<Fix>, stored: set<string>, points: seq<Fix>, pos: seq<nat>, f: Filtered)
      returns (pos': seq<nat>)
    requires points != [] && Exact(dist, last, stored, points[..|points| - 1], pos, f.kept, f.jitter)
    requires SeenIds(points[..|points| - 1], stored, f.seen)
    ensures var g := Consider(dist, last, stored, f, points[|points| - 1]);
      Exact(dist, last, stored, points, pos', g.kept, g.jitter)
  {
    var n := |points| - 1;
    var wanted := Wanted(dist, last, stored, points, pos, n);
    pos' := if wanted then pos + [n] else pos;
    ConsiderDecides(dist, last, stored, points, pos, f);
    DecidedGrows(dist, last, stored, points, pos, pos', f.kept);
    SelectsGrows(points, pos, f.kept);
    PassedOverStep(stored, points, pos, f.kept, wanted);
  }

  lemma FilterUnfolds(dist: Distance, last: Option<Fix>, stored: set<string>, points: seq<Fix>)
    requires points != []
    ensures Filter(dist, last, stored, points)
         == Consider(dist, last, stored, Filter(dist, last, stored, points[..|points| - 1]), points[|points| - 1])
  {
  }

  /** The filter keeps, in their order, exactly the points that neither repeat an id nor are blurred
      and that moved from the kept point before them or are stops. */
  lemma {:induction false} FilterIsExact(dist: Distance, last: Option<Fix>, stored: set<string>, points: seq<Fix>)
      returns (pos: seq<nat>)
    ensures var f := Filter(dist, last, stored, points); Exact(dist, last, stored, points, pos, f.kept, f.jitter)
  {
    if points == [] {
      pos := [];
    } else {
      var earlier := points[..|points| - 1];
      var before := FilterIsExact(dist, last, stored, earlier);
      FilterSeen(dist, last, stored, earlier);
      FilterUnfolds(dist, last, stored, points);
      pos := ExactGrows(dist, last, stored, points, before, Filter(dist, last, stored, earlier));
    }
  }

  /** The upload's filter loop. */
  method FilterPoints(dist: Distance, last: Option<Fix>, stored: set<string>, points: seq<Fix>) returns (f: Filtered)
    ensures f == Filter(dist, last, stored, points)
    ensures |points| == |f.kept| + f.duplicates + f.inaccurate + f.jitter
    ensures Spaced(dist, last, f.kept) && NewIds(f.kept, stored)
  {
    var kept: seq<Fix> := [];
    var seen: set<string> := {};
    var duplicates, inaccurate, jitter := 0, 0, 0;
    for i := 0 to |points|
      invariant Filtered(kept, seen, duplicates, inaccurate, jitter) == Filter(dist, last, stored, points[..i])
    {
      assert points[..i + 1][..i] == points[..i];
      var p := points[i];
      if p.clientId.Some? && (p.clientId.value in stored || p.clientId.value in seen) {
        duplicates := duplicates + 1;
        continue;
      }
      if p.clientId.Some? { seen := seen + {p.clientId.value}; }
      if p.accuracy.Some? && p.accuracy.value > 100.0 {
        inaccurate := inaccurate + 1;
        continue;
      }
      var prev := if |kept| > 0 then Some(kept[|kept| - 1]) else last;
      if prev.Some? && !p.isStop {
        var distance := dist(prev.value.place, p.place);
        var elapsed := if p.at > prev.value.at then p.at - prev.value.at else 0;
        if (distance < 5.0 && elapsed < 90_000) || (distance < 12.0 && elapsed < 12_000) {
          jitter := jitter + 1;
          continue;
        }
      }
      kept := kept + [p];
    }
    assert points[..|points|] == points;
    FilterCounts(dist, last, stored, points);
    FilterKeeps(dist, last, stored, points);
    f := Filtered(kept, seen, duplicates, inaccurate, jitter);
  }

  // ---------------------------------------------------------------- queries

  predicate IsActive(routes: map<nat, Route>, user: nat, id: nat) {
    id in routes && routes[id].user == user && routes[id].status == ACTIVE
  }

  ghost function ActiveRoute(routes: map<nat, Route>, user: nat): (r: Option<nat>)
    ensures r.Some? ==> IsActive(routes, user, r.value)
    ensures r.None? ==> forall id :: !IsActive(routes, user, id)
  {
    if exists id :: IsActive(routes, user, id) then
      var id :| IsActive(routes, user, id);
      Some(id)
    else None
  }

  function Count(rows: seq<Row>, route: nat): nat {
    if rows == [] then 0 else Count(rows[..|rows| - 1], route) + if rows[|rows| - 1].route == route then 1 else 0
  }

  /** The route's stored point with the greatest time. */
  function Latest(rows: seq<Row>, route: nat, user: nat): Option<Fix> {
    if rows == [] then None
    else
      var best, row := Latest(rows[..|rows| - 1], route, user), rows[|rows| - 1];
      if row.route == route && row.user == user && (best.None? || best.value.at < row.point.at)
      then Some(row.point) else best
  }

  /** The time of the route's earliest stored point. */
  function Earliest(rows: seq<Row>, route: nat, user: nat): Option<int> {
    if rows == [] then None
    else
      var best, row := Earliest(rows[..|rows| - 1], route, user), rows[|rows| - 1];
      if row.route == route && row.user == user && (best.None? || row.point.at < best.value)
      then Some(row.point.at) else best
  }

  predicate HasId(row: Row, user: nat, id: string) {
    row.user == user && row.point.clientId == Some(id)
  }

  function StoredIds(rows: seq<Row>, user: nat): set<string> {
    set row | row in rows && row.user == user && row.point.clientId.Some? :: row.point.clientId.value
  }

  // ---------------------------------------------------------------- row updates

  function Create(db: DB, user: nat, at: int): DB {
    DB(db.routes[db.next := Route(user, ACTIVE, at, None)], db.next + 1, db.rows)
  }

  function Clamp(route: Route, candidate: int): int {
    if candidate < route.startedAt then route.startedAt else candidate
  }

  function Complete(db: DB, id: nat, candidate: int): DB
    requires id in db.routes
  {
    var route := db.routes[id];
    db.(routes := db.routes[id := route.(status := COMPLETED, endedAt := Some(Clamp(route, candidate)))])
  }

  /** ensureRouteStartedAtCoversPoint, on a point that may be missing. */
  function Cover(db: DB, id: nat, at: Option<int>): DB
    requires id in db.routes
  {
    if at.None? || at.value >= db.routes[id].startedAt then db
    else db.(routes := db.routes[id := db.routes[id].(startedAt := at.value)])
  }

  function NewRow(id: nat, user: nat, before: nat, kept: seq<Fix>, i: nat): Row
    requires i < |kept|
  {
    Row(id, user, kept[i], before + i + 1)
  }

  predicate Clashes(rows: seq<Row>, row: Row) {
    row.point.clientId.Some? && exists i :: 0 <= i < |rows| && HasId(rows[i], row.user, row.point.clientId.value)
  }

  /** createMany with skipDuplicates: a row whose (user, clientPointId) is taken is left out. */
  function Insert(rows: seq<Row>, id: nat, user: nat, before: nat, kept: seq<Fix>, n: nat): (r: seq<Row>)
    requires n <= |kept|
    ensures rows <= r
  {
    if n == 0 then rows
    else
      var sofar, row := Insert(rows, id, user, before, kept, n - 1), NewRow(id, user, before, kept, n - 1);
      if Clashes(sofar, row) then sofar else sofar + [row]
  }

  // ---------------------------------------------------------------- the three transactions

  datatype Request =
    | Start(user: nat, now: int)
    | Stop(user: nat, routeId: Option<int>, now: int)
    | Save(user: nat, points: seq<Fix>, routeId: Option<int>, startNewRoute: bool, endRoute: bool)

  datatype Answer =
    | Session(found: Option<nat>)
    | Saved(route: nat, created: nat, status: RouteStatus, duplicates: nat, inaccurate: nat, jitter: nat)
    | BadRequest

  predicate Owns(db: DB, user: nat, routeId: Option<int>) {
    routeId.Some? && routeId.value > 0 && routeId.value in db.routes && db.routes[routeId.value].user == user
  }

  ghost function StartSession(db: DB, user: nat, now: int): (DB, Answer) {
    var active := ActiveRoute(db.routes, user);
    if active.Some? then (db, Session(active)) else (Create(db, user, now), Session(Some(db.next)))
  }

  function Close(db: DB, user: nat, id: nat, now: int): DB
    requires id in db.routes
  {
    var last := Latest(db.rows, id, user);
    Complete(Cover(db, id, Earliest(db.rows, id, user)), id, if last.Some? then last.value.at else now)
  }

  ghost function StopSession(db: DB, user: nat, routeId: Option<int>, now: int): (DB, Answer) {
    if routeId.Some? && routeId.value <= 0 then (db, BadRequest)
    else
      var found :=
        if routeId.None? then ActiveRoute(db.routes, user)
        else if Owns(db, user, routeId) then Some(routeId.value) else None;
      if found.None? then (db, Session(None))
      else if db.routes[found.value].status != ACTIVE then (db, Session(found))
      else (Close(db, user, found.value, now), Session(found))
  }

  /** The route an upload goes to, if it exists already; starting a new one closes the old one. */
  ghost function Target(db: DB, r: Request): (t: (DB, Option<nat>))
    requires r.Save? && r.points != []
    ensures t.1.Some? ==> t.0 == db && t.1.value in db.routes && db.routes[t.1.value].user == r.user
  {
    if Owns(db, r.user, r.routeId) && (db.routes[r.routeId.value].status == ACTIVE || r.endRoute)
    then (db, Some(r.routeId.value))
    else
      var active := ActiveRoute(db.routes, r.user);
      if r.startNewRoute then (if active.Some? then Complete(db, active.value, r.points[0].at) else db, None)
      else (db, active)
  }

  function MinAt(points: seq<Fix>): int
    requires points != []
  {
    if |points| == 1 then points[0].at else Min(MinAt(points[..|points| - 1]), points[|points| - 1].at)
  }

  function MaxAt(points: seq<Fix>): int
    requires points != []
  {
    if |points| == 1 then points[0].at else Max(MaxAt(points[..|points| - 1]), points[|points| - 1].at)
  }

  function MinOption(a: Option<int>, b: int): int {
    if a.Some? && a.value < b then a.value else b
  }

  /** The chosen route, created or moved back so that it covers the kept points. */
  function Prepared(db: DB, target: Option<nat>, r: Request, kept: seq<Fix>): (after: DB)
    requires r.Save? && r.points != [] && (target.Some? ==> target.value in db.routes)
    ensures target.GetOr(db.next) in after.routes && after.rows == db.rows
  {
    if target.None? then Create(db, r.user, if kept == [] then r.points[0].at else MinAt(kept))
    else
      var first := Earliest(db.rows, target.value, r.user);
      Cover(db, target.value, if kept == [] then first else Some(MinOption(first, MinAt(kept))))
  }

  /** When an upload that ends its route ends it. */
  function EndAt(r: Request, kept: seq<Fix>): int
    requires r.Save? && r.points != []
  {
    if kept == [] then r.points[|r.points| - 1].at else MaxAt(kept)
  }

  /** The upload once its route is chosen and its points are filtered. */
  function Store(db: DB, target: Option<nat>, r: Request, f: Filtered): (DB, Answer)
    requires r.Save? && r.points != [] && (target.Some? ==> target.value in db.routes)
  {
    var id, ready := target.GetOr(db.next), Prepared(db, target, r, f.kept);
    var filled := ready.(rows := Insert(db.rows, id, r.user, Count(db.rows, id), f.kept, |f.kept|));
    var ended :=
      if r.endRoute && filled.routes[id].status == ACTIVE then Complete(filled, id, EndAt(r, f.kept)) else filled;
    (ended, Saved(id, |filled.rows| - |db.rows|, ended.routes[id].status, f.duplicates, f.inaccurate, f.jitter))
  }

  ghost function FilterFor(dist: Distance, db: DB, target: Option<nat>, r: Request): Filtered
    requires r.Save?
  {
    var last := if target.Some? then Latest(db.rows, target.value, r.user) else None;
    Filter(dist, last, StoredIds(db.rows, r.user), r.points)
  }

  ghost function SavePoints(dist: Distance, db: DB, r: Request): (DB, Answer)
    requires r.Save?
  {
    if r.points == [] || |r.points| > MAX_POINTS_BATCH then (db, BadRequest)
    else
      var (db1, target) := Target(db, r);
      Store(db1, target, r, FilterFor(dist, db1, target, r))
  }

  ghost function Handle(dist: Distance, db: DB, r: Request): (DB, Answer) {
    match r
    case Start(user, now) => StartSession(db, user, now)
    case Stop(user, routeId, now) => StopSession(db, user, routeId, now)
    case Save(_, _, _, _, _) => SavePoints(dist, db, r)
  }

  // ---------------------------------------------------------------- the invariant

  predicate RouteOk(db: DB, id: nat) {
    id in db.routes ==>
      var route := db.routes[id];
      && 0 < id < db.next
      && (route.status == ACTIVE ==> route.endedAt == None)
      && (route.status == COMPLETED ==> route.endedAt.Some? && route.startedAt <= route.endedAt.value)
  }

  ghost predicate OneActive(routes: map<nat, Route>) {
    forall i, j, user {:trigger IsActive(routes, user, i), IsActive(routes, user, j)} ::
      IsActive(routes, user, i) && IsActive(routes, user, j) ==> i == j
  }

  predicate RowOk(routes: map<nat, Route>, row: Row) {
    && row.route in routes
    && routes[row.route].user == row.user
    && routes[row.route].startedAt <= row.point.at
  }

  predicate InSequence(rows: seq<Row>, i: nat) {
    i < |rows| ==> rows[i].sequence == Count(rows[..i], rows[i].route) + 1
  }

  ghost predicate IdsUnique(rows: seq<Row>) {
    forall i, j, user, id {:trigger HasId(rows[i], user, id), HasId(rows[j], user, id)} ::
      0 <= i < |rows| && 0 <= j < |rows| && HasId(rows[i], user, id) && HasId(rows[j], user, id) ==> i == j
  }

  ghost predicate RoutesOk(db: DB) {
    db.next > 0 && (forall id {:trigger RouteOk(db, id)} :: RouteOk(db, id)) && OneActive(db.routes)
  }

  ghost predicate RowsOk(routes: map<nat, Route>, rows: seq<Row>) {
    && (forall i :: 0 <= i < |rows| ==> RowOk(routes, rows[i]))
    && (forall i: nat {:trigger InSequence(rows, i)} :: InSequence(rows, i))
    && IdsUnique(rows)
  }

  ghost predicate Inv(db: DB) {
    RoutesOk(db) && RowsOk(db.routes, db.rows)
  }

  // ---------------------------------------------------------------- small steps keep it

  lemma CreateKeepsInv(db: DB, user: nat, at: int)
    requires Inv(db) && ActiveRoute(db.routes, user) == None
    ensures Inv(Create(db, user, at))
  {
    var after := Create(db, user, at);
    assert RouteOk(db, db.next);
    forall id ensures RouteOk(after, id) { assert RouteOk(db, id); }
    forall i, j, u | IsActive(after.routes, u, i) && IsActive(after.routes, u, j) ensures i == j {
      assert i != db.next ==> IsActive(db.routes, u, i);
      assert j != db.next ==> IsActive(db.routes, u, j);
    }
    forall i | 0 <= i < |db.rows| ensures RowOk(after.routes, db.rows[i]) { assert RowOk(db.routes, db.rows[i]); }
  }

  /** Rewriting a route without reopening it, moving its start only back. */
  lemma RewriteKeepsInv(db: DB, id: nat, route: Route)
    requires Inv(db) && id in db.routes
    requires route.user == db.routes[id].user && route.startedAt <= db.routes[id].startedAt
    requires route.status == ACTIVE ==> db.routes[id].status == ACTIVE && route.endedAt == None
    requires route.status == COMPLETED ==> route.endedAt.Some? && route.startedAt <= route.endedAt.value
    ensures Inv(db.(routes := db.routes[id := route]))
  {
    var after := db.(routes := db.routes[id := route]);
    forall k ensures RouteOk(after, k) { assert RouteOk(db, k); }
    forall i, j, u | IsActive(after.routes, u, i) && IsActive(after.routes, u, j) ensures i == j {
      assert IsActive(db.routes, u, i) && IsActive(db.routes, u, j);
    }
    forall i | 0 <= i < |db.rows| ensures RowOk(after.routes, db.rows[i]) { assert RowOk(db.routes, db.rows[i]); }
  }

  lemma CompleteKeepsInv(db: DB, id: nat, candidate: int)
    requires Inv(db) && id in db.routes
    ensures Inv(Complete(db, id, candidate))
  {
    RewriteKeepsInv(db, id, Complete(db, id, candidate).routes[id]);
  }

  lemma CoverKeepsInv(db: DB, id: nat, at: Option<int>)
    requires Inv(db) && id in db.routes
    ensures Inv(Cover(db, id, at))
  {
    assert RouteOk(db, id);
    if Cover(db, id, at) != db { RewriteKeepsInv(db, id, Cover(db, id, at).routes[id]); }
  }

  lemma AppendKeepsRows(routes: map<nat, Route>, rows: seq<Row>, row: Row)
    requires RowsOk(routes, rows) && RowOk(routes, row) && row.sequence == Count(rows, row.route) + 1
        && !Clashes(rows, row)
    ensures RowsOk(routes, rows + [row])
  {
    var after := rows + [row];
    forall i: nat ensures InSequence(after, i) {
      if i < |rows| { assert InSequence(rows, i) && after[..i] == rows[..i]; } else { assert after[..|rows|] == rows; }
    }
    forall i, j, user, id
      | 0 <= i < |after| && 0 <= j < |after| && HasId(after[i], user, id) && HasId(after[j], user, id)
      ensures i == j
    {
      if i < |rows| && j < |rows| { assert HasId(rows[i], user, id) && HasId(rows[j], user, id); }
    }
  }

  ghost predicate RowsReady(routes: map<nat, Route>, id: nat, user: nat, before: nat, kept: seq<Fix>) {
    forall i: nat {:trigger NewRow(id, user, before, kept, i)} :: i < |kept| ==>
        RowOk(routes, NewRow(id, user, before, kept, i))
  }

  /** Inserting filtered points skips none of them. */
  lemma {:induction false} InsertSkipsNothing(rows: seq<Row>, id: nat, user: nat, before: nat, kept: seq<Fix>, n: nat)
    requires n <= |kept| && NewIds(kept, StoredIds(rows, user))
    ensures var r := Insert(rows, id, user, before, kept, n);
      && |r| == |rows| + n
      && (forall i: nat {:trigger NewRow(id, user, before, kept, i)} :: i < n ==>
            r[|rows| + i] == NewRow(id, user, before, kept, i))
    ensures n > 0 ==> var sofar := Insert(rows, id, user, before, kept, n - 1);
        !Clashes(sofar, NewRow(id, user, before, kept, n - 1))
  {
    if n > 0 {
      InsertSkipsNothing(rows, id, user, before, kept, n - 1);
      NoClash(rows, id, user, before, kept, n - 1, Insert(rows, id, user, before, kept, n - 1));
    }
  }

  /** The numbering runs on without a gap. */
  lemma {:induction false} InsertKeepsRows(routes: map<nat, Route>, rows: seq<Row>, id: nat, user: nat, kept: seq<Fix>,
      n: nat)
    requires RowsOk(routes, rows) && n <= |kept| && NewIds(kept, StoredIds(rows, user))
    requires RowsReady(routes, id, user, Count(rows, id), kept)
    ensures var r := Insert(rows, id, user, Count(rows, id), kept, n);
        RowsOk(routes, r) && Count(r, id) == Count(rows, id) + n
  {
    if n > 0 {
      var before := Count(rows, id);
      InsertKeepsRows(routes, rows, id, user, kept, n - 1);
      InsertSkipsNothing(rows, id, user, before, kept, n);
      var sofar, row := Insert(rows, id, user, before, kept, n - 1), NewRow(id, user, before, kept, n - 1);
      AppendKeepsRows(routes, sofar, row);
      assert (sofar + [row])[..|sofar|] == sofar;
    }
  }

  lemma NoClash(rows: seq<Row>, id: nat, user: nat, before: nat, kept: seq<Fix>, n: nat, sofar: seq<Row>)
    requires n < |kept| && NewIds(kept, StoredIds(rows, user))
    requires |sofar| == |rows| + n && rows <= sofar
    requires forall i: nat {:trigger NewRow(id, user, before, kept, i)} :: i < n ==>
        sofar[|rows| + i] == NewRow(id, user, before, kept, i)
    ensures !Clashes(sofar, NewRow(id, user, before, kept, n))
  {
    var row := NewRow(id, user, before, kept, n);
    if row.point.clientId.Some? {
      forall i | 0 <= i < |sofar| ensures !HasId(sofar[i], user, row.point.clientId.value) {
        if i < |rows| {
          assert sofar[i] == rows[i] && rows[i] in rows;
        } else {
          assert sofar[i] == NewRow(id, user, before, kept, i - |rows|);
        }
      }
    }
  }

  // ---------------------------------------------------------------- whole transactions keep it

  lemma {:induction false} MinAtBounds(points: seq<Fix>)
    requires points != []
    ensures forall i :: 0 <= i < |points| ==> MinAt(points) <= points[i].at
  {
    if |points| > 1 {
      MinAtBounds(points[..|points| - 1]);
      assert forall i :: 0 <= i < |points| - 1 ==> points[..|points| - 1][i] == points[i];
    }
  }

  lemma TargetKeepsInv(db: DB, r: Request)
    requires Inv(db) && r.Save? && r.points != []
    ensures var (db1, target) := Target(db, r);
      Inv(db1) && db1.rows == db.rows && (target.None? ==> ActiveRoute(db1.routes, r.user) == None)
  {
    var (db1, target) := Target(db, r);
    var active := ActiveRoute(db.routes, r.user);
    if db1 != db {
      CompleteKeepsInv(db, active.value, r.points[0].at);
      forall id ensures !IsActive(db1.routes, r.user, id) {
        assert IsActive(db1.routes, r.user, id) ==> IsActive(db.routes, r.user, id);
      }
    }
  }

  /** The route row an upload writes to starts no later than any kept point. */
  lemma PreparedKeepsInv(db: DB, target: Option<nat>, r: Request, kept: seq<Fix>)
    requires Inv(db) && r.Save? && r.points != []
    requires target.Some? ==> target.value in db.routes && db.routes[target.value].user == r.user
    requires target.None? ==> ActiveRoute(db.routes, r.user) == None
    ensures var id := target.GetOr(db.next);
      var ready := Prepared(db, target, r, kept);
      Inv(ready) && RowsReady(ready.routes, id, r.user, Count(db.rows, id), kept)
  {
    if kept != [] { MinAtBounds(kept); }
    if target.None? {
      CreateKeepsInv(db, r.user, if kept == [] then r.points[0].at else MinAt(kept));
    } else {
      var first := Earliest(db.rows, target.value, r.user);
      CoverKeepsInv(db, target.value, if kept == [] then first else Some(MinOption(first, MinAt(kept))));
    }
  }

  lemma StoreKeepsInv(db: DB, target: Option<nat>, r: Request, f: Filtered)
    requires Inv(db) && r.Save? && r.points != []
    requires target.Some? ==> target.value in db.routes && db.routes[target.value].user == r.user
    requires target.None? ==> ActiveRoute(db.routes, r.user) == None
    requires NewIds(f.kept, StoredIds(db.rows, r.user))
    ensures Inv(Store(db, target, r, f).0) && Store(db, target, r, f).1.created == |f.kept|
  {
    var id, ready := target.GetOr(db.next), Prepared(db, target, r, f.kept);
    PreparedKeepsInv(db, target, r, f.kept);
    InsertKeepsRows(ready.routes, db.rows, id, r.user, f.kept, |f.kept|);
    InsertSkipsNothing(db.rows, id, r.user, Count(db.rows, id), f.kept, |f.kept|);
    var filled := ready.(rows := Insert(db.rows, id, r.user, Count(db.rows, id), f.kept, |f.kept|));
    SameRoutes(ready, filled);
    CompleteKeepsInv(filled, id, EndAt(r, f.kept));
  }

  lemma SameRoutes(db: DB, after: DB)
    requires RoutesOk(db) && after.routes == db.routes && after.next == db.next
    ensures RoutesOk(after)
  {
    forall id ensures RouteOk(after, id) { assert RouteOk(db, id); }
  }

  /** Every stored row survives, and a batch accounts for each point it received. */
  lemma SaveKeepsInv(dist: Distance, db: DB, r: Request)
    requires Inv(db) && r.Save?
    ensures var (after, answer) := SavePoints(dist, db, r);
      && Inv(after)
      && db.rows <= after.rows
      && (answer.Saved? ==> |r.points| == answer.created + answer.duplicates + answer.inaccurate + answer.jitter)
  {
    if 0 < |r.points| <= MAX_POINTS_BATCH {
      TargetKeepsInv(db, r);
      var (db1, target) := Target(db, r);
      var last := if target.Some? then Latest(db1.rows, target.value, r.user) else None;
      FilterKeeps(dist, last, StoredIds(db1.rows, r.user), r.points);
      FilterCounts(dist, last, StoredIds(db1.rows, r.user), r.points);
      StoreKeepsInv(db1, target, r, FilterFor(dist, db1, target, r));
    }
  }

  lemma StepKeepsInv(dist: Distance, db: DB, r: Request)
    requires Inv(db)
    ensures Inv(Handle(dist, db, r).0) && db.rows <= Handle(dist, db, r).0.rows
  {
    match r
    case Start(user, now) => if ActiveRoute(db.routes, user).None? { CreateKeepsInv(db, user, now); }
    case Stop(user, routeId, now) =>
      var after := StopSession(db, user, routeId, now).0;
      if after != db {
        var id := if routeId.None? then ActiveRoute(db.routes, user).value else routeId.value;
        var last := Latest(db.rows, id, user);
        CoverKeepsInv(db, id, Earliest(db.rows, id, user));
        CompleteKeepsInv(Cover(db, id, Earliest(db.rows, id, user)), id, if last.Some? then last.value.at else now);
      }
    case Save(_, _, _, _, _) => SaveKeepsInv(dist, db, r);
  }

  ghost function Run(dist: Distance, requests: seq<Request>): DB {
    if requests == [] then DB(map[], 1, [])
    else Handle(dist, Run(dist, requests[..|requests| - 1]), requests[|requests| - 1]).0
  }

  lemma {:induction false} RunKeepsInv(dist: Distance, requests: seq<Request>)
    ensures Inv(Run(dist, requests))
  {
    if requests == [] {
      forall id ensures RouteOk(DB(map[], 1, []), id) { }
    } else {
      RunKeepsInv(dist, requests[..|requests| - 1]);
      StepKeepsInv(dist, Run(dist, requests[..|requests| - 1]), requests[|requests| - 1]);
    }
  }

  /** The sequence numbers of a route, in the order the points were stored. */
  function SequenceNumbers(rows: seq<Row>, route: nat): seq<nat> {
    if rows == [] then []
    else
      var last := rows[|rows| - 1];
      SequenceNumbers(rows[..|rows| - 1], route) + if last.route == route then [last.sequence] else []
  }

  lemma {:induction false} NumbersRun(rows: seq<Row>, route: nat)
    requires forall i: nat {:trigger InSequence(rows, i)} :: InSequence(rows, i)
    ensures |SequenceNumbers(rows, route)| == Count(rows, route)
    ensures forall k :: 0 <= k < |SequenceNumbers(rows, route)| ==> SequenceNumbers(rows, route)[k] == k + 1
  {
    if rows != [] {
      var n := |rows| - 1;
      forall i: nat ensures InSequence(rows[..n], i) {
        assert InSequence(rows, i);
        assert i < n ==> rows[..n][..i] == rows[..i];
      }
      NumbersRun(rows[..n], route);
      assert InSequence(rows, n);
    }
  }

  /** Over every run of the three requests: one active route per user, starts before points, ends
      after starts, numbering exactly 1..n in every route, no client point id stored twice. */
  lemma TrackingIsSound(dist: Distance, requests: seq<Request>)
    ensures var db := Run(dist, requests);
      && OneActive(db.routes)
      && (forall i :: 0 <= i < |db.rows| ==> RowOk(db.routes, db.rows[i]))
      && (forall id :: id in db.routes && db.routes[id].status == COMPLETED ==>
            db.routes[id].endedAt.Some? && db.routes[id].startedAt <= db.routes[id].endedAt.value)
      && IdsUnique(db.rows)
      && (forall route, k :: 0 <= k < |SequenceNumbers(db.rows, route)| ==> SequenceNumbers(db.rows, route)[k] == k + 1)
  {
    RunKeepsInv(dist, requests);
    var db := Run(dist, requests);
    forall id | id in db.routes && db.routes[id].status == COMPLETED
      ensures db.routes[id].endedAt.Some? && db.routes[id].startedAt <= db.routes[id].endedAt.value
    {
      assert RouteOk(db, id);
    }
    forall route, k | 0 <= k < |SequenceNumbers(db.rows, route)| ensures SequenceNumbers(db.rows, route)[k] == k + 1 {
      NumbersRun(db.rows, route);
    }
  }

  // ---------------------------------------------------------------- which route a request works on

  /** Starting answers with the user's one active route, which is new only if there was none. */
  lemma StartIsExact(db: DB, user: nat, now: int)
    requires Inv(db)
    ensures var (after, answer) := StartSession(db, user, now);
      && answer.Session? && answer.found.Some?
      && (forall id :: IsActive(after.routes, user, id) <==> id == answer.found.value)
      && (if answer.found.value in db.routes then after == db
          else after == DB(db.routes[answer.found.value := Route(user, ACTIVE, now, None)], db.next + 1, db.rows))
  {
    assert RouteOk(db, db.next);
    var after := StartSession(db, user, now).0;
    forall id | ActiveRoute(db.routes, user).None? && id != db.next
      ensures !IsActive(after.routes, user, id)
    {
      assert !IsActive(db.routes, user, id);
    }
  }

  /** The route a stop request is about: the user's active one, or the user's own of that number. */
  predicate Meant(db: DB, user: nat, routeId: Option<int>, id: nat) {
    if routeId.None? then IsActive(db.routes, user, id)
    else id > 0 && routeId.value == id && id in db.routes && db.routes[id].user == user
  }

  /** Stopping refuses numbers that are not positive, answers with the route it is about, if any, and
      changes nothing but this route; afterwards that route is not active. */
  lemma StopIsExact(db: DB, user: nat, routeId: Option<int>, now: int)
    requires Inv(db)
    ensures var (after, answer) := StopSession(db, user, routeId, now);
      && (answer == BadRequest <==> routeId.Some? && routeId.value <= 0)
      && (answer == BadRequest ==> after == db)
      && (answer != BadRequest ==> answer.Session?)
      && (answer.Session? ==>
            && (forall id: nat :: Meant(db, user, routeId, id) <==> answer.found == Some(id))
            && (answer.found.None? ==> after == db)
            && (answer.found.Some? ==>
                  && answer.found.value in after.routes
                  && after == db.(routes := db.routes[answer.found.value := after.routes[answer.found.value]])
                  && after.routes[answer.found.value].status != ACTIVE
                  && (db.routes[answer.found.value].status != ACTIVE ==> after == db)))
  {
  }

  /** The upload names an own route that is still active, or that it asks to end. */
  predicate NamesOwn(db: DB, r: Request, id: nat)
    requires r.Save?
  {
    && id > 0 && r.routeId == Some(id) && id in db.routes && db.routes[id].user == r.user
    && (db.routes[id].status == ACTIVE || r.endRoute)
  }

  /** The upload goes to `id`: the own route it names, else a new one if it asks for one or none is
      active, else the active one. */
  ghost predicate GoesTo(db: DB, r: Request, id: nat)
    requires r.Save?
  {
    if exists x :: NamesOwn(db, r, x) then NamesOwn(db, r, id)
    else if r.startNewRoute || !exists x :: IsActive(db.routes, r.user, x) then id == db.next
    else IsActive(db.routes, r.user, id)
  }

  lemma TargetIsExact(db: DB, r: Request)
    requires Inv(db) && r.Save? && r.points != []
    ensures var (db1, target) := Target(db, r);
      && GoesTo(db, r, target.GetOr(db1.next)) && db1.rows == db.rows && db1.next == db.next
      && db1.routes.Keys == db.routes.Keys
      && (forall x :: x in db.routes ==>
            db1.routes[x] == if r.startNewRoute && IsActive(db.routes, r.user, x)
                                && !exists y :: NamesOwn(db, r, y)
                             then Route(r.user, COMPLETED, db.routes[x].startedAt,
                                        Some(Max(r.points[0].at, db.routes[x].startedAt)))
                             else db.routes[x])
  {
    if Owns(db, r.user, r.routeId) { assert NamesOwn(db, r, r.routeId.value) || !r.endRoute; }
  }

  lemma {:induction false} NoneStoredBeyond(db: DB, user: nat, n: nat)
    requires Inv(db) && n <= |db.rows|
    ensures Latest(db.rows[..n], db.next, user) == None
  {
    assert RouteOk(db, db.next);
    if n > 0 {
      NoneStoredBeyond(db, user, n - 1);
      assert db.rows[..n][..n - 1] == db.rows[..n - 1];
      assert RowOk(db.routes, db.rows[n - 1]);
    }
  }

  /** The rows an upload adds: its kept points, in their order, for the route and its user. */
  predicate Adds(before: seq<Row>, after: seq<Row>, id: nat, user: nat, kept: seq<Fix>) {
    && before <= after && |after| == |before| + |kept|
    && (forall k :: |before| <= k < |after| ==>
          after[k].route == id && after[k].user == user && after[k].point == kept[k - |before|])
  }

  lemma InsertAdds(rows: seq<Row>, id: nat, user: nat, before: nat, kept: seq<Fix>)
    requires NewIds(kept, StoredIds(rows, user))
    ensures Adds(rows, Insert(rows, id, user, before, kept, |kept|), id, user, kept)
  {
    InsertSkipsNothing(rows, id, user, before, kept, |kept|);
    var after := Insert(rows, id, user, before, kept, |kept|);
    forall k | |rows| <= k < |after|
      ensures after[k].route == id && after[k].user == user && after[k].point == kept[k - |rows|]
    {
      var i: nat := k - |rows|;
      assert after[|rows| + i] == NewRow(id, user, before, kept, i);
      assert |rows| + i == k;
    }
  }

  lemma StoreInserts(db: DB, target: Option<nat>, r: Request, f: Filtered)
    requires r.Save? && r.points != [] && (target.Some? ==> target.value in db.routes)
    ensures var id := target.GetOr(db.next);
      Store(db, target, r, f).0.rows == Insert(db.rows, id, r.user, Count(db.rows, id), f.kept, |f.kept|)
  {
  }

  lemma StoreAdds(db: DB, target: Option<nat>, r: Request, f: Filtered)
    requires r.Save? && r.points != [] && (target.Some? ==> target.value in db.routes)
    requires NewIds(f.kept, StoredIds(db.rows, r.user))
    ensures Adds(db.rows, Store(db, target, r, f).0.rows, target.GetOr(db.next), r.user, f.kept)
  {
    StoreInserts(db, target, r, f);
    InsertAdds(db.rows, target.GetOr(db.next), r.user, Count(db.rows, target.GetOr(db.next)), f.kept);
  }

  /** An accepted upload goes to the route it should, and stores there, in their order, exactly the
      points worth keeping after those already stored. */
  lemma UploadStoresExactly(dist: Distance, db: DB, r: Request) returns (pos: seq<nat>, kept: seq<Fix>)
    requires Inv(db) && r.Save?
    ensures var (after, answer) := Handle(dist, db, r);
      if r.points == [] || |r.points| > 1000 then answer == BadRequest && after == db
      else
        && answer.Saved? && GoesTo(db, r, answer.route) && answer.created == |kept|
        && Selects(r.points, pos, kept) && Adds(db.rows, after.rows, answer.route, r.user, kept)
        && Decided(dist, Latest(db.rows, answer.route, r.user), StoredIds(db.rows, r.user), r.points, pos)
  {
    pos, kept := [], [];
    if 0 < |r.points| <= MAX_POINTS_BATCH {
      var (db1, target) := Target(db, r);
      var f, id := FilterFor(dist, db1, target, r), target.GetOr(db1.next);
      TargetIsExact(db, r);
      NoneStoredBeyond(db, r.user, |db.rows|);
      assert db.rows[..|db.rows|] == db.rows;
      var last := if target.Some? then Latest(db1.rows, target.value, r.user) else None;
      assert last == Latest(db.rows, id, r.user);
      pos := FilterIsExact(dist, last, StoredIds(db.rows, r.user), r.points);
      kept := f.kept;
      FilterKeeps(dist, last, StoredIds(db.rows, r.user), r.points);
      StoreAdds(db1, target, r, f);
    }
  }

  /** Its route belongs to the user and is completed if the upload asks so and active otherwise; other
      routes stay as they were, except that a new route closes the active one at the first point
      received. */
  lemma UploadLeavesRoutes(dist: Distance, db: DB, r: Request, x: nat)
    requires Inv(db) && r.Save? && 0 < |r.points| <= MAX_POINTS_BATCH && x in db.routes
    ensures var (after, answer) := Handle(dist, db, r);
      && answer.Saved? && answer.route in after.routes && x in after.routes
      && var route := after.routes[answer.route];
      && route.user == r.user && answer.status == route.status == (if r.endRoute then COMPLETED else ACTIVE)
      && (x != answer.route ==>
            after.routes[x] == if r.startNewRoute && IsActive(db.routes, r.user, x) && answer.route == db.next
                               then Route(r.user, COMPLETED, db.routes[x].startedAt,
                                          Some(Max(r.points[0].at, db.routes[x].startedAt)))
                               else db.routes[x])
  {
    var (db1, target) := Target(db, r);
    TargetIsExact(db, r);
    TargetKeepsInv(db, r);
    assert RouteOk(db, db.next);
    SaveKeepsInv(dist, db, r);
  }

  /** A route starts at the earliest of its old start and the added points, a new one without points
      at the first point received. */
  predicate StartsAt(before: Option<int>, received: seq<Fix>, added: seq<Fix>, start: int)
    requires received != []
  {
    if before == None && added == [] then start == received[0].at
    else
      && (before.Some? ==> start <= before.value) && (forall p :: p in added ==> start <= p.at)
      && (before == Some(start) || exists p :: p in added && p.at == start)
  }

  /** A batch ends its route at the last of the added points, else at the last one received. */
  predicate LastOf(received: seq<Fix>, added: seq<Fix>, end: int)
    requires received != []
  {
    if added == [] then end == received[|received| - 1].at
    else (forall p :: p in added ==> p.at <= end) && exists p :: p in added && p.at == end
  }

  lemma {:induction false} MinAtIsLeast(points: seq<Fix>)
    requires points != []
    ensures (forall p :: p in points ==> MinAt(points) <= p.at) && exists p :: p in points && p.at == MinAt(points)
  {
    var n := |points| - 1;
    assert points == points[..n] + [points[n]];
    if n > 0 { MinAtIsLeast(points[..n]); }
    assert points[n] in points;
  }

  lemma {:induction false} MaxAtIsGreatest(points: seq<Fix>)
    requires points != []
    ensures (forall p :: p in points ==> p.at <= MaxAt(points)) && exists p :: p in points && p.at == MaxAt(points)
  {
    var n := |points| - 1;
    assert points == points[..n] + [points[n]];
    if n > 0 { MaxAtIsGreatest(points[..n]); }
    assert points[n] in points;
  }

  lemma PreparedStarts(db: DB, target: Option<nat>, r: Request, kept: seq<Fix>)
    requires Inv(db) && r.Save? && r.points != []
    requires target.Some? ==> target.value in db.routes && db.routes[target.value].user == r.user
    ensures var id := target.GetOr(db.next);
      var before := if target.Some? then Some(db.routes[id].startedAt) else None;
      StartsAt(before, r.points, kept, Prepared(db, target, r, kept).routes[id].startedAt)
  {
    if kept != [] { MinAtIsLeast(kept); }
    if target.Some? {
      var id, first := target.value, Earliest(db.rows, target.value, r.user);
      EarliestIsEarliest(db.rows, id, r.user);
      if first.Some? {
        var i :| 0 <= i < |db.rows| && OfRoute(db.rows[i], id, r.user) && db.rows[i].point.at == first.value;
        assert RowOk(db.routes, db.rows[i]);
      }
    }
  }

  /** When a route ends that an upload went to. */
  ghost predicate EndsAt(before: Option<Route>, r: Request, added: seq<Fix>, route: Route)
    requires r.Save? && r.points != []
  {
    if !r.endRoute then route.endedAt == None
    else if before.Some? && before.value.status != ACTIVE then route.endedAt == before.value.endedAt
    else
      && route.endedAt.Some?
      && (route.endedAt.value == route.startedAt || LastOf(r.points, added, route.endedAt.value))
      && (forall end :: LastOf(r.points, added, end) ==> end <= route.endedAt.value)
  }

  lemma LastIsEndAt(r: Request, kept: seq<Fix>, end: int)
    requires r.Save? && r.points != []
    ensures LastOf(r.points, kept, end) <==> end == EndAt(r, kept)
  {
    if kept != [] { MaxAtIsGreatest(kept); }
  }

  lemma StoreSetsTimes(db: DB, target: Option<nat>, r: Request, f: Filtered)
    requires Inv(db) && r.Save? && r.points != []
    requires target.Some? ==> target.value in db.routes && db.routes[target.value].user == r.user
    requires target.Some? && db.routes[target.value].status != ACTIVE ==> r.endRoute
    ensures var (after, id) := (Store(db, target, r, f).0, target.GetOr(db.next));
      && id in after.routes
      && StartsAt(if target.Some? then Some(db.routes[id].startedAt) else None, r.points, f.kept,
                  after.routes[id].startedAt)
      && EndsAt(if target.Some? then Some(db.routes[id]) else None, r, f.kept, after.routes[id])
  {
    PreparedStarts(db, target, r, f.kept);
    assert RouteOk(db, target.GetOr(db.next));
    forall end ensures LastOf(r.points, f.kept, end) <==> end == EndAt(r, f.kept) { LastIsEndAt(r, f.kept, end); }
  }

  /** The times of the route an upload goes to: it starts at the earliest of its old start and the
      added points, and ends, if it does now, at the last of them, but never before it started. */
  lemma UploadSetsTimes(dist: Distance, db: DB, r: Request) returns (added: seq<Fix>)
    requires Inv(db) && r.Save? && 0 < |r.points| <= MAX_POINTS_BATCH
    ensures var (after, answer) := Handle(dist, db, r);
      && answer.Saved? && Adds(db.rows, after.rows, answer.route, r.user, added)
      && answer.route in after.routes
      && var (id, route) := (answer.route, after.routes[answer.route]);
      && StartsAt(if id in db.routes then Some(db.routes[id].startedAt) else None, r.points, added, route.startedAt)
      && EndsAt(if id in db.routes then Some(db.routes[id]) else None, r, added, route)
  {
    var (db1, target) := Target(db, r);
    var f, id := FilterFor(dist, db1, target, r), target.GetOr(db1.next);
    added := f.kept;
    TargetIsExact(db, r);
    TargetKeepsInv(db, r);
    assert RouteOk(db, db.next);
    var last := if target.Some? then Latest(db1.rows, id, r.user) else None;
    FilterKeeps(dist, last, StoredIds(db1.rows, r.user), r.points);
    StoreAdds(db1, target, r, f);
    StoreSetsTimes(db1, target, r, f);
  }

  // ---------------------------------------------------------------- stopping covers the route

  predicate OfRoute(row: Row, route: nat, user: nat) {
    row.route == route && row.user == user
  }

  /** The query results: some point of the route, with no later (no earlier) one stored. */
  lemma {:induction false} LatestIsLatest(rows: seq<Row>, route: nat, user: nat)
    ensures var last := Latest(rows, route, user);
      && (last.Some? ==> exists i :: 0 <= i < |rows| && OfRoute(rows[i], route, user) && rows[i].point == last.value)
      && (forall i :: 0 <= i < |rows| && OfRoute(rows[i], route, user) ==>
            last.Some? && rows[i].point.at <= last.value.at)
  {
    if rows != [] {
      var n := |rows| - 1;
      LatestIsLatest(rows[..n], route, user);
      assert rows == rows[..n] + [rows[n]];
      var best := Latest(rows[..n], route, user);
      if best.Some? {
        var i :| 0 <= i < n && OfRoute(rows[..n][i], route, user) && rows[..n][i].point == best.value;
        assert OfRoute(rows[i], route, user) && rows[i].point == best.value;
      }
      forall i | 0 <= i < n && OfRoute(rows[i], route, user) ensures best.Some? && rows[i].point.at <= best.value.at {
        assert OfRoute(rows[..n][i], route, user);
      }
    }
  }

  lemma {:induction false} EarliestIsEarliest(rows: seq<Row>, route: nat, user: nat)
    ensures var first := Earliest(rows, route, user);
      && (first.Some? ==> exists i ::
            0 <= i < |rows| && OfRoute(rows[i], route, user) && rows[i].point.at == first.value)
      && (forall i :: 0 <= i < |rows| && OfRoute(rows[i], route, user) ==>
            first.Some? && first.value <= rows[i].point.at)
  {
    if rows != [] {
      var n := |rows| - 1;
      EarliestIsEarliest(rows[..n], route, user);
      assert rows == rows[..n] + [rows[n]];
      var best := Earliest(rows[..n], route, user);
      if best.Some? {
        var i :| 0 <= i < n && OfRoute(rows[..n][i], route, user) && rows[..n][i].point.at == best.value;
        assert OfRoute(rows[i], route, user) && rows[i].point.at == best.value;
      }
      forall i | 0 <= i < n && OfRoute(rows[i], route, user) ensures best.Some? && best.value <= rows[i].point.at {
        assert OfRoute(rows[..n][i], route, user);
      }
    }
  }

  /** Stopping an active route closes it around all its points: it ends at the last of them, or now
      if it has none, but never before it started. */
  lemma StopCoversPoints(db: DB, user: nat, routeId: Option<int>, now: int)
    requires Inv(db)
    ensures var (after, answer) := StopSession(db, user, routeId, now);
      answer.Session? && answer.found.Some? && db.routes[answer.found.value].status == ACTIVE ==>
        var id := answer.found.value;
        && id in after.routes && after.routes[id].status == COMPLETED && after.routes[id].endedAt.Some?
        && (forall i :: 0 <= i < |db.rows| && db.rows[i].route == id ==>
              after.routes[id].startedAt <= db.rows[i].point.at <= after.routes[id].endedAt.value)
        && (if exists i :: 0 <= i < |db.rows| && db.rows[i].route == id
            then exists i ::
              0 <= i < |db.rows| && db.rows[i].route == id && db.rows[i].point.at == after.routes[id].endedAt.value
            else after.routes[id].endedAt.value == Max(now, db.routes[id].startedAt))
  {
    var (after, answer) := StopSession(db, user, routeId, now);
    if answer.Session? && answer.found.Some? && db.routes[answer.found.value].status == ACTIVE {
      var id := answer.found.value;
      LatestIsLatest(db.rows, id, user);
      EarliestIsEarliest(db.rows, id, user);
      forall i | 0 <= i < |db.rows| && db.rows[i].route == id
        ensures after.routes[id].startedAt <= db.rows[i].point.at <= after.routes[id].endedAt.value
      {
        assert RowOk(db.routes, db.rows[i]);
        assert OfRoute(db.rows[i], id, user);
      }
      if i :| 0 <= i < |db.rows| && db.rows[i].route == id {
        var last := Latest(db.rows, id, user);
        var k :| 0 <= k < |db.rows| && OfRoute(db.rows[k], id, user) && db.rows[k].point == last.value;
        assert RowOk(db.routes, db.rows[k]);
        assert db.rows[k].route == id && db.rows[k].point.at == after.routes[id].endedAt.value;
      }
    }
  }

  // ---------------------------------------------------------------- when an upload uncovers a route

  /** The route has a stored point after `time`. */
  predicate Late(rows: seq<Row>, id: nat, time: int) {
    exists i :: 0 <= i < |rows| && rows[i].route == id && rows[i].point.at > time
  }

  /** A completed route that ends no earlier than its last point. */
  predicate Covered(db: DB, id: nat) {
    id in db.routes && db.routes[id].status == COMPLETED && db.routes[id].endedAt.Some? ==>
      !Late(db.rows, id, db.routes[id].endedAt.value)
  }

  ghost predicate AllCovered(db: DB) {
    forall id {:trigger Covered(db, id)} :: Covered(db, id)
  }

  /** Closing the active route for a new one leaves it a point after its end. */
  ghost predicate ClosesEarly(db: DB, r: Request)
    requires r.Save? && r.points != []
  {
    var active := ActiveRoute(db.routes, r.user);
    Target(db, r).0 != db && active.Some? && Late(db.rows, active.value, Clamp(db.routes[active.value], r.points[0].at))
  }

  /** So does ending the target route at this batch's last point, or adding to a route that has
      ended already. */
  ghost predicate EndsEarly(db: DB, target: Option<nat>, r: Request, kept: seq<Fix>)
    requires r.Save? && r.points != [] && (target.Some? ==> target.value in db.routes)
  {
    target.Some? && r.endRoute &&
    (if db.routes[target.value].status == ACTIVE
     then Late(db.rows, target.value, Clamp(Prepared(db, target, r, kept).routes[target.value], EndAt(r, kept)))
     else kept != [] && db.routes[target.value].endedAt.Some? && MaxAt(kept) > db.routes[target.value].endedAt.value)
  }

  lemma {:induction false} MaxAtReached(points: seq<Fix>, time: int)
    requires points != []
    ensures MaxAt(points) > time <==> exists i :: 0 <= i < |points| && points[i].at > time
  {
    if |points| > 1 {
      var n := |points| - 1;
      MaxAtReached(points[..n], time);
      if i :| 0 <= i < n && points[..n][i].at > time { assert points[i].at > time; }
      if i :| 0 <= i < |points| && points[i].at > time { assert i < n ==> points[..n][i].at > time; }
    }
  }

  lemma LateAfterInsert(rows: seq<Row>, id: nat, user: nat, kept: seq<Fix>, x: nat, time: int)
    requires NewIds(kept, StoredIds(rows, user))
    ensures var after := Insert(rows, id, user, Count(rows, id), kept, |kept|);
      Late(after, x, time) <==> Late(rows, x, time) || (x == id && kept != [] && MaxAt(kept) > time)
  {
    var before := Count(rows, id);
    var after := Insert(rows, id, user, before, kept, |kept|);
    InsertSkipsNothing(rows, id, user, before, kept, |kept|);
    if kept != [] { MaxAtReached(kept, time); }
    if i :| 0 <= i < |after| && after[i].route == x && after[i].point.at > time {
      if i >= |rows| {
        assert after[|rows| + (i - |rows|)] == NewRow(id, user, before, kept, i - |rows|);
        assert kept[i - |rows|].at > time;
      } else {
        assert rows[i] == after[i];
      }
    }
    if i :| 0 <= i < |rows| && rows[i].route == x && rows[i].point.at > time { assert after[i] == rows[i]; }
    if x == id && kept != [] && MaxAt(kept) > time {
      var i :| 0 <= i < |kept| && kept[i].at > time;
      assert after[|rows| + i] == NewRow(id, user, before, kept, i);
    }
  }

  lemma NoRowsBeyond(db: DB, time: int)
    requires Inv(db)
    ensures !Late(db.rows, db.next, time)
  {
    assert RouteOk(db, db.next);
    forall i | 0 <= i < |db.rows| ensures db.rows[i].route != db.next { assert RowOk(db.routes, db.rows[i]); }
  }

  /** Closing the old route: every other route stays as it was. */
  lemma TargetCoverage(db: DB, r: Request, x: nat)
    requires Inv(db) && AllCovered(db) && r.Save? && r.points != []
    ensures var db1 := Target(db, r).0;
      Covered(db1, x) <==> !(ClosesEarly(db, r) && Some(x) == ActiveRoute(db.routes, r.user))
  {
    assert Covered(db, x);
  }

  /** The rest of the upload, for the route it writes to and for the others. */
  lemma StoreCoverage(db: DB, target: Option<nat>, r: Request, f: Filtered, x: nat)
    requires Inv(db) && r.Save? && r.points != []
    requires target.Some? ==> target.value in db.routes && Covered(db, target.value)
    requires target.Some? && db.routes[target.value].status != ACTIVE ==> r.endRoute
    requires NewIds(f.kept, StoredIds(db.rows, r.user))
    ensures var (after, id) := (Store(db, target, r, f).0, target.GetOr(db.next));
      Covered(after, x) <==> if x == id then !EndsEarly(db, target, r, f.kept) else Covered(db, x)
  {
    var (after, id) := (Store(db, target, r, f).0, target.GetOr(db.next));
    if x in after.routes && after.routes[x].endedAt.Some? {
      LateAfterInsert(db.rows, id, r.user, f.kept, x, after.routes[x].endedAt.value);
      NoRowsBeyond(db, after.routes[x].endedAt.value);
    }
  }

  /** From a table in which every completed route ends no earlier than its last point, an upload
      keeps it so exactly when it neither closes the old route early, nor ends its own route before
      a stored point, nor adds a later point to a route that has ended. */
  lemma UploadCoversIff(dist: Distance, db: DB, r: Request)
    requires Inv(db) && AllCovered(db) && r.Save? && 0 < |r.points| <= MAX_POINTS_BATCH
    ensures var (db1, target) := Target(db, r);
      var kept := FilterFor(dist, db1, target, r).kept;
      AllCovered(SavePoints(dist, db, r).0) <==> !ClosesEarly(db, r) && !EndsEarly(db1, target, r, kept)
  {
    var (db1, target) := Target(db, r);
    var f, after := FilterFor(dist, db1, target, r), SavePoints(dist, db, r).0;
    var last := if target.Some? then Latest(db1.rows, target.value, r.user) else None;
    TargetKeepsInv(db, r);
    FilterKeeps(dist, last, StoredIds(db1.rows, r.user), r.points);
    assert target.Some? ==> Covered(db, target.value);
    var id, active := target.GetOr(db1.next), ActiveRoute(db.routes, r.user);
    assert RouteOk(db, db.next);
    forall x: nat ensures Covered(after, x)
      <==> if x == id then !EndsEarly(db1, target, r, f.kept) else !(ClosesEarly(db, r) && Some(x) == active)
    {
      TargetCoverage(db, r, x);
      StoreCoverage(db1, target, r, f, x);
    }
    assert Covered(after, id) <==> !EndsEarly(db1, target, r, f.kept);
    if ClosesEarly(db, r) { assert active.value != id && !Covered(after, active.value); }
  }

  /** The request is an upload that leaves a point after the end of a completed route. */
  ghost predicate Uncovers(dist: Distance, db: DB, r: Request) {
    r.Save? && 0 < |r.points| <= MAX_POINTS_BATCH &&
    var (db1, target) := Target(db, r);
    ClosesEarly(db, r) || EndsEarly(db1, target, r, FilterFor(dist, db1, target, r).kept)
  }

  lemma StepCoversIff(dist: Distance, db: DB, r: Request)
    requires Inv(db) && AllCovered(db)
    ensures AllCovered(Handle(dist, db, r).0) <==> !Uncovers(dist, db, r)
  {
    var after := Handle(dist, db, r).0;
    if r.Save? {
      if 0 < |r.points| <= MAX_POINTS_BATCH { UploadCoversIff(dist, db, r); }
    } else {
      if r.Stop? { StopCoversPoints(db, r.user, r.routeId, r.now); }
      forall x ensures Covered(after, x) { assert Covered(db, x); }
    }
  }

  ghost predicate AlwaysCovered(dist: Distance, requests: seq<Request>) {
    forall n :: 0 <= n <= |requests| ==> AllCovered(Run(dist, requests[..n]))
  }

  ghost predicate NoneUncovers(dist: Distance, requests: seq<Request>) {
    forall n :: 0 <= n < |requests| ==> !Uncovers(dist, Run(dist, requests[..n]), requests[n])
  }

  lemma NextCovered(dist: Distance, requests: seq<Request>, n: nat)
    requires n < |requests| && AllCovered(Run(dist, requests[..n]))
    ensures AllCovered(Run(dist, requests[..n + 1])) <==> !Uncovers(dist, Run(dist, requests[..n]), requests[n])
  {
    RunKeepsInv(dist, requests[..n]);
    assert requests[..n + 1][..n] == requests[..n];
    StepCoversIff(dist, Run(dist, requests[..n]), requests[n]);
  }

  lemma {:induction false} CoveredUntil(dist: Distance, requests: seq<Request>, n: nat)
    requires NoneUncovers(dist, requests) && n <= |requests|
    ensures AllCovered(Run(dist, requests[..n]))
  {
    if n == 0 {
      forall id ensures Covered(Run(dist, []), id) { }
    } else {
      CoveredUntil(dist, requests, n - 1);
      NextCovered(dist, requests, n - 1);
    }
  }

  /** Over every run: completed routes end no earlier than their last point at every moment of it
      exactly when no upload on the way uncovers one; starting and stopping never do. */
  lemma CoveredIffNoneUncovers(dist: Distance, requests: seq<Request>)
    ensures AlwaysCovered(dist, requests) <==> NoneUncovers(dist, requests)
  {
    if NoneUncovers(dist, requests) {
      forall n | 0 <= n <= |requests| ensures AllCovered(Run(dist, requests[..n])) {
        CoveredUntil(dist, requests, n);
      }
    }
    if AlwaysCovered(dist, requests) {
      forall n | 0 <= n < |requests| ensures !Uncovers(dist, Run(dist, requests[..n]), requests[n]) {
        NextCovered(dist, requests, n);
      }
    }
  }

  /** It happens: a batch that ends its route, then a later point sent to the same route. */
  lemma LatePointHappens(dist: Distance)
    ensures var early, late := Fix(None, Place(0.0, 0.0), 10, true, None), Fix(None, Place(0.0, 0.0), 20, true, None);
      var db := Run(dist, [Save(1, [early], None, false, true)]);
      AllCovered(db) && !AllCovered(Handle(dist, db, Save(1, [late], Some(1), false, true)).0)
  {
    var early, late := Fix(None, Place(0.0, 0.0), 10, true, None), Fix(None, Place(0.0, 0.0), 20, true, None);
    var first, second := Save(1, [early], None, false, true), Save(1, [late], Some(1), false, true);
    var empty := DB(map[], 1, []);
    assert [first][..0] == [] && Run(dist, []) == empty;
    RunKeepsInv(dist, []);
    RunKeepsInv(dist, [first]);
    FilterOne(dist, None, StoredIds([], 1), early);
    UploadCoversIff(dist, empty, first);
    var db := Run(dist, [first]);
    assert db.routes == map[1 := Route(1, COMPLETED, 10, Some(10))];
    FilterOne(dist, Latest(db.rows, 1, 1), StoredIds(db.rows, 1), late);
    UploadCoversIff(dist, db, second);
  }

  /** A lone STOP point without an id passes every filter. */
  lemma FilterOne(dist: Distance, last: Option<Fix>, stored: set<string>, p: Fix)
    requires p.clientId.None? && p.isStop && p.accuracy.None?
    ensures Filter(dist, last, stored, [p]).kept == [p]
  {
    assert [p][..0] == [];
  }

  // ---------------------------------------------------------------- the tables

  method Bounds(points: seq<Fix>) returns (min: int, max: int)
    requires points != []
    ensures min == MinAt(points) && max == MaxAt(points)
  {
    min, max := points[0].at, points[0].at;
    for i := 1 to |points|
      invariant min == MinAt(points[..i]) && max == MaxAt(points[..i])
    {
      assert points[..i + 1][..i] == points[..i];
      if points[i].at < min { min := points[i].at; }
      if points[i].at > max { max := points[i].at; }
    }
    assert points[..|points|] == points;
  }

  class TrackingStore {
    var routes: map<nat, Route>
    var next: nat
    var rows: seq<Row>

    ghost function View(): DB
      reads this
    {
      DB(routes, next, rows)
    }

    constructor ()
      ensures View() == DB(map[], 1, []) && Inv(View())
    {
      routes, next, rows := map[], 1, [];
      new;
      forall id ensures RouteOk(View(), id) { }
    }

    method FindActive(user: nat) returns (r: Option<nat>)
      requires OneActive(routes)
      ensures r == ActiveRoute(routes, user)
    {
      if id :| id in routes && routes[id].user == user && routes[id].status == ACTIVE {
        assert IsActive(routes, user, id);
        return Some(id);
      }
      assert forall id :: !IsActive(routes, user, id);
      r := None;
    }

    method CreateRoute(user: nat, at: int) returns (id: nat)
      modifies `routes, `next
      ensures View() == Create(old(View()), user, at) && id == old(next)
    {
      id := next;
      routes := routes[id := Route(user, ACTIVE, at, None)];
      next := next + 1;
    }

    method CompleteRoute(id: nat, candidate: int)
      requires id in routes
      modifies `routes
      ensures View() == Complete(old(View()), id, candidate)
    {
      var endAt := if candidate < routes[id].startedAt then routes[id].startedAt else candidate;
      routes := routes[id := routes[id].(status := COMPLETED, endedAt := Some(endAt))];
    }

    method CoverPoint(id: nat, at: int)
      requires id in routes
      modifies `routes
      ensures View() == Cover(old(View()), id, Some(at))
    {
      if at >= routes[id].startedAt { return; }
      routes := routes[id := routes[id].(startedAt := at)];
    }

    method StartTracking(user: nat, now: int) returns (answer: Answer)
      requires Inv(View())
      modifies `routes, `next
      ensures (View(), answer) == StartSession(old(View()), user, now)
    {
      var active := FindActive(user);
      if active.None? {
        var id := CreateRoute(user, now);
        active := Some(id);
      }
      answer := Session(active);
    }

    method StopTracking(user: nat, routeId: Option<int>, now: int) returns (answer: Answer)
      requires Inv(View())
      modifies `routes
      ensures (View(), answer) == StopSession(old(View()), user, routeId, now)
    {
      var found: Option<nat>;
      if routeId.Some? {
        if routeId.value <= 0 { return BadRequest; }
        found := if routeId.value in routes && routes[routeId.value].user == user then Some(routeId.value) else None;
      } else {
        found := FindActive(user);
      }
      if found.None? { return Session(None); }
      var id := found.value;
      if routes[id].status != ACTIVE { return Session(found); }
      var last := Latest(rows, id, user);
      var first := Earliest(rows, id, user);
      if first.Some? { CoverPoint(id, first.value); }
      CompleteRoute(id, if last.Some? then last.value.at else now);
      answer := Session(found);
    }

    /** Numbers and inserts the kept points; the answer is how many rows were added. */
    method CreateMany(id: nat, user: nat, kept: seq<Fix>) returns (count: nat)
      modifies `rows
      ensures rows == Insert(old(rows), id, user, Count(old(rows), id), kept, |kept|)
      ensures count == |rows| - |old(rows)|
    {
      var existing := Count(rows, id);
      count := 0;
      for i := 0 to |kept|
        invariant rows == Insert(old(rows), id, user, existing, kept, i) && count == |rows| - |old(rows)|
      {
        var row := Row(id, user, kept[i], existing + i + 1);
        if !Clashes(rows, row) {
          rows := rows + [row];
          count := count + 1;
        }
      }
    }

    method UploadPoints(dist: Distance, r: Request) returns (answer: Answer)
      requires Inv(View()) && r.Save?
      modifies this
      ensures (View(), answer) == SavePoints(dist, old(View()), r)
    {
      var points := r.points;
      if points == [] || |points| > MAX_POINTS_BATCH { return BadRequest; }
      ghost var (db1, target) := Target(View(), r);
      var active := None;
      if r.routeId.Some? && r.routeId.value > 0 && r.routeId.value in routes && routes[r.routeId.value].user == r.user {
        active := Some(r.routeId.value);
      }
      if active.Some? && routes[active.value].status != ACTIVE && !r.endRoute { active := None; }
      if active.None? && r.startNewRoute {
        var previous := FindActive(r.user);
        if previous.Some? { CompleteRoute(previous.value, points[0].at); }
      }
      if active.None? && !r.startNewRoute { active := FindActive(r.user); }
      assert View() == db1 && active == target;
      var lastSaved := if active.Some? then Latest(rows, active.value, r.user) else None;
      var firstSaved := if active.Some? then Earliest(rows, active.value, r.user) else None;
      var f := FilterPoints(dist, lastSaved, StoredIds(rows, r.user), points);
      answer := Finish(r, active, firstSaved, f);
    }

    /** Creates the route, or moves the chosen one back to the point it has to cover, if any. */
    method PrepareRoute(user: nat, active: Option<nat>, startAt: int, cover: Option<int>) returns (id: nat)
      requires active.Some? ==> active.value in routes
      modifies `routes, `next
      ensures id == active.GetOr(old(next))
      ensures View() == if active.None? then Create(old(View()), user, startAt) else Cover(old(View()), id, cover)
    {
      if active.None? {
        id := CreateRoute(user, startAt);
      } else {
        id := active.value;
        if cover.Some? { CoverPoint(id, cover.value); }
      }
    }

    method Finish(r: Request, active: Option<nat>, firstSaved: Option<int>, f: Filtered) returns (answer: Answer)
      requires r.Save? && r.points != [] && (active.Some? ==> active.value in routes)
      requires firstSaved == if active.Some? then Earliest(rows, active.value, r.user) else None
      modifies this
      ensures (View(), answer) == Store(old(View()), active, r, f)
    {
      var id, count, endAt := 0, 0, r.points[|r.points| - 1].at;
      if f.kept == [] {
        id := PrepareRoute(r.user, active, r.points[0].at, firstSaved);
      } else {
        var minTs, maxTs := Bounds(f.kept);
        endAt := maxTs;
        id := PrepareRoute(r.user, active, minTs, Some(MinOption(firstSaved, minTs)));
        count := CreateMany(id, r.user, f.kept);
      }
      assert DB(routes, next, old(rows)) == Prepared(old(View()), active, r, f.kept);
      assert endAt == EndAt(r, f.kept);
      if r.endRoute && routes[id].status == ACTIVE { CompleteRoute(id, endAt); }
      answer := Saved(id, count, routes[id].status, f.duplicates, f.inaccurate, f.jitter);
    }
  }
}
