/** What the tracking modules share: places, the distance between them, and the stored points of a
    route as the reports read them (src/routes/tracking.ts). */
module RoutePoints {
  datatype Place = Place(latitude: real, longitude: real)

  type Distance = (Place, Place) -> real

  datatype Point = Point(route: nat, place: Place, at: int, isStop: bool)

  predicate InOrder(points: seq<Point>) {
    forall i, j :: 0 <= i <= j < |points| ==> points[i].at <= points[j].at
  }
}
