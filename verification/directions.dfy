/** `getRouteDirections` of `utils/mapUtils.ts`: ask the directions service
    for a route between two points and flatten the steps of the first leg
    of the first route into a polyline, a start and an end point per step.
    The service's answer is a parameter; coordinates are copied, never
    computed with, so they are `real`s. */
module Directions {
  import opened Outcomes

  /** A map point, `{ latitude, longitude }`. */
  datatype Point = Point(latitude: real, longitude: real)

  /** The service's `{ lat, lng }`. */
  datatype LatLng = LatLng(lat: real, lng: real)

  datatype Step = Step(startLocation: LatLng, endLocation: LatLng)
  datatype Leg = Leg(steps: seq<Step>)
  datatype Route = Route(legs: seq<Leg>)

  /** The outcome of `fetch(url)` and `response.json()`: a rejection, or a
      body whose `routes` may be absent. */
  datatype DirectionsReply = FetchThrew(message: string) | Body(routes: Option<seq<Route>>)

  /** The request sent: origin, destination and the API key of the URL. */
  datatype Request = Request(origin: Point, destination: Point, key: string)

  /** The polyline returned, and the request made, if one was. */
  datatype DirectionsCall = DirectionsCall(points: seq<Point>, requested: Option<Request>)

  function ToPoint(l: LatLng): Point {
    Point(l.lat, l.lng)
  }

  /** The `reduce` over the steps: `coords` followed by each step's start
      and end, in step order. */
  function PushSteps(coords: seq<Point>, steps: seq<Step>): (r: seq<Point>)
    ensures |r| == |coords| + 2 * |steps|
    ensures r[..|coords|] == coords
    ensures forall i :: 0 <= i < |steps| ==>
              r[|coords| + 2 * i] == ToPoint(steps[i].startLocation)
              && r[|coords| + 2 * i + 1] == ToPoint(steps[i].endLocation)
    decreases |steps|
  {
    if |steps| == 0 then coords
    else
      var r := PushSteps(coords + [ToPoint(steps[0].startLocation), ToPoint(steps[0].endLocation)], steps[1..]);
      assert forall i :: 1 <= i < |steps| ==> steps[1..][i - 1] == steps[i];
      r
  }

  /** The polyline of a list of steps. */
  function StepsToPoints(steps: seq<Step>): (r: seq<Point>)
    ensures |r| == 2 * |steps|
    ensures forall i :: 0 <= i < |steps| ==>
              r[2 * i] == ToPoint(steps[i].startLocation) && r[2 * i + 1] == ToPoint(steps[i].endLocation)
  {
    PushSteps([], steps)
  }

  /** The polyline of consecutive step lists is the concatenation of their
      polylines. */
  lemma StepsConcat(a: seq<Step>, b: seq<Step>)
    ensures StepsToPoints(a + b) == StepsToPoints(a) + StepsToPoints(b)
  {
    var l, r := StepsToPoints(a + b), StepsToPoints(a) + StepsToPoints(b);
    assert |l| == |r|;
    forall k | 0 <= k < |l|
      ensures l[k] == r[k]
    {
      var i := k / 2;
      if i < |a| {
        assert (a + b)[i] == a[i];
      } else {
        assert (a + b)[i] == b[i - |a|];
        assert k - 2 * |a| == 2 * (i - |a|) + k % 2;
      }
    }
  }

  /** `getRouteDirections(origin, destination)` with the configured key and
      the service's reply. */
  function GetRouteDirections(key: Option<string>, origin: Point, destination: Point, reply: DirectionsReply): (c: DirectionsCall)
    ensures c.requested.Some? <==> Truthy(key)
    ensures c.requested.Some? ==> c.requested.value == Request(origin, destination, key.value)
    ensures !Truthy(key) || reply.FetchThrew? ==> c.points == []
    ensures reply.Body? && (reply.routes.None? || |reply.routes.value| == 0) ==> c.points == []
    ensures Truthy(key) && reply.Body? && reply.routes.Some? && |reply.routes.value| > 0 ==>
              if |reply.routes.value[0].legs| == 0 then c.points == []
              else c.points == StepsToPoints(reply.routes.value[0].legs[0].steps)
  {
    if !Truthy(key) then DirectionsCall([], None)
    else
      var request := Some(Request(origin, destination, key.value));
      match reply
      case FetchThrew(_) => DirectionsCall([], request)
      case Body(routes) =>
        if routes.None? || |routes.value| == 0 then DirectionsCall([], request)
        // `legs[0]` of a route without legs throws, and the catch returns [].
        else if |routes.value[0].legs| == 0 then DirectionsCall([], request)
        else DirectionsCall(StepsToPoints(routes.value[0].legs[0].steps), request)
  }

  /** Only the first leg of the first route is read: routes after the first,
      and legs after the first, do not change the polyline. */
  lemma OnlyFirstLeg(key: Option<string>, origin: Point, destination: Point,
                     first: Leg, otherLegs: seq<Leg>, otherRoutes: seq<Route>, moreLegs: seq<Leg>, moreRoutes: seq<Route>)
    ensures GetRouteDirections(key, origin, destination, Body(Some([Route([first] + otherLegs)] + otherRoutes)))
            == GetRouteDirections(key, origin, destination, Body(Some([Route([first] + moreLegs)] + moreRoutes)))
  {
  }
}
