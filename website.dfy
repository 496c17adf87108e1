/**
 * resource/function/website.py: the location table of the map site and the
 * greedy nearest-neighbour tour through a set of points.
 *
 * Distances are compared through their squares: `calculate_distance` takes a
 * square root, which does not change which of two distances is smaller.
 */
module Website {
  import opened Wrappers
  import opened Lists

  /** A location `(id, x, y)`. */
  datatype Point = Point(id: string, x: int, y: int)

  /** An entry of `object_loc`: a name and its locations. */
  datatype Entry = Entry(name: string, locations: seq<Point>)

  // --- web_get_object_loc ---

  /** The locations of the first entry carrying the name. */
  function FirstNamed(table: seq<Entry>, name: string): (r: Option<seq<Point>>)
    ensures r.None? <==> forall i :: 0 <= i < |table| ==> table[i].name != name
    ensures r.Some? ==> exists i :: 0 <= i < |table| && table[i].name == name && r.value == table[i].locations &&
                                    forall j :: 0 <= j < i ==> table[j].name != name
  {
    if table == [] then None
    else if table[0].name == name then Some(table[0].locations)
    else
      var r := FirstNamed(table[1..], name);
      assert forall i :: 1 <= i < |table| ==> table[i] == table[1..][i - 1];
      r
  }

  /** `web_get_object_loc`: nothing for an empty name, the first entry's locations, or `None` when no entry has the name. */
  function ObjectLocations(table: seq<Entry>, name: string): (r: Option<seq<Point>>)
    ensures name == "" ==> r == Some([])
    ensures name != "" ==> r == FirstNamed(table, name)
  {
    if name == "" then Some([]) else FirstNamed(table, name)
  }

  // --- greedy_tsp ---

  /** `calculate_distance`, squared. */
  function SquaredDistance(p: Point, q: Point): (d: int)
    ensures d >= 0
  {
    (p.x - q.x) * (p.x - q.x) + (p.y - q.y) * (p.y - q.y)
  }

  /** `min(unvisited, key=...)`: the index of the first point nearest to `from`. */
  function Nearest(from: Point, pts: seq<Point>): (i: nat)
    requires pts != []
    ensures i < |pts|
    ensures forall j :: 0 <= j < |pts| ==> SquaredDistance(from, pts[i]) <= SquaredDistance(from, pts[j])
    ensures forall j :: 0 <= j < i ==> SquaredDistance(from, pts[j]) > SquaredDistance(from, pts[i])
  {
    if |pts| == 1 then 0
    else
      var i := Nearest(from, pts[..|pts| - 1]);
      assert forall j :: 0 <= j < |pts| - 1 ==> pts[..|pts| - 1][j] == pts[j];
      if SquaredDistance(from, pts[|pts| - 1]) < SquaredDistance(from, pts[i]) then |pts| - 1 else i
  }

  /** Line 66: the unvisited point `min` picks. */
  function NextStop(from: Point, unvisited: seq<Point>): Point
    requires unvisited != []
  {
    unvisited[Nearest(from, unvisited)]
  }

  /** Line 68: the points left unvisited once the next stop is removed. */
  function Remaining(from: Point, unvisited: seq<Point>): (r: seq<Point>)
    requires unvisited != []
    ensures |r| == |unvisited| - 1
  {
    RemoveFirst(unvisited, NextStop(from, unvisited))
  }

  /** Lines 65-69: from `from`, the nearest unvisited point, removed and visited in turn. */
  function Tour(from: Point, unvisited: seq<Point>): seq<Point>
    decreases |unvisited|
  {
    if unvisited == [] then []
    else
      var next := NextStop(from, unvisited);
      [next] + Tour(next, Remaining(from, unvisited))
  }

  /** `next(point for point in points if point[0] == start_point_id)`. */
  function FirstWithId(points: seq<Point>, id: string): (r: Option<Point>)
    ensures r.None? <==> forall i :: 0 <= i < |points| ==> points[i].id != id
    ensures r.Some? ==> r.value in points && r.value.id == id
    ensures r.Some? ==> exists i :: 0 <= i < |points| && points[i] == r.value && forall j :: 0 <= j < i ==> points[j].id != id
  {
    if points == [] then None
    else if points[0].id == id then Some(points[0])
    else
      var r := FirstWithId(points[1..], id);
      assert forall i :: 1 <= i < |points| ==> points[i] == points[1..][i - 1];
      if r.Some? then
        var i :| 0 <= i < |points[1..]| && points[1..][i] == r.value && forall j :: 0 <= j < i ==> points[1..][j].id != id;
        assert points[i + 1] == r.value && forall j :: 0 <= j < i + 1 ==> points[j].id != id;
        r
      else r
  }

  /** Line 60: the points whose id is not the start id, in order. */
  function Others(points: seq<Point>, id: string): (r: seq<Point>)
    ensures forall q :: q in r <==> q in points && q.id != id
    ensures multiset(r) <= multiset(points)
    ensures forall q :: multiset(r)[q] == if q.id != id then multiset(points)[q] else 0
  {
    if points == [] then []
    else
      var rest := Others(points[1..], id);
      assert points == [points[0]] + points[1..];
      if points[0].id != id then [points[0]] + rest else rest
  }

  /**
   * `greedy_tsp`: the start point, the tour through the others, the start
   * point again; `None` where `next` raises `StopIteration`.
   */
  function GreedyTour(points: seq<Point>, startId: string): Option<seq<Point>>
  {
    match FirstWithId(points, startId)
    case None => None
    case Some(s) => Some([s] + Tour(s, Others(points, startId)) + [s])
  }

  /** `greedy_tsp` as written: the loop that picks, appends and removes. */
  method GreedyTsp(points: seq<Point>, startId: string) returns (path: Option<seq<Point>>)
    ensures path == GreedyTour(points, startId)
  {
    var first := FirstWithId(points, startId);
    if first.None? {
      return None;
    }
    var start := first.value;
    var p := VisitAll(start, Others(points, startId));
    path := Some(p + [start]);
  }

  /** The loop of `greedy_tsp`: from `start`, append the nearest unvisited point and remove it until none are left. */
  method VisitAll(start: Point, points: seq<Point>) returns (p: seq<Point>)
    ensures p == [start] + Tour(start, points)
  {
    hide NextStop, Remaining;
    var unvisited := points;
    p := [start];
    var current := start;
    while unvisited != []
      invariant p + Tour(current, unvisited) == [start] + Tour(start, points)
      decreases |unvisited|
    {
      var next := NextStop(current, unvisited);
      var rest := Remaining(current, unvisited);
      assert Tour(current, unvisited) == [next] + Tour(next, rest);
      assert p + Tour(current, unvisited) == (p + [next]) + Tour(next, rest);
      p := p + [next];
      unvisited := rest;
      current := next;
    }
    assert Tour(current, unvisited) == [];
  }

  // --- what the tour promises ---

  /** The next stop is one of the unvisited points, and removing it leaves the rest. */
  lemma RemainingDropsNext(from: Point, unvisited: seq<Point>)
    requires unvisited != []
    ensures NextStop(from, unvisited) in unvisited
    ensures multiset(Remaining(from, unvisited)) + multiset{NextStop(from, unvisited)} == multiset(unvisited)
  {
  }

  /** The tour visits every unvisited point exactly once. */
  lemma {:induction false} TourVisitsAll(from: Point, unvisited: seq<Point>)
    ensures multiset(Tour(from, unvisited)) == multiset(unvisited)
    decreases |unvisited|
  {
    if unvisited != [] {
      var next := NextStop(from, unvisited);
      var rest := Remaining(from, unvisited);
      TourVisitsAll(next, rest);
      RemainingDropsNext(from, unvisited);
      assert Tour(from, unvisited) == [next] + Tour(next, rest);
    }
  }

  /** Every point of a tour is one of the points it started with. */
  lemma TourMember(from: Point, unvisited: seq<Point>, j: nat)
    requires j < |Tour(from, unvisited)|
    ensures Tour(from, unvisited)[j] in unvisited
  {
    var t := Tour(from, unvisited);
    TourVisitsAll(from, unvisited);
    assert t[j] in multiset(t);
  }

  /** The first step goes to a point no farther from the start than any point of the tour. */
  lemma FirstStepIsNearest(from: Point, unvisited: seq<Point>, j: nat)
    requires j < |Tour(from, unvisited)|
    ensures var t := Tour(from, unvisited);
            SquaredDistance(from, t[0]) <= SquaredDistance(from, t[j])
  {
    TourMember(from, unvisited, j);
    assert Tour(from, unvisited)[0] == unvisited[Nearest(from, unvisited)];
  }

  /** Every later step goes from the point just visited to a point no farther than any point still unvisited. */
  lemma {:induction false} LaterStepIsNearest(from: Point, unvisited: seq<Point>, k: nat, j: nat)
    requires 0 < k <= j < |Tour(from, unvisited)|
    ensures var t := Tour(from, unvisited);
            SquaredDistance(t[k - 1], t[k]) <= SquaredDistance(t[k - 1], t[j])
    decreases |unvisited|
  {
    hide *;
    TourAt(from, unvisited, k);
    TourAt(from, unvisited, j);
    var next := NextStop(from, unvisited);
    var rest := Remaining(from, unvisited);
    if k == 1 {
      TourAt(from, unvisited, 0);
      FirstStepIsNearest(next, rest, j - 1);
    } else {
      TourAt(from, unvisited, k - 1);
      LaterStepIsNearest(next, rest, k - 1, j - 1);
    }
  }

  /** Position `i` of a tour: the first stop, or position `i - 1` of the tour from there. */
  lemma TourAt(from: Point, unvisited: seq<Point>, i: nat)
    requires i < |Tour(from, unvisited)|
    ensures unvisited != []
    ensures |Tour(from, unvisited)| == |Tour(NextStop(from, unvisited), Remaining(from, unvisited))| + 1
    ensures i == 0 ==> Tour(from, unvisited)[i] == NextStop(from, unvisited)
    ensures i > 0 ==> Tour(from, unvisited)[i] == Tour(NextStop(from, unvisited), Remaining(from, unvisited))[i - 1]
  {
    hide NextStop, Remaining;
  }

  /** The tour starts and ends at the first start point and visits each other point once; it fails only without a start point. */
  lemma GreedyTourShape(points: seq<Point>, startId: string)
    ensures GreedyTour(points, startId).None? <==> forall i :: 0 <= i < |points| ==> points[i].id != startId
    ensures var r := GreedyTour(points, startId);
      r.Some? ==>
        && |r.value| == |Others(points, startId)| + 2
        && r.value[0] == r.value[|r.value| - 1] == FirstWithId(points, startId).value
        && r.value[0].id == startId
        && multiset(r.value[1..|r.value| - 1]) == multiset(Others(points, startId))
  {
    var first := FirstWithId(points, startId);
    if first.Some? {
      var s := first.value;
      var t := Tour(s, Others(points, startId));
      TourVisitsAll(s, Others(points, startId));
      assert ([s] + t + [s])[1..|t| + 1] == t;
      assert |t| == |multiset(t)|;
    }
  }
}
