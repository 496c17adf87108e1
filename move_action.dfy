/**
 * resource/function/move_action.py: the arithmetic of the `move` controller.
 * The map picture and the game world use two coordinate systems related by
 * a shift and a scale (`transform_loc`); the nearest teleport point to a
 * target is found by a scan over the teleport table
 * (`transport_to_nest_xy`); turning the character reads its heading,
 * wraps the angle difference into a half turn and moves the mouse by a
 * number of steps chosen by how far off the heading is (`turn`).
 *
 * Reading the heading, the map and the keyboard are device calls: the
 * headings read while turning are a parameter.
 */
module MoveAction {
  import opened Wrappers
  import opened Numbers

  // --- transform_loc ---

  /** The world-to-map shifts of the x and the y axis. */
  const XShift: int := 2132
  const YShift: int := 1637

  /** `"ttm"` on one axis: world coordinate to map pixel. */
  function ToMap(c: real, shift: int, offset: real): int
  {
    Trunc((c + shift as real) * 1.25 - offset)
  }

  /** `"mtt"` on one axis: map pixel to world coordinate. */
  function ToWorld(c: real, shift: int, offset: real): int
  {
    Trunc((c + offset) * 0.8) - shift
  }

  /** `type` and `loc` are truthy when present and non-empty. */
  predicate Truthy<T>(v: Option<seq<T>>)
  {
    v.Some? && v.value != []
  }

  /**
   * `transform_loc`: `None` where the source returns `False` (a missing
   * type or location, or an unknown type). A location shorter than two
   * entries makes the source raise on `loc[1]`.
   */
  function TransformLoc(kind: Option<string>, loc: Option<seq<real>>, offset: real): (r: Option<(int, int)>)
    requires Truthy(kind) && Truthy(loc) && kind.value in {"ttm", "mtt"} ==> |loc.value| >= 2
    ensures r.Some? <==> Truthy(kind) && Truthy(loc) && kind.value in {"ttm", "mtt"}
    ensures r.Some? && kind.value == "ttm" ==>
              r.value == (ToMap(loc.value[0], XShift, offset), ToMap(loc.value[1], YShift, offset))
    ensures r.Some? && kind.value == "mtt" ==>
              r.value == (ToWorld(loc.value[0], XShift, offset), ToWorld(loc.value[1], YShift, offset))
  {
    if !(Truthy(kind) && Truthy(loc)) then None
    else if kind.value == "ttm" then
      Some((ToMap(loc.value[0], XShift, offset), ToMap(loc.value[1], YShift, offset)))
    else if kind.value == "mtt" then
      Some((ToWorld(loc.value[0], XShift, offset), ToWorld(loc.value[1], YShift, offset)))
    else None
  }

  /**
   * World to map and back, with the same whole offset, loses at most one
   * unit: the scale 1.25 truncates a quarter away on three of every four
   * coordinates. The trip is exact only on multiples of four from the
   * shifted origin.
   */
  lemma RoundTripOnAxis(c: int, shift: int, offset: int)
    requires c + shift >= 0 && (c + shift) as real * 1.25 - offset as real >= 0.0
    ensures var back := ToWorld(ToMap(c as real, shift, offset as real) as real, shift, offset as real);
            (back == c <==> (c + shift) % 4 == 0) && c - 1 <= back <= c
  {
    var a := c + shift;
    var q, r := a / 4, a % 4;
    assert a == 4 * q + r;
    var m := ToMap(c as real, shift, offset as real);
    assert (a as real) * 1.25 - offset as real == (5 * q + r - offset) as real + 0.25 * r as real;
    assert m == 5 * q + r - offset;
    assert (m as real + offset as real) * 0.8 == (4 * q) as real + 0.8 * r as real;
    var back := ToWorld(m as real, shift, offset as real);
    if r == 0 {
      assert back == 4 * q - shift;
    } else if r == 1 {
      assert back == 4 * q - shift;
    } else if r == 2 {
      assert back == 4 * q + 1 - shift;
    } else {
      assert back == 4 * q + 2 - shift;
    }
  }

  // --- transport_to_nest_xy ---

  /** A teleport point `{id, x, y}` of the teleport table. */
  datatype Stop = Stop(id: string, x: int, y: int)

  /** An entry of `transport_loc` with its `location` list. */
  datatype Group = Group(locations: seq<Stop>)

  /** The starting `min_dis`: a distance no real point is expected to reach. */
  const Unreached: int := 114514

  /** `Unreached` squared, the bound squared distances are compared against. */
  const UnreachedSquared: int := 13113456196

  /**
   * What `transport_to_nest_xy` returns: the id, the distance and the
   * point. Distances are kept squared: `calculated_distance` takes a
   * square root, which keeps their order.
   */
  datatype Found = Found(id: Option<string>, squaredDistance: int, loc: (int, int))

  function SquaredDistance(s: Stop, x: int, y: int): (d: int)
    ensures d >= 0
  {
    (s.x - x) * (s.x - x) + (s.y - y) * (s.y - y)
  }

  /** The points of every group, in table order. */
  function Flatten(groups: seq<Group>): (r: seq<Stop>)
  {
    if groups == [] then [] else Flatten(groups[..|groups| - 1]) + groups[|groups| - 1].locations
  }

  /** The scan of lines 68-74 over the points in order: a point replaces the best so far only when strictly nearer. */
  function Closest(stops: seq<Stop>, x: int, y: int): Found
  {
    if stops == [] then Found(None, UnreachedSquared, (0, 0))
    else
      var best := Closest(stops[..|stops| - 1], x, y);
      var last := stops[|stops| - 1];
      var d := SquaredDistance(last, x, y);
      if d < best.squaredDistance then Found(Some(last.id), d, (last.x, last.y)) else best
  }

  /**
   * The scan finds the first of the nearest points, and nothing unless some
   * point is nearer than `Unreached`; then it reports `(None, 114514, (0, 0))`.
   */
  lemma {:induction false} ClosestIsFirstNearest(stops: seq<Stop>, x: int, y: int)
    ensures var r := Closest(stops, x, y);
      && (r.id.None? ==> r == Found(None, UnreachedSquared, (0, 0)))
      && (r.id.None? <==> forall j :: 0 <= j < |stops| ==> SquaredDistance(stops[j], x, y) >= UnreachedSquared)
      && (r.id.Some? ==>
            exists i :: 0 <= i < |stops| && r == Found(Some(stops[i].id), SquaredDistance(stops[i], x, y), (stops[i].x, stops[i].y))
              && (forall j :: 0 <= j < i ==> SquaredDistance(stops[j], x, y) > r.squaredDistance))
      && r.squaredDistance <= UnreachedSquared
      && (forall j :: 0 <= j < |stops| ==> r.squaredDistance <= SquaredDistance(stops[j], x, y))
  {
    if stops != [] {
      var init := stops[..|stops| - 1];
      ClosestIsFirstNearest(init, x, y);
      assert forall j :: 0 <= j < |init| ==> init[j] == stops[j];
    }
  }

  /** One more point in the scan. */
  lemma ClosestSnoc(seen: seq<Stop>, s: Stop, x: int, y: int)
    ensures var best := Closest(seen, x, y);
            var d := SquaredDistance(s, x, y);
            Closest(seen + [s], x, y) == if d < best.squaredDistance then Found(Some(s.id), d, (s.x, s.y)) else best
  {
    assert (seen + [s])[..|seen|] == seen;
  }

  /** One more group of points. */
  lemma FlattenSnoc(groups: seq<Group>, g: nat)
    requires g < |groups|
    ensures Flatten(groups[..g + 1]) == Flatten(groups[..g]) + groups[g].locations
  {
    assert groups[..g + 1][..g] == groups[..g];
  }

  /** `transport_to_nest_xy` as written: the nested loop over groups and their points. */
  method TransportToNest(groups: seq<Group>, x: int, y: int) returns (r: Found)
    ensures r == Closest(Flatten(groups), x, y)
  {
    r := Found(None, UnreachedSquared, (0, 0));
    var g := 0;
    while g < |groups|
      invariant 0 <= g <= |groups|
      invariant r == Closest(Flatten(groups[..g]), x, y)
    {
      var stops := groups[g].locations;
      var k := 0;
      assert Flatten(groups[..g]) + stops[..k] == Flatten(groups[..g]);
      while k < |stops|
        invariant 0 <= k <= |stops|
        invariant r == Closest(Flatten(groups[..g]) + stops[..k], x, y)
      {
        var s := stops[k];
        var d := SquaredDistance(s, x, y);
        ClosestSnoc(Flatten(groups[..g]) + stops[..k], s, x, y);
        assert Flatten(groups[..g]) + stops[..k + 1] == Flatten(groups[..g]) + stops[..k] + [s];
        if d < r.squaredDistance {
          r := Found(Some(s.id), d, (s.x, s.y));
        }
        k := k + 1;
      }
      FlattenSnoc(groups, g);
      assert stops[..k] == stops;
      g := g + 1;
    }
    assert groups[..g] == groups;
  }

  // --- turn ---

  /** One pass of the turning loop: hold still, or move the mouse right or left by a number of steps. */
  datatype Turn = Hold | Right(steps: nat) | Left(steps: nat)

  /** Lines 113-116: an offset outside a half turn is moved back by one full turn. */
  function Wrap(offset: int): (r: int)
    ensures -540 <= offset <= 540 ==> -180 <= r <= 180
    ensures r == offset || r == offset + 360 || r == offset - 360
  {
    if offset < -180 then 360 + offset
    else if offset > 180 then -360 + offset
    else offset
  }

  /** Lines 118-127 (and 129-138 mirrored): the mouse steps for an offset of more than 10 degrees. */
  function Steps(magnitude: int): (n: nat)
    requires magnitude > 10
    ensures n in {1, 2, 4, 6}
    ensures n == 1 <==> magnitude < 40
    ensures n == 2 <==> 40 <= magnitude < 55
    ensures n == 4 <==> 55 <= magnitude < 70
    ensures n == 6 <==> magnitude >= 70
  {
    if magnitude < 25 then 1
    else if magnitude < 40 then 1
    else if magnitude < 55 then 2
    else if magnitude < 70 then 4
    else 6
  }

  /** Lines 107-140: the move made for the heading difference `offset`. */
  function TurnFor(offset: int): (t: Turn)
    ensures t.Hold? <==> -10 <= Wrap(offset) <= 10
    ensures t.Right? <==> Wrap(offset) > 10
    ensures t.Right? ==> t.steps == Steps(Wrap(offset))
    ensures t.Left? ==> t.steps == Steps(-Wrap(offset))
  {
    var o := Wrap(offset);
    if o > 10 then Right(Steps(o))
    else if o < -10 then Left(Steps(-o))
    else Hold
  }

  function Mirror(t: Turn): Turn
  {
    match t
    case Hold => Hold
    case Right(n) => Left(n)
    case Left(n) => Right(n)
  }

  /** Turning is symmetric: the opposite offset gives the same number of steps the other way. */
  lemma TurnMirrors(offset: int)
    ensures TurnFor(-offset) == Mirror(TurnFor(offset))
  {
    assert Wrap(-offset) == -Wrap(offset);
  }

  /** A heading farther off (on the same side, within a half turn) never takes fewer steps. */
  lemma StepsGrow(a: int, b: int)
    requires 10 < a <= b
    ensures Steps(a) <= Steps(b)
  {
  }

  /**
   * `turn` over the headings the loop reads: each reading before the first
   * one within 10 degrees gives a move; the loop stops at that reading, or
   * (in this model) when the readings run out.
   */
  method TurnToward(aim: int, readings: seq<int>) returns (moves: seq<Turn>, aligned: bool)
    ensures |moves| <= |readings|
    ensures forall i :: 0 <= i < |moves| ==> moves[i] == TurnFor(aim - readings[i]) && !moves[i].Hold?
    ensures aligned ==> |moves| < |readings| && TurnFor(aim - readings[|moves|]).Hold?
    ensures !aligned ==> |moves| == |readings|
    ensures aligned <==> exists i :: 0 <= i < |readings| && TurnFor(aim - readings[i]).Hold?
  {
    moves := [];
    aligned := false;
    var i := 0;
    while i < |readings|
      invariant 0 <= i <= |readings| && |moves| == i
      invariant forall j :: 0 <= j < i ==> moves[j] == TurnFor(aim - readings[j]) && !moves[j].Hold?
    {
      var t := TurnFor(aim - readings[i]);
      if t.Hold? {
        aligned := true;
        return;
      }
      moves := moves + [t];
      i := i + 1;
    }
  }
}
