/** The camera calibration card (src/components/CameraCalibrationCard.jsx): the four corner
    points of the capture area read from the snapshot's `camerapoint` object, the drag of one
    point and the write sent when it is released, and the one-second gate on image reloads. */
module CameraCalibration {
  import opened Wrappers
  import opened Strings
  import opened Js
  import opened ParamUtils
  import opened Client

  /** A corner in percent of the image, as integers. */
  datatype Point = Point(x: int, y: int)

  predicate InImage(p: Point) {
    0 <= p.x <= 100 && 0 <= p.y <= 100
  }

  /** The corner point `i` stands for when nothing usable is reported: top-left, top-right,
      bottom-left, bottom-right. */
  function Corner(i: nat): (p: Point)
    ensures InImage(p)
  {
    Point(if i == 1 || i == 3 then 100 else 0, if i == 2 || i == 3 then 100 else 0)
  }

  /** `DEFAULT_POINTS`. */
  const DefaultPoints: seq<Point> := [Point(0, 0), Point(100, 0), Point(0, 100), Point(100, 100)]

  /** The default points are the corner of each index. */
  lemma DefaultPointsAreCorners()
    ensures |DefaultPoints| == 4
    ensures forall i :: 0 <= i < 4 ==> DefaultPoints[i] == Corner(i)
  {
  }

  /** An entry the parser accepts: an object holding both `x` and `y`. */
  predicate UsableEntry(entry: Option<JsValue>) {
    entry.Some? && entry.value.JObject? && "x" in entry.value.fields && "y" in entry.value.fields
  }

  /** One coordinate: `Number(v)` clamped to 0..100, the corner's coordinate when it is NaN. */
  function Coordinate(v: JsValue, corner: int): int {
    match ToNumber(v)
    case None => corner
    case Some(n) => Clamp(0, 100, n)
  }

  /** The point read from entry `i` of `camerapoint`. */
  function EntryPoint(entry: Option<JsValue>, i: nat): (p: Point)
    ensures InImage(p)
    ensures !UsableEntry(entry) ==> p == Corner(i)
    ensures UsableEntry(entry) && ToNumber(entry.value.fields["x"]).None? ==> p.x == Corner(i).x
    ensures UsableEntry(entry) && ToNumber(entry.value.fields["y"]).None? ==> p.y == Corner(i).y
  {
    if UsableEntry(entry) then
      var fields := entry.value.fields;
      Point(Coordinate(fields["x"], Corner(i).x), Coordinate(fields["y"], Corner(i).y))
    else Corner(i)
  }

  /** A coordinate in 0..100 is read exactly, one outside is pulled to the nearer edge. */
  lemma CoordinateRead(n: int, corner: int)
    ensures 0 <= n <= 100 ==> Coordinate(JNum(n), corner) == n
    ensures n < 0 ==> Coordinate(JNum(n), corner) == 0
    ensures n > 100 ==> Coordinate(JNum(n), corner) == 100
    ensures Coordinate(JStr(IntToDecimal(n)), corner) == Coordinate(JNum(n), corner)
  {
    NumberOfDecimalString(n);
  }

  /** `cp[String(i)]`: the entry under the decimal key, `None` for `undefined`. */
  function Entry(cp: map<string, JsValue>, i: nat): (e: Option<JsValue>)
    ensures e.Some? <==> IntToDecimal(i) in cp
  {
    var key := IntToDecimal(i);
    if key in cp then Some(cp[key]) else None
  }

  /** The four points a `camerapoint` object describes. */
  function PointsOf(cp: map<string, JsValue>): (pts: seq<Point>)
    ensures |pts| == 4
    ensures forall i :: 0 <= i < 4 ==> pts[i] == EntryPoint(Entry(cp, i), i)
  {
    seq(4, (i: int) requires 0 <= i < 4 => EntryPoint(Entry(cp, i), i))
  }

  /** An object without usable entries reads as the default points. */
  lemma EmptyCalibrationIsDefault()
    ensures PointsOf(map[]) == DefaultPoints
  {
    assert forall i :: 0 <= i < 4 ==> PointsOf(map[])[i] == Corner(i) == DefaultPoints[i];
  }

  /** `params?.camerapoint` when it is an object. */
  predicate HasCalibration(params: Params) {
    params.Some? && "camerapoint" in params.value && params.value["camerapoint"].JObject?
  }

  /** `parseCameraPoints(params)`: `None` exactly when there is no `camerapoint` object,
      otherwise one point per index 0..3. */
  method ParseCameraPoints(params: Params) returns (r: Option<seq<Point>>)
    ensures r.None? <==> !HasCalibration(params)
    ensures r.Some? ==> r.value == PointsOf(params.value["camerapoint"].fields)
  {
    if !HasCalibration(params) {
      return None;
    }
    var cp := params.value["camerapoint"].fields;
    var pts: seq<Point> := [];
    var i := 0;
    while i < 4
      invariant 0 <= i <= 4
      invariant |pts| == i
      invariant forall j :: 0 <= j < i ==> pts[j] == EntryPoint(Entry(cp, j), j)
    {
      var key := IntToDecimal(i);
      var p;
      if key in cp && cp[key].JObject? && "x" in cp[key].fields && "y" in cp[key].fields {
        var entry := cp[key].fields;
        var x := Coordinate(entry["x"], Corner(i).x);
        var y := Coordinate(entry["y"], Corner(i).y);
        p := Point(x, y);
      } else {
        p := Corner(i);
      }
      pts := pts + [p];
      i := i + 1;
    }
    if |pts| == 4 {
      return Some(pts);
    }
    return None;
  }

  /** The points the card shows after the params effect: the parsed points, or the defaults. */
  function ShownPoints(params: Params): (pts: seq<Point>)
    ensures |pts| == 4 && forall i :: 0 <= i < 4 ==> InImage(pts[i])
    ensures !HasCalibration(params) ==> pts == DefaultPoints
  {
    if HasCalibration(params) then PointsOf(params.value["camerapoint"].fields) else DefaultPoints
  }

  const PointUpdated := "Camera point updated"
  const PointFailed := "Failed to set camera point"

  /** The message after the point write settles. */
  function PointMessage(reply: Reply<string>): (m: string)
    ensures reply.Replied? ==> m == PointUpdated
    ensures reply.Failed? ==> m == ErrorText(reply.message, PointFailed)
  {
    if reply.Replied? then PointUpdated else ErrorText(reply.message, PointFailed)
  }

  /** The reload gate: a reload at `now` is accepted when `now` is not before `blockedUntil`,
      and an accepted one blocks reloads for the next second. */
  function Gate(blockedUntil: int, now: int): (r: (bool, int))
    ensures r.0 <==> now >= blockedUntil
    ensures r.0 ==> r.1 == now + 1000
    ensures !r.0 ==> r.1 == blockedUntil
  {
    if now < blockedUntil then (false, blockedUntil) else (true, now + 1000)
  }

  /** After an accepted reload, every later attempt within the second is refused, however
      many attempts came between them. */
  lemma {:induction false} ReloadsSpaced(blockedUntil: int, first: int, later: seq<int>)
    requires Gate(blockedUntil, first).0
    requires forall j, k :: 0 <= j <= k < |later| ==> later[j] <= later[k]
    ensures var b := Gate(blockedUntil, first).1;
      forall k :: 0 <= k < |later| && later[k] < first + 1000 ==> !Gate(GateAfter(b, later[..k]), later[k]).0
  {
    var b := Gate(blockedUntil, first).1;
    forall k | 0 <= k < |later| && later[k] < first + 1000
      ensures !Gate(GateAfter(b, later[..k]), later[k]).0
    {
      assert forall j :: 0 <= j < k ==> later[..k][j] <= later[k];
      StillBlocked(b, later[..k], first + 1000);
    }
  }

  /** The blocking time after a run of reload attempts. */
  function GateAfter(blockedUntil: int, times: seq<int>): int
    decreases |times|
  {
    if times == [] then blockedUntil
    else Gate(GateAfter(blockedUntil, times[..|times| - 1]), times[|times| - 1]).1
  }

  /** Attempts before `until` leave a gate blocked until `until` as it was. */
  lemma {:induction false} StillBlocked(blockedUntil: int, times: seq<int>, until: int)
    requires blockedUntil == until
    requires forall k :: 0 <= k < |times| ==> times[k] < until
    ensures GateAfter(blockedUntil, times) == until
    decreases |times|
  {
    if times != [] {
      StillBlocked(blockedUntil, times[..|times| - 1], until);
    }
  }

  /** The write of point number `number` (1-based) at `p`. */
  function PointWrite(number: nat, p: Point): string {
    SetCameraPointPath(IntToDecimal(number), IntToDecimal(p.x), IntToDecimal(p.y))
  }

  /** The controller reads the point number and both coordinates back from a point write. */
  lemma PointWriteRoundTrip(number: nat, p: Point)
    ensures ParseQuery(PointWrite(number, p))
         == Some([("point", IntToDecimal(number)), ("left", IntToDecimal(p.x)), ("top", IntToDecimal(p.y))])
  {
    var fields := [("point", IntToDecimal(number)), ("left", IntToDecimal(p.x)), ("top", IntToDecimal(p.y))];
    assert PlainKeys(fields);
    PathRoundTrip("/setcamerapoint", fields);
  }

  /** The card's state: the points shown, the point being dragged, the last point a move
      produced, the reload gate and the image request stamp. The effect that re-reads the
      points depends on the snapshot and on the dragged point, so it also runs when a drag
      ends: a caller models that by calling `OnParams` with the current snapshot after
      `PointerUp`, which snaps the points back to the snapshot until the next refresh. */
  class CalibrationCard {
    var points: seq<Point>
    var dragging: Option<nat>
    var lastPoint: Option<(nat, Point)>
    var blockedUntil: int
    var cooldown: nat
    var stamp: int
    var loading: bool

    ghost predicate Valid()
      reads this
    {
      && |points| == 4
      && (forall i :: 0 <= i < 4 ==> InImage(points[i]))
      && (dragging.Some? ==> dragging.value < 4)
      && (lastPoint.Some? ==> InImage(lastPoint.value.1))
    }

    constructor(now: int)
      ensures Valid() && points == DefaultPoints && dragging.None? && lastPoint.None?
      ensures blockedUntil == 0 && cooldown == 0 && stamp == now && loading
    {
      points := DefaultPoints;
      dragging := None;
      lastPoint := None;
      blockedUntil := 0;
      cooldown := 0;
      stamp := now;
      loading := true;
    }

    /** The points effect: nothing while a point is dragged, otherwise the parsed points or
        the defaults. */
    method OnParams(params: Params)
      requires Valid()
      modifies this`points
      ensures Valid()
      ensures old(dragging).Some? ==> points == old(points)
      ensures old(dragging).None? ==> points == ShownPoints(params)
      ensures dragging == old(dragging) && lastPoint == old(lastPoint)
      ensures blockedUntil == old(blockedUntil) && cooldown == old(cooldown) && stamp == old(stamp) && loading == old(loading)
    {
      if dragging.Some? {
        return;
      }
      var parsed := ParseCameraPoints(params);
      if parsed.Some? {
        points := parsed.value;
      } else {
        points := DefaultPoints;
      }
    }

    /** A pointer goes down on point `i`. */
    method PointerDown(i: nat)
      requires Valid() && i < 4
      modifies this`dragging
      ensures Valid() && dragging == Some(i)
      ensures points == old(points) && lastPoint == old(lastPoint)
      ensures blockedUntil == old(blockedUntil) && cooldown == old(cooldown) && stamp == old(stamp) && loading == old(loading)
    {
      dragging := Some(i);
    }

    /** A move while dragging: the rounded image position, clamped to 0..100, becomes the
        dragged point and the last point; other points stay. Without a drag nothing happens. */
    method PointerMove(x: int, y: int)
      requires Valid()
      modifies this`lastPoint, this`points
      ensures Valid() && dragging == old(dragging)
      ensures blockedUntil == old(blockedUntil) && cooldown == old(cooldown) && stamp == old(stamp) && loading == old(loading)
      ensures old(dragging).None? ==> points == old(points) && lastPoint == old(lastPoint)
      ensures old(dragging).Some? ==>
        var p := Point(Clamp(0, 100, x), Clamp(0, 100, y));
        points == old(points)[old(dragging).value := p] && lastPoint == Some((old(dragging).value, p))
    {
      if dragging.None? {
        return;
      }
      var idx := dragging.value;
      var p := Point(Clamp(0, 100, x), Clamp(0, 100, y));
      lastPoint := Some((idx, p));
      points := points[idx := p];
    }

    /** The pointer is released: the drag ends and the point is written with its 1-based
        number, using the last moved position of this point if there is one, otherwise the
        point shown. Without a drag nothing is sent. */
    method PointerUp() returns (request: Option<string>)
      requires Valid()
      modifies this`dragging
      ensures Valid() && dragging.None?
      ensures blockedUntil == old(blockedUntil) && cooldown == old(cooldown) && stamp == old(stamp) && loading == old(loading)
      ensures old(dragging).None? <==> request.None?
      ensures old(dragging).Some? ==>
        var idx := old(dragging).value;
        var pt := if old(lastPoint).Some? && old(lastPoint).value.0 == idx then old(lastPoint).value.1 else old(points)[idx];
        request == Some(PointWrite(idx + 1, pt))
      ensures points == old(points) && lastPoint == old(lastPoint)
    {
      if dragging.None? {
        return None;
      }
      var idx := dragging.value;
      dragging := None;
      var pt := if lastPoint.Some? && lastPoint.value.0 == idx then lastPoint.value.1 else points[idx];
      request := Some(PointWrite(idx + 1, pt));
    }

    /** `handleRefresh` at time `now`: refused while blocked; otherwise the gate closes for a
        second, the countdown starts at one second and the image is requested again. */
    method Refresh(now: int) returns (accepted: bool)
      requires Valid()
      modifies this`blockedUntil, this`cooldown, this`loading, this`stamp
      ensures Valid()
      ensures lastPoint == old(lastPoint)
      ensures (accepted, blockedUntil) == Gate(old(blockedUntil), now)
      ensures !accepted ==> cooldown == old(cooldown) && stamp == old(stamp) && loading == old(loading)
      ensures accepted ==> cooldown == 1 && stamp == now && loading
      ensures points == old(points) && dragging == old(dragging)
    {
      if now < blockedUntil {
        return false;
      }
      blockedUntil := now + 1000;
      cooldown := 1;
      loading := true;
      stamp := now;
      accepted := true;
    }

    /** One tick of the countdown. */
    method Tick()
      requires Valid()
      modifies this`cooldown
      ensures Valid()
      ensures old(cooldown) <= 1 ==> cooldown == 0
      ensures old(cooldown) > 1 ==> cooldown == old(cooldown) - 1
      ensures points == old(points) && blockedUntil == old(blockedUntil)
      ensures dragging == old(dragging) && lastPoint == old(lastPoint) && stamp == old(stamp) && loading == old(loading)
    {
      if cooldown <= 1 {
        cooldown := 0;
      } else {
        cooldown := cooldown - 1;
      }
    }
  }

  /** Dragging point `i` and releasing it writes that point as number `i + 1` at the clamped
      position. */
  method DragAndRelease(i: nat, x: int, y: int) returns (request: Option<string>)
    requires i < 4
    ensures request == Some(PointWrite(i + 1, Point(Clamp(0, 100, x), Clamp(0, 100, y))))
  {
    var card := new CalibrationCard(0);
    card.PointerDown(i);
    card.PointerMove(x, y);
    request := card.PointerUp();
  }
}
