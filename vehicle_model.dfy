/**
 * The value of one vehicle and the two pure functions that say what the
 * simulation does to it: Spawn (the factory) and Tick (one frame of the
 * per-vehicle state machine). Floating-point coordinates and speeds are
 * reals; the sine and cosine of the turning arc are supplied by the caller
 * as `arc`, which maps an angle in degrees to the pair (sin, cos).
 */
module VehicleModel {
  import opened Intersection

  /** The integer drawing rectangle. */
  datatype Rect = Rect(x: int, y: int, w: int, h: int)

  /** A vehicle record, the value that lane queues copy. */
  datatype VehicleSnapshot = VehicleSnapshot(
    rect: Rect,
    x: real,
    y: real,
    direction: Direction,
    vtype: VehicleType,
    turnDirection: TurnDirection,
    state: VehicleState,
    speed: real,
    isInRightLane: bool,
    turnAngle: real,
    turnProgress: real,
    active: bool)

  /** The all-zero record: every number 0, every flag false, every enumeration at ordinal 0. */
  const ZeroVehicle: VehicleSnapshot :=
    VehicleSnapshot(Rect(0, 0, 0, 0), 0.0, 0.0, North, RegularCar, NoTurn, Moving,
                    0.0, false, 0.0, 0.0, false)

  /** Sine and cosine of an angle given in degrees. */
  type Arc = real -> (real, real)

  /** What every real sine and cosine satisfy on the first quadrant. */
  ghost predicate QuarterArc(arc: Arc)
  {
    forall a: real {:trigger arc(a)} :: 0.0 <= a <= 90.0 ==>
      0.0 <= arc(a).0 <= 1.0 && 0.0 <= arc(a).1 <= 1.0
  }

  // ---------------------------------------------------------------------
  // Per-type constants
  // ---------------------------------------------------------------------

  /** Cruising speed, used at creation and when a stopped vehicle moves off. */
  function BaseSpeed(t: VehicleType): (s: real)
    ensures 2.0 <= s <= 4.0
    ensures t == RegularCar <==> s == 2.0
    ensures t != RegularCar ==> s >= 3.5
  {
    match t
    case Ambulance => 4.0
    case PoliceCar => 4.0
    case FireTruck => 3.5
    case RegularCar => 2.0
  }

  /** Degrees added to the turn angle per frame. */
  function TurnSpeed(t: VehicleType): (s: real)
    ensures 1.0 <= s <= 2.0
    ensures t == RegularCar <==> s == 1.0
    ensures t != RegularCar ==> s >= 1.5
  {
    match t
    case Ambulance => 2.0
    case PoliceCar => 2.0
    case FireTruck => 1.5
    case RegularCar => 1.0
  }

  /** A C `(int)` conversion: truncation toward zero. */
  function Trunc(r: real): (n: int)
    ensures 0.0 <= r ==> n as real <= r < n as real + 1.0
    ensures r < 0.0 ==> n as real - 1.0 < r <= n as real
  {
    if 0.0 <= r then r.Floor else -((-r).Floor)
  }

  // ---------------------------------------------------------------------
  // The factory
  // ---------------------------------------------------------------------

  /** The type drawn from `rand() % 100`: 5% each emergency type, 85% regular. */
  function TypeFromDraw(typeDraw: nat): (t: VehicleType)
    ensures t == Ambulance <==> typeDraw % 100 < 5
    ensures t == PoliceCar <==> 5 <= typeDraw % 100 < 10
    ensures t == FireTruck <==> 10 <= typeDraw % 100 < 15
    ensures t == RegularCar <==> 15 <= typeDraw % 100
  {
    var roll := typeDraw % 100;
    if roll < 5 then Ambulance
    else if roll < 10 then PoliceCar
    else if roll < 15 then FireTruck
    else RegularCar
  }

  /** The turn drawn from `rand() % 100`: 15% left, 15% right, 70% straight on. */
  function TurnFromDraw(turnDraw: nat): (t: TurnDirection)
    ensures t == Left <==> turnDraw % 100 < 15
    ensures t == Right <==> 15 <= turnDraw % 100 < 30
    ensures t == NoTurn <==> 30 <= turnDraw % 100
  {
    var chance := turnDraw % 100;
    if chance < 30 then (if chance < 15 then Left else Right) else NoTurn
  }

  predicate Vertical(d: Direction)
  {
    d == North || d == South
  }

  /** Where a new vehicle is put: its rectangle, position and lane flag. */
  datatype Placement = Placement(rect: Rect, x: real, y: real, isInRightLane: bool)

  /**
   * The spawn position on approach `direction`: at the screen edge the
   * approach starts from, in the first lane or, for an odd `laneDraw`, one
   * lane width further on, then moved a quarter lane width minus half the
   * vehicle's width into the lane. The lane flag is decided before that move.
   */
  function SpawnPlacement(direction: Direction, laneDraw: nat): (p: Placement)
    ensures p.rect.x as real == p.x && p.rect.y as real == p.y
    ensures Vertical(direction) ==> p.rect.w == 20 && p.rect.h == 30
    ensures !Vertical(direction) ==> p.rect.w == 30 && p.rect.h == 20
    ensures direction == North ==> p.y == 570.0 && p.x == (if laneDraw % 2 != 0 then 450.0 else 370.0)
    ensures direction == South ==> p.y == 0.0 && p.x == (if laneDraw % 2 != 0 then 450.0 else 370.0)
    ensures direction == East ==> p.x == 0.0 && p.y == (if laneDraw % 2 != 0 then 350.0 else 270.0)
    ensures direction == West ==> p.x == 770.0 && p.y == (if laneDraw % 2 != 0 then 350.0 else 270.0)
    ensures p.isInRightLane <==> laneDraw % 2 != 0
  {
    var w := if Vertical(direction) then 20 else 30;
    var h := if Vertical(direction) then 30 else 20;
    var shift := if laneDraw % 2 != 0 then LaneWidth else 0;
    var origin: (int, int) :=
      match direction
      case North => (IntersectionX - LaneWidth / 2 + shift, WindowHeight - h)
      case South => (IntersectionX - LaneWidth / 2 + shift, 0)
      case East => (0, IntersectionY - LaneWidth / 2 + shift)
      case West => (WindowWidth - w, IntersectionY - LaneWidth / 2 + shift);
    var x0, y0 := origin.0, origin.1;
    var right := if Vertical(direction) then x0 > IntersectionX else y0 > IntersectionY;
    var x := if Vertical(direction) then x0 + (LaneWidth / 4 - w / 2) else x0;
    var y := if Vertical(direction) then y0 else y0 + (LaneWidth / 4 - h / 2);
    Placement(Rect(x, y, w, h), x as real, y as real, right)
  }

  /**
   * A new vehicle on approach `direction`. The three arguments are the
   * three `rand()` results the factory consumes, in order: type, turn and
   * lane.
   */
  function Spawn(direction: Direction, typeDraw: nat, turnDraw: nat, laneDraw: nat): (v: VehicleSnapshot)
    ensures v.active && v.state == Moving && v.direction == direction
    ensures v.turnAngle == 0.0 && v.turnProgress == 0.0 && v.speed == BaseSpeed(v.vtype)
    ensures OnScreen(v.x, v.y) && !InStopBand(v) && !AtTurnPoint(v)
  {
    var vtype := TypeFromDraw(typeDraw);
    var place := SpawnPlacement(direction, laneDraw);
    VehicleSnapshot(place.rect, place.x, place.y, direction, vtype, TurnFromDraw(turnDraw),
                    Moving, BaseSpeed(vtype), place.isInRightLane, 0.0, 0.0, true)
  }

  /** The factory's promises, with every spawn coordinate written out. */
  lemma SpawnFields(direction: Direction, typeDraw: nat, turnDraw: nat, laneDraw: nat)
    ensures var v := Spawn(direction, typeDraw, turnDraw, laneDraw);
      && v.active && v.state == Moving && v.turnAngle == 0.0 && v.turnProgress == 0.0
      && v.direction == direction
      && (v.vtype == Ambulance <==> typeDraw % 100 < 5)
      && (v.vtype == PoliceCar <==> 5 <= typeDraw % 100 < 10)
      && (v.vtype == FireTruck <==> 10 <= typeDraw % 100 < 15)
      && (v.vtype == RegularCar <==> 15 <= typeDraw % 100)
      && v.speed == (if v.vtype == RegularCar then 2.0 else if v.vtype == FireTruck then 3.5 else 4.0)
      && (v.turnDirection == Left <==> turnDraw % 100 < 15)
      && (v.turnDirection == Right <==> 15 <= turnDraw % 100 < 30)
      && (v.turnDirection == NoTurn <==> 30 <= turnDraw % 100)
      && v.rect.x as real == v.x && v.rect.y as real == v.y
      && (Vertical(direction) ==> v.rect.w == 20 && v.rect.h == 30)
      && (!Vertical(direction) ==> v.rect.w == 30 && v.rect.h == 20)
      && (direction == North ==> (v.x == 370.0 || v.x == 450.0) && v.y == 570.0)
      && (direction == South ==> (v.x == 370.0 || v.x == 450.0) && v.y == 0.0)
      && (direction == East ==> v.x == 0.0 && (v.y == 270.0 || v.y == 350.0))
      && (direction == West ==> v.x == 770.0 && (v.y == 270.0 || v.y == 350.0))
      && (v.isInRightLane <==> if Vertical(direction) then v.x == 450.0 else v.y == 350.0)
      && (v.isInRightLane <==> laneDraw % 2 != 0)
  {
  }

  // ---------------------------------------------------------------------
  // Geometry of the approach
  // ---------------------------------------------------------------------

  /**
   * How far the coordinate `c` along approach d lies past the centre of the
   * junction, in the direction of travel (negative before the centre).
   */
  function PastCentre(d: Direction, c: int): int
  {
    match d
    case North => IntersectionY - c
    case South => c - IntersectionY
    case East => c - IntersectionX
    case West => IntersectionX - c
  }

  /** Where the 40-unit stopping band of an approach begins: a lane width and 40 before the centre. */
  function StopLine(d: Direction): (line: int)
    ensures PastCentre(d, line) == -(LaneWidth + 40)
  {
    match d
    case North => IntersectionY + LaneWidth + 40
    case South => IntersectionY - LaneWidth - 40
    case East => IntersectionX - LaneWidth - 40
    case West => IntersectionX + LaneWidth + 40
  }

  const StopDistance: real := 40.0

  /**
   * The coordinate at which a vehicle with the given turn begins to turn:
   * a right turn a quarter lane before the centre, a left turn a quarter
   * lane past it.
   */
  function TurnPoint(d: Direction, t: TurnDirection): (tp: int)
    ensures PastCentre(d, tp) == (match t case Left => LaneWidth / 4 case Right => -(LaneWidth / 4) case NoTurn => 0)
  {
    match d
    case North =>
      (match t case Left => IntersectionY - LaneWidth / 4
               case Right => IntersectionY + LaneWidth / 4
               case NoTurn => IntersectionY)
    case South =>
      (match t case Left => IntersectionY + LaneWidth / 4
               case Right => IntersectionY - LaneWidth / 4
               case NoTurn => IntersectionY)
    case East =>
      (match t case Left => IntersectionX + LaneWidth / 4
               case Right => IntersectionX - LaneWidth / 4
               case NoTurn => IntersectionX)
    case West =>
      (match t case Left => IntersectionX - LaneWidth / 4
               case Right => IntersectionX + LaneWidth / 4
               case NoTurn => IntersectionX)
  }

  /** The stop lines and turn points as numbers. */
  lemma ApproachGeometry(t: TurnDirection)
    ensures StopLine(North) == 420 && StopLine(South) == 180
    ensures StopLine(East) == 280 && StopLine(West) == 520
    ensures forall d: Direction :: 280 <= TurnPoint(d, t) <= 420
    ensures forall d: Direction :: Vertical(d) ==> 280 <= TurnPoint(d, t) <= 320
    ensures forall d: Direction :: !Vertical(d) ==> 380 <= TurnPoint(d, t) <= 420
  {
  }

  /** The coordinate along the approach, measured in the direction of travel. */
  function Progress(v: VehicleSnapshot): real
  {
    match v.direction
    case North => -v.y
    case South => v.y
    case East => v.x
    case West => -v.x
  }

  /** The coordinate across the approach, which straight travel never changes. */
  function Lateral(v: VehicleSnapshot): real
  {
    if Vertical(v.direction) then v.x else v.y
  }

  /**
   * Strictly inside the 40-unit band that follows the stop line: an open
   * interval of the coordinate along the direction of travel.
   */
  predicate InStopBand(v: VehicleSnapshot): (b: bool)
    ensures b <==> BandEntry(v.direction) < Progress(v) < BandEntry(v.direction) + StopDistance
  {
    var line := StopLine(v.direction) as real;
    match v.direction
    case North => v.y > line - StopDistance && v.y < line
    case South => v.y < line + StopDistance && v.y > line
    case East => v.x < line + StopDistance && v.x > line
    case West => v.x > line - StopDistance && v.x < line
  }

  /** The band begins where Progress equals BandEntry and is 40 long. */
  function BandEntry(d: Direction): real
  {
    match d
    case North => -420.0
    case South => 180.0
    case East => 280.0
    case West => -520.0
  }

  /** The turn point as a threshold on the coordinate along the direction of travel. */
  function TurnProgressAt(d: Direction, t: TurnDirection): real
  {
    var tp := TurnPoint(d, t) as real;
    match d
    case North => -tp
    case South => tp
    case East => tp
    case West => -tp
  }

  /** Reached or passed the turn point in the direction of travel. */
  predicate AtTurnPoint(v: VehicleSnapshot): (b: bool)
    ensures b <==> Progress(v) >= TurnProgressAt(v.direction, v.turnDirection)
  {
    var tp := TurnPoint(v.direction, v.turnDirection) as real;
    match v.direction
    case North => v.y <= tp
    case South => v.y >= tp
    case East => v.x >= tp
    case West => v.x <= tp
  }

  /** The light-facing rule; emergency vehicles never evaluate it. */
  predicate ShouldStop(v: VehicleSnapshot, lights: seq<TrafficLight>): (stop: bool)
    requires |lights| == 4
    ensures v.vtype != RegularCar ==> !stop
    ensures stop <==> v.vtype == RegularCar && lights[DirectionIndex(v.direction)].state == Red
                      && BandEntry(v.direction) < Progress(v) < BandEntry(v.direction) + StopDistance
  {
    v.vtype == RegularCar && InStopBand(v) && lights[DirectionIndex(v.direction)].state == Red
  }

  predicate OnScreen(x: real, y: real)
  {
    !(x < -100.0 || x > (WindowWidth + 100) as real || y < -100.0 || y > (WindowHeight + 100) as real)
  }

  // ---------------------------------------------------------------------
  // One frame, phase by phase
  // ---------------------------------------------------------------------

  /** The fields a frame never writes: approach, type, turn and activity. */
  predicate SameIdentity(a: VehicleSnapshot, b: VehicleSnapshot)
  {
    a.direction == b.direction && a.vtype == b.vtype && a.turnDirection == b.turnDirection
    && a.active == b.active
  }

  /** Decelerate toward a red light, or move off when no longer held. */
  function ApplyStopRule(v: VehicleSnapshot, stop: bool): (r: VehicleSnapshot)
    ensures SameIdentity(v, r) && r.x == v.x && r.y == v.y
  {
    if stop then
      var slower := v.speed * 0.8;
      if slower < 0.1 then v.(state := Stopped, speed := 0.0)
      else v.(state := Stopping, speed := slower)
    else if v.state == Stopped then
      v.(state := Moving, speed := BaseSpeed(v.vtype))
    else
      v
  }

  function Abs(r: real): real
  {
    if r < 0.0 then -r else r
  }

  /** Near its turn point a moving vehicle that will turn keeps at least 0.5. */
  function ApplyTurnFloor(v: VehicleSnapshot): (r: VehicleSnapshot)
    ensures SameIdentity(v, r) && r.x == v.x && r.y == v.y && r.state == v.state
    ensures r.speed >= v.speed
    ensures r.speed != v.speed ==> v.speed < 0.5 && r.speed == 0.5
    ensures v.state == Moving && v.turnDirection != NoTurn
            && Abs((if Vertical(v.direction) then v.y else v.x) - TurnPoint(v.direction, v.turnDirection) as real) < StopDistance
            ==> r.speed >= 0.5
  {
    if v.state == Moving && v.turnDirection != NoTurn then
      var tp := TurnPoint(v.direction, v.turnDirection) as real;
      var along := if Vertical(v.direction) then v.y else v.x;
      if Abs(along - tp) < StopDistance && v.speed < 0.5 then v.(speed := 0.5) else v
    else
      v
  }

  function EnterTurn(v: VehicleSnapshot): (r: VehicleSnapshot)
    ensures SameIdentity(v, r) && r.x == v.x && r.y == v.y && r.speed == v.speed
  {
    if AtTurnPoint(v) && v.turnDirection != NoTurn && v.state != Turning && v.state != Stopped then
      v.(state := Turning, turnAngle := 0.0, turnProgress := 0.0)
    else
      v
  }

  /** Straight travel: `speed` units along the heading. */
  function Translate(v: VehicleSnapshot): (r: VehicleSnapshot)
    ensures SameIdentity(v, r) && Progress(r) == Progress(v) + v.speed && Lateral(r) == Lateral(v)
  {
    match v.direction
    case North => v.(y := v.y - v.speed)
    case South => v.(y := v.y + v.speed)
    case East => v.(x := v.x + v.speed)
    case West => v.(x := v.x - v.speed)
  }

  /**
   * The arc placement: a centre 15 units to one side of the current
   * position, then a point at radius 0.5 from it at the current angle.
   */
  function PlaceOnArc(v: VehicleSnapshot, arc: Arc): (r: VehicleSnapshot)
    ensures SameIdentity(v, r) && r.state == v.state && r.turnAngle == v.turnAngle
    ensures r.isInRightLane == v.isInRightLane && r.speed == v.speed
  {
    var sin := arc(v.turnAngle).0;
    var cos := arc(v.turnAngle).1;
    match v.direction
    case North =>
      v.(x := v.x + (if v.isInRightLane then 15.0 else -15.0) + 0.5 * sin, y := v.y - 0.5 * cos)
    case South =>
      v.(x := v.x + (if v.isInRightLane then -15.0 else 15.0) - 0.5 * sin, y := v.y + 0.5 * cos)
    case East =>
      v.(x := v.x + 0.5 * cos, y := v.y + (if !v.isInRightLane then 15.0 else -15.0) + 0.5 * sin)
    case West =>
      v.(x := v.x - 0.5 * cos, y := v.y + (if !v.isInRightLane then -15.0 else 15.0) - 0.5 * sin)
  }

  /** One frame of turning: advance the angle, finish at 90 degrees, place on the arc. */
  function AdvanceTurn(v: VehicleSnapshot, arc: Arc): (r: VehicleSnapshot)
    ensures SameIdentity(v, r) && r.speed == v.speed
  {
    var angle := v.turnAngle + TurnSpeed(v.vtype);
    var turned :=
      if angle >= 90.0 then
        v.(state := Moving, turnAngle := 0.0, turnProgress := 0.0, isInRightLane := !v.isInRightLane)
      else
        v.(turnAngle := angle, turnProgress := angle / 90.0);
    PlaceOnArc(turned, arc)
  }

  function Move(v: VehicleSnapshot, arc: Arc): (r: VehicleSnapshot)
    ensures SameIdentity(v, r) && r.speed == v.speed
  {
    if v.state == Moving || v.state == Stopping then Translate(v)
    else if v.state == Turning then AdvanceTurn(v, arc)
    else v
  }

  /** Copy the truncated position into the rectangle and retire off-screen vehicles. */
  function Settle(v: VehicleSnapshot): (r: VehicleSnapshot)
    ensures r == v.(rect := v.rect.(x := Trunc(v.x), y := Trunc(v.y)), active := v.active && OnScreen(v.x, v.y))
  {
    var placed := v.(rect := v.rect.(x := Trunc(v.x), y := Trunc(v.y)));
    if OnScreen(v.x, v.y) then placed else placed.(active := false)
  }

  /**
   * One frame of the vehicle state machine against the current lights. An
   * inactive vehicle is left as it is; otherwise the identity fields are
   * kept and the vehicle stays active exactly when it is still on screen.
   */
  function Tick(v: VehicleSnapshot, lights: seq<TrafficLight>, arc: Arc): (r: VehicleSnapshot)
    requires |lights| == 4
    ensures !v.active ==> r == v
    ensures r.direction == v.direction && r.vtype == v.vtype && r.turnDirection == v.turnDirection
    ensures r.active <==> v.active && OnScreen(r.x, r.y)
  {
    if !v.active then v
    else
      var held := ApplyStopRule(v, ShouldStop(v, lights));
      var moved := Move(EnterTurn(ApplyTurnFloor(held)), arc);
      Settle(moved)
  }

  /** A run of frames, one light configuration per frame. */
  function Run(v: VehicleSnapshot, frames: seq<seq<TrafficLight>>, arc: Arc): VehicleSnapshot
    requires forall i :: 0 <= i < |frames| ==> |frames[i]| == 4
    decreases |frames|
  {
    if frames == [] then v else Run(Tick(v, frames[0], arc), frames[1..], arc)
  }
}
