/**
 * The heap vehicle that the frame loop owns, with the factory that fills
 * it in and the per-frame update that rewrites its fields. Both are proved
 * to do exactly what the pure Spawn and Tick of VehicleModel say.
 */
module Vehicles {
  import opened Intersection
  import opened VehicleModel

  class Vehicle {
    var rect: Rect
    var x: real
    var y: real
    var direction: Direction
    var vtype: VehicleType
    var turnDirection: TurnDirection
    var state: VehicleState
    var speed: real
    var isInRightLane: bool
    var turnAngle: real
    var turnProgress: real
    var active: bool

    /** The record this object currently holds. */
    function Snapshot(): VehicleSnapshot
      reads this
    {
      VehicleSnapshot(rect, x, y, direction, vtype, turnDirection, state, speed,
                      isInRightLane, turnAngle, turnProgress, active)
    }
  }

  /**
   * Allocate and fill in a vehicle on the given approach. The draws stand for
   * the three `rand()` calls, in the order the factory makes them.
   */
  method CreateVehicle(direction: Direction, typeDraw: nat, turnDraw: nat, laneDraw: nat)
    returns (v: Vehicle)
    ensures fresh(v)
    ensures v.Snapshot() == Spawn(direction, typeDraw, turnDraw, laneDraw)
  {
    v := new Vehicle;
    v.direction := direction;
    AssignType(v, typeDraw);
    AssignTurn(v, turnDraw);
    AssignPlacement(v, direction, laneDraw);
  }

  /** The type roll, the activity flag, the type's speed and the initial turn state. */
  method AssignType(v: Vehicle, typeDraw: nat)
    modifies v`vtype, v`active, v`speed, v`state, v`turnAngle, v`turnProgress
    ensures v.vtype == TypeFromDraw(typeDraw) && v.active && v.speed == BaseSpeed(v.vtype)
    ensures v.state == Moving && v.turnAngle == 0.0 && v.turnProgress == 0.0
  {
    var typeRoll := typeDraw % 100;
    if typeRoll < 5 {
      v.vtype := Ambulance;
    } else if typeRoll < 10 {
      v.vtype := PoliceCar;
    } else if typeRoll < 15 {
      v.vtype := FireTruck;
    } else {
      v.vtype := RegularCar;
    }

    v.active := true;
    match v.vtype {
      case Ambulance => v.speed := 4.0;
      case PoliceCar => v.speed := 4.0;
      case FireTruck => v.speed := 3.5;
      case RegularCar => v.speed := 2.0;
    }

    v.state := Moving;
    v.turnAngle := 0.0;
    v.turnProgress := 0.0;
  }

  /** The turn roll. */
  method AssignTurn(v: Vehicle, turnDraw: nat)
    modifies v`turnDirection
    ensures v.turnDirection == TurnFromDraw(turnDraw)
  {
    var turnChance := turnDraw % 100;
    if turnChance < 30 {
      v.turnDirection := if turnChance < 15 then Left else Right;
    } else {
      v.turnDirection := NoTurn;
    }
  }

  /** Dimensions, spawn position, lane flag, lane centring and rectangle position. */
  method AssignPlacement(v: Vehicle, direction: Direction, laneDraw: nat)
    modifies v`rect, v`x, v`y, v`isInRightLane
    ensures Placement(v.rect, v.x, v.y, v.isInRightLane) == SpawnPlacement(direction, laneDraw)
  {
    if direction == North || direction == South {
      v.rect := v.rect.(w := 20, h := 30);
    } else {
      v.rect := v.rect.(w := 30, h := 20);
    }

    match direction {
      case North =>
        v.x := (IntersectionX - LaneWidth / 2) as real;
        if laneDraw % 2 != 0 {
          v.x := v.x + LaneWidth as real;
        }
        v.y := (WindowHeight - v.rect.h) as real;
        v.isInRightLane := v.x > IntersectionX as real;
      case South =>
        v.x := (IntersectionX - LaneWidth / 2) as real;
        if laneDraw % 2 != 0 {
          v.x := v.x + LaneWidth as real;
        }
        v.y := 0.0;
        v.isInRightLane := v.x > IntersectionX as real;
      case East =>
        v.x := 0.0;
        v.y := (IntersectionY - LaneWidth / 2) as real;
        if laneDraw % 2 != 0 {
          v.y := v.y + LaneWidth as real;
        }
        v.isInRightLane := v.y > IntersectionY as real;
      case West =>
        v.x := (WindowWidth - v.rect.w) as real;
        v.y := (IntersectionY - LaneWidth / 2) as real;
        if laneDraw % 2 != 0 {
          v.y := v.y + LaneWidth as real;
        }
        v.isInRightLane := v.y > IntersectionY as real;
    }

    // centre the vehicle in its lane
    if direction == North || direction == South {
      v.x := v.x + (LaneWidth / 4 - v.rect.w / 2) as real;
    } else {
      v.y := v.y + (LaneWidth / 4 - v.rect.h / 2) as real;
    }

    v.rect := v.rect.(x := Trunc(v.x), y := Trunc(v.y));
  }

  /** One frame of the vehicle's state machine against the current lights. */
  method UpdateVehicle(v: Vehicle, lights: array<TrafficLight>, arc: Arc)
    requires lights.Length >= 4
    modifies v
    ensures v.Snapshot() == Tick(old(v.Snapshot()), lights[..4], arc)
  {
    if !v.active {
      return;
    }
    ghost var start := v.Snapshot();
    var stopLine := StopLine(v.direction) as real;
    var turnPoint := TurnPoint(v.direction, v.turnDirection) as real;
    var hasEmergencyPriority := v.vtype != RegularCar;

    var shouldStop := false;
    if !hasEmergencyPriority {
      match v.direction {
        case North =>
          shouldStop := v.y > stopLine - StopDistance && v.y < stopLine && lights[0].state == Red;
        case South =>
          shouldStop := v.y < stopLine + StopDistance && v.y > stopLine && lights[1].state == Red;
        case East =>
          shouldStop := v.x < stopLine + StopDistance && v.x > stopLine && lights[2].state == Red;
        case West =>
          shouldStop := v.x > stopLine - StopDistance && v.x < stopLine && lights[3].state == Red;
      }
    }
    assert shouldStop == ShouldStop(start, lights[..4]);

    HoldAtLight(v, shouldStop);
    SlowBeforeTurn(v, turnPoint);
    StartTurnIfDue(v, turnPoint);
    MoveOneFrame(v, arc);
    SettleOnScreen(v);
  }

  /** Decelerate while held by a red light; move off once a stop is over. */
  method HoldAtLight(v: Vehicle, shouldStop: bool)
    modifies v`state, v`speed
    ensures v.Snapshot() == ApplyStopRule(old(v.Snapshot()), shouldStop)
  {
    if shouldStop {
      v.state := Stopping;
      v.speed := v.speed * 0.8;
      if v.speed < 0.1 {
        v.state := Stopped;
        v.speed := 0.0;
      }
    } else if v.state == Stopped {
      v.state := Moving;
      match v.vtype {
        case Ambulance => v.speed := 4.0;
        case PoliceCar => v.speed := 4.0;
        case FireTruck => v.speed := 3.5;
        case RegularCar => v.speed := 2.0;
      }
    }
  }

  /** Keep at least half a unit per frame within 40 units of the turn point. */
  method SlowBeforeTurn(v: Vehicle, turnPoint: real)
    requires turnPoint == TurnPoint(v.direction, v.turnDirection) as real
    modifies v`speed
    ensures v.Snapshot() == ApplyTurnFloor(old(v.Snapshot()))
  {
    if v.state == Moving && v.turnDirection != NoTurn {
      var distanceToTurnPoint := 0.0;
      match v.direction {
        case North => distanceToTurnPoint := Abs(v.y - turnPoint);
        case South => distanceToTurnPoint := Abs(v.y - turnPoint);
        case East => distanceToTurnPoint := Abs(v.x - turnPoint);
        case West => distanceToTurnPoint := Abs(v.x - turnPoint);
      }
      if distanceToTurnPoint < StopDistance {
        if v.speed < 0.5 {
          v.speed := 0.5;
        }
      }
    }
  }

  /** Enter the turn once the turn point is reached, unless stopped or already turning. */
  method StartTurnIfDue(v: Vehicle, turnPoint: real)
    requires turnPoint == TurnPoint(v.direction, v.turnDirection) as real
    modifies v`state, v`turnAngle, v`turnProgress
    ensures v.Snapshot() == EnterTurn(old(v.Snapshot()))
  {
    var atTurnPoint := false;
    match v.direction {
      case North => atTurnPoint := v.y <= turnPoint;
      case South => atTurnPoint := v.y >= turnPoint;
      case East => atTurnPoint := v.x >= turnPoint;
      case West => atTurnPoint := v.x <= turnPoint;
    }
    if atTurnPoint && v.turnDirection != NoTurn && v.state != Turning && v.state != Stopped {
      v.state := Turning;
      v.turnAngle := 0.0;
      v.turnProgress := 0.0;
    }
  }

  /** Straight travel for moving and stopping vehicles, the arc for turning ones. */
  method MoveOneFrame(v: Vehicle, arc: Arc)
    modifies v`x, v`y, v`state, v`turnAngle, v`turnProgress, v`isInRightLane
    ensures v.Snapshot() == Move(old(v.Snapshot()), arc)
  {
    var moveSpeed := v.speed;
    if v.state == Moving || v.state == Stopping {
      match v.direction {
        case North => v.y := v.y - moveSpeed;
        case South => v.y := v.y + moveSpeed;
        case East => v.x := v.x + moveSpeed;
        case West => v.x := v.x - moveSpeed;
      }
    } else if v.state == Turning {
      Turn(v, arc);
    }
  }

  /** Copy the truncated position into the rectangle; retire the vehicle off screen. */
  method SettleOnScreen(v: Vehicle)
    modifies v`rect, v`active
    ensures v.Snapshot() == Settle(old(v.Snapshot()))
  {
    v.rect := v.rect.(x := Trunc(v.x), y := Trunc(v.y));
    if v.x < -100.0 || v.x > (WindowWidth + 100) as real || v.y < -100.0 || v.y > (WindowHeight + 100) as real {
      v.active := false;
    }
  }

  /** The turning branch of the frame update: angle bookkeeping, then the arc. */
  method Turn(v: Vehicle, arc: Arc)
    modifies v`x, v`y, v`state, v`turnAngle, v`turnProgress, v`isInRightLane
    ensures v.Snapshot() == AdvanceTurn(old(v.Snapshot()), arc)
  {
    var turnSpeed := TurnSpeed(v.vtype);
    v.turnAngle := v.turnAngle + turnSpeed;
    v.turnProgress := v.turnAngle / 90.0;
    if v.turnAngle >= 90.0 {
      v.state := Moving;
      v.turnAngle := 0.0;
      v.turnProgress := 0.0;
      v.isInRightLane := !v.isInRightLane;
    }

    var turnCenter := 15.0;
    var turnCenterX := 0.0;
    var turnCenterY := 0.0;
    match v.direction {
      case North =>
        turnCenterX := v.x + (if v.isInRightLane then turnCenter else -turnCenter);
        turnCenterY := v.y;
      case South =>
        turnCenterX := v.x + (if v.isInRightLane then -turnCenter else turnCenter);
        turnCenterY := v.y;
      case East =>
        turnCenterX := v.x;
        turnCenterY := v.y + (if !v.isInRightLane then turnCenter else -turnCenter);
      case West =>
        turnCenterX := v.x;
        turnCenterY := v.y + (if !v.isInRightLane then -turnCenter else turnCenter);
    }

    var sin := arc(v.turnAngle).0;
    var cos := arc(v.turnAngle).1;
    match v.direction {
      case North =>
        v.x := turnCenterX + 0.5 * sin;
        v.y := turnCenterY - 0.5 * cos;
      case South =>
        v.x := turnCenterX - 0.5 * sin;
        v.y := turnCenterY + 0.5 * cos;
      case East =>
        v.x := turnCenterX + 0.5 * cos;
        v.y := turnCenterY + 0.5 * sin;
      case West =>
        v.x := turnCenterX - 0.5 * cos;
        v.y := turnCenterY - 0.5 * sin;
    }
  }
}
