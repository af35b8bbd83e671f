/**
 * Where a turn leads. Each turning frame puts the vehicle 0.5 units from
 * a centre 15 units to one side of where it was, so the arc moves it at
 * least 14.5 units sideways per frame. A vehicle that starts in its lane
 * therefore leaves the screen, and is retired, long before its angle
 * reaches 90 degrees: on screen a turn never completes and the lane flag
 * never flips.
 */
module TurnProperties {
  import opened Intersection
  import opened VehicleModel
  import opened VehicleProperties

  /** The across-approach coordinate of the centre of each spawn lane. */
  function LaneLateral(d: Direction, right: bool): real
  {
    if Vertical(d) then (if right then 450.0 else 370.0)
    else (if right then 350.0 else 270.0)
  }

  /**
   * How far the vehicle is from its lane centre, measured in the direction
   * in which the arc pushes it for its approach and lane.
   */
  function Drift(v: VehicleSnapshot): real
  {
    match v.direction
    case North => if v.isInRightLane then v.x - 450.0 else 370.0 - v.x
    case South => if v.isInRightLane then 450.0 - v.x else v.x - 370.0
    case East => if v.isInRightLane then 350.0 - v.y else v.y - 270.0
    case West => if v.isInRightLane then v.y - 350.0 else 270.0 - v.y
  }

  /** On screen, no vehicle is more than 550 units from its lane centre in its drift direction. */
  lemma DriftOnScreen(v: VehicleSnapshot)
    requires OnScreen(v.x, v.y)
    ensures Drift(v) <= 550.0
  {
  }

  /**
   * The drift covers 14.5 units for every turn step the angle records,
   * with the turn step of the vehicle's type.
   */
  predicate DriftCoversAngle(v: VehicleSnapshot)
  {
    match v.vtype
    case RegularCar => 14.5 * v.turnAngle <= Drift(v)
    case FireTruck => 14.5 * v.turnAngle <= 1.5 * Drift(v)
    case Ambulance => 14.5 * v.turnAngle <= 2.0 * Drift(v)
    case PoliceCar => 14.5 * v.turnAngle <= 2.0 * Drift(v)
  }

  /**
   * The state of a vehicle that started in its lane: while it is not
   * turning it is on its lane centre; while it is turning it is past its
   * turn point and has drifted at least 14.5 units per turn step taken.
   */
  predicate InLaneOrTurning(v: VehicleSnapshot)
  {
    v.active ==>
      && OnScreen(v.x, v.y)
      && (v.state != Turning ==> Lateral(v) == LaneLateral(v.direction, v.isInRightLane))
      && (v.state == Turning ==>
            && AtTurnPoint(v) && 0.0 <= v.turnAngle && DriftCoversAngle(v))
  }

  /** On its lane centre a vehicle has not drifted. */
  lemma NoDriftInLane(v: VehicleSnapshot)
    requires Lateral(v) == LaneLateral(v.direction, v.isInRightLane)
    ensures Drift(v) == 0.0
  {
  }

  /** Every new vehicle starts on its lane centre. */
  lemma SpawnInLane(direction: Direction, typeDraw: nat, turnDraw: nat, laneDraw: nat)
    ensures InLaneOrTurning(Spawn(direction, typeDraw, turnDraw, laneDraw))
  {
    SpawnFields(direction, typeDraw, turnDraw, laneDraw);
  }

  /**
   * One arc step short of 90 degrees: the vehicle keeps turning, keeps its
   * lane flag, moves on along its approach and drifts at least 14.5 more.
   */
  lemma ArcStep(v: VehicleSnapshot, arc: Arc)
    requires QuarterArc(arc) && v.state == Turning && 0.0 <= v.turnAngle
    requires v.turnAngle + TurnSpeed(v.vtype) < 90.0
    ensures var r := AdvanceTurn(v, arc);
      && r.state == Turning && r.isInRightLane == v.isInRightLane
      && r.turnAngle == v.turnAngle + TurnSpeed(v.vtype)
      && Drift(r) >= Drift(v) + 14.5
      && Progress(r) >= Progress(v)
  {
    var angle := v.turnAngle + TurnSpeed(v.vtype);
    assert 0.0 <= arc(angle).0 <= 1.0 && 0.0 <= arc(angle).1 <= 1.0;
  }

  /**
   * The turn cannot be completed from anywhere on screen: the drift that
   * 90 degrees of turning needs is more than the screen has room for.
   */
  lemma NoCompletionOnScreen(v: VehicleSnapshot)
    requires OnScreen(v.x, v.y) && 0.0 <= v.turnAngle && DriftCoversAngle(v)
    ensures v.turnAngle + TurnSpeed(v.vtype) < 90.0
  {
    DriftOnScreen(v);
  }

  /** A frame of a turning vehicle keeps the state and the lane flag. */
  lemma TurningFrame(v: VehicleSnapshot, lights: seq<TrafficLight>, arc: Arc)
    requires |lights| == 4 && QuarterArc(arc)
    requires v.active && v.state == Turning && InLaneOrTurning(v)
    ensures var w := Tick(v, lights, arc);
      InLaneOrTurning(w) && w.isInRightLane == v.isInRightLane
  {
    BandBeforeTurnPoint(v);
    NoCompletionOnScreen(v);
    var moved := AdvanceTurn(v, arc);
    assert Tick(v, lights, arc) == Settle(moved);
    ArcStep(v, arc);
  }

  /** Settling keeps the lane picture of the moved vehicle, and retires it off screen. */
  lemma SettleKeepsLane(m: VehicleSnapshot)
    requires m.state != Turning ==> Lateral(m) == LaneLateral(m.direction, m.isInRightLane)
    requires m.state == Turning ==> AtTurnPoint(m) && 0.0 <= m.turnAngle && DriftCoversAngle(m)
    ensures InLaneOrTurning(Settle(m)) && Settle(m).isInRightLane == m.isInRightLane
  {
  }

  /** The first arc step starts from the lane centre with a zero angle. */
  lemma FirstArcStep(e: VehicleSnapshot, arc: Arc)
    requires QuarterArc(arc) && e.state == Turning && e.turnAngle == 0.0 && AtTurnPoint(e)
    requires Lateral(e) == LaneLateral(e.direction, e.isInRightLane)
    ensures var m := Move(e, arc);
      && m.state == Turning && m.isInRightLane == e.isInRightLane
      && AtTurnPoint(m) && 0.0 <= m.turnAngle && DriftCoversAngle(m)
  {
    NoDriftInLane(e);
    ArcStep(e, arc);
  }

  /** Straight travel, or standing still, keeps the vehicle on its lane centre. */
  lemma StraightStep(e: VehicleSnapshot, arc: Arc)
    requires e.state != Turning && Lateral(e) == LaneLateral(e.direction, e.isInRightLane)
    ensures var m := Move(e, arc);
      m.state == e.state && m.isInRightLane == e.isInRightLane
      && Lateral(m) == LaneLateral(m.direction, m.isInRightLane)
  {
  }

  /**
   * An active vehicle's frame is the four phases followed by settling.
   * This is Tick's own definition unfolded; it states nothing new and only
   * lets LaneFrame name the intermediate records.
   */
  lemma TickPhases(v: VehicleSnapshot, lights: seq<TrafficLight>, arc: Arc)
    requires |lights| == 4 && v.active
    ensures Tick(v, lights, arc) ==
      Settle(Move(EnterTurn(ApplyTurnFloor(ApplyStopRule(v, ShouldStop(v, lights)))), arc))
  {
  }

  /**
   * The phases before moving keep the position and the lane flag, and a
   * vehicle that was not turning and is now turning has just entered its
   * turn at its turn point.
   */
  lemma BeforeMoving(v: VehicleSnapshot, stop: bool)
    requires v.state != Turning
    ensures var e := EnterTurn(ApplyTurnFloor(ApplyStopRule(v, stop)));
      && e.x == v.x && e.y == v.y && e.isInRightLane == v.isInRightLane
      && e.direction == v.direction
      && (e.state == Turning ==> e.turnAngle == 0.0 && AtTurnPoint(e))
  {
  }

  /** A frame of a vehicle that is not turning: it stays in lane or starts its arc there. */
  lemma LaneFrame(v: VehicleSnapshot, lights: seq<TrafficLight>, arc: Arc)
    requires |lights| == 4 && QuarterArc(arc)
    requires v.active && v.state != Turning && InLaneOrTurning(v)
    ensures var w := Tick(v, lights, arc);
      InLaneOrTurning(w) && w.isInRightLane == v.isInRightLane
  {
    var e := EnterTurn(ApplyTurnFloor(ApplyStopRule(v, ShouldStop(v, lights))));
    var moved := Move(e, arc);
    TickPhases(v, lights, arc);
    BeforeMoving(v, ShouldStop(v, lights));
    if e.state == Turning {
      FirstArcStep(e, arc);
    } else {
      StraightStep(e, arc);
    }
    SettleKeepsLane(moved);
  }

  /** Every frame keeps a vehicle in lane or on its arc, with its lane flag unchanged. */
  lemma FrameKeepsLane(v: VehicleSnapshot, lights: seq<TrafficLight>, arc: Arc)
    requires |lights| == 4 && QuarterArc(arc) && InLaneOrTurning(v)
    ensures var w := Tick(v, lights, arc);
      InLaneOrTurning(w) && w.isInRightLane == v.isInRightLane
  {
    if v.active {
      if v.state == Turning {
        TurningFrame(v, lights, arc);
      } else {
        LaneFrame(v, lights, arc);
      }
    }
  }

  /** Over any run of frames, with the same conclusion. */
  lemma {:induction false} RunKeepsLane(v: VehicleSnapshot, frames: seq<seq<TrafficLight>>, arc: Arc)
    requires FourLights(frames) && QuarterArc(arc) && InLaneOrTurning(v)
    ensures var w := Run(v, frames, arc);
      InLaneOrTurning(w) && w.isInRightLane == v.isInRightLane
    decreases |frames|
  {
    if frames != [] {
      FrameKeepsLane(v, frames[0], arc);
      RunKeepsLane(Tick(v, frames[0], arc), frames[1..], arc);
    }
  }

  /**
   * A spawned vehicle never completes a turn: whatever the lights do, its
   * lane flag is the one it was created with, and whenever it is active
   * and not turning it is on the centre of that lane.
   */
  lemma TurnNeverCompletes(direction: Direction, typeDraw: nat, turnDraw: nat, laneDraw: nat,
                           frames: seq<seq<TrafficLight>>, arc: Arc)
    requires FourLights(frames) && QuarterArc(arc)
    ensures var v := Spawn(direction, typeDraw, turnDraw, laneDraw); var w := Run(v, frames, arc);
      && w.isInRightLane == v.isInRightLane
      && (w.active && w.state != Turning ==> Lateral(w) == LaneLateral(direction, v.isInRightLane))
  {
    var v := Spawn(direction, typeDraw, turnDraw, laneDraw);
    SpawnInLane(direction, typeDraw, turnDraw, laneDraw);
    RunKeepsLane(v, frames, arc);
    RunKeepsIdentity(v, frames, arc);
  }
}
