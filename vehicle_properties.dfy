/**
 * What the per-frame state machine guarantees, proved about the pure Tick:
 * single-frame rules (stopping, moving off, turn entry and completion,
 * straight travel), and properties of whole runs of frames.
 */
module VehicleProperties {
  import opened Intersection
  import opened VehicleModel

  predicate FourLights(frames: seq<seq<TrafficLight>>)
  {
    forall i :: 0 <= i < |frames| ==> |frames[i]| == 4
  }

  // ---------------------------------------------------------------------
  // Geometry facts
  // ---------------------------------------------------------------------

  /** Every stopping band lies before every turn point of its approach. */
  lemma BandBeforeTurnPoint(v: VehicleSnapshot)
    ensures InStopBand(v) ==> !AtTurnPoint(v)
  {
  }

  // ---------------------------------------------------------------------
  // One frame
  // ---------------------------------------------------------------------

  /**
   * The light-facing rule for one frame. A held regular car slows by a
   * fifth, and stops dead once below 0.1; a stopped vehicle that is no
   * longer held moves off at its type's speed; anything else keeps its
   * state and speed through this rule.
   */
  lemma StopLogic(v: VehicleSnapshot, lights: seq<TrafficLight>, arc: Arc)
    requires |lights| == 4 && v.active
    ensures v.vtype != RegularCar ==> !ShouldStop(v, lights)
    ensures ShouldStop(v, lights) ==>
      var w := Tick(v, lights, arc);
      && (v.speed * 0.8 < 0.1 ==> w.state == Stopped && w.speed == 0.0)
      && (v.speed * 0.8 >= 0.1 ==> w.state == Stopping && w.speed == v.speed * 0.8)
    ensures !ShouldStop(v, lights) && v.state == Stopped ==>
      var w := Tick(v, lights, arc);
      && w.speed == BaseSpeed(v.vtype)
      && w.state == (if AtTurnPoint(v) && v.turnDirection != NoTurn then Turning else Moving)
    ensures !ShouldStop(v, lights) && v.state != Stopped ==>
      ApplyStopRule(v, false) == v
  {
    BandBeforeTurnPoint(v);
  }

  /**
   * A vehicle that ends a frame stopped did not move; a vehicle that was
   * not turning and ends the frame moving or stopping travelled exactly
   * its new speed along its heading.
   */
  lemma StraightTravel(v: VehicleSnapshot, lights: seq<TrafficLight>, arc: Arc)
    requires |lights| == 4 && v.active
    ensures var w := Tick(v, lights, arc);
      w.state == Stopped ==> w.x == v.x && w.y == v.y
    ensures var w := Tick(v, lights, arc);
      v.state != Turning && (w.state == Moving || w.state == Stopping) ==>
        Progress(w) == Progress(v) + w.speed && Lateral(w) == Lateral(v)
  {
  }

  /**
   * Turn entry: a vehicle that was not turning is turning after the frame
   * exactly when it was at or past its turn point with a turn pending and
   * was moving or stopping; the first turning frame already adds one step
   * of angle.
   */
  lemma TurnEntry(v: VehicleSnapshot, lights: seq<TrafficLight>, arc: Arc)
    requires |lights| == 4 && v.active && v.state != Turning
    ensures var w := Tick(v, lights, arc);
      w.state == Turning <==>
        AtTurnPoint(v) && v.turnDirection != NoTurn && (v.state != Stopped || !ShouldStop(v, lights))
    ensures var w := Tick(v, lights, arc);
      w.state == Turning ==>
        && w.turnAngle == TurnSpeed(v.vtype)
        && w.turnProgress == TurnSpeed(v.vtype) / 90.0
        && w.isInRightLane == v.isInRightLane
  {
    BandBeforeTurnPoint(v);
  }

  /**
   * One turning frame: the angle grows by the type's turn speed and the
   * progress is angle / 90; at 90 degrees the vehicle is moving again with
   * angle and progress reset and its lane flag flipped.
   */
  lemma TurnStep(v: VehicleSnapshot, lights: seq<TrafficLight>, arc: Arc)
    requires |lights| == 4 && v.active && v.state == Turning && !ShouldStop(v, lights)
    ensures var w := Tick(v, lights, arc); var angle := v.turnAngle + TurnSpeed(v.vtype);
      && (angle < 90.0 ==>
            w.state == Turning && w.turnAngle == angle && w.turnProgress == angle / 90.0
            && w.isInRightLane == v.isInRightLane)
      && (angle >= 90.0 ==>
            w.state == Moving && w.turnAngle == 0.0 && w.turnProgress == 0.0
            && w.isInRightLane == !v.isInRightLane)
    ensures Tick(v, lights, arc).speed == v.speed
  {
  }

  /**
   * As written, a turn that has just completed starts again on the next
   * frame whenever the vehicle is still at or past its turn point: nothing
   * clears the pending turn.
   */
  lemma TurnRestarts(v: VehicleSnapshot, lights: seq<TrafficLight>, arc: Arc)
    requires |lights| == 4 && v.active && v.state == Turning && !ShouldStop(v, lights)
    requires v.turnDirection != NoTurn && v.turnAngle + TurnSpeed(v.vtype) >= 90.0
    requires var w := Tick(v, lights, arc); w.active && AtTurnPoint(w)
    ensures var w := Tick(v, lights, arc); var u := Tick(w, lights, arc);
      && w.state == Moving && w.isInRightLane == !v.isInRightLane
      && u.state == Turning && u.turnAngle == TurnSpeed(v.vtype)
  {
    var w := Tick(v, lights, arc);
    TurnStep(v, lights, arc);
    TurnEntry(w, lights, arc);
  }

  /**
   * As written, only a stopped vehicle moves off: one that was still
   * slowing down when the light changed keeps its reduced speed and stays
   * in the stopping state, until it reaches its turn point with a turn
   * pending, where it starts turning.
   */
  lemma StoppingKeepsCrawling(v: VehicleSnapshot, lights: seq<TrafficLight>, arc: Arc)
    requires |lights| == 4 && v.active && v.state == Stopping && !ShouldStop(v, lights)
    ensures var w := Tick(v, lights, arc);
      !(AtTurnPoint(v) && v.turnDirection != NoTurn) ==>
        w.state == Stopping && w.speed == v.speed && Progress(w) == Progress(v) + v.speed
    ensures AtTurnPoint(v) && v.turnDirection != NoTurn ==> Tick(v, lights, arc).state == Turning
  {
  }

  // ---------------------------------------------------------------------
  // Runs of frames
  // ---------------------------------------------------------------------

  /** A run can be cut anywhere. */
  lemma {:induction false} RunSplit(v: VehicleSnapshot, a: seq<seq<TrafficLight>>,
                                    b: seq<seq<TrafficLight>>, arc: Arc)
    requires FourLights(a) && FourLights(b)
    ensures FourLights(a + b)
    ensures Run(v, a + b, arc) == Run(Run(v, a, arc), b, arc)
    decreases |a|
  {
    if a != [] {
      assert (a + b)[1..] == a[1..] + b;
      RunSplit(Tick(v, a[0], arc), a[1..], b, arc);
    } else {
      assert a + b == b;
    }
  }

  /** No run of frames changes a vehicle's approach, type or pending turn. */
  lemma {:induction false} RunKeepsIdentity(v: VehicleSnapshot, frames: seq<seq<TrafficLight>>, arc: Arc)
    requires FourLights(frames)
    ensures var w := Run(v, frames, arc);
      w.direction == v.direction && w.vtype == v.vtype && w.turnDirection == v.turnDirection
    decreases |frames|
  {
    if frames != [] {
      RunKeepsIdentity(Tick(v, frames[0], arc), frames[1..], arc);
    }
  }

  /** A retired vehicle stays exactly as it was, whatever the lights do. */
  lemma {:induction false} RetiredStaysRetired(v: VehicleSnapshot, frames: seq<seq<TrafficLight>>, arc: Arc)
    requires FourLights(frames) && !v.active
    ensures Run(v, frames, arc) == v
    decreases |frames|
  {
    if frames != [] {
      RetiredStaysRetired(Tick(v, frames[0], arc), frames[1..], arc);
    }
  }

  /** Emergency vehicles are never slowed or stopped by a light: they only move or turn. */
  lemma {:induction false} EmergencyNeverStops(v: VehicleSnapshot, frames: seq<seq<TrafficLight>>, arc: Arc)
    requires FourLights(frames)
    requires v.vtype != RegularCar && (v.state == Moving || v.state == Turning)
    ensures var w := Run(v, frames, arc); w.state == Moving || w.state == Turning
    decreases |frames|
  {
    if frames != [] {
      EmergencyNeverStops(Tick(v, frames[0], arc), frames[1..], arc);
    }
  }

  // ---------------------------------------------------------------------
  // Holding at a red light
  // ---------------------------------------------------------------------

  /** A speed after n frames of braking by a fifth each frame. */
  function Decayed(speed: real, n: nat): real
    decreases n
  {
    if n == 0 then speed else Decayed(0.8 * speed, n - 1)
  }

  /** Braking from a lower speed never gives a higher one. */
  lemma {:induction false} DecayedMonotone(a: real, b: real, n: nat)
    requires a <= b
    ensures Decayed(a, n) <= Decayed(b, n)
    decreases n
  {
    if n > 0 {
      DecayedMonotone(0.8 * a, 0.8 * b, n - 1);
    }
  }

  /** The situation of a regular car held by a red light with room to stop. */
  predicate HeldAtRed(v: VehicleSnapshot, bound: real)
  {
    && v.active && v.vtype == RegularCar && v.state != Turning
    && InStopBand(v) && OnScreen(v.x, v.y)
    && 0.0 <= v.speed && Progress(v) + 4.0 * v.speed <= bound
    && bound < BandEntry(v.direction) + StopDistance
  }

  predicate RedFor(d: Direction, frames: seq<seq<TrafficLight>>)
    requires FourLights(frames)
  {
    forall i :: 0 <= i < |frames| ==> frames[i][DirectionIndex(d)].state == Red
  }

  /**
   * One frame at red: the car is slowing or stopped, has not gone back,
   * and its position plus four times its speed has not grown, so it can
   * never roll past the band.
   */
  lemma HeldStep(v: VehicleSnapshot, lights: seq<TrafficLight>, arc: Arc, bound: real)
    requires |lights| == 4 && lights[DirectionIndex(v.direction)].state == Red
    requires HeldAtRed(v, bound)
    ensures var w := Tick(v, lights, arc);
      && HeldAtRed(w, bound)
      && (w.state == Stopping || w.state == Stopped)
      && Progress(v) <= Progress(w) && Lateral(w) == Lateral(v)
      && Progress(w) + 4.0 * w.speed <= Progress(v) + 4.0 * v.speed
      && w.speed <= 0.8 * v.speed
      && (v.speed * 0.8 < 0.1 ==> w.state == Stopped && w.speed == 0.0)
      && (v.state == Stopped && v.speed == 0.0 ==> w.state == Stopped && w.speed == 0.0 && w.x == v.x && w.y == v.y)
  {
    BandBeforeTurnPoint(v);
  }

  /**
   * Over any run of red frames the car stays in its band, never moves
   * backwards, and its speed shrinks at least geometrically (by 0.8 per
   * frame); a car already at rest stays at rest where it is.
   */
  lemma {:induction false} HeldRun(v: VehicleSnapshot, frames: seq<seq<TrafficLight>>, arc: Arc, bound: real)
    requires FourLights(frames) && RedFor(v.direction, frames)
    requires HeldAtRed(v, bound)
    ensures var w := Run(v, frames, arc);
      && HeldAtRed(w, bound) && w.direction == v.direction
      && (|frames| > 0 ==> w.state == Stopping || w.state == Stopped)
      && Progress(v) <= Progress(w) && Lateral(w) == Lateral(v)
      && w.speed <= Decayed(v.speed, |frames|)
      && (v.state == Stopped && v.speed == 0.0 ==> w.state == Stopped && w.speed == 0.0 && w.x == v.x && w.y == v.y)
    decreases |frames|
  {
    if frames != [] {
      var u := Tick(v, frames[0], arc);
      HeldStep(v, frames[0], arc, bound);
      RedForParts(v.direction, frames, 1);
      HeldRun(u, frames[1..], arc, bound);
      DecayedMonotone(u.speed, 0.8 * v.speed, |frames| - 1);
      assert Run(v, frames, arc) == Run(u, frames[1..], arc);
    }
  }

  /** Sixteen frames of braking from at most 4 units leave less than 0.125. */
  lemma {:induction false} DecayedSixteen(speed: real, n: nat)
    requires speed <= 4.0 && n == 16
    ensures Decayed(speed, n) < 0.125
  {
    DecayedMonotone(speed, 4.0, n);
    calc {
      Decayed(4.0, 16);
      Decayed(4.0 * 0.4096, 12);
      Decayed(4.0 * 0.4096 * 0.4096, 8);
      Decayed(4.0 * 0.4096 * 0.4096 * 0.4096, 4);
      Decayed(4.0 * 0.4096 * 0.4096 * 0.4096 * 0.8 * 0.8, 2);
      Decayed(4.0 * 0.4096 * 0.4096 * 0.4096 * 0.4096, 0);
      4.0 * 0.4096 * 0.4096 * 0.4096 * 0.4096;
    <
      0.125;
    }
  }

  /** Red on every frame of a sequence means red on every frame of each part. */
  lemma RedForParts(d: Direction, frames: seq<seq<TrafficLight>>, k: nat)
    requires FourLights(frames) && RedFor(d, frames) && k <= |frames|
    ensures FourLights(frames[..k]) && RedFor(d, frames[..k])
    ensures FourLights(frames[k..]) && RedFor(d, frames[k..])
  {
    assert forall i :: 0 <= i < k ==> frames[..k][i] == frames[i];
    assert forall i :: 0 <= i < |frames| - k ==> frames[k..][i] == frames[i + k];
  }

  /**
   * A regular car held by a red light with room to stop (its position plus
   * four times its speed still inside the band) is at rest after 17 red
   * frames, inside the band and so before the junction.
   */
  lemma ComesToRestAtRed(v: VehicleSnapshot, frames: seq<seq<TrafficLight>>, arc: Arc)
    requires FourLights(frames) && RedFor(v.direction, frames) && |frames| >= 17
    requires v.active && v.vtype == RegularCar && v.state != Turning
    requires InStopBand(v) && OnScreen(v.x, v.y)
    requires 0.0 <= v.speed <= 4.0
    requires Progress(v) + 4.0 * v.speed < BandEntry(v.direction) + StopDistance
    ensures var w := Run(v, frames, arc);
      w.active && w.state == Stopped && w.speed == 0.0 && InStopBand(w)
  {
    var bound := Progress(v) + 4.0 * v.speed;
    var a, rest := frames[..16], frames[16..];
    assert frames == a + rest;
    RunSplit(v, a, rest, arc);
    RedForParts(v.direction, frames, 16);
    HeldRun(v, a, arc, bound);
    DecayedSixteen(v.speed, |a|);
    var u := Run(v, a, arc);
    var b, tail := rest[..1], rest[1..];
    assert rest == b + tail;
    RunSplit(u, b, tail, arc);
    RedForParts(v.direction, rest, 1);
    HeldStep(u, rest[0], arc, bound);
    var s := Tick(u, rest[0], arc);
    assert Run(u, b, arc) == s;
    HeldRun(s, tail, arc, bound);
  }
}
