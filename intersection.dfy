/**
 * The fixed geometry and the enumerations shared by every part of the
 * simulation: the window, the lane width, the centre of the junction, the
 * four approaches and the small state enumerations of vehicles and lights.
 */
module Intersection {

  const WindowWidth: int := 800
  const WindowHeight: int := 600
  const LaneWidth: int := 80
  const IntersectionX: int := WindowWidth / 2
  const IntersectionY: int := WindowHeight / 2

  /** The approach a vehicle travels along, named by its heading. */
  datatype Direction = North | South | East | West

  /** Each approach owns the light and the lane queue at its ordinal. */
  function DirectionIndex(d: Direction): (i: nat)
    ensures i < 4
    ensures d == DirectionAt(i)
  {
    match d
    case North => 0
    case South => 1
    case East => 2
    case West => 3
  }

  /** The approach whose ordinal is i. */
  function DirectionAt(i: nat): Direction
    requires i < 4
  {
    if i == 0 then North else if i == 1 then South else if i == 2 then East else West
  }

  datatype TurnDirection = NoTurn | Left | Right

  datatype VehicleState = Moving | Stopping | Stopped | Turning

  /** Regular cars obey red lights; the three emergency types do not. */
  datatype VehicleType = RegularCar | Ambulance | PoliceCar | FireTruck

  datatype LightState = Red | Green

  /**
   * One signal head. Its on-screen rectangle depends on drawing constants
   * and is not part of the model.
   */
  datatype TrafficLight = TrafficLight(state: LightState, timer: int, direction: Direction)

  /** The unsigned 32-bit millisecond counter of the frame clock. */
  type Uint32 = x: int | 0 <= x < 0x1_0000_0000
}
