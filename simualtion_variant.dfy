/**
 * The second copy of the simulation source carries its own light
 * initializer. It is modelled on its own and proved to leave the heads in
 * exactly the state the primary initializer leaves them in.
 */
module SimualtionVariant {
  import opened Intersection
  import TrafficLights

  /** Overwrite the four heads: north and south red, east and west green, timers zero. */
  method InitializeTrafficLights(lights: array<TrafficLight>)
    requires lights.Length >= 4
    modifies lights
    ensures lights[4..] == old(lights[4..])
    ensures lights[..4] == TrafficLights.InitialLights
    ensures forall i :: 0 <= i < 4 ==> lights[i].direction == DirectionAt(i) && lights[i].timer == 0
    ensures lights[0].state == Red && lights[1].state == Red
    ensures lights[2].state == Green && lights[3].state == Green
  {
    lights[0] := TrafficLight(Red, 0, North);
    lights[1] := TrafficLight(Red, 0, South);
    lights[2] := TrafficLight(Green, 0, East);
    lights[3] := TrafficLight(Green, 0, West);
  }
}
