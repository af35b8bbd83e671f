# Traffic intersection simulation — a verified model of the core

This project models the core of a small C simulation of a four-way signalised
junction. Vehicles are spawned on one of four approaches (north, south, east,
west), in one of two lanes. They drive toward the junction, slow down and stop
in the 40-unit band that follows the stop line while their own light is red, start a
left or right turn at a turn point, follow a turning arc, and are retired once
they leave the screen. Four traffic lights are initialised with the
north-south pair red and the east-west pair green. Every 5000 ms of the
unsigned 32-bit frame clock a controller re-decides each lane's priority from
the length of its queue: priority is raised above 10 waiting vehicles and
cleared below 5, and in between it keeps its old value. Then it forces every
high-priority lane's light green and toggles the others. Each lane's waiting
line is a linked FIFO of vehicle records.

The model follows the program's own structure:

- `intersection.dfy` (module `Intersection`): the window and lane constants,
  the enumerations, the light record and the unsigned 32-bit clock type.
- `vehicle_model.dfy` (module `VehicleModel`): the vehicle record as a value.
  `Spawn` is the factory and `Tick` is one frame of the per-vehicle state
  machine. `Tick` is written as the source's phases: stop rule, turn-speed
  floor, turn entry, movement (straight or on the arc) and settling.
- `vehicles.dfy` (module `Vehicles`): the heap vehicle as a class. The factory
  `CreateVehicle` and the frame update `UpdateVehicle` assign its fields step
  by step, as the source does. Each is proved to leave exactly the record that
  `Spawn` or `Tick` gives.
- `lane_queue.dfy` (module `LaneQueue`): the linked queue of vehicle records.
  It has front and rear pointers and a size counter. The ghost `Contents` is
  the line, front first.
- `traffic_lights.dfy` (module `TrafficLights`): the light initialiser, the
  controller update on values (`UpdateSignals`), and a `Controller` class.
  The class holds the program-wide lane queues and priorities and the
  function-static time of the last change. Its `UpdateTrafficLights` is
  proved to do what `UpdateSignals` says.
- `simualtion_variant.dfy` (module `SimualtionVariant`): the second copy of
  the light initialiser in `traffic_simualtion.c`. It is proved to write the
  same four lights.
- `vehicle_properties.dfy` and `turn_properties.dfy`: lemmas about `Tick` and
  about runs of frames (`Run`).

Values and methods on the heap are tied as follows. A state-changing method
ensures that the object's new value equals a pure function of its old value.
The properties are then proved about the pure function.

The clock reading and the three `rand()` draws of the factory are parameters.
Sine and cosine of the turning angle are a parameter `arc`, which maps degrees
to the pair (sin, cos). The turning lemmas assume only that both lie in
[0, 1] on [0, 90] degrees (`QuarterArc`). Floating-point values are reals.
C `(int)` conversions truncate toward zero (`Trunc`). The unsigned clock
difference is taken modulo 2^32.

Some behaviours of the program as written are proved rather than corrected:

- Only a *stopped* vehicle moves off when its light is no longer red. A
  vehicle that was still slowing down keeps its reduced speed and stays in
  the stopping state until it reaches its turn point with a turn pending,
  where it starts turning (`StoppingKeepsCrawling`).
- Nothing clears a completed turn. A vehicle still past its turn point would
  start turning again on the next frame (`TurnRestarts`). No spawned vehicle
  ever gets there, though: by `TurnNeverCompletes` below, no turn completes
  on screen, so this restart is a property of the code that cannot be seen.
- Each turning frame puts the vehicle 0.5 units from a centre 15 units to its
  side, so it drifts at least 14.5 units sideways per frame. A spawned vehicle
  therefore leaves the screen and is retired before its angle reaches 90
  degrees. No turn is ever completed on screen, and the lane flag never flips
  (`TurnNeverCompletes`).
- Priority overrides the crossing. Two crossing lanes with more than 10
  waiting vehicles each get green lights at the same time
  (`PriorityGreensBothAxes`). Without priority the two axes alternate, and
  exactly one is green (`AxesAlternate`).

## Model

| member | source | states |
|---|---|---|
| `Intersection.DirectionIndex` | traffic_simulation.h:14-19 | each approach's ordinal is below 4 and selects that approach again, so `lights[direction]` is the light of that approach |
| `VehicleModel.Trunc` | traffic_simulation.c:208-209 | the C `(int)` conversion: the result lies within 1 of the value, on the side toward zero |
| `VehicleModel.BaseSpeed` | traffic_simulation.c:113-125 | cruising speeds lie in [2, 4]; exactly regular cars cruise at 2, and every emergency type at 3.5 or more (the same table resets the speed at :332-344) |
| `VehicleModel.TurnSpeed` | traffic_simulation.c:422-435 | turn steps lie in [1, 2] degrees per frame; exactly regular cars turn by 1, and every emergency type by 1.5 or more |
| `VehicleModel.TypeFromDraw` | traffic_simulation.c:93-110 | a roll below 5 gives an ambulance, 5..9 a police car, 10..14 a fire truck, and 15 or more a regular car, each as an if-and-only-if |
| `VehicleModel.TurnFromDraw` | traffic_simulation.c:131-140 | a roll below 15 gives a left turn, 15..29 a right turn, and 30 or more no turn, each as an if-and-only-if |
| `VehicleModel.SpawnPlacement` | traffic_simulation.c:142-209 | the rectangle is 20×30 on north-south and 30×20 on east-west approaches and holds the position; the vehicle starts at the screen edge it enters from (y 570, y 0, x 0, x 770) at lane centre 370/450 or 270/350, the second exactly for an odd lane draw, which is also exactly when the lane flag is set |
| `VehicleModel.Spawn` | traffic_simulation.c:88-212 | a new vehicle is active, moving, on its approach, with angle and progress 0 and its type's cruising speed; it is on screen, outside its stopping band and short of its turn point |
| `VehicleModel.SpawnFields` | traffic_simulation.c:88-212 | a new vehicle is active, moving, with angle and progress 0; the type roll (<5, <10, <15, else) gives ambulance, police car, fire truck or regular car with speed 4.0, 4.0, 3.5 or 2.0; the turn roll gives left below 15, right for 15..29, none otherwise; it is 20×30 on north-south and 30×20 on east-west approaches; it is placed at north (370 or 450, 570), south (370 or 450, 0), east (0, 270 or 350) or west (770, 270 or 350); the lane flag holds exactly for 450/350, i.e. for an odd lane draw; the rectangle holds the truncated position |
| `VehicleModel.ApproachGeometry` | traffic_simulation.c:226-288 | the stop lines are at 420, 180, 280 and 520; every turn point lies between 280 and 420 |
| `VehicleModel.StopLine` | traffic_simulation.c:225-288 | every approach's stop line lies one lane width plus 40 before the junction centre, measured along the direction of travel |
| `VehicleModel.TurnPoint` | traffic_simulation.c:225-288 | going straight turns nowhere but is measured at the centre; a right turn begins a quarter lane width before the centre and a left turn a quarter lane width past it, along the direction of travel |
| `VehicleModel.InStopBand` | traffic_simulation.c:290-316 | the stopping band is the open 40-unit interval after the stop line, measured along the direction of travel |
| `VehicleModel.ShouldStop` | traffic_simulation.c:290-316 | a vehicle must stop exactly when it is a regular car, its own light is red and it is inside its band; an emergency vehicle never must |
| `VehicleModel.AtTurnPoint` | traffic_simulation.c:373-389 | a vehicle is at its turn point exactly when its coordinate along the direction of travel has reached the turn point's |
| `VehicleModel.ApplyStopRule` | traffic_simulation.c:318-345 | the stop rule changes neither the position nor the approach, type, turn or activity |
| `VehicleModel.ApplyTurnFloor` | traffic_simulation.c:347-371 | the turn-speed floor changes only the speed and never lowers it; a moving vehicle with a turn pending and less than 40 from its turn point has speed at least 0.5 afterwards; any change raises a speed below 0.5 to exactly 0.5 |
| `VehicleModel.EnterTurn` | traffic_simulation.c:373-398 | turn entry changes neither position, speed nor identity |
| `VehicleModel.Translate` | traffic_simulation.c:400-419 | straight travel advances the along-approach coordinate by exactly the speed and keeps the across-approach coordinate |
| `VehicleModel.PlaceOnArc` | traffic_simulation.c:447-492 | the arc placement changes only the position |
| `VehicleModel.AdvanceTurn` | traffic_simulation.c:420-492 | a turning frame keeps identity and speed |
| `VehicleModel.Move` | traffic_simulation.c:400-493 | movement keeps identity and speed |
| `VehicleModel.Settle` | traffic_simulation.c:495-504 | the rectangle takes the truncated position; the vehicle stays active exactly when it was active and lies within [-100, 900] × [-100, 700] |
| `VehicleModel.Tick` | traffic_simulation.c:214-505 | an inactive vehicle is left as it is; approach, type and turn are never written; after the frame the vehicle is active exactly when it was active and is on screen |
| `Vehicles.CreateVehicle` | traffic_simulation.c:88-212 | the freshly allocated vehicle holds exactly the record `Spawn` gives for the three draws |
| `Vehicles.AssignType` | traffic_simulation.c:93-129 | the type from the roll, active, the type's speed, moving, angle and progress 0 |
| `Vehicles.AssignTurn` | traffic_simulation.c:131-140 | the turn from the roll |
| `Vehicles.AssignPlacement` | traffic_simulation.c:142-209 | rectangle, position and lane flag as `SpawnPlacement` gives them |
| `Vehicles.UpdateVehicle` | traffic_simulation.c:214-505 | the vehicle's new record is exactly `Tick` of its old record and the first four lights |
| `Vehicles.HoldAtLight` | traffic_simulation.c:318-345 | the new record is `ApplyStopRule` of the old one |
| `Vehicles.SlowBeforeTurn` | traffic_simulation.c:347-371 | the new record is `ApplyTurnFloor` of the old one |
| `Vehicles.StartTurnIfDue` | traffic_simulation.c:373-398 | the new record is `EnterTurn` of the old one |
| `Vehicles.MoveOneFrame` | traffic_simulation.c:400-420 | the new record is `Move` of the old one |
| `Vehicles.Turn` | traffic_simulation.c:420-492 | the new record is `AdvanceTurn` of the old one |
| `Vehicles.SettleOnScreen` | traffic_simulation.c:495-504 | the new record is `Settle` of the old one |
| `VehicleProperties.BandBeforeTurnPoint` | traffic_simulation.c:226-316 | no vehicle in its stopping band has reached its turn point |
| `VehicleProperties.StopLogic` | traffic_simulation.c:291-345 | emergency types never stop; a held regular car slows to 0.8 of its speed as stopping, or stops at exactly 0 below 0.1; a stopped vehicle that is not held moves off at its type's speed (turning at once if at its turn point with a turn pending); otherwise the rule changes nothing |
| `VehicleProperties.StraightTravel` | traffic_simulation.c:400-419 | a vehicle that ends the frame stopped did not move; one that was not turning and ends moving or stopping moved exactly its new speed along its heading |
| `VehicleProperties.TurnEntry` | traffic_simulation.c:373-398 | a non-turning vehicle is turning after the frame exactly when it was at or past its turn point, had a turn pending, and was not stopped or was released; it then has one step of angle and its lane flag |
| `VehicleProperties.TurnStep` | traffic_simulation.c:420-445 | a turning frame adds 2.0, 1.5 or 1.0 degrees by type and sets progress to angle/90; at 90 or more the vehicle is moving with angle and progress 0 and its lane flag flipped |
| `VehicleProperties.TurnRestarts` | traffic_simulation.c:392-398 | a turn that has just completed starts again on the next frame if the vehicle is still past its turn point |
| `VehicleProperties.StoppingKeepsCrawling` | traffic_simulation.c:329-345 | a released vehicle that was still stopping, unless it is at its turn point with a turn pending, keeps its state and reduced speed, and moves by that speed; once it reaches its turn point with a turn pending it starts turning instead |
| `VehicleProperties.RunKeepsIdentity` | traffic_simulation.c:214-505 | no run of frames changes approach, type or pending turn |
| `VehicleProperties.RetiredStaysRetired` | traffic_simulation.c:216-217 | a retired vehicle is unchanged by any run of frames |
| `VehicleProperties.EmergencyNeverStops` | traffic_simulation.c:223-316 | an emergency vehicle that is moving or turning is moving or turning after any run of frames |
| `VehicleProperties.HeldStep` | traffic_simulation.c:318-328 | one red frame keeps a held regular car in its band, slowing or stopped, not moving back; it does not increase its position plus four times its speed; its speed at most 0.8 of before; a car at rest stays at rest in place |
| `VehicleProperties.HeldRun` | traffic_simulation.c:318-328 | over any run of red frames the same holds, with the speed at most the start speed braked by 0.8 per frame |
| `VehicleProperties.ComesToRestAtRed` | traffic_simulation.c:291-328 | a regular car in its band at speed at most 4, with its position plus four times its speed still inside the band, is stopped at speed 0 inside the band after 17 red frames or more |
| `TurnProperties.SpawnInLane` | traffic_simulation.c:154-206 | every new vehicle is on screen on the centre of its lane |
| `TurnProperties.ArcStep` | traffic_simulation.c:437-492 | a turning frame short of 90 degrees keeps turning and the lane flag, adds the type's turn step, moves forward, and drifts at least 14.5 units sideways |
| `TurnProperties.NoCompletionOnScreen` | traffic_simulation.c:437-445 | a vehicle on screen whose drift covers its angle cannot reach 90 degrees in the next frame |
| `TurnProperties.FrameKeepsLane` | traffic_simulation.c:214-505 | every frame keeps a vehicle on its lane centre or on an arc whose drift covers its angle, and keeps the lane flag |
| `TurnProperties.RunKeepsLane` | traffic_simulation.c:214-505 | the same over any run of frames |
| `TurnProperties.TurnNeverCompletes` | traffic_simulation.c:437-504 | a spawned vehicle keeps its lane flag for ever, and is on its lane centre whenever it is active and not turning |
| `LaneQueue.Node.constructor` | traffic_simulation.c:890-892 | a new cell holds the record and ends the chain |
| `LaneQueue.Queue.constructor` | traffic_simulation.c:7 | a zero-initialised queue is empty |
| `LaneQueue.Queue.InitQueue` | traffic_simulation.c:882-886 | the queue is empty, with size 0 and no cells |
| `LaneQueue.Queue.Enqueue` | traffic_simulation.c:888-903 | the record is appended at the rear and the size grows by one |
| `LaneQueue.Queue.Dequeue` | traffic_simulation.c:905-922 | on an empty queue the all-zero record comes back and nothing changes; otherwise the front record comes back, it leaves the line and the size drops by one, so records leave in arrival order |
| `LaneQueue.Queue.IsQueueEmpty` | traffic_simulation.c:924-927 | empty exactly when the line is empty, exactly when the size is 0, and exactly when there is no rear cell |
| `TrafficLights.InitializeTrafficLights` | traffic_simulation.c:27-49 | the first four lights become north red, south red, east green, west green, timers 0; any further entries are untouched |
| `TrafficLights.InitialLightsShape` | traffic_simulation.c:27-49 | light i serves the approach with ordinal i, starts with timer 0, and is green exactly for east and west |
| `TrafficLights.Elapsed` | traffic_simulation.c:56 | the unsigned difference is the true distance without a wrap and the distance across 2^32 with one; added to the last time it gives the current time modulo 2^32 |
| `TrafficLights.WrapAroundStillFires` | traffic_simulation.c:56 | a change 1000 ms before the counter wraps is due again 4000 ms after the wrap, not earlier |
| `TrafficLights.NextPriority` | traffic_simulation.c:63-70 | a lane has priority afterwards exactly when more than 10 vehicles wait, or at least 5 wait and it had priority; priorities 0 or 1 stay 0 or 1 |
| `TrafficLights.NextLight` | traffic_simulation.c:76-83 | a head is green afterwards exactly when its lane has priority or it was red; approach and timer are kept |
| `TrafficLights.Change` | traffic_simulation.c:58-85 | a change covers four lanes and records its time |
| `TrafficLights.UpdateSignals` | traffic_simulation.c:51-86 | an update covers four lanes |
| `TrafficLights.UpdateTiming` | traffic_simulation.c:56-59 | less than 5000 ms after the last change nothing changes; otherwise the update is exactly the change of `Change`, which also records the time |
| `TrafficLights.ChangePerLane` | traffic_simulation.c:60-84 | lane i's priority is set above 10, cleared below 5 and kept in between; its light is green if it has priority and the opposite of before otherwise; approach and timer are kept |
| `TrafficLights.ChangeIsLocal` | traffic_simulation.c:60-84 | lane i's new priority and light depend only on lane i's queue length, priority and light |
| `TrafficLights.HysteresisIsLastDecisive` | traffic_simulation.c:63-70 | after a sequence of changes, a lane's priority is set by the last queue length outside 5..10, or is the starting priority if there was none |
| `TrafficLights.PrioritiesStayBinary` | traffic_simulation.c:63-70 | priorities that are 0 or 1 stay 0 or 1 |
| `TrafficLights.AxesAlternate` | traffic_simulation.c:74-84 | with no priority at the start and no queue above 10, exactly one axis is green and the green passes to the other axis at every change |
| `TrafficLights.PriorityGreensBothAxes` | traffic_simulation.c:74-80 | with more than 10 vehicles on a north-south and on an east-west lane, one change makes both their lights green |
| `TrafficLights.Controller.constructor` | traffic_simulation.c:7-8 | the lane queues are empty, the priorities 0, and the last change at time 0 |
| `TrafficLights.Controller.QueueSizes` | traffic_simulation.c:63-67 | the four queue lengths in approach order |
| `TrafficLights.Controller.UpdateTrafficLights` | traffic_simulation.c:51-86 | priorities, the first four lights and the time of the last change become exactly `UpdateSignals` of their old values, the queue lengths and the clock reading; further lights are untouched |
| `SimualtionVariant.InitializeTrafficLights` | traffic_simualtion.c:21-44 | the same four lights as the primary initialiser: north and south red, east and west green, timers 0, light i serving approach i |

## Left out

- Drawing: every `render*` function, the colour tables and the `main.c` window set-up are not part of this model. They only draw and hold no simulation state.
- `generator.c` is not part of this model. It writes vehicle records to a file with `fprintf`, and no reader of that file exists to give a round trip.
- Sine and cosine are not computed. The arc placement takes them from the parameter `arc`. The only thing assumed about them, and only in the turning lemmas, is that both lie in [0, 1] between 0 and 90 degrees.
- Single-precision rounding of `float` arithmetic and of constants such as `0.8f` and `0.1f` is not modelled; speeds and positions are exact reals.
- `rand()` and `SDL_GetTicks()` are not called. Their results are the parameters `typeDraw`, `turnDraw`, `laneDraw` and `currentTicks`.
- Allocation failure in `createVehicle` and `enqueue` is not modelled. The source does not check it.
- `free` in `dequeue` is not modelled. The removed cell stays in the queue's ghost footprint `Repr`.
- The light rectangles are left out. Their positions depend on the drawing constants `TRAFFIC_LIGHT_WIDTH` and `TRAFFIC_LIGHT_HEIGHT`, which only the renderer uses, so the light record has no rectangle.
- `LightState` has the two states the code uses, `RED` and `GREEN`. Regular car is taken as vehicle-type ordinal 0, following the colour table at traffic_simulation.c:11-15. This matters only for the all-zero record.
- The `timer` field of a light is only ever set to 0. It is kept, but nothing reads it.
- Queue sizes are unbounded integers; C `int` overflow of the counter is not modelled.
- The frame loop that spawns vehicles, pushes them to lane queues and calls the updates is not modelled. `Run` only applies `Tick` to one vehicle for a given sequence of light configurations, and the queues are not connected to the vehicles.
- `VehicleModel.Tick`: its own contract states only the inactive case, the unchanged identity fields and retirement. Everything else about a frame is stated by the lemmas of `VehicleProperties` and `TurnProperties`.
- `TrafficLights.UpdateSignals`: its own contract states only the shape. The timing and the per-lane effect are stated by `UpdateTiming` and `ChangePerLane`.
- `VehicleProperties.ComesToRestAtRed`: it is proved for cars that still have room to brake. The position plus four times the speed must lie inside the band, and the speed must be at most 4. A car entering the band faster than that may pass through it, and the model does not claim otherwise.
