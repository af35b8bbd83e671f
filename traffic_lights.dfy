/**
 * The signal controller. The lights start with the north-south pair red
 * and the east-west pair green. Every 5000 ms of the unsigned 32-bit frame
 * clock each lane's priority is re-decided from the length of its queue
 * with hysteresis (raised above 10 waiting vehicles, cleared below 5, kept
 * in between), and then each light is forced green if its lane has
 * priority and toggled otherwise.
 */
module TrafficLights {
  import opened Intersection
  import opened LaneQueue

  const CycleMillis: int := 5000
  /** A lane with more than this many waiting vehicles gets priority. */
  const RaiseAbove: int := 10
  /** A lane with fewer than this many waiting vehicles loses priority. */
  const ClearBelow: int := 5

  // ---------------------------------------------------------------------
  // Initial lights
  // ---------------------------------------------------------------------

  /** The four heads in approach order: north and south red, east and west green. */
  const InitialLights: seq<TrafficLight> := [
    TrafficLight(Red, 0, North),
    TrafficLight(Red, 0, South),
    TrafficLight(Green, 0, East),
    TrafficLight(Green, 0, West)
  ]

  /** Write the initial heads into the first four slots of the lights array. */
  method InitializeTrafficLights(lights: array<TrafficLight>)
    requires lights.Length >= 4
    modifies lights
    ensures lights[4..] == old(lights[4..])
    ensures lights[..4] == InitialLights
  {
    lights[0] := TrafficLight(Red, 0, North);
    lights[1] := TrafficLight(Red, 0, South);
    lights[2] := TrafficLight(Green, 0, East);
    lights[3] := TrafficLight(Green, 0, West);
  }

  /**
   * The initial heads serve the approach of their slot, start with a zero
   * timer, and give green to exactly one of the two crossing axes.
   */
  lemma InitialLightsShape()
    ensures |InitialLights| == 4
    ensures forall i :: 0 <= i < 4 ==>
      InitialLights[i].direction == DirectionAt(i) && InitialLights[i].timer == 0
    ensures forall i :: 0 <= i < 4 ==>
      (InitialLights[i].state == Green <==> InitialLights[i].direction in {East, West})
  {
  }

  // ---------------------------------------------------------------------
  // The clock
  // ---------------------------------------------------------------------

  /**
   * Milliseconds since the last change, as an unsigned 32-bit difference:
   * the true distance when the clock has not wrapped since the last change,
   * and the distance across the wrap when it has.
   */
  function Elapsed(now: Uint32, last: Uint32): (e: Uint32)
    ensures now >= last ==> e == now - last
    ensures now < last ==> e == 0x1_0000_0000 - last + now
    ensures (last + e) % 0x1_0000_0000 == now
  {
    (now - last) % 0x1_0000_0000
  }

  /**
   * A change 1000 ms before the counter wraps is due 4000 ms after it: one
   * concrete instance of Elapsed's contract, kept as an illustration.
   */
  lemma WrapAroundStillFires()
    ensures Elapsed(4000, 0xFFFF_FC18) == CycleMillis
    ensures Elapsed(3999, 0xFFFF_FC18) < CycleMillis
  {
  }

  // ---------------------------------------------------------------------
  // One change of the lights, on values
  // ---------------------------------------------------------------------

  /** The priority of one lane after a change, from its queue length. */
  function NextPriority(size: int, priority: int): (r: int)
    ensures r == 1 <==> size > RaiseAbove || (ClearBelow <= size && priority == 1)
    ensures priority == 0 || priority == 1 ==> r == 0 || r == 1
  {
    if size > RaiseAbove then 1 else if size < ClearBelow then 0 else priority
  }

  /** One head after a change, given its lane's new priority. */
  function NextLight(light: TrafficLight, priority: int): (r: TrafficLight)
    ensures r.direction == light.direction && r.timer == light.timer
    ensures r.state == Green <==> priority == 1 || light.state == Red
  {
    if priority == 1 then light.(state := Green)
    else light.(state := if light.state == Red then Green else Red)
  }

  /** The controller's state: the priorities, the four heads and the time of the last change. */
  datatype Signals = Signals(priorities: seq<int>, lights: seq<TrafficLight>, lastUpdateTicks: Uint32)

  predicate FourLanes(s: Signals)
  {
    |s.priorities| == 4 && |s.lights| == 4
  }

  /** A change: every priority re-decided first, then every head set from its priority. */
  function Change(s: Signals, sizes: seq<int>, now: Uint32): (r: Signals)
    requires FourLanes(s) && |sizes| == 4
    ensures FourLanes(r) && r.lastUpdateTicks == now
  {
    var priorities := seq(4, i requires 0 <= i < 4 => NextPriority(sizes[i], s.priorities[i]));
    Signals(priorities, seq(4, i requires 0 <= i < 4 => NextLight(s.lights[i], priorities[i])), now)
  }

  /** One call of the update at time now, with the lanes' current queue lengths. */
  function UpdateSignals(s: Signals, sizes: seq<int>, now: Uint32): (r: Signals)
    requires FourLanes(s) && |sizes| == 4
    ensures FourLanes(r)
  {
    if Elapsed(now, s.lastUpdateTicks) >= CycleMillis then Change(s, sizes, now) else s
  }

  /**
   * Within 5000 ms of the last change nothing happens; once 5000 ms have
   * passed the change is made and its time recorded.
   */
  lemma UpdateTiming(s: Signals, sizes: seq<int>, now: Uint32)
    requires FourLanes(s) && |sizes| == 4
    ensures Elapsed(now, s.lastUpdateTicks) < CycleMillis ==> UpdateSignals(s, sizes, now) == s
    ensures Elapsed(now, s.lastUpdateTicks) >= CycleMillis ==>
      UpdateSignals(s, sizes, now) == Change(s, sizes, now)
  {
  }

  /**
   * What a change does to lane i, and only to lane i: its priority is
   * raised above 10 waiting vehicles, cleared below 5 and kept otherwise;
   * its head turns green when it has priority and is toggled otherwise; the
   * head keeps its approach and timer.
   */
  lemma ChangePerLane(s: Signals, sizes: seq<int>, now: Uint32, i: nat)
    requires FourLanes(s) && |sizes| == 4 && i < 4
    ensures var r := Change(s, sizes, now);
      && (sizes[i] > 10 ==> r.priorities[i] == 1)
      && (sizes[i] < 5 ==> r.priorities[i] == 0)
      && (5 <= sizes[i] <= 10 ==> r.priorities[i] == s.priorities[i])
      && (r.priorities[i] == 1 ==> r.lights[i].state == Green)
      && (r.priorities[i] != 1 ==> r.lights[i].state != s.lights[i].state)
      && r.lights[i].direction == s.lights[i].direction
      && r.lights[i].timer == s.lights[i].timer
  {
  }

  /** A lane's new priority and head depend on nothing but that lane. */
  lemma ChangeIsLocal(s: Signals, t: Signals, sizes: seq<int>, sizes': seq<int>, now: Uint32, i: nat)
    requires FourLanes(s) && FourLanes(t) && |sizes| == 4 && |sizes'| == 4 && i < 4
    requires s.priorities[i] == t.priorities[i] && s.lights[i] == t.lights[i] && sizes[i] == sizes'[i]
    ensures Change(s, sizes, now).priorities[i] == Change(t, sizes', now).priorities[i]
    ensures Change(s, sizes, now).lights[i] == Change(t, sizes', now).lights[i]
  {
  }

  // ---------------------------------------------------------------------
  // Properties over many changes
  // ---------------------------------------------------------------------

  /** A lane's priority after the queue lengths seen at successive changes. */
  function PriorityAfter(priority: int, sizes: seq<int>): int
    decreases |sizes|
  {
    if sizes == [] then priority else PriorityAfter(NextPriority(sizes[0], priority), sizes[1..])
  }

  /**
   * Reference reading of the hysteresis: the priority is set by the most
   * recent length outside 5..10 (1 if it was above 10, 0 if it was below
   * 5), and is the starting priority if every length stayed within 5..10.
   */
  function LastDecisive(priority: int, sizes: seq<int>): int
    decreases |sizes|
  {
    if sizes == [] then priority
    else
      var last := sizes[|sizes| - 1];
      if last > RaiseAbove then 1
      else if last < ClearBelow then 0
      else LastDecisive(priority, sizes[..|sizes| - 1])
  }

  lemma {:induction false} PriorityAfterAppend(priority: int, sizes: seq<int>, size: int)
    ensures PriorityAfter(priority, sizes + [size]) == NextPriority(size, PriorityAfter(priority, sizes))
    decreases |sizes|
  {
    if sizes != [] {
      assert (sizes + [size])[1..] == sizes[1..] + [size];
      PriorityAfterAppend(NextPriority(sizes[0], priority), sizes[1..], size);
    }
  }

  /** The hysteresis is exactly "the last decisive length wins". */
  lemma {:induction false} HysteresisIsLastDecisive(priority: int, sizes: seq<int>)
    ensures PriorityAfter(priority, sizes) == LastDecisive(priority, sizes)
    decreases |sizes|
  {
    if sizes != [] {
      var init, last := sizes[..|sizes| - 1], sizes[|sizes| - 1];
      assert sizes == init + [last];
      PriorityAfterAppend(priority, init, last);
      HysteresisIsLastDecisive(priority, init);
    }
  }

  /** A controller whose priorities are all 0 and 1 keeps them so. */
  lemma PrioritiesStayBinary(s: Signals, sizes: seq<int>, now: Uint32)
    requires FourLanes(s) && |sizes| == 4
    requires forall i :: 0 <= i < 4 ==> s.priorities[i] == 0 || s.priorities[i] == 1
    ensures var r := UpdateSignals(s, sizes, now);
      forall i :: 0 <= i < 4 ==> r.priorities[i] == 0 || r.priorities[i] == 1
  {
  }

  /**
   * A sequence of changes, with the queue lengths seen at each one. The
   * clock reading handed to each change is the stored one: the time plays
   * no part in which heads are green.
   */
  function Changes(s: Signals, samples: seq<seq<int>>): (r: Signals)
    requires FourLanes(s) && forall k :: 0 <= k < |samples| ==> |samples[k]| == 4
    ensures FourLanes(r)
    decreases |samples|
  {
    if samples == [] then s else Changes(Change(s, samples[0], s.lastUpdateTicks), samples[1..])
  }

  /** The two axes of the crossing: north-south heads 0 and 1, east-west heads 2 and 3. */
  predicate AxisGreen(s: Signals, northSouth: bool)
    requires FourLanes(s)
  {
    && s.lights[0].state == s.lights[1].state
    && s.lights[2].state == s.lights[3].state
    && s.lights[0].state != s.lights[2].state
    && (s.lights[0].state == Green <==> northSouth)
  }

  /**
   * While no lane ever holds more than 10 waiting vehicles and no lane
   * starts with priority, exactly one axis is green at a time and the
   * green passes to the other axis at every change.
   */
  lemma {:induction false} AxesAlternate(s: Signals, samples: seq<seq<int>>, northSouth: bool)
    requires FourLanes(s) && forall k :: 0 <= k < |samples| ==> |samples[k]| == 4
    requires forall k, i :: 0 <= k < |samples| && 0 <= i < 4 ==> samples[k][i] <= RaiseAbove
    requires forall i :: 0 <= i < 4 ==> s.priorities[i] == 0
    requires AxisGreen(s, northSouth)
    ensures var r := Changes(s, samples);
      && AxisGreen(r, if |samples| % 2 == 0 then northSouth else !northSouth)
      && forall i :: 0 <= i < 4 ==> r.priorities[i] == 0
    decreases |samples|
  {
    if samples != [] {
      var t := Change(s, samples[0], s.lastUpdateTicks);
      assert forall k, i :: 0 <= k < |samples[1..]| && 0 <= i < 4 ==> samples[1..][k][i] <= RaiseAbove by {
        forall k, i | 0 <= k < |samples[1..]| && 0 <= i < 4
          ensures samples[1..][k][i] <= RaiseAbove
        {
          assert samples[1..][k] == samples[k + 1];
        }
      }
      AxesAlternate(t, samples[1..], !northSouth);
    }
  }

  /**
   * Priority overrides the crossing: with more than 10 vehicles waiting on
   * both a north-south and an east-west lane, one change makes both heads
   * green.
   */
  lemma PriorityGreensBothAxes(s: Signals, sizes: seq<int>, now: Uint32)
    requires FourLanes(s) && |sizes| == 4 && sizes[0] > RaiseAbove && sizes[2] > RaiseAbove
    ensures var r := Change(s, sizes, now);
      r.lights[0].state == Green && r.lights[2].state == Green
  {
  }

  // ---------------------------------------------------------------------
  // The controller on the heap
  // ---------------------------------------------------------------------

  /**
   * The program-wide lane queues and priorities, and the time of the last
   * change that the update function keeps between calls.
   */
  class Controller {
    const laneQueues: seq<Queue>
    const lanePriorities: array<int>
    var lastUpdateTicks: Uint32

    ghost predicate Valid()
      reads this
    {
      |laneQueues| == 4 && lanePriorities.Length == 4
    }

    /** Empty queues, no priorities and a last change at time 0. */
    constructor ()
      ensures Valid() && fresh(lanePriorities) && lastUpdateTicks == 0
      ensures lanePriorities[..] == [0, 0, 0, 0]
      ensures forall i :: 0 <= i < 4 ==> fresh(laneQueues[i]) && laneQueues[i].Valid() && laneQueues[i].Contents == []
    {
      var a := new Queue();
      var b := new Queue();
      var c := new Queue();
      var d := new Queue();
      laneQueues := [a, b, c, d];
      lanePriorities := new int[4](_ => 0);
      lastUpdateTicks := 0;
    }

    /** The current length of each lane's queue, in approach order. */
    function QueueSizes(): (sizes: seq<int>)
      reads this, laneQueues
      requires Valid()
      ensures |sizes| == 4 && forall i :: 0 <= i < 4 ==> sizes[i] == laneQueues[i].size
    {
      [laneQueues[0].size, laneQueues[1].size, laneQueues[2].size, laneQueues[3].size]
    }

    /** The priorities, the given heads and the last change, as a value. */
    function SignalsOf(lights: array<TrafficLight>): (s: Signals)
      reads this, lanePriorities, lights
      requires Valid() && lights.Length >= 4
      ensures FourLanes(s)
    {
      Signals(lanePriorities[..], lights[..4], lastUpdateTicks)
    }

    /** Called once per frame with the frame clock's reading. */
    method UpdateTrafficLights(lights: array<TrafficLight>, currentTicks: Uint32)
      requires Valid() && lights.Length >= 4
      modifies this`lastUpdateTicks, lanePriorities, lights
      ensures Valid() && lights[4..] == old(lights[4..])
      ensures SignalsOf(lights) == UpdateSignals(old(SignalsOf(lights)), QueueSizes(), currentTicks)
    {
      if Elapsed(currentTicks, lastUpdateTicks) >= CycleMillis {
        lastUpdateTicks := currentTicks;

        var i := 0;
        while i < 4
          invariant 0 <= i <= 4 && lastUpdateTicks == currentTicks
          invariant forall k :: 0 <= k < i ==>
            lanePriorities[k] == NextPriority(laneQueues[k].size, old(lanePriorities[k]))
          invariant forall k :: i <= k < 4 ==> lanePriorities[k] == old(lanePriorities[k])
          invariant lights[..] == old(lights[..])
        {
          if laneQueues[i].size > RaiseAbove {
            lanePriorities[i] := 1;
          } else if laneQueues[i].size < ClearBelow {
            lanePriorities[i] := 0;
          }
          i := i + 1;
        }

        ghost var priorities := lanePriorities[..];
        i := 0;
        while i < 4
          invariant 0 <= i <= 4 && lastUpdateTicks == currentTicks
          invariant lanePriorities[..] == priorities
          invariant forall k :: 0 <= k < i ==> lights[k] == NextLight(old(lights[k]), lanePriorities[k])
          invariant forall k :: i <= k < lights.Length ==> lights[k] == old(lights[k])
        {
          if lanePriorities[i] == 1 {
            lights[i] := lights[i].(state := Green);
          } else {
            lights[i] := lights[i].(state := if lights[i].state == Red then Green else Red);
          }
          i := i + 1;
        }
        ghost var r := Change(old(SignalsOf(lights)), QueueSizes(), currentTicks);
        assert lanePriorities[..] == r.priorities;
        assert lights[..4] == r.lights;
        assert SignalsOf(lights) == r;
      }
    }
  }
}
