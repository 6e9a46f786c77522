/**
 The reference scenario: the two ends of a rod moving at constant velocity and a light pulse
 bouncing between them. The constants are those of the scenario; every agent starts at `T0`
 with step `DeltaT`.
 */
module Physics {
  import opened Agents

  const T0: real := 0.0
  const DeltaT: real := 1.0
  const RodLength: real := 15.0
  const RodVelocity: real := 1.0
  const C: real := 2.0

  const EndA: AgentId := "end_A_in_stationary_system"
  const EndB: AgentId := "end_B_in_stationary_system"
  const Light: AgentId := "light_in_stationary_system"

  /** The three agents are told apart by their names. */
  lemma AgentsDistinct()
    ensures EndA != EndB && EndA != Light && EndB != Light
  {
    assert EndA[4] != EndB[4] && EndA[0] != Light[0] && EndB[0] != Light[0];
  }

  /** The initial state of every agent of the scenario. */
  function Init(): (u: Universe)
    ensures u.Keys == {EndA, EndB, Light}
    ensures forall a :: a in u ==> u[a].time == T0 && u[a].timeStep == DeltaT
  {
    map[EndA := State(T0, DeltaT, 0.0, 0.0, RodVelocity, 0.0),
        EndB := State(T0, DeltaT, RodLength, 0.0, RodVelocity, 0.0),
        Light := State(T0, DeltaT, 0.0, 0.0, C, 0.0)]
  }

  /** The order in which the scheduler visits the agents (the key order of the initial map). */
  const Order: seq<AgentId> := [EndA, EndB, Light]

  function Abs(r: real): real {
    if r < 0.0 then -r else r
  }

  /** Where end A is at time `tau`: it starts at 0 at `T0` and moves at `RodVelocity`. */
  function EndAAt(tau: real): real {
    RodVelocity * (tau - T0)
  }

  /** Where end B is at time `tau`: it starts at `RodLength` at `T0` and moves at `RodVelocity`. */
  function EndBAt(tau: real): real {
    RodLength + RodVelocity * (tau - T0)
  }

  /** The light test near end B: after one more step, end B will be closer than `C * DeltaT`
      to the light's current position. */
  function NoRoomBeforeB(s: State): (b: bool)
    ensures b <==> EndBAt(s.time + DeltaT) - C * DeltaT < s.x < EndBAt(s.time + DeltaT) + C * DeltaT
  {
    Abs(s.x - EndBAt(s.time + DeltaT)) < C * DeltaT
  }

  /** The light test near end A: after one more step, end A will be closer than `C * DeltaT`
      to the light's current position. */
  function NoRoomBeforeA(s: State): (b: bool)
    ensures b <==> EndAAt(s.time + DeltaT) - C * DeltaT < s.x < EndAAt(s.time + DeltaT) + C * DeltaT
  {
    Abs(s.x - EndAAt(s.time + DeltaT)) < C * DeltaT
  }

  /** `propagate(agentId, universe)`: the agent's next state. Both rod ends move at their own
      velocity; the light turns back towards A near B, forwards near A, and otherwise keeps going.
      Every known agent's `y` counts elapsed steps; an unknown agent only advances its clock. */
  function Propagate(agentId: AgentId, universe: Universe): (s: State)
    requires agentId in universe
    ensures var old_ := universe[agentId];
      && s.time == old_.time + old_.timeStep
      && s.timeStep == old_.timeStep && s.vy == old_.vy
    ensures var old_ := universe[agentId];
      agentId in {EndA, EndB, Light} ==> s.x == old_.x + s.vx * old_.timeStep && s.y == old_.y + DeltaT
    ensures var old_ := universe[agentId];
      agentId !in {EndA, EndB, Light} ==> s.x == old_.x && s.y == old_.y
    ensures var old_ := universe[agentId];
      agentId != Light ==> s.vx == old_.vx
    ensures var old_ := universe[agentId];
      agentId == Light ==>
        && (NoRoomBeforeB(old_) ==> s.vx == -C)
        && (!NoRoomBeforeB(old_) && NoRoomBeforeA(old_) ==> s.vx == C)
        && (!NoRoomBeforeB(old_) && !NoRoomBeforeA(old_) ==> s.vx == old_.vx)
  {
    var st := universe[agentId];
    var next :=
      if agentId == EndA || agentId == EndB then
        st.(x := st.x + st.vx * st.timeStep, y := st.y + DeltaT)
      else if agentId == Light then
        var vx := if NoRoomBeforeB(st) then -C else if NoRoomBeforeA(st) then C else st.vx;
        st.(vx := vx, x := st.x + vx * st.timeStep, y := st.y + DeltaT)
      else
        st;
    next.(time := st.time + st.timeStep)
  }

  /** The scenario's rule meets the scheduler's transition contract. */
  lemma PropagateAdvancesClock()
    ensures AdvancesClock(Propagate)
  {
  }

  /** The light always travels at speed `C`: a step keeps `|vx| == C`. */
  lemma LightKeepsSpeed(universe: Universe)
    requires Light in universe && Abs(universe[Light].vx) == C
    ensures Abs(Propagate(Light, universe).vx) == C
  {
  }

  /** The rod is rigid: stepping both ends from the same clock and velocity keeps their distance. */
  lemma RodKeepsLength(ua: Universe, ub: Universe)
    requires EndA in ua && EndB in ub
    requires ua[EndA].vx == ub[EndB].vx && ua[EndA].timeStep == ub[EndB].timeStep
    ensures Propagate(EndB, ub).x - Propagate(EndA, ua).x == ub[EndB].x - ua[EndA].x
  {
  }

  /** The trajectories the light tests compare against are those the rod ends follow: an end on
      its trajectory, moving at `RodVelocity` with step `DeltaT`, is on it again after a step. */
  lemma EndsFollowTrajectories(u: Universe)
    requires EndA in u && EndB in u
    requires u[EndA].x == EndAAt(u[EndA].time) && u[EndB].x == EndBAt(u[EndB].time)
    requires u[EndA].vx == RodVelocity && u[EndB].vx == RodVelocity
    requires u[EndA].timeStep == DeltaT && u[EndB].timeStep == DeltaT
    ensures Propagate(EndA, u).x == EndAAt(Propagate(EndA, u).time)
    ensures Propagate(EndB, u).x == EndBAt(Propagate(EndB, u).time)
  {
  }

  /** From the initial universe, both rod ends move one unit; the light, too close to end A to
      keep its current heading unchecked, is set moving forwards at `C`. */
  lemma FirstSteps()
    ensures Propagate(EndA, Init()) == State(1.0, 1.0, 1.0, 1.0, 1.0, 0.0)
    ensures Propagate(EndB, Init()) == State(1.0, 1.0, 16.0, 1.0, 1.0, 0.0)
    ensures Propagate(Light, Init()) == State(1.0, 1.0, 2.0, 1.0, 2.0, 0.0)
  {
    assert !NoRoomBeforeB(Init()[Light]) && NoRoomBeforeA(Init()[Light]);
  }
}
