/**
 The agents of the simulation: their identifiers, their per-agent state, the
 snapshot of the whole universe, and the interface every transition function
 (the per-agent physics rule) must satisfy.
 */
module Agents {

  /** Agents are named by strings, as the keys of the `init` dictionary. */
  type AgentId = string

  /** The state one agent publishes: its local clock, its fixed step, position and velocity. */
  datatype State = State(time: real, timeStep: real, x: real, y: real, vx: real, vy: real)

  /** A snapshot of the universe: one state per agent. */
  type Universe = map<AgentId, State>

  /** A transition function: from an agent and a snapshot that holds it, that agent's next state. */
  type Transition = (AgentId, Universe) --> State

  /** The contract the scheduler relies on: the transition is defined whenever the agent is
      in the snapshot, advances the agent's clock by its own time step and keeps that step. */
  ghost predicate AdvancesClock(step: Transition) {
    forall a: AgentId, u: Universe {:trigger step.requires(a, u)} {:trigger step(a, u)} :: a in u ==>
      && step.requires(a, u)
      && step(a, u).time == u[a].time + u[a].timeStep
      && step(a, u).timeStep == u[a].timeStep
  }
}
