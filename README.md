# Sedaro-Nano simulation core in Dafny

This project models the simulation core of Sedaro-Nano (`app/sim.py`):

- **Q-Range store.** `QRangeStore` is an append-only list of `(low, high, value)` triples keyed by half-open ranges `[low, high)`.
  - A point query returns every value whose range contains the point, in insertion order.
  - An empty or inverted range is rejected with "Invalid Range.".
  - A query that matches nothing fails with "Not found.".
- **Snapshot reader.** `read(t)` turns a miss into the empty universe. Otherwise it folds the returned single-agent maps with right-biased union, so later records win.
- **Transition rule.** `propagate` is the rod-and-light scenario's per-agent rule.
- **Scheduler.** It runs a fixed number of rounds. In each round every agent in turn reads the universe just before its own clock. An agent advances only when that snapshot holds every agent. An advance appends `[t, newTime) -> {agent: newState}` and moves the agent's clock.
  - The scheduler's state is a `Config`: the stored triples and the clocks.
  - `StepSpec`, `RoundSpec` and `RunSpec` define, on such values, one turn, one round over the agent order, and `n` rounds.
  - The methods `StepAgent`, `Round` and `Run` are proved to produce exactly these states.

Modules:

- `Agents` (agents.dfy): agent states, the universe and the contract a transition must meet (`AdvancesClock`).
- `RangeStore` (store.dfy): the store class and its query specification (`Matching`, with the independent reference `Hits`).
- `Snapshot` (snapshot.dfy): the fold `Merge`, the snapshot `SnapshotAt` of a list of triples, and `Read`.
- `Physics` (physics.dfy): the scenario's constants, initial universe and `Propagate`.
- `Scheduler` (scheduler.dfy): the class `Simulator`, which owns the store and the `times` map.

Times and range bounds are exact `real`s, and the read offset `0.001` is the real constant `Epsilon`. The scheduler takes the transition as a parameter with the contract `AdvancesClock`: the transition is defined on any snapshot holding the agent, adds the agent's `timeStep` to its clock and keeps the step.

The simulator's invariant `Valid` keeps every stored range non-empty. It also keeps every stored state "stamped": its clock is at or after the end of its record's range, and its step is at least `Epsilon`. Together these show that the state read at `t - Epsilon` steps to a clock strictly after `t`. So the scheduler's insertion `[t, newTime)` never raises "Invalid Range.".

Two details of the code that the model keeps:

- The bootstrap record is `[-999999999, 0)` (app/sim.py:104).
- The light's turning tests and every `y` increment use the global `delta_t`, not the agent's own `timeStep` (app/sim.py:30-45).

## Model

| member | source | states |
|---|---|---|
| RangeStore.QRangeStore.constructor | app/sim.py:82 | A new store holds no triples. |
| RangeStore.QRangeStore.Insert | app/sim.py:83-86 | Fails with `InvalidRange` exactly when `!(low < high)`, and then leaves the triples unchanged. Otherwise appends exactly `(low, high, value)` at the end and keeps every earlier triple in order. |
| RangeStore.QRangeStore.Get | app/sim.py:87-90 | Fails with `NotFound` exactly when no stored range contains the key. Otherwise returns the non-empty list `Matching` of the covering values, in insertion order. |
| RangeStore.Matching | app/sim.py:88 | The list comprehension: the covering values, scanned front to back. Its contract bounds the answer by the number of triples. What it holds is stated by `MatchingByHits`. |
| RangeStore.Hits | app/sim.py:88 | Reference definition of a query: every index it gives is a covering triple, the indices strictly increase, and every covering index is among them. |
| RangeStore.MatchingSnoc | app/sim.py:86-88 | After an append, every query keeps its earlier answer as a prefix and gains the new value exactly when the new range contains the key. |
| RangeStore.MatchingByHits | app/sim.py:88 | A query's answer is, position by position, the values of the covering triples in increasing index order (agrees with `Hits`). |
| RangeStore.MatchingEmptyIff | app/sim.py:88-89 | A query's answer is empty if and only if no stored range contains the key. |
| RangeStore.MatchingFive | app/sim.py:88 | Example helper: a query over five triples is the concatenation of each triple's own contribution. |
| RangeStore.DocQueries | app/sim.py:62-80 | Over the usage example's triples, 2.1 gives `["Record A", "Record D"]` and 8 gives `["Record E"]`. 5 and 9 (the excluded upper bound of `[8, 9)`) give nothing. |
| RangeStore.DocExample | app/sim.py:62-80 | The usage example end to end: `store[2, 0]` fails with `InvalidRange`, the two hits are as above, and 5 and 9 fail with `NotFound`. |
| Snapshot.Merge | app/sim.py:101 | `reduce(__or__, data, {})`: the starting keys survive, and the last map wins on every key it holds. The full per-key statement is `MergeAt`. |
| Snapshot.Read | app/sim.py:96-101 | `read(t)`: a query that fails gives the empty map. Both the failing and the succeeding path equal `SnapshotAt`, the fold of the query's answers. |
| Snapshot.LastWith | app/sim.py:101 | The index of the last map holding a key, or -1. No later map holds the key. |
| Snapshot.MergeAt | app/sim.py:101 | The right-biased fold gives a key the value of the last map holding it. When no map holds the key, the starting map decides. |
| Snapshot.LastHitIsLastCovering | app/sim.py:96-101 | The last query answer holding an agent comes from the last covering triple holding that agent. |
| Snapshot.NoHitNoCovering | app/sim.py:96-101 | When no query answer holds an agent, no covering triple holds it. |
| Snapshot.ReadAgrees | app/sim.py:96-101 | The snapshot at `t` holds an agent exactly when some triple covering `t` holds it, with the state from the last such triple. |
| Snapshot.ReadKeys | app/sim.py:96-111 | The snapshot's key set is the set of agents held by the triples covering `t` (the set the completeness gate compares). |
| Snapshot.ReadSingleCover | app/sim.py:96-101 | When exactly one triple covers `t`, the snapshot is that triple's value. |
| Physics.Init | app/sim.py:17-21 | The initial universe holds exactly the three agents, each at time `t_0` with step `delta_t`. |
| Physics.NoRoomBeforeB | app/sim.py:35 | The test near end B: the light's position lies within `c * delta_t` of where end B will be one step later. |
| Physics.NoRoomBeforeA | app/sim.py:39 | The test near end A: the light's position lies within `c * delta_t` of where end A will be one step later. |
| Physics.Propagate | app/sim.py:23-48 | The clock advances by `timeStep`, and `timeStep` and `vy` are kept. A known agent moves `x` by its (new) `vx` times `timeStep`, and `y` grows by `delta_t`. The rod ends keep `vx`. The light takes `-c` near end B, then `c` near end A, and otherwise keeps `vx`. An unknown agent only advances its clock. |
| Physics.PropagateAdvancesClock | app/sim.py:23-48 | The scenario's rule meets the scheduler's transition contract. |
| Physics.LightKeepsSpeed | app/sim.py:34-45 | A step keeps the light's speed at `c`. |
| Physics.RodKeepsLength | app/sim.py:28-33 | Two rod ends stepped with equal velocity and step keep their distance. |
| Physics.EndsFollowTrajectories | app/sim.py:28-39 | The end positions the light tests compare against are where `propagate` actually moves the rod ends. |
| Physics.FirstSteps | app/sim.py:17-48 | From the initial universe the three first states are `x = 1`, `x = 16`, and `x = 2` with `vx = c` (the light turns forward near end A). |
| Scheduler.AdvancePastClock | app/sim.py:110-113 | On a stamped store, an agent in the snapshot read at `t - Epsilon` steps to a clock strictly after `t`, with a step still at least `Epsilon`. So the new range is valid. |
| Scheduler.AppendAdvance | app/sim.py:113 | Appending an advance with `t < newTime` keeps every range non-empty and every state stamped. |
| Scheduler.ReadBeforeBoot | app/sim.py:96-104 | When no range starts before the bootstrap's lower bound, a query before it fails with `NotFound` and the snapshot there is empty. |
| Scheduler.Simulator.constructor | app/sim.py:103-105 | The state is `Boot(init)`: the single bootstrap triple `[-999999999, t_0) -> init`, with every clock at its initial time. The invariant holds. |
| Scheduler.Simulator.StepSpecCases | app/sim.py:109-114 | One turn on a stamped state. If the snapshot at `t - 0.001` does not hold exactly the agent set, nothing changes. Otherwise the rule applies and its new clock is strictly after `t`. Exactly `[t, newTime) -> {agent: newState}` is appended, and only this agent's clock moves. |
| Scheduler.Simulator.StepSpecGrows | app/sim.py:109-114 | A turn only appends to the store, keeps the set of clocks, and never moves a clock back. |
| Scheduler.Simulator.StepAgent | app/sim.py:108-114 | The new store and clocks are `StepSpec` of the old ones. The method reports an advance exactly when the agents held by the triples covering `t - 0.001` are the agent set. The invariant is kept. |
| Scheduler.Simulator.Round | app/sim.py:108-114 | One pass over `order`: the new state is `RoundSpec` of the old one. The store only grows and no clock moves back. |
| Scheduler.Simulator.Run | app/sim.py:107-114 | `rounds` passes over `order`: the new state is `RunSpec` of the old one. The invariant (every range valid) is kept, the store only grows, and no clock moves back. |
| Scheduler.Simulate | app/sim.py:103-114 | The configured run: its state is `RunSpec(Boot(init), 100)` for the scenario's agents, order and rule. The bootstrap triple comes first and the clocks are at or after `t_0`. |
| Scheduler.StepFromBoot | app/sim.py:108-114 | A turn of an agent still at `t_0`, when the complete bootstrap is the only triple covering the instant just before `t_0`, appends `[t_0, newTime) -> {agent: newState}`. |
| Scheduler.RoundOfThree | app/sim.py:108 | Example helper: a round over three agents is their three turns in order. |
| Scheduler.OneRoundQuery | app/sim.py:88 | Example helper: after the bootstrap and three triples covering a point, a query there returns those three values in order. |
| Scheduler.OpeningRound | app/sim.py:103-114 | `RunSpec(Boot(init), 1)` for the scenario appends one `[0, 1)` triple per agent, in agent order, with the states given by `propagate`. Every clock becomes 1. |
| Scheduler.FirstRound | app/sim.py:103-114 | `Run(1)` on the scenario moves every clock to 1. Querying 0.5 then returns the three single-agent states as separate entries in agent order. |

## Left out

- Writing the store to `./public/data.json` (app/sim.py:116-117) is file I/O and serialisation.
- `doctest.testmod()` (app/sim.py:92) is the test harness. Its examples are stated as `RangeStore.DocQueries` and `RangeStore.DocExample`.
- The unused `random` import is not modelled. The module-level globals `store` and `times` become the fields of one `Simulator` object.
- Python numbers are exact reals here. With the scenario's constants every value is an integer except the read point `t - 0.001`. IEEE floating-point rounding is not modelled.
- The front end (`app/src/App.js`, a React/Plotly page that fetches the JSON dump) is not part of this model.
- Scheduler.Simulator.constructor: requires every initial clock at or after `t_0`, every initial step at least `0.001`, and a clock-advancing transition. The Python loop has no such precondition. Without them its insertion can raise "Invalid Range.", and this model does not cover that failing run.
- Scheduler.Simulator.Run: does not bound how many advances a run makes. The strict increase of a clock at each advance is stated by `Scheduler.Simulator.StepSpecCases`.
- Scheduler.Simulator.StepSpecCases: the turn function `StepSpec` also leaves the state unchanged when the agent has no clock, or when the snapshot lacks the agent or the rule is undefined there. On a valid simulator none of these can happen. Python would raise `KeyError` in those cases instead.
