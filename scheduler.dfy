/**
 The scheduler: a fixed number of rounds; in each round every agent in turn reads the universe
 just before its own clock and advances only when that snapshot holds every agent. An advance
 appends the record `[t, newTime) -> {agent: newState}` and moves the agent's clock to `newTime`.
 */
module Scheduler {
  import opened Agents
  import opened RangeStore
  import opened Snapshot
  import Physics

  /** How far before its own clock an agent reads the universe. */
  const Epsilon: real := 0.001

  /** The lower bound of the bootstrap record that holds every agent's initial state. */
  const BootLow: real := -999999999.0

  /** Every stored range is non-empty. */
  ghost predicate RangesValid(recs: seq<Record<Universe>>) {
    forall i :: 0 <= i < |recs| ==> recs[i].low < recs[i].high
  }

  /** Every stored state's clock is at least the end of its record's range, and its step is
      at least `Epsilon`. */
  ghost predicate Stamped(recs: seq<Record<Universe>>) {
    forall i, a :: 0 <= i < |recs| && a in recs[i].value ==>
      recs[i].value[a].time >= recs[i].high && recs[i].value[a].timeStep >= Epsilon
  }

  /** The initial states the run can start from: clocks at or after `T0`, steps at least `Epsilon`. */
  ghost predicate InitWellFormed(init: Universe) {
    forall a :: a in init ==> init[a].time >= Physics.T0 && init[a].timeStep >= Epsilon
  }

  /** The state an agent reads just before `t` is stamped after `t - Epsilon`, so one step of a
      clock-advancing transition takes it strictly past `t`: the new range `[t, s.time)` is
      non-empty and the new state is stamped again. */
  lemma {:induction false} AdvancePastClock(recs: seq<Record<Universe>>, step: Transition, a: AgentId, t: real)
    requires Stamped(recs) && AdvancesClock(step)
    requires a in SnapshotAt(recs, t - Epsilon)
    ensures step.requires(a, SnapshotAt(recs, t - Epsilon))
    ensures t < step(a, SnapshotAt(recs, t - Epsilon)).time
    ensures step(a, SnapshotAt(recs, t - Epsilon)).timeStep >= Epsilon
  {
    var u := SnapshotAt(recs, t - Epsilon);
    ReadAgrees(recs, t - Epsilon, a);
    var i :| LastCovering(recs, t - Epsilon, a, i) && u[a] == recs[i].value[a];
    assert u[a].time >= recs[i].high > t - Epsilon;
  }

  /** Appending an advance `[t, s.time) -> {a: s}` with `t < s.time` keeps both invariants. */
  lemma AppendAdvance(recs: seq<Record<Universe>>, t: real, a: AgentId, s: State)
    requires RangesValid(recs) && Stamped(recs)
    requires t < s.time && s.timeStep >= Epsilon
    ensures RangesValid(recs + [Record(t, s.time, map[a := s])])
    ensures Stamped(recs + [Record(t, s.time, map[a := s])])
  {
  }

  /** What the scheduler's state amounts to: the stored triples and every agent's clock. */
  datatype Config = Config(records: seq<Record<Universe>>, times: map<AgentId, real>)

  /** The state before the first round: the bootstrap triple `[BootLow, T0) -> init`, and every
      agent's clock at its initial time. */
  function Boot(init: Universe): Config {
    Config([Record(BootLow, Physics.T0, init)], map a | a in init :: init[a].time)
  }

  /** One simulation run: the history store and every agent's clock. */
  class Simulator {
    const agents: set<AgentId>
    const order: seq<AgentId>
    const step: Transition
    const store: QRangeStore<Universe>
    var times: map<AgentId, real>

    ghost predicate Valid()
      reads this, store
    {
      && (forall i :: 0 <= i < |order| ==> order[i] in agents)
      && times.Keys == agents
      && AdvancesClock(step)
      && RangesValid(store.records)
      && Stamped(store.records)
    }

    function Current(): Config
      reads this, store
    {
      Config(store.records, times)
    }

    /** One agent's turn on a scheduler state: read the snapshot just before the agent's clock;
        when its agents are exactly the known agents, append `[t, newTime) -> {a: newState}` and
        move the agent's clock, otherwise change nothing. The other two guards cannot fail on a
        valid simulator: a scheduled agent has a clock, and a complete snapshot holds it. */
    ghost function StepSpec(c: Config, a: AgentId): Config {
      if a !in c.times then c
      else
        var t := c.times[a];
        var u := SnapshotAt(c.records, t - Epsilon);
        if u.Keys == agents && a in u && step.requires(a, u) then
          var s := step(a, u);
          Config(c.records + [Record(t, s.time, map[a := s])], c.times[a := s.time])
        else c
    }

    /** The agents of `turns` take their turns one after the other. */
    ghost function RoundSpec(c: Config, turns: seq<AgentId>): Config
      decreases |turns|
    {
      if turns == [] then c else StepSpec(RoundSpec(c, turns[..|turns| - 1]), turns[|turns| - 1])
    }

    /** `n` rounds over the agents in order. */
    ghost function RunSpec(c: Config, n: nat): Config {
      if n == 0 then c else RoundSpec(RunSpec(c, n - 1), order)
    }

    /** The store starts with the bootstrap record `[BootLow, T0) -> init`, and every agent's
        clock starts at its initial state's time. */
    constructor (init: Universe, order: seq<AgentId>, step: Transition)
      requires forall a :: a in init <==> a in order
      requires InitWellFormed(init) && AdvancesClock(step)
      ensures Valid() && fresh(store)
      ensures agents == init.Keys && this.order == order && this.step == step
      ensures Current() == Boot(init)
    {
      var s := new QRangeStore<Universe>();
      var res := s.Insert(BootLow, Physics.T0, init);
      agents := init.Keys;
      this.order := order;
      this.step := step;
      store := s;
      times := map a | a in init :: init[a].time;
    }

    /** What one turn does on a stamped state: when the snapshot just before the agent's clock
        `t` holds exactly the known agents, the rule applies, its new clock is after `t`, and the
        turn appends exactly `[t, newTime) -> {a: newState}` and moves only `a`'s clock;
        otherwise the turn changes nothing. */
    lemma StepSpecCases(c: Config, a: AgentId)
      requires AdvancesClock(step) && Stamped(c.records) && a in c.times && a in agents
      ensures var t := c.times[a]; var u := SnapshotAt(c.records, t - Epsilon);
        u.Keys == agents ==>
          && a in u && step.requires(a, u)
          && t < step(a, u).time && step(a, u).timeStep >= Epsilon
          && StepSpec(c, a) == Config(c.records + [Record(t, step(a, u).time, map[a := step(a, u)])],
                                      c.times[a := step(a, u).time])
      ensures var t := c.times[a]; var u := SnapshotAt(c.records, t - Epsilon);
        u.Keys != agents ==> StepSpec(c, a) == c
    {
      var t := c.times[a];
      if SnapshotAt(c.records, t - Epsilon).Keys == agents {
        AdvancePastClock(c.records, step, a, t);
      }
    }

    /** A turn only appends to the store and never moves a clock back. */
    lemma StepSpecGrows(c: Config, a: AgentId)
      requires AdvancesClock(step) && Stamped(c.records) && a in c.times && a in agents
      ensures c.records <= StepSpec(c, a).records
      ensures StepSpec(c, a).times.Keys == c.times.Keys
      ensures forall b :: b in c.times ==> c.times[b] <= StepSpec(c, a).times[b]
    {
      StepSpecCases(c, a);
    }

    /** One agent's turn: read just before its clock; advance only if every agent is present. */
    method StepAgent(a: AgentId) returns (advanced: bool)
      requires Valid() && a in agents
      modifies this, store
      ensures Valid()
      ensures Current() == StepSpec(old(Current()), a)
      ensures advanced <==> CoveredAgents(old(store.records), old(times[a]) - Epsilon) == agents
    {
      ghost var c := Current();
      var t := times[a];
      StepSpecCases(c, a);
      var u := Read(store, t - Epsilon);
      assert u == SnapshotAt(c.records, c.times[a] - Epsilon);
      advanced := u.Keys == agents;
      ReadKeys(store.records, t - Epsilon);
      if advanced {
        AdvancePastClock(store.records, step, a, t);
        var s := step(a, u);
        AppendAdvance(store.records, t, a, s);
        var res := store.Insert(t, s.time, map[a := s]);
        times := times[a := s.time];
        assert Current() == Config(c.records + [Record(t, s.time, map[a := s])], c.times[a := s.time]);
      }
    }

    /** One round: every agent of `order` takes its turn, in order. */
    method Round()
      requires Valid()
      modifies this, store
      ensures Valid()
      ensures Current() == RoundSpec(old(Current()), order)
      ensures old(store.records) <= store.records
      ensures forall a :: a in agents ==> old(times[a]) <= times[a]
    {
      for i := 0 to |order|
        invariant Valid()
        invariant Current() == RoundSpec(old(Current()), order[..i])
        invariant old(store.records) <= store.records
        invariant forall a :: a in agents ==> old(times[a]) <= times[a]
      {
        assert order[..i + 1][..i] == order[..i];
        StepSpecGrows(Current(), order[i]);
        var _ := StepAgent(order[i]);
      }
      assert order[..|order|] == order;
    }

    /** `rounds` rounds over the agents in order: the result is `RunSpec`. The store only grows,
        every range in it stays non-empty, and no agent's clock moves back. */
    method Run(rounds: nat)
      requires Valid()
      modifies this, store
      ensures Valid()
      ensures Current() == RunSpec(old(Current()), rounds)
      ensures old(store.records) <= store.records
      ensures forall a :: a in agents ==> old(times[a]) <= times[a]
    {
      for r := 0 to rounds
        invariant Valid()
        invariant Current() == RunSpec(old(Current()), r)
        invariant old(store.records) <= store.records
        invariant forall a :: a in agents ==> old(times[a]) <= times[a]
      {
        Round();
      }
    }
  }

  /** The scenario as configured: the three agents, their initial states and rule, 100 rounds. */
  method Simulate() returns (sim: Simulator)
    ensures sim.Valid()
    ensures sim.agents == {Physics.EndA, Physics.EndB, Physics.Light}
    ensures sim.order == Physics.Order && sim.step == Physics.Propagate
    ensures sim.Current() == sim.RunSpec(Boot(Physics.Init()), 100)
    ensures |sim.store.records| >= 1 && sim.store.records[0] == Record(BootLow, Physics.T0, Physics.Init())
    ensures forall a :: a in sim.agents ==> sim.times[a] >= Physics.T0
  {
    Physics.PropagateAdvancesClock();
    sim := new Simulator(Physics.Init(), Physics.Order, Physics.Propagate);
    sim.Run(100);
  }

  /** A query before the bootstrap record's lower bound finds nothing, and the snapshot there is
      empty, as long as no record starts before `BootLow`. */
  lemma ReadBeforeBoot(store: QRangeStore<Universe>, t: real)
    requires forall i :: 0 <= i < |store.records| ==> BootLow <= store.records[i].low
    requires t < BootLow
    ensures store.Get(t) == Err(NotFound) && Read(store, t) == map[]
  {
  }

  /** After the bootstrap record and three more, a point only the three cover reads their values. */
  lemma OneRoundQuery<V>(boot: Record<V>, r1: Record<V>, r2: Record<V>, r3: Record<V>, key: real)
    requires !Covers(boot, key) && Covers(r1, key) && Covers(r2, key) && Covers(r3, key)
    ensures Matching([boot, r1, r2, r3], key) == [r1.value, r2.value, r3.value]
  {
    var s1 := [] + [boot];
    var s2 := s1 + [r1];
    var s3 := s2 + [r2];
    MatchingSnoc([], boot, key);
    MatchingSnoc(s1, r1, key);
    MatchingSnoc(s2, r2, key);
    MatchingSnoc(s3, r3, key);
    assert s3 + [r3] == [boot, r1, r2, r3];
  }

  /** An agent whose clock is at `T0`, while the bootstrap record is the only record covering
      the instant just before `T0`, advances to the state its rule gives from the bootstrap
      universe. */
  lemma StepFromBoot(sim: Simulator, c: Config, a: AgentId)
    requires AdvancesClock(sim.step) && |c.records| >= 1 && a in c.times && c.times[a] == Physics.T0
    requires c.records[0].value.Keys == sim.agents && a in sim.agents
    requires Covers(c.records[0], Physics.T0 - Epsilon)
    requires forall i :: 1 <= i < |c.records| ==> !Covers(c.records[i], Physics.T0 - Epsilon)
    ensures var s := sim.step(a, c.records[0].value);
      sim.StepSpec(c, a) == Config(c.records + [Record(Physics.T0, s.time, map[a := s])], c.times[a := s.time])
  {
    ReadSingleCover(c.records, Physics.T0 - Epsilon, 0);
  }

  /** A round over three agents is their three turns, one after the other. */
  lemma RoundOfThree(sim: Simulator, c: Config, x: AgentId, y: AgentId, z: AgentId)
    ensures sim.RoundSpec(c, [x, y, z]) == sim.StepSpec(sim.StepSpec(sim.StepSpec(c, x), y), z)
  {
    assert sim.RoundSpec(c, [x]) == sim.StepSpec(c, x) by {
      assert [x][..0] == [];
    }
    assert sim.RoundSpec(c, [x, y]) == sim.StepSpec(sim.StepSpec(c, x), y) by {
      assert [x, y][..1] == [x];
    }
    assert [x, y, z][..2] == [x, y];
  }

  /** The scenario's first round: each agent in turn finds the complete initial universe just
      before `T0` and advances to time 1, appending one `[0, 1)` record in agent order. */
  lemma OpeningRound(sim: Simulator)
    requires sim.agents == {Physics.EndA, Physics.EndB, Physics.Light}
    requires sim.order == Physics.Order && sim.step == Physics.Propagate
    ensures sim.RunSpec(Boot(Physics.Init()), 1) ==
      Config([Record(BootLow, Physics.T0, Physics.Init()),
              Record(0.0, 1.0, map[Physics.EndA := State(1.0, 1.0, 1.0, 1.0, 1.0, 0.0)]),
              Record(0.0, 1.0, map[Physics.EndB := State(1.0, 1.0, 16.0, 1.0, 1.0, 0.0)]),
              Record(0.0, 1.0, map[Physics.Light := State(1.0, 1.0, 2.0, 1.0, 2.0, 0.0)])],
             Boot(Physics.Init()).times[Physics.EndA := 1.0][Physics.EndB := 1.0][Physics.Light := 1.0])
  {
    Physics.PropagateAdvancesClock();
    Physics.FirstSteps();
    var c0 := Boot(Physics.Init());
    var boot := c0.records[0];
    var sA, sB, sL := State(1.0, 1.0, 1.0, 1.0, 1.0, 0.0), State(1.0, 1.0, 16.0, 1.0, 1.0, 0.0),
                      State(1.0, 1.0, 2.0, 1.0, 2.0, 0.0);
    var rA, rB, rL := Record(0.0, 1.0, map[Physics.EndA := sA]), Record(0.0, 1.0, map[Physics.EndB := sB]),
                      Record(0.0, 1.0, map[Physics.Light := sL]);
    Physics.AgentsDistinct();
    var c1 := Config([boot, rA], c0.times[Physics.EndA := 1.0]);
    var c2 := Config([boot, rA, rB], c1.times[Physics.EndB := 1.0]);
    var c3 := Config([boot, rA, rB, rL], c2.times[Physics.Light := 1.0]);
    StepFromBoot(sim, c0, Physics.EndA);
    assert sim.StepSpec(c0, Physics.EndA) == c1;
    StepFromBoot(sim, c1, Physics.EndB);
    assert sim.StepSpec(c1, Physics.EndB) == c2;
    StepFromBoot(sim, c2, Physics.Light);
    assert sim.StepSpec(c2, Physics.Light) == c3;
    RoundOfThree(sim, c0, Physics.EndA, Physics.EndB, Physics.Light);
    assert sim.RunSpec(c0, 1) == sim.RoundSpec(c0, Physics.Order) == c3;
  }

  /** The first round of the scenario as the scheduler runs it: all three agents advance to
      time 1, and the instant 0.5 then reads back the three new single-agent records, in the
      order the agents were visited. */
  method FirstRound() returns (sim: Simulator)
    ensures sim.Valid()
    ensures sim.agents == {Physics.EndA, Physics.EndB, Physics.Light}
    ensures forall a :: a in sim.agents ==> sim.times[a] == 1.0
    ensures sim.store.Get(0.5) == Ok([map[Physics.EndA := State(1.0, 1.0, 1.0, 1.0, 1.0, 0.0)],
                                      map[Physics.EndB := State(1.0, 1.0, 16.0, 1.0, 1.0, 0.0)],
                                      map[Physics.Light := State(1.0, 1.0, 2.0, 1.0, 2.0, 0.0)]])
  {
    Physics.PropagateAdvancesClock();
    sim := new Simulator(Physics.Init(), Physics.Order, Physics.Propagate);
    sim.Run(1);
    OpeningRound(sim);
    Physics.AgentsDistinct();
    var recs := sim.store.records;
    OneRoundQuery(recs[0], recs[1], recs[2], recs[3], 0.5);
  }
}
