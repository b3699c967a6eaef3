/** The systems of src/main.rs that carry simulation logic, as plain loops over the
    sequence of agents the entity query yields: the per-agent internal step, the
    replication pass with its staging buffer, the death filter, and the census that
    feeds `process_one_cycle`. */
module Driver {
  import opened Common
  import opened AgentRules
  import opened SimRules
  import opened Agents
  import opened Orchestrator

  /** Each entity is yielded once by a query. */
  predicate Distinct(agents: seq<Agent>)
  {
    forall i, j :: 0 <= i < j < |agents| ==> agents[i] != agents[j]
  }

  /** The gate every system checks first. */
  predicate Open(sim: Simulation)
    reads sim
  {
    sim.running && sim.reason.None?
  }

  // ------------------------------------------------------------ internal state

  /** `ai_internal_state_system`: every agent runs its cycle step, in query order. */
  method InternalStateSystem(sim: Simulation, agents: seq<Agent>, draws: seq<CycleDraws>)
    requires |draws| == |agents| && Distinct(agents)
    requires forall k :: 0 <= k < |draws| ==> ValidCycleDraws(draws[k])
    modifies agents
    ensures forall k :: 0 <= k < |agents| ==>
      agents[k].State() == if Open(sim) then
        CycleStep(old(agents[k].State()), agents[k].aiType, agents[k].directives, draws[k])
      else old(agents[k].State())
  {
    if !sim.running || sim.reason.Some? { return; }
    ghost var before := States(agents);
    for i := 0 to |agents|
      invariant forall k :: 0 <= k < i ==>
        agents[k].State() == CycleStep(before[k], agents[k].aiType, agents[k].directives, draws[k])
      invariant forall k :: i <= k < |agents| ==> agents[k].State() == before[k]
    {
      agents[i].ProcessCycleInternalState(draws[i]);
    }
  }

  /** The agents' states, in query order. */
  ghost function States(agents: seq<Agent>): (ss: seq<AgentState>)
    reads agents
    ensures |ss| == |agents| && forall k :: 0 <= k < |agents| ==> ss[k] == agents[k].State()
  {
    seq(|agents|, k requires 0 <= k < |agents| reads agents => agents[k].State())
  }

  // --------------------------------------------------------------- replication

  /** What replication reads of a parent. */
  datatype Parent = Parent(state: AgentState, lineage: AILineage, aiType: AIType)

  function Parents(agents: seq<Agent>): (ps: seq<Parent>)
    reads agents
    ensures |ps| == |agents|
    ensures forall k :: 0 <= k < |agents| ==>
      ps[k] == Parent(agents[k].State(), agents[k].lineage, agents[k].aiType)
  {
    if agents == [] then []
    else
      var a := agents[|agents| - 1];
      Parents(agents[..|agents| - 1]) + [Parent(a.State(), a.lineage, a.aiType)]
  }

  /** The staging buffer after a pass over `ps`: every parent's children, in order. */
  function Staged(ps: seq<Parent>, cycle: nat, draws: seq<seq<ReplicationDraw>>): seq<AgentBundle>
    requires |draws| == |ps| && forall k :: 0 <= k < |draws| ==> |draws[k]| == 5
  {
    if ps == [] then []
    else
      var p := ps[|ps| - 1];
      Staged(ps[..|ps| - 1], cycle, draws[..|draws| - 1])
        + ParentReplication(p.state, p.lineage, p.aiType, cycle, draws[|draws| - 1]).children
  }

  /** One parent's turn in `ai_replication_system`: gated on health > 0, then up to five
      attempts, stopping at the first failed gate or failed attempt. */
  method ReplicateParent(parent: Agent, cycle: nat, draws: seq<ReplicationDraw>)
    returns (children: seq<AgentBundle>)
    requires |draws| == 5
    modifies parent
    ensures var p := ParentReplication(old(parent.State()), parent.lineage, parent.aiType, cycle, draws);
            parent.State() == p.parent && children == p.children
  {
    children := [];
    if parent.health > 0.0 {
      var k := 0;
      while k < 5
        invariant 0 <= k <= 5
        invariant var rest := ReplicationAttempts(parent.State(), parent.lineage, parent.aiType, cycle, draws[k..]);
          ReplicationAttempts(old(parent.State()), parent.lineage, parent.aiType, cycle, draws)
            == ReplicationPass(rest.parent, children + rest.children)
      {
        if parent.health > 50.0 && parent.energy > 50.0 && parent.replicatedCount < 1000 {
          var child := parent.AttemptReplication(cycle, draws[k]);
          if child.Some? {
            children := children + [child.value];
          } else {
            break;
          }
        } else {
          break;
        }
        assert draws[k..][1..] == draws[k + 1..];
        k := k + 1;
      }
    }
  }

  /** A spawned agent carries exactly the components of its staged bundle. */
  predicate Spawns(a: Agent, b: AgentBundle)
    reads a
  {
    a.id == b.id && a.lineage == b.lineage && a.aiType == b.aiType && a.cycleBorn == b.cycleBorn
    && a.directives == b.directives && a.State() == b.state
  }

  /** `ai_replication_system`: every parent takes its turn and its children are staged;
      they are spawned only once the pass over the parents is over. */
  method ReplicationSystem(sim: Simulation, agents: seq<Agent>, draws: seq<seq<ReplicationDraw>>)
    returns (staged: seq<AgentBundle>, spawned: seq<Agent>)
    requires Distinct(agents) && |draws| == |agents|
    requires forall k :: 0 <= k < |draws| ==> |draws[k]| == 5
    modifies agents
    ensures Open(sim) ==> staged == Staged(old(Parents(agents)), sim.currentCycle, draws)
    ensures Open(sim) ==> forall k :: 0 <= k < |agents| ==>
      agents[k].State() == ParentReplication(old(agents[k].State()), agents[k].lineage, agents[k].aiType,
                                             sim.currentCycle, draws[k]).parent
    ensures !Open(sim) ==> staged == [] && forall k :: 0 <= k < |agents| ==> agents[k].State() == old(agents[k].State())
    ensures |spawned| == |staged|
    ensures forall j :: 0 <= j < |spawned| ==> fresh(spawned[j]) && Spawns(spawned[j], staged[j])
  {
    staged, spawned := [], [];
    if !sim.running || sim.reason.Some? { return; }
    staged := StageChildren(agents, sim.currentCycle, draws);
    spawned := SpawnAll(staged);
  }

  /** The staging pass over the parents. */
  method StageChildren(agents: seq<Agent>, cycle: nat, draws: seq<seq<ReplicationDraw>>)
    returns (staged: seq<AgentBundle>)
    requires Distinct(agents) && |draws| == |agents|
    requires forall k :: 0 <= k < |draws| ==> |draws[k]| == 5
    modifies agents
    ensures staged == Staged(old(Parents(agents)), cycle, draws)
    ensures forall k :: 0 <= k < |agents| ==>
      agents[k].State() == ParentReplication(old(agents[k].State()), agents[k].lineage, agents[k].aiType,
                                             cycle, draws[k]).parent
  {
    staged := [];
    ghost var ps := Parents(agents);
    for i := 0 to |agents|
      invariant staged == Staged(ps[..i], cycle, draws[..i])
      invariant forall k :: 0 <= k < i ==>
        agents[k].State() == ParentReplication(ps[k].state, agents[k].lineage, agents[k].aiType, cycle, draws[k]).parent
      invariant forall k :: i <= k < |agents| ==> agents[k].State() == ps[k].state
    {
      var children := ReplicateParent(agents[i], cycle, draws[i]);
      assert ps[..i + 1][..i] == ps[..i] && draws[..i + 1][..i] == draws[..i];
      staged := staged + children;
    }
    assert ps[..|agents|] == ps && draws[..|agents|] == draws;
  }

  /** The spawn pass over the staging buffer: one new agent per staged bundle. */
  method SpawnAll(staged: seq<AgentBundle>) returns (spawned: seq<Agent>)
    ensures |spawned| == |staged|
    ensures forall j :: 0 <= j < |spawned| ==> fresh(spawned[j]) && Spawns(spawned[j], staged[j])
  {
    spawned := [];
    for j := 0 to |staged|
      invariant |spawned| == j
      invariant forall t :: 0 <= t < j ==> fresh(spawned[t]) && Spawns(spawned[t], staged[t])
    {
      var a := new Agent(staged[j]);
      spawned := spawned + [a];
    }
  }

  /** Every staged child was born in the pass's cycle, there are at most five per
      parent, and a parent's replication count never passes 1000. */
  lemma {:induction false} StagedProperties(ps: seq<Parent>, cycle: nat, draws: seq<seq<ReplicationDraw>>)
    requires |draws| == |ps| && forall k :: 0 <= k < |draws| ==> |draws[k]| == 5
    ensures |Staged(ps, cycle, draws)| <= 5 * |ps|
    ensures forall c :: c in Staged(ps, cycle, draws) ==> c.cycleBorn == cycle
    ensures forall k :: 0 <= k < |ps| && ps[k].state.replicatedCount <= 1000 ==>
      ParentReplication(ps[k].state, ps[k].lineage, ps[k].aiType, cycle, draws[k]).parent.replicatedCount <= 1000
  {
    if ps != [] {
      var n := |ps| - 1;
      StagedProperties(ps[..n], cycle, draws[..n]);
      forall k | 0 <= k < |ps|
        ensures var r := ParentReplication(ps[k].state, ps[k].lineage, ps[k].aiType, cycle, draws[k]);
          |r.children| <= 5 && (forall c :: c in r.children ==> c.cycleBorn == cycle)
          && (ps[k].state.replicatedCount <= 1000 ==> r.parent.replicatedCount <= 1000)
      {
        ReplicationAttemptsCount(ps[k].state, ps[k].lineage, ps[k].aiType, cycle, draws[k]);
      }
    }
  }

  // ------------------------------------------------------------------- census

  /** What the census reads of an agent. */
  datatype Member = Member(alive: bool, lineage: AILineage)

  function Members(agents: seq<Agent>): (ms: seq<Member>)
    reads agents
    ensures |ms| == |agents|
    ensures forall k :: 0 <= k < |agents| ==> ms[k] == Member(agents[k].isAlive, agents[k].lineage)
  {
    if agents == [] then []
    else
      var a := agents[|agents| - 1];
      Members(agents[..|agents| - 1]) + [Member(a.isAlive, a.lineage)]
  }

  function AliveCount(ms: seq<Member>): nat
  {
    if ms == [] then 0 else AliveCount(ms[..|ms| - 1]) + (if ms[|ms| - 1].alive then 1 else 0)
  }

  /** The number of live members of lineage `l`. */
  function LineageTally(ms: seq<Member>, l: AILineage): nat
  {
    if ms == [] then 0
    else
      var m := ms[|ms| - 1];
      LineageTally(ms[..|ms| - 1], l) + (if m.alive && m.lineage == l then 1 else 0)
  }

  /** `*lineage_counts.entry(l).or_insert(0) += 1`. */
  function Bump(tally: map<AILineage, nat>, l: AILineage): map<AILineage, nat>
  {
    tally[l := (if l in tally then tally[l] else 0) + 1]
  }

  /** The census map after counting `ms`. */
  function Tally(ms: seq<Member>): map<AILineage, nat>
  {
    if ms == [] then map[]
    else
      var t := Tally(ms[..|ms| - 1]);
      if ms[|ms| - 1].alive then Bump(t, ms[|ms| - 1].lineage) else t
  }

  /** The census loop of `global_simulation_update_system`. */
  method Census(agents: seq<Agent>) returns (total: nat, tally: map<AILineage, nat>)
    ensures total == AliveCount(Members(agents)) && tally == Tally(Members(agents))
  {
    total, tally := 0, map[];
    for i := 0 to |agents|
      invariant total == AliveCount(Members(agents[..i])) && tally == Tally(Members(agents[..i]))
    {
      assert agents[..i + 1][..i] == agents[..i];
      if agents[i].isAlive {
        total := total + 1;
        tally := tally[agents[i].lineage := (if agents[i].lineage in tally then tally[agents[i].lineage] else 0) + 1];
      }
    }
    assert agents[..|agents|] == agents;
  }

  /** A lineage is in the census map exactly when it has a live member, and then with
      the number of its live members. */
  lemma {:induction false} TallyCounts(ms: seq<Member>, l: AILineage)
    ensures l in Tally(ms) <==> LineageTally(ms, l) > 0
    ensures l in Tally(ms) ==> Tally(ms)[l] == LineageTally(ms, l)
  {
    if ms != [] {
      TallyCounts(ms[..|ms| - 1], l);
    }
  }

  /** The census map in the map's iteration order, which lists every lineage once. */
  function CountsInOrder(tally: map<AILineage, nat>, order: seq<AILineage>): seq<LineageCount>
  {
    if order == [] then []
    else
      var l := order[|order| - 1];
      CountsInOrder(tally, order[..|order| - 1]) + (if l in tally then [LineageCount(l, tally[l])] else [])
  }

  predicate Enumerates(order: seq<AILineage>, ms: seq<Member>)
  {
    && (forall i, j :: 0 <= i < j < |order| ==> order[i] != order[j])
    && (forall k :: 0 <= k < |ms| ==> ms[k].lineage in order)
  }

  /** The live members of the lineages listed in `order`. */
  function SumOver(order: seq<AILineage>, ms: seq<Member>): nat
  {
    if order == [] then 0 else SumOver(order[..|order| - 1], ms) + LineageTally(ms, order[|order| - 1])
  }

  lemma {:induction false} CountsInOrderSum(ms: seq<Member>, order: seq<AILineage>)
    ensures SumCounts(CountsInOrder(Tally(ms), order)) == SumOver(order, ms)
  {
    if order != [] {
      var front, l := order[..|order| - 1], order[|order| - 1];
      CountsInOrderSum(ms, front);
      TallyCounts(ms, l);
      var c := CountsInOrder(Tally(ms), front);
      if l in Tally(ms) {
        var e := LineageCount(l, Tally(ms)[l]);
        assert (c + [e])[..|c + [e]| - 1] == c;
      } else {
        assert c + [] == c;
      }
    }
  }

  lemma {:induction false} SumOverPush(order: seq<AILineage>, ms: seq<Member>, m: Member)
    requires forall i, j :: 0 <= i < j < |order| ==> order[i] != order[j]
    ensures SumOver(order, ms + [m]) == SumOver(order, ms) + (if m.alive && m.lineage in order then 1 else 0)
  {
    if order != [] {
      var front := order[..|order| - 1];
      assert (ms + [m])[..|ms + [m]| - 1] == ms;
      SumOverPush(front, ms, m);
      assert m.lineage in order <==> m.lineage in front || m.lineage == order[|order| - 1];
    }
  }

  /** The per-lineage counts of the census add up to its total. */
  lemma {:induction false} CensusSum(order: seq<AILineage>, ms: seq<Member>)
    requires Enumerates(order, ms)
    ensures SumCounts(CountsInOrder(Tally(ms), order)) == AliveCount(ms)
  {
    CountsInOrderSum(ms, order);
    SumOverAll(order, ms);
  }

  lemma {:induction false} SumOverAll(order: seq<AILineage>, ms: seq<Member>)
    requires Enumerates(order, ms)
    ensures SumOver(order, ms) == AliveCount(ms)
  {
    if ms != [] {
      var front := ms[..|ms| - 1];
      assert Enumerates(order, front);
      assert ms[|ms| - 1].lineage in order;
      SumOverAll(order, front);
      assert front + [ms[|ms| - 1]] == ms;
      SumOverPush(order, front, ms[|ms| - 1]);
    } else {
      SumOverNone(order);
    }
  }

  lemma {:induction false} SumOverNone(order: seq<AILineage>)
    ensures SumOver(order, []) == 0
  {
    if order != [] {
      SumOverNone(order[..|order| - 1]);
    }
  }

  /** Only live members are counted: every entry of the census is positive and is the
      number of live members of its lineage. */
  lemma {:induction false} CountsInOrderEntries(ms: seq<Member>, order: seq<AILineage>)
    ensures forall c :: c in CountsInOrder(Tally(ms), order) ==>
      c.count > 0 && c.count == LineageTally(ms, c.lineage) && c.lineage in order
  {
    if order != [] {
      CountsInOrderEntries(ms, order[..|order| - 1]);
      TallyCounts(ms, order[|order| - 1]);
    }
  }

  // -------------------------------------------------------------------- death

  /** The agents still alive, in query order. */
  function Survivors(agents: seq<Agent>): seq<Agent>
    reads agents
  {
    if agents == [] then []
    else
      var a := agents[|agents| - 1];
      Survivors(agents[..|agents| - 1]) + (if a.isAlive then [a] else [])
  }

  /** `ai_death_system`: every agent whose aliveness is false is despawned. */
  method DeathSystem(sim: Simulation, agents: seq<Agent>) returns (remaining: seq<Agent>)
    ensures remaining == if Open(sim) then Survivors(agents) else agents
  {
    if !sim.running || sim.reason.Some? { return agents; }
    remaining := [];
    for i := 0 to |agents|
      invariant remaining == Survivors(agents[..i])
    {
      assert agents[..i + 1][..i] == agents[..i];
      if agents[i].isAlive {
        remaining := remaining + [agents[i]];
      }
    }
    assert agents[..|agents|] == agents;
  }

  /** The filter keeps exactly the live agents, and as many as the census counts. */
  lemma {:induction false} SurvivorsExact(agents: seq<Agent>)
    ensures forall a :: a in Survivors(agents) <==> a in agents && a.isAlive
    ensures |Survivors(agents)| == AliveCount(Members(agents))
  {
    if agents != [] {
      var front := agents[..|agents| - 1];
      SurvivorsExact(front);
      assert agents == front + [agents[|agents| - 1]];
      assert Members(agents)[..|agents| - 1] == Members(front);
    }
  }

  // ------------------------------------------------------------ global update

  /** `sim.simulation_speed as u32`: a saturating cast that truncates toward zero. */
  function SpeedCycles(speed: real): (n: nat)
    ensures speed < 1.0 ==> n == 0
    ensures 1.0 <= speed < 4294967295.0 ==> n as real <= speed < n as real + 1.0
    ensures speed >= 4294967295.0 ==> n == 4294967295
    ensures n <= 4294967295
  {
    if speed < 1.0 then 0 else if speed >= 4294967295.0 then 4294967295 else speed.Floor
  }

  /** `process_one_cycle` once per draw, with the same census each time. */
  function RunCycles(s: SimState, total: nat, counts: seq<LineageCount>, draws: seq<SimDraws>): SimState
  {
    if draws == [] then s
    else ProcessOneCycle(RunCycles(s, total, counts, draws[..|draws| - 1]), total, counts, draws[|draws| - 1])
  }

  /** Once the simulation has stopped nothing changes; otherwise every run cycle counts
      once, an end reason stays, milestones only grow, and after at least one cycle any
      stored monoculture is alive. */
  lemma {:induction false} RunCyclesProperties(s: SimState, total: nat, counts: seq<LineageCount>,
                                                draws: seq<SimDraws>)
    ensures var r := RunCycles(s, total, counts, draws);
      && (s.reason.Some? || !s.running ==> r == s)
      && s.cycle <= r.cycle <= s.cycle + |draws|
      && (r.reason.None? && s.running ==> r.cycle == s.cycle + |draws|)
      && (s.reason.Some? ==> r.reason == s.reason)
      && r.running == s.running
      && s.milestones <= r.milestones
      && (|draws| > 0 && s.reason.None? && s.running && r.mono.Some? ==> r.mono.value.state.isAlive)
  {
    if draws != [] {
      var front := draws[..|draws| - 1];
      RunCyclesProperties(s, total, counts, front);
      var p := RunCycles(s, total, counts, front);
      ProcessOneCycleProperties(p, total, counts, draws[|draws| - 1]);
      if front != [] && p.reason.None? {
        assert p.cycle == s.cycle + |front| || !s.running;
      }
    }
  }

  /** `global_simulation_update_system`: the census of the live agents, then
      `process_one_cycle` as many times as the speed allows. */
  method GlobalSimulationUpdate(sim: Simulation, agents: seq<Agent>, order: seq<AILineage>,
                                draws: seq<SimDraws>)
    requires Enumerates(order, Members(agents))
    requires |draws| == SpeedCycles(sim.speed)
    requires forall k :: 0 <= k < |draws| ==> ValidSimDraws(draws[k])
    modifies sim, sim.godai, sim.MonoObjects()
    ensures var ms := Members(agents);
      sim.Abstract() == RunCycles(old(sim.Abstract()), AliveCount(ms), CountsInOrder(Tally(ms), order), draws)
    ensures sim.speed == old(sim.speed)
  {
    ghost var ms := Members(agents);
    if !sim.running || sim.reason.Some? {
      RunCyclesProperties(sim.Abstract(), AliveCount(ms), CountsInOrder(Tally(ms), order), draws);
      return;
    }
    var total, tally := Census(agents);
    var counts := CountsInOrder(tally, order);
    RunSpeedCycles(sim, total, counts, draws);
    assert Members(agents) == ms;
  }

  /** The cycle loop of the global update: one `process_one_cycle` per draw. */
  method RunSpeedCycles(sim: Simulation, total: nat, counts: seq<LineageCount>, draws: seq<SimDraws>)
    requires forall k :: 0 <= k < |draws| ==> ValidSimDraws(draws[k])
    modifies sim, sim.godai, sim.MonoObjects()
    ensures sim.Abstract() == RunCycles(old(sim.Abstract()), total, counts, draws)
    ensures sim.speed == old(sim.speed)
  {
    for i := 0 to |draws|
      invariant sim.Abstract() == RunCycles(old(sim.Abstract()), total, counts, draws[..i])
      invariant sim.speed == old(sim.speed)
      invariant sim.monoculture.Some? ==> sim.monoculture.value in old(sim.MonoObjects()) || fresh(sim.monoculture.value)
    {
      sim.ProcessOneCycle(total, counts, draws[i]);
      assert draws[..i + 1][..i] == draws[..i];
    }
    assert draws[..|draws|] == draws;
  }
}
