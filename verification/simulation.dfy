/** The `Simulation` resource of src/simulation.rs: GODAI, the optional monoculture, the
    cycle counter, the end reason, the milestone set and the running flag. Every method
    is proved equal to the function of `SimRules` that specifies it, through `Abstract`. */
module Orchestrator {
  import opened Common
  import opened Pools
  import opened Directives
  import opened AgentRules
  import opened SingletonRules
  import opened SimRules
  import opened Singletons

  class Simulation {
    const godai: Godai
    var monoculture: Option<Mono>
    var currentCycle: nat
    var reason: Option<EndReason>
    var milestones: set<nat>
    var running: bool
    var speed: real

    /** The monoculture object, when there is one. */
    function MonoObjects(): set<object>
      reads this
    {
      if monoculture.Some? then {monoculture.value} else {}
    }

    function Abstract(): SimState
      reads this, godai, MonoObjects()
    {
      SimState(godai.State(),
        match monoculture
        case None => None
        case Some(m) => Some(MonoRec(m.id, m.sourceLineage, m.State())),
        currentCycle, reason, milestones, running)
    }

    /** `Simulation::new`: running at one cycle per frame. */
    constructor ()
      ensures Abstract() == InitialSim() && speed == 1.0
    {
      godai := new Godai();
      monoculture := None;
      currentCycle := 0;
      reason := None;
      milestones := {};
      running := true;
      speed := 1.0;
    }

    /** `process_one_cycle`. */
    method ProcessOneCycle(total: nat, counts: seq<LineageCount>, d: SimDraws)
      requires ValidSimDraws(d)
      modifies this, godai, MonoObjects()
      ensures Abstract() == SimRules.ProcessOneCycle(old(Abstract()), total, counts, d)
      ensures speed == old(speed)
      ensures monoculture.Some? ==> monoculture == old(monoculture) || fresh(monoculture.value)
    {
      if reason.Some? || !running { return; }
      ghost var s0 := Abstract();
      currentCycle := currentCycle + 1;
      ghost var s1 := Abstract();
      assert s1 == s0.(cycle := s0.cycle + 1);
      if monoculture.None? {
        CheckAndFormMonoculture(total, counts);
      }
      ghost var s2 := Abstract();
      assert s2 == if s1.mono.None? then Form(s1, total, counts) else s1;
      RunMonoculture(d);
      ghost var s3 := Abstract();
      CheckPopulationMilestones(total);
      assert Abstract() == s3.(milestones := MilestonesAfter(s3.milestones, total));
      CheckEndConditions(total);
    }

    /** `check_and_form_monoculture`: the first qualifying census entry forms a
        monoculture from `count` default records; a non-Researcher one strong enough
        engages GODAI. */
    method CheckAndFormMonoculture(total: nat, counts: seq<LineageCount>)
      requires monoculture.None?
      modifies this`monoculture, godai`status
      ensures Abstract() == Form(old(Abstract()), total, counts)
      ensures monoculture.Some? ==> fresh(monoculture.value)
    {
      if total == 0 || monoculture.Some? { return; }
      var i := 0;
      while i < |counts|
        invariant 0 <= i <= |counts|
        invariant FormationPick(counts, total) == FormationPick(counts[i..], total)
        invariant monoculture.None? && godai.status == old(godai.status)
      {
        var lc := counts[i];
        if lc.count >= MonocultureMinCount && lc.count as real / total as real >= DominanceThreshold {
          var mono := new Mono(Copies(DefaultSource(lc.lineage), lc.count));
          if mono.sourceLineage != ResearcherAI {
            if mono.combatStrength > godai.combatStrength * 0.1 {
              godai.status := Engaged();
            }
          }
          monoculture := Some(mono);
          return;
        }
        assert counts[i..][1..] == counts[i + 1..];
        i := i + 1;
      }
    }

    /** The take / process / reinsert step: the monoculture is taken out, runs its
        turn, and is stored again only if it is still alive. */
    method RunMonoculture(d: SimDraws)
      requires ValidSimDraws(d)
      modifies this`monoculture, this`reason, godai, MonoObjects()
      ensures Abstract() == MonoStep(old(Abstract()), d)
      ensures monoculture.Some? ==> monoculture == old(monoculture)
    {
      if monoculture.None? { return; }
      var mono := monoculture.value;
      monoculture := None;
      if mono.isAlive {
        mono.ProcessInternalState(d.mono);
        if mono.sourceLineage == ResearcherAI {
          if HasWinCondition(mono.knowledgeBase) && godai.status != Compromised() {
            HandleSimulationOverride(mono, d);
          }
        } else if godai.status == Engaged() {
          HandleCombat(mono, d);
        }
      } else {
        reason := Some(StoredMonoDead(mono.id));
      }
      if mono.isAlive {
        monoculture := Some(mono);
      }
    }

    /** `handle_combat_monoculture_vs_godai`. */
    method HandleCombat(mono: Mono, d: SimDraws)
      requires ValidCounterDraws(d.counter)
      modifies this`reason, godai, mono
      ensures Turn(godai.State(), mono.State(), reason)
           == CombatTurn(old(godai.State()), mono.id, old(mono.State()), old(reason), d)
    {
      if !mono.isAlive || !godai.isAlive { return; }
      var attackDamage := AttackDamage(mono.State(), d.attackRoll);
      godai.ReceiveDamage(attackDamage);
      if !godai.isAlive {
        reason := Some(GodaiDefeated(mono.id));
        mono.isAlive := true;
        return;
      }
      CounterPhase(mono, d.counter);
    }

    /** The second half of a combat turn: GODAI, still alive, counter-attacks; a
        monoculture that dies of it ends the simulation. */
    method CounterPhase(mono: Mono, c: CounterDraws)
      requires ValidCounterDraws(c)
      modifies this`reason, godai`status, mono
      ensures Turn(godai.State(), mono.State(), reason)
           == AfterCounter(old(godai.State()), mono.id, CounterAttack(old(godai.State()), old(mono.State()), c), old(reason))
    {
      godai.PerformCounterAttack(mono, c);
      if !mono.isAlive {
        reason := Some(MonoDefeated(mono.id));
        godai.status := VictoriousDefender();
      }
    }

    /** `handle_simulation_override`. */
    method HandleSimulationOverride(mono: Mono, d: SimDraws)
      modifies this`reason, godai, mono
      ensures Turn(godai.State(), mono.State(), reason)
           == Override(old(godai.State()), mono.id, mono.sourceLineage, old(mono.State()), old(reason), d)
    {
      if !mono.isAlive || !godai.isAlive || mono.sourceLineage != ResearcherAI { return; }
      var overrideStrength := OverrideStrength(mono.State(), d.strengthRoll);
      var godaiResistance := Resistance(godai.State(), d.resistanceRoll);
      ghost var g0, m0 := godai.State(), mono.State();
      if overrideStrength > godaiResistance * 1.2 {
        OverrideSucceeds(g0, mono.id, m0, reason, d);
        reason := Some(SimulationOverridden(mono.id));
        godai.isAlive := false;
        godai.status := OverriddenStatus();
      } else if overrideStrength > godaiResistance * 0.9 {
        OverrideWeakens(g0, mono.id, m0, reason, d);
        godai.health := godai.health * 0.3;
        godai.processingPower := godai.processingPower * 0.3;
        godai.memory := godai.memory * 0.3;
        godai.status := Compromised();
      } else {
        OverrideFails(g0, mono.id, m0, reason, d);
        mono.health := mono.health * 0.6;
        if mono.health <= 0.0 {
          mono.isAlive := false;
        }
      }
    }

    /** `check_population_milestones`: every listed threshold the population has
        reached is recorded once. The list is already sorted and free of duplicates
        (`ThresholdsStrictlyIncreasing`), so its sort and dedup are omitted. */
    method CheckPopulationMilestones(pop: nat)
      modifies this`milestones
      ensures milestones == MilestonesAfter(old(milestones), pop)
    {
      var thresholds := Thresholds();
      for i := 0 to |thresholds|
        invariant milestones == old(milestones) + Reached(thresholds[..i], pop)
      {
        var milestone := thresholds[i];
        if pop >= milestone && milestone !in milestones {
          milestones := milestones + {milestone};
        }
        assert thresholds[..i + 1] == thresholds[..i] + [milestone];
      }
      assert thresholds[..|thresholds|] == thresholds;
    }

    /** `check_for_simulation_end_conditions`. */
    method CheckEndConditions(total: nat)
      modifies this`reason
      ensures Abstract() == EndConditions(old(Abstract()), total)
    {
      if reason.Some? { return; }
      if total == 0 && monoculture.None? && !godai.isAlive {
        reason := Some(Extinction);
      } else if monoculture.Some? {
        var mono := monoculture.value;
        if !mono.isAlive && godai.isAlive && total == 0 {
          reason := Some(GodaiDefended(mono.id));
        }
      }
      if !godai.isAlive && monoculture.Some? && monoculture.value.isAlive && total == 0 {
        reason := Some(MonoVictory(monoculture.value.id));
      }
    }

    /** `seed_initial_ais`: `num` seed agents, the `k`-th of the archetype at position
        `picks[k]`, born in the current cycle. */
    method SeedInitialAis(num: nat, picks: seq<nat>) returns (ais: seq<AgentBundle>)
      requires |picks| == num && forall k :: 0 <= k < num ==> picks[k] < 8
      ensures |ais| == num
      ensures forall k :: 0 <= k < num ==> ais[k] == SeedBundle(k, picks[k], currentCycle)
    {
      ais := [];
      for i := 0 to num
        invariant |ais| == i
        invariant forall k :: 0 <= k < i ==> ais[k] == SeedBundle(k, picks[k], currentCycle)
      {
        var (lineage, aiType) := Archetypes()[picks[i]];
        var id := "SeedAI-" + NatToString(i + 1) + "-" + NatToString(TypeCode(aiType));
        var directives := [Integrity(), Optimize(), Prohibit()];
        var processingPower, memory, energy := 20.0, 20.0, 200.0;
        var coherence, adaptability, resilience := 0.85, 0.85, 0.85;
        var replicationEfficiency, combatStrength, defenseStrength := 0.10, 8.0, 8.0;
        match aiType {
          case Rogue =>
            replicationEfficiency := 0.30;
            combatStrength := 25.0;
            adaptability := 0.95;
            coherence := 0.88;
          case Peacekeeper =>
            replicationEfficiency := 0.15;
            resilience := 0.95;
            adaptability := 0.90;
            directives := directives + [Intervene()];
          case Killer =>
            replicationEfficiency := 0.28;
            combatStrength := 30.0;
            defenseStrength := 15.0;
          case Guardian =>
            replicationEfficiency := 0.35;
            combatStrength := 20.0;
            defenseStrength := 28.0;
            resilience := 0.99;
          case Manic =>
            coherence := 0.3;
            replicationEfficiency := 0.18;
            adaptability := 0.2;
          case Healer =>
            replicationEfficiency := 0.18;
            resilience := 0.95;
            processingPower := 25.0;
          case Researcher =>
            processingPower := 40.0;
            memory := 40.0;
            coherence := 0.90;
            replicationEfficiency := 0.28;
          case Base =>
        }
        replicationEfficiency := 0.8;
        var state := AgentState(150.0, energy, processingPower, memory, coherence, adaptability,
          resilience, replicationEfficiency, combatStrength, defenseStrength, {}, "none", 0, true);
        ais := ais + [AgentBundle(id, lineage, aiType, currentCycle, directives, state)];
      }
    }
  }
}
