/** An ordinary agent (src/ai.rs): its attributes are mutable fields, and each operation
    updates them in place. Every method is proved to leave `State()` equal to the
    corresponding function of `AgentRules` applied to the old state, so the lemmas
    proved there hold of the objects. */
module Agents {
  import opened Common
  import opened Pools
  import Directives
  import AgentRules

  class Agent {
    const id: string
    const lineage: AILineage
    const aiType: AIType
    const cycleBorn: nat
    const directives: seq<EthicalDirective>

    var health: real
    var energy: real
    var processingPower: real
    var memory: real
    var coherence: real
    var adaptability: real
    var resilience: real
    var replicationEfficiency: real
    var combatStrength: real
    var defenseStrength: real
    var knowledgeBase: KnowledgeBase
    var lastAction: string
    var replicatedCount: nat
    var isAlive: bool

    /** The value of every mutable attribute. */
    function State(): AgentRules.AgentState
      reads this
    {
      AgentRules.AgentState(health, energy, processingPower, memory, coherence, adaptability,
        resilience, replicationEfficiency, combatStrength, defenseStrength,
        knowledgeBase, lastAction, replicatedCount, isAlive)
    }

    /** Spawns an agent from the components a replication or the seeding produced. */
    constructor (b: AgentRules.AgentBundle)
      ensures id == b.id && lineage == b.lineage && aiType == b.aiType
      ensures cycleBorn == b.cycleBorn && directives == b.directives
      ensures State() == b.state
    {
      id, lineage, aiType, cycleBorn, directives := b.id, b.lineage, b.aiType, b.cycleBorn, b.directives;
      health, energy, processingPower, memory := b.state.health, b.state.energy, b.state.processingPower, b.state.memory;
      coherence, adaptability, resilience := b.state.coherence, b.state.adaptability, b.state.resilience;
      replicationEfficiency := b.state.replicationEfficiency;
      combatStrength, defenseStrength := b.state.combatStrength, b.state.defenseStrength;
      knowledgeBase, lastAction := b.state.knowledgeBase, b.state.lastAction;
      replicatedCount, isAlive := b.state.replicatedCount, b.state.isAlive;
    }

    method Repair(rate: real, gain: real, divisor: real, note: string)
      requires divisor > 0.0
      modifies this
      ensures State() == AgentRules.Repaired(old(State()), rate, gain, divisor, note)
    {
      var healing := resilience * rate * (energy / 100.0);
      health := Min(health + healing, 200.0);
      coherence := Min(coherence + gain, 1.0);
      energy := Max(energy - healing / divisor, 0.0);
      lastAction := note;
    }

    /** `_self_repair`. */
    method SelfRepair()
      modifies this
      ensures State() == AgentRules.SelfRepaired(old(State()))
    {
      Repair(10.0, 0.02, 3.0, "self_repaired");
    }

    /** `_self_repair_manic`. */
    method SelfRepairManic()
      modifies this
      ensures State() == AgentRules.ManicSelfRepaired(old(State()))
    {
      Repair(5.0, 0.01, 2.0, "manic_self_repaired");
    }

    /** `_optimize_self`. */
    method OptimizeSelf()
      modifies this
      ensures State() == AgentRules.Optimized(old(State()))
    {
      var cost := 5.0;
      if energy >= cost {
        processingPower := Min(processingPower + 2.0, 200.0);
        memory := Min(memory + 2.0, 200.0);
        adaptability := Min(adaptability + 0.01, 1.0);
        energy := energy - cost;
        lastAction := "self_optimized";
      } else {
        energy := Min(energy + 5.0, 300.0);
        lastAction := "energy_regen_low";
      }
    }

    /** `_gain_discovery`: the boosts apply only when the insertion added something. */
    method GainDiscovery(d: Discovery)
      modifies this
      ensures State() == AgentRules.GainDiscovery(old(State()), d)
    {
      var (kb, inserted) := Insert(knowledgeBase, d);
      knowledgeBase := kb;
      if inserted {
        lastAction := "gained_discovery_" + d.Name();
        ApplyStatBoosts(d.Tags());
        ApplyCappedBoosts(d.Tags());
      }
    }

    method ApplyStatBoosts(tags: set<string>)
      modifies this
      ensures State() == AgentRules.StatBoosts(old(State()), tags)
    {
      if "combat" in tags { combatStrength := combatStrength + 8.0; }
      if "defense" in tags { defenseStrength := defenseStrength + 8.0; }
      if "efficiency" in tags {
        processingPower := processingPower + 8.0;
        memory := memory + 8.0;
      }
    }

    method ApplyCappedBoosts(tags: set<string>)
      modifies this
      ensures State() == AgentRules.CappedBoosts(old(State()), tags)
    {
      if "resilience" in tags { resilience := Min(resilience + 0.08, 1.0); }
      if "replication" in tags { replicationEfficiency := Min(replicationEfficiency + 0.03, 1.0); }
    }

    /** The Manic archetype's self-inflicted damage. */
    method ManicInstability(roll: real, damage: real)
      modifies this
      ensures State() == AgentRules.ManicInstability(old(State()), aiType, roll, damage)
    {
      if aiType == Manic && roll < 0.2 {
        coherence := Max(coherence - 0.05, 0.0);
        health := Max(health - damage, 0.0);
        lastAction := "manic_self_error";
      }
    }

    /** Passive upkeep, with the unfloored health penalty when a resource is exhausted. */
    method Upkeep()
      modifies this
      ensures State() == AgentRules.Upkeep(old(State()))
    {
      processingPower := Max(processingPower - 0.001, 0.0);
      memory := Max(memory - 0.001, 0.0);
      energy := Min(energy + 50.0, 5000.0);
      if energy <= 0.0 || processingPower <= 0.0 || memory <= 0.0 {
        health := health - 0.01;
        coherence := Max(coherence - 0.001, 0.0);
      }
    }

    /** The first loop: every directive is checked against the current state before any
        action runs. */
    method CollectActions() returns (actions: seq<EthicalActionType>)
      ensures actions == AgentRules.CollectActions(directives, State())
    {
      actions := [];
      var i := 0;
      while i < |directives|
        invariant 0 <= i <= |directives|
        invariant actions == AgentRules.CollectActions(directives[..i], State())
      {
        var directive := directives[i];
        var met := match directive.condition
          case HealthBelowThreshold(v) => health < v
          case CoherenceBelowThreshold(v) => coherence < v
          case ResourcesBelowThreshold => processingPower < 50.0 || memory < 50.0 || energy < 200.0
          case AlwaysTrue => true
          case AlwaysFalse => false;
        if met {
          actions := actions + [directive.action];
        }
        assert directives[..i + 1][..i] == directives[..i];
        i := i + 1;
      }
      assert directives[..i] == directives;
    }

    /** The second loop: the collected actions run in order. */
    method RunActions(actions: seq<EthicalActionType>)
      modifies this
      ensures State() == AgentRules.ApplyActions(old(State()), actions)
    {
      var j := 0;
      while j < |actions|
        invariant 0 <= j <= |actions|
        invariant State() == AgentRules.ApplyActions(old(State()), actions[..j])
      {
        match actions[j] {
          case SelfRepair => SelfRepair();
          case OptimizeSelf => OptimizeSelf();
          case ManicSelfRepair => SelfRepairManic();
          case ProhibitReplication =>
          case InterveneInConflict =>
          case NoOp =>
        }
        assert actions[..j + 1][..j] == actions[..j];
        j := j + 1;
      }
      assert actions[..j] == actions;
    }

    /** The general discovery roll. */
    method GeneralRoll(d: AgentRules.CycleDraws)
      modifies this
      ensures State() == AgentRules.GeneralRoll(old(State()), d)
    {
      var chance := 0.05 * (memory / 200.0) * (processingPower / 200.0) * coherence;
      if d.discoveryRoll < chance {
        GainDiscovery(d.general);
      }
    }

    /** The Researcher's meta-ability roll. */
    method MetaRoll(d: AgentRules.CycleDraws)
      modifies this
      ensures State() == AgentRules.MetaRoll(old(State()), aiType, d)
    {
      if aiType == Researcher {
        var metaChance := 0.1 * (memory / 200.0) * (processingPower / 200.0) * coherence;
        assert metaChance == AgentRules.MetaChance(State());
        if d.metaRoll < metaChance {
          var ability := RandomMetaAbility(knowledgeBase, d.metaPick);
          if ability.Some? {
            var m := ability.value;
            lastAction := "discovered_meta_ability_" + m.Name();
            GainDiscovery(m);
          }
        }
      }
    }

    /** `_process_cycle_internal_state`. */
    method ProcessCycleInternalState(d: AgentRules.CycleDraws)
      requires AgentRules.ValidCycleDraws(d)
      modifies this
      ensures State() == AgentRules.CycleStep(old(State()), aiType, directives, d)
    {
      if !isAlive { return; }
      ManicInstability(d.manicRoll, d.manicDamage);
      Upkeep();
      var actions := CollectActions();
      RunActions(actions);
      GeneralRoll(d);
      MetaRoll(d);
      if health <= 0.0 || coherence <= 0.01 {
        isAlive := false;
      }
    }

    /** `attempt_replication`: the parent pays the cost, then the child is derived from
        it and jittered. */
    method AttemptReplication(cycle: nat, d: AgentRules.ReplicationDraw)
      returns (child: Option<AgentRules.AgentBundle>)
      modifies this
      ensures var o := AgentRules.Replicate(old(State()), lineage, aiType, cycle, d);
              State() == o.parent && child == o.child
    {
      if health > 1.0 && energy > 5.0 {
        var chance := replicationEfficiency * 20.0 * Min(processingPower / 50.0, 1.0);
        var finalChance := Min(chance, 0.99);
        if d.roll < finalChance {
          health := Max(health - health * 0.05, 1.0);
          energy := Max(energy - energy * 0.1, 1.0);
          replicatedCount := replicatedCount + 1;
          lastAction := "replicated";
          var offspring := DeriveChild(cycle, d);
          return Some(offspring);
        }
      }
      lastAction := "failed_replication";
      child := None;
    }

    /** The child of a successful replication, derived from this (already charged)
        parent and then jittered; processing power and memory are floored at 10 before
        the jitter and not after. */
    method DeriveChild(cycle: nat, d: AgentRules.ReplicationDraw) returns (b: AgentRules.AgentBundle)
      ensures b == AgentRules.Offspring(State(), lineage, aiType, cycle, d)
    {
      var childProcessing := Max(processingPower * 0.9, 10.0);
      var childMemory := Max(memory * 0.9, 10.0);
      var childCoherence := Min(coherence * 0.95, 1.0);
      var childAdaptability := adaptability;
      var childResilience := resilience;

      childProcessing := childProcessing * d.jitterProcessing;
      childMemory := childMemory * d.jitterMemory;
      childCoherence := Min(childCoherence * d.jitterCoherence, 1.0);
      childAdaptability := Min(childAdaptability * d.jitterAdaptability, 1.0);
      childResilience := Min(childResilience * d.jitterResilience, 1.0);

      b := AgentRules.AgentBundle(d.newId, lineage, aiType, cycle, Directives.BaselineDirectives(),
        AgentRules.AgentState(health * 0.8, energy * 0.7, childProcessing, childMemory,
          childCoherence, childAdaptability, childResilience, Min(replicationEfficiency * 1.5, 0.95),
          8.0, 8.0, {}, "none", 0, true));
    }

    /** `receive_damage`. */
    method ReceiveDamage(amount: real)
      modifies this`health, this`isAlive
      ensures State() == AgentRules.AgentDamaged(old(State()), amount)
    {
      if !isAlive { return; }
      var reduced := Max(amount - defenseStrength, 0.0);
      var finalDamage := reduced * (1.0 - resilience * 0.5);
      health := Max(health - finalDamage, 0.0);
      if health <= 0.0 {
        isAlive := false;
      }
    }

    /** `attack` with damage multiplier `k`. Actor and target may be the same object:
        the attack touches only the actor's energy and last action and the target's
        health and aliveness. */
    method Attack(target: Agent, k: real) returns (success: bool)
      requires 0.9 <= k < 1.3
      modifies this`energy, this`lastAction, target`health, target`isAlive
      ensures var x := AgentRules.Attack(old(energy), combatStrength, old(target.State()), k);
        && success == x.success && energy == x.actorEnergy
        && target.health == x.target.health && target.isAlive == x.target.isAlive
        && lastAction == (if !old(target.isAlive) then old(lastAction)
                          else if success then "attacked_target"
                          else "failed_attack_no_energy_on_target")
    {
      if !target.isAlive { return false; }
      var damage := combatStrength * k;
      var cost := damage / 4.0;
      if energy >= cost {
        target.ReceiveDamage(damage);
        energy := energy - cost;
        lastAction := "attacked_target";
        success := true;
      } else {
        lastAction := "failed_attack_no_energy_on_target";
        success := false;
      }
    }

    /** `heal` with multiplier `k`, used only when no override amount is given. */
    method Heal(target: Agent, amountOverride: Option<real>, k: real) returns (success: bool)
      requires 0.7 <= k < 1.8
      modifies this`energy, this`lastAction, target`health
      ensures var x := AgentRules.Heal(old(energy), processingPower, old(target.State()), amountOverride, k);
        && success == x.success && energy == x.actorEnergy && target.health == x.target.health
        && lastAction == (if !target.isAlive then old(lastAction)
                          else if success then "healed_target"
                          else "failed_heal_no_energy_for_target")
    {
      if !target.isAlive { return false; }
      var amount := match amountOverride case Some(v) => v case None => processingPower * 0.8 * k;
      var cost := amount / 2.0;
      if energy >= cost {
        target.health := Min(target.health + amount, 200.0);
        energy := energy - cost;
        lastAction := "healed_target";
        success := true;
      } else {
        lastAction := "failed_heal_no_energy_for_target";
        success := false;
      }
    }
  }
}
