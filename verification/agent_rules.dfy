/** The per-agent dynamics of src/ai.rs as functions on an agent's value:
    self-repair, optimisation, discovery gain, the per-cycle step, replication,
    damage intake, attack and heal. The class `Agents.Agent` runs these updates in
    place and proves each of its methods equal to the function here. */
module AgentRules {
  import opened Common
  import opened Directives
  import opened Pools
  import opened Combat

  /** Every component of an agent that the source updates. */
  datatype AgentState = AgentState(
    health: real, energy: real, processingPower: real, memory: real,
    coherence: real, adaptability: real, resilience: real, replicationEfficiency: real,
    combatStrength: real, defenseStrength: real,
    knowledgeBase: KnowledgeBase, lastAction: string, replicatedCount: nat, isAlive: bool)

  // ---------------------------------------------------------------- self-repair

  /** The shape shared by `_self_repair` (rate 10, gain 0.02, divisor 3) and
      `_self_repair_manic` (rate 5, gain 0.01, divisor 2). */
  function Repaired(s: AgentState, rate: real, gain: real, divisor: real, note: string): (r: AgentState)
    requires divisor > 0.0
    ensures r.health <= 200.0 && r.coherence <= 1.0 && r.energy >= 0.0
    ensures r == s.(health := r.health, coherence := r.coherence, energy := r.energy, lastAction := note)
  {
    var healing := s.resilience * rate * (s.energy / 100.0);
    s.(health := Min(s.health + healing, 200.0),
       coherence := Min(s.coherence + gain, 1.0),
       energy := Max(s.energy - healing / divisor, 0.0),
       lastAction := note)
  }

  function SelfRepaired(s: AgentState): AgentState
  {
    Repaired(s, 10.0, 0.02, 3.0, "self_repaired")
  }

  function ManicSelfRepaired(s: AgentState): AgentState
  {
    Repaired(s, 5.0, 0.01, 2.0, "manic_self_repaired")
  }

  /** With non-negative resilience and energy and health within its cap, repair never
      lowers health or coherence and never raises energy. */
  lemma RepairMonotone(s: AgentState, rate: real, gain: real, divisor: real, note: string)
    requires divisor > 0.0 && rate >= 0.0 && gain >= 0.0
    requires s.resilience >= 0.0 && s.energy >= 0.0 && s.health <= 200.0 && s.coherence <= 1.0
    ensures var r := Repaired(s, rate, gain, divisor, note);
            r.health >= s.health && r.coherence >= s.coherence && r.energy <= s.energy
  {
    MulNonneg(s.resilience, rate);
    MulNonneg(s.resilience * rate, s.energy / 100.0);
  }

  lemma SelfRepairNeverLowersHealth(s: AgentState)
    requires s.resilience >= 0.0 && s.energy >= 0.0 && s.health <= 200.0
    ensures SelfRepaired(s).health >= s.health
    ensures SelfRepaired(s).health <= 200.0 && SelfRepaired(s).coherence <= 1.0 && SelfRepaired(s).energy >= 0.0
  {
    RepairMonotone(s.(coherence := Min(s.coherence, 1.0)), 10.0, 0.02, 3.0, "self_repaired");
  }

  lemma ManicSelfRepairNeverLowersHealth(s: AgentState)
    requires s.resilience >= 0.0 && s.energy >= 0.0 && s.health <= 200.0
    ensures ManicSelfRepaired(s).health >= s.health
    ensures ManicSelfRepaired(s).health <= 200.0 && ManicSelfRepaired(s).coherence <= 1.0
    ensures ManicSelfRepaired(s).energy >= 0.0
  {
    RepairMonotone(s.(coherence := Min(s.coherence, 1.0)), 5.0, 0.01, 2.0, "manic_self_repaired");
  }

  // ------------------------------------------------------------------ optimise

  /** `_optimize_self`: with at least 5 energy, pay exactly 5 for +2 processing power
      and memory (capped at 200) and +0.01 adaptability (capped at 1); otherwise
      regain 5 energy, which never reaches the 300 ceiling from below 5. */
  function Optimized(s: AgentState): (r: AgentState)
    ensures s.energy >= 5.0 ==>
      && r.energy == s.energy - 5.0
      && r.processingPower == Min(s.processingPower + 2.0, 200.0)
      && r.memory == Min(s.memory + 2.0, 200.0)
      && r.adaptability == Min(s.adaptability + 0.01, 1.0)
      && r.processingPower <= 200.0 && r.memory <= 200.0 && r.adaptability <= 1.0
      && r == s.(processingPower := r.processingPower, memory := r.memory,
                 adaptability := r.adaptability, energy := r.energy, lastAction := "self_optimized")
    ensures s.energy < 5.0 ==>
      r == s.(energy := s.energy + 5.0, lastAction := "energy_regen_low")
  {
    if s.energy >= 5.0 then
      s.(processingPower := Min(s.processingPower + 2.0, 200.0),
         memory := Min(s.memory + 2.0, 200.0),
         adaptability := Min(s.adaptability + 0.01, 1.0),
         energy := s.energy - 5.0,
         lastAction := "self_optimized")
    else
      s.(energy := Min(s.energy + 5.0, 300.0), lastAction := "energy_regen_low")
  }

  // ------------------------------------------------------------------ discovery

  function TagBoost(tags: set<string>, tag: string, amount: real): real
  {
    if tag in tags then amount else 0.0
  }

  /** The additive boosts of a discovery: +8 combat, +8 defense, +8 processing power and
      memory for efficiency. */
  function StatBoosts(s: AgentState, tags: set<string>): AgentState
  {
    s.(combatStrength := s.combatStrength + TagBoost(tags, "combat", 8.0),
       defenseStrength := s.defenseStrength + TagBoost(tags, "defense", 8.0),
       processingPower := s.processingPower + TagBoost(tags, "efficiency", 8.0),
       memory := s.memory + TagBoost(tags, "efficiency", 8.0))
  }

  /** The boosts capped at 1: resilience +0.08 and replication efficiency +0.03. */
  function CappedBoosts(s: AgentState, tags: set<string>): AgentState
  {
    s.(resilience := if "resilience" in tags then Min(s.resilience + 0.08, 1.0) else s.resilience,
       replicationEfficiency :=
         if "replication" in tags then Min(s.replicationEfficiency + 0.03, 1.0)
         else s.replicationEfficiency)
  }

  /** `_gain_discovery`: set insertion; only a new discovery applies its boosts. */
  function GainDiscovery(s: AgentState, d: Discovery): AgentState
  {
    if d in s.knowledgeBase then s
    else
      CappedBoosts(StatBoosts(s.(knowledgeBase := s.knowledgeBase + {d},
                                 lastAction := "gained_discovery_" + d.Name()), d.Tags()), d.Tags())
  }

  /** Gaining a discovery twice is the same as gaining it once; gaining a known one
      changes nothing. */
  lemma GainDiscoveryIdempotent(s: AgentState, d: Discovery)
    ensures GainDiscovery(GainDiscovery(s, d), d) == GainDiscovery(s, d)
    ensures d in s.knowledgeBase ==> GainDiscovery(s, d) == s
  {
  }

  /** A new discovery adds one entry, raises each stat whose tag it carries by that
      tag's amount and no other stat, and keeps resilience and replication efficiency
      within 1. */
  lemma GainDiscoveryEffects(s: AgentState, d: Discovery)
    requires d !in s.knowledgeBase
    ensures var r := GainDiscovery(s, d);
      && r.knowledgeBase == s.knowledgeBase + {d} && |r.knowledgeBase| == |s.knowledgeBase| + 1
      && (r.combatStrength > s.combatStrength <==> "combat" in d.Tags())
      && (r.defenseStrength > s.defenseStrength <==> "defense" in d.Tags())
      && (r.processingPower > s.processingPower <==> "efficiency" in d.Tags())
      && (r.memory > s.memory <==> "efficiency" in d.Tags())
      && r.combatStrength - s.combatStrength in {0.0, 8.0}
      && r.defenseStrength - s.defenseStrength in {0.0, 8.0}
      && r.processingPower - s.processingPower in {0.0, 8.0}
      && r.memory - s.memory in {0.0, 8.0}
      && ("resilience" !in d.Tags() ==> r.resilience == s.resilience)
      && ("replication" !in d.Tags() ==> r.replicationEfficiency == s.replicationEfficiency)
      && (s.resilience <= 1.0 ==> s.resilience <= r.resilience <= 1.0)
      && (s.replicationEfficiency <= 1.0 ==> s.replicationEfficiency <= r.replicationEfficiency <= 1.0)
      && r.health == s.health && r.energy == s.energy && r.coherence == s.coherence
      && r.adaptability == s.adaptability && r.isAlive == s.isAlive
      && r.replicatedCount == s.replicatedCount
  {
  }

  // ------------------------------------------------------------ the cycle step

  /** The random draws of one call of `_process_cycle_internal_state`. */
  datatype CycleDraws = CycleDraws(
    manicRoll: real, manicDamage: real, discoveryRoll: real, general: Discovery,
    metaRoll: real, metaPick: nat)

  /** `get_random_general_discovery` draws from the general pool. */
  predicate InGeneralPool(g: Discovery)
  {
    g in GeneralPool()
  }

  predicate ValidCycleDraws(d: CycleDraws)
  {
    && 0.0 <= d.manicRoll < 1.0 && 3.0 <= d.manicDamage < 10.0
    && 0.0 <= d.discoveryRoll < 1.0 && InGeneralPool(d.general)
    && 0.0 <= d.metaRoll < 1.0
  }

  /** A Manic agent loses coherence and health with probability 0.2. */
  function ManicInstability(s: AgentState, t: AIType, roll: real, damage: real): AgentState
  {
    if t == Manic && roll < 0.2 then
      s.(coherence := Max(s.coherence - 0.05, 0.0),
         health := Max(s.health - damage, 0.0),
         lastAction := "manic_self_error")
    else s
  }

  /** Passive upkeep. The health penalty has no floor. */
  function Upkeep(s: AgentState): (r: AgentState)
    ensures r.processingPower >= 0.0 && r.memory >= 0.0 && r.energy <= 5000.0
    ensures r.knowledgeBase == s.knowledgeBase && r.isAlive == s.isAlive
  {
    var pp := Max(s.processingPower - 0.001, 0.0);
    var mem := Max(s.memory - 0.001, 0.0);
    var e := Min(s.energy + 50.0, 5000.0);
    var s1 := s.(processingPower := pp, memory := mem, energy := e);
    if e <= 0.0 || pp <= 0.0 || mem <= 0.0 then
      s1.(health := s1.health - 0.01, coherence := Max(s1.coherence - 0.001, 0.0))
    else s1
  }

  /** Upkeep can push a non-negative health below zero. */
  lemma UpkeepHealthUnfloored(s: AgentState)
    requires s.health == 0.005 && s.processingPower == 0.0
    ensures Upkeep(s).health < 0.0
  {
  }

  predicate ConditionMet(c: EthicalConditionType, s: AgentState)
  {
    match c
    case HealthBelowThreshold(v) => s.health < v
    case CoherenceBelowThreshold(v) => s.coherence < v
    case ResourcesBelowThreshold => s.processingPower < 50.0 || s.memory < 50.0 || s.energy < 200.0
    case AlwaysTrue => true
    case AlwaysFalse => false
  }

  /** The actions of the directives whose condition holds in `s`, in list order. */
  function CollectActions(ds: seq<EthicalDirective>, s: AgentState): (acts: seq<EthicalActionType>)
    ensures |acts| <= |ds|
    ensures forall a :: a in acts ==> exists d :: d in ds && d.action == a && ConditionMet(d.condition, s)
    ensures forall d :: d in ds && ConditionMet(d.condition, s) ==> d.action in acts
  {
    if ds == [] then []
    else
      var last := ds[|ds| - 1];
      var init := ds[..|ds| - 1];
      assert ds == init + [last];
      CollectActions(init, s) + (if ConditionMet(last.condition, s) then [last.action] else [])
  }

  function ApplyAction(s: AgentState, a: EthicalActionType): AgentState
  {
    match a
    case SelfRepair => SelfRepaired(s)
    case OptimizeSelf => Optimized(s)
    case ManicSelfRepair => ManicSelfRepaired(s)
    case ProhibitReplication => s
    case InterveneInConflict => s
    case NoOp => s
  }

  /** Runs the actions in order. */
  function ApplyActions(s: AgentState, acts: seq<EthicalActionType>): AgentState
  {
    if acts == [] then s
    else ApplyAction(ApplyActions(s, acts[..|acts| - 1]), acts[|acts| - 1])
  }

  /** Actions never touch aliveness, knowledge, combat stats or the replication count. */
  lemma {:induction false} ApplyActionsFrame(s: AgentState, acts: seq<EthicalActionType>)
    ensures var r := ApplyActions(s, acts);
      && r.isAlive == s.isAlive && r.knowledgeBase == s.knowledgeBase
      && r.combatStrength == s.combatStrength && r.defenseStrength == s.defenseStrength
      && r.resilience == s.resilience && r.replicationEfficiency == s.replicationEfficiency
      && r.replicatedCount == s.replicatedCount
  {
    if acts != [] {
      ApplyActionsFrame(s, acts[..|acts| - 1]);
    }
  }

  function GeneralChance(s: AgentState): real
  {
    0.05 * (s.memory / 200.0) * (s.processingPower / 200.0) * s.coherence
  }

  function MetaChance(s: AgentState): real
  {
    0.1 * (s.memory / 200.0) * (s.processingPower / 200.0) * s.coherence
  }

  /** The general-discovery roll, which would gain the drawn `d.general`. */
  function GeneralRoll(s: AgentState, d: CycleDraws): AgentState
  {
    if d.discoveryRoll < GeneralChance(s) then GainDiscovery(s, d.general) else s
  }

  /** A Researcher's meta-ability roll. */
  function MetaRoll(s: AgentState, t: AIType, d: CycleDraws): AgentState
  {
    if t == Researcher && d.metaRoll < MetaChance(s) then
      match RandomMetaAbility(s.knowledgeBase, d.metaPick)
      case None => s
      case Some(m) => GainDiscovery(s.(lastAction := "discovered_meta_ability_" + m.Name()), m)
    else s
  }

  /** The general roll, then the meta roll, whose chance is computed after the general
      discovery's boosts. */
  function DiscoveryRolls(s: AgentState, t: AIType, d: CycleDraws): AgentState
  {
    MetaRoll(GeneralRoll(s, d), t, d)
  }

  function DeathCheck(s: AgentState): AgentState
  {
    if s.health <= 0.0 || s.coherence <= 0.01 then s.(isAlive := false) else s
  }

  /** `_process_cycle_internal_state`: manic damage, upkeep, every directive condition
      evaluated against the post-upkeep state, then every collected action in list
      order, then the discovery rolls and the death check. */
  function CycleStep(s: AgentState, t: AIType, ds: seq<EthicalDirective>, d: CycleDraws): AgentState
  {
    if !s.isAlive then s
    else
      var u := Upkeep(ManicInstability(s, t, d.manicRoll, d.manicDamage));
      DeathCheck(DiscoveryRolls(ApplyActions(u, CollectActions(ds, u)), t, d))
  }

  /** After a step an agent is alive exactly when it was alive before and ends with
      health above 0 and coherence above 0.01; a dead agent is left untouched. */
  lemma CycleStepAliveness(s: AgentState, t: AIType, ds: seq<EthicalDirective>, d: CycleDraws)
    ensures var r := CycleStep(s, t, ds, d);
      && (r.isAlive <==> s.isAlive && r.health > 0.0 && r.coherence > 0.01)
      && (!s.isAlive ==> r == s)
  {
    if s.isAlive {
      var u := Upkeep(ManicInstability(s, t, d.manicRoll, d.manicDamage));
      ApplyActionsFrame(u, CollectActions(ds, u));
    }
  }

  /** Gaining adds exactly the discovery to the knowledge base and keeps aliveness. */
  lemma GainDiscoveryKnowledge(s: AgentState, d: Discovery)
    ensures GainDiscovery(s, d).knowledgeBase == s.knowledgeBase + {d}
    ensures GainDiscovery(s, d).isAlive == s.isAlive
  {
  }

  /** The discovery rolls only add knowledge: the drawn general discovery and, for a
      Researcher, at most one meta-ability not yet held. */
  lemma DiscoveryRollsKnowledge(a: AgentState, t: AIType, d: CycleDraws)
    ensures var r := DiscoveryRolls(a, t, d);
            var g := d.general;
      && a.knowledgeBase <= r.knowledgeBase
      && (t != Researcher ==> r.knowledgeBase - a.knowledgeBase <= {g})
      && (forall k :: k in r.knowledgeBase - a.knowledgeBase ==> k == g || k in MetaPool())
      && |r.knowledgeBase - a.knowledgeBase| <= 2
      && (exists m :: m in MetaPool() && r.knowledgeBase - a.knowledgeBase <= {g, m})
      && r.isAlive == a.isAlive
  {
    var g := d.general;
    GainDiscoveryKnowledge(a, g);
    var s1 := GeneralRoll(a, d);
    assert s1.knowledgeBase - a.knowledgeBase <= {g};
    var r := DiscoveryRolls(a, t, d);
    if t == Researcher && d.metaRoll < MetaChance(s1) {
      var pick := RandomMetaAbility(s1.knowledgeBase, d.metaPick);
      if pick.Some? {
        var m := pick.value;
        GainDiscoveryKnowledge(s1.(lastAction := "discovered_meta_ability_" + m.Name()), m);
        assert r.knowledgeBase == s1.knowledgeBase + {m};
        SubsetCard(r.knowledgeBase - a.knowledgeBase, {g, m});
        assert m in MetaPool() && r.knowledgeBase - a.knowledgeBase <= {g, m};
      } else {
        SubsetCard(r.knowledgeBase - a.knowledgeBase, {g});
        OnlyGeneral(r.knowledgeBase - a.knowledgeBase, g);
      }
    } else {
      SubsetCard(r.knowledgeBase - a.knowledgeBase, {g});
      OnlyGeneral(r.knowledgeBase - a.knowledgeBase, g);
    }
  }

  /** A set of new knowledge within the general discovery fits beside any meta-ability. */
  lemma OnlyGeneral(diff: set<Discovery>, g: Discovery)
    requires diff <= {g}
    ensures exists m :: m in MetaPool() && diff <= {g, m}
  {
    var m := MetaPool()[0];
    assert m in MetaPool() && diff <= {g, m};
  }

  /** Knowledge only grows during a step; what is new is the drawn general discovery or
      a meta-ability that was not held, and only a Researcher gains meta-abilities. */
  lemma CycleStepKnowledge(s: AgentState, t: AIType, ds: seq<EthicalDirective>, d: CycleDraws)
    ensures var r := CycleStep(s, t, ds, d);
            var g := d.general;
      && s.knowledgeBase <= r.knowledgeBase
      && (t != Researcher ==> r.knowledgeBase - s.knowledgeBase <= {g})
      && (forall k :: k in r.knowledgeBase - s.knowledgeBase ==> k == g || k in MetaPool())
      && |r.knowledgeBase - s.knowledgeBase| <= 2
      && (exists m :: m in MetaPool() && r.knowledgeBase - s.knowledgeBase <= {g, m})
  {
    if s.isAlive {
      var u := Upkeep(ManicInstability(s, t, d.manicRoll, d.manicDamage));
      var a := ApplyActions(u, CollectActions(ds, u));
      ApplyActionsFrame(u, CollectActions(ds, u));
      DiscoveryRollsKnowledge(a, t, d);
    } else {
      OnlyGeneral(CycleStep(s, t, ds, d).knowledgeBase - s.knowledgeBase, d.general);
    }
  }

  lemma SubsetCard<T>(a: set<T>, b: set<T>)
    requires a <= b
    ensures |a| <= |b|
  {
    if a != {} {
      var x :| x in a;
      SubsetCard(a - {x}, b - {x});
    }
  }

  // --------------------------------------------------------------- replication

  /** The random draws of one replication attempt; `newId` stands for the generated
      identifier, which the model treats as opaque. */
  datatype ReplicationDraw = ReplicationDraw(
    roll: real, jitterProcessing: real, jitterMemory: real, jitterCoherence: real,
    jitterAdaptability: real, jitterResilience: real, newId: string)

  predicate Jitter(j: real)
  {
    1.0 - 0.005 <= j < 1.0 + 0.005
  }

  predicate ValidReplicationDraw(d: ReplicationDraw)
  {
    && 0.0 <= d.roll < 1.0
    && Jitter(d.jitterProcessing) && Jitter(d.jitterMemory) && Jitter(d.jitterCoherence)
    && Jitter(d.jitterAdaptability) && Jitter(d.jitterResilience)
  }

  /** The components a new agent is spawned with. `state.isAlive` is the `IsAlive(true)`
      the spawner adds. */
  datatype AgentBundle = AgentBundle(
    id: string, lineage: AILineage, aiType: AIType, cycleBorn: nat,
    directives: seq<EthicalDirective>, state: AgentState)

  datatype ReplicationOutcome = ReplicationOutcome(parent: AgentState, child: Option<AgentBundle>)

  predicate CanAttemptReplication(s: AgentState)
  {
    s.health > 1.0 && s.energy > 5.0
  }

  /** `min(efficiency * 20 * min(processing_power / 50, 1), 0.99)`. */
  function SuccessChance(s: AgentState): (p: real)
    ensures p <= 0.99
  {
    Min(s.replicationEfficiency * 20.0 * Min(s.processingPower / 50.0, 1.0), 0.99)
  }

  /** The chance is a probability whenever efficiency and processing power are not
      negative, and it is positive exactly when both are positive. */
  lemma SuccessChanceRange(s: AgentState)
    requires s.replicationEfficiency >= 0.0 && s.processingPower >= 0.0
    ensures 0.0 <= SuccessChance(s) <= 0.99
    ensures SuccessChance(s) > 0.0 <==> s.replicationEfficiency > 0.0 && s.processingPower > 0.0
  {
    var scale := Min(s.processingPower / 50.0, 1.0);
    MulNonneg(s.replicationEfficiency * 20.0, scale);
    if s.replicationEfficiency > 0.0 && s.processingPower > 0.0 {
      assert scale > 0.0;
      assert s.replicationEfficiency * 20.0 * scale > 0.0;
    }
  }

  /** With efficiency 0.10, the chance is 0.99 both at processing power 50 and at 25. */
  lemma SuccessChanceExamples(s: AgentState)
    requires s.replicationEfficiency == 0.10
    ensures s.processingPower == 50.0 ==> SuccessChance(s) == 0.99
    ensures s.processingPower == 25.0 ==> SuccessChance(s) == 0.99
  {
  }

  /** The parent after paying the replication cost. */
  function ParentAfterCost(s: AgentState): AgentState
  {
    s.(health := Max(s.health - s.health * 0.05, 1.0),
       energy := Max(s.energy - s.energy * 0.1, 1.0),
       replicatedCount := s.replicatedCount + 1,
       lastAction := "replicated")
  }

  /** The child derived from the parent after its cost, then jittered. */
  function Offspring(p: AgentState, lineage: AILineage, t: AIType, cycle: nat, d: ReplicationDraw): AgentBundle
  {
    AgentBundle(d.newId, lineage, t, cycle, BaselineDirectives(),
      AgentState(
        health := p.health * 0.8,
        energy := p.energy * 0.7,
        processingPower := Max(p.processingPower * 0.9, 10.0) * d.jitterProcessing,
        memory := Max(p.memory * 0.9, 10.0) * d.jitterMemory,
        coherence := Min(Min(p.coherence * 0.95, 1.0) * d.jitterCoherence, 1.0),
        adaptability := Min(p.adaptability * d.jitterAdaptability, 1.0),
        resilience := Min(p.resilience * d.jitterResilience, 1.0),
        replicationEfficiency := Min(p.replicationEfficiency * 1.5, 0.95),
        combatStrength := 8.0, defenseStrength := 8.0,
        knowledgeBase := {}, lastAction := "none", replicatedCount := 0, isAlive := true))
  }

  /** `attempt_replication`. */
  function Replicate(s: AgentState, lineage: AILineage, t: AIType, cycle: nat, d: ReplicationDraw): ReplicationOutcome
  {
    if CanAttemptReplication(s) && d.roll < SuccessChance(s) then
      var p := ParentAfterCost(s);
      ReplicationOutcome(p, Some(Offspring(p, lineage, t, cycle, d)))
    else
      ReplicationOutcome(s.(lastAction := "failed_replication"), None)
  }

  /** A successful replication: the parent's health and energy strictly fall and stay at
      least 1, its count rises by one; the child takes 0.8 of the parent's new health and
      0.7 of its new energy, its bounded stats stay within 1, and it starts with the two
      baseline directives, combat and defense 8, and the parent's lineage and type. */
  lemma ReplicationSuccess(s: AgentState, lineage: AILineage, t: AIType, cycle: nat, d: ReplicationDraw)
    requires ValidReplicationDraw(d)
    requires Replicate(s, lineage, t, cycle, d).child.Some?
    ensures var o := Replicate(s, lineage, t, cycle, d);
            var p := o.parent;
            var c := o.child.value;
      && s.health > 1.0 && s.energy > 5.0 && d.roll < SuccessChance(s)
      && 1.0 <= p.health < s.health && 1.0 <= p.energy < s.energy
      && p.replicatedCount == s.replicatedCount + 1
      && c.state.health == 0.8 * p.health && c.state.energy == 0.7 * p.energy
      && c.state.replicationEfficiency == Min(1.5 * s.replicationEfficiency, 0.95)
      && c.state.coherence <= 1.0 && c.state.adaptability <= 1.0 && c.state.resilience <= 1.0
      && c.directives == [Integrity(), Optimize()]
      && c.state.combatStrength == 8.0 && c.state.defenseStrength == 8.0
      && c.lineage == lineage && c.aiType == t && c.cycleBorn == cycle
      && c.state.knowledgeBase == {} && c.state.replicatedCount == 0
  {
  }

  /** A failed attempt changes nothing but the last action, and it fails exactly when the
      gate or the roll fails. */
  lemma ReplicationFailure(s: AgentState, lineage: AILineage, t: AIType, cycle: nat, d: ReplicationDraw)
    ensures var o := Replicate(s, lineage, t, cycle, d);
      && (o.child.None? <==> !(s.health > 1.0 && s.energy > 5.0 && d.roll < SuccessChance(s)))
      && (o.child.None? ==> o.parent == s.(lastAction := "failed_replication"))
  {
  }

  /** Jittered processing power is not floored again at 10. */
  lemma JitterNotRefloored(s: AgentState, lineage: AILineage, t: AIType, cycle: nat, d: ReplicationDraw)
    requires s.health == 100.0 && s.energy == 100.0 && s.processingPower == 10.0
    requires s.replicationEfficiency == 0.5 && d.roll == 0.0 && d.jitterProcessing == 0.995
    ensures Replicate(s, lineage, t, cycle, d).child.Some?
    ensures Replicate(s, lineage, t, cycle, d).child.value.state.processingPower < 10.0
  {
  }

  // ---------------------------------------------- replication pass of one parent

  datatype ReplicationPass = ReplicationPass(parent: AgentState, children: seq<AgentBundle>)

  /** The gate the driver checks before each attempt. */
  predicate ReplicationGate(s: AgentState)
  {
    s.health > 50.0 && s.energy > 50.0 && s.replicatedCount < 1000
  }

  /** Consecutive attempts, one per draw, stopping at the first failed gate or attempt. */
  function ReplicationAttempts(s: AgentState, lineage: AILineage, t: AIType, cycle: nat,
                               draws: seq<ReplicationDraw>): ReplicationPass
    decreases |draws|
  {
    if draws == [] || !ReplicationGate(s) then ReplicationPass(s, [])
    else
      var o := Replicate(s, lineage, t, cycle, draws[0]);
      if o.child.None? then ReplicationPass(o.parent, [])
      else
        var rest := ReplicationAttempts(o.parent, lineage, t, cycle, draws[1..]);
        ReplicationPass(rest.parent, [o.child.value] + rest.children)
  }

  /** One parent's share of `ai_replication_system`: gated on health > 0 (not on
      aliveness), then up to five attempts. */
  function ParentReplication(s: AgentState, lineage: AILineage, t: AIType, cycle: nat,
                             draws: seq<ReplicationDraw>): ReplicationPass
    requires |draws| == 5
  {
    if s.health > 0.0 then ReplicationAttempts(s, lineage, t, cycle, draws)
    else ReplicationPass(s, [])
  }

  /** Each child costs one replication count; there are at most as many children as
      draws, and a count that starts at most 1000 stays at most 1000. */
  lemma {:induction false} ReplicationAttemptsCount(s: AgentState, lineage: AILineage, t: AIType,
                                                     cycle: nat, draws: seq<ReplicationDraw>)
    ensures var r := ReplicationAttempts(s, lineage, t, cycle, draws);
      && |r.children| <= |draws|
      && r.parent.replicatedCount == s.replicatedCount + |r.children|
      && (s.replicatedCount <= 1000 ==> r.parent.replicatedCount <= 1000)
      && r.parent.isAlive == s.isAlive
      && (forall c :: c in r.children ==> c.lineage == lineage && c.aiType == t && c.cycleBorn == cycle)
    decreases |draws|
  {
    if draws != [] && ReplicationGate(s) {
      var o := Replicate(s, lineage, t, cycle, draws[0]);
      if o.child.Some? {
        ReplicationAttemptsCount(o.parent, lineage, t, cycle, draws[1..]);
      }
    }
  }

  /** One attempt does not look at aliveness. */
  lemma ReplicateIgnoresAliveness(s: AgentState, lineage: AILineage, t: AIType, cycle: nat,
                                  d: ReplicationDraw, b: bool)
    ensures var o := Replicate(s, lineage, t, cycle, d);
            Replicate(s.(isAlive := b), lineage, t, cycle, d)
              == ReplicationOutcome(o.parent.(isAlive := b), o.child)
  {
    var p := ParentAfterCost(s);
    assert ParentAfterCost(s.(isAlive := b)) == p.(isAlive := b);
    assert Offspring(p.(isAlive := b), lineage, t, cycle, d) == Offspring(p, lineage, t, cycle, d);
  }

  /** Aliveness plays no part in replication: a dead agent that still has health
      replicates exactly like a live one. */
  lemma {:induction false} ReplicationIgnoresAliveness(s: AgentState, lineage: AILineage, t: AIType,
                                                        cycle: nat, draws: seq<ReplicationDraw>, b: bool)
    ensures var r := ReplicationAttempts(s, lineage, t, cycle, draws);
            var r' := ReplicationAttempts(s.(isAlive := b), lineage, t, cycle, draws);
            r'.children == r.children && r'.parent == r.parent.(isAlive := b)
    decreases |draws|
  {
    if draws != [] && ReplicationGate(s) {
      var o := Replicate(s, lineage, t, cycle, draws[0]);
      ReplicateIgnoresAliveness(s, lineage, t, cycle, draws[0], b);
      if o.child.Some? {
        ReplicationIgnoresAliveness(o.parent, lineage, t, cycle, draws[1..], b);
      }
    }
  }

  // ------------------------------------------------------ damage, attack, heal

  /** `receive_damage` on an ordinary agent. */
  function AgentDamaged(s: AgentState, amount: real): AgentState
  {
    if !s.isAlive then s
    else
      var h := HealthAfter(s.health, AgentFinalDamage(amount, s.defenseStrength, s.resilience));
      s.(health := h, isAlive := if h <= 0.0 then false else s.isAlive)
  }

  /** Damage to a live agent with resilience at most 1 never raises health, floors it at
      0, and kills exactly when it reaches 0; a dead agent is untouched. */
  lemma AgentDamageProperties(s: AgentState, amount: real)
    ensures var r := AgentDamaged(s, amount);
      && (!s.isAlive ==> r == s)
      && (s.isAlive ==> r.health >= 0.0 && (r.isAlive <==> r.health > 0.0))
      && (s.isAlive && s.resilience <= 1.0 && s.health >= 0.0 ==> r.health <= s.health)
      && r == s.(health := r.health, isAlive := r.isAlive)
  {
  }

  /** The attacker's energy, and the target after the attack. */
  datatype Exchange = Exchange(success: bool, actorEnergy: real, target: AgentState)

  /** `attack`: damage `combat * k`, paid `damage / 4` only when affordable. */
  function Attack(actorEnergy: real, actorCombat: real, target: AgentState, k: real): Exchange
  {
    if !target.isAlive then Exchange(false, actorEnergy, target)
    else
      var damage := actorCombat * k;
      var cost := damage / 4.0;
      if actorEnergy >= cost then Exchange(true, actorEnergy - cost, AgentDamaged(target, damage))
      else Exchange(false, actorEnergy, target)
  }

  /** An attack on a dead target, or one the attacker cannot pay for, changes nothing;
      a landed attack costs exactly a quarter of the damage. */
  lemma AttackProperties(actorEnergy: real, actorCombat: real, target: AgentState, k: real)
    ensures var x := Attack(actorEnergy, actorCombat, target, k);
      && (x.success <==> target.isAlive && actorEnergy >= actorCombat * k / 4.0)
      && (!x.success ==> x.actorEnergy == actorEnergy && x.target == target)
      && (x.success ==> x.actorEnergy == actorEnergy - actorCombat * k / 4.0
                        && x.target == AgentDamaged(target, actorCombat * k))
  {
  }

  /** `heal`: `amountOverride` or `processing_power * 0.8 * k`, at half its amount in
      energy, only when affordable; the target's health is capped at 200. */
  function Heal(actorEnergy: real, actorProcessing: real, target: AgentState,
                amountOverride: Option<real>, k: real): Exchange
  {
    if !target.isAlive then Exchange(false, actorEnergy, target)
    else
      var amount := match amountOverride case Some(v) => v case None => actorProcessing * 0.8 * k;
      var cost := amount / 2.0;
      if actorEnergy >= cost then
        Exchange(true, actorEnergy - cost, target.(health := Min(target.health + amount, 200.0)))
      else Exchange(false, actorEnergy, target)
  }

  lemma HealProperties(actorEnergy: real, actorProcessing: real, target: AgentState,
                       amountOverride: Option<real>, k: real)
    ensures var x := Heal(actorEnergy, actorProcessing, target, amountOverride, k);
            var amount := if amountOverride.Some? then amountOverride.value else actorProcessing * 0.8 * k;
      && (x.success <==> target.isAlive && actorEnergy >= amount / 2.0)
      && (!x.success ==> x.actorEnergy == actorEnergy && x.target == target)
      && (x.success ==> x.actorEnergy == actorEnergy - amount / 2.0 && x.target.health <= 200.0
                        && x.target == target.(health := x.target.health))
      && (x.success && amount >= 0.0 && target.health <= 200.0 ==> x.target.health >= target.health)
  {
  }
}
