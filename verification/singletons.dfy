/** GODAI and the merged monoculture as objects (src/simulation.rs). Each method is
    proved equal to the function of `SingletonRules` that specifies it. */
module Singletons {
  import opened Common
  import opened Pools
  import SingletonRules

  class Mono {
    const id: string
    const sourceLineage: AILineage
    const primaryGoalName: string

    var health: real
    var processingPower: real
    var memory: real
    var energy: real
    var coherence: real
    var adaptability: real
    var resilience: real
    var combatStrength: real
    var defenseStrength: real
    var knowledgeBase: KnowledgeBase
    var isAlive: bool

    function State(): SingletonRules.MonoState
      reads this
    {
      SingletonRules.MonoState(health, processingPower, memory, energy, coherence, adaptability,
        resilience, combatStrength, defenseStrength, knowledgeBase, isAlive)
    }

    /** `MergedMonocultureAI::new`: one pass sums every source, then the sums are capped
        or averaged with the 1.1 synergy. The source panics on an empty input. */
    constructor (sources: seq<SingletonRules.SourceStats>)
      requires |sources| > 0
      ensures sourceLineage == sources[0].lineage
      ensures id == SingletonRules.MonoId(sources[0].lineage)
      ensures primaryGoalName == SingletonRules.GoalName(sources[0].lineage)
      ensures State() == SingletonRules.Merged(sources)
    {
      var dominant := sources[0].lineage;
      var count := |sources| as real;
      var sumHealth, sumProcessing, sumMemory, sumEnergy := 0.0, 0.0, 0.0, 0.0;
      var sumCoherence, sumAdaptability, sumResilience := 0.0, 0.0, 0.0;
      var sumCombat, sumDefense := 0.0, 0.0;
      var merged: KnowledgeBase := {};
      var i := 0;
      while i < |sources|
        invariant 0 <= i <= |sources|
        invariant SingletonRules.SumSources(sources[..i]) == SingletonRules.Totals(
          sumHealth, sumProcessing, sumMemory, sumEnergy, sumCoherence, sumAdaptability,
          sumResilience, sumCombat, sumDefense, merged)
      {
        var s := sources[i];
        sumHealth := sumHealth + s.health;
        sumProcessing := sumProcessing + s.processingPower;
        sumMemory := sumMemory + s.memory;
        sumEnergy := sumEnergy + s.energy;
        sumCoherence := sumCoherence + s.coherence;
        sumAdaptability := sumAdaptability + s.adaptability;
        sumResilience := sumResilience + s.resilience;
        sumCombat := sumCombat + s.combatStrength;
        sumDefense := sumDefense + s.defenseStrength;
        merged := merged + s.knowledgeBase;
        assert sources[..i + 1][..i] == sources[..i];
        i := i + 1;
      }
      assert sources[..i] == sources;

      var synergy := 1.1;
      id := "MONOCULTURE-OMEGA-" + LineageName(dominant);
      sourceLineage := dominant;
      health := sumHealth * 10.0;
      isAlive := true;
      processingPower := Min(sumProcessing, 50000000.0);
      memory := Min(sumMemory, 50000000.0);
      energy := Min(sumEnergy, 50000000.0);
      coherence := Min(sumCoherence / count * synergy, 1.0);
      adaptability := Min(sumAdaptability / count * synergy, 1.0);
      resilience := Min(sumResilience / count * synergy, 1.0);
      combatStrength := Min(sumCombat, 1000000.0);
      defenseStrength := Min(sumDefense, 1000000.0);
      knowledgeBase := merged;
      primaryGoalName := if dominant == ResearcherAI then "Initiate Simulation Override"
                         else "Confront and Overthrow GODAI";
    }

    /** The monoculture's `receive_damage`. */
    method ReceiveDamage(amount: real)
      modifies this`health, this`isAlive
      ensures State() == SingletonRules.MonoDamaged(old(State()), amount)
    {
      if !isAlive { return; }
      var reduced := Max(amount - defenseStrength, 0.0);
      var finalDamage := reduced * (1.0 - resilience * 0.75);
      health := Max(health - finalDamage, 0.0);
      if health <= 0.0 {
        isAlive := false;
      }
    }

    /** `_emergent_creation_merged`. */
    method EmergentCreation(d: SingletonRules.MonoDraws)
      requires SingletonRules.ValidMonoDraws(d)
      modifies this`knowledgeBase
      ensures State() == SingletonRules.EmergentCreation(old(State()), sourceLineage, d)
    {
      if sourceLineage != ResearcherAI || !isAlive { return; }
      var chance := 0.1 * (memory / 50000000.0) * (processingPower / 50000000.0) * coherence;
      if d.roll < chance {
        var ability := RandomMetaAbility(knowledgeBase, d.pick);
        if ability.Some? {
          knowledgeBase := knowledgeBase + {ability.value};
        }
      }
    }

    /** `_process_internal_state_merged`. */
    method ProcessInternalState(d: SingletonRules.MonoDraws)
      requires SingletonRules.ValidMonoDraws(d)
      modifies this
      ensures State() == SingletonRules.MonoInternal(old(State()), sourceLineage, d)
    {
      if !isAlive { return; }
      var healingRate := resilience * processingPower / 20.0;
      health := health + healingRate;
      coherence := Min(coherence + 0.01, 1.0);
      energy := Min(energy + processingPower / 5.0, energy * 5.0);
      processingPower := Min(processingPower + adaptability * 20.0, 50000000.0);
      memory := Min(memory + adaptability * 20.0, 50000000.0);
      assert State() == SingletonRules.MonoRegenerated(old(State()));
      if sourceLineage == ResearcherAI {
        EmergentCreation(d);
      }
    }
  }

  class Godai {
    var health: real
    var processingPower: real
    var memory: real
    var energy: real
    var coherence: real
    var adaptability: real
    var resilience: real
    var combatStrength: real
    var defenseStrength: real
    var knowledgeBase: KnowledgeBase
    var status: string
    var isAlive: bool

    function State(): SingletonRules.GodaiState
      reads this
    {
      SingletonRules.GodaiState(health, processingPower, memory, energy, coherence, adaptability,
        resilience, combatStrength, defenseStrength, knowledgeBase, status, isAlive)
    }

    /** `GODAI::new`. */
    constructor ()
      ensures State() == SingletonRules.InitialGodai()
    {
      health := 5000000.0;
      processingPower := 100000.0;
      memory := 100000.0;
      energy := 100000.0;
      coherence := 1.0;
      adaptability := 1.0;
      resilience := 1.0;
      combatStrength := 5000.0;
      defenseStrength := 5000.0;
      knowledgeBase := AllPossibleDiscoveries();
      status := SingletonRules.Observing();
      isAlive := true;
    }

    /** GODAI's `receive_damage`. */
    method ReceiveDamage(amount: real)
      modifies this`health, this`isAlive
      ensures State() == SingletonRules.GodaiDamaged(old(State()), amount)
    {
      if !isAlive { return; }
      var reduced := Max(amount - defenseStrength, 0.0);
      health := Max(health - reduced, 0.0);
      if health <= 0.0 {
        isAlive := false;
      }
    }

    /** `perform_counter_attack`: the kind's side effects on the target, then the
        target takes the kind's damage. GODAI itself is not changed. */
    method PerformCounterAttack(target: Mono, c: SingletonRules.CounterDraws)
      requires SingletonRules.ValidCounterDraws(c)
      modifies target
      ensures target.State() == SingletonRules.CounterAttack(State(), old(target.State()), c)
    {
      if !isAlive || !target.isAlive { return; }
      var attackPower := combatStrength * c.power;
      var damage: real;
      match c.kind {
        case LogicBomb =>
          damage := attackPower * c.roll;
          target.coherence := Max(target.coherence - 0.15, 0.0);
        case ResourceDrain =>
          var drainMultiplier := processingPower / 50000.0;
          var drain := drainMultiplier * c.roll * target.energy;
          target.energy := Max(target.energy - drain, 0.0);
          target.processingPower := Max(target.processingPower - drain / 2.0, 0.0);
          target.memory := Max(target.memory - drain / 2.0, 0.0);
          damage := drain * 0.5;
        case SystemCorruption =>
          damage := attackPower * c.roll;
          target.adaptability := Max(target.adaptability - 0.08, 0.0);
        case ExistentialDismantlement =>
          damage := attackPower * 5.0 * c.roll;
        case RealityOverwrite =>
          damage := processingPower * 0.5 * c.roll;
        case ConceptualErase =>
          damage := attackPower * 2.0 * c.roll;
          target.combatStrength := Max(target.combatStrength - damage / 8.0, 1.0);
          target.defenseStrength := Max(target.defenseStrength - damage / 8.0, 1.0);
      }
      assert SingletonRules.CounterStrike(State(), old(target.State()), c)
          == SingletonRules.Strike(damage, target.State());
      target.ReceiveDamage(damage);
    }
  }
}
