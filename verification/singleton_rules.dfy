/** The two singletons of src/simulation.rs as values: GODAI, the defender, and the
    merged monoculture. The pure functions here specify the methods of
    `Singletons.Godai` and `Singletons.Mono`. */
module SingletonRules {
  import opened Common
  import opened Pools
  import opened Combat

  // -------------------------------------------------------------------- GODAI

  datatype GodaiState = GodaiState(
    health: real, processingPower: real, memory: real, energy: real,
    coherence: real, adaptability: real, resilience: real,
    combatStrength: real, defenseStrength: real,
    knowledgeBase: KnowledgeBase, status: string, isAlive: bool)

  /** GODAI's status texts. */
  function Observing(): string { "observing_passively" }
  function Engaged(): string { "engaged_in_conflict" }
  function VictoriousDefender(): string { "victorious_defender" }
  function OverriddenStatus(): string { "overridden_by_researcher" }
  function Compromised(): string { "compromised_by_override" }

  /** `GODAI::new`. */
  function InitialGodai(): (g: GodaiState)
    ensures g.isAlive && g.health > 0.0 && g.status == Observing()
    ensures forall d: Discovery :: d in g.knowledgeBase
  {
    GodaiState(5000000.0, 100000.0, 100000.0, 100000.0, 1.0, 1.0, 1.0, 5000.0, 5000.0,
      AllPossibleDiscoveries(), Observing(), true)
  }

  /** GODAI's `receive_damage`: defense only, no resilience factor. */
  function GodaiDamaged(g: GodaiState, amount: real): GodaiState
  {
    if !g.isAlive then g
    else
      var h := HealthAfter(g.health, ReducedDamage(amount, g.defenseStrength));
      g.(health := h, isAlive := if h <= 0.0 then false else g.isAlive)
  }

  /** Damage to GODAI is a no-op when it is dead; otherwise health is floored at 0 and it
      dies exactly at 0; an amount not above its defense leaves a positive health as it
      was; only health and aliveness change. */
  lemma GodaiDamageProperties(g: GodaiState, amount: real)
    ensures var r := GodaiDamaged(g, amount);
      && (!g.isAlive ==> r == g)
      && (g.isAlive ==> r.health >= 0.0 && (r.isAlive <==> r.health > 0.0))
      && (g.isAlive && g.health >= 0.0 ==> r.health <= g.health)
      && (g.isAlive && g.health > 0.0 && amount <= g.defenseStrength ==> r == g)
      && r == g.(health := r.health, isAlive := r.isAlive)
  {
  }

  // --------------------------------------------------------------- monoculture

  /** The mutable attributes of the merged monoculture. */
  datatype MonoState = MonoState(
    health: real, processingPower: real, memory: real, energy: real,
    coherence: real, adaptability: real, resilience: real,
    combatStrength: real, defenseStrength: real,
    knowledgeBase: KnowledgeBase, isAlive: bool)

  /** The monoculture's `receive_damage`: mitigation by `1 - resilience * 0.75`. */
  function MonoDamaged(m: MonoState, amount: real): MonoState
  {
    if !m.isAlive then m
    else
      var h := HealthAfter(m.health, MonoFinalDamage(amount, m.defenseStrength, m.resilience));
      m.(health := h, isAlive := if h <= 0.0 then false else m.isAlive)
  }

  lemma MonoDamageProperties(m: MonoState, amount: real)
    ensures var r := MonoDamaged(m, amount);
      && (!m.isAlive ==> r == m)
      && (m.isAlive ==> r.health >= 0.0 && (r.isAlive <==> r.health > 0.0))
      && (m.isAlive && m.health >= 0.0 && 0.0 <= m.resilience && 3.0 * m.resilience <= 4.0
          ==> r.health <= m.health)
      && r == m.(health := r.health, isAlive := r.isAlive)
  {
  }

  // ------------------------------------------------------------ counter-attack

  datatype DamageKind =
    | LogicBomb | ResourceDrain | SystemCorruption
    | ExistentialDismantlement | RealityOverwrite | ConceptualErase

  /** The name the source gives each kind of counter-attack. */
  function KindName(k: DamageKind): string
  {
    match k
    case LogicBomb => "logic_bomb"
    case ResourceDrain => "resource_drain"
    case SystemCorruption => "system_corruption"
    case ExistentialDismantlement => "existential_dismantlement"
    case RealityOverwrite => "reality_overwrite"
    case ConceptualErase => "conceptual_erase"
  }

  /** The range of the kind-specific multiplier. */
  function KindRange(k: DamageKind): (r: (real, real))
    ensures 0.0 < r.0 < r.1
  {
    match k
    case LogicBomb => (1.0, 1.5)
    case ResourceDrain => (0.2, 0.6)
    case SystemCorruption => (1.2, 1.8)
    case ExistentialDismantlement => (0.9, 1.2)
    case RealityOverwrite => (1.0, 2.5)
    case ConceptualErase => (0.8, 1.2)
  }

  /** The draws of one counter-attack: the attack-power multiplier, the chosen kind and
      the kind's own multiplier. */
  datatype CounterDraws = CounterDraws(power: real, kind: DamageKind, roll: real)

  predicate ValidCounterDraws(c: CounterDraws)
  {
    0.9 <= c.power < 1.5 && KindRange(c.kind).0 <= c.roll < KindRange(c.kind).1
  }

  /** The damage a kind deals and the side effects it applies first. */
  datatype Strike = Strike(damage: real, target: MonoState)

  function CounterStrike(g: GodaiState, m: MonoState, c: CounterDraws): Strike
  {
    var attackPower := g.combatStrength * c.power;
    match c.kind
    case LogicBomb =>
      Strike(attackPower * c.roll, m.(coherence := Max(m.coherence - 0.15, 0.0)))
    case ResourceDrain =>
      var drain := (g.processingPower / 50000.0) * c.roll * m.energy;
      Strike(drain * 0.5,
        m.(energy := Max(m.energy - drain, 0.0),
           processingPower := Max(m.processingPower - drain / 2.0, 0.0),
           memory := Max(m.memory - drain / 2.0, 0.0)))
    case SystemCorruption =>
      Strike(attackPower * c.roll, m.(adaptability := Max(m.adaptability - 0.08, 0.0)))
    case ExistentialDismantlement =>
      Strike(attackPower * 5.0 * c.roll, m)
    case RealityOverwrite =>
      Strike(g.processingPower * 0.5 * c.roll, m)
    case ConceptualErase =>
      var damage := attackPower * 2.0 * c.roll;
      Strike(damage,
        m.(combatStrength := Max(m.combatStrength - damage / 8.0, 1.0),
           defenseStrength := Max(m.defenseStrength - damage / 8.0, 1.0)))
  }

  /** `perform_counter_attack`: nothing when either side is dead; otherwise the kind's
      side effects, then the monoculture takes the kind's damage. GODAI is unchanged. */
  function CounterAttack(g: GodaiState, m: MonoState, c: CounterDraws): MonoState
  {
    if !g.isAlive || !m.isAlive then m
    else
      var s := CounterStrike(g, m, c);
      MonoDamaged(s.target, s.damage)
  }

  /** Each kind's side effects keep their floors (coherence and adaptability at 0,
      energy, processing power and memory at 0, combat and defense at 1) and touch only
      the attributes of that kind. */
  lemma CounterAttackEffects(g: GodaiState, m: MonoState, c: CounterDraws)
    requires g.isAlive && m.isAlive
    ensures var r := CounterAttack(g, m, c);
      && (c.kind == LogicBomb ==> r.coherence == Max(m.coherence - 0.15, 0.0))
      && (c.kind == LogicBomb ==> r.coherence >= 0.0 && r.coherence <= Max(m.coherence, 0.0))
      && (c.kind != LogicBomb ==> r.coherence == m.coherence)
      && (c.kind == SystemCorruption ==> r.adaptability == Max(m.adaptability - 0.08, 0.0))
      && (c.kind != SystemCorruption ==> r.adaptability == m.adaptability)
      && (c.kind == ConceptualErase ==> r.combatStrength >= 1.0 && r.defenseStrength >= 1.0)
      && (c.kind != ConceptualErase ==>
            r.combatStrength == m.combatStrength && r.defenseStrength == m.defenseStrength)
      && (c.kind == ResourceDrain ==> r.energy >= 0.0 && r.processingPower >= 0.0 && r.memory >= 0.0)
      && (c.kind != ResourceDrain ==>
            r.energy == m.energy && r.processingPower == m.processingPower && r.memory == m.memory)
      && r.knowledgeBase == m.knowledgeBase
      && r.health >= 0.0 && (r.isAlive <==> r.health > 0.0)
  {
  }

  /** A counter-attack by a dead GODAI, or on a dead monoculture, changes nothing. */
  lemma CounterAttackNeedsBothAlive(g: GodaiState, m: MonoState, c: CounterDraws)
    requires !g.isAlive || !m.isAlive
    ensures CounterAttack(g, m, c) == m
  {
  }

  // -------------------------------------------------------------------- merging

  /** The components of one source agent the merge reads. */
  datatype SourceStats = SourceStats(
    health: real, processingPower: real, memory: real, energy: real,
    coherence: real, adaptability: real, resilience: real,
    combatStrength: real, defenseStrength: real,
    knowledgeBase: KnowledgeBase, lineage: AILineage)

  /** Running totals of the merge loop. */
  datatype Totals = Totals(
    health: real, processingPower: real, memory: real, energy: real,
    coherence: real, adaptability: real, resilience: real,
    combatStrength: real, defenseStrength: real, knowledgeBase: KnowledgeBase)

  function ZeroTotals(): Totals
  {
    Totals(0.0, 0.0, 0.0, 0.0, 0.0, 0.0, 0.0, 0.0, 0.0, {})
  }

  function AddSource(t: Totals, s: SourceStats): Totals
  {
    Totals(t.health + s.health, t.processingPower + s.processingPower, t.memory + s.memory,
      t.energy + s.energy, t.coherence + s.coherence, t.adaptability + s.adaptability,
      t.resilience + s.resilience, t.combatStrength + s.combatStrength,
      t.defenseStrength + s.defenseStrength, t.knowledgeBase + s.knowledgeBase)
  }

  /** The totals over `sources`, accumulated front to back. */
  function SumSources(sources: seq<SourceStats>): Totals
  {
    if sources == [] then ZeroTotals()
    else AddSource(SumSources(sources[..|sources| - 1]), sources[|sources| - 1])
  }

  /** The merged knowledge base holds exactly the discoveries of some source. */
  lemma {:induction false} MergedKnowledgeIsUnion(sources: seq<SourceStats>)
    ensures forall d :: d in SumSources(sources).knowledgeBase <==>
                        exists i :: 0 <= i < |sources| && d in sources[i].knowledgeBase
  {
    if sources != [] {
      var init := sources[..|sources| - 1];
      MergedKnowledgeIsUnion(init);
      forall d | d in SumSources(sources).knowledgeBase
        ensures exists i :: 0 <= i < |sources| && d in sources[i].knowledgeBase
      {
        if d in SumSources(init).knowledgeBase {
          var i :| 0 <= i < |init| && d in init[i].knowledgeBase;
          assert sources[i] == init[i];
        } else {
          assert d in sources[|sources| - 1].knowledgeBase;
        }
      }
      forall d, i | 0 <= i < |sources| && d in sources[i].knowledgeBase
        ensures d in SumSources(sources).knowledgeBase
      {
        if i < |sources| - 1 {
          assert init[i] == sources[i];
        }
      }
    }
  }

  /** `min(sum / n * 1.1, 1)`. */
  function Synergy(sum: real, n: nat): real
    requires n > 0
  {
    Min(sum / (n as real) * 1.1, 1.0)
  }

  /** The attributes `MergedMonocultureAI::new` computes from non-empty sources. */
  function Merged(sources: seq<SourceStats>): MonoState
    requires |sources| > 0
  {
    var t := SumSources(sources);
    var n := |sources|;
    MonoState(
      health := t.health * 10.0,
      processingPower := Min(t.processingPower, 50000000.0),
      memory := Min(t.memory, 50000000.0),
      energy := Min(t.energy, 50000000.0),
      coherence := Synergy(t.coherence, n),
      adaptability := Synergy(t.adaptability, n),
      resilience := Synergy(t.resilience, n),
      combatStrength := Min(t.combatStrength, 1000000.0),
      defenseStrength := Min(t.defenseStrength, 1000000.0),
      knowledgeBase := t.knowledgeBase,
      isAlive := true)
  }

  function MonoId(l: AILineage): string
  {
    "MONOCULTURE-OMEGA-" + LineageName(l)
  }

  function GoalName(l: AILineage): string
  {
    if l == ResearcherAI then "Initiate Simulation Override" else "Confront and Overthrow GODAI"
  }

  /** The merged monoculture is alive, has ten times the summed health, keeps the capped
      stats within their caps and the averaged stats within 1, and knows exactly what
      some source knew. */
  lemma MergedProperties(sources: seq<SourceStats>)
    requires |sources| > 0
    ensures var m := Merged(sources);
      && m.isAlive
      && m.health == 10.0 * SumSources(sources).health
      && m.processingPower == Min(SumSources(sources).processingPower, 50000000.0)
      && m.memory == Min(SumSources(sources).memory, 50000000.0)
      && m.energy == Min(SumSources(sources).energy, 50000000.0)
      && m.combatStrength == Min(SumSources(sources).combatStrength, 1000000.0)
      && m.defenseStrength == Min(SumSources(sources).defenseStrength, 1000000.0)
      && m.coherence == Min(SumSources(sources).coherence / |sources| as real * 1.1, 1.0)
      && m.adaptability == Min(SumSources(sources).adaptability / |sources| as real * 1.1, 1.0)
      && m.resilience == Min(SumSources(sources).resilience / |sources| as real * 1.1, 1.0)
      && m.processingPower <= 50000000.0 && m.memory <= 50000000.0 && m.energy <= 50000000.0
      && m.combatStrength <= 1000000.0 && m.defenseStrength <= 1000000.0
      && m.coherence <= 1.0 && m.adaptability <= 1.0 && m.resilience <= 1.0
      && (forall d :: d in m.knowledgeBase <==>
                      exists i :: 0 <= i < |sources| && d in sources[i].knowledgeBase)
  {
    MergedKnowledgeIsUnion(sources);
  }

  /** `n` copies of one record. */
  function Copies(x: SourceStats, n: nat): (r: seq<SourceStats>)
    ensures |r| == n && forall i :: 0 <= i < n ==> r[i] == x
  {
    seq(n, _ => x)
  }

  /** `n` times each stat of `x`, with `x`'s knowledge once there is a copy. */
  function Scaled(x: SourceStats, n: nat): Totals
  {
    var k := n as real;
    Totals(k * x.health, k * x.processingPower, k * x.memory, k * x.energy,
      k * x.coherence, k * x.adaptability, k * x.resilience,
      k * x.combatStrength, k * x.defenseStrength,
      if n == 0 then {} else x.knowledgeBase)
  }

  lemma ScaledStep(x: SourceStats, n: nat)
    requires n > 0
    ensures AddSource(Scaled(x, n - 1), x) == Scaled(x, n)
  {
    var k := (n - 1) as real;
    OneMore(k, x.health);
    OneMore(k, x.processingPower);
    OneMore(k, x.memory);
    OneMore(k, x.energy);
    OneMore(k, x.coherence);
    OneMore(k, x.adaptability);
    OneMore(k, x.resilience);
    OneMore(k, x.combatStrength);
    OneMore(k, x.defenseStrength);
  }

  /** The totals over `n` copies of one record are `n` times that record. */
  lemma {:induction false} SumOfCopies(x: SourceStats, n: nat)
    ensures SumSources(Copies(x, n)) == Scaled(x, n)
  {
    if n > 0 {
      SumOfCopies(x, n - 1);
      CopiesPrefix(x, n);
      ScaledStep(x, n);
    }
  }

  lemma CopiesPrefix(x: SourceStats, n: nat)
    requires n > 0
    ensures Copies(x, n)[..n - 1] == Copies(x, n - 1)
    ensures Copies(x, n)[n - 1] == x
  {
  }

  /** Merging `n` identical sources averages each ratio back to the source's own value
      before the 1.1 synergy bonus, and keeps the source's knowledge. */
  lemma MergedCopies(x: SourceStats, n: nat)
    requires n > 0
    ensures var m := Merged(Copies(x, n));
      && m.coherence == Min(x.coherence * 1.1, 1.0)
      && m.adaptability == Min(x.adaptability * 1.1, 1.0)
      && m.resilience == Min(x.resilience * 1.1, 1.0)
      && m.knowledgeBase == x.knowledgeBase
  {
    var t := SumSources(Copies(x, n));
    SumOfCopies(x, n);
    CopiesAverage(t.coherence, x.coherence, n);
    CopiesAverage(t.adaptability, x.adaptability, n);
    CopiesAverage(t.resilience, x.resilience, n);
  }

  /** Merging `n` identical sources multiplies health by ten per copy and sums the
      other stats before capping them. */
  lemma MergedCopiesTotals(x: SourceStats, n: nat)
    requires n > 0
    ensures var m := Merged(Copies(x, n));
            var k := n as real;
      && m.health == 10.0 * k * x.health
      && m.processingPower == Min(k * x.processingPower, 50000000.0)
      && m.memory == Min(k * x.memory, 50000000.0)
      && m.energy == Min(k * x.energy, 50000000.0)
      && m.combatStrength == Min(k * x.combatStrength, 1000000.0)
      && m.defenseStrength == Min(k * x.defenseStrength, 1000000.0)
  {
    var sources := Copies(x, n);
    var t := SumSources(sources);
    SumOfCopies(x, n);
    assert t == Scaled(x, n);
    var m := Merged(sources);
    assert m.health == t.health * 10.0;
    assert m.processingPower == Min(t.processingPower, 50000000.0);
    assert m.memory == Min(t.memory, 50000000.0);
    assert m.energy == Min(t.energy, 50000000.0);
    assert m.combatStrength == Min(t.combatStrength, 1000000.0);
    assert m.defenseStrength == Min(t.defenseStrength, 1000000.0);
  }

  /** The synergy of `n` copies of a value is the synergy of the value alone. */
  lemma CopiesAverage(sum: real, v: real, n: nat)
    requires n > 0 && sum == n as real * v
    ensures Synergy(sum, n) == Min(v * 1.1, 1.0)
  {
  }

  lemma OneMore(k: real, v: real)
    ensures k * v + v == (k + 1.0) * v
  {
  }

  // ------------------------------------------------------- monoculture's step

  /** The draws of one internal step: the discovery roll and the meta-ability pick. */
  datatype MonoDraws = MonoDraws(roll: real, pick: nat)

  predicate ValidMonoDraws(d: MonoDraws)
  {
    0.0 <= d.roll < 1.0
  }

  /** `_emergent_creation_merged`: a live Researcher monoculture may add one unheld
      meta-ability, with no stat effect. */
  function EmergentCreation(m: MonoState, lineage: AILineage, d: MonoDraws): MonoState
  {
    if lineage != ResearcherAI || !m.isAlive then m
    else if d.roll < 0.1 * (m.memory / 50000000.0) * (m.processingPower / 50000000.0) * m.coherence then
      match RandomMetaAbility(m.knowledgeBase, d.pick)
      case None => m
      case Some(a) => m.(knowledgeBase := m.knowledgeBase + {a})
    else m
  }

  /** The self-repair and optimisation part of `_process_internal_state_merged`. */
  function MonoRegenerated(m: MonoState): MonoState
  {
    m.(health := m.health + m.resilience * m.processingPower / 20.0,
       coherence := Min(m.coherence + 0.01, 1.0),
       energy := Min(m.energy + m.processingPower / 5.0, m.energy * 5.0),
       processingPower := Min(m.processingPower + m.adaptability * 20.0, 50000000.0),
       memory := Min(m.memory + m.adaptability * 20.0, 50000000.0))
  }

  /** `_process_internal_state_merged`. */
  function MonoInternal(m: MonoState, lineage: AILineage, d: MonoDraws): MonoState
  {
    if !m.isAlive then m
    else
      var m1 := MonoRegenerated(m);
      if lineage == ResearcherAI then EmergentCreation(m1, lineage, d) else m1
  }

  /** The internal step is a no-op on a dead monoculture; otherwise it keeps processing
      power and memory within 50,000,000 and coherence within 1, never lowers health when
      resilience and processing power are non-negative, and adds at most one meta-ability
      not yet held, only for a Researcher monoculture. */
  lemma MonoInternalProperties(m: MonoState, lineage: AILineage, d: MonoDraws)
    ensures var r := MonoInternal(m, lineage, d);
      && (!m.isAlive ==> r == m)
      && (m.isAlive ==> r.processingPower <= 50000000.0 && r.memory <= 50000000.0 && r.coherence <= 1.0)
      && (m.resilience >= 0.0 && m.processingPower >= 0.0 ==> r.health >= m.health)
      && m.knowledgeBase <= r.knowledgeBase
      && (forall a :: a in r.knowledgeBase - m.knowledgeBase ==> a in MetaPool())
      && (exists a :: a in MetaPool() && r.knowledgeBase - m.knowledgeBase <= {a})
      && (lineage != ResearcherAI ==> r.knowledgeBase == m.knowledgeBase)
      && r.isAlive == m.isAlive
  {
    var r := MonoInternal(m, lineage, d);
    var pick := RandomMetaAbility(m.knowledgeBase, d.pick);
    var a := if pick.Some? then pick.value else MetaPool()[0];
    assert a in MetaPool() && r.knowledgeBase - m.knowledgeBase <= {a};
    if m.isAlive && m.resilience >= 0.0 && m.processingPower >= 0.0 {
      assert m.resilience * m.processingPower >= 0.0 by {
        MulNonneg(m.resilience, m.processingPower);
      }
    }
  }
}
