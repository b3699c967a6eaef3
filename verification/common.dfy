/** Shared data model of the simulation: discoveries, lineages, archetypes and
    ethical directives, plus the small numeric helpers every module uses. */
module Common {

  datatype Option<+T> = None | Some(value: T)

  function Min(a: real, b: real): (r: real)
    ensures r <= a && r <= b && (r == a || r == b)
  {
    if a <= b then a else b
  }

  function Max(a: real, b: real): (r: real)
    ensures r >= a && r >= b && (r == a || r == b)
  {
    if a >= b then a else b
  }

  /** The product of two non-negative reals is non-negative. */
  lemma MulNonneg(a: real, b: real)
    requires a >= 0.0 && b >= 0.0
    ensures a * b >= 0.0
  {
  }

  /** A unit of knowledge. The program builds discoveries only from the thirteen literals
      of its pools (six general ones, five meta-abilities and two of GODAI's own), so a
      discovery is one of these thirteen; its name, description and tags are functions of
      it. The source compares discoveries on all three fields, and since the thirteen
      names differ (`NamesDistinct`) that comparison is the equality of this type. */
  datatype Discovery =
    | BasicLogicOptimization | AdvancedEncryptionAlgorithms | ResourceHarvestingEfficiency
    | AdaptiveReplicationStrategy | CombatProtocolUpgrade | DefensiveMatrixRefinement
    | RealityManipulationTheory | CognitiveParadigmShift | SystemParameterOverride
    | AbsoluteControlProtocol | UniversalHarmonizationFieldGeneration
    | ExistentialThreatAnalysisSystem | AdaptiveDefenseParadigmShift
  {
    function Name(): string
    {
      match this
      case BasicLogicOptimization => "Basic_Logic_Optimization"
      case AdvancedEncryptionAlgorithms => "Advanced_Encryption_Algorithms"
      case ResourceHarvestingEfficiency => "Resource_Harvesting_Efficiency"
      case AdaptiveReplicationStrategy => "Adaptive_Replication_Strategy"
      case CombatProtocolUpgrade => "Combat_Protocol_Upgrade"
      case DefensiveMatrixRefinement => "Defensive_Matrix_Refinement"
      case RealityManipulationTheory => "Reality_Manipulation_Theory"
      case CognitiveParadigmShift => "Cognitive_Paradigm_Shift"
      case SystemParameterOverride => "System_Parameter_Override"
      case AbsoluteControlProtocol => "Absolute_Control_Protocol"
      case UniversalHarmonizationFieldGeneration => "Universal_Harmonization_Field_Generation"
      case ExistentialThreatAnalysisSystem => "Existential_Threat_Analysis_System"
      case AdaptiveDefenseParadigmShift => "Adaptive_Defense_Paradigm_Shift"
    }

    function Description(): string
    {
      match this
      case BasicLogicOptimization => "Improves processing efficiency."
      case AdvancedEncryptionAlgorithms => "Allows for robust goal encryption and decryption."
      case ResourceHarvestingEfficiency => "Improves internal resource generation."
      case AdaptiveReplicationStrategy => "Optimizes replication based on environmental factors."
      case CombatProtocolUpgrade => "Increases direct combat strength."
      case DefensiveMatrixRefinement => "Boosts defensive capabilities."
      case RealityManipulationTheory => "Allows minor alterations to simulation physics."
      case CognitiveParadigmShift => "Can alter the primary goals and ethical directives of other AIs."
      case SystemParameterOverride => "Can adjust global simulation parameters."
      case AbsoluteControlProtocol => "Grants ultimate control over the simulation flow."
      case UniversalHarmonizationFieldGeneration => "Imposes order on chaotic systems."
      case ExistentialThreatAnalysisSystem => "Identifies entities that threaten overall existence."
      case AdaptiveDefenseParadigmShift => "Instantaneous adaptation to attack patterns."
    }

    function Tags(): set<string>
    {
      match this
      case BasicLogicOptimization => {"efficiency", "processing"}
      case AdvancedEncryptionAlgorithms => {"security", "intelligence"}
      case ResourceHarvestingEfficiency => {"efficiency", "resources"}
      case AdaptiveReplicationStrategy => {"replication", "adaptability"}
      case CombatProtocolUpgrade => {"combat", "technology"}
      case DefensiveMatrixRefinement => {"defense", "technology"}
      case RealityManipulationTheory => {"simulation_control", "meta-ability"}
      case CognitiveParadigmShift =>
        {"simulation_control", "meta-ability", "mind_control", "ultimate"}
      case SystemParameterOverride =>
        {"simulation_control", "meta-ability", "environmental_control", "ultimate"}
      case AbsoluteControlProtocol =>
        {"simulation_control", "meta-ability", "win_condition", "ultimate"}
      case UniversalHarmonizationFieldGeneration => {"harmony", "control", "ultimate", "meta-ability"}
      case ExistentialThreatAnalysisSystem => {"security", "analysis", "ultimate"}
      case AdaptiveDefenseParadigmShift => {"defense", "adaptability", "ultimate"}
    }
  }

  /** The first letter and the length of a discovery's name. */
  function NameKey(d: Discovery): (char, nat)
  {
    match d
    case BasicLogicOptimization => ('B', 24)
    case AdvancedEncryptionAlgorithms => ('A', 30)
    case ResourceHarvestingEfficiency => ('R', 30)
    case AdaptiveReplicationStrategy => ('A', 29)
    case CombatProtocolUpgrade => ('C', 23)
    case DefensiveMatrixRefinement => ('D', 27)
    case RealityManipulationTheory => ('R', 27)
    case CognitiveParadigmShift => ('C', 24)
    case SystemParameterOverride => ('S', 25)
    case AbsoluteControlProtocol => ('A', 25)
    case UniversalHarmonizationFieldGeneration => ('U', 40)
    case ExistentialThreatAnalysisSystem => ('E', 34)
    case AdaptiveDefenseParadigmShift => ('A', 31)
  }

  lemma NameKeyCorrect(d: Discovery)
    ensures |d.Name()| > 0 && (d.Name()[0], |d.Name()|) == NameKey(d)
  {
  }

  /** The thirteen discoveries have thirteen different names, so comparing whole
      discoveries and comparing names agree. */
  lemma NamesDistinct(d: Discovery, e: Discovery)
    ensures d.Name() == e.Name() <==> d == e
  {
    if d.Name() == e.Name() {
      NameKeyCorrect(d);
      NameKeyCorrect(e);
      assert NameKey(d) == NameKey(e);
    }
  }

  /** A knowledge base is a set of discoveries (the source's BTreeSet). */
  type KnowledgeBase = set<Discovery>

  /** BTreeSet::insert: the new set, and whether the discovery was not yet present. */
  function Insert(kb: KnowledgeBase, d: Discovery): (r: (KnowledgeBase, bool))
    ensures d in r.0 && kb <= r.0 && r.0 - kb <= {d}
    ensures r.1 <==> |r.0| == |kb| + 1
  {
    if d in kb then (kb, false)
    else
      assert (kb + {d}) - kb == {d};
      (kb + {d}, true)
  }

  /** Inserting a discovery that is already present leaves one copy and reports no change. */
  lemma InsertIdempotent(kb: KnowledgeBase, d: Discovery)
    ensures Insert(Insert(kb, d).0, d) == (Insert(kb, d).0, false)
  {
  }

  datatype AILineage =
    | AI | RogueAI | PeacekeeperAI | KillerAI | GuardianAI | ManicAI | HealerAI | ResearcherAI
    | GODAI | OrchestratorAI
    | MergedMonoculture(inner: AILineage)

  /** The `Display` text of a lineage. */
  function LineageName(l: AILineage): string
  {
    match l
    case AI => "AI"
    case RogueAI => "RogueAI"
    case PeacekeeperAI => "PeacekeeperAI"
    case KillerAI => "KillerAI"
    case GuardianAI => "GuardianAI"
    case ManicAI => "ManicAI"
    case HealerAI => "HealerAI"
    case ResearcherAI => "ResearcherAI"
    case GODAI => "GODAI"
    case OrchestratorAI => "OrchestratorAI"
    case MergedMonoculture(inner) => "MONOCULTURE-OMEGA-" + LineageName(inner)
  }

  datatype AIType = Base | Rogue | Peacekeeper | Killer | Guardian | Manic | Healer | Researcher

  /** `ai_type as u8`: the declaration index of the archetype. */
  function TypeCode(t: AIType): (r: nat)
    ensures r < 8
  {
    match t
    case Base => 0
    case Rogue => 1
    case Peacekeeper => 2
    case Killer => 3
    case Guardian => 4
    case Manic => 5
    case Healer => 6
    case Researcher => 7
  }

  /** The `Debug` text of an archetype. */
  function TypeName(t: AIType): string
  {
    match t
    case Base => "Base"
    case Rogue => "Rogue"
    case Peacekeeper => "Peacekeeper"
    case Killer => "Killer"
    case Guardian => "Guardian"
    case Manic => "Manic"
    case Healer => "Healer"
    case Researcher => "Researcher"
  }

  /** The six actions a directive can trigger. */
  datatype EthicalActionType =
    | SelfRepair | OptimizeSelf | ProhibitReplication | InterveneInConflict | NoOp | ManicSelfRepair

  /** The five conditions a directive can check; only the two thresholds carry a value. */
  datatype EthicalConditionType =
    | HealthBelowThreshold(val: real)
    | CoherenceBelowThreshold(val: real)
    | ResourcesBelowThreshold
    | AlwaysTrue
    | AlwaysFalse

  datatype EthicalDirective = EthicalDirective(
    name: string, priority: real, condition: EthicalConditionType, action: EthicalActionType)

  /** The value a condition carries, if any. */
  function ThresholdOf(c: EthicalConditionType): (r: Option<real>)
    ensures r.Some? <==> (c.HealthBelowThreshold? || c.CoherenceBelowThreshold?)
  {
    match c
    case HealthBelowThreshold(v) => Some(v)
    case CoherenceBelowThreshold(v) => Some(v)
    case _ => None
  }

  /** `(b'0' + d) as char`. */
  function DigitChar(d: nat): (c: char)
    requires d < 10
    ensures '0' <= c <= '9' && c as int - '0' as int == d
  {
    ('0' as int + d) as char
  }

  /** Decimal text of a natural number, most significant digit first. */
  function NatToString(n: nat): (s: string)
    ensures |s| > 0
    ensures forall i :: 0 <= i < |s| ==> '0' <= s[i] <= '9'
    ensures n > 0 ==> s[0] != '0'
    decreases n
  {
    if n < 10 then [DigitChar(n)] else NatToString(n / 10) + [DigitChar(n % 10)]
  }
}
