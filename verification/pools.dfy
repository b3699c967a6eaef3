/** The static discovery pools and the meta-ability picker (src/simulation.rs). */
module Pools {
  import opened Common

  /** `get_general_discoveries_pool`, in the source's order. */
  function GeneralPool(): (pool: seq<Discovery>)
    ensures |pool| == 6
  {
    [ BasicLogicOptimization, AdvancedEncryptionAlgorithms, ResourceHarvestingEfficiency,
      AdaptiveReplicationStrategy, CombatProtocolUpgrade, DefensiveMatrixRefinement ]
  }

  /** `get_meta_abilities_pool`, in the source's order. */
  function MetaPool(): (pool: seq<Discovery>)
    ensures |pool| == 5
  {
    [ RealityManipulationTheory, CognitiveParadigmShift, SystemParameterOverride,
      AbsoluteControlProtocol, UniversalHarmonizationFieldGeneration ]
  }

  /** Every meta-ability carries the "meta-ability" tag and no general discovery does. */
  lemma MetaTagMarksMetaPool(d: Discovery)
    requires d in GeneralPool() + MetaPool()
    ensures "meta-ability" in d.Tags() <==> d in MetaPool()
  {
  }

  /** The name whose presence lets a Researcher monoculture attempt the override. */
  const WinConditionName: string := "Absolute_Control_Protocol"

  /** The source's test: some known discovery carries the win-condition name. */
  predicate HasWinCondition(kb: KnowledgeBase)
  {
    exists d :: d in kb && d.Name() == WinConditionName
  }

  /** Knowing the win condition is knowing the Absolute Control Protocol. */
  lemma WinConditionIsAbsoluteControl(kb: KnowledgeBase)
    ensures HasWinCondition(kb) <==> AbsoluteControlProtocol in kb
  {
    if HasWinCondition(kb) {
      var d :| d in kb && d.Name() == WinConditionName;
      NamesDistinct(d, AbsoluteControlProtocol);
    } else {
      assert AbsoluteControlProtocol.Name() == WinConditionName;
    }
  }

  /** Every discovery is in one of the pools or is one of GODAI's own two. */
  lemma EveryDiscoveryPooled(d: Discovery)
    ensures d in GeneralPool() || d in MetaPool()
         || d == ExistentialThreatAnalysisSystem || d == AdaptiveDefenseParadigmShift
  {
  }

  /** `get_all_possible_discoveries`: both pools and GODAI's two own discoveries,
      which is every discovery there is. */
  function AllPossibleDiscoveries(): (kb: KnowledgeBase)
    ensures forall d: Discovery :: d in kb
  {
    var kb := (set d | d in GeneralPool() + MetaPool())
      + {ExistentialThreatAnalysisSystem, AdaptiveDefenseParadigmShift};
    assert forall d: Discovery :: d in kb by {
      forall d: Discovery ensures d in kb {
        EveryDiscoveryPooled(d);
      }
    }
    kb
  }

  /** The elements of `pool` not in `known`, in pool order (the `filter` step). */
  function Unknown(pool: seq<Discovery>, known: KnowledgeBase): (r: seq<Discovery>)
    ensures |r| <= |pool|
    ensures forall d :: d in r <==> d in pool && d !in known
  {
    if pool == [] then []
    else (if pool[0] in known then [] else [pool[0]]) + Unknown(pool[1..], known)
  }

  /** `get_random_meta_ability`: a meta-ability not yet known, chosen by `pick`
      (every available ability is reachable), or None when all are known. */
  function RandomMetaAbility(known: KnowledgeBase, pick: nat): (r: Option<Discovery>)
    ensures r.Some? ==> r.value in MetaPool() && r.value !in known
    ensures r.None? <==> forall d :: d in MetaPool() ==> d in known
  {
    var available := Unknown(MetaPool(), known);
    if available == [] then None
    else Some(available[pick % |available|])
  }

  /** Every meta-ability not yet known can be the one returned. */
  lemma EveryUnknownMetaAbilityReachable(known: KnowledgeBase, d: Discovery)
    requires d in MetaPool() && d !in known
    ensures exists pick: nat :: RandomMetaAbility(known, pick) == Some(d)
  {
    var available := Unknown(MetaPool(), known);
    assert d in available;
    var i :| 0 <= i < |available| && available[i] == d;
    assert i % |available| == i;
    assert RandomMetaAbility(known, i) == Some(d);
  }

  /** The general and meta pools do not overlap. */
  lemma PoolsDisjoint()
    ensures forall d :: d in GeneralPool() ==> d !in MetaPool()
  {
  }
}
