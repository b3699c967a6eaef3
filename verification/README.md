# AI-SIMULATION engine, modelled in Dafny

This project models the engine of AI-SIMULATION. In that simulation a population of
agents ("AIs") of eight archetypes runs a per-cycle step. The step covers upkeep,
ethical directives, discovery rolls and a death check. Agents also replicate
(up to five attempts per pass), fight and heal.

Above the population stand two singletons:
- **GODAI**, the defender.
- An optional **monoculture**. It forms when one lineage reaches 100,000 members and
  a 0.999 share of the population.

A non-Researcher monoculture fights GODAI in combat turns. A Researcher monoculture
holding `Absolute_Control_Protocol` tries to override the simulation instead.

The `Simulation` resource advances one cycle at a time. It records write-once
population milestones and sets an end reason. The driver systems of `src/main.rs` run:
- the internal step of every agent;
- the replication pass with its staging buffer;
- the death filter;
- the census that feeds `process_one_cycle`, once per unit of speed.

The model is layered the way the source is:

- **Value models.** `AgentRules`, `SingletonRules` and `SimRules` state each update as a
  function on a value record (`AgentState`, `GodaiState`, `MonoState`, `SimState`).
  The properties the source promises are proved about these functions as lemmas.
- **Classes that update in place.**
  - `Agents.Agent`, `Singletons.Godai`, `Singletons.Mono` and
    `Orchestrator.Simulation` hold the mutable fields.
  - Each method is proved to leave the object's abstract state (`State()` /
    `Abstract()`) equal to the function of the value model applied to the old state.
- **Driver systems.** `Driver` holds the systems of `src/main.rs` as plain loops over
  a sequence of agents. `Format` holds the thousand-separator formatter.

Every random draw of the source (`thread_rng`, `choose`) is a parameter with the
precondition of its range. A `gen::<f32>() < p` test becomes a roll in `[0, 1)`
compared with `p`. A choice from a list is an index. `f32` is modelled as `real`.

The end reason (`simulation_over_reason: Option<String>`) is modelled as
`Option<EndReason>`. `EndReason` is a datatype with one constructor per message the
source formats. `EndReason.Message()` renders the exact text of each. Discoveries are
likewise an enumeration of the thirteen records the source defines, with `Name()`,
`Description()` and `Tags()` giving each record's fields. The GODAI status strings
are the functions `SingletonRules.Observing` … `SingletonRules.Compromised`.

## Model

| member | source | states |
|---|---|---|
| Common.Min | src/ai.rs:180-182 | `f32::min`: the result is one of the two arguments and below both |
| Common.Max | src/ai.rs:182 | `f32::max`: the result is one of the two arguments and above both |
| Common.NamesDistinct | src/common.rs:6-11 | two discoveries are equal exactly when their names are equal: the derived whole-record equality agrees with name equality on the thirteen records |
| Common.NameKeyCorrect | src/common.rs:6-11 | every discovery name is nonempty and is identified by its first letter and its length |
| Common.Insert | src/common.rs:78 | `BTreeSet::insert`: the discovery is present afterwards, nothing else is added, and the flag is true exactly when the set grew by one |
| Common.InsertIdempotent | src/common.rs:78 | inserting an equal discovery a second time leaves the set unchanged and reports false: a knowledge base holds a single copy |
| Common.ThresholdOf | src/common.rs:104-111 | of the five condition variants exactly the health and coherence thresholds carry a value |
| Common.TypeCode | src/ai.rs:35-37 | `ai_type as u8` is the declaration index, below 8 |
| Common.DigitChar | src/main.rs:62 | `b'0' + d` is the ASCII digit whose value is `d` |
| Common.NatToString | src/main.rs:58-66 | the decimal text of a number is nonempty, all digits, with no leading zero unless it is "0" |
| Directives.InitialDirectives | src/simulation.rs:334-379 | the seeding list is the three baseline directives, plus the intervene directive appended last for a Peacekeeper |
| Directives.InsertPermutes | src/ai.rs:142 | one insertion step of the sort adds exactly the inserted directive: multiset and length |
| Directives.InsertMembers | src/ai.rs:142 | the list after insertion holds exactly the old members and the new one |
| Directives.InsertKeepsSorted | src/ai.rs:142 | inserting into a list sorted by non-increasing priority keeps it sorted |
| Directives.InsertStable | src/ai.rs:142 | among the directives of any one priority, insertion puts the new one first and keeps the old ones in their order |
| Directives.SortByPriorityCorrect | src/ai.rs:142 | the sort yields a permutation ordered by non-increasing priority that keeps the input order among equal priorities |
| Directives.NewDirectivesSorted | src/ai.rs:52-142 | the directives built by `AIEntity::new` are the seeding list of the type, sorted |
| Directives.PeacekeeperOrder | src/ai.rs:100-142 | after sorting, a Peacekeeper's directives are integrity (1.0), intervene (0.9), optimise (0.8), prohibit (0.05) |
| Directives.SeededPeacekeeperUnsorted | src/simulation.rs:379 | seeding appends the 0.9 intervene directive after the 0.05 one and never sorts: the seeded list is not in priority order |
| Pools.GeneralPool | src/simulation.rs:797-809 | the general pool has six discoveries |
| Pools.MetaPool | src/simulation.rs:816-827 | the meta pool has five discoveries |
| Pools.MetaTagMarksMetaPool | src/simulation.rs:797-827 | among pooled discoveries the `meta-ability` tag marks exactly the meta pool |
| Pools.PoolsDisjoint | src/simulation.rs:797-827 | no general discovery is a meta ability |
| Pools.WinConditionIsAbsoluteControl | src/simulation.rs:466 | the name test for `Absolute_Control_Protocol` holds exactly when that record is known |
| Pools.EveryDiscoveryPooled | src/simulation.rs:840-847 | every discovery is in one of the pools or is one of the two GODAI-only records |
| Pools.AllPossibleDiscoveries | src/simulation.rs:840-847 | the set of all discoveries contains every discovery |
| Pools.Unknown | src/simulation.rs:831 | the filter keeps exactly the pool entries not already known |
| Pools.RandomMetaAbility | src/simulation.rs:829-837 | a picked ability is a meta ability not already held, and there is none exactly when every meta ability is held |
| Pools.EveryUnknownMetaAbilityReachable | src/simulation.rs:829-837 | every meta ability not yet held is the result of some pick |
| Combat.ReducedDamage | src/simulation.rs:71 | `(amount - defense).max(0.0)`: nonnegative, at least `amount - defense`, zero when the defense covers the blow |
| Combat.AgentFinalDamage | src/ai.rs:441-442 | an agent's final damage is nonnegative for resilience ≤ 2 and never above the reduced amount for resilience ≥ 0 |
| Combat.MonoFinalDamage | src/simulation.rs:234-235 | the monoculture's final damage is nonnegative for resilience ≤ 4/3 and never above the reduced amount for resilience ≥ 0 |
| Combat.HealthAfter | src/ai.rs:443-449 | health after a blow is floored at 0, does not rise for a nonnegative blow, and is 0 exactly when the blow covers it |
| Combat.AttackExample | src/ai.rs:441-442 | an attacker of strength 100 with a roll in [0.9, 1.3) deals between 52.5 and 82.5 to a target of defense 20 and resilience 0.5 |
| Combat.GodaiAbsorbsExample | src/simulation.rs:71-72 | a 30-point blow on defense 50 leaves GODAI's health unchanged |
| AgentRules.Repaired | src/ai.rs:179-183 | a repair caps health at 200 and coherence at 1, floors energy at 0, and changes only those and the last action |
| AgentRules.RepairMonotone | src/ai.rs:179-182 | with nonnegative rates, resilience and energy and health ≤ 200, a repair never lowers health or coherence and never raises energy |
| AgentRules.SelfRepairNeverLowersHealth | src/ai.rs:179-182 | `_self_repair` keeps health ≤ 200, coherence ≤ 1 and energy ≥ 0, and does not lower health |
| AgentRules.ManicSelfRepairNeverLowersHealth | src/ai.rs:195-198 | `_self_repair_manic` keeps the same bounds and does not lower health |
| AgentRules.Optimized | src/ai.rs:211-221 | with energy ≥ 5: power becomes `min(power + 2, 200)`, memory `min(memory + 2, 200)`, adaptability `min(adaptability + 0.01, 1)`, energy drops by exactly 5 and nothing else but the action changes; otherwise only energy changes, by +5, which stays under the 300 cap |
| AgentRules.GainDiscoveryIdempotent | src/ai.rs:237 | gaining a discovery twice is gaining it once, and a known discovery changes nothing |
| AgentRules.GainDiscoveryEffects | src/ai.rs:237-246 | a new discovery joins the base; combat, defense, power and memory each move by 0 or 8, rising exactly when the discovery carries their tag; resilience and replication efficiency stay within 1 and are unchanged without their tag; health, energy, coherence, adaptability, aliveness and replication count do not move |
| AgentRules.Upkeep | src/ai.rs:278-285 | upkeep floors power and memory at 0, caps energy at 5000, and leaves the knowledge and aliveness alone |
| AgentRules.UpkeepHealthUnfloored | src/ai.rs:283 | the starvation penalty has no floor: health 0.005 with no processing power ends negative |
| AgentRules.CollectActions | src/ai.rs:288-301 | every directive is evaluated against the same post-upkeep state; the actions collected are exactly those of the directives whose condition holds |
| AgentRules.ApplyActionsFrame | src/ai.rs:303-312 | running the collected actions touches neither aliveness, knowledge, combat, defense, resilience, replication efficiency nor the replication count |
| AgentRules.CycleStep | src/ai.rs:251-340 | `process_cycle_internal_state` on values: manic instability, upkeep, the directive actions, then the discovery rolls; its properties are `CycleStepAliveness` and `CycleStepKnowledge` |
| AgentRules.CycleStepAliveness | src/ai.rs:268-339 | a dead agent is left unchanged; afterwards the agent is alive exactly when it was alive and has health > 0 and coherence > 0.01 |
| AgentRules.GainDiscoveryKnowledge | src/ai.rs:237 | gaining adds exactly that discovery to the base and keeps aliveness |
| AgentRules.DiscoveryRollsKnowledge | src/ai.rs:315-330 | the rolls only add knowledge: what is new lies within `{general draw, m}` for one meta ability `m`, a non-Researcher gains at most the general draw, and at most two entries are added |
| AgentRules.CycleStepKnowledge | src/ai.rs:251-340 | over a whole cycle the knowledge base only grows, by at most the general draw and one meta ability, and a non-Researcher gains at most the general draw |
| AgentRules.Replicate | src/ai.rs:344-428 | `attempt_replication` on values: the gate and roll, the parent's costs and the child; its properties are `ReplicationSuccess` and `ReplicationFailure` |
| AgentRules.Offspring | src/ai.rs:367-423 | the child bundle derived from the paid parent; `ReplicationSuccess` states its stats |
| AgentRules.SuccessChance | src/ai.rs:364-365 | the replication chance never exceeds 0.99 |
| AgentRules.SuccessChanceRange | src/ai.rs:363-365 | for nonnegative efficiency and power the chance lies in [0, 0.99] and is positive exactly when both are |
| AgentRules.SuccessChanceExamples | src/ai.rs:364-365 | efficiency 0.1 with power 50 or 25 gives chance 0.99, the cap |
| AgentRules.ReplicationSuccess | src/ai.rs:362-423 | on success: health > 1, energy > 5 and the roll under the chance; parent health and energy drop but stay ≥ 1; the count rises by 1; the child has 0.8× health and 0.7× energy of the paid parent, efficiency min(1.5×, 0.95), bounded ratios, the two baseline directives, combat and defense 8, and the parent's lineage and type |
| AgentRules.ReplicationFailure | src/ai.rs:362-427 | no child exactly when the gate or the roll fails, and then only the last action changes |
| AgentRules.JitterNotRefloored | src/ai.rs:375-405 | the jitter is applied after the floor of 10, so a child's power can end below 10 |
| AgentRules.ReplicationAttemptsCount | src/main.rs:302-316 | a pass yields at most one child per attempt, raises the count by the number of children, never takes the count past 1000, keeps aliveness, and its children carry the parent's lineage, type and the cycle |
| AgentRules.ReplicateIgnoresAliveness | src/ai.rs:344-428 | one attempt does not read aliveness |
| AgentRules.ReplicationIgnoresAliveness | src/main.rs:301-317 | the pass is gated on health alone, never on aliveness |
| AgentRules.AgentDamageProperties | src/ai.rs:440-453 | damage to a dead agent changes nothing; otherwise health is floored at 0, death comes exactly at 0, resilience ≤ 1 never raises health, and only health and aliveness change |
| AgentRules.AttackProperties | src/ai.rs:467-482 | an attack succeeds exactly when the target is alive and the actor can pay damage/4; a failed one changes neither energy nor target; a successful one pays damage/4 and applies the damage |
| AgentRules.HealProperties | src/ai.rs:495-512 | a heal succeeds exactly when the target is alive and the actor can pay amount/2; the target's health is capped at 200, rises for a nonnegative amount, and is the only field of it to change |
| Agents.Agent.constructor | src/main.rs:338-352 | a spawned agent carries exactly the components of its bundle |
| Agents.Agent.Repair | src/ai.rs:179-183 | the in-place repair leaves the agent's state equal to `Repaired` of the old state |
| Agents.Agent.SelfRepair | src/ai.rs:172-184 | `_self_repair` in place equals `SelfRepaired` |
| Agents.Agent.SelfRepairManic | src/ai.rs:188-200 | `_self_repair_manic` in place equals `ManicSelfRepaired` |
| Agents.Agent.OptimizeSelf | src/ai.rs:204-222 | `_optimize_self` in place equals `Optimized` |
| Agents.Agent.GainDiscovery | src/ai.rs:226-247 | `_gain_discovery` in place equals `GainDiscovery` |
| Agents.Agent.ApplyStatBoosts | src/ai.rs:240-243 | the uncapped tag boosts in place equal `StatBoosts` |
| Agents.Agent.ApplyCappedBoosts | src/ai.rs:244-245 | the capped tag boosts in place equal `CappedBoosts` |
| Agents.Agent.ManicInstability | src/ai.rs:271-275 | the manic self-damage in place equals `ManicInstability` |
| Agents.Agent.Upkeep | src/ai.rs:278-285 | upkeep in place equals `Upkeep` |
| Agents.Agent.CollectActions | src/ai.rs:288-301 | the first loop returns `CollectActions` of the directives and the current state, changing nothing |
| Agents.Agent.RunActions | src/ai.rs:303-312 | the second loop leaves the state equal to `ApplyActions` of the collected list in order |
| Agents.Agent.GeneralRoll | src/ai.rs:315-319 | the general discovery roll in place equals `GeneralRoll` |
| Agents.Agent.MetaRoll | src/ai.rs:322-330 | the Researcher meta roll in place equals `MetaRoll` |
| Agents.Agent.ProcessCycleInternalState | src/ai.rs:251-340 | the whole per-cycle step in place equals `CycleStep`, so `CycleStepAliveness` and `CycleStepKnowledge` hold of the object |
| Agents.Agent.AttemptReplication | src/ai.rs:344-428 | the parent's new state and the returned child are those of `Replicate` |
| Agents.Agent.DeriveChild | src/ai.rs:367-423 | the child's components are `Offspring` of the paid parent |
| Agents.Agent.ReceiveDamage | src/ai.rs:432-454 | damage intake in place equals `AgentDamaged` |
| Agents.Agent.Attack | src/ai.rs:458-483 | the result, the actor's energy and the target's health and aliveness are those of `Attack`; the last action is set only when the target was alive |
| Agents.Agent.Heal | src/ai.rs:487-513 | the result, the actor's energy and the target's health are those of `Heal`; the last action is set only when the target is alive |
| SingletonRules.InitialGodai | src/simulation.rs:52-67 | GODAI starts alive, healthy, observing, and knowing every discovery |
| SingletonRules.GodaiDamageProperties | src/simulation.rs:69-82 | damage to a dead GODAI changes nothing; otherwise health is floored at 0 and death comes exactly at 0; a blow no larger than the defense changes nothing; only health and aliveness change, with no resilience factor |
| SingletonRules.MonoDamageProperties | src/simulation.rs:232-244 | damage to a dead monoculture changes nothing; otherwise health is floored at 0, death comes exactly at 0, and for resilience in [0, 4/3] health never rises |
| SingletonRules.KindRange | src/simulation.rs:98-130 | each of the six counter-attack damage kinds has a positive, nonempty roll range |
| SingletonRules.CounterAttack | src/simulation.rs:85-139 | `perform_counter_attack` on values; its properties are `CounterAttackEffects` and `CounterAttackNeedsBothAlive` |
| SingletonRules.CounterAttackEffects | src/simulation.rs:85-139 | a logic bomb sets coherence to `max(coherence - 0.15, 0)`, system corruption sets adaptability to `max(adaptability - 0.08, 0)`, conceptual erase keeps combat and defense ≥ 1, resource drain keeps energy, power and memory ≥ 0; every other kind leaves each of those attributes unchanged; knowledge is kept and the target dies exactly at health 0 |
| SingletonRules.CounterAttackNeedsBothAlive | src/simulation.rs:86 | no counter-attack unless both sides are alive |
| SingletonRules.MergedKnowledgeIsUnion | src/simulation.rs:180-193 | the summed knowledge base is the union of the sources' bases |
| SingletonRules.Merged | src/simulation.rs:162-216 | the attributes `MergedMonocultureAI::new` computes; its properties are `MergedProperties`, `MergedCopies` and `MergedCopiesTotals` |
| SingletonRules.MergedProperties | src/simulation.rs:162-216 | a merged monoculture is alive, has 10× the summed health, takes `min(sum, 5e7)` for power, memory and energy and `min(sum, 1e6)` for combat and defense, takes `min(sum / n * 1.1, 1)` for coherence, adaptability and resilience, and knows exactly the union of its sources |
| SingletonRules.Copies | src/simulation.rs:643-647 | `vec![x; count]` has `count` entries, all `x` |
| SingletonRules.SumOfCopies | src/simulation.rs:182-193 | summing `n` copies of a record gives `n` times its stats |
| SingletonRules.MergedCopies | src/simulation.rs:205-210 | merging `n` identical sources gives each ratio as `min(v * 1.1, 1)` of the single source's value `v`, independent of `n`, and keeps its knowledge |
| SingletonRules.MergedCopiesTotals | src/simulation.rs:200-209 | merging `n` identical sources gives health `10 n h` and each capped stat as `min(n v, cap)` |
| SingletonRules.MonoInternal | src/simulation.rs:263-277 | `_process_internal_state_merged` on values; its properties are `MonoInternalProperties` |
| SingletonRules.MonoInternalProperties | src/simulation.rs:247-277 | the internal step leaves a dead monoculture alone, caps power and memory at 5e7 and coherence at 1, never lowers health, adds at most one meta ability and only for a Researcher, and keeps aliveness |
| Singletons.Mono.constructor | src/simulation.rs:162-230 | the summing loop builds exactly `Merged` of the sources, with lineage, id and goal from element 0 |
| Singletons.Mono.ReceiveDamage | src/simulation.rs:232-244 | damage intake in place equals `MonoDamaged` |
| Singletons.Mono.EmergentCreation | src/simulation.rs:247-260 | meta-ability self-discovery in place equals `EmergentCreation` |
| Singletons.Mono.ProcessInternalState | src/simulation.rs:263-277 | the internal step in place equals `MonoInternal` |
| Singletons.Godai.constructor | src/simulation.rs:52-67 | a new GODAI is `InitialGodai` |
| Singletons.Godai.ReceiveDamage | src/simulation.rs:69-82 | damage intake in place equals `GodaiDamaged` |
| Singletons.Godai.PerformCounterAttack | src/simulation.rs:85-139 | the target's new state is `CounterAttack` of GODAI and its old state |
| SimRules.FormationPick | src/simulation.rs:631-632 | the pick is a census entry that qualifies, and there is none exactly when no entry qualifies |
| SimRules.FormationPickFirst | src/simulation.rs:631-667 | the pick is the first qualifying entry in iteration order |
| SimRules.QualifyingShare | src/simulation.rs:632 | a qualifying count is at least 0.999 of the total |
| SimRules.AtMostOneQualifies | src/simulation.rs:631-632 | when the per-lineage counts sum to at most the total, no two lineages qualify, so the iteration order does not matter |
| SimRules.Form | src/simulation.rs:628-669 | `check_and_form_monoculture` on values; its properties are `FormProperties` and `FormationEngages` |
| SimRules.FormProperties | src/simulation.rs:628-669 | a monoculture forms exactly when there is none, the total is nonzero and some lineage has count ≥ 100,000 and share ≥ 0.999; it is then `Merged` of that many default records of the first qualifying lineage, alive and named after it; only the monoculture and GODAI's status change, the status can only become engaged, and a Researcher monoculture leaves GODAI unchanged |
| SimRules.FormationEngages | src/simulation.rs:651-656 | a non-Researcher monoculture formed against a GODAI of combat below 8e6 engages it |
| SimRules.CombatTurn | src/simulation.rs:672-697 | `handle_combat_monoculture_vs_godai` on values; its properties are the four `CombatTurn…` lemmas |
| SimRules.CombatTurnGodaiFalls | src/simulation.rs:678-687 | when the attack kills GODAI the turn ends: GODAI takes the blow, the monoculture is untouched and the reason is "defeated the GODAI" |
| SimRules.CombatTurnGodaiStands | src/simulation.rs:678-697 | otherwise GODAI counter-attacks; a monoculture that dies sets the reason and the status victorious, one that survives changes neither |
| SimRules.CombatTurnGate | src/simulation.rs:673 | no combat turn unless both sides are alive |
| SimRules.CombatTurnFrame | src/simulation.rs:672-697 | a turn never changes GODAI's combat or defense, never revives it, and keeps the monoculture alive when GODAI falls |
| SimRules.Override | src/simulation.rs:700-724 | `handle_simulation_override` on values; its properties are `OverrideBands` and the four `Override…` lemmas |
| SimRules.OverrideBands | src/simulation.rs:708-723 | full override exactly above 1.2× resistance, partial exactly in (0.9×, 1.2×], failure otherwise |
| SimRules.ExactlyOnePointTwoIsPartial | src/simulation.rs:708-713 | a strength of exactly 1.2× resistance is only a partial success |
| SimRules.OverrideGate | src/simulation.rs:701 | no override unless both are alive and the monoculture is a Researcher |
| SimRules.OverrideSucceeds | src/simulation.rs:708-712 | a full override kills GODAI, sets its status overridden and sets the reason |
| SimRules.OverrideWeakens | src/simulation.rs:713-718 | a partial override multiplies GODAI's health, power and memory by 0.3 and sets its status compromised |
| SimRules.OverrideFails | src/simulation.rs:719-722 | a failed override multiplies the monoculture's health by 0.6 and kills it only at health ≤ 0 |
| SimRules.OverrideFrame | src/simulation.rs:700-724 | an override never changes GODAI's combat or defense and never revives it |
| SimRules.ThresholdsStrictlyIncreasing | src/simulation.rs:491-494 | the milestone list is strictly increasing, so its sort and dedup change nothing |
| SimRules.MilestonesProperties | src/simulation.rs:490-507 | milestones only grow; afterwards every listed threshold ≤ the population is present; each new one is a listed threshold ≤ the population; a second check adds nothing |
| SimRules.EndConditions | src/simulation.rs:727-740 | `check_for_simulation_end_conditions` on values; its properties are `EndConditionsProperties` |
| SimRules.EndConditionsProperties | src/simulation.rs:727-740 | the check changes only the reason and never overwrites one; with no reason yet and no agents left it sets extinction exactly when GODAI is dead and no monoculture is stored, monoculture victory when GODAI is dead and the stored monoculture alive, and "GODAI Defended" when GODAI is alive and the stored monoculture dead; in every other case, including GODAI and the stored monoculture both dead, nothing changes |
| SimRules.MonoStep | src/simulation.rs:462-482 | the take / process / reinsert step on values; its properties are `MonoStepProperties` |
| SimRules.MonoStepProperties | src/simulation.rs:462-482 | after the take / process / reinsert step any stored monoculture is alive and is the one that was taken; cycle, milestones and running are kept; GODAI's combat and defense are kept and it is never revived |
| SimRules.ProcessOneCycle | src/simulation.rs:451-486 | `process_one_cycle` on values; its properties are `ProcessOneCycleProperties` |
| SimRules.ProcessOneCycleProperties | src/simulation.rs:451-486 | a stopped or ended simulation is unchanged; otherwise the cycle rises by exactly 1, any stored monoculture is alive, milestones grow to cover the population, and an existing reason is never overwritten |
| SimRules.Archetypes | src/simulation.rs:316-325 | there are eight seed archetypes |
| SimRules.SeedBundleProperties | src/simulation.rs:329-442 | a seed agent is alive with health 150, energy 200, no knowledge, count 0, efficiency 0.8 for every type, ratios in (0, 1], the unsorted seeding directives, the current cycle, and the archetype's lineage |
| SimRules.NatToStringInjective | src/simulation.rs:332 | different numbers have different decimal texts |
| SimRules.SeedIdsDistinct | src/simulation.rs:332 | seed ids of different indices differ |
| SimRules.GetTwoMut | src/simulation.rs:857-871 | two references are returned exactly when the indices differ and are in bounds, and then in the order asked |
| Orchestrator.Simulation.constructor | src/simulation.rs:298-312 | a new simulation is `InitialSim`, running at speed 1 |
| Orchestrator.Simulation.ProcessOneCycle | src/simulation.rs:451-486 | `process_one_cycle` in place equals `SimRules.ProcessOneCycle` and keeps the speed, so `ProcessOneCycleProperties` holds of the resource; a stored monoculture is the old one or newly formed |
| Orchestrator.Simulation.CheckAndFormMonoculture | src/simulation.rs:628-669 | the formation loop leaves the resource equal to `Form`, with a freshly built monoculture |
| Orchestrator.Simulation.RunMonoculture | src/simulation.rs:462-482 | the take / process / reinsert step equals `MonoStep` |
| Orchestrator.Simulation.HandleCombat | src/simulation.rs:672-697 | one combat turn in place equals `CombatTurn` |
| Orchestrator.Simulation.CounterPhase | src/simulation.rs:689-696 | the counter-attack half of the turn equals `AfterCounter` of the counter-attacked monoculture |
| Orchestrator.Simulation.HandleSimulationOverride | src/simulation.rs:700-724 | override resolution in place equals `Override` |
| Orchestrator.Simulation.CheckPopulationMilestones | src/simulation.rs:490-507 | the milestone loop leaves exactly `MilestonesAfter` |
| Orchestrator.Simulation.CheckEndConditions | src/simulation.rs:727-740 | the end check in place equals `EndConditions` |
| Orchestrator.Simulation.SeedInitialAis | src/simulation.rs:315-446 | the `k`-th seed is `SeedBundle` of `k`, its archetype pick and the current cycle |
| Format.FormatThousandSeparator | src/main.rs:52-67 | the digit loop and the reversal return `Sep` of the decimal digits |
| Format.SepCons | src/main.rs:59-61 | one more digit in front opens a new group exactly when the digits so far are a nonempty whole number of groups |
| Format.SepRoundTrip | src/main.rs:58-66 | removing the commas from the grouped text gives the digits back |
| Format.SepShape | src/main.rs:58-66 | grouping adds (digits − 1) / 3 commas, and a position holds a comma exactly when a whole number of four-character blocks follows it |
| Format.FormatProperties | src/main.rs:52-67 | 0 gives "0"; for every number the commas removed give its decimal digits; there are (digits − 1) / 3 commas, none first or last, and a comma exactly every fourth place from the right, so every group after the first has three digits |
| Format.FormatExample | src/main.rs:52-67 | 1200005 is written "1,200,005" |
| Driver.InternalStateSystem | src/main.rs:178-276 | with the simulation open, every agent's state is its `CycleStep`; otherwise nothing changes |
| Driver.Parents | src/main.rs:295-299 | the parents' view lists every agent's state, lineage and type in query order |
| Driver.ReplicateParent | src/main.rs:301-318 | one parent's turn leaves it and returns the children of `ParentReplication`: gated on health > 0, up to five attempts, stopping at the first failed gate or attempt |
| Driver.ReplicationSystem | src/main.rs:279-354 | with the simulation open, the staging buffer is `Staged` of the parents as they were and every parent's state is its pass result; the spawned agents are new and carry exactly the staged bundles; with it closed nothing happens |
| Driver.StageChildren | src/main.rs:294-319 | the parent pass leaves every parent at its pass result and stages all children in order, before any is spawned |
| Driver.SpawnAll | src/main.rs:320-353 | one new agent per staged bundle, in order |
| Driver.StagedProperties | src/main.rs:294-318 | a pass stages at most five children per parent, all born in the current cycle, and no parent's count passes 1000 |
| Driver.Members | src/main.rs:409 | the census view lists every agent's aliveness and lineage in query order |
| Driver.Census | src/main.rs:407-414 | the loop counts exactly the live agents and tallies them by lineage |
| Driver.TallyCounts | src/main.rs:410-412 | a lineage is in the map exactly when it has a live agent, and then with the number of its live agents |
| Driver.CountsInOrderEntries | src/main.rs:408-412 | every census entry is positive and counts the live agents of its lineage |
| Driver.CensusSum | src/main.rs:407-414 | the per-lineage counts sum to the total |
| Driver.DeathSystem | src/main.rs:357-371 | with the simulation open the agents left are `Survivors`; otherwise all of them |
| Driver.SurvivorsExact | src/main.rs:365-370 | an agent remains exactly when it is alive, and as many remain as the census counts |
| Driver.SpeedCycles | src/main.rs:415 | `speed as u32` is 0 below 1, the floor of the speed inside the range, and saturates at exactly 2^32 − 1 from there up |
| Driver.RunCyclesProperties | src/main.rs:415-417 | repeated cycles leave a stopped or ended simulation unchanged, count each cycle once until a reason is set, keep any reason and the running flag, only grow milestones, and keep any stored monoculture alive |
| Driver.GlobalSimulationUpdate | src/main.rs:400-418 | the census of the live agents followed by ⌊speed⌋ cycles leaves the resource at `RunCycles` of the old state, with the speed unchanged |
| Driver.RunSpeedCycles | src/main.rs:415-417 | one `process_one_cycle` per draw with the same census leaves the resource at `RunCycles` of the old state, with the speed unchanged |

## Left out

- Bevy, egui and console output are not modelled. This covers sprites, cameras, the movement and visual systems, the UI, `simulation_end_system`, `main`, `print_final_summary`, and every `eprintln!` and `println!`.
- The `AtomicU64` interval counters are not modelled: they are tallies with no effect on the state.
- `Goal` values, `CoreAttributes`, and the attribute computation of `AIEntity::new` are not modelled: their results are discarded. Only the directive sort of `new` is modelled, as `Directives.NewDirectives`.
- `decide_action_for_ai`, `scan_environment_for_ai_from_snapshot` and `EnvironmentScanData` are not modelled: they are never called.
- `MAX_CYCLES` and `LOG_INTERVAL` are not modelled: they are declared and never enforced.
- Random draws are parameters and their distributions are not modelled. Generated replica ids (`Uuid`) are opaque strings supplied with the draw.
- `f32` is modelled as `real`. Rounding, overflow to infinity and NaN are not represented. In particular, `count as f32 / total as f32` is an exact ratio.
- The `u32`, `u64` and `usize` counters are unbounded naturals. Only the `simulation_speed as u32` cast is written out with its saturation (`Driver.SpeedCycles`).
- The `BTreeSet` order of a knowledge base is not modelled: it is a `set`. The derived ordering of `Discovery` is therefore absent, and only equality is stated.
- The `HashMap` iteration order of the lineage census is a parameter (`order`) that lists every lineage once. `SimRules.AtMostOneQualifies` shows formation does not depend on it whenever the counts sum to at most the total, as the census guarantees.
- Formation's qualifying test compares `count / total ≥ 0.999` as a real ratio, not through `f32`.
- The simulation's end reason is an `Option<EndReason>` rather than a string; `EndReason.Message()` gives the source's string for each case.
- `SingletonRules.CounterStrike`: the counter-attack's fallback arm (`_ => attack_power`) is unreachable. The choice is one of the six listed kinds, so the model has no seventh case.
- Two branches stay in the model even though no run reaches them, because a stored monoculture is always alive (`SimRules.MonoStepProperties`): the "GODAI Defended" end condition (stated on its own in `SimRules.EndConditionsProperties`) and the "Monoculture X was defeated." reason of the take step.
- `Singletons.Mono.constructor` and `SingletonRules.Merged`: the panic on an empty list of sources is the precondition `|sources| > 0`. The only caller, formation, passes at least 100,000 sources.
- `Orchestrator.Simulation.CheckPopulationMilestones` does not perform the sort and dedup of the threshold list, because the list is already strictly increasing (`SimRules.ThresholdsStrictlyIncreasing`).
- `Agents.Agent.Attack`: actor and target may be the same agent (the source borrows distinct components). The model allows that aliasing with field-level frames rather than forbidding it.
- `Driver.ReplicationSystem`: spawned positions and colours are not modelled.
