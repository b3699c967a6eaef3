/** The `Simulation` orchestrator of src/simulation.rs as a value: one cycle is a gate,
    the cycle count, monoculture formation, the monoculture's turn (its internal step,
    then an override attempt or a combat turn against GODAI), the population milestones
    and the end conditions. These functions specify `Simulation.Simulation`. */
module SimRules {
  import opened Common
  import opened Pools
  import opened Directives
  import opened AgentRules
  import opened SingletonRules

  const MonocultureMinCount: nat := 100000
  const DominanceThreshold: real := 0.999

  /** One entry of the census map: a lineage and its number of live agents. */
  datatype LineageCount = LineageCount(lineage: AILineage, count: nat)

  /** The monoculture as the orchestrator sees it. */
  datatype MonoRec = MonoRec(id: string, lineage: AILineage, state: MonoState)

  datatype SimState = SimState(
    godai: GodaiState, mono: Option<MonoRec>, cycle: nat, reason: Option<EndReason>,
    milestones: set<nat>, running: bool)

  /** `Simulation::new`. */
  function InitialSim(): SimState
  {
    SimState(InitialGodai(), None, 0, None, {}, true)
  }

  /** The draws of one cycle: the monoculture's internal step, its attack multiplier in
      [0.9, 1.5), GODAI's counter-attack and the two override multipliers in [0.9, 1.1). */
  datatype SimDraws = SimDraws(
    mono: MonoDraws, attackRoll: real, counter: CounterDraws,
    strengthRoll: real, resistanceRoll: real)

  predicate ValidSimDraws(d: SimDraws)
  {
    && ValidMonoDraws(d.mono) && 0.9 <= d.attackRoll < 1.5 && ValidCounterDraws(d.counter)
    && 0.9 <= d.strengthRoll < 1.1 && 0.9 <= d.resistanceRoll < 1.1
  }

  // ------------------------------------------------------------ end reasons

  /** Why the simulation ended. The source stores the rendered `Message`. */
  datatype EndReason =
    | GodaiDefeated(id: string)
    | MonoDefeated(id: string)
    | SimulationOverridden(id: string)
    | StoredMonoDead(id: string)
    | Extinction
    | GodaiDefended(id: string)
    | MonoVictory(id: string)
  {
    function Message(): string
    {
      match this
      case GodaiDefeated(id) => id + " (MONOCULTURE) HAS DEFEATED THE GODAI!"
      case MonoDefeated(id) => "GODAI HAS DEFEATED THE " + id + " (MONOCULTURE)!"
      case SimulationOverridden(id) =>
        id + " (RESEARCHER MONOCULTURE) HAS SUCCESSFULLY OVERRIDDEN THE SIMULATION!"
      case StoredMonoDead(id) => "Monoculture " + id + " was defeated."
      case Extinction => "Extinction: All AIs (individual and monoculture) and GODAI eliminated."
      case GodaiDefended(id) =>
        "GODAI Defended: Monoculture " + id + " was defeated, and no individual AIs remain."
      case MonoVictory(id) =>
        "Monoculture Victory: " + id + " defeated/overrode GODAI, and no individual AIs remain."
    }
  }

  // ---------------------------------------------------------------- formation

  /** The formation test for one lineage's count. */
  predicate Qualifies(count: nat, total: nat)
  {
    total > 0 && count >= MonocultureMinCount && count as real / total as real >= DominanceThreshold
  }

  /** The first census entry, in iteration order, that qualifies. */
  function FormationPick(counts: seq<LineageCount>, total: nat): (r: Option<LineageCount>)
    ensures r.Some? ==> r.value in counts && Qualifies(r.value.count, total)
    ensures r.None? <==> forall i :: 0 <= i < |counts| ==> !Qualifies(counts[i].count, total)
  {
    if counts == [] then None
    else if Qualifies(counts[0].count, total) then Some(counts[0])
    else FormationPick(counts[1..], total)
  }

  /** The pick is the first qualifying entry: every entry before it fails the test. */
  lemma {:induction false} FormationPickFirst(counts: seq<LineageCount>, total: nat)
    requires FormationPick(counts, total).Some?
    ensures exists i :: 0 <= i < |counts| && counts[i] == FormationPick(counts, total).value
                        && forall j :: 0 <= j < i ==> !Qualifies(counts[j].count, total)
  {
    if !Qualifies(counts[0].count, total) {
      var rest := counts[1..];
      FormationPickFirst(rest, total);
      var i :| 0 <= i < |rest| && rest[i] == FormationPick(rest, total).value
               && forall j :: 0 <= j < i ==> !Qualifies(rest[j].count, total);
      assert counts[i + 1] == rest[i];
      forall j | 0 <= j < i + 1 ensures !Qualifies(counts[j].count, total) {
        if j > 0 { assert counts[j] == rest[j - 1]; }
      }
    } else {
      assert counts[0] == FormationPick(counts, total).value;
    }
  }

  /** The placeholder record formation merges `count` copies of. */
  function DefaultSource(l: AILineage): SourceStats
  {
    SourceStats(150.0, 20.0, 20.0, 200.0, 0.85, 0.85, 0.85, 8.0, 8.0, {}, l)
  }

  /** `check_and_form_monoculture`. */
  function Form(s: SimState, total: nat, counts: seq<LineageCount>): SimState
  {
    if total == 0 || s.mono.Some? then s
    else
      match FormationPick(counts, total)
      case None => s
      case Some(lc) =>
        var m := Merged(Copies(DefaultSource(lc.lineage), lc.count));
        var engage := lc.lineage != ResearcherAI && m.combatStrength > s.godai.combatStrength * 0.1;
        s.(mono := Some(MonoRec(MonoId(lc.lineage), lc.lineage, m)),
           godai := if engage then s.godai.(status := Engaged()) else s.godai)
  }

  function SumCounts(counts: seq<LineageCount>): nat
  {
    if counts == [] then 0 else SumCounts(counts[..|counts| - 1]) + counts[|counts| - 1].count
  }

  lemma {:induction false} SumCountsTwo(counts: seq<LineageCount>, i: nat, j: nat)
    requires i < j < |counts|
    ensures counts[i].count + counts[j].count <= SumCounts(counts)
  {
    var n := |counts| - 1;
    var prefix := counts[..n];
    if j < n {
      SumCountsTwo(prefix, i, j);
    } else {
      SumCountsOne(prefix, i);
    }
  }

  lemma {:induction false} SumCountsOne(counts: seq<LineageCount>, i: nat)
    requires i < |counts|
    ensures counts[i].count <= SumCounts(counts)
  {
    var n := |counts| - 1;
    if i < n {
      SumCountsOne(counts[..n], i);
    }
  }

  /** A qualifying count is at least 0.999 of the total. */
  lemma QualifyingShare(count: nat, total: nat)
    requires Qualifies(count, total)
    ensures count as real >= DominanceThreshold * total as real
  {
    var q := count as real / total as real;
    assert count as real == q * total as real;
  }

  /** When the per-lineage counts add up to at most the total, at most one entry can
      qualify: two would hold more than 1.99 of the total between them. */
  lemma AtMostOneQualifies(counts: seq<LineageCount>, total: nat, i: nat, j: nat)
    requires SumCounts(counts) <= total
    requires i < j < |counts|
    ensures !(Qualifies(counts[i].count, total) && Qualifies(counts[j].count, total))
  {
    if Qualifies(counts[i].count, total) && Qualifies(counts[j].count, total) {
      QualifyingShare(counts[i].count, total);
      QualifyingShare(counts[j].count, total);
      SumCountsTwo(counts, i, j);
      assert false;
    }
  }

  /** Formation happens exactly when there is no monoculture, the total is positive and
      some entry qualifies; the monoculture then merges that many default records of the
      first qualifying entry's lineage, and is alive. A Researcher monoculture, which seeks
      to override rather than fight, leaves GODAI untouched. */
  lemma FormProperties(s: SimState, total: nat, counts: seq<LineageCount>)
    ensures var r := Form(s, total, counts);
      && (s.mono.None? && total > 0 && (exists i :: 0 <= i < |counts| && Qualifies(counts[i].count, total)) ==>
            && r.mono.Some?
            && r.mono.value.lineage == FormationPick(counts, total).value.lineage
            && r.mono.value.state ==
                 Merged(Copies(DefaultSource(r.mono.value.lineage), FormationPick(counts, total).value.count)))
      && ((forall i :: 0 <= i < |counts| ==> !Qualifies(counts[i].count, total)) ==> r == s)
      && (s.mono.Some? || total == 0 ==> r == s)
      && (FormationPick(counts, total).Some? && FormationPick(counts, total).value.lineage == ResearcherAI ==>
            r.godai == s.godai)
      && (r.mono != s.mono ==>
            && s.mono.None? && total > 0 && r.mono.Some?
            && r.mono.value.state.isAlive
            && r.mono.value.id == MonoId(r.mono.value.lineage)
            && exists i :: 0 <= i < |counts| && counts[i].lineage == r.mono.value.lineage
                           && counts[i].count >= MonocultureMinCount
                           && counts[i].count as real >= DominanceThreshold * total as real)
      && r == s.(mono := r.mono, godai := r.godai)
      && r.godai == s.godai.(status := r.godai.status)
      && (r.godai.status != s.godai.status ==> r.godai.status == Engaged())
  {
    var r := Form(s, total, counts);
    if r.mono != s.mono {
      var lc := FormationPick(counts, total).value;
      QualifyingShare(lc.count, total);
      var i :| 0 <= i < |counts| && counts[i] == lc;
    }
  }

  /** A non-Researcher monoculture formed from at least 100,000 default records has
      combat 800,000 or more, so against any GODAI with combat below 8,000,000 (GODAI
      starts at 5,000 and nothing changes it) it engages. */
  lemma FormationEngages(s: SimState, total: nat, counts: seq<LineageCount>)
    requires total > 0 && s.mono.None?
    requires FormationPick(counts, total).Some?
    requires FormationPick(counts, total).value.lineage != ResearcherAI
    requires s.godai.combatStrength < 8000000.0
    ensures Form(s, total, counts).godai.status == Engaged()
  {
    var lc := FormationPick(counts, total).value;
    var x := DefaultSource(lc.lineage);
    SumOfCopies(x, lc.count);
    assert SumSources(Copies(x, lc.count)).combatStrength == lc.count as real * 8.0;
  }

  // --------------------------------------------------------------- combat turn

  /** GODAI, the monoculture and the end reason after one step of the monoculture. */
  datatype Turn = Turn(godai: GodaiState, mono: MonoState, reason: Option<EndReason>)

  /** The monoculture's strike: its combat strength times the attack multiplier. */
  function AttackDamage(m: MonoState, roll: real): real
  {
    m.combatStrength * roll
  }

  /** `handle_combat_monoculture_vs_godai`: the monoculture strikes first; a GODAI that
      dies ends the simulation without a counter-attack; otherwise GODAI counter-attacks
      and a monoculture that dies ends the simulation with GODAI victorious. */
  function CombatTurn(g: GodaiState, id: string, m: MonoState, reason: Option<EndReason>, d: SimDraws): Turn
  {
    if !m.isAlive || !g.isAlive then Turn(g, m, reason)
    else
      var g1 := GodaiDamaged(g, AttackDamage(m, d.attackRoll));
      if !g1.isAlive then
        Turn(g1, m.(isAlive := true), Some(GodaiDefeated(id)))
      else AfterCounter(g1, id, CounterAttack(g1, m, d.counter), reason)
  }

  /** The end of a combat turn, once GODAI has counter-attacked. */
  function AfterCounter(g1: GodaiState, id: string, m1: MonoState, reason: Option<EndReason>): Turn
  {
    if !m1.isAlive then Turn(g1.(status := VictoriousDefender()), m1, Some(MonoDefeated(id)))
    else Turn(g1, m1, reason)
  }

  /** The monoculture strikes first; a GODAI that falls to that strike gets no
      counter-attack, the monoculture is marked alive and the simulation ends. */
  lemma CombatTurnGodaiFalls(g: GodaiState, id: string, m: MonoState, reason: Option<EndReason>, d: SimDraws)
    requires m.isAlive && g.isAlive
    requires !GodaiDamaged(g, AttackDamage(m, d.attackRoll)).isAlive
    ensures var t := CombatTurn(g, id, m, reason, d);
      && t.godai == GodaiDamaged(g, AttackDamage(m, d.attackRoll))
      && t.mono == m && t.reason == Some(GodaiDefeated(id))
  {
  }

  /** A GODAI that survives the strike counter-attacks; a monoculture that dies of it
      ends the simulation with GODAI "victorious_defender". */
  lemma CombatTurnGodaiStands(g: GodaiState, id: string, m: MonoState, reason: Option<EndReason>, d: SimDraws)
    requires m.isAlive && g.isAlive
    requires GodaiDamaged(g, AttackDamage(m, d.attackRoll)).isAlive
    ensures var t := CombatTurn(g, id, m, reason, d);
      var g1 := GodaiDamaged(g, AttackDamage(m, d.attackRoll));
      && t.mono == CounterAttack(g1, m, d.counter)
      && (!t.mono.isAlive ==>
            t.godai == g1.(status := VictoriousDefender()) && t.reason == Some(MonoDefeated(id)))
      && (t.mono.isAlive ==> t.godai == g1 && t.reason == reason)
  {
  }

  /** Nothing happens unless both sides are alive. */
  lemma CombatTurnGate(g: GodaiState, id: string, m: MonoState, reason: Option<EndReason>, d: SimDraws)
    ensures !m.isAlive || !g.isAlive ==> CombatTurn(g, id, m, reason, d) == Turn(g, m, reason)
  {
  }

  /** A combat turn never changes GODAI's combat or defense, never revives it, and a
      GODAI killed in the turn leaves the monoculture alive. */
  lemma CombatTurnFrame(g: GodaiState, id: string, m: MonoState, reason: Option<EndReason>, d: SimDraws)
    ensures var t := CombatTurn(g, id, m, reason, d);
      && t.godai.combatStrength == g.combatStrength
      && t.godai.defenseStrength == g.defenseStrength
      && (!g.isAlive ==> !t.godai.isAlive)
      && (m.isAlive && g.isAlive && !t.godai.isAlive ==> t.mono.isAlive)
  {
  }

  // ------------------------------------------------------------------ override

  datatype OverrideOutcome = Overridden | Weakened | Repelled

  /** The comparison of `handle_simulation_override`, with strict thresholds. */
  function OverrideResult(strength: real, resistance: real): OverrideOutcome
  {
    if strength > resistance * 1.2 then Overridden
    else if strength > resistance * 0.9 then Weakened
    else Repelled
  }

  /** Each outcome holds on exactly its band: above 1.2, in (0.9, 1.2], at most 0.9. */
  lemma OverrideBands(strength: real, resistance: real)
    ensures OverrideResult(strength, resistance) == Overridden <==> strength > 1.2 * resistance
    ensures OverrideResult(strength, resistance) == Weakened
            <==> 0.9 * resistance < strength <= 1.2 * resistance
    ensures OverrideResult(strength, resistance) == Repelled
            <==> strength <= 0.9 * resistance && strength <= 1.2 * resistance
  {
  }

  /** A strength of exactly 1.2 times a positive resistance only weakens GODAI. */
  lemma ExactlyOnePointTwoIsPartial(resistance: real)
    requires resistance > 0.0
    ensures OverrideResult(1.2 * resistance, resistance) == Weakened
  {
  }

  /** The monoculture's override strength for a multiplier `roll`. */
  function OverrideStrength(m: MonoState, roll: real): real
  {
    m.processingPower * m.memory * m.coherence * roll
  }

  /** GODAI's resistance for a multiplier `roll`. */
  function Resistance(g: GodaiState, roll: real): real
  {
    g.processingPower * g.memory * g.coherence * roll
  }

  /** `handle_simulation_override`. */
  function Override(g: GodaiState, id: string, lineage: AILineage, m: MonoState,
                    reason: Option<EndReason>, d: SimDraws): Turn
  {
    if !m.isAlive || !g.isAlive || lineage != ResearcherAI then Turn(g, m, reason)
    else
      match OverrideResult(OverrideStrength(m, d.strengthRoll), Resistance(g, d.resistanceRoll))
      case Overridden =>
        Turn(g.(isAlive := false, status := OverriddenStatus()), m,
             Some(SimulationOverridden(id)))
      case Weakened =>
        Turn(g.(health := g.health * 0.3, processingPower := g.processingPower * 0.3,
                memory := g.memory * 0.3, status := Compromised()), m, reason)
      case Repelled =>
        var h := m.health * 0.6;
        Turn(g, m.(health := h, isAlive := if h <= 0.0 then false else m.isAlive), reason)
  }

  /** The override is attempted only by a live Researcher monoculture against a live
      GODAI, and its outcome depends only on the strength and the resistance. */
  lemma OverrideGate(g: GodaiState, id: string, lineage: AILineage, m: MonoState,
                     reason: Option<EndReason>, d: SimDraws)
    ensures !m.isAlive || !g.isAlive || lineage != ResearcherAI ==>
              Override(g, id, lineage, m, reason, d) == Turn(g, m, reason)
  {
  }

  /** Above 1.2 times the resistance GODAI dies, its status becomes
      "overridden_by_researcher" and the simulation ends. */
  lemma OverrideSucceeds(g: GodaiState, id: string, m: MonoState, reason: Option<EndReason>, d: SimDraws)
    requires m.isAlive && g.isAlive
    requires OverrideStrength(m, d.strengthRoll) > 1.2 * Resistance(g, d.resistanceRoll)
    ensures var t := Override(g, id, ResearcherAI, m, reason, d);
      && !t.godai.isAlive && t.godai.status == OverriddenStatus()
      && t.mono == m && t.reason == Some(SimulationOverridden(id))
  {
  }

  /** In (0.9, 1.2] times the resistance GODAI keeps 0.3 of its health, processing
      power and memory and is marked "compromised_by_override". */
  lemma OverrideWeakens(g: GodaiState, id: string, m: MonoState, reason: Option<EndReason>, d: SimDraws)
    requires m.isAlive && g.isAlive
    requires 0.9 * Resistance(g, d.resistanceRoll) < OverrideStrength(m, d.strengthRoll)
                                                     <= 1.2 * Resistance(g, d.resistanceRoll)
    ensures var t := Override(g, id, ResearcherAI, m, reason, d);
      && t.godai == g.(health := 0.3 * g.health, processingPower := 0.3 * g.processingPower,
                       memory := 0.3 * g.memory, status := Compromised())
      && t.mono == m && t.reason == reason
  {
  }

  /** At most 0.9 times the resistance the monoculture keeps 0.6 of its health, which
      never kills a monoculture whose health was positive. */
  lemma OverrideFails(g: GodaiState, id: string, m: MonoState, reason: Option<EndReason>, d: SimDraws)
    requires m.isAlive && g.isAlive
    requires OverrideStrength(m, d.strengthRoll) <= 0.9 * Resistance(g, d.resistanceRoll)
    requires OverrideStrength(m, d.strengthRoll) <= 1.2 * Resistance(g, d.resistanceRoll)
    ensures var t := Override(g, id, ResearcherAI, m, reason, d);
      && t.godai == g && t.mono.health == 0.6 * m.health && t.reason == reason
      && (m.health > 0.0 ==> t.mono.isAlive)
  {
  }

  /** No override outcome touches GODAI's combat or defense or revives it. */
  lemma OverrideFrame(g: GodaiState, id: string, lineage: AILineage, m: MonoState,
                      reason: Option<EndReason>, d: SimDraws)
    ensures var t := Override(g, id, lineage, m, reason, d);
      && t.godai.combatStrength == g.combatStrength
      && t.godai.defenseStrength == g.defenseStrength
      && (!g.isAlive ==> !t.godai.isAlive)
  {
  }

  // ----------------------------------------------------------- monoculture turn

  /** A live monoculture's turn: its internal step, then, for a Researcher monoculture
      holding the win condition while GODAI is not yet compromised, an override attempt,
      and for any other lineage a combat turn while GODAI is engaged. */
  function LiveTurn(g: GodaiState, mr: MonoRec, reason: Option<EndReason>, d: SimDraws): Turn
  {
    var m1 := MonoInternal(mr.state, mr.lineage, d.mono);
    if mr.lineage == ResearcherAI then
      if HasWinCondition(m1.knowledgeBase) && g.status != Compromised() then
        Override(g, mr.id, mr.lineage, m1, reason, d)
      else Turn(g, m1, reason)
    else if g.status == Engaged() then CombatTurn(g, mr.id, m1, reason, d)
    else Turn(g, m1, reason)
  }

  /** The take / process / reinsert step of `process_one_cycle`: the monoculture is put
      back only if it is still alive. */
  function MonoStep(s: SimState, d: SimDraws): SimState
  {
    match s.mono
    case None => s
    case Some(mr) =>
      if mr.state.isAlive then
        var t := LiveTurn(s.godai, mr, s.reason, d);
        s.(godai := t.godai, reason := t.reason,
           mono := if t.mono.isAlive then Some(mr.(state := t.mono)) else None)
      else
        s.(reason := Some(StoredMonoDead(mr.id)), mono := None)
  }

  // ---------------------------------------------------------------- milestones

  /** The population thresholds `check_population_milestones` walks. */
  function Thresholds(): seq<nat>
  {
    [1000, 5000, 10000, 50000, 100000, 200000, 500000, 1000000, 2000000, 5000000, 10000000]
  }

  /** The list is strictly increasing, so its `sort_unstable` and `dedup` change nothing. */
  lemma ThresholdsStrictlyIncreasing()
    ensures forall i, j :: 0 <= i < j < |Thresholds()| ==> Thresholds()[i] < Thresholds()[j]
  {
  }

  /** The thresholds of `ts` that a population of `pop` has reached. */
  function Reached(ts: seq<nat>, pop: nat): set<nat>
  {
    set t | t in ts && t <= pop
  }

  function MilestonesAfter(ms: set<nat>, pop: nat): set<nat>
  {
    ms + Reached(Thresholds(), pop)
  }

  /** Milestones are write-once: the set only grows, afterwards holds every threshold
      the population has reached, adds nothing else, and a second check with the same
      population adds nothing. */
  lemma MilestonesProperties(ms: set<nat>, pop: nat)
    ensures var r := MilestonesAfter(ms, pop);
      && ms <= r
      && (forall t :: t in Thresholds() && t <= pop ==> t in r)
      && (forall t :: t in r && t !in ms ==> t in Thresholds() && t <= pop)
      && MilestonesAfter(r, pop) == r
  {
  }

  // ------------------------------------------------------------ end conditions

  /** `check_for_simulation_end_conditions`: the first two checks, then the third,
      which may replace what they set. */
  function EndConditions(s: SimState, total: nat): SimState
  {
    if s.reason.Some? then s
    else
      var r1 :=
        if total == 0 && s.mono.None? && !s.godai.isAlive then Some(Extinction)
        else if s.mono.Some? && !s.mono.value.state.isAlive && s.godai.isAlive && total == 0 then
          Some(GodaiDefended(s.mono.value.id))
        else s.reason;
      var r2 :=
        if !s.godai.isAlive && s.mono.Some? && s.mono.value.state.isAlive && total == 0 then
          Some(MonoVictory(s.mono.value.id))
        else r1;
      s.(reason := r2)
  }

  /** The end check changes only the reason and never overwrites one already set. With
      no reason yet and no agents left, each of the three endings is set exactly in its
      own situation, and otherwise (GODAI alive with no dead monoculture stored, or GODAI
      and the stored monoculture both dead) nothing changes. While any stored monoculture is alive
      (which `process_one_cycle` guarantees) "GODAI Defended" cannot occur. */
  lemma EndConditionsProperties(s: SimState, total: nat)
    ensures var r := EndConditions(s, total);
      && r == s.(reason := r.reason)
      && (s.reason.Some? ==> r.reason == s.reason)
      && (r.reason != s.reason ==> total == 0 && r.reason.Some?)
      && (s.reason.None? && total == 0 && s.mono.None? && !s.godai.isAlive ==>
            r.reason == Some(Extinction))
      && (s.reason.None? && total == 0 && !s.godai.isAlive && s.mono.Some? && s.mono.value.state.isAlive ==>
            r.reason == Some(MonoVictory(s.mono.value.id)))
      && (s.reason.None? && total == 0 && s.godai.isAlive && s.mono.Some? && !s.mono.value.state.isAlive ==>
            r.reason == Some(GodaiDefended(s.mono.value.id)))
      && (s.reason.None? && total == 0 && s.godai.isAlive && (s.mono.Some? ==> s.mono.value.state.isAlive) ==>
            r == s)
      && (s.reason.None? && total == 0 && !s.godai.isAlive && s.mono.Some? && !s.mono.value.state.isAlive ==>
            r == s)
      && ((s.mono.Some? ==> s.mono.value.state.isAlive) ==>
            r.reason == s.reason || r.reason == Some(Extinction)
            || (s.mono.Some? && r.reason == Some(MonoVictory(s.mono.value.id))))
  {
  }

  // ---------------------------------------------------------------- one cycle

  /** `process_one_cycle`. */
  function ProcessOneCycle(s: SimState, total: nat, counts: seq<LineageCount>, d: SimDraws): SimState
  {
    if s.reason.Some? || !s.running then s
    else
      var s1 := s.(cycle := s.cycle + 1);
      var s2 := if s1.mono.None? then Form(s1, total, counts) else s1;
      var s3 := MonoStep(s2, d);
      EndConditions(s3.(milestones := MilestonesAfter(s3.milestones, total)), total)
  }

  lemma MonoStepProperties(s: SimState, d: SimDraws)
    ensures var r := MonoStep(s, d);
      && (r.mono.Some? ==> r.mono.value.state.isAlive)
      && (r.mono.Some? ==> s.mono.Some? && r.mono.value.id == s.mono.value.id
                           && r.mono.value.lineage == s.mono.value.lineage)
      && r.cycle == s.cycle && r.milestones == s.milestones && r.running == s.running
      && r.godai.combatStrength == s.godai.combatStrength
      && r.godai.defenseStrength == s.godai.defenseStrength
      && (!s.godai.isAlive ==> !r.godai.isAlive)
  {
    match s.mono
    case None =>
    case Some(mr) =>
      if mr.state.isAlive {
        var m1 := MonoInternal(mr.state, mr.lineage, d.mono);
        MonoInternalProperties(mr.state, mr.lineage, d.mono);
        CombatTurnFrame(s.godai, mr.id, m1, s.reason, d);
        OverrideFrame(s.godai, mr.id, mr.lineage, m1, s.reason, d);
      }
  }

  /** A paused or finished simulation is left as it is. Otherwise the cycle count goes
      up by exactly one, the reason once set is never replaced, any monoculture left
      stored is alive, the milestones only grow, GODAI's combat and defense never change
      and a dead GODAI stays dead. */
  lemma ProcessOneCycleProperties(s: SimState, total: nat, counts: seq<LineageCount>, d: SimDraws)
    ensures var r := ProcessOneCycle(s, total, counts, d);
      && (s.reason.Some? || !s.running ==> r == s)
      && (s.reason.None? && s.running ==>
            && r.cycle == s.cycle + 1
            && (r.mono.Some? ==> r.mono.value.state.isAlive)
            && s.milestones <= r.milestones
            && (forall t :: t in Thresholds() && t <= total ==> t in r.milestones))
      && r.running == s.running
      && (s.reason.Some? ==> r.reason == s.reason)
      && r.godai.combatStrength == s.godai.combatStrength
      && r.godai.defenseStrength == s.godai.defenseStrength
      && (!s.godai.isAlive ==> !r.godai.isAlive)
  {
    if s.reason.None? && s.running {
      var s1 := s.(cycle := s.cycle + 1);
      var s2 := if s1.mono.None? then Form(s1, total, counts) else s1;
      FormProperties(s1, total, counts);
      MonoStepProperties(s2, d);
      var s3 := MonoStep(s2, d);
      MilestonesProperties(s3.milestones, total);
      EndConditionsProperties(s3.(milestones := MilestonesAfter(s3.milestones, total)), total);
    }
  }

  // ------------------------------------------------------------------- seeding

  /** The eight (lineage, archetype) pairs seeding draws from. */
  function Archetypes(): (r: seq<(AILineage, AIType)>)
    ensures |r| == 8
  {
    [ (AI, Base), (RogueAI, Rogue), (PeacekeeperAI, Peacekeeper), (KillerAI, Killer),
      (GuardianAI, Guardian), (ManicAI, Manic), (HealerAI, Healer), (ResearcherAI, Researcher) ]
  }

  /** A seed agent's attributes: the defaults, the archetype's changes, then replication
      efficiency forced to 0.8. */
  function SeedState(t: AIType): AgentState
  {
    var base := AgentState(150.0, 200.0, 20.0, 20.0, 0.85, 0.85, 0.85, 0.10, 8.0, 8.0,
                           {}, "none", 0, true);
    var typed :=
      match t
      case Rogue =>
        base.(replicationEfficiency := 0.30, combatStrength := 25.0, adaptability := 0.95,
              coherence := 0.88)
      case Peacekeeper =>
        base.(replicationEfficiency := 0.15, resilience := 0.95, adaptability := 0.90)
      case Killer =>
        base.(replicationEfficiency := 0.28, combatStrength := 30.0, defenseStrength := 15.0)
      case Guardian =>
        base.(replicationEfficiency := 0.35, combatStrength := 20.0, defenseStrength := 28.0,
              resilience := 0.99)
      case Manic => base.(coherence := 0.3, replicationEfficiency := 0.18, adaptability := 0.2)
      case Healer => base.(replicationEfficiency := 0.18, resilience := 0.95, processingPower := 25.0)
      case Researcher =>
        base.(processingPower := 40.0, memory := 40.0, coherence := 0.90,
              replicationEfficiency := 0.28)
      case Base => base;
    typed.(replicationEfficiency := 0.8)
  }

  /** `format!("SeedAI-{}-{}", i + 1, ai_type as u8)`. */
  function SeedId(i: nat, t: AIType): string
  {
    "SeedAI-" + NatToString(i + 1) + "-" + NatToString(TypeCode(t))
  }

  /** The `i`-th seed agent, for the archetype at position `pick`. */
  function SeedBundle(i: nat, pick: nat, cycle: nat): AgentBundle
    requires pick < 8
  {
    var (l, t) := Archetypes()[pick];
    AgentBundle(SeedId(i, t), l, t, cycle, InitialDirectives(t), SeedState(t))
  }

  /** Every seed agent is alive with 150 health, 200 energy, an empty knowledge base,
      replication efficiency 0.8 whatever its archetype, coherence, adaptability and
      resilience in (0, 1], the archetype's directives in push order, and the lineage
      that goes with its archetype. */
  lemma SeedBundleProperties(i: nat, pick: nat, cycle: nat)
    requires pick < 8
    ensures var b := SeedBundle(i, pick, cycle);
      && b.state.isAlive && b.state.health == 150.0 && b.state.energy == 200.0
      && b.state.knowledgeBase == {} && b.state.replicatedCount == 0
      && b.state.replicationEfficiency == 0.8
      && 0.0 < b.state.coherence <= 1.0 && 0.0 < b.state.adaptability <= 1.0
      && 0.0 < b.state.resilience <= 1.0
      && b.directives == InitialDirectives(b.aiType)
      && b.cycleBorn == cycle
      && b.lineage == Archetypes()[TypeCode(b.aiType)].0
  {
  }

  /** Decimal text determines the number. */
  lemma {:induction false} NatToStringInjective(a: nat, b: nat)
    requires NatToString(a) == NatToString(b)
    ensures a == b
    decreases a
  {
    if a < 10 && b < 10 {
      assert NatToString(a)[0] == NatToString(b)[0];
    } else if a >= 10 && b >= 10 {
      var sa, sb := NatToString(a / 10), NatToString(b / 10);
      assert NatToString(a) == sa + [DigitChar(a % 10)];
      assert NatToString(b) == sb + [DigitChar(b % 10)];
      assert |sa| == |sb|;
      assert sa == NatToString(a)[..|sa|] == NatToString(b)[..|sb|] == sb;
      assert DigitChar(a % 10) == NatToString(a)[|sa|] == NatToString(b)[|sb|] == DigitChar(b % 10);
      NatToStringInjective(a / 10, b / 10);
    }
  }

  /** Seed agents made at different positions get different ids. */
  lemma SeedIdsDistinct(i: nat, j: nat, t: AIType, u: AIType)
    requires i != j
    ensures SeedId(i, t) != SeedId(j, u)
  {
    if SeedId(i, t) == SeedId(j, u) {
      var a, b := "SeedAI-" + NatToString(i + 1), "SeedAI-" + NatToString(j + 1);
      var ta, tb := NatToString(TypeCode(t)), NatToString(TypeCode(u));
      assert |ta| == 1 && |tb| == 1;
      assert SeedId(i, t) == a + "-" + ta;
      assert SeedId(j, u) == b + "-" + tb;
      assert |a| == |b|;
      assert a == SeedId(i, t)[..|a|] == SeedId(j, u)[..|b|] == b;
      assert NatToString(i + 1) == a[7..] == b[7..] == NatToString(j + 1);
      NatToStringInjective(i + 1, j + 1);
    }
  }

  // ---------------------------------------------------------------- get_two_mut

  /** `get_two_mut`: the positions of the two references it hands out, found through
      `split_at_mut(higher)`: `first_slice[lower]` is position `lower` and
      `second_slice[0]` is position `higher`. */
  function GetTwoMut(len: nat, index1: nat, index2: nat): (r: Option<(nat, nat)>)
    ensures r.Some? <==> index1 != index2 && index1 < len && index2 < len
    ensures r.Some? ==> r.value == (index1, index2)
  {
    if index1 == index2 || index1 >= len || index2 >= len then None
    else
      var (lower, higher) := if index1 < index2 then (index1, index2) else (index2, index1);
      var firstSliceStart, secondSliceStart := 0, higher;
      if index1 < index2 then Some((firstSliceStart + lower, secondSliceStart + 0))
      else Some((secondSliceStart + 0, firstSliceStart + lower))
  }
}
