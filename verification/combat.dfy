/** Damage arithmetic shared by ordinary agents (src/ai.rs) and the two singletons
    (src/simulation.rs). Ordinary agents mitigate by `1 - resilience * 0.5`, the
    monoculture by `1 - resilience * 0.75`, and GODAI not at all. */
module Combat {
  import opened Common

  /** `(amount - defense).max(0.0)`. */
  function ReducedDamage(amount: real, defense: real): (r: real)
    ensures r >= 0.0 && r >= amount - defense
    ensures amount <= defense ==> r == 0.0
  {
    Max(amount - defense, 0.0)
  }

  /** Damage an ordinary agent takes from a raw `amount`. */
  function AgentFinalDamage(amount: real, defense: real, resilience: real): (r: real)
    ensures resilience <= 2.0 ==> r >= 0.0
    ensures 0.0 <= resilience ==> r <= ReducedDamage(amount, defense)
  {
    ReducedDamage(amount, defense) * (1.0 - resilience * 0.5)
  }

  /** Damage the monoculture takes from a raw `amount`. */
  function MonoFinalDamage(amount: real, defense: real, resilience: real): (r: real)
    ensures 3.0 * resilience <= 4.0 ==> r >= 0.0
    ensures 0.0 <= resilience ==> r <= ReducedDamage(amount, defense)
  {
    ReducedDamage(amount, defense) * (1.0 - resilience * 0.75)
  }

  /** Health after taking `damage`, floored at zero. */
  function HealthAfter(health: real, damage: real): (r: real)
    ensures r >= 0.0
    ensures damage >= 0.0 && health >= 0.0 ==> r <= health
    ensures r == 0.0 <==> health <= damage
  {
    Max(health - damage, 0.0)
  }

  /** The worked example of an ordinary attack: combat 100 against defense 20 and
      resilience 0.5, with the multiplier drawn from [0.9, 1.3), deals a final
      damage in [52.5, 82.5). */
  lemma AttackExample(k: real)
    requires 0.9 <= k < 1.3
    ensures 52.5 <= AgentFinalDamage(100.0 * k, 20.0, 0.5) < 82.5
  {
    assert ReducedDamage(100.0 * k, 20.0) == 100.0 * k - 20.0;
  }

  /** GODAI's example: 30 raw damage against defense 50 leaves health 100 unchanged. */
  lemma GodaiAbsorbsExample()
    ensures HealthAfter(100.0, ReducedDamage(30.0, 50.0)) == 100.0
  {
  }
}
