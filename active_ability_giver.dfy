/** The ability pickup gate of an entity: a flag that the owner's health handler
    raises with its "can give ability" notification, and a getter for the ability
    prefab that, as a side effect, asks the owner to die. */
module AbilityGiver {
  import HealthSpec
  import Health

  /** A prefab asset, known only by name. */
  datatype GameObject = GameObject(name: string)

  class ActiveAbilityGiver {
    var canGiveAbility: bool
    const abilityPrefab: GameObject
    /** The owner's health handler, if it has one. */
    const healthHandler: Health.BaseHealthHandler?

    constructor (canGiveAbility: bool, abilityPrefab: GameObject, healthHandler: Health.BaseHealthHandler?)
      ensures this.canGiveAbility == canGiveAbility
      ensures this.abilityPrefab == abilityPrefab && this.healthHandler == healthHandler
    {
      this.canGiveAbility := canGiveAbility;
      this.abilityPrefab := abilityPrefab;
      this.healthHandler := healthHandler;
    }

    /** Hands out the prefab unchanged, after an unordered death of the owner. */
    method GetAbilityPrefab() returns (prefab: GameObject)
      modifies healthHandler
      ensures prefab == abilityPrefab
      ensures canGiveAbility == old(canGiveAbility)
      ensures healthHandler != null ==>
                healthHandler.Snapshot() == HealthSpec.Die(healthHandler.Config(), old(healthHandler.Snapshot()), false)
      ensures healthHandler != null && !healthHandler.canDie ==> unchanged(healthHandler)
    {
      if healthHandler != null {
        healthHandler.Die();
      }
      prefab := abilityPrefab;
    }

    method CanGiveAbility() returns (can: bool)
      ensures can == canGiveAbility
    {
      can := canGiveAbility;
    }

    /** The subscriber of the owner's "can give ability" notification. */
    method SetCanGive()
      modifies this
      ensures canGiveAbility
    {
      canGiveAbility := true;
    }
  }

  /** The gate after the owner raised `events` while the giver was subscribed: only
      the "can give ability" notification has a subscriber, and it raises the flag. */
  function FlagAfter(flag: bool, events: seq<HealthSpec.Event>): bool
    decreases |events|
  {
    if events == [] then flag
    else FlagAfter(flag || events[0] == HealthSpec.CanGiveAbility, events[1..])
  }

  /** The gate is one-way: it ends up raised exactly when it started raised or the
      owner offered an ability; in particular a revive does not lower it. */
  lemma {:induction false} FlagAfterIsOneWay(flag: bool, events: seq<HealthSpec.Event>)
    ensures FlagAfter(flag, events) <==> flag || HealthSpec.CanGiveAbility in events
    decreases |events|
  {
    if events != [] {
      FlagAfterIsOneWay(flag || events[0] == HealthSpec.CanGiveAbility, events[1..]);
      assert events == [events[0]] + events[1..];
    }
  }

  /** When a hit starts the owner's dying, the notifications it raises open the gate. */
  lemma DyingHitOpensGate(c: HealthSpec.Settings, s: HealthSpec.State, damage: real, flag: bool)
    requires !s.dying && HealthSpec.HandleHit(c, s, damage).dying
    ensures FlagAfter(flag, HealthSpec.HandleHit(c, s, damage).log[|s.log|..])
  {
    var s' := HealthSpec.HandleHit(c, s, damage);
    var s0 := s.(timer := c.damageImmuneTime, log := s.log + [HealthSpec.Hit]);
    var s1 := HealthSpec.SetHealth(s0, s0.health - damage);
    var s2 := HealthSpec.StartDying(c, s1);
    assert s2.log == s.log + [HealthSpec.Hit, HealthSpec.HealthChanged(s1.health), HealthSpec.Dying, HealthSpec.CanGiveAbility];
    assert HealthSpec.CanGiveAbility in s'.log[|s.log|..] by {
      assert s'.log[|s.log|..][3] == HealthSpec.CanGiveAbility;
    }
    FlagAfterIsOneWay(flag, s'.log[|s.log|..]);
  }
}
