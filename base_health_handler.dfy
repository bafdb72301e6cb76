/** The health handler as the object it is: serialized settings as constants, the
    health, both timers and the dying flag as fields that its methods update in place.
    Each method is proved to move the handler exactly as the matching transition of
    `HealthSpec` does; pool despawning and the notifications are ghost state. */
module Health {
  import HealthSpec

  class BaseHealthHandler {
    const canDie: bool
    const canStartDying: bool
    const damageImmuneTime: real
    const dyingDuration: real
    /** The health captured when the handler woke up. */
    const maxHealth: real

    var health: real
    /** What is left of the immunity window after the last hit that counted. */
    var timer: real
    /** What is left of the dying countdown. */
    var dyingTimer: real
    var dying: bool

    /** Whether the handler has been handed back to the object pool. */
    ghost var despawned: bool
    /** Every notification raised so far, oldest first. */
    ghost var log: seq<HealthSpec.Event>

    function Config(): HealthSpec.Settings {
      HealthSpec.Settings(canDie, canStartDying, damageImmuneTime, dyingDuration, maxHealth)
    }

    ghost function Snapshot(): HealthSpec.State
      reads this
    {
      HealthSpec.State(health, timer, dyingTimer, dying, despawned, log)
    }

    /** A handler that has just woken up: its current health becomes its maximum. */
    constructor (health: real, canDie: bool := true, canStartDying: bool := true,
                 damageImmuneTime: real := 0.1, dyingDuration: real := 5.0)
      ensures Config() == HealthSpec.Settings(canDie, canStartDying, damageImmuneTime, dyingDuration, health)
      ensures Snapshot() == HealthSpec.Initial(health)
    {
      this.canDie := canDie;
      this.canStartDying := canStartDying;
      this.damageImmuneTime := damageImmuneTime;
      this.dyingDuration := dyingDuration;
      this.maxHealth := health;
      this.health := health;
      timer := 0.0;
      dyingTimer := 0.0;
      dying := false;
      despawned := false;
      log := [];
    }

    /** One frame lasting `dt` seconds. */
    method Run(dt: real)
      modifies this
      ensures Snapshot() == HealthSpec.Run(Config(), old(Snapshot()), dt)
      ensures dying ==> dyingTimer > 0.0
    {
      if timer > 0.0 {
        timer := timer - dt;
      }
      if dyingTimer > 0.0 || dying {
        dyingTimer := dyingTimer - dt;
        if dyingTimer <= 0.0 {
          Revive();
        }
      }
    }

    method HandleHit(damage: real)
      modifies this
      ensures Snapshot() == HealthSpec.HandleHit(Config(), old(Snapshot()), damage)
      ensures old(timer) > 0.0 ==> unchanged(this)
    {
      if timer > 0.0 {
        return;
      }
      log := log + [HealthSpec.Hit];
      timer := damageImmuneTime;
      RemoveHealth(damage);
    }

    method StartDying()
      modifies this
      ensures Snapshot() == HealthSpec.StartDying(Config(), old(Snapshot()))
      ensures !canStartDying ==> unchanged(this)
    {
      if !canStartDying {
        return;
      }
      dying := true;
      dyingTimer := dyingDuration;
      log := log + [HealthSpec.Dying, HealthSpec.CanGiveAbility];
    }

    /** Removes the entity from play unless it may not die and the death is not ordered. */
    method Die(order: bool := false)
      modifies this
      ensures Snapshot() == HealthSpec.Die(Config(), old(Snapshot()), order)
      ensures !canDie && !order ==> unchanged(this)
    {
      if !canDie && !order {
        return;
      }
      log := log + [HealthSpec.Died];
      despawned := true;
    }

    method Revive()
      modifies this
      ensures Snapshot() == HealthSpec.Revive(Config(), old(Snapshot()))
      ensures health == maxHealth && !dying
    {
      dying := false;
      health := maxHealth;
      log := log + [HealthSpec.NotCanGiveAbility, HealthSpec.Revived];
    }

    method AddHealth(addValue: real)
      modifies this
      ensures Snapshot() == HealthSpec.AddHealth(Config(), old(Snapshot()), addValue)
      ensures maxHealth >= 0.0 ==> 0.0 <= health <= maxHealth
    {
      SetHealth(health + addValue);
      health := HealthSpec.Clamp(health, 0.0, maxHealth);
    }

    method RemoveHealth(removeValue: real)
      modifies this
      ensures Snapshot() == HealthSpec.RemoveHealth(Config(), old(Snapshot()), removeValue)
      ensures old(health) > 1.0 ==> health > 0.0 && dying == old(dying)
    {
      SetHealth(health - removeValue);
      if health <= 0.0 {
        StartDying();
      }
      if health < HealthSpec.SafeguardHealth && canDie {
        Die();
      }
    }

    method SetHealth(value: real)
      modifies this
      ensures Snapshot() == HealthSpec.SetHealth(old(Snapshot()), value)
      ensures old(health) > 1.0 ==> health > 0.0
    {
      var v := value;
      if health > 1.0 && v <= 0.0 {
        v := 1.0;
      }
      health := v;
      log := log + [HealthSpec.HealthChanged(health)];
    }

    method GetHealth() returns (h: real)
      ensures h == health
    {
      h := health;
    }

    /** An entity counts as dead exactly while it is dying. */
    method IsDead() returns (dead: bool)
      ensures dead <==> dying
    {
      dead := dying;
    }

    method GetReviveTime() returns (t: real)
      ensures t == dyingDuration
    {
      t := dyingDuration;
    }

    method GetCurrentReviveTimer() returns (t: real)
      ensures t == dyingTimer
    {
      t := dyingTimer;
    }
  }
}
