/** Value-level model of the combat health state machine of a `BaseHealthHandler`.
    Every transition of the handler is one function from the settings and the old
    state to the new state; the class in `Health` is proved to follow these functions,
    and the lemmas here and in `HealthTrace` state what the transitions promise.
    Engine floats are exact reals; the frame time is a parameter; pool despawning and
    the handler's notifications are recorded in `despawned` and in an event log. */
module HealthSpec {

  /** The serialized settings of one handler, fixed after it wakes up.
      `maxHealth` is the health the handler had when it woke up. */
  datatype Settings = Settings(
    canDie: bool,
    canStartDying: bool,
    damageImmuneTime: real,
    dyingDuration: real,
    maxHealth: real)

  /** The notifications the handler raises, in the order it raises them. */
  datatype Event =
    | Hit
    | HealthChanged(value: real)
    | Dying
    | Died
    | CanGiveAbility
    | NotCanGiveAbility
    | Revived

  /** The mutable part of a handler. `timer` is what is left of the immunity window,
      `dyingTimer` what is left of the dying countdown, `despawned` whether the
      handler was handed back to the object pool. */
  datatype State = State(
    health: real,
    timer: real,
    dyingTimer: real,
    dying: bool,
    despawned: bool,
    log: seq<Event>)

  /** Below this health an entity that may die is removed at once. */
  const SafeguardHealth: real := -2000.0

  /** The state of a handler that has just woken up with the given health. */
  function Initial(health: real): (s: State)
    ensures s.health == health && !s.dying && !s.despawned && s.log == []
    ensures s.timer == 0.0 && s.dyingTimer == 0.0
  {
    State(health, 0.0, 0.0, false, false, [])
  }

  /** The engine's clamp: below `lo` gives `lo`, otherwise above `hi` gives `hi`. */
  function Clamp(v: real, lo: real, hi: real): (r: real)
    ensures lo <= hi ==> lo <= r <= hi
    ensures lo <= v <= hi ==> r == v
    ensures r == v || r == lo || r == hi
    ensures v < lo ==> r == lo
    ensures lo <= v && hi < v ==> r == hi
  {
    if v < lo then lo else if v > hi then hi else v
  }

  /** Sets the health, except that a health above 1 is never taken to 0 or below:
      such a request lands on exactly 1. Reports the health it set. */
  function SetHealth(s: State, value: real): (s': State)
    ensures s'.health == value || (s.health > 1.0 && value <= 0.0 && s'.health == 1.0)
    ensures s.health <= 1.0 || value > 0.0 ==> s'.health == value
    ensures s.health > 1.0 ==> s'.health > 0.0
    ensures s' == s.(health := s'.health, log := s.log + [HealthChanged(s'.health)])
  {
    var h := if s.health > 1.0 && value <= 0.0 then 1.0 else value;
    s.(health := h, log := s.log + [HealthChanged(h)])
  }

  /** Enters the dying state and restarts the dying countdown, when dying is enabled. */
  function StartDying(c: Settings, s: State): (s': State)
    ensures !c.canStartDying ==> s' == s
    ensures c.canStartDying ==> s'.dying && s'.dyingTimer == c.dyingDuration
    ensures c.canStartDying ==> s'.log == s.log + [Dying, CanGiveAbility]
    ensures s'.health == s.health && s'.timer == s.timer && s'.despawned == s.despawned
  {
    if !c.canStartDying then s
    else s.(dying := true, dyingTimer := c.dyingDuration, log := s.log + [Dying, CanGiveAbility])
  }

  /** Removes the entity from play when it may die or the death is ordered;
      health, timers and the dying flag are left as they are. */
  function Die(c: Settings, s: State, order: bool): (s': State)
    ensures s'.despawned <==> s.despawned || c.canDie || order
    ensures s'.log == if c.canDie || order then s.log + [Died] else s.log
    ensures s' == s.(despawned := s'.despawned, log := s'.log)
  {
    if !c.canDie && !order then s
    else s.(despawned := true, log := s.log + [Died])
  }

  /** Leaves the dying state with full health. The dying countdown is not reset. */
  function Revive(c: Settings, s: State): (s': State)
    ensures s'.health == c.maxHealth && !s'.dying
    ensures s'.timer == s.timer && s'.dyingTimer == s.dyingTimer && s'.despawned == s.despawned
    ensures s'.log == s.log + [NotCanGiveAbility, Revived]
  {
    s.(dying := false, health := c.maxHealth, log := s.log + [NotCanGiveAbility, Revived])
  }

  /** Heals by `amount` (through `SetHealth`, which reports the unclamped value) and
      then clamps the health into [0, maxHealth]. */
  function AddHealth(c: Settings, s: State, amount: real): (s': State)
    ensures c.maxHealth >= 0.0 ==> 0.0 <= s'.health <= c.maxHealth
    ensures 0.0 < s.health + amount <= c.maxHealth ==> s'.health == s.health + amount
    ensures 0.0 <= c.maxHealth <= s.health + amount ==> s'.health == c.maxHealth
    ensures s'.health == Clamp(SetHealth(s, s.health + amount).health, 0.0, c.maxHealth)
    ensures s'.log == SetHealth(s, s.health + amount).log
    ensures s' == s.(health := s'.health, log := s'.log)
  {
    var s1 := SetHealth(s, s.health + amount);
    s1.(health := Clamp(s1.health, 0.0, c.maxHealth))
  }

  /** Takes `amount` off the health (with the floor of `SetHealth`), starts dying
      at 0 or below, and removes an entity that may die once it is below the safeguard. */
  function RemoveHealth(c: Settings, s: State, amount: real): (s': State)
    ensures s'.health == SetHealth(s, s.health - amount).health
    ensures s.health > 1.0 ==> s'.health > 0.0
    ensures s'.timer == s.timer
    ensures s'.health <= 0.0 && c.canStartDying ==> s'.dying && s'.dyingTimer == c.dyingDuration
    ensures !(s'.health <= 0.0 && c.canStartDying) ==> s'.dying == s.dying && s'.dyingTimer == s.dyingTimer
    ensures s'.dying ==> s.dying || s'.health <= 0.0
    ensures s'.despawned <==> s.despawned || (c.canDie && s'.health < SafeguardHealth)
    ensures s'.log == SetHealth(s, s.health - amount).log
                      + (if s'.health <= 0.0 && c.canStartDying then [Dying, CanGiveAbility] else [])
                      + (if c.canDie && s'.health < SafeguardHealth then [Died] else [])
  {
    var s1 := SetHealth(s, s.health - amount);
    var s2 := if s1.health <= 0.0 then StartDying(c, s1) else s1;
    if s2.health < SafeguardHealth && c.canDie then Die(c, s2, false) else s2
  }

  /** A hit: ignored while the immunity window is open; otherwise it reopens the
      window and removes `damage` health. */
  function HandleHit(c: Settings, s: State, damage: real): (s': State)
    ensures s.timer > 0.0 ==> s' == s
    ensures s.timer <= 0.0 ==> s'.timer == c.damageImmuneTime
    ensures s.timer <= 0.0 ==> s' == RemoveHealth(c, s.(timer := c.damageImmuneTime, log := s.log + [Hit]), damage)
  {
    if s.timer > 0.0 then s
    else RemoveHealth(c, s.(timer := c.damageImmuneTime, log := s.log + [Hit]), damage)
  }

  /** Whether the dying countdown runs in this frame. */
  predicate CountingDown(s: State) {
    s.dyingTimer > 0.0 || s.dying
  }

  /** One frame of `dt` seconds: the immunity window and, while it runs, the dying
      countdown shrink; a countdown that runs out revives the entity. */
  function Run(c: Settings, s: State, dt: real): (s': State)
    ensures s'.timer == if s.timer > 0.0 then s.timer - dt else s.timer
    ensures CountingDown(s) ==> s'.dyingTimer == s.dyingTimer - dt
    ensures CountingDown(s) && s.dyingTimer - dt <= 0.0 ==> s' == Revive(c, s.(timer := s'.timer, dyingTimer := s'.dyingTimer))
    ensures !(CountingDown(s) && s.dyingTimer - dt <= 0.0) ==> s' == s.(timer := s'.timer, dyingTimer := s'.dyingTimer)
    ensures !CountingDown(s) ==> s'.dyingTimer == s.dyingTimer
    ensures s'.dying ==> s'.dyingTimer > 0.0
  {
    var s1 := if s.timer > 0.0 then s.(timer := s.timer - dt) else s;
    if CountingDown(s1) then
      var s2 := s1.(dyingTimer := s1.dyingTimer - dt);
      if s2.dyingTimer <= 0.0 then Revive(c, s2) else s2
    else s1
  }

  /** A hit on an entity above 1 health that is not dying never starts its dying:
      reaching the dying state takes at least one more hit at 1 health or below. */
  lemma FirstHitNeverStartsDying(c: Settings, s: State, damage: real)
    requires s.health > 1.0 && !s.dying
    ensures HandleHit(c, s, damage).health > 0.0
    ensures !HandleHit(c, s, damage).dying
    ensures !HandleHit(c, s, damage).despawned <==> !s.despawned
  {
  }
}
