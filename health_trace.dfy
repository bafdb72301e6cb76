/** What the health state machine keeps true over any run of frames, hits, heals,
    death orders and revives, stated as invariants of a replay of such inputs. */
module HealthTrace {
  import opened HealthSpec

  /** One thing that can happen to a handler: an engine frame, a hit from one of its
      hit takers, or a call of one of its public operations. */
  datatype Input =
    | Frame(dt: real)
    | TakeHit(damage: real)
    | Heal(amount: real)
    | Remove(amount: real)
    | SetTo(value: real)
    | BeginDying
    | Kill(order: bool)
    | ForceRevive

  function Step(c: Settings, s: State, i: Input): State {
    match i
    case Frame(dt) => Run(c, s, dt)
    case TakeHit(damage) => HandleHit(c, s, damage)
    case Heal(amount) => AddHealth(c, s, amount)
    case Remove(amount) => RemoveHealth(c, s, amount)
    case SetTo(value) => SetHealth(s, value)
    case BeginDying => StartDying(c, s)
    case Kill(order) => Die(c, s, order)
    case ForceRevive => Revive(c, s)
  }

  function Replay(c: Settings, s: State, inputs: seq<Input>): State
    decreases |inputs|
  {
    if inputs == [] then s else Replay(c, Step(c, s, inputs[0]), inputs[1..])
  }

  /** Settings a designer would give: a non-negative immunity window, a positive
      dying duration and a positive starting health. */
  predicate WellFormed(c: Settings) {
    c.damageImmuneTime >= 0.0 && c.dyingDuration > 0.0 && c.maxHealth > 0.0
  }

  /** Frames never run backwards, damage does not heal, heals do not damage, and a
      health set directly is a living health no larger than the maximum. */
  predicate Plausible(c: Settings, i: Input) {
    match i
    case Frame(dt) => dt >= 0.0
    case TakeHit(damage) => damage >= 0.0
    case Heal(amount) => amount >= 0.0
    case Remove(amount) => amount >= 0.0
    case SetTo(value) => 0.0 < value <= c.maxHealth
    case _ => true
  }

  /** The handler's invariant: health never above its maximum, the immunity window
      never longer than configured, a dying entity always has countdown left, and an
      entity that can start dying is either dying or has positive health. */
  predicate Inv(c: Settings, s: State) {
    && s.health <= c.maxHealth
    && s.timer <= c.damageImmuneTime
    && (s.dying ==> s.dyingTimer > 0.0)
    && (c.canStartDying && !s.dying ==> s.health > 0.0)
  }

  lemma InitialSatisfiesInv(c: Settings)
    requires WellFormed(c)
    ensures Inv(c, Initial(c.maxHealth))
  {
  }

  lemma StepKeepsInv(c: Settings, s: State, i: Input)
    requires WellFormed(c) && Inv(c, s) && Plausible(c, i)
    ensures Inv(c, Step(c, s, i))
  {
  }

  lemma {:induction false} ReplayKeepsInv(c: Settings, s: State, inputs: seq<Input>)
    requires WellFormed(c) && Inv(c, s)
    requires forall k :: 0 <= k < |inputs| ==> Plausible(c, inputs[k])
    ensures Inv(c, Replay(c, s, inputs))
    decreases |inputs|
  {
    if inputs != [] {
      StepKeepsInv(c, s, inputs[0]);
      ReplayKeepsInv(c, Step(c, s, inputs[0]), inputs[1..]);
    }
  }

  /** From waking up, health stays within [.., maxHealth], and an entity that can
      start dying and is not dying has positive health, whatever plausible inputs come. */
  lemma {:induction false} HealthBoundedFromWakeUp(c: Settings, inputs: seq<Input>)
    requires WellFormed(c)
    requires forall k :: 0 <= k < |inputs| ==> Plausible(c, inputs[k])
    ensures Replay(c, Initial(c.maxHealth), inputs).health <= c.maxHealth
    ensures c.canStartDying && !Replay(c, Initial(c.maxHealth), inputs).dying ==>
              Replay(c, Initial(c.maxHealth), inputs).health > 0.0
  {
    InitialSatisfiesInv(c);
    ReplayKeepsInv(c, Initial(c.maxHealth), inputs);
  }

  /** An entity that may not die is never despawned unless a death is ordered:
      neither damage, however deep, nor an unordered death removes it. */
  lemma {:induction false} NoDespawnWithoutOrder(c: Settings, s: State, inputs: seq<Input>)
    requires !c.canDie && !s.despawned
    requires forall k :: 0 <= k < |inputs| ==> inputs[k] != Kill(true)
    ensures !Replay(c, s, inputs).despawned
    decreases |inputs|
  {
    if inputs != [] {
      assert inputs[0] != Kill(true);
      NoDespawnWithoutOrder(c, Step(c, s, inputs[0]), inputs[1..]);
    }
  }

  /** Despawning is final, and the notification log only ever grows. */
  lemma {:induction false} ReplayOnlyAppends(c: Settings, s: State, inputs: seq<Input>)
    ensures s.log <= Replay(c, s, inputs).log
    ensures s.despawned ==> Replay(c, s, inputs).despawned
    decreases |inputs|
  {
    if inputs != [] {
      var s1 := Step(c, s, inputs[0]);
      assert s.log <= s1.log;
      ReplayOnlyAppends(c, s1, inputs[1..]);
    }
  }
}
