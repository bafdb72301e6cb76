# God-Tower combat health, level ranks and ability pickup, in Dafny

This project models three small pieces of the game's logic and proves what they promise.

- **The health handler** (`BaseHealthHandler`) is the state machine of a combat entity. It holds
  health, an immunity window after each hit that counts, a dying countdown that ends in a revive
  at full health, and a pool despawn on death. `HealthSpec` gives one pure function per transition
  over a `State` value. `Health.BaseHealthHandler` is the class itself: its fields are updated in
  place, and each method is proved to move them exactly as the matching `HealthSpec` function does.
  `HealthTrace` replays any sequence of frames, hits and calls of the public operations, and proves
  the invariants that such a run keeps.
- **Level rank classification** (`LevelData`) lives in `LevelRecords`. It maps a completion time
  and four thresholds to "S", "A", "B", "C", "D", or "-" when there is no time. S is withheld
  while playing a level on the easiest difficulty.
- **The ability pickup gate** (`ActiveAbilityGiver`) lives in `AbilityGiver`. It is a one-way flag
  raised by the owner's "can give ability" notification. Its getter for the ability prefab asks
  the owner's health handler for an unordered death.

Modelling choices:

- Engine floats are exact reals.
- The frame time is a parameter of `Run`.
- The global difficulty is the parameter `easy`, which says whether the current difficulty is Easy.
- Returning an object to the pool is the ghost flag `despawned`.
- Every notification the handler raises (hit, health changed, dying, died, can / cannot give
  ability, revive) is appended to a ghost event log, in the order the code raises them.

Behaviour the code has and a casual reading might miss (the model follows the code):

- The safeguard below -2000 health is not unconditional. It fires only when `canDie` holds, and
  it calls `Die()` with no order (BaseHealthHandler.cs:126-129).
- The floor in `SetHealth` only protects against reaching 0 or below. A hit from above 1 health
  can leave anything in (0, 1]. A hit at 1 health or below may go as low as it likes.
- The pickup gate never goes down again. The giver subscribes only to the "can give ability"
  notification (ActiveAbilityGiver.cs:24-27), so a revive does not close it.
- `AddHealth` reports the unclamped health in its "health changed" notification. It clamps only
  afterwards.
- Revive does not reset the dying countdown. A public `Revive` call during the countdown lets the
  countdown run on, and the entity revives again when it expires.

## Model

| member | source | states |
|---|---|---|
| `HealthSpec.Initial` | Assets/Source/Logic/Fight/HealthSystems/BaseHealthHandler.cs:17-22 | a freshly woken handler has zero timers, is not dying, is not despawned and has raised nothing |
| `HealthSpec.Clamp` | Assets/Source/Logic/Fight/HealthSystems/BaseHealthHandler.cs:115 | below lo gives lo, otherwise above hi gives hi, in-range values are left alone; the result lies in [lo, hi] when lo <= hi |
| `HealthSpec.SetHealth` | Assets/Source/Logic/Fight/HealthSystems/BaseHealthHandler.cs:132-138 | health becomes the requested value, except that from above 1 a request of 0 or below gives exactly 1, so health above 1 never reaches 0; reports the new health and changes nothing else |
| `HealthSpec.StartDying` | Assets/Source/Logic/Fight/HealthSystems/BaseHealthHandler.cs:84-93 | no effect when dying is disabled; otherwise dying with a full countdown, raising dying then can-give-ability; health and the immunity timer untouched |
| `HealthSpec.Die` | Assets/Source/Logic/Fight/HealthSystems/BaseHealthHandler.cs:95-102 | despawned (and "died" raised) exactly when `canDie` or the death is ordered; nothing else changes |
| `HealthSpec.Revive` | Assets/Source/Logic/Fight/HealthSystems/BaseHealthHandler.cs:104-110 | always full health and not dying; timers untouched; raises cannot-give-ability then revive |
| `HealthSpec.AddHealth` | Assets/Source/Logic/Fight/HealthSystems/BaseHealthHandler.cs:112-116 | health is the clamp into [0, max] of what `SetHealth` gave: an in-range sum is taken exactly, an overheal fills up to exactly the maximum, and with a non-negative maximum health ends in [0, max]; the reported value is the unclamped one; nothing else changes |
| `HealthSpec.RemoveHealth` | Assets/Source/Logic/Fight/HealthSystems/BaseHealthHandler.cs:118-130 | from above 1 health stays positive and dying is not started; at 0 or below dying starts when enabled, and otherwise the dying flag and countdown are kept; despawned exactly when `canDie` and health < -2000; raises health-changed, then dying and can-give-ability when dying started, then died when despawned |
| `HealthSpec.HandleHit` | Assets/Source/Logic/Fight/HealthSystems/BaseHealthHandler.cs:74-82 | a hit inside the immunity window changes nothing at all; otherwise the window restarts at `damageImmuneTime` and the damage is removed |
| `HealthSpec.Run` | Assets/Source/Logic/Fight/HealthSystems/BaseHealthHandler.cs:59-72 | the immunity timer shrinks only while positive; the countdown shrinks while dying or positive and revives when it runs out; after any frame a dying entity has countdown left |
| `HealthSpec.FirstHitNeverStartsDying` | Assets/Source/Logic/Fight/HealthSystems/BaseHealthHandler.cs:118-124 | a hit on a non-dying entity above 1 health leaves it alive, not dying, and not newly despawned |
| `Health.BaseHealthHandler.constructor` | Assets/Source/Logic/Fight/HealthSystems/BaseHealthHandler.cs:10-37 | the serialized defaults and the capture of the starting health as the maximum; the initial state |
| `Health.BaseHealthHandler.Run` | Assets/Source/Logic/Fight/HealthSystems/BaseHealthHandler.cs:59-72 | the fields move as `HealthSpec.Run`; a dying handler has countdown left afterwards |
| `Health.BaseHealthHandler.HandleHit` | Assets/Source/Logic/Fight/HealthSystems/BaseHealthHandler.cs:74-82 | the fields move as `HealthSpec.HandleHit`; inside the immunity window the object is unchanged |
| `Health.BaseHealthHandler.StartDying` | Assets/Source/Logic/Fight/HealthSystems/BaseHealthHandler.cs:84-93 | the fields move as `HealthSpec.StartDying`; unchanged when dying is disabled |
| `Health.BaseHealthHandler.Die` | Assets/Source/Logic/Fight/HealthSystems/BaseHealthHandler.cs:95-102 | the fields move as `HealthSpec.Die`; unchanged when the entity may not die and the death is not ordered |
| `Health.BaseHealthHandler.Revive` | Assets/Source/Logic/Fight/HealthSystems/BaseHealthHandler.cs:104-110 | the fields move as `HealthSpec.Revive`: full health, not dying |
| `Health.BaseHealthHandler.AddHealth` | Assets/Source/Logic/Fight/HealthSystems/BaseHealthHandler.cs:112-116 | the fields move as `HealthSpec.AddHealth`; with a non-negative maximum health ends in [0, max] |
| `Health.BaseHealthHandler.RemoveHealth` | Assets/Source/Logic/Fight/HealthSystems/BaseHealthHandler.cs:118-130 | the fields move as `HealthSpec.RemoveHealth`; from above 1 health stays positive and dying is unchanged |
| `Health.BaseHealthHandler.SetHealth` | Assets/Source/Logic/Fight/HealthSystems/BaseHealthHandler.cs:132-138 | the fields move as `HealthSpec.SetHealth`; health above 1 never reaches 0 |
| `Health.BaseHealthHandler.GetHealth` | Assets/Source/Logic/Fight/HealthSystems/BaseHealthHandler.cs:140-143 | returns the current health and changes nothing |
| `Health.BaseHealthHandler.IsDead` | Assets/Source/Logic/Fight/HealthSystems/BaseHealthHandler.cs:145 | dead exactly while dying |
| `Health.BaseHealthHandler.GetReviveTime` | Assets/Source/Logic/Fight/HealthSystems/BaseHealthHandler.cs:147-150 | returns the configured dying duration |
| `Health.BaseHealthHandler.GetCurrentReviveTimer` | Assets/Source/Logic/Fight/HealthSystems/BaseHealthHandler.cs:152-155 | returns what is left of the dying countdown |
| `HealthTrace.InitialSatisfiesInv` | Assets/Source/Logic/Fight/HealthSystems/BaseHealthHandler.cs:35-41 | a handler that has just woken up with sane settings satisfies the invariant |
| `HealthTrace.StepKeepsInv` | Assets/Source/Logic/Fight/HealthSystems/BaseHealthHandler.cs:59-138 | every frame, hit, heal, removal, direct set, start of dying, death order and revive keeps the invariant: health at most max, immunity window at most configured, dying implies countdown left, alive-or-dying |
| `HealthTrace.ReplayKeepsInv` | Assets/Source/Logic/Fight/HealthSystems/BaseHealthHandler.cs:59-138 | any sequence of plausible inputs keeps the invariant |
| `HealthTrace.HealthBoundedFromWakeUp` | Assets/Source/Logic/Fight/HealthSystems/BaseHealthHandler.cs:35-41 | from waking up, health never exceeds its maximum, and an entity that can start dying is dying or has positive health |
| `HealthTrace.NoDespawnWithoutOrder` | Assets/Source/Logic/Fight/HealthSystems/BaseHealthHandler.cs:95-101 | an entity that may not die is never despawned, however deep the damage, unless a death is ordered |
| `HealthTrace.ReplayOnlyAppends` | Assets/Source/Logic/Fight/HealthSystems/BaseHealthHandler.cs:95-102 | despawning is final and notifications are only ever appended |
| `LevelRecords.NewLevelData` | Assets/Source/Data/LevelData.cs:23-32 | every argument is stored in its field; the secret tutorial starts locked |
| `LevelRecords.GetRankTextByTime` | Assets/Source/Data/LevelData.cs:39-54 | the result is one of "S", "A", "B", "C", "D", "-"; it is "-" exactly for a zero time; never "S" in a level on Easy |
| `LevelRecords.GetRankTextByRecord` | Assets/Source/Data/LevelData.cs:34-37 | the rank of the stored record; "-" when there is no record |
| `LevelRecords.FirstPassingCheckDecides` | Assets/Source/Data/LevelData.cs:44-53 | for a nonzero time the rank is the first passing check in the order S, A, B, C (both directions), and D exactly when none passes |
| `LevelRecords.RankMonotoneInTime` | Assets/Source/Data/LevelData.cs:44-53 | a faster nonzero time never ranks worse |
| `LevelRecords.RankMonotoneInThresholds` | Assets/Source/Data/LevelData.cs:44-53 | loosening all thresholds never worsens a rank |
| `LevelRecords.DifficultyOnlyWithholdsS` | Assets/Source/Data/LevelData.cs:44-45 | difficulty changes nothing outside a level, or for a rank other than S; an S withheld on Easy becomes A, B, C or D |
| `AbilityGiver.ActiveAbilityGiver.constructor` | Assets/Source/Logic/Fight/ActiveAbilityGiver.cs:7-11 | the serialized flag and prefab and the owner's handler are stored |
| `AbilityGiver.ActiveAbilityGiver.GetAbilityPrefab` | Assets/Source/Logic/Fight/ActiveAbilityGiver.cs:34-39 | returns the prefab unchanged; the owner's handler moves as an unordered `Die`, which leaves a handler that may not die unchanged |
| `AbilityGiver.ActiveAbilityGiver.CanGiveAbility` | Assets/Source/Logic/Fight/ActiveAbilityGiver.cs:41-44 | returns the flag and changes nothing |
| `AbilityGiver.ActiveAbilityGiver.SetCanGive` | Assets/Source/Logic/Fight/ActiveAbilityGiver.cs:46-49 | raises the flag |
| `AbilityGiver.FlagAfterIsOneWay` | Assets/Source/Logic/Fight/ActiveAbilityGiver.cs:24-27 | after any notifications the flag is up exactly when it started up or "can give ability" was raised, so it is never lowered |
| `AbilityGiver.DyingHitOpensGate` | Assets/Source/Logic/Fight/HealthSystems/BaseHealthHandler.cs:84-93 | a hit that starts the owner's dying raises the notification that opens the gate |

## Left out

- Engine lifecycle and wiring are not modelled. This covers component discovery in `Awake`, the
  `OnEnabled`/`OnDisabled` subscription loops and the giver's tracker lookup. The subscription of
  the gate to the handler is represented only by `AbilityGiver.FlagAfter`.
- `NightPool.Despawn` and the event invocations are foreign calls. They appear only as the ghost
  `despawned` flag and the ghost event log, and what subscribers do in response is not modelled.
- `oneHealthDeathProtection` is a serialized field that the code never reads, so it has no counterpart.
- `Mathf.Clamp` is engine code outside this repository. `HealthSpec.Clamp` follows the engine's
  documented behaviour.
- Float rounding is not modelled: health, timers and times are exact reals.
- `Time.deltaTime` and the global difficulty come in as parameters.
- The giver's `Awake` check of the prefab and its error log are engine queries and I/O, so they
  are left out. The prefab is an opaque named value.
- `LevelData.SecretTutorialUnlockedAfterPassing` and `Avaliable` are only stored. Nothing in the
  modelled code reads them.
- `HealthTrace.StepKeepsInv` assumes designer-sane settings: a non-negative immunity time, a
  positive dying duration and a positive starting health. It also assumes non-negative frame
  times, damages, removals and heals. The invariant is not claimed for other inputs.
- Other code that calls the handler's public operations at runtime is not part of this model. The
  replay in `HealthTrace` lets any of them happen at any time.
- `HealthTrace.Step`: a direct `SetHealth` is replayed only with a value in (0, maxHealth]. An
  unbounded set can put health above the maximum, or at 0 without dying, so the invariant is not
  claimed for such a set.
- `HitReactionsVisual`, `Dummy` and `PlayerEyeDamage` are rendering, random teleporting and a
  physics callback. None of them is part of this model.
