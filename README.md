# Colour-mixer game core in Dafny

This project models the gameplay core of a small Unity platformer about colour mixing. It covers the following parts. Each one is a Dafny module with a class whose methods update its fields in place.

- **Magazine**: an ink magazine. It is a bounded bullet counter with a colour and a name.
- **Bag**: the four-magazine inventory (red, green, blue, mix). It covers the current selection, the two-phase mix protocol and the routing of picked colours to base magazines.
- **MixControl**: the key dispatcher that drives the bag.
- **Shooter**: the rate-limited firing rule.
- **Picker**: the two-slot colour picker.
- **GameFlow**: the game-state and swatch-counter manager.
- **EnemyAI**: the four-state enemy AI, with health and facing direction.
- **Audio**: the sound-effect table and its round-robin voice pool.

General modelling choices:

- C# events become append-only event logs (`events`). Every method states the entries it appends to the logs the model keeps, with two exceptions, both under "Left out": `Bag.ColorBag.MixColors` when a source is the mix magazine itself, and the bag's relayed `OnMagazineUpdated` event, which is not recorded.
- Time, distances, key presses and the bullet pool's answer are parameters of the methods that use them.
- Colours are concrete RGBA values over reals.
  - `Colors.Mix` is the average mix. It is the one both `ColorMixingStrategies.AverageMix` and `ColorPicker.MixColors` compute.
  - `Colors.Similar` is the Euclidean-distance test with threshold 0.2, written without the square root.
  - Single-precision rounding is not modelled.
  - No proof about the inventory depends on the arithmetic inside `Mix` or `Similar`. Only the colour lemmas in `Colors` do.
- Where the code and its documentation disagree, the model follows the code. Two examples:
  - `ClearMagazine` keeps the magazine's colour, because the reset is commented out.
  - `MixColors` checks only `CanMix`; the older expanded checks are commented out.

## Model

| member | source | states |
|---|---|---|
| Colors.Mix | Assets/ColorMixer/Scripts/Core/Color/ColorMixingStrategies.cs:11-19 | every channel of the mix lies between the two inputs' channels, a mix of in-gamut colours stays in [0, 1], and a colour mixed with itself is unchanged |
| Colors.SquaredDistance | Assets/ColorMixer/Scripts/Core/Color/ColorMixingStrategies.cs:88-91 | the squared distance used by the similarity test is never negative |
| Colors.MixLaws | Assets/ColorMixer/Scripts/Core/Color/ColorPicker.cs:226-235 | mixing is symmetric: the order of the two picker slots does not matter |
| Colors.Similar | Assets/ColorMixer/Scripts/Core/Color/ColorMixingStrategies.cs:88-91 | every colour is similar to itself |
| Colors.SimilarLaws | Assets/ColorMixer/Scripts/Core/Color/ColorMixingStrategies.cs:88-91 | similarity is reflexive and symmetric |
| Colors.BaseColorsApart | Assets/ColorMixer/Scripts/Core/Color/ColorBag.cs:341-365 | the default red, green and blue are pairwise not similar, so routing a default base colour is unambiguous |
| Magazine.ColorMagazine.IsFull | Assets/ColorMixer/Scripts/Core/Color/ColorMagazine.cs:19 | under the invariant, full means exactly that the count equals the capacity |
| Magazine.ColorMagazine.IsEmpty | Assets/ColorMixer/Scripts/Core/Color/ColorMagazine.cs:20 | under the invariant, empty means exactly that the count is 0 |
| Magazine.ColorMagazine.constructor | Assets/ColorMixer/Scripts/Core/Color/ColorMagazine.cs:35-42 | a new magazine has the given name and capacity, 0 bullets and the clear colour |
| Magazine.ColorMagazine.AddBullet | Assets/ColorMixer/Scripts/Core/Color/ColorMagazine.cs:47-69 | on a full magazine: false and nothing changes; otherwise exactly one more bullet, BulletAdded, and MagazineFull exactly when the count reaches capacity; keeps 0 <= current <= capacity |
| Magazine.ColorMagazine.RemoveBullet | Assets/ColorMixer/Scripts/Core/Color/ColorMagazine.cs:71-84 | on an empty magazine: false and nothing changes; otherwise exactly one bullet fewer, BulletRemoved, and MagazineEmpty exactly when the count reaches 0; keeps the invariant |
| Magazine.ColorMagazine.ClearMagazine | Assets/ColorMixer/Scripts/Core/Color/ColorMagazine.cs:86-92 | the count becomes 0 and the colour, capacity and name are kept |
| Magazine.ColorMagazine.SetMagazineColor | Assets/ColorMixer/Scripts/Core/Color/ColorMagazine.cs:94-98 | sets the colour, raises MagazineColorChanged, and changes nothing else |
| Magazine.ColorMagazine.SetMagazineName | Assets/ColorMixer/Scripts/Core/Color/ColorMagazine.cs:100-103 | sets the name and changes nothing else |
| Magazine.ColorMagazine.SetMagazineCapacity | Assets/ColorMixer/Scripts/Core/Color/ColorMagazine.cs:104-109 | stores the capacity; the count is clamped down to it and never raised |
| Magazine.ColorMagazine.FillMagazine | Assets/ColorMixer/Scripts/Core/Color/ColorMagazine.cs:110-117 | the count equals the capacity, so the magazine is full; MagazineFull is raised only when bullets were added |
| Bag.ColorBag.AllMagazines | Assets/ColorMixer/Scripts/Core/Color/ColorBag.cs:43 | the bag has exactly four magazines |
| Bag.ColorBag.Current | Assets/ColorMixer/Scripts/Core/Color/ColorBag.cs:32-36 | the current magazine is null exactly when the index is outside [0, 4), and otherwise the bag's magazine at that index |
| Bag.ColorBag.CanMix | Assets/ColorMixer/Scripts/Core/Color/ColorBag.cs:482-487 | mixing needs two existing magazines; under the invariant both are filled to capacity and the mix magazine holds nothing |
| Bag.ColorBag.GetMagazineByIndex | Assets/ColorMixer/Scripts/Core/Color/ColorBag.cs:181-191 | 0 to 3 give red, green, blue and mix; any other index gives null |
| Bag.ColorBag.GetMagazineIndex | Assets/ColorMixer/Scripts/Core/Color/ColorBag.cs:196-203 | the index of the first magazine equal to the argument, or -1 exactly when it is none of the four |
| Bag.ColorBag.IndexRoundTrip | Assets/ColorMixer/Scripts/Core/Color/ColorBag.cs:181-203 | on four distinct magazines, the index lookup and the magazine lookup undo each other |
| Bag.ColorBag.GetMagazine | Assets/ColorMixer/Scripts/Core/Color/ColorBag.cs:508-518 | each magazine type gives the magazine at that type's index |
| Bag.TypeIndex | Assets/ColorMixer/Scripts/Core/Color/ColorBag.cs:508-518 | every magazine type has an index in [0, 4) |
| Bag.ColorBag.GetMagazineForColor | Assets/ColorMixer/Scripts/Core/Color/ColorBag.cs:341-365 | the first base magazine (red, green, blue) whose colour is similar; null exactly when none is similar; never the mix magazine |
| Bag.DefaultRouting | Assets/ColorMixer/Scripts/Core/Color/ColorBag.cs:341-365 | with the default base colours, each of red, green and blue routes to its own magazine |
| Bag.ColorBag.constructor | Assets/ColorMixer/Scripts/Core/Color/ColorBag.cs:81-107 | start-up creates four empty magazines with capacity 6, colours them with the base colours and clear (MagazineColorChanged on the three base magazines only), selects index 0, and is not in mix mode |
| Bag.ColorBag.SetCurrentMagazine | Assets/ColorMixer/Scripts/Core/Color/ColorBag.cs:154-176 | true exactly for an index in [0, 4), which is then stored; otherwise nothing changes; CurrentMagazineChanged only when the selected magazine differs |
| Bag.ColorBag.EnterMixMode | Assets/ColorMixer/Scripts/Core/Color/ColorBag.cs:214-251 | succeeds exactly when the current magazine is a full base magazine and the mix magazine is empty; then mix mode is on and the first magazine is the current one; otherwise nothing changes |
| Bag.ColorBag.ExitMixMode | Assets/ColorMixer/Scripts/Core/Color/ColorBag.cs:256-265 | always ends outside mix mode with no first magazine |
| Bag.ColorBag.MixColors | Assets/ColorMixer/Scripts/Core/Color/ColorBag.cs:385-439 | true exactly when CanMix holds (both exist and are full, the mix magazine is empty); then both sources are empty and the mix magazine is full with the mixed colour; otherwise nothing changes |
| Bag.ColorBag.TryMixWithCurrentMagazine | Assets/ColorMixer/Scripts/Core/Color/ColorBag.cs:270-306 | fails with no change unless the bag is in mix mode with a base second magazine different from the first; a failed mix keeps mix mode, a successful one leaves it; on success both sources are cleared and the mix magazine's log gains MagazineCleared, MagazineColorChanged and MagazineFull |
| Bag.ColorBag.AddColorBullet | Assets/ColorMixer/Scripts/Core/Color/ColorBag.cs:317-334 | adds one bullet to the magazine GetMagazineForColor picks; false with no change when none matches or it is full; the other magazines are unchanged |
| Bag.ColorBag.ClearAllMagazines | Assets/ColorMixer/Scripts/Core/Color/ColorBag.cs:492-503 | all four counts become 0 (colours kept) and mix mode is left |
| MixControl.ColorMixController.constructor | Assets/ColorMixer/Scripts/Core/Color/ColorMixController.cs:17-21 | the default bindings are keys 1 to 4 for the magazines and Tab for mix mode |
| MixControl.ColorMixController.SelectKeys | Assets/ColorMixer/Scripts/Core/Color/ColorMixController.cs:17-20 | there is one selection key per magazine |
| MixControl.ColorMixController.SelectionFor | Assets/ColorMixer/Scripts/Core/Color/ColorMixController.cs:93-108 | the index of the first pressed selection key, and none exactly when no selection key is pressed; at most one selection per frame |
| MixControl.ColorMixController.HandleMagazineSelection | Assets/ColorMixer/Scripts/Core/Color/ColorMixController.cs:129-148 | outside mix mode it is SetCurrentMagazine; in mix mode an invalid index does nothing, a valid one selects and then tries to mix; re-selecting the first magazine keeps mix mode |
| MixControl.ColorMixController.HandleMixModeToggle | Assets/ColorMixer/Scripts/Core/Color/ColorMixController.cs:153-166 | in mix mode it always leaves mix mode; outside it enters only under EnterMixMode's guard; the bag's log gains exactly the mode-change and first-magazine events |
| MixControl.ColorMixController.HandleMixInput | Assets/ColorMixer/Scripts/Core/Color/ColorMixController.cs:88-117 | with no bag or no relevant key nothing changes; a selection key selects that index and, in mix mode, attempts the mix (magazines change only when it succeeds); with the toggle key in the same frame the toggle then acts on the mode the selection left; the bag's log is the selection's events followed by the toggle's |
| Shooter.ColorShooter.constructor | Assets/ColorMixer/Scripts/Core/Color/ColorShooter.cs:26-35 | the fire rate starts at 0.2 s and the last fire time at 0 |
| Shooter.ColorShooter.CanShootInternal | Assets/ColorMixer/Scripts/Core/Color/ColorShooter.cs:268-273 | a shot is possible only with a pool and a selected magazine of the bag holding at least one bullet |
| Shooter.ColorShooter.CheckFireRate | Assets/ColorMixer/Scripts/Core/Color/ColorShooter.cs:278-281 | with a non-negative rate, the interval can have passed only at or after the last fire time |
| Shooter.ColorShooter.GetShootFailReason | Assets/ColorMixer/Scripts/Core/Color/ColorShooter.cs:286-301 | the first failing condition in the order bag, selected magazine, bullets, pool: each reason holds exactly when the earlier checks pass and its own fails; UnknownReason exactly when CanShootInternal holds |
| Shooter.ColorShooter.GetFireDirectionInt | Assets/ColorMixer/Scripts/Core/Color/ColorShooter.cs:351-362 | 1 when the player's x-scale is at least 0 or there is no player, -1 otherwise |
| Shooter.ColorShooter.PerformShoot | Assets/ColorMixer/Scripts/Core/Color/ColorShooter.cs:215-263 | when the pool hands out a bullet, exactly one bullet leaves the current magazine and the fire time becomes now; otherwise no ammunition is used and the result is false |
| Shooter.ColorShooter.TryShoot | Assets/ColorMixer/Scripts/Core/Color/ColorShooter.cs:182-210 | true exactly when the shot conditions hold, the fire-rate interval has passed and the pool fires; on false no bullet is used and the fire time is kept |
| Shooter.ColorShooter.ForceShoot | Assets/ColorMixer/Scripts/Core/Color/ColorShooter.cs:509-518 | TryShoot's guards without the fire-rate check |
| Shooter.ColorShooter.SetFireRate | Assets/ColorMixer/Scripts/Core/Color/ColorShooter.cs:493-496 | the stored rate is max(0, rate), so it is never negative |
| Picker.ColorPicker.constructor | Assets/ColorMixer/Scripts/Core/Color/ColorPicker.cs:43-51 | all slots are clear, no picks, no mix |
| Picker.ColorPicker.PerformColorMixing | Assets/ColorMixer/Scripts/Core/Color/ColorPicker.cs:212-222 | slot 0 becomes the mix of both slots and slot 1 becomes clear; one more pick is counted and the picker is marked mixed |
| Picker.ColorPicker.ProcessColorBeforeMixing | Assets/ColorMixer/Scripts/Core/Color/ColorPicker.cs:183-202 | the first pick fills slot 0; a second pick with auto-mix fills slot 1 and mixes; without auto-mix a second pick is ignored |
| Picker.ColorPicker.ProcessColorAfterMixing | Assets/ColorMixer/Scripts/Core/Color/ColorPicker.cs:204-210 | after a mix, a pick overwrites only slot 1 and the count is unchanged |
| Picker.ColorPicker.ProcessPickedColor | Assets/ColorMixer/Scripts/Core/Color/ColorPicker.cs:171-181 | dispatches on mixedDone and keeps the phase invariant (no mix: at most one pick; mixed: at least two) |
| Picker.ColorPicker.MixCurrentColors | Assets/ColorMixer/Scripts/Core/Color/ColorPicker.cs:242-251 | refused with fewer than two picks; by the invariant it can mix only after a first mix |
| Picker.ColorPicker.ClearColorSlots | Assets/ColorMixer/Scripts/Core/Color/ColorPicker.cs:256-269 | every slot and the mixed colour are clear, the count is 0 and mixedDone is false |
| Picker.ColorPicker.GetColorFromSlot | Assets/ColorMixer/Scripts/Core/Color/ColorPicker.cs:274-283 | the colour in the slot, or clear for an index out of range |
| Picker.ColorPicker.SetColorToSlot | Assets/ColorMixer/Scripts/Core/Color/ColorPicker.cs:288-298 | out of range nothing changes; in range only that slot changes |
| GameFlow.Clamp | Assets/ColorMixer/Scripts/Managers/GameFlowManager.cs:46-49 | the result is in [lo, hi] and equals the value when the value is already in range |
| GameFlow.GameFlowManager.constructor | Assets/ColorMixer/Scripts/Managers/GameFlowManager.cs:17-21 | starts in Boot with 0 of 3 swatches |
| GameFlow.GameFlowManager.SetState | Assets/ColorMixer/Scripts/Managers/GameFlowManager.cs:38-43 | the current state is a no-op with no event; any other state is stored and announced once |
| GameFlow.GameFlowManager.Start | Assets/ColorMixer/Scripts/Managers/GameFlowManager.cs:32-36 | the game is Playing afterwards |
| GameFlow.GameFlowManager.OnSwatchCollected | Assets/ColorMixer/Scripts/Managers/GameFlowManager.cs:46-57 | the count stays in [0, swatchesNeeded] and rises by one below the target; the door opens on every collection at or past the target |
| GameFlow.GameFlowManager.OnChestOpened | Assets/ColorMixer/Scripts/Managers/GameFlowManager.cs:59-63 | requests the chest sound and changes nothing else |
| GameFlow.GameFlowManager.OnDoorCanOpen | Assets/ColorMixer/Scripts/Managers/GameFlowManager.cs:65-71 | requests the door sound and changes nothing else |
| GameFlow.GameFlowManager.OnLevelCompleted | Assets/ColorMixer/Scripts/Managers/GameFlowManager.cs:73-77 | the state is LevelComplete afterwards |
| GameFlow.GameFlowManager.PauseGame | Assets/ColorMixer/Scripts/Managers/GameFlowManager.cs:79-83 | Paused with time scale 0 when pausing, Playing with time scale 1 otherwise |
| GameFlow.SwatchesAfter | Assets/ColorMixer/Scripts/Managers/GameFlowManager.cs:46-56 | from zero, after k collections the count is min(k, needed) and the door opens at every collection from the needed-th on; after at least one collection the target is reached exactly when k >= needed |
| EnemyAI.NearerPoint | Assets/ColorMixer/Scripts/GamePlay/Enemy.cs:259-274 | point A exactly when it is strictly nearer; ties go to B |
| EnemyAI.Faced | Assets/ColorMixer/Scripts/GamePlay/Enemy.cs:431-443 | the facing stays 1 or -1; it changes only for an offset beyond the epsilon 0.05, to 1 to the right and -1 to the left |
| EnemyAI.Enemy.constructor | Assets/ColorMixer/Scripts/GamePlay/Enemy.cs:95-125 | full health, wait timer 0 with the given wait time, facing from the sign of the initial x-scale, patrolling towards point B when both patrol points exist |
| EnemyAI.Enemy.UpdateState | Assets/ColorMixer/Scripts/GamePlay/Enemy.cs:142-206 | the new state is the transition function of the old state; entering Patrol resets the wait timer, entering ReturnToPatrol heads for the nearer point; never chasing without a player |
| EnemyAI.Enemy.NextState | Assets/ColorMixer/Scripts/GamePlay/Enemy.cs:142-206 | no player gives Patrol; Patrol becomes Chase exactly within detection range; Attack only within attack range; Chase is entered only within detection range or from Attack beyond the attack range; ReturnToPatrol only beyond the lose range; Patrol only without a player or, from ReturnToPatrol, on arrival with patrol points. Conversely, every branch is reached: beyond the attack range Chase gives up (ReturnToPatrol) exactly beyond the lose range and otherwise keeps chasing; within the attack range Attack gives up exactly beyond the lose range and otherwise keeps attacking; beyond the detection range ReturnToPatrol becomes Patrol exactly on arrival with patrol points and otherwise keeps returning |
| EnemyAI.Enemy.AfterExecute | Assets/ColorMixer/Scripts/GamePlay/Enemy.cs:348-365 | executing a state changes it only from ReturnToPatrol to Patrol, which happens exactly without patrol points or on arrival at the target |
| EnemyAI.Enemy.AttackLosesTargetOnlyIfRangesInverted | Assets/ColorMixer/Scripts/GamePlay/Enemy.cs:176-187 | Attack goes to ReturnToPatrol exactly when loseTargetRange < d <= attackRange, so only when loseTargetRange < attackRange |
| EnemyAI.Enemy.DefaultAttackKeepsTarget | Assets/ColorMixer/Scripts/GamePlay/Enemy.cs:23-25 | with the default ranges 1.2 and 7, Attack never goes straight to ReturnToPatrol |
| EnemyAI.Enemy.ChasingNeedsPlayer | Assets/ColorMixer/Scripts/GamePlay/Enemy.cs:601-604 | the enemy chases or attacks after a frame only when a player exists; it starts chasing only within detection range |
| EnemyAI.Enemy.TransitionToPatrol | Assets/ColorMixer/Scripts/GamePlay/Enemy.cs:237-241 | Patrol with the wait timer reset |
| EnemyAI.Enemy.TransitionToChase | Assets/ColorMixer/Scripts/GamePlay/Enemy.cs:243-246 | Chase and nothing else changes |
| EnemyAI.Enemy.TransitionToAttack | Assets/ColorMixer/Scripts/GamePlay/Enemy.cs:248-252 | Attack and nothing else changes |
| EnemyAI.Enemy.TransitionToReturnToPatrol | Assets/ColorMixer/Scripts/GamePlay/Enemy.cs:254-275 | ReturnToPatrol towards the nearer point (B on a tie) when both points exist; the target is kept otherwise |
| EnemyAI.Enemy.SwitchPatrolTarget | Assets/ColorMixer/Scripts/GamePlay/Enemy.cs:406-417 | flips to the other patrol point and faces it as Faced says |
| EnemyAI.Enemy.UpdateFacing | Assets/ColorMixer/Scripts/GamePlay/Enemy.cs:431-443 | the facing becomes Faced of the old facing and the offset, so it stays 1 or -1 |
| EnemyAI.Enemy.ExecutePatrol | Assets/ColorMixer/Scripts/GamePlay/Enemy.cs:283-314 | at the patrol point the wait timer grows by the frame time until the wait time is reached, then the target switches to the other point and the timer restarts; away from it or without patrol points nothing changes |
| EnemyAI.Enemy.ExecuteAttack | Assets/ColorMixer/Scripts/GamePlay/Enemy.cs:334-346 | the enemy turns towards the player when one exists; nothing else changes |
| EnemyAI.Enemy.ExecuteReturnToPatrol | Assets/ColorMixer/Scripts/GamePlay/Enemy.cs:348-365 | without patrol points or on arrival the enemy patrols with the timer reset; otherwise nothing changes |
| EnemyAI.Enemy.ExecuteCurrentState | Assets/ColorMixer/Scripts/GamePlay/Enemy.cs:211-231 | dispatches on the state: Chase changes nothing, the others as their Execute methods; the resulting state is AfterExecute |
| EnemyAI.Enemy.Update | Assets/ColorMixer/Scripts/GamePlay/Enemy.cs:75-79 | one frame: the state is AfterExecute of NextState; health is untouched; without patrol points the enemy never stays in ReturnToPatrol; IsChasingPlayer only when a player exists |
| EnemyAI.Enemy.TakeDamage | Assets/ColorMixer/Scripts/GamePlay/Enemy.cs:503-513 | health drops by the amount, and Die runs exactly when the health is then at most 0 |
| Audio.LastIndex | Assets/ColorMixer/Scripts/Managers/AudioManager.cs:36-41 | the last entry among the first n with a non-empty key equal to k and a clip, or -1 exactly when there is none |
| Audio.BuildSfxMap | Assets/ColorMixer/Scripts/Managers/AudioManager.cs:36-41 | the table maps exactly the keys of entries with a non-empty key and a clip, each to the last such entry (later entries overwrite earlier ones) |
| Audio.SfxMapUnique | Assets/ColorMixer/Scripts/Managers/AudioManager.cs:36-41 | the table is determined by the clip list |
| Audio.AudioManager.constructor | Assets/ColorMixer/Scripts/Managers/AudioManager.cs:31-68 | builds the table, creates the configured number of 2D voices, and creates a looping 2D music source unless one is assigned |
| Audio.Advance | Assets/ColorMixer/Scripts/Managers/AudioManager.cs:73 | the next voice index is (i + 1) mod n and stays in [0, n) |
| Audio.AudioManager.NextSfxSource | Assets/ColorMixer/Scripts/Managers/AudioManager.cs:70-75 | returns the current voice and advances to (i + 1) mod n, keeping the index in range |
| Audio.RotationCycles | Assets/ColorMixer/Scripts/Managers/AudioManager.cs:70-75 | the j-th of up to n successive voices is start + j mod n, and no two of them coincide |
| Audio.RotationCoversPool | Assets/ColorMixer/Scripts/Managers/AudioManager.cs:70-75 | n successive voices cover every voice of the pool |
| Audio.Clamp01 | Assets/ColorMixer/Scripts/Managers/AudioManager.cs:109 | the music volume is clamped into [0, 1] and kept when already inside |
| Audio.AudioManager.PlaySFX | Assets/ColorMixer/Scripts/Managers/AudioManager.cs:77-89 | an unmapped key changes nothing and does not advance the voice; a mapped key plays its clip and volume in 2D on the next voice |
| Audio.AudioManager.PlaySFXAt | Assets/ColorMixer/Scripts/Managers/AudioManager.cs:91-102 | like PlaySFX at the given position, with spatial blend 1 exactly when the entry is spatial |
| Audio.AudioManager.PlayBGM | Assets/ColorMixer/Scripts/Managers/AudioManager.cs:104-112 | a missing clip changes nothing; otherwise the music restarts with the clip, the clamped volume and the loop flag |
| Audio.AudioManager.StopBGM | Assets/ColorMixer/Scripts/Managers/AudioManager.cs:114-118 | the music is stopped with no clip |

## Left out

- Engine physics and movement are not modelled: rigid bodies, raycasts, `MoveTowards` (including the facing it sets while walking), `StopMovement` and knock-back. The `Execute*` methods of `Enemy` keep their state changes (timer, target switch, facing the player, return to Patrol) but not the movement. Distances, offsets and the frame time are parameters.
- Enemy attacks are left out: `TryAttack`, `PerformAttack` and the player's `Hurt`. They are timing and foreign calls, not state of the AI.
- EnemyAI.Enemy: the patrol target is modelled as *which* patrol point was copied (A, B, or the initial unset value), not as a position.
- EnemyAI.Enemy.TakeDamage: `Die` is counted in `deaths`. Its death sound and the delayed destruction of the game object are not modelled, so damage after death counts another death, as the code would until destruction. Health is an unbounded integer, so 32-bit overflow is not modelled.
- Float arithmetic is not modelled: colours, distances and times are reals.
- Unity lifecycle plumbing is left out: singletons, `Awake`/`Start` lookups of other components, `Debug.Log`, `OnGUI`, Gizmos and the info-string getters.
- The colour bag's serialized magazines are left out. `Bag.ColorBag.constructor` models start-up with no magazines assigned in the inspector (four new ones are created). The four magazines are then fixed.
- Event subscribers are left out; only the raised events are recorded.
- Bag.ColorBag: the bag's own `OnMagazineUpdated` event is not recorded. At start-up the bag subscribes to each of its magazines and re-raises `OnMagazineUpdated` whenever one of them raises BulletAdded, BulletRemoved or MagazineCleared (ColorBag.cs lines 112-121 and 141-144). The model keeps no bag-log entry for it, so `AddColorBullet`, `MixColors`, `TryMixWithCurrentMagazine`, `ClearAllMagazines` and the shooter's `PerformShoot` state nothing about it; the magazines' own logs, which these methods do state, carry the underlying events one for one.
- Bag.ColorBag.MixColors: the event logs of the magazines are stated only when the sources are distinct from the mix magazine. When a source is the mix magazine itself, the counts and colours are still stated but the interleaving of its events is not.
- Bag.ColorBag.AddColorBullet requires the four magazines to be distinct objects, which start-up guarantees.
- Shooter.ColorShooter: bullet spawning, fire position, auto-fire and the setters other than `SetFireRate` (`SetColorBag`, `SetPlayerController`, `SetColorPicker`, `SetFirePoint`, `SetBulletParameters`, `SetFireOffset`, `SetAutoFire`) are left out; they only store references or presentation values. The pool's existence and whether it hands out a bullet are parameters; the requested shots are recorded.
- Picker.ColorPicker: raycasting and the component lookup that find the picked colour are left out; the colour is a parameter.
- Picker.ColorPicker.constructor requires at least two slots, so the model excludes one configuration that works in the code: one slot without auto-mix, which only ever writes slot 0 and never reaches a second pick. One slot with auto-mix fails at the second pick's write to slot 1, and zero slots fail at the first pick's write to slot 0.
- GameFlow.GameFlowManager: the UI button callbacks are left out. `OnClickShoot` and `OnClickSelectInkA1` to `A3` only request a sound; `OnClickSelectInkB` and the three `OnClickMix*` callbacks are empty. `CollectSwatch_ByTrigger` is an alias of `OnSwatchCollected`. The sounds the core requests are recorded as keys.
- Audio.AudioManager: actual playback is left out. Each voice records its settings and the number of times `Play` was called. Two run-time failures become preconditions: a negative voice count, and playing a known key with an empty pool.
- Audio.AudioManager.PlaySFX: a null key cannot be passed; keys are strings. Null entry keys in the clip list are `None` and are skipped like empty ones.
- Default arguments are not modelled: `ColorMagazine`'s constructor defaults (name "Magazine", capacity 6) and `PlayBGM`'s defaults (volume 1, looping). Callers of the model pass every argument.
