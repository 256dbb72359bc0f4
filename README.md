# Chase Me, modelled in Dafny

A model of the game rules of "Chase Me", a 2D arcade game on the Bevy engine. The player
steers a ship by momentum and avoids enemies. Enemies spawn every five seconds of game time,
scaled by the score, and chase the player while they have energy. An enemy that outlives its
timer pays its strength into the score. The model covers these parts of the game:

- the enemy generator and its per-frame life (`src/game/enemy/`);
- momentum movement (`src/game/movement.rs`);
- the release buttons and the in-game menus;
- the screen and in-game state machines, and the collision filter;
- the small pure mappings: key names, button labels, `get_magnitude` and the window guard;
- the older variants still in the tree, each modelled on its own terms: the single-file enemy
  generator (`src/game/enemy.rs`), three pig economies and plain character movement.

Conventions used throughout:

- `f32` is `real`.
- A random draw is a unit draw `u` in `[0, 1]`, passed in as a parameter, and
  `lo + u * (hi - lo)` is the value it stands for (`Numeric.Lerp`).
- A rejection loop draws from a finite sequence of candidates. Its precondition is that some
  candidate is accepted; the loop is kept and its termination is proved.
- Bevy's `Timer` is the datatype `Timers.Timer`: duration, elapsed time, mode and a finished
  flag, with `Tick`, `Reset` and `from_seconds`.
- An ECS query is a `seq` field of a class.
- A system is a method with a loop. Its `ensures` ties the new state to a pure frame function,
  and lemmas prove properties of that function.
- Resources (`Score`, `Money`, `NextState<S>`) and event writers and readers are objects
  passed to the systems.
- An entity despawned by a command leaves its collection when the system ends.
- A `single()` that would panic becomes a precondition.
- The radius `assert!` of `spawn_enemy` becomes the outcome `RadiusTooLarge`, in which
  nothing is spawned.

Modules follow the source files:

| module | file | source |
|---|---|---|
| `Numeric` | numeric.dfy | clamps, absolute value, `Lerp`, `%` on `f32` |
| `Timers` | timers.dfy | the engine's `Timer` |
| `Components`, `Events` | components.dfy | vectors, colours, entities, event queues |
| `Input` | keys.dfy | `KeyCode`, `ButtonInput` |
| `Enemies` | enemy_mod.dfy | src/game/enemy/mod.rs |
| `EnemyStrength` | enemy_strength.dfy | `calc_strength`, `randomize` of src/game/enemy/systems.rs |
| `EnemyResources` | enemy_resources.dfy | src/game/enemy/resources.rs |
| `EnemySystems` | enemy_systems.dfy | src/game/enemy/systems.rs |
| `Movement` | movement.dfy | src/game/movement.rs |
| `LegacyEnemy` | legacy_enemy.dfy | src/game/enemy.rs |
| `BetterButton` | better_button.dfy | src/common/better_button.rs |
| `States` | states.dfy | the state enums of src/game/state.rs, src/screens/mod.rs, src/main.rs |
| `Screens` | screens.dfy | src/screens/mod.rs |
| `GameState` | game_state.dfy | src/game/state.rs |
| `Collisions` | collisions.dfy | src/game/collisions.rs |
| `Views` | views.dfy | src/game/views/{pause,summary,options}.rs, src/menu/menu_view.rs |
| `Widgets` | widgets.dfy | src/theme/widgets.rs |
| `WindowGuard` | window.dfy | src/window.rs |
| `App` | app.dfy | src/lib.rs |
| `PigMotion` | pig_motion.dfy | `Pig` and `pig_movement`, shared by src/game/pig.rs and src/plugins/pig.rs |
| `Wallet` | money.dfy | src/resources/mod.rs and the purchase step of the pig shops |
| `GamePigs` | game_pig.dfy | src/game/pig.rs |
| `PluginPigs` | plugin_pig.dfy | src/plugins/pig.rs |
| `SystemPigs` | systems_pig.dfy | src/systems/pig.rs |
| `Character` | character.dfy | src/plugins/player.rs and src/systems/mod.rs |

Some code appears twice. `pig_movement` is the same in src/game/pig.rs and
src/plugins/pig.rs, so both use `PigMotion.WanderStep`. `character_movement` is the same in
src/plugins/player.rs and src/systems/mod.rs, and its model is `Character`. Everything else
that differs between the current code and a legacy variant (formulas, constants, clamps) is
modelled separately.

### Behaviour worth knowing

The model follows the code in each of these cases.

- **Enemy energy.** Energy is not kept in `[0, max_energy]`. The recharge at
  src/game/enemy/systems.rs:115 adds `(recharge_rate·dt).clamp(0, max_energy)` to the energy
  without clamping the sum, so it can overshoot `max_energy`. A hit at line 156 subtracts a
  fifth of `max_energy` with no lower bound, so energy can go below zero. Each step states
  only what it guarantees (`EnemySystems.StoppedStep`, `EnemySystems.MovingStep`,
  `EnemySystems.HitFrameCounts`).
- **Collisions with stopped enemies.** src/game/collisions.rs:31-42 never looks at the enemy's
  state. Every starting contact between the player and any enemy of the query ends the game,
  whether that enemy is Moving or Stopped (`Collisions.EndGameIffContact`).
- **Speed limit.** src/game/movement.rs:84-88 clamps each velocity component to
  `±max_speed`, not the magnitude. The model bounds each component (`Movement.StepVelocity`),
  so a diagonal velocity can reach `√2·max_speed`.
- **Stopped enemies keep moving.** In src/game/movement.rs:140-153 a stopped enemy keeps its
  velocity and still advances by it; only its colour turns grey (`Movement.ChaseStep`).
- **Stat ranges.** `randomize` (src/game/enemy/systems.rs:168-176) draws from
  `[min, max(max·bias, min)]` and does not clamp the draw back into the configured range. With
  `bias > 1` a stat can exceed its configured maximum (`EnemyStrength.Randomize`).
- **Difficulty normalisation.** The relative difficulty at src/game/enemy/resources.rs:71-74
  is `(d − min) / (2·max − min)`, not `(d − min) / (max − min)`. The power range need not be
  ordered (`EnemyResources.HighCornerCanBeWeaker`). Where the divisor can be zero, the model
  requires it to be non-zero.

## Model

| member | source | states |
|---|---|---|
| `Timers.Timer.Tick` | src/game/pig.rs:112-114 | `tick`: mode and duration are kept; a once-timer is finished iff it already was or the elapsed time reaches the duration; a repeating timer is finished iff this tick reaches the duration; an unfinished timer has advanced by exactly `delta`; a finished repeating timer wraps to the new elapsed time modulo the duration (0 for a zero duration) |
| `Timers.Timer.Reset` | src/game/pig.rs:130 | `reset`: back to zero elapsed time, not finished, same duration and mode |
| `Timers.FromSeconds` | src/game/pig.rs:93-95 | `Timer::from_seconds(d, mode)`: a fresh, unfinished timer of duration `d`, elapsed 0 |
| `Timers.TickAll` | src/game/pig.rs:112 | one tick per frame keeps the timer well formed |
| `Timers.OnceTimerFinishesAtDuration` | src/game/enemy/systems.rs:123-128 | a once-timer is finished after a non-empty run of ticks iff it was already finished or the frame times add up to what remained; until then it has advanced by their sum |
| `Timers.FreshOnceTimerFinishedIff` | src/game/enemy/mod.rs:81 | a fresh once-timer of duration `d` finishes exactly when the frame times add up to `d` |
| `Enemies.NewEnemy` | src/game/enemy/mod.rs:79-90 | `Enemy::new`: Stopped, health 4, energy in `[0, max_energy]`, `max_energy` and `recharge_rate` stored unchanged, a fresh once-timer of the given lifetime |
| `Enemies.EveryStartingEnergyReachable` | src/game/enemy/mod.rs:83 | every energy in `[0, max_energy]` is a possible starting energy |
| `EnemyStrength.CalcStrength` | src/game/enemy/systems.rs:163-165 | for positive stats the strength exceeds `max_energy + recharge_rate`, which is positive |
| `EnemyStrength.StrengthMonotone` | src/game/enemy/systems.rs:163-165 | for positive stats the strength is non-decreasing in speed, thrust, maximum energy and recharge rate, and non-increasing in mass |
| `EnemyStrength.RandomizeMax` | src/game/enemy/systems.rs:172 | the upper end of the draw is `max·bias` clamped from below by `min`: at least both, and one of them |
| `EnemyStrength.Randomize` | src/game/enemy/systems.rs:168-176 | with `min > 0` and `bias > 0`, the draw lies in `[min, max(max·bias, min)]`, is exactly `min` when `max·bias <= min`, and reaches both ends |
| `EnemyStrength.RandomizeCovers` | src/game/enemy/systems.rs:175 | every value of the biased range is a possible draw |
| `EnemyResources.DefaultStrengthRange` | src/game/enemy/resources.rs:23-36 | every default range satisfies `0 < lo <= hi`, so `randomize` accepts it with any positive bias |
| `EnemyResources.GetPowerRange` | src/game/enemy/resources.rs:40-50 | the strength of the all-low ship paired with that of the all-high ship; each exceeds its energy plus recharge |
| `EnemyResources.DefaultPowerRange` | src/game/enemy/resources.rs:23-50 | with the default ranges the power range is `(90, 204)` and the divisor `2·max − min` is 318 |
| `EnemyResources.HighCornerCanBeWeaker` | src/game/enemy/resources.rs:40-50 | a valid range exists whose all-high ship is weaker than its all-low ship, so the power range is not ordered in general |
| `EnemyResources.GetEnemyStats` | src/game/enemy/resources.rs:52-64 | each of the six stats lies in `[lo, max(hi·bias, lo)]` of its range; mass `>= mass.0 > 0`; all stats positive; a Stopped enemy with energy in `[0, max_energy]` and a fresh once lifetime |
| `EnemyResources.GetRadius` | src/game/enemy/resources.rs:66-68 | the radius lies in `[radius.0, radius.1]`, and is `radius.0` when the mass-scaled upper end falls below it |
| `EnemyResources.RelativeDifficulty` | src/game/enemy/resources.rs:71-74 | `(d − min)/(2·max − min)` is zero iff the strength equals the low end of the power range and, with a positive divisor, negative iff it is below it |
| `EnemyResources.RelativeDifficultyMonotone` | src/game/enemy/resources.rs:71-74 | with a positive divisor a stronger ship never has a lower relative difficulty |
| `EnemyResources.ColourForDifficulty` | src/game/enemy/resources.rs:76-96 | the ladder yields a palette colour: red below 0.1, white from 0.9 |
| `EnemyResources.Tier` | src/game/enemy/resources.rs:76-96 | reference tiers: 0 below 0.1, 9 from 0.9, tier `t` covering `[t/10, (t+1)/10)` in between |
| `EnemyResources.ColourIsTierEntry` | src/game/enemy/resources.rs:76-96 | the if-else ladder with strict `<` picks exactly the palette entry of the tier |
| `EnemyResources.PaletteDistinct` | src/game/enemy/resources.rs:76-96 | the ten colours are distinct, so a colour names its tier |
| `EnemyResources.TierMonotone` | src/game/enemy/resources.rs:76-96 | the tier is non-decreasing in the relative difficulty |
| `EnemyResources.GetColour` | src/game/enemy/resources.rs:70-97 | `get_colour` is the palette entry of the tier of the ship's relative difficulty |
| `EnemyResources.StarShape` | src/game/enemy/resources.rs:118-128 | the star has ten points at twice the radius at even indices and at the radius at odd ones, evenly spaced around one turn |
| `EnemyResources.BirdPoints` | src/game/enemy/resources.rs:107-112 | the bird has exactly four points, symmetric about the vertical axis |
| `EnemyResources.StarIffLowTier` | src/game/enemy/resources.rs:84-86 | a ship is drawn as a star exactly when its colour tier is at most 4 |
| `EnemyResources.GetShape` | src/game/enemy/resources.rs:99-162 | the point-pushing loop yields the star iff the relative difficulty is below 0.5 and the bird otherwise, so star iff colour tier `<= 4` |
| `EnemySystems.SpawnDueAtMultiplesOfFive` | src/game/enemy/systems.rs:24 | a frame whose game time is a multiple of five seconds passes the spawn gate for any positive frame time |
| `EnemySystems.NoSpawnWithoutElapsedTime` | src/game/enemy/systems.rs:24 | a frame with no elapsed time never passes the gate |
| `EnemySystems.SpawnBias` | src/game/enemy/systems.rs:42 | the bias is `score/100` clamped into `[0.5, 2]`: 0.5 below a score of 50, 2 above 200 |
| `EnemySystems.SpawnBiasMonotone` | src/game/enemy/systems.rs:42 | the bias never decreases as the score grows |
| `EnemySystems.CandidatePoint` | src/game/enemy/systems.rs:54-55 | a candidate lies in `[-hw+r, hw-r] × [-hh+r, hh-r]` |
| `EnemySystems.FirstAccepted` | src/game/enemy/systems.rs:53-63 | the first candidate outside the `0.4·hw × 0.4·hh` box around the player; all earlier ones are inside it |
| `EnemySystems.PickSpawnPoint` | src/game/enemy/systems.rs:53-63 | the rejection loop returns the first accepted candidate: within the shrunk window and outside the box around the player |
| `EnemySystems.StoppedStep` | src/game/enemy/systems.rs:114-119 | a Stopped step raises energy by `clamp(recharge·dt, 0, max_energy)`, never lowers it, and switches to Moving iff the new energy is `>= max_energy`; nothing else changes |
| `EnemySystems.MovingStep` | src/game/enemy/systems.rs:121-137 | a Moving step leaves energy in `[0, max_energy]` and never raises a non-negative energy; it ticks the lifetime, stops iff the energy reaches 0, and expires iff energy remains and the lifetime finished; nothing else changes |
| `EnemySystems.LifetimeFrame` | src/game/enemy/systems.rs:104-141 | `enemy_lifetime` over the query: every enemy either survives or is destroyed; survivors stay well formed and the gain is non-negative |
| `EnemySystems.LifetimeFrameAppend` | src/game/enemy/systems.rs:112-140 | while no enemy changes state, the frame over a concatenation is the two frames combined |
| `EnemySystems.LifetimeFlipEndsFrame` | src/game/enemy/systems.rs:117-118 | the first enemy that changes state ends the frame: it is updated and every later enemy is left unchanged |
| `EnemySystems.ExpiredEnemyRewarded` | src/game/enemy/systems.rs:128-137 | an expiring Moving enemy adds exactly its strength to the score, is despawned, and sends one `ShipDestroyed` with its x, y and colour |
| `EnemySystems.HitOne` | src/game/enemy/systems.rs:149-157 | one `ShipHit` lowers only the enemies with that handle, each by a fifth of its maximum energy |
| `EnemySystems.HitFrame` | src/game/enemy/systems.rs:144-160 | all events applied in order keep the enemies and their well-formedness |
| `EnemySystems.HitFrameCounts` | src/game/enemy/systems.rs:148-158 | `n` hits on an enemy lower its energy by `n·0.2·max_energy` with no lower bound; an enemy never hit is untouched |
| `EnemySystems.SpawnStats` | src/game/enemy/systems.rs:42-45 | the stats and radius of a spawn: positive mass, radius in the configured range |
| `EnemySystems.PlanSpawn` | src/game/enemy/systems.rs:13-101 | `spawn_enemy`: no spawn iff off the gate; no window iff due without one; the radius assert fails only when the radius reaches half the width or height; otherwise one well-formed enemy inside the shrunk window and outside the box around the player, Stopped with health 4 and energy in range, filled with its tier colour, a star iff tier `<= 4`, velocity `(0.1, 0.1)` |
| `EnemySystems.WideWindowNeverPanics` | src/game/enemy/systems.rs:47-50 | a window more than twice the largest radius in both directions never trips the radius assert |
| `EnemySystems.AfterSpawn` | src/game/enemy/systems.rs:73-100 | a spawned, well-formed enemy is appended; the collection stays well formed |
| `EnemySystems.Despawn` | src/game/enemy/mod.rs:30-34 | after the despawn commands apply, only enemies whose handles were not despawned remain |
| `EnemySystems.DespawnEverything` | src/game/enemy/mod.rs:30-34 | despawning every enemy's handle empties the collection |
| `EnemySystems.DespawnCovered` | src/game/enemy/mod.rs:30-34 | any despawn set covering every handle empties the collection |
| `EnemySystems.EnemyWorld.SpawnEnemy` | src/game/enemy/systems.rs:13-101 | the new enemies are the planned outcome applied to the old ones; score and events untouched |
| `EnemySystems.EnemyWorld.EnemyHit` | src/game/enemy/systems.rs:144-160 | the nested event/enemy loops leave exactly `HitFrame` of the old enemies |
| `EnemySystems.EnemyWorld.EnemyLifetime` | src/game/enemy/systems.rs:104-141 | the loop with its early `return` leaves `LifetimeFrame` of the old enemies, adds its gain to the score and appends its `ShipDestroyed` events |
| `EnemySystems.EnemyWorld.DespawnAllEnemies` | src/game/enemy/mod.rs:30-34 | every enemy is gone; score and handles untouched |
| `EnemySystems.EnemyWorld.Update` | src/game/enemy/mod.rs:48-54 | only while Playing: `spawn_enemy`, then `enemy_hit`, then `enemy_lifetime`, chained; the handle counter advances exactly when an enemy spawns, and otherwise nothing changes |
| `EnemySystems.StepEnemy` | src/game/enemy/systems.rs:113-139 | the loop body's energy and state updates equal `StepEntity` |
| `EnemySystems.StepStopped` | src/game/enemy/systems.rs:114-120 | the Stopped arm's updates equal `StoppedStep` |
| `EnemySystems.StepMoving` | src/game/enemy/systems.rs:121-138 | the Moving arm's updates equal `MovingStep` |
| `EnemySystems.SpawnedEnemy` | src/game/enemy/systems.rs:52-100 | the spawned enemy is well formed, inside the window shrunk by its radius and outside the `0.4·hw × 0.4·hh` box around the player, Stopped with health 4, filled with its tier colour, a star iff tier `<= 4`, velocity `(0.1, 0.1)` |
| `EnemySystems.SpawnSteps` | src/game/enemy/systems.rs:23-100 | the system's decisions in source order (gate, window, stats, radius assert, placement) reach exactly `PlanSpawn` |
| `EnemySystems.PlaceEnemy` | src/game/enemy/systems.rs:52-99 | the placement loop, colour, shape and bundle build exactly `SpawnedEnemy` |
| `EnemySystems.LifetimeLoop` | src/game/enemy/systems.rs:111-140 | the loop with its early `return` computes exactly `LifetimeFrame`: kept enemies, gain and `ShipDestroyed` events |
| `EnemySystems.FrameStepsOn` | src/game/enemy/systems.rs:114-138 | one more enemy that does not change state extends the frame: an expired one adds its strength and one event, any other is kept stepped |
| `EnemySystems.FrameStopsAt` | src/game/enemy/systems.rs:116-126 | the first enemy that changes state ends the frame: the frame so far, that enemy stepped, the rest untouched |
| `EnemySystems.DrainedStepwise` | src/game/enemy/systems.rs:156 | no hit leaves an enemy as it was and each further hit is one more fifth of max energy taken |
| `Movement.Acceleration` | src/game/movement.rs:71-83 | each axis is `+a`, `-a` or 0 with `a = thrust/mass`; opposite keys cancel and no keys gives zero |
| `Movement.StepVelocity` | src/game/movement.rs:84-88 | each component is `v + acc·dt` clamped to `±max_speed`, so it lies within `±max_speed`, and is unclamped when already inside |
| `Movement.PlayerStep` | src/game/movement.rs:70-89 | the clamped velocity, and the translation advanced by the velocity itself (not velocity·dt) with z kept |
| `Movement.PlayerCoastsWithoutKeys` | src/game/movement.rs:71-88 | with no key and an in-bounds velocity, the velocity is unchanged |
| `Movement.Nearest` | src/game/movement.rs:115-124 | none iff there are no targets; otherwise a target at minimal distance, and the first such one (strict `<` in the fold) |
| `Movement.Targets` | src/game/movement.rs:107 | the chase targets are exactly the player translations |
| `Movement.ChaseStep` | src/game/movement.rs:110-153 | Moving: fill is the enemy colour and the velocity steps toward the nearest target, clamped to `±max_speed`; Stopped: grey fill, velocity kept; both advance by the velocity |
| `Movement.ChaseFrame` | src/game/movement.rs:97-155 | with a target every enemy takes its chase step; without one the velocities are kept |
| `Movement.ChaseWithoutTargets` | src/game/movement.rs:126-129 | without a player, the Stopped enemies before the first Moving one are greyed and advanced; that one is recoloured and the system returns, leaving the rest unmoved |
| `Movement.FrameAtFirstMoving` | src/game/movement.rs:126-129 | the early return leaves every enemy after the first Moving one unchanged |
| `Movement.ChaseFrameValid` | src/game/movement.rs:97-155 | chasing keeps every enemy's momentum and so its validity |
| `Movement.BoundPosition` | src/game/movement.rs:36-39 | x is clamped into `[-hw, hw]` and y into `[-hh, hh]`, z kept; a position inside is unchanged |
| `Movement.BoundPositionIdempotent` | src/game/movement.rs:36-39 | bounding twice is bounding once |
| `Movement.MovementWorld.PlayerMovement` | src/game/movement.rs:65-94 | every player body takes its `PlayerStep`; the enemies are untouched |
| `Movement.MovementWorld.ChaseMovement` | src/game/movement.rs:97-155 | the enemies become `ChaseFrame` of the old ones toward the players |
| `Movement.MovementWorld.BoundedMovement` | src/game/movement.rs:26-40 | with a window every bounded translation is clamped to its half-extents; without one nothing changes |
| `Movement.MovePlayer` | src/game/movement.rs:71-89 | the loop body's field-by-field updates equal `PlayerStep` |
| `Movement.ChaseEnemy` | src/game/movement.rs:110-153 | the loop body returns early iff there is no target and the enemy is Moving, and otherwise equals the chase step |
| `Movement.ChaseLoop` | src/game/movement.rs:110-153 | the loop over the enemies, stopping at the first early return, computes exactly `ChaseFrame` |
| `Movement.DriftBeforeFirstMoving` | src/game/movement.rs:140-145 | without a target, every Stopped enemy before the first Moving one is greyed and advanced by its velocity |
| `Movement.FirstMovingEndsChase` | src/game/movement.rs:112-129 | without a target, the first Moving enemy only gets its colour back and every later enemy is untouched |
| `Movement.MovementUpdate` | src/game/movement.rs:12-19 | only while Playing: player, chase and bounded movement, chained in that order |
| `LegacyEnemy.NewEnemy` | src/game/enemy.rs:68-77 | the legacy `Enemy::new`: Stopped, energy in `[0, max_energy]`, stats stored, fresh once-timer |
| `LegacyEnemy.CalcStrength` | src/game/enemy.rs:203-205 | the same formula over the legacy component; at least `max_energy + recharge` for non-negative stats |
| `LegacyEnemy.Randomize` | src/game/enemy.rs:208-211 | with `max > 0` the draw lies in `[0, max]` and reaches both ends |
| `LegacyEnemy.RandomizeCovers` | src/game/enemy.rs:208-211 | every value of `[0, max]` is a possible draw |
| `LegacyEnemy.DefaultMaxStrength` | src/game/enemy.rs:225-237 | the default maxima are positive and the lifetime maximum is at least 10 |
| `LegacyEnemy.GetPower` | src/game/enemy.rs:241-250 | the strength of the all-maximum ship, above its energy plus recharge |
| `LegacyEnemy.DefaultPower` | src/game/enemy.rs:225-250 | the default maximum power is 228 |
| `LegacyEnemy.GetEnemyStats` | src/game/enemy.rs:252-264 | speed, thrust, energy and recharge are `randomize(max)·bias`; mass is a draw without bias; lifetime is clamped to `[10, max_lifetime]` |
| `LegacyEnemy.GetRadius` | src/game/enemy.rs:266-269 | `max_radius·max_mass/mass`: positive, `max_radius` at the heaviest mass and at least that below it |
| `LegacyEnemy.RadiusAntitone` | src/game/enemy.rs:266-269 | a heavier enemy is never larger |
| `LegacyEnemy.RelativeDifficulty` | src/game/enemy.rs:273-274 | `strength / get_power()` is at most 1 for ships no stronger than the maximum and non-negative for non-negative strength |
| `LegacyEnemy.ColourForDifficulty` | src/game/enemy.rs:275-296 | the legacy ladder is the palette entry of the same ten tiers |
| `LegacyEnemy.GetColour` | src/game/enemy.rs:271-297 | the legacy `get_colour` is the tier entry of `strength / get_power()` |
| `LegacyEnemy.BlueIffTopTiers` | src/game/enemy.rs:291-296 | the colour is blue exactly when the relative difficulty is at least 0.8 |
| `LegacyEnemy.GetShape` | src/game/enemy.rs:329-332 | the legacy shape is always a circle of the unclamped radius |
| `LegacyEnemy.ShapeIgnoresDifficulty` | src/game/enemy.rs:299-332 | the shape does not depend on the enemy's energy or recharge |
| `LegacyEnemy.SpawnRadius` | src/game/enemy.rs:113-115 | the collider radius is clamped into `[2, h/2 − 1]` |
| `LegacyEnemy.CandidatePoint` | src/game/enemy.rs:124-125 | a candidate lies in `[r, w−r] × [r, h−r]` |
| `LegacyEnemy.FirstAccepted` | src/game/enemy.rs:123-133 | the first candidate outside the `0.2w × 0.2h` box around the player |
| `LegacyEnemy.PickSpawnPoint` | src/game/enemy.rs:122-133 | the rejection loop returns the first accepted candidate, inside the shrunk window and outside the box |
| `LegacyEnemy.SpawnStats` | src/game/enemy.rs:110-115 | a spawn's stats are `get_enemy_stats` at the score's bias and its radius is the clamped one |
| `LegacyEnemy.PlanSpawn` | src/game/enemy.rs:81-166 | the legacy `spawn_enemy`: gated like the current one, no spawn without a window, the assert fails exactly when the radius reaches half the width, otherwise one enemy at rest at the accepted point |
| `LegacyEnemy.WideWindowNeverPanics` | src/game/enemy.rs:117-120 | a window at least as wide as it is high never trips the radius assert |
| `LegacyEnemy.SpawnedWellFormed` | src/game/enemy.rs:142-165 | every spawned legacy enemy is well formed |
| `LegacyEnemy.StoppedStep` | src/game/enemy.rs:178-184 | recharge by `clamp(recharge·dt, 0, max_energy)`, never expiring, Moving iff the new energy is `>= max_energy`; nothing else changes |
| `LegacyEnemy.MovingStep` | src/game/enemy.rs:185-196 | energy loses `clamp(dt, 0, energy)`, so it ends at `max(energy − dt, 0)`: never negative and never higher; Stopped iff energy `<= 0`; expiry iff energy remains and the lifetime finished |
| `LegacyEnemy.FirstFlip` | src/game/enemy.rs:176-191 | the index of the first enemy that changes state, the one whose `return` ends the frame |
| `LegacyEnemy.LifetimeFromSummary` | src/game/enemy.rs:176-199 | the frame keeps the survivors before the first state change, then that enemy updated and the untouched rest, and adds the strengths of the expired |
| `LegacyEnemy.LifetimeFrameKeepsWellFormed` | src/game/enemy.rs:169-200 | after a legacy frame every enemy is well formed, no enemy is added and the score has not dropped |
| `LegacyEnemy.StoppedEarnNothing` | src/game/enemy.rs:178-184 | a frame in which every enemy is recharging earns nothing |
| `LegacyEnemy.Despawn` | src/game/enemy.rs:21-26 | despawned handles leave the collection; despawning all empties it |
| `LegacyEnemy.LegacyWorld.SpawnEnemy` | src/game/enemy.rs:81-166 | appends the planned enemy, if any; the score is unchanged |
| `LegacyEnemy.LegacyWorld.EnemyLifetime` | src/game/enemy.rs:169-200 | the loop with its early `return` leaves the legacy frame's enemies and score |
| `LegacyEnemy.LegacyWorld.DespawnAllEnemies` | src/game/enemy.rs:21-26 | every legacy enemy is gone on leaving the game |
| `LegacyEnemy.LegacyWorld.Update` | src/game/enemy.rs:37-49 | while the game runs, `spawn_enemy` in `Update` and `enemy_lifetime` in `PostUpdate`; the handle counter advances exactly when an enemy spawns, and otherwise nothing changes |
| `LegacyEnemy.StepEnemy` | src/game/enemy.rs:177-198 | the loop body's updates equal `StepEntity` |
| `LegacyEnemy.StepStopped` | src/game/enemy.rs:178-184 | the Stopped arm's updates equal `StoppedStep` |
| `LegacyEnemy.StepMoving` | src/game/enemy.rs:185-195 | the Moving arm's updates equal `MovingStep` |
| `LegacyEnemy.LifetimeFromStep` | src/game/enemy.rs:177-198 | one enemy more: a state change ends the frame with the rest untouched, an expiry adds the strength, any other step keeps the enemy |
| `LegacyEnemy.LifetimeLoop` | src/game/enemy.rs:176-199 | the loop with its early `return` computes exactly the legacy frame: kept enemies and score |
| `BetterButton.ReleaseStep` | src/common/better_button.rs:67-80 | the previous interaction becomes the current one; a pulse from the frame before is cleared whatever happens; otherwise the button fires iff Pressed then Hovered |
| `BetterButton.ReleasedOutsideDoesNotFire` | src/common/better_button.rs:72-76 | letting go outside the button (Pressed then None) never fires |
| `BetterButton.ReleaseRun` | src/common/better_button.rs:63-81 | over a run of frames each remembered interaction is that frame's |
| `BetterButton.ReleaseIsAPulse` | src/common/better_button.rs:67-80 | from any state, no two consecutive frames both report `just_released` |
| `BetterButton.ForceKeyStep` | src/common/better_button.rs:88-92 | the button fires iff it already did or its key was just pressed, whatever the cursor did |
| `BetterButton.ColourFor` | src/common/better_button.rs:107-117 | Pressed, Hovered and None give the pressed, hovered and normal colours |
| `BetterButton.ReleaseEntity` | src/common/better_button.rs:67-80 | only the `ReleaseButton` of an entity that has one changes, by the release step |
| `BetterButton.ForceEntity` | src/common/better_button.rs:88-92 | only entities with both a release button and a force key change, by the force-key step |
| `BetterButton.ColourEntity` | src/common/better_button.rs:95-118 | only buttons whose interaction changed are repainted, with the colour of their interaction |
| `BetterButton.Buttons.UpdateReleaseButtons` | src/common/better_button.rs:63-81 | every button becomes `ReleaseEntity` of its old state |
| `BetterButton.Buttons.UpdateReleaseButtonsWithForceKey` | src/common/better_button.rs:83-93 | every button becomes `ForceEntity` of its old state |
| `BetterButton.Buttons.UpdateColorButtons` | src/common/better_button.rs:95-119 | every button becomes `ColourEntity` of its old state |
| `BetterButton.Buttons.PreUpdate` | src/common/better_button.rs:9-16 | the colour update, and the release update chained before the force-key update |
| `BetterButton.FrameFiresOnKeyOrRelease` | src/common/better_button.rs:11-14 | after a frame a force-key button fires iff its key was just pressed or the release step fires |
| `BetterButton.ColourAndReleaseCommute` | src/common/better_button.rs:11-14 | the colour and release systems touch different components, so their unchained order does not matter |
| `States.InGameStateFor` | src/screens/mod.rs:32-91 | the in-game state that goes with each screen, a pairing of the model read off the transitions; Splash, Loading and Credits have none |
| `States.InGameStateForInjective` | src/screens/mod.rs:32-50 | the game screens map to distinct in-game states |
| `Screens.EnterTitle` | src/screens/mod.rs:53-59 | requests the Title screen and in-game state None |
| `Screens.EnterGame` | src/screens/mod.rs:62-68 | requests the Playing screen and in-game state Playing |
| `Screens.EnterPrep` | src/screens/mod.rs:71-77 | requests the Preparation screen and in-game state |
| `Screens.EnterCredits` | src/screens/mod.rs:80-82 | requests only the Credits screen; the in-game state is untouched |
| `Screens.EnterPause` | src/screens/mod.rs:85-91 | requests the Paused screen and in-game state |
| `Screens.Requests` | src/screens/mod.rs:53-91 | only the credits transition requests no in-game state |
| `Screens.Enter` | src/screens/mod.rs:53-91 | running a transition requests exactly its screen and in-game state, leaving the in-game request alone for Credits |
| `Screens.TransitionsAreConsistent` | src/screens/mod.rs:53-91 | every transition's screen and in-game state agree |
| `Screens.TransitionsDistinct` | src/screens/mod.rs:53-91 | no two transitions request the same screen |
| `GameState.CleanUp` | src/game/state.rs:33-37 | the next in-game state is None, and score and game time are reset to 0 |
| `GameState.SummaryRequests` | src/game/state.rs:44-50 | with no pending event the requests are unchanged; with any, both become Summary |
| `GameState.SummaryIgnoresEventCount` | src/game/state.rs:48-50 | however many events ended the game, the outcome is the same |
| `GameState.SummaryKeepsConsistent` | src/game/state.rs:44-50 | the summary switch keeps the requested screen and in-game state consistent |
| `GameState.CheckSummaryCondition` | src/game/state.rs:39-51 | the requests become `SummaryRequests` of the pending count, and the reader is drained |
| `GameState.Update` | src/game/state.rs:23-51 | `check_summary_condition` runs only while Playing, where it sets the summary requests and clears the end-game reader; otherwise nothing changes |
| `Collisions.Matches` | src/game/collisions.rs:32-40 | one event pairs the player with at most all enemies; a stopped contact with none |
| `Collisions.EndGameCount` | src/game/collisions.rs:31-42 | at most one `EndGameTriggered` per (event, enemy) pair |
| `Collisions.CollisionEvents` | src/game/collisions.rs:23-43 | with exactly one player, appends one `EndGameTriggered` per matching (event, enemy) pair; sends no `ShipHit` |
| `Collisions.StoppedEventsIgnored` | src/game/collisions.rs:33 | contacts that stopped never end the game |
| `Collisions.MatchesSymmetric` | src/game/collisions.rs:34-35 | which entity of a contact is the player does not matter |
| `Collisions.EndGameSymmetric` | src/game/collisions.rs:34-35 | swapping both entities of every contact sends the same number of events |
| `Collisions.WithoutPlayerNothing` | src/game/collisions.rs:34-35 | a contact not involving the player sends nothing |
| `Collisions.WithoutEnemyNothing` | src/game/collisions.rs:32-38 | a contact with no enemy of the query sends nothing |
| `Collisions.AtMostOncePerContact` | src/game/collisions.rs:32-38 | with distinct enemy handles, none the player's, one contact ends the game at most once |
| `Collisions.ContactMatches` | src/game/collisions.rs:32-38 | a starting contact between the player and an enemy of the query is counted at least once |
| `Collisions.ContactEndsGame` | src/game/collisions.rs:31-42 | any starting player–enemy contact of the frame sends at least one `EndGameTriggered` |
| `Collisions.NoContactNoEndGame` | src/game/collisions.rs:31-42 | a frame with no starting player–enemy contact sends none |
| `Collisions.EndGameIffContact` | src/game/collisions.rs:31-42 | the game ends on a frame exactly when some starting contact pairs the player with an enemy of the query |
| `Views.ScanReleased` | src/game/views/pause.rs:73-78 | a query scan finds a button iff some button was released |
| `Views.PauseChoice` | src/game/views/pause.rs:73-99 | Menu before Restart before Continue before Options; nothing iff no button was released |
| `Views.CheckPauseInteractions` | src/game/views/pause.rs:63-100 | exactly the chosen button's event is sent: `MenuRequested`, `RestartRequested`, `TogglePauseRequested` or `OptionsRequested`; no other writer changes |
| `Views.PauseEventCount` | src/game/views/pause.rs:73-99 | at most one event, none iff no action |
| `Views.PauseSilentIffNothingReleased` | src/game/views/pause.rs:63-100 | the pause view is silent exactly when none of its buttons was released |
| `Views.SummaryChoice` | src/game/views/summary.rs:56-68 | Menu before Restart; nothing iff neither was released |
| `Views.CheckSummaryInteractions` | src/game/views/summary.rs:50-69 | Menu sends `MenuRequested`, Restart `RestartRequested`; at most one event |
| `Views.OptionsChoice` | src/game/views/options.rs:47-59 | Accept before Cancel; nothing iff neither was released |
| `Views.CheckOptionsInteractions` | src/game/views/options.rs:41-60 | Accept sends `UpdateOptions` and `TogglePauseRequested`, Cancel only `TogglePauseRequested`, nothing otherwise |
| `Views.MenuChoice` | src/menu/menu_view.rs:42-54 | Play before Quit; nothing iff neither was released |
| `Views.CheckMenuInteractions` | src/menu/menu_view.rs:36-55 | Play requests the InGame application state, Quit sends `AppExit`; otherwise nothing changes |
| `Widgets.KeyToString` | src/theme/widgets.rs:192-263 | total and never empty; a key is shown as "???" exactly when it is not one of the listed keys |
| `Widgets.DigitKeysShowTheirDigit` | src/theme/widgets.rs:194-203 | `Digit0`…`Digit9` show "0"…"9" |
| `Widgets.LetterKeysShowTheirLetter` | src/theme/widgets.rs:204-229 | `KeyA`…`KeyZ` show their upper-case letter |
| `Widgets.ModifiersCollapse` | src/theme/widgets.rs:258-260 | left and right Shift, Ctrl and Alt share one name |
| `Widgets.ShiftKeysShowShift` | src/theme/widgets.rs:258 | both Shift keys are shown as "Shift" |
| `Widgets.ControlKeysShowCtrl` | src/theme/widgets.rs:259 | both Control keys are shown as "Ctrl" |
| `Widgets.AltKeysShowAlt` | src/theme/widgets.rs:260 | both Alt keys are shown as "Alt" |
| `Widgets.ButtonLabel` | src/theme/widgets.rs:59-64 | with a key the label is `text + " (" + name + ")"`, without one the text itself |
| `Widgets.LabelKeepsText` | src/theme/widgets.rs:59-64 | the text can be read back from the label |
| `WindowGuard.LastResize` | src/window.rs:39-44 | none iff there were no resize events; otherwise one of them |
| `WindowGuard.OnlyLastResizeCounts` | src/window.rs:39-44 | earlier resize events are overridden by later ones |
| `WindowGuard.Guarded` | src/window.rs:45-50 | a window narrower than 1280/720 is widened to that ratio at the same height; otherwise it is untouched |
| `WindowGuard.GuardKeepsMinimumRatio` | src/window.rs:5-7 | a guarded window keeps its height and has a ratio of at least 1280/720 |
| `WindowGuard.GuardIdempotent` | src/window.rs:45-50 | guarding twice is guarding once |
| `WindowGuard.GuardResolution` | src/window.rs:34-53 | with no event nothing changes; otherwise the last event, which alone must have a positive height, guards the resolution and the UI scale becomes its height over 720; earlier events are ignored |
| `App.Rank` | src/lib.rs:55-64 | every set has a position in the `Update` chain |
| `App.ChainIsStrictTotalOrder` | src/lib.rs:55-64 | the chain orders the four sets strictly and totally |
| `App.ScoreIsCheckedLast` | src/lib.rs:33-43 | timers tick first and score is checked last |
| `App.GetMagnitude` | src/lib.rs:45-47 | `0.08·(|x|+|y|)` is non-negative, zero iff the velocity is zero, and at least 0.08 times each component's size |
| `App.MagnitudeSymmetries` | src/lib.rs:45-47 | unchanged by flipping either sign or swapping the components |
| `App.MagnitudeTriangle` | src/lib.rs:45-47 | the magnitude obeys the triangle inequality |
| `PigMotion.WanderStep` | src/game/pig.rs:123-150 | a walking pig facing nowhere stops and resets its stop timer; a walking pig moves `direction·50·dt`, ticks its stop timer and, when it finishes, turns, stops and resets its move timer; a resting pig only ticks its move timer and, when it finishes, turns and walks with its stop timer reset; the lifetime is untouched |
| `PigMotion.WalkCoversPigSpeed` | src/game/pig.rs:126-133 | a walking pig facing a unit direction covers exactly `50·dt` |
| `PigMotion.Wander` | src/plugins/pig.rs:101-128 | pigs keep their handle, lifetime and timers' validity over many frames |
| `PigMotion.WanderKeepsHeight` | src/game/pig.rs:169-174 | with flat drawn directions a pig stays on the ground |
| `PigMotion.RestFollowsWalk` | src/game/pig.rs:135-145 | a pig that has just ended a walk rests in place on the next frame |
| `PigMotion.LifetimeTick` | src/game/pig.rs:112 | only the lifetime timer ticks |
| `PigMotion.Expired` | src/game/pig.rs:111-119 | the number of pigs whose lifetime finishes this frame, at most all of them |
| `PigMotion.Survivors` | src/game/pig.rs:111-119 | the pigs left, in order: every other pig expired, and no survivor's lifetime is finished |
| `PigMotion.RunningPigsSurvive` | src/plugins/pig.rs:89-97 | a pig whose lifetime is still running stays, ticked |
| `PigMotion.NoExpiryKeepsAll` | src/plugins/pig.rs:89-97 | a frame in which no lifetime runs out despawns no pig |
| `PigMotion.SurvivorsStep` | src/game/pig.rs:111-119 | one pig more: it is counted as expired or kept ticked according to its own tick |
| `Wallet.Money.constructor` | src/resources/mod.rs:8-15 | money starts at 100 |
| `Wallet.Purchase` | src/plugins/pig.rs:45-55 | a pig is bought iff Space was just pressed and money is at least 10; the purchase costs exactly 10; money never goes negative |
| `Wallet.BuyThenSellNetsFive` | src/systems/pig.rs:12-21 | buying a pig and selling it leaves 5 more money |
| `Wallet.PurchaseRun` | src/systems/pig.rs:12-21 | over many frames, the pigs bought times 10 plus the money left is the starting money, and never negative |
| `Wallet.AtMostTenPigsOnTheStartingMoney` | src/resources/mod.rs:11-15 | without sales the starting money buys at most ten pigs |
| `GamePigs.NewPig` | src/game/pig.rs:92-98 | a 30 s once lifetime, a 1 s repeating move timer, a 0.5 s once stop timer, resting, facing the drawn direction |
| `GamePigs.CandidatePoint` | src/game/pig.rs:66-67 | a candidate lies in `[0, 1280] × [0, 720]` |
| `GamePigs.FirstAccepted` | src/game/pig.rs:65-76 | the first candidate outside the `0.2·1280 × 0.2·720` box around the player |
| `GamePigs.PickPigPoint` | src/game/pig.rs:65-76 | the rejection loop returns the first accepted point |
| `GamePigs.CornersArePlaceable` | src/game/pig.rs:65-76 | with the player in the world, a corner is always accepted |
| `GamePigs.PigField.SpawnPig` | src/game/pig.rs:51-102 | the placement loop runs first; a pig spawns at the accepted point, on the ground, iff `game_time mod 5 < delta` |
| `GamePigs.PigField.PigLifetime` | src/game/pig.rs:105-120 | the pigs become the survivors, and the score grows by 15 per expired pig |
| `GamePigs.PigField.PigMovement` | src/game/pig.rs:123-150 | every pig takes its wander step |
| `GamePigs.PigField.DespawnAllPigs` | src/game/pig.rs:19-23 | every pig is gone; the score is kept |
| `GamePigs.NewPigScoresAfterThirtySeconds` | src/game/pig.rs:93 | a new pig's lifetime finishes exactly when the frames add up to 30 s |
| `PluginPigs.NewPig` | src/plugins/pig.rs:70-75 | a 5 s once lifetime, resting, facing nowhere |
| `PluginPigs.FreshPigRestsInPlace` | src/plugins/pig.rs:101-128 | within its first second a fresh pig neither moves nor starts walking |
| `PluginPigs.PigFarm.SpawnPig` | src/plugins/pig.rs:37-80 | money and the spawn follow `Purchase`; a bought pig appears at the single player's translation |
| `PluginPigs.PigFarm.PigLifetime` | src/plugins/pig.rs:83-98 | the pigs become the survivors, and money grows by 15 per expired pig |
| `PluginPigs.PigFarm.PigMovement` | src/plugins/pig.rs:101-128 | every pig takes its wander step |
| `SystemPigs.Tick` | src/systems/pig.rs:46 | only the lifetime ticks |
| `SystemPigs.Sold` | src/systems/pig.rs:45-52 | the number of pigs whose lifetime finishes this frame |
| `SystemPigs.Kept` | src/systems/pig.rs:45-52 | the pigs left, in order: every other pig was sold, and none left is finished |
| `SystemPigs.PigPen.SpawnPig` | src/systems/pig.rs:5-37 | money and the spawn follow `Purchase`; a bought pig with a 2 s lifetime appears at the single player |
| `SystemPigs.PigPen.PigLifetime` | src/systems/pig.rs:39-54 | the pigs become the kept ones, and money grows by 15 per sold pig |
| `SystemPigs.NothingSoldWhileRunning` | src/systems/pig.rs:45-52 | a frame in which no lifetime finishes sells nothing and keeps every pig |
| `SystemPigs.KeptStep` | src/systems/pig.rs:45-52 | one pig more: it is counted as sold or kept ticked according to its own tick |
| `SystemPigs.SpawnThenExpiryNetsFive` | src/systems/pig.rs:12-49 | a pig bought and sold on the frame its 2 s run out leaves money 5 higher |
| `SystemPigs.PenPigSellsAfterTwoSeconds` | src/systems/pig.rs:34 | the pig's lifetime finishes exactly when the frames add up to 2 s |
| `Character.StartupPlayer` | src/systems/mod.rs:35 | the startup character sits at the origin with speed 100 |
| `Character.Axis` | src/plugins/player.rs:17-28 | an axis moves `+1`, `-1` or not at all, and not at all iff both or neither of its keys are held |
| `Character.Offset` | src/plugins/player.rs:14-32 | the step never changes the height |
| `Character.StepCharacter` | src/plugins/player.rs:14-32 | the field-by-field step equals `Offset` |
| `Character.NoKeysNoStep` | src/systems/mod.rs:44-63 | with no movement key held, the character stays where it is |
| `Character.OppositeKeysCancel` | src/systems/mod.rs:47-58 | opposite keys on an axis cancel and the other axis moves its full amount |
| `Character.StraightStep` | src/plugins/player.rs:15-28 | with one axis active the step on it is exactly `±speed·dt` |
| `Character.DiagonalKeepsSpeed` | src/plugins/player.rs:29-32 | dividing a diagonal step by √2 makes it as long as a straight one |
| `Character.Characters.CharacterMovement` | src/systems/mod.rs:39-64 | every character advances by its own step and keeps its speed |

## Left out

- Random distributions: a draw is a parameter in its range, and nothing says how likely each value is.
- Rejection-loop termination: it is probabilistic, so each loop requires a finite run of draws containing an accepted one.
- `random_direction` and `normalize`: a drawn direction is a parameter. Chasing takes `normalize` as a function parameter. "Normalised" appears only as the `Unit` predicate in `PigMotion.WalkCoversPigSpeed`.
- `f32::sqrt(2.0)` in `character_movement`: a parameter `root2`, required to be positive, with `root2 * root2 == 2` where the length of a diagonal step is stated.
- Floating point: NaN, infinities, overflow and rounding. `f32::clamp`'s panic when min > max is a precondition.
- Rotations: `angle_between`, the `Quat` facing, and the star's cos/sin coordinates. The star's points are polar: distance and fraction of a turn.
- Transforms: only translations are kept; rotation and scale are left out.
- Assets, audio, particles, fonts and UI node trees: presentation with no stated behaviour. This includes the `spawn_*`/`despawn_*` views, src/common/styles.rs, and src/game/views/score.rs and prep.rs.
- Physics (rapier): colliders, restitution, density and contact detection. Collision events are an input list of `(started/stopped, entity, entity)`.
- Engine wiring: plugin registration, `AppPlugin::build` beyond the `AppSet` chain, and `run_if` conditions are modelled only as a `playing` flag. `update_game_time` is an input clock.
- Query iteration order: the engine fixes it, not the source. Every frame function takes the query order as given.
- `PigParent`, `EnemyParent`, `set_parent` and `remove_parent`: the parent entity is left out, and despawning is removal from the collection.
- `info!`/`warn!` logging, and entity names drawn from `rand::random::<u16>()`.
- `InGameState::Play`, named by the run conditions of src/game/enemy.rs, src/game/pig.rs and src/game/collisions.rs:17, is not defined in src/game/state.rs. Those plugins are modelled with a `playing` flag, or with no condition (`Collisions.CollisionEvents`). src/game/mod.rs:46 registers `collisions::plugin`, but src/game/collisions.rs defines only `CollisionsPlugin`; the model takes that plugin as the one meant.
- `ShipHit` and `ShipDestroyed` are not defined in src/game/events.rs. They are modelled by the fields the systems use: a handle, and an x, y and colour.
- The `Pig` component of src/systems/pig.rs (`components::Pig`) is not defined in src/components/mod.rs. It is modelled by the only field the system uses, its lifetime.
- `score.0 += 15` in src/game/pig.rs adds an integer to an `f32` score. It is modelled as adding 15.0.
- Colour scales: the current code uses `Color::srgb` with channels up to 255, and the legacy code uses `Color::rgb` in `[0, 1]`. Both are modelled as written, and colours are compared only for equality.
- The force-key update acts only on entities that have both a `ReleaseButton` and a `ReleaseButtonForceKey`. Entities with a force key but no release button are not modelled.
- LegacyEnemy.GetEnemyStats: the mass draw is required to be positive (`StatDraws.Valid`), although `randomize(max_mass)` at src/game/enemy.rs:210 can return 0. A zero mass would make `get_radius` divide by zero and give an infinite radius, which real numbers cannot represent.
- `EnemySystems.PlanSpawn`: the velocity's angular part (`angvel: 2.0`) and the physics bundle are left out; only the linear velocity `(0.1, 0.1)` is kept.
- `Movement.ChaseStep`: states the Moving velocity through the `normalize` parameter, not as a unit vector toward the target.
- `Views.ScanReleased`: the engine's `Query::iter` order is not modelled, and only whether some button is released is observable.
- `Character.Offset`: `f32` rounding of the division by √2 is not modelled.
