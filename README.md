# Bat game core rules, modelled in Dafny

This project models the discrete rules of a 2D top-down Unity game. The player is a bat and a horror enemy hunts it. Engine queries are inputs: distances, angles, raycast hits, normalisation, `LerpAngle`, `SmoothDamp`, random draws and `Time.time`. Coroutines are a "running" flag.

One module per source file:

- `Enemy` (HorrorEnemy.cs). Each frame the enemy senses the player from a distance, an angle and the first ray hit, then picks Patrol or Chase. Each physics step it walks toward the current waypoint, and the index cycles around the route, or it walks toward the player's live position. This revision has only these two states.
- `Audio` (AudioManager.cs). Music and one-shot effects with null guards, and the enemy's ambient loop. The loop is a one-slot register: the clip array, compared by reference, and whether a loop task runs. The file also has the three category entry points with their interval constants, one loop iteration with its random draws, and the `Awake` singleton.
- `Progress` (GameData.cs). The score record with -1 as "no score". It covers `Initialize`, `ResetData`, and `SaveToPrefs`/`LoadFromPrefs` over a PlayerPrefs store modelled as `map<string, real>`. The main result is the Save→Load round trip.
- `EndScreen` (EndScreenManager.cs). The status message, per-level lines and totals derived from the score record. `{x:F2}` formatting is the parameter `fmt`. A TMP text label is an `Option<string>` slot: `None` is a null label, `Some(t)` shows `t`.
- `Bat` (TopDownBatController.cs). Sonar cooldown, dash start/countdown/end, steering gain, look direction, the control flag, the camera-settings read-and-clear latch and `TargetLookAhead`. Nothing in the file ever sets that latch, and only `CameraSettingsChanged` may modify it. So it always reports `false`.
- `CameraFollow` (MainCamera.cs). The follow target, the camera/controllable guard and `ClampToCollider` with `Mathf.Clamp` semantics. When the bounds are narrower than the view, `Mathf.Clamp` is called with min > max. Clamping is then not idempotent: it swaps the two ends (`ClampFlipsWhenViewWider`). Idempotence is proved when the bounds cover the view.
- `Pause` (GameManager.cs). The pause state machine (`isPaused`, `Time.timeScale`, menu presence and visibility), scene-load menu assignment, scene requests and the singleton.
- Shared modules: `Wrappers` (Option), `Geometry` (vectors over exact reals) and `Decimal` (`$"{n}"` rendering, proved injective so per-level keys never collide).

Both loop coroutines are modelled by one iteration each. The model follows this revision of the enemy script, which has no Investigate state and no memory of past sightings. The enemy never starts an audio loop in this revision, so the audio module is modelled on its own.

## Model

| member | source | states |
|---|---|---|
| `Decimal.NatToString` | Assets/Scripts/ScriptableObjects/GameData.cs:39 | a level number prints as a non-empty string of decimal digits, at least two for numbers from 10 up |
| `Decimal.NatToStringInjective` | Assets/Scripts/ScriptableObjects/GameData.cs:52 | different level numbers print differently |
| `Progress.ScoreKey` | Assets/Scripts/ScriptableObjects/GameData.cs:39 | every high-score key starts with `HighScore_Level_` |
| `Progress.ScoreKeyInjective` | Assets/Scripts/ScriptableObjects/GameData.cs:52 | two levels never share a high-score key |
| `Progress.ScoreKeyNotScalar` | Assets/Scripts/ScriptableObjects/GameData.cs:46-52 | no high-score key is `CurrentLevel` or `TotalTime`, so score writes never clobber them |
| `Progress.CleanScoresAt` | Assets/Scripts/ScriptableObjects/GameData.cs:22-26 | the clean-up rewrites exactly the entries equal to 0 or float.MaxValue to -1, leaves every other entry as it was, and leaves no placeholder |
| `Progress.CleanScoresIdempotent` | Assets/Scripts/ScriptableObjects/GameData.cs:16-27 | a second clean-up changes nothing |
| `Progress.CleanFreshScores` | Assets/Scripts/ScriptableObjects/GameData.cs:18-26 | a freshly allocated (all-zero) array cleans to all -1 |
| `Progress.GetFloat` | Assets/Scripts/ScriptableObjects/GameData.cs:32 | a missing key reads as the given default |
| `Progress.GetInt` | Assets/Scripts/ScriptableObjects/GameData.cs:31 | a missing key reads as the given default |
| `Progress.SavedScore` | Assets/Scripts/ScriptableObjects/GameData.cs:51 | a stored score is either non-negative or -1, and a non-negative score is stored as it is |
| `Progress.LoadedScores` | Assets/Scripts/ScriptableObjects/GameData.cs:37-41 | loading yields one score per array slot |
| `Progress.WriteScoresAt` | Assets/Scripts/ScriptableObjects/GameData.cs:49-53 | after the save loop, level i's key holds level i's stored score, whatever later writes did |
| `Progress.WriteScoresElsewhere` | Assets/Scripts/ScriptableObjects/GameData.cs:49-53 | the save loop leaves every key that is not a high-score key of the array untouched |
| `Progress.SaveLoadRoundTrip` | Assets/Scripts/ScriptableObjects/GameData.cs:29-56 | after a save, loading gives back the current level, the total time and every non-negative score, and -1 for every negative score, whatever the store held before |
| `Progress.GameData.constructor` | Assets/Scripts/ScriptableObjects/GameData.cs:7-14 | a new record is at level 1 with no time and no score array |
| `Progress.GameData.Initialize` | Assets/Scripts/ScriptableObjects/GameData.cs:16-27 | the array ends with length maxLevels. An existing array of that length is kept and cleaned in place; otherwise a fresh one is all -1. The other fields are unchanged |
| `Progress.GameData.LoadFromPrefs` | Assets/Scripts/ScriptableObjects/GameData.cs:29-42 | level, time and every slot come from the store with defaults 1, 0 and -1. The array length is kept (2 if there was none) and the run time is untouched |
| `Progress.GameData.SaveToPrefs` | Assets/Scripts/ScriptableObjects/GameData.cs:44-56 | the store gains the level, the total time and one entry per level (-1 for negatives) and is flushed to disk |
| `Progress.GameData.ResetData` | Assets/Scripts/ScriptableObjects/GameData.cs:58-67 | level 1, no time, run time 0, and every score -1. The array length is kept (2 if there was none) |
| `Progress.SaveThenLoad` | Assets/Scripts/ScriptableObjects/GameData.cs:29-56 | saving then loading through one store restores the record in place, with negative scores as -1 |
| `EndScreen.StatusText` | Assets/Scripts/EndScreenManager.cs:24-35 | "You Died!" exactly on a death, even when every level is finished; "All Levels Complete!" exactly when alive and finished; "Level Complete!" otherwise |
| `EndScreen.Seconds` | Assets/Scripts/EndScreenManager.cs:47 | a formatted time ends in "s" and is never "N/A" |
| `EndScreen.HighScoreText` | Assets/Scripts/EndScreenManager.cs:46-48 | a level's high score reads "N/A" exactly when the score is negative |
| `EndScreen.ThisRunText` | Assets/Scripts/EndScreenManager.cs:54-58 | a level shows a run time exactly when the run did not die and got past that level |
| `EndScreen.ThisRunTextShared` | Assets/Scripts/EndScreenManager.cs:57-58 | every level that shows a run time shows the same one, the run's current time |
| `EndScreen.SumNonNegativeBounds` | Assets/Scripts/EndScreenManager.cs:65-75 | the total high score is never negative and is 0 when no score is non-negative |
| `EndScreen.SumNonNegativeIgnoresNegatives` | Assets/Scripts/EndScreenManager.cs:70-73 | negative scores contribute nothing to the total |
| `EndScreen.TotalHigh` | Assets/Scripts/EndScreenManager.cs:65-75 | the loop yields the sum of exactly the non-negative scores, and whether any exists |
| `EndScreen.TotalHighText` | Assets/Scripts/EndScreenManager.cs:77-78 | the total high score reads "N/A" exactly when no score is non-negative |
| `EndScreen.TotalCurrentText` | Assets/Scripts/EndScreenManager.cs:80-85 | the total reads "Died" exactly on a death, and "N/A" exactly when alive with no positive total time |
| `EndScreen.EndScreenManager.constructor` | Assets/Scripts/EndScreenManager.cs:7-18 | the screen starts with the labels it was given |
| `EndScreen.EndScreenManager.FillLevelTexts` | Assets/Scripts/EndScreenManager.cs:39-62 | only assigned labels below the level count are written, each with its level's high-score or this-run line. Every other label is unchanged |
| `EndScreen.EndScreenManager.Start` | Assets/Scripts/EndScreenManager.cs:20-87 | each assigned label ends showing its derived text (status, per-level lines, both totals), and unassigned labels stay unassigned |
| `Enemy.NextPatrolIndex` | Assets/Scripts/Enemy/HorrorEnemy.cs:91-94 | the patrol index stays a valid route index and moves only on arrival |
| `Enemy.AfterArrivals` | Assets/Scripts/Enemy/HorrorEnemy.cs:91-94 | any number of arrivals keeps the index inside the route |
| `Enemy.ModUnique` | Assets/Scripts/Enemy/HorrorEnemy.cs:93 | the remainder `%` is the unique r in [0, n) with a = q·n + r (C#'s `%` agrees on non-negative operands) |
| `Enemy.ModSucc` | Assets/Scripts/Enemy/HorrorEnemy.cs:93 | stepping the remainder by one is stepping the index by one modulo the route length |
| `Enemy.AfterArrivalsCycles` | Assets/Scripts/Enemy/HorrorEnemy.cs:91-94 | k arrivals move the index k places around the route, so it cycles 0→1→…→n-1→0 |
| `Enemy.FullTourReturns` | Assets/Scripts/Enemy/HorrorEnemy.cs:91-94 | after one arrival per waypoint the enemy heads for the waypoint it started from |
| `Enemy.HorrorEnemy.constructor` | Assets/Scripts/Enemy/HorrorEnemy.cs:19-27 | a new enemy patrols from index 0 and has not seen the player |
| `Enemy.HorrorEnemy.SensePlayer` | Assets/Scripts/Enemy/HorrorEnemy.cs:58-82 | the player is seen exactly when within sight range (inclusive), at an angle strictly below half the field of view, and the first ray hit is tagged "Player". An obstacle hit first, or no hit, means not seen |
| `Enemy.HorrorEnemy.Update` | Assets/Scripts/Enemy/HorrorEnemy.cs:36-47 | after sensing, the state is Chase exactly when the player is in sight, else Patrol, whatever it was before |
| `Enemy.HorrorEnemy.MoveTowards` | Assets/Scripts/Enemy/HorrorEnemy.cs:102-112 | the enemy advances along the normalised direction by speed·dt. Its rotation turns toward the motion, and stays unchanged when the direction is zero |
| `Enemy.HorrorEnemy.Patrol` | Assets/Scripts/Enemy/HorrorEnemy.cs:84-95 | an empty route means no movement, no turn and no index change. Otherwise the enemy moves toward the current waypoint at patrol speed and turns toward the motion (no turn for a zero direction). The index advances cyclically only when the enemy was within 0.2 of the waypoint, and stays valid |
| `Enemy.HorrorEnemy.Chase` | Assets/Scripts/Enemy/HorrorEnemy.cs:97-100 | the enemy moves toward the player's live position at chase speed and turns toward the motion (no turn for a zero direction) |
| `Enemy.HorrorEnemy.FixedUpdate` | Assets/Scripts/Enemy/HorrorEnemy.cs:49-56 | the step follows the state. Chase moves and turns toward the player at chase speed and leaves the patrol index alone. Patrol moves and turns toward the waypoint at patrol speed and advances the index cyclically on arrival. On an empty route nothing changes |
| `Audio.AudioSource.Stop` | Assets/Scripts/Systems/AudioManager.cs:54 | the source stops playing |
| `Audio.AudioSource.Play` | Assets/Scripts/Systems/AudioManager.cs:57 | the source plays |
| `Audio.AudioSource.PlayOneShot` | Assets/Scripts/Systems/AudioManager.cs:69 | the clip is played once at the volume scale, on top of what already played |
| `Audio.AudioRegistry.constructor` | Assets/Scripts/Systems/AudioManager.cs:7 | there is no instance before the first `Awake` |
| `Audio.AudioManager.constructor` | Assets/Scripts/Systems/AudioManager.cs:15-34 | a new manager has no remembered clip array and no running loop |
| `Audio.AudioManager.Awake` | Assets/Scripts/Systems/AudioManager.cs:36-41 | the first manager becomes `I` and persists; a later one leaves `I` as it was and destroys itself |
| `Audio.AudioManager.PlayBGM` | Assets/Scripts/Systems/AudioManager.cs:51-58 | without a clip or a music source nothing changes. Otherwise the source plays that clip with the given loop flag |
| `Audio.AudioManager.Start` | Assets/Scripts/Systems/AudioManager.cs:43-46 | the level theme is playing on a loop when both it and the music source exist. The source's pitch, volume and one-shots stay, and nothing changes when either is missing |
| `Audio.AudioManager.StopBGM` | Assets/Scripts/Systems/AudioManager.cs:61 | the music source, if any, stops. Its clip, loop flag, pitch, volume and one-shots stay |
| `Audio.AudioManager.PlaySFX` | Assets/Scripts/Systems/AudioManager.cs:66-70 | without a clip or an effects source nothing changes. Otherwise the clip is played once at the volume, and the source's clip, loop flag, playing flag, pitch and volume stay |
| `Audio.AudioManager.PlayBigPoop` | Assets/Scripts/Systems/AudioManager.cs:130 | the big-poo clip is played once at full volume, under the same guards. Nothing else about the effects source changes |
| `Audio.AudioManager.StopRandomSFX` | Assets/Scripts/Systems/AudioManager.cs:87-94 | no loop runs afterwards, and the remembered clip array is kept, so a repeated call changes nothing more |
| `Audio.AudioManager.SwitchEnemyLoop` | Assets/Scripts/Systems/AudioManager.cs:152-169 | if this clip array is remembered and a loop runs, nothing changes. Otherwise the old loop is replaced by exactly one new loop of these clips on this source with these intervals. Either way the array is remembered afterwards |
| `Audio.AudioManager.PlayEnemyPatrolLoop` | Assets/Scripts/Systems/AudioManager.cs:136-139 | the patrol clips loop at intervals [3, 6] on the given source, or on the effects source when none is given |
| `Audio.AudioManager.PlayEnemyChaseLoop` | Assets/Scripts/Systems/AudioManager.cs:141-144 | the chase clips loop at intervals [1, 3] on the given source, or on the effects source |
| `Audio.AudioManager.PlayEnemyInvestigateLoop` | Assets/Scripts/Systems/AudioManager.cs:146-149 | the investigate clips loop at intervals [2, 5] on the given source, or on the effects source |
| `Audio.AudioManager.PlayRandomIteration` | Assets/Scripts/Systems/AudioManager.cs:172-185 | an iteration plays only with clips and a source. It plays one of the clips and leaves pitch in [0.9, 1.1] and volume in [0.7, 1]; the source's clip, loop and playing flags stay |
| `Audio.AudioManager.PlayLoopIteration` | Assets/Scripts/Systems/AudioManager.cs:172-185 | an iteration of the running enemy loop, on the source it was started with, plays one clip of the remembered clip array at pitch in [0.9, 1.1] and volume in [0.7, 1], keeping the source's clip, loop and playing flags; with no clips the source is unchanged |
| `Audio.AudioManager.PlayRandomSfxIteration` | Assets/Scripts/Systems/AudioManager.cs:72-85 | the older loop plays on the effects source whenever there are clips, with the same ranges. The source's clip, loop and playing flags stay |
| `Audio.ChaseLoopTwice` | Assets/Scripts/Systems/AudioManager.cs:141-169 | after two chase requests in a row a chase loop runs. A chase loop that was already running is kept as it was; otherwise the loop of the first request runs |
| `Audio.StopThenPatrol` | Assets/Scripts/Systems/AudioManager.cs:87-169 | after a stop, a request for the still-remembered array starts a new loop |
| `Bat.FirstUseCooledDown` | Assets/Scripts/Bat/TopDownBatController.cs:14 | the first sonar or dash attempt always passes the cooldown, because the start time is -Infinity |
| `Bat.CooldownBlocksAfterUse` | Assets/Scripts/Bat/TopDownBatController.cs:68 | after a use at t, a new use is refused exactly before t + cooldown |
| `Bat.GainByMagnitude` | Assets/Scripts/Bat/TopDownBatController.cs:121 | for the input length m, the steering gain is acceleration when m > 0.1 and deceleration otherwise |
| `Bat.TopDownBatController.constructor` | Assets/Scripts/Bat/TopDownBatController.cs:13-45 | a new bat looks up, is in control, is not dashing, has no pending camera change and has never used sonar or dash |
| `Bat.TopDownBatController.TrySonarPulse` | Assets/Scripts/Bat/TopDownBatController.cs:66-75 | a pulse fires only once the cooldown has passed. It spawns at the spawn point, or at the bat, and records the time; a refused attempt changes nothing |
| `Bat.TopDownBatController.OnMove` | Assets/Scripts/Bat/TopDownBatController.cs:80-91 | the input is stored, and the look direction changes to the normalised input only when its squared length exceeds 0.01 |
| `Bat.TopDownBatController.TryDash` | Assets/Scripts/Bat/TopDownBatController.cs:98-106 | a dash is refused while dashing or within the cooldown. Otherwise it starts with the full duration along the look direction, stamped now |
| `Bat.TopDownBatController.FixedUpdate` | Assets/Scripts/Bat/TopDownBatController.cs:108-132 | while dashing: the dash velocity, the countdown reduced by the step, and the dash over once it reaches 0, with no force and no turn. Otherwise a force toward the input velocity with the steering gain, a turn only for a non-zero look direction, and no dash state touched |
| `Bat.TopDownBatController.OnEnable` | Assets/Scripts/Bat/TopDownBatController.cs:77 | input is enabled |
| `Bat.TopDownBatController.OnDisable` | Assets/Scripts/Bat/TopDownBatController.cs:78 | input is disabled |
| `Bat.TopDownBatController.OnTakeControl` | Assets/Scripts/Bat/TopDownBatController.cs:137-142 | the bat is in control with input enabled, and reports success |
| `Bat.TopDownBatController.OnControlRemoved` | Assets/Scripts/Bat/TopDownBatController.cs:144-148 | the bat is out of control with input disabled |
| `Bat.TopDownBatController.CameraSettingsChanged` | Assets/Scripts/Bat/TopDownBatController.cs:174-182 | the latch is reported once and left clear |
| `Bat.LookAheadBySpeed` | Assets/Scripts/Bat/TopDownBatController.cs:159-170 | with a body, the look-ahead is the velocity share plus the look direction at the look distance, and only half of that bias when the speed is below 0.5 |
| `Bat.FirstSonarFires` | Assets/Scripts/Bat/TopDownBatController.cs:66-75 | a new bat's first sonar pulse fires, at the spawn point or at the bat, and is stamped with the current time |
| `CameraFollow.Clamp` | Assets/Scripts/Systems/MainCamera.cs:72-73 | with min ≤ max the result lies in [min, max] and an in-range value is kept. Any result is the value, min or max. A value below min gives min; otherwise a value above max gives max |
| `CameraFollow.ClampInto` | Assets/Scripts/Systems/MainCamera.cs:65-74 | clamping keeps z, lands inside the limits when the bounds cover the view, and keeps a position already inside |
| `CameraFollow.ClampIntoIdempotent` | Assets/Scripts/Systems/MainCamera.cs:65-74 | when the bounds cover the view, clamping twice is clamping once |
| `CameraFollow.ClampFlipsWhenViewWider` | Assets/Scripts/Systems/MainCamera.cs:67-73 | when the view is wider than the bounds, each clamp swaps the two ends of the x range |
| `CameraFollow.MainCamera.constructor` | Assets/Scripts/Systems/MainCamera.cs:6-14 | a new camera has no velocity, no camera component and no controllable yet |
| `CameraFollow.MainCamera.GetCamera` | Assets/Scripts/Systems/MainCamera.cs:28-32 | the camera reference is whatever the component lookup found, and the result says whether it found one |
| `CameraFollow.MainCamera.Start` | Assets/Scripts/Systems/MainCamera.cs:16-26 | the camera and the player's controllable are looked up |
| `CameraFollow.MainCamera.EnsureCameraAndPlayer` | Assets/Scripts/Systems/MainCamera.cs:77-82 | ready exactly when there is a controllable and a camera, re-fetched if missing |
| `CameraFollow.MainCamera.ClampToCollider` | Assets/Scripts/Systems/MainCamera.cs:57-75 | without a camera or bounds nothing moves; otherwise x and y are clamped to the bounds shrunk by half the view (h = 2·orthographicSize, w = h·aspect) and z is kept |
| `CameraFollow.MainCamera.LateUpdate` | Assets/Scripts/Systems/MainCamera.cs:34-55 | nothing moves without a controllable or a camera, and the camera flag is kept. Otherwise the camera is smoothed toward the controllable shifted by the offset at the camera height, then clamped |
| `Pause.ManagerRegistry.constructor` | Assets/Scripts/GameManager.cs:8 | there is no instance before the first `Awake` |
| `Pause.GameManager.constructor` | Assets/Scripts/GameManager.cs:10-11 | a new manager is unpaused with no pause menu |
| `Pause.GameManager.Awake` | Assets/Scripts/GameManager.cs:13-25 | only the first manager becomes the instance and persists; later ones leave it and are destroyed |
| `Pause.GameManager.Update` | Assets/Scripts/GameManager.cs:38-45 | Escape toggles pause only while a pause menu exists. The menu shows exactly when paused, and time runs exactly when not paused |
| `Pause.GameManager.OnSceneLoaded` | Assets/Scripts/GameManager.cs:47-68 | "Level 1" gets its pause menu, hidden; every other scene has none |
| `Pause.GameManager.PauseGame` | Assets/Scripts/GameManager.cs:70-75 | the menu shows, time scale is 0, the game is paused |
| `Pause.GameManager.ResumeGame` | Assets/Scripts/GameManager.cs:77-82 | the menu hides, time scale is 1, the game is not paused |
| `Pause.GameManager.QuitToMainMenu` | Assets/Scripts/GameManager.cs:84-88 | time scale is 1 and the main menu is requested. The paused flag and the menu are left as they were |
| `Pause.GameManager.StartGame` | Assets/Scripts/GameManager.cs:90-93 | the first level is requested |
| `Pause.QuitWhilePausedThenEscape` | Assets/Scripts/GameManager.cs:38-93 | after quitting from the pause menu and coming back to Level 1, the menu is hidden and time runs, yet the first Escape only clears the still-set paused flag, so no menu appears |
| `Pause.EscapeTwice` | Assets/Scripts/GameManager.cs:38-82 | from an unpaused game with a menu, two Escape presses leave it unpaused, at time scale 1, with the menu hidden |

## Left out

- Engine geometry and physics are inputs or arrow-typed parameters with no properties assumed: vector length and angle (`Vector2.Angle`), raycasts, `normalized`, `Vector2.Distance`, `Atan2`, `Mathf.LerpAngle`, `Quaternion.RotateTowards`, `MovePosition`, `AddForce` and `Vector3.SmoothDamp`. `AddForce` is returned as a `Steer` step rather than integrated into the velocity.
- `Enemy.HorrorEnemy.Patrol`: the arrival test uses the position from before the step's move, because a kinematic `MovePosition` takes effect at the physics update. Where waypoint positions come from (Transforms that could move) is not modelled; the route is a fixed sequence.
- `Enemy.HorrorEnemy.Update`: the `Debug.Log` line and the gizmo drawing (`OnDrawGizmosSelected`) are presentation only. `Start` is left out too: it looks up the rigidbody and the player and makes the body kinematic.
- `Audio`: actual playback, `SetBGMVolume`/`SetSFXVolume` (`SetDb`'s log10 dB conversion through the mixer), `FadeAudio` and its lerp coroutine, `GetBGMSource` (a getter), and the random wait between iterations. Random draws are `:|` choices within the ranges (`Random.Range` over floats is inclusive, over ints excludes the top).
- `Audio.AudioManager.PlayRandomSfxIteration`: the older coroutine dereferences the effects source without a check, so its requires asks for the source whenever there are clips.
- `PlaySonar`, `PlayPickup` and `PlayVictoryTheme` are called but not defined in this AudioManager. The sonar call and the victory theme at the start of the end screen are not modelled.
- `Progress.GameData.Initialize`: float NaN is not representable in `real`, so the NaN case of the clean-up is not modelled. The entry point takes `maxLevels` as a natural number, because a negative length throws in C#.
- `Progress`: PlayerPrefs holds reals only. `SetInt` stores the integer as a real and `GetInt` reads back its floor. Type-mismatched reads, float rounding of stored times, and disk persistence beyond "Save copies the table to disk" are not modelled.
- `Progress.GameData.SaveToPrefs`: requires a score array. The C# code writes level and time and then throws on a null array; that partial write is not modelled.
- `EndScreen`: the number formatting `{x:F2}` is the uninterpreted parameter `fmt`. Labels are value slots, so two array entries that share one label object (aliasing) are not modelled. The two label arrays are required to be distinct arrays. `EndScreen.EndScreenManager.Start` requires a score array, since the C# code dereferences it before writing any label. `OnRestartClicked` and `OnQuitClicked` only forward to the game manager's `StartGame` and `QuitToMainMenu`, which are modelled.
- `Bat`: `_moveInput.magnitude > 0.1` and `velocity.magnitude < 0.5` are compared through squared lengths in the model; `GainByMagnitude` and `LookAheadBySpeed` prove that this agrees with the source's test of the length itself. Animator parameters, the death event on collision, `OnSonar`/`OnDash` input glue (`OnDash` is never subscribed, so no dash can start in play) and `Start`'s zeroing of the input are left out. `WorldPosition` (the body position at height 0, or the origin), `Aggression` and `TargetCharacterPosition` are plain getters.
- `Pause`: the resume and quit button listeners wired in `OnSceneLoaded`, `OnEnable`/`OnDisable` event subscription, and actual scene loading (a load is recorded as the requested scene name). `PauseGame`/`ResumeGame` require a pause menu, since the C# code dereferences it.
- `Pause.GameManager.OnSceneLoaded`: assumes Level 1 contains an active object named PauseMenu. `GameObject.Find` returns null for a missing or inactive one, and the C# code then throws when it hides the menu, leaving no menu and no button listeners; that failure is not modelled. `Time.timeScale` is a field of the manager model.
- `CameraFollow.MainCamera.LateUpdate`: the smoothing routine receives `followSmoothness` itself and stands for `SmoothDamp` with smooth time `1 / followSmoothness`, so division by a zero smoothness is not modelled.
- The rendering, lighting, particle and trigger scripts (ParticleTrailLight.cs, SonarPulse.cs, Powerup.cs, SunPowerup.cs, Poo.cs), the forwarding menus (PauseMenu.cs, MainMenu.cs) and the IControllable interface are not part of this model.
