# ByteBeast core, modelled in Dafny

ByteBeast is a virtual pet that lives on a small handheld with environmental
sensors, an IMU, a battery gauge and three small screens. Each tick, the state
engine reads the environment features (temperature, light, motion, pressure,
battery voltage, a Wi-Fi fingerprint). From them it infers the pet's mood,
lets the four needs (hunger, rest, social, hygiene) drift and be satisfied,
nudges the five personality traits, and moves the pet along one of six
evolution paths (sun, shadow, ember, frost, social, lone) through four stages.
It also suggests up to three daily tasks. The power manager turns the
battery reading into a percentage and a display policy (normal, dim, static,
shutdown), raises edge-triggered power events and latches a shutdown. The
sensor manager keeps bounded pressure and motion histories. The display
composes a frame from the mood emoji, an evolution badge and a badge for the
most urgent need. The configuration is a nested dictionary read and written
by dotted keys. The database scores a period of readings per evolution path.

The project is seven modules, one per source file:

- `Models` (`models.dfy`): the value types, the clamping dataclasses `Beast`
  and `EmojiFrame`, the evolution-path and mood-emoji tables.
- `Config` (`config.dfy`): dotted-key lookup and assignment over nested
  dictionaries, and the deep merge.
- `Power` (`power.dfy`): battery curve, power policy, remaining time,
  suggestions, charging status, power events, shutdown latch.
- `Sensors` (`sensors.dfy`): the pressure trend and the motion/shake history.
- `Display` (`display.dfy`): frame composition and the mock display's frame
  counter.
- `MoodEngine` (`mood_engine.dfy`): mood, needs, traits, evolution, tasks and
  the default pet.
- `Database` (`database.dfy`): the evolution statistics of a period.

Numbers are Dafny `real`s. The current time and the configuration values are
parameters.

## Model

| member | source | states |
|---|---|---|
| Models.Clamp | core/models.py:61-74 | `max(lo, min(hi, x))` lies in [lo, hi]; it is the identity inside the range, and below or above it gives the nearer bound |
| Models.ClampInt | core/models.py:71 | the stage clamp lies in [lo, hi]; it keeps an in-range stage, raises a lower one to lo and lowers a higher one to hi |
| Models.ClampValues | core/models.py:62-68 | clamping a dictionary keeps its keys, and each value becomes the clamp of the old value at that key, so it lies in [lo, hi] |
| Models.ClampEach | core/models.py:62-68 | the loop that clamps each entry in turn computes exactly `ClampValues` |
| Models.ClampValuesIdempotent | core/models.py:61-74 | clamped values are in range, in-range values are left alone, clamping twice equals clamping once |
| Models.StampEnvFeatures | core/models.py:32-35 | a zero timestamp becomes the current time; any other timestamp leaves the reading unchanged; no other field changes |
| Models.StampIdempotent | core/models.py:32-35 | stamping twice equals stamping once, and a stamped reading never has a zero timestamp |
| Models.Beast.constructor | core/models.py:39-74 | needs are clamped to [0, 100], traits to [0, 1], stage to [1, 4], progress to [0, 1], energy to [0, 100]; mood, path and time are kept |
| Models.EmojiFrame.constructor | core/models.py:78-93 | badges are cut to the first three; bars are clamped to [0, 1]; emoji and timestamp are kept |
| Models.TruncateBadges | core/models.py:87-89 | the result is a prefix of at most three badges, equal to the input when it has at most three |
| Models.EvolutionPathsShape | core/models.py:120-151 | the table has exactly the six paths, each with four stage emojis |
| Models.MoodEmojisShape | core/models.py:154-165 | every mood label has an emoji and nothing else does |
| Config.SplitDots | core/config.py:52 | splitting a key on dots gives at least one part, none containing a dot |
| Config.JoinSplitDots | core/config.py:52 | joining the parts with dots gives back the key |
| Config.Lookup | core/config.py:50-61 | the walk of `get` down nested dictionaries; stated by `LookupNoneIff`, `LookupAfterAssign` and `AssignKeepsOtherPaths` |
| Config.Assign | core/config.py:63-75 | the walk of `set`, creating missing dictionaries on the way; stated by `AssignSucceedsIff`, `LookupAfterAssign`, `AssignKeepsOtherPaths`, `AssignMakesIntermediateDicts` and `AssignKeepsSiblings` |
| Config.LookupNoneIff | core/config.py:50-61 | the walk fails exactly when some prefix of the path leads to a non-dictionary or lacks the next key |
| Config.AssignSucceedsIff | core/config.py:63-75 | `set` succeeds exactly when no proper prefix of the path leads to a non-dictionary |
| Config.LookupAfterAssign | core/config.py:63-75 | after a successful `set`, reading the same key gives the value written |
| Config.AssignKeepsOtherPaths | core/config.py:63-75 | a path that leaves the written path at some level reads as before |
| Config.AssignMakesIntermediateDicts | core/config.py:68-72 | every proper prefix of the written path is a dictionary afterwards; one that was missing becomes a dictionary whose only key is the next component |
| Config.AssignKeepsSiblings | core/config.py:63-75 | the top level gains at most the first part of the key, and every other top-level entry is unchanged |
| Config.Merged | core/config.py:42-48 | the merge has the union of the keys; keeps a base-only value; takes the override unless both sides are dictionaries, which are merged |
| Config.MergedKeepsOverrideScalar | core/config.py:42-48 | a non-dictionary value the override holds at a path is what the merge holds there |
| Config.MergedKeepsBaseValue | core/config.py:42-48 | a base value at a path the override never shadows with a non-dictionary survives the merge |
| Config.Config.constructor | core/config.py:16-20 | the configuration holds the given dictionary |
| Config.Config.Get | core/config.py:50-61 | a dotted key that resolves gives its value; one that does not gives the default |
| Config.Config.GetSection | core/config.py:77-79 | a section gives its value, or the empty dictionary when it is missing |
| Config.Config.Set | core/config.py:63-75 | the store becomes `Assign` of the old store when that succeeds, the key then reads back the value, and a failing write changes nothing |
| Config.Config.MergeOverride | core/config.py:22-40 | the store becomes the deep merge of itself with the override |
| Config.DeepMerge | core/config.py:42-48 | the recursive merge computes exactly `Merged` |
| Power.BatteryPercent | power/manager.py:126-140 | the percentage lies in [0, 100]: 100 from 4.1 V, [75, 100) from 3.9 V, [25, 75) from 3.7 V, [5, 25.01) from 3.4 V, [0, 5) from 3.0 V, 0 below |
| Power.BatteryPercentDipsAt37 | power/manager.py:133-136 | the curve is not monotone: 3.6999 V reads higher than 3.7 V |
| Power.GetPowerPolicy | power/manager.py:142-185 | shutdown iff at or under the shutdown level or critical (1 fps, 0.1 brightness); static iff at or under the static level otherwise (1 fps, 0.2 brightness); dim iff at or under the dim level or low (idle fps, 0.5); otherwise active fps at full brightness |
| Power.EstimateRemainingTime | power/manager.py:211-225 | infinite exactly when charging or drawing no current; otherwise hours times current equals the remaining share of 2000 mAh |
| Power.OptimizePowerConsumption | power/manager.py:227-246 | no suggestion from 30 %; the low-battery set from 15 %; the low and critical sets below 15 %; every suggestion is on |
| Power.CriticalSuggestionsExtendLow | power/manager.py:231-244 | below 15 % exactly three suggestions are added to the low-battery ones |
| Power.GetChargingStatus | power/manager.py:248-271 | fields are copied; time to full is present iff charging, infinite unless the current is below -10 mA |
| Power.PowerManager.constructor | power/manager.py:36-42 | no shutdown started and no remembered state |
| Power.PowerManager.ReadPowerState | power/manager.py:76-124 | a reading is converted and remembered; without a sensor, the fixed mock state; a failed read gives the remembered state or the all-zero critical state |
| Power.PowerManager.MonitorPowerEvents | power/manager.py:273-313 | no events without a remembered state; otherwise an event is raised iff warranted (level change over 5 points, charging flip, rising low or critical flag), in that order |
| Power.PowerManager.NoEventsAgainstOwnReading | services/power_service.py:75-78 | the power service passes the state just read, which is also the remembered one, so the check raises no event |
| Power.PowerManager.InitiateShutdown | power/manager.py:187-192 | the latch is set afterwards, and the call acts only the first time |
| Sensors.Push | sensors/manager.py:171-175 | appending then dropping the oldest keeps the history within its limit and ends with the new sample |
| Sensors.Window | sensors/manager.py:265 | the window is the last n samples, or all of them when there are fewer |
| Sensors.Slope | sensors/manager.py:269 | the rise from the first to the last sample divided by the sample count over 60 |
| Sensors.Trend | sensors/manager.py:259-270 | zero under two samples, otherwise the `Slope` of the last 300 samples; stated by `TrendIgnoresOlderSamples` and `TrendOfSteadyPressure` |
| Sensors.TrendIgnoresOlderSamples | sensors/manager.py:253-270 | samples older than the five-minute window do not affect the trend |
| Sensors.TrendOfSteadyPressure | sensors/manager.py:253-270 | a constant pressure has a zero trend |
| Sensors.CountAboveIsCardinality | sensors/manager.py:178 | the shake count is the number of samples above the threshold, so at most the history length |
| Sensors.CountShakes | sensors/manager.py:178 | the counting pass computes `CountAbove` |
| Sensors.SensorManager.constructor | sensors/manager.py:29-34 | both histories start empty |
| Sensors.SensorManager.CalculatePressureTrend | sensors/manager.py:253-270 | the pressure history stays within one hour and ends with the sample; the result is the trend of the new history, zero under two samples |
| Sensors.SensorManager.RecordMotion | sensors/manager.py:170-178 | the motion history stays within one minute, and the shake count is the number of samples above the threshold |
| Sensors.SensorManager.ReadImuData | sensors/manager.py:151-188 | without an IMU all fields are zero and nothing is recorded; with one, the placeholder motion is recorded and shakes are counted over the history |
| Display.MainEmoji | display/manager.py:358 | a known mood gives its emoji, any other the calm face |
| Display.StageEmoji | display/manager.py:364-366 | a stage from 1 gives that stage's emoji; a stage from -3 to 0 gives the emoji at `stage + 3`, indexing from the end as Python lists do |
| Display.LowestNeed | display/manager.py:369 | the chosen need is no larger than any other, and no need earlier in dictionary order equals it |
| Display.NeedBadge | display/manager.py:370-378 | the badge of each need; `NeedBadgeInjective` states that distinct needs have distinct badges |
| Display.NeedBadgeInjective | display/manager.py:370-378 | the four need badges are distinct |
| Display.FrameBadges | display/manager.py:361-378 | at most two badges: the stage emoji iff the path is known, then the lowest need's badge iff it is under 40 |
| Display.FrameBadgesNeverTruncated | core/models.py:87-89 | the frame's three-badge cut never drops a badge built here |
| Display.NeedBadgeMeansLowest | display/manager.py:369-378 | a need badge in the frame means that need is under 40 and lowest |
| Display.Bars | display/manager.py:381 | one bar per need, keyed by its name, holding the need over 100, in [0, 1] when the need is in [0, 100] |
| Display.CreateEmojiFrame | display/manager.py:353-387 | the frame holds the mood emoji, `FrameBadges` and the need bars, which equal `Bars` for an in-range pet |
| Display.MockDisplayManager.constructor | display/manager.py:413-417 | the frame count starts at zero |
| Display.MockDisplayManager.RenderFrame | display/manager.py:419-438 | every call counts one frame; the battery warning is shown iff the battery is critical, otherwise the emoji with badges 0 and 1 on the left and right |
| MoodEngine.InferMood | state/mood_engine.py:25-76 | the mood is one of the ten labels; hot wins, then cold, then sick on low voltage |
| MoodEngine.InferMoodFirstMatch | state/mood_engine.py:25-121 | the mood is that of the first of the nine rules whose guard holds, and calm iff none holds |
| MoodEngine.NonEmptyFingerprintNeverCalm | state/mood_engine.py:97-116 | any non-empty fingerprint counts as novel, so the mood is curious or an earlier rule and never calm |
| MoodEngine.IsEnvironmentalExtreme | state/mood_engine.py:78-81 | a pressure trend beyond twice the stable limit (2 by default), or humidity above 90 or below 10; used by `InferMood`, stated by `InferMoodFirstMatch` |
| MoodEngine.IsSustainedCondition | state/mood_engine.py:83-91 | energy under 40 for "sleepy", the social need (50 when missing) under 40 for "bored", false otherwise; stated by `InferMoodFirstMatch` |
| MoodEngine.IsComfortableTemperature | state/mood_engine.py:93-95 | at least five degrees inside both temperature thresholds; stated by `DriftRate` and `Satisfied` |
| MoodEngine.DetectNovelty | state/mood_engine.py:97-116 | a non-empty fingerprint or more than two shakes; stated by `NonEmptyFingerprintNeverCalm`, `DriftRate` and `Nudge` |
| MoodEngine.IsEnvironmentUnstable | state/mood_engine.py:118-121 | a pressure trend beyond the stable limit or more than three shakes; stated by `InferMoodFirstMatch` |
| MoodEngine.DriftRate | state/mood_engine.py:163-190 | the adjusted rate lies between 0.8 and 1.56 times the base; hunger drifts 1.5 times faster under activity; rest 1.2 times in bright light, 1.3 times under activity, 1.56 times under both; social 0.8 times with novelty; hygiene 1.2 times outside a comfortable temperature; otherwise the base rate |
| MoodEngine.Drifted | state/mood_engine.py:142-151 | drift keeps the set of needs; `DriftWithoutActionNeverRises` states how each need moves |
| MoodEngine.DriftLoss | state/mood_engine.py:147 | what a need loses to drift: the adjusted rate times the hours times the drift factor; stated by `DriftedWithoutAction` |
| MoodEngine.DriftedWithoutAction | state/mood_engine.py:142-151 | a need with no action of its name only loses its rate times the hours times the drift factor |
| MoodEngine.DriftWithoutActionNeverRises | state/mood_engine.py:142-151 | with non-negative rates and elapsed time, a need with no action never rises, and strictly falls when its base rate, the drift factor and the hours are positive |
| MoodEngine.Satisfied | state/mood_engine.py:192-207 | hunger and social are untouched; below 100, rest rises iff the place is dark and still (`RestfulPlace`), by 0.5 up to 100, and hygiene rises iff the temperature is comfortable and 40 < humidity < 70 (`CleanPlace`), by 0.2 up to 100; otherwise each is unchanged |
| MoodEngine.NeedsAfter | state/mood_engine.py:123-161 | after an update the four needs are present and each lies in [0, 100] |
| MoodEngine.UpdateNeeds | state/mood_engine.py:123-161 | the needs become drift, satisfaction and clamp of the old needs over the hours since the last update; the time is stamped; no other field changes |
| MoodEngine.DriftNeeds | state/mood_engine.py:142-151 | the per-need loop computes `Drifted` |
| MoodEngine.HungerAfterUpdate | state/mood_engine.py:142-161 | after a full update hunger is the clamp of its drifted value: the surroundings never top hunger up |
| MoodEngine.HungerNeverRises | state/mood_engine.py:142-161 | without a feeding action hunger never rises |
| MoodEngine.HungerFalls | state/mood_engine.py:142-161 | with positive rates, elapsed time and hunger, and no feeding, hunger strictly falls |
| MoodEngine.Nudge | state/mood_engine.py:215-240 | a trait moves by at most the learning rate and only needy can fall, by half the rate; playful rises iff active, shaken or played with; needy rises iff the average need is under 40 and falls iff over 70; rebellious rises iff some need is under 20; social iff there is a social interaction; explorer iff there is novelty |
| MoodEngine.Nudged | state/mood_engine.py:215-240 | the nudges keep the set of traits |
| MoodEngine.TraitsAfter | state/mood_engine.py:209-247 | after a tick the five traits are present and each lies in [0, 1] |
| MoodEngine.TraitStepBounded | state/mood_engine.py:209-247 | a tick moves a trait by at most 0.01 up or 0.005 down, and exactly by its nudge when that stays in range |
| MoodEngine.PlayfulRisesIff | state/mood_engine.py:218-222 | playful rises by 0.01 iff there is activity, a shake or a play action, and otherwise stays |
| MoodEngine.NeedyFollowsAverage | state/mood_engine.py:224-229 | needy rises under an average need of 40, falls by half the rate over 70, and stays otherwise |
| MoodEngine.TickTraits | state/mood_engine.py:209-247 | the traits become `TraitsAfter` of the old traits; no other field changes |
| MoodEngine.NudgeTraits | state/mood_engine.py:215-240 | the conditional updates compute `Nudged` |
| MoodEngine.ExposureScores | state/mood_engine.py:254-286 | six scores, with social and lone adding to 0.5; sun is 1 iff lux > 1000, temperature > 20 and motion over half the active level; shadow iff dark and still; ember iff hot; frost iff cold; social is 0.5 iff active; each otherwise 0 |
| MoodEngine.FirstMaxIndex | state/mood_engine.py:289 | the chosen path has the highest score and is the first with it |
| MoodEngine.EvolutionAfter | state/mood_engine.py:289-304 | one evolution tick on values; stated by `EvolutionHysteresis` and `EvolutionStageStep` |
| MoodEngine.EvolutionHysteresis | state/mood_engine.py:289-294 | the path switches iff the best score beats the current one by more than 0.2, and only to the first best path |
| MoodEngine.BestScoreAtLeastHalf | state/mood_engine.py:254-298 | the best score is at least 0.5, so the 0.1 floor never applies and progress grows by at least half the rate |
| MoodEngine.EvolutionStageStep | state/mood_engine.py:297-304 | the stage never falls, rises by at most one, never past 4, and rises iff progress reaches the goal below stage 4; progress then resets to 0 |
| MoodEngine.EvolveAllStageBounds | state/mood_engine.py:297-304 | over any run of ticks the stage stays in [1, 4], never falls, and rises by at most one per tick |
| MoodEngine.UpdateEvolution | state/mood_engine.py:249-307 | path, stage and progress become `EvolutionAfter` of the old ones; no other field changes |
| MoodEngine.ActionName | state/mood_engine.py:314-369 | the action name of each task; `TaskRank` orders tasks by action |
| MoodEngine.NeedTask | state/mood_engine.py:316-343 | the task dictionary of each low need; stated by `NeedTaskRank` and `LowHungerFeedsFirst` |
| MoodEngine.NeedTasksFrom | state/mood_engine.py:314-343 | the loop over the needs in dictionary order; stated by `NeedTasksRanks` and `NeedTasksMembers` |
| MoodEngine.NeedTaskRank | state/mood_engine.py:314-343 | each need's task has the position of that need in dictionary order |
| MoodEngine.NeedTasksRanks | state/mood_engine.py:314-343 | need tasks are listed in dictionary order of their needs |
| MoodEngine.NeedTasksMembers | state/mood_engine.py:314-343 | a need's task is listed iff that need is under 40 |
| MoodEngine.ExtraTasks | state/mood_engine.py:345-370 | the trait and light tasks come after the need tasks, in a fixed order |
| MoodEngine.ExtraTasksMembers | state/mood_engine.py:345-370 | exploring is listed iff explorer > 0.7, playing iff playful > 0.7, the bright spot iff lux < 100 |
| MoodEngine.TaskCandidates | state/mood_engine.py:311-370 | the need tasks followed by the trait and light tasks; stated by `CandidatesRanked`, `CareTaskMeansLowNeed` and `LowNeedsAllListed` |
| MoodEngine.CandidatesRanked | state/mood_engine.py:309-370 | the candidate list is strictly ordered: need tasks, explorer, play, bright spot |
| MoodEngine.GenerateTasks | state/mood_engine.py:309-372 | `tasks[:3]`: all the candidates when there are at most three, and exactly the first three otherwise |
| MoodEngine.GenerateTasksRanked | state/mood_engine.py:309-372 | the suggested tasks keep the candidate order |
| MoodEngine.CareTaskMeansLowNeed | state/mood_engine.py:314-343 | a need task is suggested only for a need under 40 |
| MoodEngine.LowHungerFeedsFirst | state/mood_engine.py:314-322 | hunger under 40 makes feeding the first task |
| MoodEngine.LowNeedsAllListed | state/mood_engine.py:314-372 | when at most three needs are low, every low need gets its task |
| MoodEngine.CreateDefaultBeast | state/mood_engine.py:375-397 | the default pet is calm with needs 75/60/50/80, traits 0.5/0.3/0.2/0.4/0.6, on the sun path at stage 1 with no progress and full energy |
| Database.TallyOf | core/database.py:264-286 | the running scores after each reading in turn; stated by `TallyCounts` |
| Database.TallyCounts | core/database.py:264-286 | each path's score counts the readings meeting its condition; social and lone together give half a point per reading |
| Database.Stats | core/database.py:247-299 | the scores divided by the number of readings, empty for none; stated by `StatsKeys`, `StatsInUnit`, `StatsAreFractions` and `SocialLoneSplit` |
| Database.StatsKeys | core/database.py:247-299 | the statistics are empty iff there are no readings, and otherwise score all six paths |
| Database.StatsInUnit | core/database.py:289-297 | every statistic lies in [0, 1] |
| Database.StatsAreFractions | core/database.py:264-297 | sun, shadow, ember and frost are the fractions of readings meeting each condition |
| Database.SocialLoneSplit | core/database.py:281-297 | social and lone each lie in [0, 0.5] and add to exactly 0.5 |
| Database.GetEvolutionStats | core/database.py:247-299 | the one-pass loop computes `Stats` of the readings |

A consequence worth noting: by `MoodEngine.NonEmptyFingerprintNeverCalm`, the
readings in `test_calm_fallback` (tests/test_mood_engine.py:133-152) carry the
fingerprint `"test"`. So `infer_mood` returns curious or an earlier mood for
them under every configuration, and never calm.

## Left out

- Hardware: I2C sensor drivers, the IMU, the INA219 gauge, the three LCD
  panels, PIL rendering and fonts. Readings enter as values (`SensorReading`,
  `EnvFeatures`); a frame's display is reported as the `Shown` value.
- Persistence: SQLite (schema, save and load, events, clean-up), the YAML
  load and save of the configuration, and the services' loops, MQTT and
  logging. Of the database, only the scoring of `get_evolution_stats` is
  modelled; the readings of the period are its input.
- `time.time()` and `get_config()`: the current time and the configuration
  values are parameters (`now`, `EngineConfig`, `DisplayConfig`,
  `PowerConfig`).
- Randomness in the mock sensors and in the mock-mode power reading
  (power/manager.py:61-74): `ReadPowerState` models the sensor path only.
- Floating point: all arithmetic is on exact reals, so rounding is not
  modelled.
- Power.PowerManager.InitiateShutdown: the delay, the shutdown warning and
  the `sudo shutdown` call are not modelled; only the latch and whether the
  call acts.
- Sensors.SensorManager.ReadImuData: as in the source, roll, pitch, yaw and
  heading are always 0.0 (sensors/manager.py:152-157), with or without an
  IMU, and the recorded motion is the fixed placeholder 0.1. The handler for
  an IMU read error is not modelled: nothing in the modelled branch fails.
- The Wi-Fi scan and SHA-256 fingerprint: the fingerprint is a string input.
- MoodEngine.InferMood: novelty is modelled as the source computes it, a
  non-empty fingerprint or more than two shakes. Nothing is remembered about
  earlier locations.
- MoodEngine.UpdateNeeds: the source adds each action's value to the need of
  the same name. Actions are a `map<string, real>`; `tick_traits` only tests
  for keys in it.
- Needs and traits: their keys are fixed to the four needs and five traits.
  A missing key, a `KeyError` in the source, is excluded by a precondition.
- In-place updates of a dictionary are modelled as a new map that is then
  assigned (`DriftNeeds`, `NudgeTraits`, `ClampEach`). Aliasing of the
  dictionaries shared between callers is not modelled.
- MoodEngine.NudgeTraits: each of the five conditional updates changes its
  trait's value in a local, and the five values are written back into the
  dictionary at the end. No step reads another trait, so the result is the
  one the source's step-by-step writes give.
- Config.Config.Set and Config.DeepMerge work on immutable values, so a
  sub-dictionary shared between two places in the configuration is not
  modelled.
- MoodEngine.UpdateEvolution: the `hours` parameter is unused in the source
  and is left out. The progress is not clamped, as in the source.
- MoodEngine.ExposureScores: as in the source, the sun score compares against
  the literals 1000 lux and 20 °C (not the configured thresholds) and against
  half the active-motion threshold.
- Power.BatteryPercent: the linear pieces are stated by their ranges. The
  source's curve falls just below 3.7 V and is reproduced, not corrected.
- Ties between evolution paths and between needs go to the first in
  dictionary order, the order the source's dictionaries are written in.
- Config.Value: configuration leaves are numbers, booleans and strings.
  Python's `None` and lists are not modelled. `get`'s default of `None` is
  replaced by a default the caller supplies. The walk itself never looks
  inside a leaf, so this does not change what `get` and `set` do.
- Models.MoodEmojis and Models.EvolutionPaths: the emoji are written by
  code point. The code points are the ones the display's `EMOJI_HEXCODES`
  table gives for the same characters (display/manager.py:23-59).
- The services' glue (`state_service`, `viz_service`, `power_service`,
  `sense_service`) and the demo and debug scripts are not part of this model.
