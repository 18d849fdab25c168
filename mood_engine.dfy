/** The pet's behavioural state engine: mood inference by ordered rules, need
    drift and satisfaction, trait learning, evolution progress and daily tasks. */
module MoodEngine {
  import opened Models

  /** The thresholds and rates the engine reads from configuration. The
      optional ones are looked up with a default. */
  datatype EngineConfig = EngineConfig(
    tempHot: real, tempCold: real, luxDark: real, luxBright: real, motionActiveG: real,
    pressureStable: Option<real>, lowVoltage: real,
    hungerBase: real, restBase: real, socialBase: real, hygieneBase: real, driftRate: real,
    progressionRate: Option<real>, stageGoal: Option<real>)

  function PressureStable(cfg: EngineConfig): real { cfg.pressureStable.GetOr(2.0) }
  function ProgressionRate(cfg: EngineConfig): real { cfg.progressionRate.GetOr(0.01) }
  function StageGoal(cfg: EngineConfig): real { cfg.stageGoal.GetOr(1.0) }

  function Abs(x: real): real { if x < 0.0 then -x else x }

  // ---------------------------------------------------------------- conditions

  /** A pressure swing of twice the stable limit, or humidity outside [10, 90]. */
  predicate IsEnvironmentalExtreme(cfg: EngineConfig, env: EnvFeatures) {
    Abs(env.pressureTrend) > PressureStable(cfg) * 2.0 || env.rh > 90.0 || env.rh < 10.0
  }

  /** The stand-in for a sustained condition: low energy for "sleepy", a low
      social need (50 when absent) for "bored", and false for anything else. */
  predicate IsSustainedCondition(energy: real, needs: map<Need, real>, condition: string) {
    if condition == "sleepy" then energy < 40.0
    else if condition == "bored" then (if Need.Social in needs then needs[Need.Social] else 50.0) < 40.0
    else false
  }

  /** At least five degrees inside both temperature thresholds. */
  predicate IsComfortableTemperature(cfg: EngineConfig, tempC: real) {
    cfg.tempCold + 5.0 <= tempC <= cfg.tempHot - 5.0
  }

  /** Novelty: the pet never stores a previous fingerprint or light level, so
      any non-empty fingerprint counts as a new place, as do more than two
      shake events. */
  predicate DetectNovelty(env: EnvFeatures) {
    env.ssidFingerprint != "" || env.shakeEvents > 2
  }

  /** A pressure swing beyond the stable limit, or more than three shakes. */
  predicate IsEnvironmentUnstable(cfg: EngineConfig, env: EnvFeatures) {
    Abs(env.pressureTrend) > PressureStable(cfg) || env.shakeEvents > 3
  }

  predicate AnyNeedBelow(needs: map<Need, real>, limit: real) {
    exists n :: n in needs && needs[n] < limit
  }

  // ---------------------------------------------------------------- mood

  /** The mood for the current readings: ten rules tried in order, the first
      that holds wins, and "calm" when none does. */
  function InferMood(cfg: EngineConfig, env: EnvFeatures, energy: real, needs: map<Need, real>): (r: string)
    ensures r in MoodLabels
    ensures env.tempC >= cfg.tempHot ==> r == "hot"
    ensures env.tempC < cfg.tempHot && env.tempC <= cfg.tempCold ==> r == "cold"
    ensures cfg.tempCold < env.tempC < cfg.tempHot && env.vbat < cfg.lowVoltage ==> r == "sick"
  {
    if env.tempC >= cfg.tempHot then "hot"
    else if env.tempC <= cfg.tempCold then "cold"
    else if env.vbat < cfg.lowVoltage || energy < 20.0 || IsEnvironmentalExtreme(cfg, env) then "sick"
    else if env.lux < cfg.luxDark && env.motionRmsG < cfg.motionActiveG / 4.0 &&
            IsSustainedCondition(energy, needs, "sleepy") then "sleepy"
    else if env.shakeEvents > 0 || env.motionRmsG > cfg.motionActiveG then "playful"
    else if env.lux > cfg.luxBright && IsComfortableTemperature(cfg, env.tempC) && energy > 60.0 then "happy"
    else if DetectNovelty(env) then "curious"
    else if env.motionRmsG < cfg.motionActiveG / 2.0 && IsSustainedCondition(energy, needs, "bored") then "bored"
    else if IsEnvironmentUnstable(cfg, env) || AnyNeedBelow(needs, 30.0) then "anxious"
    else "calm"
  }

  /** The moods of the nine guarded rules, in priority order. */
  const RuleMoods: seq<string> :=
    ["hot", "cold", "sick", "sleepy", "playful", "happy", "curious", "bored", "anxious"]

  /** The nine rule guards, in the same order, as a reference for `InferMood`. */
  function MoodGuards(cfg: EngineConfig, env: EnvFeatures, energy: real, needs: map<Need, real>): (g: seq<bool>)
    ensures |g| == |RuleMoods|
  {
    [ env.tempC >= cfg.tempHot,
      env.tempC <= cfg.tempCold,
      env.vbat < cfg.lowVoltage || energy < 20.0 || IsEnvironmentalExtreme(cfg, env),
      env.lux < cfg.luxDark && env.motionRmsG < cfg.motionActiveG / 4.0 && energy < 40.0,
      env.shakeEvents > 0 || env.motionRmsG > cfg.motionActiveG,
      env.lux > cfg.luxBright && IsComfortableTemperature(cfg, env.tempC) && energy > 60.0,
      DetectNovelty(env),
      env.motionRmsG < cfg.motionActiveG / 2.0 && (if Need.Social in needs then needs[Need.Social] else 50.0) < 40.0,
      IsEnvironmentUnstable(cfg, env) || AnyNeedBelow(needs, 30.0) ]
  }

  /** The position of the first guard that holds, or the number of guards
      when none does. */
  function FirstTrue(g: seq<bool>): (j: nat)
    ensures j <= |g|
    ensures forall k :: 0 <= k < j ==> !g[k]
    ensures j < |g| ==> g[j]
  {
    if g == [] then 0 else if g[0] then 0 else 1 + FirstTrue(g[1..])
  }

  /** First match wins: the mood is that of the first rule whose guard holds,
      and "calm" exactly when no guard holds. */
  lemma InferMoodFirstMatch(cfg: EngineConfig, env: EnvFeatures, energy: real, needs: map<Need, real>)
    ensures var g := MoodGuards(cfg, env, energy, needs); var j := FirstTrue(g);
      InferMood(cfg, env, energy, needs) == (if j < |RuleMoods| then RuleMoods[j] else "calm")
    ensures var g := MoodGuards(cfg, env, energy, needs);
      InferMood(cfg, env, energy, needs) == "calm" <==> forall i :: 0 <= i < |g| ==> !g[i]
  {
    var g := MoodGuards(cfg, env, energy, needs);
    var j := FirstTrue(g);
    if g[0] { assert j == 0; }
    else if g[1] { assert j == 1; }
    else if g[2] { assert j == 2; }
    else if g[3] { assert j == 3; }
    else if g[4] { assert j == 4; }
    else if g[5] { assert j == 5; }
    else if g[6] { assert j == 6; }
    else if g[7] { assert j == 7; }
    else if g[8] { assert j == 8; }
    else { assert j == 9; }
  }

  /** Because novelty fires on any non-empty fingerprint, a pet that sees a
      network can never be calm. */
  lemma NonEmptyFingerprintNeverCalm(cfg: EngineConfig, env: EnvFeatures, energy: real, needs: map<Need, real>)
    requires env.ssidFingerprint != ""
    ensures InferMood(cfg, env, energy, needs) != "calm"
    ensures InferMood(cfg, env, energy, needs) in RuleMoods[..7]
  {
    assert RuleMoods[..7] == ["hot", "cold", "sick", "sleepy", "playful", "happy", "curious"];
  }

  // ---------------------------------------------------------------- needs

  /** The configured base drift rate of a need. */
  function BaseRate(cfg: EngineConfig, n: Need): real {
    match n
    case Hunger => cfg.hungerBase
    case Rest => cfg.restBase
    case Social => cfg.socialBase
    case Hygiene => cfg.hygieneBase
  }

  /** A need's drift rate adjusted for the surroundings: activity makes hunger
      and rest drift faster, bright light makes rest drift faster, novelty
      slows the social drift and an uncomfortable temperature speeds up the
      hygiene drift. */
  function DriftRate(cfg: EngineConfig, n: Need, base: real, env: EnvFeatures): (r: real)
    ensures base >= 0.0 ==> 0.8 * base <= r <= 1.56 * base
    ensures base > 0.0 ==> r > 0.0
    ensures n == Hunger ==> r == (if env.motionRmsG > cfg.motionActiveG then 1.5 * base else base)
    ensures n == Rest && env.lux > cfg.luxBright && env.motionRmsG > cfg.motionActiveG ==> r == 1.56 * base
    ensures n == Rest && env.lux > cfg.luxBright && env.motionRmsG <= cfg.motionActiveG ==> r == 1.2 * base
    ensures n == Rest && env.lux <= cfg.luxBright && env.motionRmsG > cfg.motionActiveG ==> r == 1.3 * base
    ensures n == Rest && env.lux <= cfg.luxBright && env.motionRmsG <= cfg.motionActiveG ==> r == base
    ensures n == Need.Social ==> r == (if DetectNovelty(env) then 0.8 * base else base)
    ensures n == Hygiene ==> r == (if IsComfortableTemperature(cfg, env.tempC) then base else 1.2 * base)
  {
    match n
    case Hunger => if env.motionRmsG > cfg.motionActiveG then base * 1.5 else base
    case Rest =>
      var bright := if env.lux > cfg.luxBright then base * 1.2 else base;
      if env.motionRmsG > cfg.motionActiveG then bright * 1.3 else bright
    case Social => if DetectNovelty(env) then base * 0.8 else base
    case Hygiene => if !IsComfortableTemperature(cfg, env.tempC) then base * 1.2 else base
  }

  /** What a need loses to drift over `hours`. */
  function DriftLoss(cfg: EngineConfig, n: Need, env: EnvFeatures, hours: real): real {
    DriftRate(cfg, n, BaseRate(cfg, n), env) * hours * cfg.driftRate
  }

  /** One need after drift over `hours` and any caregiver action for it. */
  function DriftedNeed(cfg: EngineConfig, n: Need, v: real, env: EnvFeatures,
                       actions: map<string, real>, hours: real): real
  {
    v - DriftLoss(cfg, n, env, hours)
      + (if NeedName(n) in actions then actions[NeedName(n)] else 0.0)
  }

  /** Every need after drift and actions. */
  function Drifted(cfg: EngineConfig, needs: map<Need, real>, env: EnvFeatures,
                   actions: map<string, real>, hours: real): (r: map<Need, real>)
    ensures r.Keys == needs.Keys
  {
    map n | n in needs :: DriftedNeed(cfg, n, needs[n], env, actions, hours)
  }

  /** Dark and still: the place where the pet rests. */
  predicate RestfulPlace(cfg: EngineConfig, env: EnvFeatures) {
    env.lux < cfg.luxDark && env.motionRmsG < cfg.motionActiveG / 4.0
  }

  /** A comfortable temperature with humidity strictly between 40 and 70. */
  predicate CleanPlace(cfg: EngineConfig, env: EnvFeatures) {
    IsComfortableTemperature(cfg, env.tempC) && 40.0 < env.rh < 70.0
  }

  /** A dark, still place tops up rest by 0.5 and a comfortable, moderately
      humid one tops up hygiene by 0.2, neither beyond 100. */
  function Satisfied(cfg: EngineConfig, needs: map<Need, real>, env: EnvFeatures): (r: map<Need, real>)
    requires Rest in needs && Hygiene in needs
    ensures r.Keys == needs.Keys
    ensures Hunger in needs ==> r[Hunger] == needs[Hunger]
    ensures Need.Social in needs ==> r[Need.Social] == needs[Need.Social]
    ensures needs[Rest] <= 100.0 ==> needs[Rest] <= r[Rest] <= 100.0
    ensures needs[Hygiene] <= 100.0 ==> needs[Hygiene] <= r[Hygiene] <= 100.0
    ensures needs[Rest] < 100.0 ==> (r[Rest] > needs[Rest] <==> RestfulPlace(cfg, env))
    ensures RestfulPlace(cfg, env) && needs[Rest] <= 99.5 ==> r[Rest] == needs[Rest] + 0.5
    ensures !RestfulPlace(cfg, env) ==> r[Rest] == needs[Rest]
    ensures needs[Hygiene] < 100.0 ==> (r[Hygiene] > needs[Hygiene] <==> CleanPlace(cfg, env))
    ensures CleanPlace(cfg, env) && needs[Hygiene] <= 99.8 ==> r[Hygiene] == needs[Hygiene] + 0.2
    ensures !CleanPlace(cfg, env) ==> r[Hygiene] == needs[Hygiene]
  {
    var rested := if RestfulPlace(cfg, env) then needs[Rest := Min(100.0, needs[Rest] + 0.5)] else needs;
    if CleanPlace(cfg, env) then rested[Hygiene := Min(100.0, rested[Hygiene] + 0.2)] else rested
  }

  /** The needs after one update over `hours`: drift and actions, then the
      surroundings' top-ups, then every need clamped to [0, 100]. */
  function NeedsAfter(cfg: EngineConfig, needs: map<Need, real>, env: EnvFeatures,
                      actions: map<string, real>, hours: real): (r: map<Need, real>)
    requires needs.Keys == AllNeeds
    ensures r.Keys == AllNeeds
    ensures ValuesIn(r, 0.0, 100.0)
  {
    ClampValues(Satisfied(cfg, Drifted(cfg, needs, env, actions, hours), env), 0.0, 100.0)
  }

  /** The hours from `last` to `now`, both in seconds. */
  function HoursSince(last: real, now: real): real { (now - last) / 3600.0 }

  /** The need update with the elapsed time measured against `now`: each need
      drifts and takes its action in dictionary order, the surroundings top
      some up, every need is clamped, and the update time becomes `now`. */
  method UpdateNeeds(cfg: EngineConfig, b: Beast, env: EnvFeatures, actions: map<string, real>, now: real)
    requires b.Valid()
    modifies b
    ensures b.needs == NeedsAfter(cfg, old(b.needs), env, actions, HoursSince(old(b.lastUpdated), now))
    ensures b.lastUpdated == now
    ensures b.Valid() && ValuesIn(b.needs, 0.0, 100.0)
    ensures b.traits == old(b.traits) && b.mood == old(b.mood) && b.energy == old(b.energy)
    ensures b.evolutionPath == old(b.evolutionPath) && b.evolutionStage == old(b.evolutionStage)
    ensures b.evolutionProg == old(b.evolutionProg)
  {
    var hours := HoursSince(b.lastUpdated, now);
    var drifted := DriftNeeds(cfg, b.needs, env, actions, hours);
    var satisfied := Satisfied(cfg, drifted, env);
    var clamped := ClampEach(satisfied, 0.0, 100.0);
    assert clamped == NeedsAfter(cfg, b.needs, env, actions, hours);
    b.needs := clamped;
    b.lastUpdated := now;
  }

  /** The drift loop: each need in dictionary order loses its adjusted drift
      over `hours` and gains the caregiver action named after it. */
  method DriftNeeds(cfg: EngineConfig, needs: map<Need, real>, env: EnvFeatures,
                    actions: map<string, real>, hours: real) returns (r: map<Need, real>)
    requires needs.Keys == AllNeeds
    ensures r == Drifted(cfg, needs, env, actions, hours)
  {
    r := needs;
    for i := 0 to |NeedOrder|
      invariant r.Keys == AllNeeds
      invariant forall j :: 0 <= j < i ==> r[NeedOrder[j]] == DriftedNeed(cfg, NeedOrder[j], needs[NeedOrder[j]], env, actions, hours)
      invariant forall j :: i <= j < |NeedOrder| ==> r[NeedOrder[j]] == needs[NeedOrder[j]]
    {
      var n := NeedOrder[i];
      var rate := DriftRate(cfg, n, BaseRate(cfg, n), env);
      assert r[n] == needs[n];
      r := r[n := r[n] - rate * hours * cfg.driftRate];
      if NeedName(n) in actions {
        r := r[n := r[n] + actions[NeedName(n)]];
      }
      assert r[n] == DriftedNeed(cfg, n, needs[n], env, actions, hours);
    }
    forall k | k in r
      ensures r[k] == DriftedNeed(cfg, k, needs[k], env, actions, hours)
    {
      match k
      case Hunger => assert k == NeedOrder[0];
      case Rest => assert k == NeedOrder[1];
      case Social => assert k == NeedOrder[2];
      case Hygiene => assert k == NeedOrder[3];
    }
    DriftedPointwise(cfg, needs, env, actions, hours, r);
  }

  /** A map with the same keys and the drifted value at each key is the drifted map. */
  lemma DriftedPointwise(cfg: EngineConfig, needs: map<Need, real>, env: EnvFeatures,
                         actions: map<string, real>, hours: real, r: map<Need, real>)
    requires r.Keys == needs.Keys
    requires forall k :: k in r ==> r[k] == DriftedNeed(cfg, k, needs[k], env, actions, hours)
    ensures r == Drifted(cfg, needs, env, actions, hours)
  {
  }

  /** Drift alone never raises a need that has no action: with non-negative
      rates and elapsed time it stays or falls, and with positive ones it
      strictly falls. */
  lemma DriftWithoutActionNeverRises(cfg: EngineConfig, needs: map<Need, real>, env: EnvFeatures,
                                     actions: map<string, real>, hours: real, n: Need)
    requires n in needs && NeedName(n) !in actions
    requires BaseRate(cfg, n) >= 0.0 && cfg.driftRate >= 0.0 && hours >= 0.0
    ensures Drifted(cfg, needs, env, actions, hours)[n] <= needs[n]
    ensures BaseRate(cfg, n) > 0.0 && cfg.driftRate > 0.0 && hours > 0.0 ==>
              Drifted(cfg, needs, env, actions, hours)[n] < needs[n]
  {
    var rate := DriftRate(cfg, n, BaseRate(cfg, n), env);
    DriftedWithoutAction(cfg, needs, env, actions, hours, n);
    NonNegativeProduct(rate, hours, cfg.driftRate);
    if BaseRate(cfg, n) > 0.0 && cfg.driftRate > 0.0 && hours > 0.0 {
      PositiveProduct(rate, hours, cfg.driftRate);
    }
  }

  /** A need with no action only loses its drift. */
  lemma DriftedWithoutAction(cfg: EngineConfig, needs: map<Need, real>, env: EnvFeatures,
                             actions: map<string, real>, hours: real, n: Need)
    requires n in needs && NeedName(n) !in actions
    ensures Drifted(cfg, needs, env, actions, hours)[n] ==
              needs[n] - DriftLoss(cfg, n, env, hours)
  {
    assert Drifted(cfg, needs, env, actions, hours)[n] == DriftedNeed(cfg, n, needs[n], env, actions, hours);
  }

  /** The hunger after a full update is the clamp of the drifted hunger: the
      surroundings never top hunger up. */
  lemma HungerAfterUpdate(cfg: EngineConfig, needs: map<Need, real>, env: EnvFeatures,
                          actions: map<string, real>, hours: real)
    requires needs.Keys == AllNeeds
    ensures NeedsAfter(cfg, needs, env, actions, hours)[Hunger] ==
              Clamp(Drifted(cfg, needs, env, actions, hours)[Hunger], 0.0, 100.0)
  {
    var d := Drifted(cfg, needs, env, actions, hours);
    var s := Satisfied(cfg, d, env);
    assert s[Hunger] == d[Hunger];
    assert NeedsAfter(cfg, needs, env, actions, hours) == ClampValues(s, 0.0, 100.0);
  }

  /** With non-negative rates and elapsed time and no feeding, hunger never rises. */
  lemma HungerNeverRises(cfg: EngineConfig, needs: map<Need, real>, env: EnvFeatures,
                         actions: map<string, real>, hours: real)
    requires needs.Keys == AllNeeds
    requires cfg.hungerBase >= 0.0 && cfg.driftRate >= 0.0 && hours >= 0.0
    requires "hunger" !in actions
    requires needs[Hunger] >= 0.0
    ensures NeedsAfter(cfg, needs, env, actions, hours)[Hunger] <= needs[Hunger]
  {
    DriftWithoutActionNeverRises(cfg, needs, env, actions, hours, Hunger);
    HungerAfterUpdate(cfg, needs, env, actions, hours);
  }

  /** With positive rates and elapsed time and no feeding, a hunger above zero
      strictly falls. */
  lemma HungerFalls(cfg: EngineConfig, needs: map<Need, real>, env: EnvFeatures,
                    actions: map<string, real>, hours: real)
    requires needs.Keys == AllNeeds
    requires cfg.hungerBase > 0.0 && cfg.driftRate > 0.0 && hours > 0.0
    requires "hunger" !in actions
    requires needs[Hunger] > 0.0
    ensures NeedsAfter(cfg, needs, env, actions, hours)[Hunger] < needs[Hunger]
  {
    DriftWithoutActionNeverRises(cfg, needs, env, actions, hours, Hunger);
    HungerAfterUpdate(cfg, needs, env, actions, hours);
  }

  lemma NonNegativeProduct(a: real, b: real, c: real)
    requires a >= 0.0 && b >= 0.0 && c >= 0.0
    ensures a * b * c >= 0.0
  {
    assert a * b >= 0.0;
  }

  lemma PositiveProduct(a: real, b: real, c: real)
    requires a > 0.0 && b > 0.0 && c > 0.0
    ensures a * b * c > 0.0
  {
    assert a * b > 0.0;
  }

  // ---------------------------------------------------------------- traits

  /** The size of one trait nudge. */
  const LearningRate: real := 0.01

  /** The mean of the four needs. */
  function AverageNeed(needs: map<Need, real>): real
    requires needs.Keys == AllNeeds
  {
    (needs[Hunger] + needs[Rest] + needs[Need.Social] + needs[Hygiene]) / 4.0
  }

  /** The change to a trait before clamping: playful rises with activity or
      play, needy rises when needs average below 40 and falls by half a step
      above 70, rebellious rises when some need is below 20, social rises with
      a social interaction and explorer with novelty. */
  function Nudge(cfg: EngineConfig, t: Trait, needs: map<Need, real>, env: EnvFeatures,
                 actions: map<string, real>): (d: real)
    requires needs.Keys == AllNeeds
    ensures -LearningRate / 2.0 <= d <= LearningRate
    ensures t != Needy ==> d == 0.0 || d == LearningRate
    ensures t == Playful ==>
      (d > 0.0 <==> env.motionRmsG > cfg.motionActiveG || env.shakeEvents > 0 || "play" in actions)
    ensures t == Needy ==> (d > 0.0 <==> AverageNeed(needs) < 40.0) && (d < 0.0 <==> AverageNeed(needs) > 70.0)
    ensures t == Rebellious ==> (d > 0.0 <==> AnyNeedBelow(needs, 20.0))
    ensures t == Trait.Social ==> (d > 0.0 <==> "social_interaction" in actions)
    ensures t == Explorer ==> (d > 0.0 <==> DetectNovelty(env))
  {
    match t
    case Playful =>
      if env.motionRmsG > cfg.motionActiveG || env.shakeEvents > 0 || "play" in actions then LearningRate else 0.0
    case Needy =>
      var avg := AverageNeed(needs);
      if avg < 40.0 then LearningRate else if avg > 70.0 then -LearningRate / 2.0 else 0.0
    case Rebellious => if AnyNeedBelow(needs, 20.0) then LearningRate else 0.0
    case Social => if "social_interaction" in actions then LearningRate else 0.0
    case Explorer => if DetectNovelty(env) then LearningRate else 0.0
  }

  /** The traits after one learning tick: each nudged, then clamped to [0, 1]. */
  function TraitsAfter(cfg: EngineConfig, traits: map<Trait, real>, needs: map<Need, real>,
                       env: EnvFeatures, actions: map<string, real>): (r: map<Trait, real>)
    requires traits.Keys == AllTraits && needs.Keys == AllNeeds
    ensures r.Keys == AllTraits
    ensures ValuesIn(r, 0.0, 1.0)
  {
    ClampValues(Nudged(cfg, traits, needs, env, actions), 0.0, 1.0)
  }

  /** Every trait with its nudge added, before clamping. */
  function Nudged(cfg: EngineConfig, traits: map<Trait, real>, needs: map<Need, real>,
                  env: EnvFeatures, actions: map<string, real>): (r: map<Trait, real>)
    requires needs.Keys == AllNeeds
    ensures r.Keys == traits.Keys
  {
    map t | t in traits :: traits[t] + Nudge(cfg, t, needs, env, actions)
  }

  /** Traits already in range move by at most one learning step, and exactly
      by their nudge when that stays in range. */
  lemma TraitStepBounded(cfg: EngineConfig, traits: map<Trait, real>, needs: map<Need, real>,
                         env: EnvFeatures, actions: map<string, real>, t: Trait)
    requires traits.Keys == AllTraits && needs.Keys == AllNeeds
    requires ValuesIn(traits, 0.0, 1.0)
    ensures var after := TraitsAfter(cfg, traits, needs, env, actions)[t];
      traits[t] - LearningRate / 2.0 <= after <= traits[t] + LearningRate
    ensures var d := Nudge(cfg, t, needs, env, actions);
      0.0 <= traits[t] + d <= 1.0 ==> TraitsAfter(cfg, traits, needs, env, actions)[t] == traits[t] + d
  {
    assert t in traits;
  }

  /** Below the top of its range, the playful trait rises exactly when the pet
      is active, was shaken or was played with, and otherwise stays put. */
  lemma PlayfulRisesIff(cfg: EngineConfig, traits: map<Trait, real>, needs: map<Need, real>,
                        env: EnvFeatures, actions: map<string, real>)
    requires traits.Keys == AllTraits && needs.Keys == AllNeeds
    requires 0.0 <= traits[Playful] <= 1.0 - LearningRate
    ensures var after := TraitsAfter(cfg, traits, needs, env, actions)[Playful];
      (after > traits[Playful] <==>
        env.motionRmsG > cfg.motionActiveG || env.shakeEvents > 0 || "play" in actions) &&
      (after == traits[Playful] || after == traits[Playful] + LearningRate)
  {
    assert Playful in traits;
  }

  /** When the needs average above 70 the needy trait falls by half a step,
      and when they average below 40 it rises by a step (before clamping). */
  lemma NeedyFollowsAverage(cfg: EngineConfig, traits: map<Trait, real>, needs: map<Need, real>,
                            env: EnvFeatures, actions: map<string, real>)
    requires traits.Keys == AllTraits && needs.Keys == AllNeeds
    requires LearningRate / 2.0 <= traits[Needy] <= 1.0 - LearningRate
    ensures AverageNeed(needs) > 70.0 ==>
      TraitsAfter(cfg, traits, needs, env, actions)[Needy] == traits[Needy] - LearningRate / 2.0
    ensures AverageNeed(needs) < 40.0 ==>
      TraitsAfter(cfg, traits, needs, env, actions)[Needy] == traits[Needy] + LearningRate
    ensures 40.0 <= AverageNeed(needs) <= 70.0 ==>
      TraitsAfter(cfg, traits, needs, env, actions)[Needy] == traits[Needy]
  {
    assert Needy in traits;
  }

  /** One learning tick on the pet: the five nudges in place, then every
      trait clamped to [0, 1]. */
  method TickTraits(cfg: EngineConfig, env: EnvFeatures, b: Beast, actions: map<string, real>)
    requires b.Valid()
    modifies b
    ensures b.traits == TraitsAfter(cfg, old(b.traits), old(b.needs), env, actions)
    ensures b.Valid() && ValuesIn(b.traits, 0.0, 1.0)
    ensures b.needs == old(b.needs) && b.mood == old(b.mood) && b.energy == old(b.energy)
    ensures b.lastUpdated == old(b.lastUpdated) && b.evolutionPath == old(b.evolutionPath)
    ensures b.evolutionStage == old(b.evolutionStage) && b.evolutionProg == old(b.evolutionProg)
  {
    var nudged := NudgeTraits(cfg, b.traits, b.needs, env, actions);
    var clamped := ClampEach(nudged, 0.0, 1.0);
    b.traits := clamped;
  }

  /** The five nudges in the order the pet learns them, each applied to its
      trait's value, then written back into the trait dictionary. */
  method NudgeTraits(cfg: EngineConfig, traits: map<Trait, real>, needs: map<Need, real>,
                     env: EnvFeatures, actions: map<string, real>) returns (r: map<Trait, real>)
    requires traits.Keys == AllTraits && needs.Keys == AllNeeds
    ensures r == Nudged(cfg, traits, needs, env, actions)
  {
    var playful, needy, rebellious, social, explorer :=
      traits[Playful], traits[Needy], traits[Rebellious], traits[Trait.Social], traits[Explorer];
    if env.motionRmsG > cfg.motionActiveG || env.shakeEvents > 0 || "play" in actions {
      playful := playful + LearningRate;
    }
    var avg := AverageNeed(needs);
    if avg < 40.0 {
      needy := needy + LearningRate;
    } else if avg > 70.0 {
      needy := needy - LearningRate / 2.0;
    }
    if AnyNeedBelow(needs, 20.0) {
      rebellious := rebellious + LearningRate;
    }
    if "social_interaction" in actions {
      social := social + LearningRate;
    }
    if DetectNovelty(env) {
      explorer := explorer + LearningRate;
    }
    r := traits[Playful := playful][Needy := needy][Rebellious := rebellious]
               [Trait.Social := social][Explorer := explorer];
    forall t | t in r
      ensures r[t] == traits[t] + Nudge(cfg, t, needs, env, actions)
    {
      match t
      case Playful =>
      case Needy =>
      case Rebellious =>
      case Social =>
      case Explorer =>
    }
    NudgedPointwise(cfg, traits, needs, env, actions, r);
  }

  /** A map with the same keys and each trait nudged is the nudged map. */
  lemma NudgedPointwise(cfg: EngineConfig, traits: map<Trait, real>, needs: map<Need, real>,
                        env: EnvFeatures, actions: map<string, real>, r: map<Trait, real>)
    requires traits.Keys == AllTraits && needs.Keys == AllNeeds
    requires r.Keys == AllTraits
    requires forall t :: t in r ==> r[t] == traits[t] + Nudge(cfg, t, needs, env, actions)
    ensures r == Nudged(cfg, traits, needs, env, actions)
  {
  }

  // ---------------------------------------------------------------- evolution

  /** This tick's exposure score for each path, in the order of `PathNames`:
      sun for bright (over 1000 lux), warm (over 20 degrees) and moderately
      active; shadow for dark and still; ember above the hot threshold; frost
      below the cold one; half a point to social when active, else to lone. */
  function ExposureScores(cfg: EngineConfig, env: EnvFeatures): (s: seq<real>)
    ensures |s| == |PathNames|
    ensures forall i :: 0 <= i < |s| ==> s[i] == 0.0 || s[i] == 0.5 || s[i] == 1.0
    ensures s[4] + s[5] == 0.5
    ensures forall i :: 0 <= i < 4 ==> s[i] == 0.0 || s[i] == 1.0
    ensures s[0] == 1.0 <==> env.lux > 1000.0 && env.tempC > 20.0 && env.motionRmsG > cfg.motionActiveG / 2.0
    ensures s[1] == 1.0 <==> RestfulPlace(cfg, env)
    ensures s[2] == 1.0 <==> env.tempC > cfg.tempHot
    ensures s[3] == 1.0 <==> env.tempC < cfg.tempCold
    ensures s[4] == 0.5 <==> env.motionRmsG > cfg.motionActiveG
  {
    var active := env.motionRmsG > cfg.motionActiveG;
    [ if env.lux > 1000.0 && env.tempC > 20.0 && env.motionRmsG > cfg.motionActiveG / 2.0 then 1.0 else 0.0,
      if RestfulPlace(cfg, env) then 1.0 else 0.0,
      if env.tempC > cfg.tempHot then 1.0 else 0.0,
      if env.tempC < cfg.tempCold then 1.0 else 0.0,
      if active then 0.5 else 0.0,
      if active then 0.0 else 0.5 ]
  }

  /** The position of the first largest score: `max` keeps the earliest of
      equal values. */
  function FirstMaxIndex(s: seq<real>): (j: nat)
    requires |s| >= 1
    ensures j < |s|
    ensures forall i :: 0 <= i < |s| ==> s[i] <= s[j]
    ensures forall i :: 0 <= i < j ==> s[i] < s[j]
  {
    if |s| == 1 then 0
    else
      var j := FirstMaxIndex(s[..|s| - 1]);
      if s[|s| - 1] > s[j] then |s| - 1 else j
  }

  /** The position of a path name in the path order. */
  function PathIndex(path: string): (i: nat)
    requires path in PathNames
    ensures i < |PathNames| && PathNames[i] == path
  {
    if path == "sun" then 0 else if path == "shadow" then 1 else if path == "ember" then 2
    else if path == "frost" then 3 else if path == "social" then 4 else 5
  }

  /** The score of the pet's current path, 0 for a path with no score. */
  function ScoreOf(s: seq<real>, path: string): real
    requires |s| == |PathNames|
  {
    if path in PathNames then s[PathIndex(path)] else 0.0
  }

  /** The evolution fields of the pet. */
  datatype Evolution = Evolution(path: string, stage: int, prog: real)

  /** The progress one tick adds: the rate times the best score, floored at 0.1. */
  function ProgressStep(cfg: EngineConfig, env: EnvFeatures): real {
    var s := ExposureScores(cfg, env);
    ProgressionRate(cfg) * Max(s[FirstMaxIndex(s)], 0.1)
  }

  /** One evolution tick: switch to the best path only when it beats the
      current path's score by more than 0.2, add progress, and move up a stage
      (resetting progress) once the goal is reached below stage 4. */
  function EvolutionAfter(cfg: EngineConfig, env: EnvFeatures, e: Evolution): Evolution {
    var s := ExposureScores(cfg, env);
    var best := FirstMaxIndex(s);
    var path := if s[best] > ScoreOf(s, e.path) + 0.2 then PathNames[best] else e.path;
    var prog := e.prog + ProgressStep(cfg, env);
    if prog >= StageGoal(cfg) && e.stage < 4 then Evolution(path, e.stage + 1, 0.0)
    else Evolution(path, e.stage, prog)
  }

  /** Hysteresis: the path changes only to the first best-scoring path, and
      only when its score exceeds the current path's by more than 0.2; then it
      always does. */
  lemma EvolutionHysteresis(cfg: EngineConfig, env: EnvFeatures, e: Evolution)
    ensures var s := ExposureScores(cfg, env); var best := FirstMaxIndex(s);
      var r := EvolutionAfter(cfg, env, e);
      (s[best] > ScoreOf(s, e.path) + 0.2 ==> r.path == PathNames[best]) &&
      (s[best] <= ScoreOf(s, e.path) + 0.2 ==> r.path == e.path) &&
      (r.path != e.path ==> s[best] > ScoreOf(s, e.path) + 0.2 && r.path == PathNames[best])
  {
  }

  /** Every tick has a half-point social or lone score, so the best score is
      at least 0.5 and the 0.1 floor on progress never applies. */
  lemma BestScoreAtLeastHalf(cfg: EngineConfig, env: EnvFeatures)
    ensures var s := ExposureScores(cfg, env);
      s[FirstMaxIndex(s)] >= 0.5 && Max(s[FirstMaxIndex(s)], 0.1) == s[FirstMaxIndex(s)]
    ensures ProgressionRate(cfg) > 0.0 ==> ProgressStep(cfg, env) >= ProgressionRate(cfg) * 0.5
  {
    var s := ExposureScores(cfg, env);
    var j := FirstMaxIndex(s);
    assert s[4] <= s[j] && s[5] <= s[j];
  }

  /** The stage never falls, rises by at most one and never past 4; progress
      resets to 0 exactly when the stage rises and otherwise grows by the
      tick's step. */
  lemma EvolutionStageStep(cfg: EngineConfig, env: EnvFeatures, e: Evolution)
    ensures var r := EvolutionAfter(cfg, env, e);
      e.stage <= r.stage <= e.stage + 1 &&
      (e.stage <= 4 ==> r.stage <= 4) &&
      (r.stage == e.stage + 1 <==> e.prog + ProgressStep(cfg, env) >= StageGoal(cfg) && e.stage < 4) &&
      (r.stage == e.stage + 1 ==> r.prog == 0.0) &&
      (r.stage == e.stage ==> r.prog == e.prog + ProgressStep(cfg, env))
  {
  }

  /** The evolution fields after a run of ticks. */
  function EvolveAll(cfg: EngineConfig, envs: seq<EnvFeatures>, e: Evolution): Evolution
  {
    if envs == [] then e else EvolveAll(cfg, envs[1..], EvolutionAfter(cfg, envs[0], e))
  }

  /** Over any run of ticks from a stage in [1, 4], the stage stays in [1, 4],
      never falls, and rises by at most one per tick. */
  lemma {:induction false} EvolveAllStageBounds(cfg: EngineConfig, envs: seq<EnvFeatures>, e: Evolution)
    requires 1 <= e.stage <= 4
    ensures var r := EvolveAll(cfg, envs, e);
      e.stage <= r.stage <= 4 && r.stage <= e.stage + |envs|
  {
    if envs != [] {
      var next := EvolutionAfter(cfg, envs[0], e);
      EvolutionStageStep(cfg, envs[0], e);
      EvolveAllStageBounds(cfg, envs[1..], next);
    }
  }

  /** The evolution tick on the pet. */
  method UpdateEvolution(cfg: EngineConfig, env: EnvFeatures, b: Beast)
    modifies b
    ensures Evolution(b.evolutionPath, b.evolutionStage, b.evolutionProg) ==
      EvolutionAfter(cfg, env, Evolution(old(b.evolutionPath), old(b.evolutionStage), old(b.evolutionProg)))
    ensures b.needs == old(b.needs) && b.traits == old(b.traits) && b.mood == old(b.mood)
    ensures b.energy == old(b.energy) && b.lastUpdated == old(b.lastUpdated)
  {
    var scores := ExposureScores(cfg, env);
    var current := if b.evolutionPath in PathNames then scores[PathIndex(b.evolutionPath)] else 0.0;
    var best := FirstMaxIndex(scores);
    if scores[best] > current + 0.2 {
      b.evolutionPath := PathNames[best];
    }
    var rate := ProgressionRate(cfg);
    var step := rate * Max(scores[best], 0.1);
    assert step == ProgressStep(cfg, env);
    b.evolutionProg := b.evolutionProg + step;
    var goal := StageGoal(cfg);
    if b.evolutionProg >= goal && b.evolutionStage < 4 {
      b.evolutionStage := b.evolutionStage + 1;
      b.evolutionProg := 0.0;
    }
  }

  // ---------------------------------------------------------------- tasks

  /** The seven task actions, in the order tasks are proposed. */
  datatype TaskAction = Feed | QuietTime | MeetPeer | Clean | NewLocation | PlaySession | BrightSpot

  /** The action's name in a task dictionary. */
  function ActionName(a: TaskAction): string {
    match a
    case Feed => "feed"
    case QuietTime => "quiet_time"
    case MeetPeer => "meet_peer"
    case Clean => "clean"
    case NewLocation => "new_location"
    case PlaySession => "play_session"
    case BrightSpot => "bright_spot"
  }

  /** A suggested daily task; `kind` is the task's type. */
  datatype Task = Task(kind: string, action: TaskAction, description: string, reward: map<string, int>)

  /** A need below this value yields a care task. */
  const LowNeedTaskThreshold: real := 40.0

  /** The task that answers a low need. */
  function NeedTask(n: Need): Task {
    match n
    case Hunger => Task("care", Feed, "Feed your ByteBeast", map["hunger" := 20])
    case Rest => Task("environment", QuietTime, "Find a quiet spot for 15 minutes", map["rest" := 15])
    case Social => Task("social", MeetPeer, "Take your ByteBeast to meet others", map["social" := 25])
    case Hygiene => Task("care", Clean, "Keep your ByteBeast in comfortable conditions", map["hygiene" := 20])
  }

  const ExploreTask: Task :=
    Task("exploration", NewLocation, "Take your ByteBeast somewhere new", map["explorer_xp" := 10])
  const PlayTask: Task :=
    Task("activity", PlaySession, "Have an active play session (shake/move around)", map["playful_xp" := 10])
  const BrightSpotTask: Task :=
    Task("environment", BrightSpot, "Find a bright spot for 10 minutes", map["energy" := 10])

  /** The position of a task in the order tasks are proposed. */
  function TaskRank(t: Task): nat {
    match t.action
    case Feed => 0
    case QuietTime => 1
    case MeetPeer => 2
    case Clean => 3
    case NewLocation => 4
    case PlaySession => 5
    case BrightSpot => 6
  }

  /** The care tasks for the low needs among NeedOrder[k..], in dictionary order. */
  function NeedTasksFrom(k: nat, needs: map<Need, real>): (r: seq<Task>)
    requires needs.Keys == AllNeeds
    requires k <= |NeedOrder|
    decreases |NeedOrder| - k
  {
    if k == |NeedOrder| then []
    else
      (if needs[NeedOrder[k]] < LowNeedTaskThreshold then [NeedTask(NeedOrder[k])] else [])
        + NeedTasksFrom(k + 1, needs)
  }

  /** A care task's rank is its need's position in dictionary order. */
  lemma NeedTaskRank(i: nat)
    requires i < |NeedOrder|
    ensures TaskRank(NeedTask(NeedOrder[i])) == i
  {
  }

  /** Putting a task of rank k in front of tasks ranked strictly above k, in
      increasing order, keeps the ranks increasing and at least k. */
  lemma PrependRanked(t: Task, rest: seq<Task>, k: nat, bound: nat)
    requires TaskRank(t) == k < bound
    requires forall i :: 0 <= i < |rest| ==> k < TaskRank(rest[i]) < bound
    requires forall i, j :: 0 <= i < j < |rest| ==> TaskRank(rest[i]) < TaskRank(rest[j])
    ensures var r := [t] + rest;
      (forall i :: 0 <= i < |r| ==> k <= TaskRank(r[i]) < bound) &&
      (forall i, j :: 0 <= i < j < |r| ==> TaskRank(r[i]) < TaskRank(r[j]))
  {
    var r := [t] + rest;
    forall i, j | 0 <= i < j < |r|
      ensures TaskRank(r[i]) < TaskRank(r[j])
    {
      assert r[j] == rest[j - 1];
      if 0 < i {
        assert r[i] == rest[i - 1];
      }
    }
  }

  /** The care tasks from position k on are ranked from k up, strictly
      increasing, so no need is listed twice. */
  lemma {:induction false} NeedTasksRanks(k: nat, needs: map<Need, real>)
    requires needs.Keys == AllNeeds
    requires k <= |NeedOrder|
    ensures var r := NeedTasksFrom(k, needs);
      |r| <= |NeedOrder| - k &&
      (forall i :: 0 <= i < |r| ==> k <= TaskRank(r[i]) < |NeedOrder|) &&
      (forall i, j :: 0 <= i < j < |r| ==> TaskRank(r[i]) < TaskRank(r[j]))
    decreases |NeedOrder| - k
  {
    if k < |NeedOrder| {
      NeedTasksRanks(k + 1, needs);
      var rest := NeedTasksFrom(k + 1, needs);
      if needs[NeedOrder[k]] < LowNeedTaskThreshold {
        var t := NeedTask(NeedOrder[k]);
        NeedTaskRank(k);
        PrependRanked(t, rest, k, |NeedOrder|);
        assert NeedTasksFrom(k, needs) == [t] + rest;
      } else {
        assert NeedTasksFrom(k, needs) == rest;
      }
    }
  }

  /** The care tasks from position k on list exactly the low needs there. */
  lemma {:induction false} NeedTasksMembers(k: nat, needs: map<Need, real>, i: nat)
    requires needs.Keys == AllNeeds
    requires k <= i < |NeedOrder|
    ensures NeedTask(NeedOrder[i]) in NeedTasksFrom(k, needs) <==> needs[NeedOrder[i]] < LowNeedTaskThreshold
    decreases |NeedOrder| - k
  {
    var rest := NeedTasksFrom(k + 1, needs);
    var r := NeedTasksFrom(k, needs);
    NeedTaskRank(i);
    NeedTasksRanks(k + 1, needs);
    if i == k {
      assert NeedTask(NeedOrder[k]) !in rest;
      if needs[NeedOrder[k]] < LowNeedTaskThreshold {
        assert r[0] == NeedTask(NeedOrder[k]);
      } else {
        assert r == rest;
      }
    } else {
      NeedTasksMembers(k + 1, needs, i);
      NeedTaskRank(k);
      if needs[NeedOrder[k]] < LowNeedTaskThreshold {
        assert r == [NeedTask(NeedOrder[k])] + rest;
        assert NeedTask(NeedOrder[k]) != NeedTask(NeedOrder[i]);
      } else {
        assert r == rest;
      }
    }
  }

  /** Every task the pet could suggest, in order: care tasks for the low
      needs, then exploring for an explorer, playing for a playful pet, and a
      bright spot in the dark. */
  function TaskCandidates(needs: map<Need, real>, traits: map<Trait, real>, env: EnvFeatures): seq<Task>
    requires needs.Keys == AllNeeds && traits.Keys == AllTraits
  {
    NeedTasksFrom(0, needs) + ExtraTasks(traits, env)
  }

  /** The daily tasks: the first three candidates. */
  function GenerateTasks(needs: map<Need, real>, traits: map<Trait, real>, env: EnvFeatures): (r: seq<Task>)
    requires needs.Keys == AllNeeds && traits.Keys == AllTraits
    ensures |r| <= 3
    ensures r <= TaskCandidates(needs, traits, env)
    ensures |TaskCandidates(needs, traits, env)| <= 3 ==> r == TaskCandidates(needs, traits, env)
    ensures |TaskCandidates(needs, traits, env)| > 3 ==> r == TaskCandidates(needs, traits, env)[..3]
  {
    var c := TaskCandidates(needs, traits, env);
    if |c| > 3 then c[..3] else c
  }

  /** The tasks that follow the care tasks: explorer, playful, bright spot. */
  function ExtraTasks(traits: map<Trait, real>, env: EnvFeatures): (r: seq<Task>)
    requires traits.Keys == AllTraits
    ensures forall i :: 0 <= i < |r| ==> TaskRank(r[i]) >= |NeedOrder|
    ensures forall i, j :: 0 <= i < j < |r| ==> TaskRank(r[i]) < TaskRank(r[j])
  {
    (if traits[Explorer] > 0.7 then [ExploreTask] else [])
      + (if traits[Playful] > 0.7 then [PlayTask] else [])
      + (if env.lux < 100.0 then [BrightSpotTask] else [])
  }

  /** Exploring is proposed exactly for an explorer above 0.7, playing exactly
      for a playful pet above 0.7, and a bright spot exactly below 100 lux. */
  lemma ExtraTasksMembers(traits: map<Trait, real>, env: EnvFeatures)
    requires traits.Keys == AllTraits
    ensures ExploreTask in ExtraTasks(traits, env) <==> traits[Explorer] > 0.7
    ensures PlayTask in ExtraTasks(traits, env) <==> traits[Playful] > 0.7
    ensures BrightSpotTask in ExtraTasks(traits, env) <==> env.lux < 100.0
  {
    var explore := if traits[Explorer] > 0.7 then [ExploreTask] else [];
    var play := if traits[Playful] > 0.7 then [PlayTask] else [];
    var bright := if env.lux < 100.0 then [BrightSpotTask] else [];
    assert ExtraTasks(traits, env) == explore + play + bright;
    assert ExploreTask !in play + bright;
    assert PlayTask !in explore && PlayTask !in bright;
    assert BrightSpotTask !in explore + play;
  }

  /** The candidates come in proposal order, each rank at most once. */
  lemma CandidatesRanked(needs: map<Need, real>, traits: map<Trait, real>, env: EnvFeatures)
    requires needs.Keys == AllNeeds && traits.Keys == AllTraits
    ensures var c := TaskCandidates(needs, traits, env);
      forall i, j :: 0 <= i < j < |c| ==> TaskRank(c[i]) < TaskRank(c[j])
  {
    NeedTasksRanks(0, needs);
    var care := NeedTasksFrom(0, needs);
    var extra := ExtraTasks(traits, env);
    var c := TaskCandidates(needs, traits, env);
    assert c == care + extra;
    forall i, j | 0 <= i < j < |c|
      ensures TaskRank(c[i]) < TaskRank(c[j])
    {
      if j < |care| {
        assert c[i] == care[i] && c[j] == care[j];
      } else if i < |care| {
        assert c[i] == care[i] && c[j] == extra[j - |care|];
      } else {
        assert c[i] == extra[i - |care|] && c[j] == extra[j - |care|];
      }
    }
  }

  /** The tasks come in proposal order, none twice. */
  lemma GenerateTasksRanked(needs: map<Need, real>, traits: map<Trait, real>, env: EnvFeatures)
    requires needs.Keys == AllNeeds && traits.Keys == AllTraits
    ensures var r := GenerateTasks(needs, traits, env);
      forall i, j :: 0 <= i < j < |r| ==> TaskRank(r[i]) < TaskRank(r[j])
  {
    CandidatesRanked(needs, traits, env);
    var c := TaskCandidates(needs, traits, env);
    var r := GenerateTasks(needs, traits, env);
    assert forall i :: 0 <= i < |r| ==> r[i] == c[i];
  }

  /** A care task is suggested only for a need below the threshold. */
  lemma CareTaskMeansLowNeed(needs: map<Need, real>, traits: map<Trait, real>, env: EnvFeatures, n: Need)
    requires needs.Keys == AllNeeds && traits.Keys == AllTraits
    requires NeedTask(n) in GenerateTasks(needs, traits, env)
    ensures needs[n] < LowNeedTaskThreshold
  {
    var care := NeedTasksFrom(0, needs);
    var c := TaskCandidates(needs, traits, env);
    var r := GenerateTasks(needs, traits, env);
    OrdersComplete();
    var p :| 0 <= p < |NeedOrder| && NeedOrder[p] == n;
    NeedTaskRank(p);
    var q :| 0 <= q < |r| && r[q] == NeedTask(n);
    assert c[q] == NeedTask(n);
    assert NeedTask(n) in care;
    NeedTasksMembers(0, needs, p);
  }

  /** A low hunger makes feeding the first task. */
  lemma LowHungerFeedsFirst(needs: map<Need, real>, traits: map<Trait, real>, env: EnvFeatures)
    requires needs.Keys == AllNeeds && traits.Keys == AllTraits
    requires needs[Hunger] < LowNeedTaskThreshold
    ensures var r := GenerateTasks(needs, traits, env);
      |r| >= 1 && r[0] == NeedTask(Hunger) && ActionName(r[0].action) == "feed"
  {
    var care := NeedTasksFrom(0, needs);
    assert care[0] == NeedTask(Hunger);
    assert TaskCandidates(needs, traits, env)[0] == NeedTask(Hunger);
  }

  /** When no more than three needs are low, every low need gets its care task. */
  lemma LowNeedsAllListed(needs: map<Need, real>, traits: map<Trait, real>, env: EnvFeatures, n: Need)
    requires needs.Keys == AllNeeds && traits.Keys == AllTraits
    requires |NeedTasksFrom(0, needs)| <= 3
    requires needs[n] < LowNeedTaskThreshold
    ensures NeedTask(n) in GenerateTasks(needs, traits, env)
  {
    OrdersComplete();
    var p :| 0 <= p < |NeedOrder| && NeedOrder[p] == n;
    NeedTasksMembers(0, needs, p);
    var care := NeedTasksFrom(0, needs);
    var q :| 0 <= q < |care| && care[q] == NeedTask(n);
    assert TaskCandidates(needs, traits, env)[q] == NeedTask(n);
    assert GenerateTasks(needs, traits, env)[q] == NeedTask(n);
  }

  // ---------------------------------------------------------------- default pet

  /** A new pet: calm, well fed and rested, on the sun path at stage 1. */
  method CreateDefaultBeast(now: real) returns (b: Beast)
    ensures b.mood == "calm"
    ensures b.needs == map[Hunger := 75.0, Rest := 60.0, Need.Social := 50.0, Hygiene := 80.0]
    ensures b.traits == map[Playful := 0.5, Needy := 0.3, Rebellious := 0.2, Trait.Social := 0.4, Explorer := 0.6]
    ensures b.evolutionPath == "sun" && b.evolutionStage == 1 && b.evolutionProg == 0.0
    ensures b.energy == 100.0 && b.lastUpdated == now
    ensures b.Valid() && b.InRange()
  {
    var needs := map[Hunger := 75.0, Rest := 60.0, Need.Social := 50.0, Hygiene := 80.0];
    var traits := map[Playful := 0.5, Needy := 0.3, Rebellious := 0.2, Trait.Social := 0.4, Explorer := 0.6];
    assert ValuesIn(needs, 0.0, 100.0) && needs.Keys == AllNeeds;
    assert ValuesIn(traits, 0.0, 1.0) && traits.Keys == AllTraits;
    ClampValuesIdempotent(needs, 0.0, 100.0);
    ClampValuesIdempotent(traits, 0.0, 1.0);
    b := new Beast("calm", needs, traits, "sun", 1, 0.0, 100.0, now);
  }
}
