/** Data model of the pet: sensor snapshots, the pet record with its range
    normalisation, emoji frames, power readings and the fixed lookup tables. */
module Models {

  datatype Option<+T> = None | Some(value: T) {
    function GetOr(default: T): T {
      match this
      case Some(v) => v
      case None => default
    }
  }

  /** The four needs, in the insertion order of the pet's needs dictionary. */
  datatype Need = Hunger | Rest | Social | Hygiene

  /** The five personality traits, in the insertion order of the traits dictionary. */
  datatype Trait = Playful | Needy | Rebellious | Social | Explorer

  const NeedOrder: seq<Need> := [Hunger, Rest, Need.Social, Hygiene]
  const TraitOrder: seq<Trait> := [Playful, Needy, Rebellious, Trait.Social, Explorer]
  const AllNeeds: set<Need> := {Hunger, Rest, Need.Social, Hygiene}
  const AllTraits: set<Trait> := {Playful, Needy, Rebellious, Trait.Social, Explorer}

  /** The order sequences list every need and every trait. */
  lemma OrdersComplete()
    ensures forall n: Need :: n in NeedOrder
    ensures forall t: Trait :: t in TraitOrder
  {
    forall n: Need ensures n in NeedOrder {
      match n
      case Hunger => assert NeedOrder[0] == n;
      case Rest => assert NeedOrder[1] == n;
      case Social => assert NeedOrder[2] == n;
      case Hygiene => assert NeedOrder[3] == n;
    }
    forall t: Trait ensures t in TraitOrder {
      match t
      case Playful => assert TraitOrder[0] == t;
      case Needy => assert TraitOrder[1] == t;
      case Rebellious => assert TraitOrder[2] == t;
      case Social => assert TraitOrder[3] == t;
      case Explorer => assert TraitOrder[4] == t;
    }
  }

  /** The dictionary key under which a need is stored and named in caregiver actions. */
  function NeedName(n: Need): string {
    match n
    case Hunger => "hunger"
    case Rest => "rest"
    case Social => "social"
    case Hygiene => "hygiene"
  }

  function Min(a: real, b: real): real { if a <= b then a else b }
  function Max(a: real, b: real): real { if a >= b then a else b }

  /** `max(lo, min(hi, x))`, the clamp every constructor and update applies. */
  function Clamp(x: real, lo: real, hi: real): (r: real)
    requires lo <= hi
    ensures lo <= r <= hi
    ensures lo <= x <= hi ==> r == x
    ensures x < lo ==> r == lo
    ensures x > hi ==> r == hi
  {
    Max(lo, Min(hi, x))
  }

  /** `max(lo, min(hi, x))` on integers, as the evolution stage is clamped. */
  function ClampInt(x: int, lo: int, hi: int): (r: int)
    requires lo <= hi
    ensures lo <= r <= hi
    ensures lo <= x <= hi ==> r == x
    ensures x < lo ==> r == lo
    ensures x > hi ==> r == hi
  {
    if x < lo then lo else if x > hi then hi else x
  }

  /** Every value of a map clamped into [lo, hi]; the keys are kept. */
  function ClampValues<K>(m: map<K, real>, lo: real, hi: real): (r: map<K, real>)
    requires lo <= hi
    ensures r.Keys == m.Keys
    ensures forall k :: k in r ==> lo <= r[k] <= hi
    ensures forall k :: k in m ==> r[k] == Clamp(m[k], lo, hi)
  {
    map k | k in m :: Clamp(m[k], lo, hi)
  }

  /** The clamping loop the initialisers and the state engine run over a
      dictionary: each entry in turn is rewritten with its value clamped. The
      result does not depend on the order the entries are visited in. */
  method ClampEach<K>(m: map<K, real>, lo: real, hi: real) returns (r: map<K, real>)
    requires lo <= hi
    ensures r == ClampValues(m, lo, hi)
  {
    r := m;
    var todo := m.Keys;
    while todo != {}
      invariant todo <= m.Keys && r.Keys == m.Keys
      invariant forall k :: k in r ==> r[k] == if k in todo then m[k] else Clamp(m[k], lo, hi)
      decreases todo
    {
      var k :| k in todo;
      r := r[k := Clamp(r[k], lo, hi)];
      todo := todo - {k};
    }
  }

  predicate ValuesIn<K>(m: map<K, real>, lo: real, hi: real) {
    forall k :: k in m ==> lo <= m[k] <= hi
  }

  /** Clamping leaves values already in range alone, so normalising twice is normalising once. */
  lemma ClampValuesIdempotent<K>(m: map<K, real>, lo: real, hi: real)
    requires lo <= hi
    ensures ValuesIn(ClampValues(m, lo, hi), lo, hi)
    ensures ValuesIn(m, lo, hi) ==> ClampValues(m, lo, hi) == m
    ensures ClampValues(ClampValues(m, lo, hi), lo, hi) == ClampValues(m, lo, hi)
  {
    var once := ClampValues(m, lo, hi);
    if ValuesIn(m, lo, hi) {
      assert forall k :: k in m ==> once[k] == m[k];
    }
    var twice := ClampValues(once, lo, hi);
    assert forall k :: k in once ==> twice[k] == once[k];
  }

  /** One tick's environmental reading. */
  datatype EnvFeatures = EnvFeatures(
    lux: real, cctK: real, tempC: real, rh: real,
    pressureHpa: real, pressureTrend: real,
    motionRmsG: real, shakeEvents: int,
    headingDeg: real, roll: real, pitch: real, yaw: real,
    vbat: real, ibat: real, pwrW: real, charging: bool,
    ssidFingerprint: string, timestamp: real)

  /** The snapshot's initialiser: a zero (falsy) timestamp is replaced by the
      current time `now`; every other field is kept. */
  function StampEnvFeatures(e: EnvFeatures, now: real): (r: EnvFeatures)
    ensures e.timestamp != 0.0 ==> r == e
    ensures e.timestamp == 0.0 ==> r.timestamp == now
    ensures r.(timestamp := e.timestamp) == e
  {
    if e.timestamp == 0.0 then e.(timestamp := now) else e
  }

  /** Stamping is idempotent as long as the clock is not at zero. */
  lemma StampIdempotent(e: EnvFeatures, now: real)
    requires now != 0.0
    ensures StampEnvFeatures(StampEnvFeatures(e, now), now) == StampEnvFeatures(e, now)
    ensures StampEnvFeatures(e, now).timestamp != 0.0
  {
  }

  /** A battery reading as the power manager reports it. */
  datatype PowerState = PowerState(
    batteryPercent: real, voltage: real, currentMa: real, powerW: real,
    charging: bool, lowBattery: bool, criticalBattery: bool, timestamp: real)

  /** The pet. Its fields are rewritten in place by the state engine. */
  class Beast {
    var mood: string
    var needs: map<Need, real>
    var traits: map<Trait, real>
    var evolutionPath: string
    var evolutionStage: int
    var evolutionProg: real
    var energy: real
    var lastUpdated: real

    /** Every need and every trait key is present. */
    ghost predicate Valid()
      reads this
    {
      needs.Keys == AllNeeds && traits.Keys == AllTraits
    }

    /** The documented ranges: needs and energy in [0,100], traits in [0,1], stage in [1,4]. */
    ghost predicate InRange()
      reads this
    {
      ValuesIn(needs, 0.0, 100.0) && ValuesIn(traits, 0.0, 1.0) &&
      1 <= evolutionStage <= 4 && 0.0 <= energy <= 100.0
    }

    /** The record's initialiser: needs, traits, stage, progress and energy are
        clamped into range, the dictionaries entry by entry. */
    constructor (mood: string, needs: map<Need, real>, traits: map<Trait, real>,
                 evolutionPath: string, evolutionStage: int, evolutionProg: real,
                 energy: real, lastUpdated: real)
      ensures this.mood == mood && this.evolutionPath == evolutionPath
      ensures this.lastUpdated == lastUpdated
      ensures this.needs == ClampValues(needs, 0.0, 100.0)
      ensures this.traits == ClampValues(traits, 0.0, 1.0)
      ensures this.evolutionStage == ClampInt(evolutionStage, 1, 4)
      ensures this.evolutionProg == Clamp(evolutionProg, 0.0, 1.0)
      ensures this.energy == Clamp(energy, 0.0, 100.0)
      ensures InRange() && 0.0 <= this.evolutionProg <= 1.0
      ensures needs.Keys == AllNeeds && traits.Keys == AllTraits ==> Valid()
    {
      var clampedNeeds := ClampEach(needs, 0.0, 100.0);
      var clampedTraits := ClampEach(traits, 0.0, 1.0);
      this.mood := mood;
      this.evolutionPath := evolutionPath;
      this.lastUpdated := lastUpdated;
      this.needs := clampedNeeds;
      this.traits := clampedTraits;
      this.evolutionStage := ClampInt(evolutionStage, 1, 4);
      this.evolutionProg := Clamp(evolutionProg, 0.0, 1.0);
      this.energy := Clamp(energy, 0.0, 100.0);
    }
  }

  /** What a display frame holds once its initialiser has run. */
  class EmojiFrame {
    var emoji: string
    var badges: seq<string>
    var bars: map<string, real>
    var timestamp: real

    /** The frame's initialiser: at most the first three badges are kept, in
        order, and every bar value is clamped into [0,1] entry by entry. */
    constructor (emoji: string, badges: seq<string>, bars: map<string, real>, timestamp: real)
      ensures this.emoji == emoji && this.timestamp == timestamp
      ensures this.badges == TruncateBadges(badges)
      ensures this.bars == ClampValues(bars, 0.0, 1.0)
    {
      var clampedBars := ClampEach(bars, 0.0, 1.0);
      this.emoji := emoji;
      this.timestamp := timestamp;
      this.badges := if |badges| > 3 then badges[..3] else badges;
      this.bars := clampedBars;
    }
  }

  /** The badge list a frame keeps: the first three, in their original order. */
  function TruncateBadges(badges: seq<string>): (r: seq<string>)
    ensures |r| <= 3 && r <= badges
    ensures |badges| <= 3 ==> r == badges
    ensures |badges| > 3 ==> |r| == 3
  {
    if |badges| > 3 then badges[..3] else badges
  }

  /** A developmental track: its display name, four stage emojis and description. */
  datatype PathInfo = PathInfo(name: string, stages: seq<string>, description: string)

  /** The evolution paths in dictionary order. */
  const PathNames: seq<string> := ["sun", "shadow", "ember", "frost", "social", "lone"]

  const Dragon: string := "\U{1F409}"

  const EvolutionPaths: map<string, PathInfo> := map[
    "sun" := PathInfo("Solar Path", ["\U{1F423}", "\U{1F425}", "\U{1F985}", "\U{1F984}"],
                      "Bright, warm, and active environments"),
    "shadow" := PathInfo("Shadow Path", ["\U{1F987}", "\U{1F989}", "\U{1F43A}", Dragon],
                         "Dark, quiet, low-motion environments"),
    "ember" := PathInfo("Ember Path", ["\U{1F981}", "\U{1F525}", "\U{1F42F}", Dragon],
                        "Hot temperature environments"),
    "frost" := PathInfo("Frost Path", ["\U{1F427}", "\U{2744}\U{FE0F}", "\U{1F43B}\U{200D}\U{2744}\U{FE0F}", Dragon],
                        "Cold temperature environments"),
    "social" := PathInfo("Social Path", ["\U{1F412}", "\U{1F981}", "\U{1F984}", "\U{1F451}"],
                         "High peer interaction environments"),
    "lone" := PathInfo("Lone Wolf Path", ["\U{1F42D}", "\U{1F98A}", "\U{1F43A}", Dragon],
                       "Solitary exploration environments")
  ]

  /** The path table has exactly the six paths, each with exactly four stages,
      so `stages[stage - 1]` is in bounds for every stage in [1,4]. */
  lemma EvolutionPathsShape()
    ensures EvolutionPaths.Keys == set p | p in PathNames
    ensures forall p :: p in EvolutionPaths ==> |EvolutionPaths[p].stages| == 4
  {
  }

  /** The ten mood labels. */
  const MoodLabels: seq<string> :=
    ["happy", "calm", "sleepy", "anxious", "sick", "playful", "bored", "curious", "hot", "cold"]

  const MoodEmojis: map<string, string> := map[
    "happy" := "\U{1F603}", "calm" := "\U{1F60C}", "sleepy" := "\U{1F634}",
    "anxious" := "\U{1F630}", "sick" := "\U{1F912}", "playful" := "\U{1F929}",
    "bored" := "\U{1F610}", "curious" := "\U{1F9D0}", "hot" := "\U{1F975}",
    "cold" := "\U{1F976}"
  ]

  /** Every mood label has an emoji and nothing else has one. */
  lemma MoodEmojisShape()
    ensures MoodEmojis.Keys == set m | m in MoodLabels
  {
  }
}
