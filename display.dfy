/** Composition of the frame shown on the three screens: the mood emoji, an
    evolution badge and a badge for the most urgent need, plus one bar per
    need; and the mock display's frame counter. */
module Display {
  import opened Models

  /** The emoji shown when the mood has no entry of its own (the calm face). */
  const CalmEmoji: string := "\U{1F60C}"

  /** The emoji for the mood, falling back to the calm face. */
  function MainEmoji(mood: string): (r: string)
    ensures mood in MoodEmojis ==> r == MoodEmojis[mood]
    ensures mood !in MoodEmojis ==> r == CalmEmoji
    ensures r in MoodEmojis.Values
  {
    assert MoodEmojis["calm"] == CalmEmoji;
    if mood in MoodEmojis then MoodEmojis[mood] else CalmEmoji
  }

  /** Python's `seq[i]` for a four-element list: a negative index counts from the end. */
  function PyIndex4(i: int): (r: nat)
    requires -4 <= i < 4
    ensures r < 4
    ensures 0 <= i ==> r == i
    ensures i < 0 ==> r == 4 + i
  {
    if i < 0 then 4 + i else i
  }

  /** The stage emoji of a known path: `stages[stage - 1]`, where a stage
      below 1 indexes from the end as Python does. */
  function StageEmoji(path: string, stage: int): (r: string)
    requires path in EvolutionPaths
    requires -3 <= stage <= 4
    ensures 1 <= stage ==> r == EvolutionPaths[path].stages[stage - 1]
    ensures stage < 1 ==> r == EvolutionPaths[path].stages[stage + 3]
  {
    EvolutionPathsShape();
    EvolutionPaths[path].stages[PyIndex4(stage - 1)]
  }

  /** The position in `order` of the first smallest need: `min` over the
      dictionary's items keeps the earliest of equal values. */
  function LowestIndex(order: seq<Need>, needs: map<Need, real>): (j: nat)
    requires |order| >= 1
    requires forall i :: 0 <= i < |order| ==> order[i] in needs
    ensures j < |order|
    ensures forall i :: 0 <= i < |order| ==> needs[order[j]] <= needs[order[i]]
    ensures forall i :: 0 <= i < j ==> needs[order[i]] > needs[order[j]]
  {
    if |order| == 1 then 0
    else
      var j := LowestIndex(order[..|order| - 1], needs);
      if needs[order[|order| - 1]] < needs[order[j]] then |order| - 1 else j
  }

  /** The most urgent need: the first smallest one in dictionary order. */
  function LowestNeed(needs: map<Need, real>): (r: Need)
    requires needs.Keys == AllNeeds
    ensures r in needs
    ensures forall n :: n in needs ==> needs[r] <= needs[n]
    ensures forall i :: 0 <= i < |NeedOrder| && NeedOrder[i] == r ==>
              forall k :: 0 <= k < i ==> needs[NeedOrder[k]] > needs[r]
  {
    var j := LowestIndex(NeedOrder, needs);
    assert needs[NeedOrder[j]] <= needs[NeedOrder[0]] && needs[NeedOrder[j]] <= needs[NeedOrder[1]];
    assert needs[NeedOrder[j]] <= needs[NeedOrder[2]] && needs[NeedOrder[j]] <= needs[NeedOrder[3]];
    NeedOrder[j]
  }

  /** The warning badge for each need. */
  function NeedBadge(n: Need): string {
    match n
    case Hunger => "\U{1F374}"
    case Rest => "\U{1F634}"
    case Social => "\U{1F465}"
    case Hygiene => "\U{1F6BF}"
  }

  /** Distinct needs have distinct badges, so a badge names its need. */
  lemma NeedBadgeInjective(a: Need, b: Need)
    ensures NeedBadge(a) == NeedBadge(b) ==> a == b
  {
    if a != b {
      match a
      case Hunger => assert NeedBadge(a)[0] == '\U{1F374}';
      case Rest => assert NeedBadge(a)[0] == '\U{1F634}';
      case Social => assert NeedBadge(a)[0] == '\U{1F465}';
      case Hygiene => assert NeedBadge(a)[0] == '\U{1F6BF}';
    }
  }

  /** A need below this value gets a warning badge. */
  const LowNeedThreshold: real := 40.0

  /** The badges of a frame: the stage emoji when the path is known, then the
      badge of the most urgent need when it is below the threshold. */
  function FrameBadges(path: string, stage: int, needs: map<Need, real>): (r: seq<string>)
    requires path in EvolutionPaths ==> -3 <= stage <= 4
    requires needs.Keys == AllNeeds
    ensures |r| <= 2
    ensures |r| == (if path in EvolutionPaths then 1 else 0) +
                   (if needs[LowestNeed(needs)] < LowNeedThreshold then 1 else 0)
    ensures path in EvolutionPaths ==> r[0] == StageEmoji(path, stage)
    ensures needs[LowestNeed(needs)] < LowNeedThreshold ==> r[|r| - 1] == NeedBadge(LowestNeed(needs))
    ensures (forall n :: n in needs ==> needs[n] >= LowNeedThreshold) ==>
              r == (if path in EvolutionPaths then [StageEmoji(path, stage)] else [])
  {
    var evolution := if path in EvolutionPaths then [StageEmoji(path, stage)] else [];
    var low := LowestNeed(needs);
    evolution + (if needs[low] < LowNeedThreshold then [NeedBadge(low)] else [])
  }

  /** A frame never holds more badges than the frame keeps, so the three-badge
      truncation never drops one. */
  lemma FrameBadgesNeverTruncated(path: string, stage: int, needs: map<Need, real>)
    requires path in EvolutionPaths ==> -3 <= stage <= 4
    requires needs.Keys == AllNeeds
    ensures TruncateBadges(FrameBadges(path, stage, needs)) == FrameBadges(path, stage, needs)
  {
  }

  /** A need badge appears only for a need below the threshold that no other
      need undercuts. */
  lemma NeedBadgeMeansLowest(path: string, stage: int, needs: map<Need, real>, n: Need)
    requires path in EvolutionPaths ==> -3 <= stage <= 4
    requires needs.Keys == AllNeeds
    requires NeedBadge(n) in FrameBadges(path, stage, needs)
    ensures needs[n] < LowNeedThreshold
    ensures forall m :: m in needs ==> needs[n] <= needs[m]
  {
    var r := FrameBadges(path, stage, needs);
    var low := LowestNeed(needs);
    assert needs[low] < LowNeedThreshold && r[|r| - 1] == NeedBadge(n);
    NeedBadgeInjective(n, low);
  }

  /** One bar per need, keyed by the need's name, holding the need scaled to [0,1]. */
  function Bars(needs: map<Need, real>): (r: map<string, real>)
    ensures r.Keys == set n | n in needs :: NeedName(n)
    ensures forall n :: n in needs ==> NeedName(n) in r && r[NeedName(n)] == needs[n] / 100.0
    ensures ValuesIn(needs, 0.0, 100.0) ==> ValuesIn(r, 0.0, 1.0)
  {
    map n | n in needs :: NeedName(n) := needs[n] / 100.0
  }

  /** Build the frame for the pet at time `now`. */
  method CreateEmojiFrame(b: Beast, now: real) returns (f: EmojiFrame)
    requires b.Valid()
    requires b.evolutionPath in EvolutionPaths ==> -3 <= b.evolutionStage <= 4
    ensures f.emoji == MainEmoji(b.mood) && f.timestamp == now
    ensures f.badges == FrameBadges(b.evolutionPath, b.evolutionStage, b.needs)
    ensures f.bars == ClampValues(Bars(b.needs), 0.0, 1.0)
    ensures b.InRange() ==> f.bars == Bars(b.needs)
  {
    var badges: seq<string> := [];
    if b.evolutionPath in EvolutionPaths {
      badges := badges + [StageEmoji(b.evolutionPath, b.evolutionStage)];
    }
    var low := LowestNeed(b.needs);
    if b.needs[low] < LowNeedThreshold {
      badges := badges + [NeedBadge(low)];
    }
    assert badges == FrameBadges(b.evolutionPath, b.evolutionStage, b.needs);
    var bars := Bars(b.needs);
    if b.InRange() {
      ClampValuesIdempotent(bars, 0.0, 1.0);
    }
    f := new EmojiFrame(MainEmoji(b.mood), badges, bars, now);
  }

  /** What the mock display reports for one frame: the low-battery warning
      alone, or the main emoji with the first two badges on the side screens. */
  datatype Shown = LowBatteryWarning | Layout(main: string, left: Option<string>, right: Option<string>)

  class MockDisplayManager {
    var frameCount: int

    constructor ()
      ensures frameCount == 0
    {
      frameCount := 0;
    }

    /** Count the frame (also when only the battery warning is shown) and
        report what would be displayed. */
    method RenderFrame(frame: EmojiFrame, ps: PowerState) returns (shown: Shown)
      modifies this
      ensures frameCount == old(frameCount) + 1
      ensures ps.criticalBattery <==> shown == LowBatteryWarning
      ensures !ps.criticalBattery ==>
        shown.main == frame.emoji &&
        (shown.left.Some? <==> |frame.badges| > 0) &&
        (shown.right.Some? <==> |frame.badges| > 1) &&
        (|frame.badges| > 0 ==> shown.left.value == frame.badges[0]) &&
        (|frame.badges| > 1 ==> shown.right.value == frame.badges[1])
    {
      frameCount := frameCount + 1;
      if ps.criticalBattery {
        return LowBatteryWarning;
      }
      var left := if |frame.badges| > 0 then Some(frame.badges[0]) else None;
      var right := if |frame.badges| > 1 then Some(frame.badges[1]) else None;
      shown := Layout(frame.emoji, left, right);
    }
  }
}
