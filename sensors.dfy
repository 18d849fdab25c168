/** The sensor manager's bounded histories: the pressure buffer behind the
    pressure trend and the motion buffer behind the shake count. */
module Sensors {
  import opened Models

  /** One hour of pressure samples at 1 Hz. */
  const PressureHistoryLimit: nat := 3600
  /** The trend looks at the last five minutes. */
  const TrendWindow: nat := 300
  /** One minute of motion samples at 1 Hz. */
  const MotionHistoryLimit: nat := 60
  /** The motion value the IMU read records in place of a real measurement. */
  const PlaceholderMotionRms: real := 0.1

  /** `append(x)` then, when the list has grown past `limit`, `pop(0)`. */
  function Push(h: seq<real>, x: real, limit: nat): (r: seq<real>)
    requires limit >= 1
    ensures |r| >= 1 && r[|r| - 1] == x
    ensures |h| <= limit ==> |r| <= limit
    ensures |h| < limit ==> r == h + [x]
    ensures |h| >= limit && |h| >= 1 ==> r == h[1..] + [x]
  {
    var a := h + [x];
    if |a| > limit then a[1..] else a
  }

  /** `h[-n:]`: the last n entries, or all of them when there are fewer. */
  function Window(h: seq<real>, n: nat): (r: seq<real>)
    ensures |r| == if |h| > n then n else |h|
    ensures h == h[..|h| - |r|] + r
  {
    if |h| > n then h[|h| - n..] else h
  }

  /** The rise from the first to the last of at least two samples, divided
      by their count over 60 (their span in minutes at one sample a second). */
  function Slope(recent: seq<real>): real
    requires |recent| >= 2
  {
    (recent[|recent| - 1] - recent[0]) / (|recent| as real / 60.0)
  }

  /** The pressure trend over the window of the last TrendWindow samples: the
      window's Slope, or zero with fewer than two samples. */
  function Trend(h: seq<real>): real
  {
    if |h| < 2 then 0.0
    else
      var recent := Window(h, TrendWindow);
      if |recent| < 2 then 0.0
      else Slope(recent)
  }

  /** Samples older than the window do not affect the trend. */
  lemma TrendIgnoresOlderSamples(older: seq<real>, recent: seq<real>)
    requires |recent| >= TrendWindow
    ensures Trend(older + recent) == Trend(recent)
  {
    var h := older + recent;
    assert Window(h, TrendWindow) == Window(recent, TrendWindow) by {
      assert h[|h| - TrendWindow..] == recent[|recent| - TrendWindow..];
    }
  }

  /** A steady pressure has no trend. */
  lemma TrendOfSteadyPressure(h: seq<real>, p: real)
    requires forall i :: 0 <= i < |h| ==> h[i] == p
    ensures Trend(h) == 0.0
  {
    if |h| >= 2 {
      var recent := Window(h, TrendWindow);
      assert recent[0] == h[|h| - |recent|];
      assert recent[|recent| - 1] == h[|h| - 1];
    }
  }

  /** The number of samples strictly above the threshold. */
  function CountAbove(h: seq<real>, threshold: real): nat
  {
    if h == [] then 0
    else CountAbove(h[..|h| - 1], threshold) + (if h[|h| - 1] > threshold then 1 else 0)
  }

  /** The count is the size of the set of positions holding a sample above the
      threshold, so it lies between 0 and the length of the history. */
  lemma {:induction false} CountAboveIsCardinality(h: seq<real>, threshold: real)
    ensures CountAbove(h, threshold) == |set i | 0 <= i < |h| && h[i] > threshold|
    ensures CountAbove(h, threshold) <= |h|
  {
    var all := set i | 0 <= i < |h| && h[i] > threshold;
    if h != [] {
      var n := |h| - 1;
      var front := h[..n];
      CountAboveIsCardinality(front, threshold);
      var prior := set i | 0 <= i < n && front[i] > threshold;
      var last: set<int> := if h[n] > threshold then {n} else {};
      assert all == prior + last;
      assert n !in prior;
      assert |all| == |prior| + |last|;
    }
  }

  /** The shake count computed by one pass over the history. */
  method CountShakes(h: seq<real>, threshold: real) returns (n: nat)
    ensures n == CountAbove(h, threshold)
  {
    n := 0;
    for i := 0 to |h|
      invariant n == CountAbove(h[..i], threshold)
    {
      assert h[..i + 1][..i] == h[..i];
      if h[i] > threshold {
        n := n + 1;
      }
    }
    assert h[..|h|] == h;
  }

  /** What one IMU read reports. */
  datatype ImuData = ImuData(roll: real, pitch: real, yaw: real, headingDeg: real,
                             motionRmsG: real, shakeEvents: nat)

  class SensorManager {
    var motionHistory: seq<real>
    var pressureHistory: seq<real>

    /** Both histories stay within their limits. */
    ghost predicate Valid()
      reads this
    {
      |motionHistory| <= MotionHistoryLimit && |pressureHistory| <= PressureHistoryLimit
    }

    constructor ()
      ensures Valid() && motionHistory == [] && pressureHistory == []
    {
      motionHistory := [];
      pressureHistory := [];
    }

    /** Record a pressure sample, dropping the oldest past one hour, and report
        the trend of the updated history. */
    method CalculatePressureTrend(pressure: real) returns (trend: real)
      requires Valid()
      modifies this
      ensures Valid()
      ensures pressureHistory == Push(old(pressureHistory), pressure, PressureHistoryLimit)
      ensures pressureHistory[|pressureHistory| - 1] == pressure
      ensures trend == Trend(pressureHistory)
      ensures |pressureHistory| < 2 ==> trend == 0.0
      ensures motionHistory == old(motionHistory)
    {
      pressureHistory := pressureHistory + [pressure];
      if |pressureHistory| > PressureHistoryLimit {
        pressureHistory := pressureHistory[1..];
      }
      if |pressureHistory| < 2 {
        return 0.0;
      }
      var recent := if |pressureHistory| > TrendWindow then pressureHistory[|pressureHistory| - TrendWindow..] else pressureHistory;
      if |recent| < 2 {
        return 0.0;
      }
      assert recent == Window(pressureHistory, TrendWindow);
      trend := Slope(recent);
    }

    /** Record a motion sample, dropping the oldest past one minute, and count
        the samples in the history above the shake threshold. */
    method RecordMotion(sample: real, shakeThreshold: real) returns (shakeEvents: nat)
      requires Valid()
      modifies this
      ensures Valid()
      ensures motionHistory == Push(old(motionHistory), sample, MotionHistoryLimit)
      ensures shakeEvents == CountAbove(motionHistory, shakeThreshold)
      ensures shakeEvents <= |motionHistory| <= MotionHistoryLimit
      ensures pressureHistory == old(pressureHistory)
    {
      motionHistory := motionHistory + [sample];
      if |motionHistory| > MotionHistoryLimit {
        motionHistory := motionHistory[1..];
      }
      shakeEvents := CountShakes(motionHistory, shakeThreshold);
      CountAboveIsCardinality(motionHistory, shakeThreshold);
    }

    /** The IMU read: without an IMU every field is zero and nothing is
        recorded; with one, the placeholder motion value is recorded and the
        shake count is taken over the motion history. */
    method ReadImuData(imuPresent: bool, shakeThreshold: real) returns (d: ImuData)
      requires Valid()
      modifies this
      ensures Valid()
      ensures !imuPresent ==> d == ImuData(0.0, 0.0, 0.0, 0.0, 0.0, 0) && motionHistory == old(motionHistory)
      ensures imuPresent ==>
        motionHistory == Push(old(motionHistory), PlaceholderMotionRms, MotionHistoryLimit) &&
        d == ImuData(0.0, 0.0, 0.0, 0.0, PlaceholderMotionRms, CountAbove(motionHistory, shakeThreshold))
      ensures pressureHistory == old(pressureHistory)
    {
      d := ImuData(0.0, 0.0, 0.0, 0.0, 0.0, 0);
      if imuPresent {
        var shakes := RecordMotion(PlaceholderMotionRms, shakeThreshold);
        d := d.(motionRmsG := PlaceholderMotionRms, shakeEvents := shakes);
      }
    }
  }
}
