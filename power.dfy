/** Battery arithmetic and power policy: the Li-ion charge curve, the display
    policy ladder, runtime estimates, saving suggestions, power events and the
    one-shot shutdown flag. */
module Power {
  import opened Models

  /** A duration in hours; `Infinite` stands for the source's `float('inf')`. */
  datatype Hours = Finite(h: real) | Infinite

  /** The piecewise-linear Li-ion curve from battery voltage to charge percent. */
  function BatteryPercent(voltage: real): (r: real)
    ensures 0.0 <= r <= 100.0
    ensures voltage >= 4.1 ==> r == 100.0
    ensures 3.9 <= voltage < 4.1 ==> 75.0 <= r < 100.0
    ensures 3.7 <= voltage < 3.9 ==> 25.0 <= r < 75.0
    ensures 3.4 <= voltage < 3.7 ==> 5.0 <= r < 25.01
    ensures 3.0 <= voltage < 3.4 ==> 0.0 <= r < 5.0
    ensures voltage < 3.0 ==> r == 0.0
  {
    if voltage >= 4.1 then 100.0
    else if voltage >= 3.9 then 75.0 + (voltage - 3.9) * 125.0
    else if voltage >= 3.7 then 25.0 + (voltage - 3.7) * 250.0
    else if voltage >= 3.4 then 5.0 + (voltage - 3.4) * 66.7
    else if voltage >= 3.0 then (voltage - 3.0) * 12.5
    else 0.0
  }

  /** The curve is not monotone: the 66.7 slope overshoots 25 just below 3.7 V,
      where the next segment restarts at exactly 25. */
  lemma BatteryPercentDipsAt37()
    ensures BatteryPercent(3.6999) > BatteryPercent(3.7)
  {
  }

  /** Thresholds read from the display section of the configuration. */
  datatype DisplayConfig = DisplayConfig(
    batteryShutdownPct: real, batteryStaticPct: real, batteryDimPct: real,
    fpsIdle: int, fpsActive: int)

  /** Thresholds read from the power section of the configuration. */
  datatype PowerConfig = PowerConfig(lowVoltage: real, criticalVoltage: real)

  datatype PowerPolicy = PowerPolicy(fps: int, dim: bool, staticMode: bool, shutdown: bool, brightness: real)

  /** The first-match policy ladder: shutdown, static, dim, normal. */
  function GetPowerPolicy(dc: DisplayConfig, ps: PowerState): (p: PowerPolicy)
    ensures p.shutdown <==> ps.batteryPercent <= dc.batteryShutdownPct || ps.criticalBattery
    ensures p.shutdown ==> p.dim && p.staticMode && p.fps == 1 && p.brightness == 0.1
    ensures !p.shutdown ==> (p.staticMode <==> ps.batteryPercent <= dc.batteryStaticPct)
    ensures p.staticMode ==> p.dim && p.fps == 1
    ensures p.staticMode && !p.shutdown ==> p.brightness == 0.2
    ensures !p.staticMode ==> (p.dim <==> ps.batteryPercent <= dc.batteryDimPct || ps.lowBattery)
    ensures p.dim && !p.staticMode ==> p.fps == dc.fpsIdle && p.brightness == 0.5
    ensures !p.dim ==> !p.staticMode && !p.shutdown && p.brightness == 1.0 && p.fps == dc.fpsActive
  {
    if ps.batteryPercent <= dc.batteryShutdownPct || ps.criticalBattery then
      PowerPolicy(1, true, true, true, 0.1)
    else if ps.batteryPercent <= dc.batteryStaticPct then
      PowerPolicy(1, true, true, false, 0.2)
    else if ps.batteryPercent <= dc.batteryDimPct || ps.lowBattery then
      PowerPolicy(dc.fpsIdle, true, false, false, 0.5)
    else
      PowerPolicy(dc.fpsActive, false, false, false, 1.0)
  }

  /** The assumed battery capacity in mAh. */
  const CapacityMah: real := 2000.0

  /** Hours left at the present draw: unbounded while charging or with no load,
      otherwise the remaining capacity divided by the current, never negative. */
  function EstimateRemainingTime(ps: PowerState): (r: Hours)
    ensures r.Infinite? <==> ps.charging || ps.currentMa <= 0.0
    ensures r.Finite? ==> r.h >= 0.0
    ensures r.Finite? && ps.batteryPercent >= 0.0 ==> r.h * ps.currentMa == CapacityMah * (ps.batteryPercent / 100.0)
    ensures r.Finite? && ps.batteryPercent <= 0.0 ==> r.h == 0.0
  {
    if ps.charging || ps.currentMa <= 0.0 then Infinite
    else
      var remaining := CapacityMah * (ps.batteryPercent / 100.0);
      if ps.currentMa > 0.0 then Finite(Max(0.0, remaining / ps.currentMa))
      else Finite(0.0)
  }

  const LowBatteryActions: set<string> :=
    {"reduce_brightness", "lower_fps", "disable_wifi_scan", "reduce_sensor_rate"}
  const CriticalBatteryActions: set<string> :=
    {"minimal_display", "disable_social", "emergency_mode"}

  /** Power-saving suggestions: none at 30% or more, four below 30%, and three
      more below 15%; every suggestion is switched on. */
  function OptimizePowerConsumption(ps: PowerState): (r: map<string, bool>)
    ensures ps.batteryPercent >= 30.0 ==> r == map[]
    ensures 15.0 <= ps.batteryPercent < 30.0 ==> r.Keys == LowBatteryActions
    ensures ps.batteryPercent < 15.0 ==> r.Keys == LowBatteryActions + CriticalBatteryActions
    ensures forall k :: k in r ==> r[k]
  {
    var low := if ps.batteryPercent < 30.0 then map k | k in LowBatteryActions :: true else map[];
    if ps.batteryPercent < 15.0 then low + map k | k in CriticalBatteryActions :: true else low
  }

  /** Below 15% the suggestions strictly extend those below 30%, by exactly three. */
  lemma CriticalSuggestionsExtendLow(ps: PowerState)
    requires ps.batteryPercent < 15.0
    ensures OptimizePowerConsumption(ps).Keys > LowBatteryActions
    ensures |OptimizePowerConsumption(ps).Keys - LowBatteryActions| == 3
  {
    assert LowBatteryActions !! CriticalBatteryActions;
    assert OptimizePowerConsumption(ps).Keys - LowBatteryActions == CriticalBatteryActions;
  }

  datatype ChargingStatus = ChargingStatus(
    charging: bool, batteryPercent: real, voltage: real, currentMa: real, powerW: real,
    estimatedTimeRemaining: Hours, timeToFull: Option<Hours>)

  /** The status report: the reading's fields, the runtime estimate and, only
      while charging, the time to a full charge at the charge current. */
  function GetChargingStatus(ps: PowerState): (r: ChargingStatus)
    ensures r.charging == ps.charging && r.batteryPercent == ps.batteryPercent
    ensures r.voltage == ps.voltage && r.currentMa == ps.currentMa && r.powerW == ps.powerW
    ensures r.estimatedTimeRemaining == EstimateRemainingTime(ps)
    ensures ps.charging ==> r.estimatedTimeRemaining == Infinite
    ensures r.timeToFull.Some? <==> ps.charging
    ensures ps.charging && ps.currentMa >= -10.0 ==> r.timeToFull == Some(Infinite)
    ensures ps.charging && ps.currentMa < -10.0 ==>
      r.timeToFull.value.Finite? &&
      r.timeToFull.value.h * -ps.currentMa == CapacityMah * (1.0 - ps.batteryPercent / 100.0)
  {
    var toFull :=
      if !ps.charging then None
      else if ps.currentMa < -10.0 then
        var remaining := CapacityMah * (1.0 - ps.batteryPercent / 100.0);
        var rate := if ps.currentMa < 0.0 then -ps.currentMa else ps.currentMa;
        if rate > 0.0 then Some(Finite(remaining / rate)) else Some(Infinite)
      else Some(Infinite);
    ChargingStatus(ps.charging, ps.batteryPercent, ps.voltage, ps.currentMa, ps.powerW,
                   EstimateRemainingTime(ps), toFull)
  }

  datatype PowerEvent =
    | BatteryLevelChange(oldPercent: real, newPercent: real, change: real)
    | ChargingStatusChange(charging: bool, voltage: real)
    | LowBatteryWarning(percent: real, voltage: real)
    | CriticalBatteryWarning(percent: real, voltage: real)

  /** The position of each event kind in the report. */
  function EventRank(e: PowerEvent): nat {
    match e
    case BatteryLevelChange(_, _, _) => 0
    case ChargingStatusChange(_, _) => 1
    case LowBatteryWarning(_, _) => 2
    case CriticalBatteryWarning(_, _) => 3
  }

  function Abs(x: real): real { if x < 0.0 then -x else x }

  /** The event of each kind that a pair of readings could produce. */
  function Candidates(last: PowerState, cur: PowerState): seq<PowerEvent> {
    [BatteryLevelChange(last.batteryPercent, cur.batteryPercent, cur.batteryPercent - last.batteryPercent),
     ChargingStatusChange(cur.charging, cur.voltage),
     LowBatteryWarning(cur.batteryPercent, cur.voltage),
     CriticalBatteryWarning(cur.batteryPercent, cur.voltage)]
  }

  /** When an event of each kind is due: a level change beyond 5 points, a
      flip of the charging flag, and a warning flag going from false to true. */
  predicate WarrantedBy(last: PowerState, cur: PowerState, e: PowerEvent) {
    match e
    case BatteryLevelChange(_, _, _) => Abs(cur.batteryPercent - last.batteryPercent) > 5.0
    case ChargingStatusChange(_, _) => cur.charging != last.charging
    case LowBatteryWarning(_, _) => !last.lowBattery && cur.lowBattery
    case CriticalBatteryWarning(_, _) => !last.criticalBattery && cur.criticalBattery
  }

  /** What the battery sensor gave on one read. */
  datatype SensorReading = NoSensor | ReadFailed | Reading(voltage: real, currentMa: real, powerW: real)

  class PowerManager {
    var shutdownInitiated: bool
    var lastPowerState: Option<PowerState>

    constructor ()
      ensures !shutdownInitiated && lastPowerState == None
    {
      shutdownInitiated := false;
      lastPowerState := None;
    }

    /** `read_power_state` for an attached sensor: a successful read is
        converted and remembered; a failed read falls back to the last
        remembered state or to an all-zero critical one; no sensor gives a
        fixed half-charged state. Nothing but a successful read is remembered. */
    method ReadPowerState(pc: PowerConfig, reading: SensorReading, now: real) returns (ps: PowerState)
      modifies this
      ensures shutdownInitiated == old(shutdownInitiated)
      ensures reading.Reading? ==>
        ps == PowerState(BatteryPercent(reading.voltage), reading.voltage, reading.currentMa, reading.powerW,
                         reading.currentMa < -10.0, reading.voltage < pc.lowVoltage,
                         reading.voltage < pc.criticalVoltage, now) &&
        lastPowerState == Some(ps)
      ensures !reading.Reading? ==> lastPowerState == old(lastPowerState)
      ensures reading.NoSensor? ==> ps == PowerState(50.0, 3.7, 100.0, 0.37, false, false, false, now)
      ensures reading.ReadFailed? && old(lastPowerState).Some? ==> ps == old(lastPowerState).value
      ensures reading.ReadFailed? && old(lastPowerState).None? ==>
        ps == PowerState(0.0, 0.0, 0.0, 0.0, false, true, true, now)
    {
      match reading
      case NoSensor =>
        ps := PowerState(50.0, 3.7, 100.0, 0.37, false, false, false, now);
      case ReadFailed =>
        ps := lastPowerState.GetOr(PowerState(0.0, 0.0, 0.0, 0.0, false, true, true, now));
      case Reading(v, i, p) =>
        ps := PowerState(BatteryPercent(v), v, i, p, i < -10.0, v < pc.lowVoltage, v < pc.criticalVoltage, now);
        lastPowerState := Some(ps);
    }

    /** Edge-triggered events against the remembered state: none without one;
        a level change beyond 5 points, a charging flip, and low and critical
        warnings only on a false-to-true transition; in that order. */
    function MonitorPowerEvents(ps: PowerState): (events: seq<PowerEvent>)
      reads this
      ensures lastPowerState.None? ==> events == []
      ensures |events| <= 4
      ensures forall i, j :: 0 <= i < j < |events| ==> EventRank(events[i]) < EventRank(events[j])
      ensures forall e :: e in events ==>
        lastPowerState.Some? && e in Candidates(lastPowerState.value, ps) && WarrantedBy(lastPowerState.value, ps, e)
      ensures lastPowerState.Some? ==> forall e :: e in Candidates(lastPowerState.value, ps) && WarrantedBy(lastPowerState.value, ps, e) ==> e in events
    {
      match lastPowerState
      case None => []
      case Some(last) =>
        var change := ps.batteryPercent - last.batteryPercent;
        (if Abs(change) > 5.0 then [BatteryLevelChange(last.batteryPercent, ps.batteryPercent, change)] else []) +
        (if ps.charging != last.charging then [ChargingStatusChange(ps.charging, ps.voltage)] else []) +
        (if !last.lowBattery && ps.lowBattery then [LowBatteryWarning(ps.batteryPercent, ps.voltage)] else []) +
        (if !last.criticalBattery && ps.criticalBattery then [CriticalBatteryWarning(ps.batteryPercent, ps.voltage)] else [])
    }

    /** A state compared with itself raises no event, so checking the state a
        successful read has just remembered reports nothing. */
    lemma NoEventsAgainstOwnReading(ps: PowerState)
      requires lastPowerState == Some(ps)
      ensures MonitorPowerEvents(ps) == []
    {
    }

    /** The shutdown latch: the first call sets the flag and reports that it
        acted; every later call returns at once without acting. */
    method InitiateShutdown() returns (acted: bool)
      modifies this
      ensures shutdownInitiated
      ensures acted == !old(shutdownInitiated)
      ensures lastPowerState == old(lastPowerState)
    {
      if shutdownInitiated {
        return false;
      }
      shutdownInitiated := true;
      acted := true;
    }
  }
}
