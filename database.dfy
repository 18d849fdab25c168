/** The scoring part of the evolution statistics: over the readings of a
    recent period, the share of readings that favour each evolution path. */
module Database {
  import opened Models

  /** The six running scores, one per evolution path. */
  datatype Tally = Tally(sun: real, shadow: real, ember: real, frost: real, social: real, lone: real)

  /** Bright, warm and active. */
  predicate SunReading(e: EnvFeatures) { e.lux > 1000.0 && e.tempC > 20.0 && e.motionRmsG > 0.1 }
  /** Dark and still. */
  predicate ShadowReading(e: EnvFeatures) { e.lux < 100.0 && e.motionRmsG < 0.05 }
  predicate EmberReading(e: EnvFeatures) { e.tempC > 30.0 }
  predicate FrostReading(e: EnvFeatures) { e.tempC < 10.0 }
  /** Motion stands in for company. */
  predicate SocialReading(e: EnvFeatures) { e.motionRmsG > 0.2 }

  /** One reading's contribution: 1 to each path whose condition it meets, and
      0.5 to social or to lone. */
  function Score(t: Tally, e: EnvFeatures): Tally {
    Tally(t.sun + (if SunReading(e) then 1.0 else 0.0),
          t.shadow + (if ShadowReading(e) then 1.0 else 0.0),
          t.ember + (if EmberReading(e) then 1.0 else 0.0),
          t.frost + (if FrostReading(e) then 1.0 else 0.0),
          t.social + (if SocialReading(e) then 0.5 else 0.0),
          t.lone + (if SocialReading(e) then 0.0 else 0.5))
  }

  /** The scores after the readings, in order. */
  function TallyOf(readings: seq<EnvFeatures>): Tally
  {
    if readings == [] then Tally(0.0, 0.0, 0.0, 0.0, 0.0, 0.0)
    else Score(TallyOf(readings[..|readings| - 1]), readings[|readings| - 1])
  }

  /** The number of readings meeting a condition. */
  function CountWhere(readings: seq<EnvFeatures>, p: EnvFeatures -> bool): nat
  {
    if readings == [] then 0
    else CountWhere(readings[..|readings| - 1], p) + (if p(readings[|readings| - 1]) then 1 else 0)
  }

  lemma {:induction false} CountWhereAtMostLength(readings: seq<EnvFeatures>, p: EnvFeatures -> bool)
    ensures CountWhere(readings, p) <= |readings|
  {
    if readings != [] {
      CountWhereAtMostLength(readings[..|readings| - 1], p);
    }
  }

  /** Each path's score counts the readings meeting its condition (social and
      lone at half a point each), and social and lone together always give
      half a point per reading. */
  lemma {:induction false} TallyCounts(readings: seq<EnvFeatures>)
    ensures TallyOf(readings).sun == CountWhere(readings, SunReading) as real
    ensures TallyOf(readings).shadow == CountWhere(readings, ShadowReading) as real
    ensures TallyOf(readings).ember == CountWhere(readings, EmberReading) as real
    ensures TallyOf(readings).frost == CountWhere(readings, FrostReading) as real
    ensures TallyOf(readings).social == 0.5 * CountWhere(readings, SocialReading) as real
    ensures TallyOf(readings).social + TallyOf(readings).lone == 0.5 * |readings| as real
  {
    if readings != [] {
      TallyCounts(readings[..|readings| - 1]);
    }
  }

  /** The normalised statistics: empty for no readings, otherwise each score
      divided by the number of readings. */
  function Stats(readings: seq<EnvFeatures>): map<string, real>
  {
    if readings == [] then map[] else Normalise(TallyOf(readings), |readings| as real)
  }

  /** Each score divided by the number of readings, keyed by path name. */
  function Normalise(t: Tally, n: real): map<string, real>
    requires n != 0.0
  {
    map["sun" := t.sun / n, "shadow" := t.shadow / n, "ember" := t.ember / n,
        "frost" := t.frost / n, "social" := t.social / n, "lone" := t.lone / n]
  }

  /** A count out of n readings, divided by n, is a fraction. */
  lemma FractionOfReadings(c: real, n: real)
    requires 0.0 <= c <= n && n > 0.0
    ensures 0.0 <= c / n <= 1.0
  {
    assert (c / n) * n == c;
  }

  /** With no readings the statistics are empty; otherwise all six paths are
      scored. */
  lemma StatsKeys(readings: seq<EnvFeatures>)
    ensures readings == [] <==> Stats(readings) == map[]
    ensures readings != [] ==> Stats(readings).Keys == set p | p in PathNames
  {
    if readings != [] {
      assert "sun" in Stats(readings);
    }
  }

  /** Scores that are each at most the number of readings normalise to
      fractions. */
  lemma NormaliseInUnit(t: Tally, n: real)
    requires n > 0.0
    requires 0.0 <= t.sun <= n && 0.0 <= t.shadow <= n && 0.0 <= t.ember <= n
    requires 0.0 <= t.frost <= n && 0.0 <= t.social <= n && 0.0 <= t.lone <= n
    ensures forall p :: p in Normalise(t, n) ==> 0.0 <= Normalise(t, n)[p] <= 1.0
  {
    FractionOfReadings(t.sun, n);
    FractionOfReadings(t.shadow, n);
    FractionOfReadings(t.ember, n);
    FractionOfReadings(t.frost, n);
    FractionOfReadings(t.social, n);
    FractionOfReadings(t.lone, n);
  }

  /** Every statistic lies in [0, 1]. */
  lemma StatsInUnit(readings: seq<EnvFeatures>)
    requires readings != []
    ensures forall p :: p in Stats(readings) ==> 0.0 <= Stats(readings)[p] <= 1.0
  {
    var n := |readings| as real;
    var t := TallyOf(readings);
    TallyCounts(readings);
    CountWhereAtMostLength(readings, SunReading);
    CountWhereAtMostLength(readings, ShadowReading);
    CountWhereAtMostLength(readings, EmberReading);
    CountWhereAtMostLength(readings, FrostReading);
    CountWhereAtMostLength(readings, SocialReading);
    assert 0.0 <= t.lone <= n;
    NormaliseInUnit(t, n);
  }

  /** Sun, shadow, ember and frost are the fractions of readings meeting each
      path's condition. */
  lemma StatsAreFractions(readings: seq<EnvFeatures>)
    requires readings != []
    ensures Stats(readings)["sun"] == CountWhere(readings, SunReading) as real / |readings| as real
    ensures Stats(readings)["shadow"] == CountWhere(readings, ShadowReading) as real / |readings| as real
    ensures Stats(readings)["ember"] == CountWhere(readings, EmberReading) as real / |readings| as real
    ensures Stats(readings)["frost"] == CountWhere(readings, FrostReading) as real / |readings| as real
  {
    TallyCounts(readings);
  }

  /** Social and lone split half a point per reading between them: each lies
      in [0, 0.5] and together they make exactly 0.5. */
  lemma SocialLoneSplit(readings: seq<EnvFeatures>)
    requires readings != []
    ensures Stats(readings)["social"] + Stats(readings)["lone"] == 0.5
    ensures 0.0 <= Stats(readings)["social"] <= 0.5 && 0.0 <= Stats(readings)["lone"] <= 0.5
  {
    var n := |readings| as real;
    var t := TallyOf(readings);
    TallyCounts(readings);
    CountWhereAtMostLength(readings, SocialReading);
    SplitHalf(t.social, t.lone, n);
  }

  /** Two non-negative shares of half of n, divided by n. */
  lemma SplitHalf(a: real, b: real, n: real)
    requires n > 0.0 && a >= 0.0 && b >= 0.0 && a + b == 0.5 * n
    ensures a / n + b / n == 0.5
    ensures 0.0 <= a / n <= 0.5 && 0.0 <= b / n <= 0.5
  {
    FractionOfReadings(a, n);
    FractionOfReadings(b, n);
    var x, y := a / n, b / n;
    assert x * n == a && y * n == b;
    assert (x + y) * n == x * n + y * n;
    assert x * n + y * n == a + b;
    assert (x + y - 0.5) * n == 0.0;
  }

  /** `get_evolution_stats` over the readings of the period: one pass adding
      up the six scores, then each divided by the number of readings. */
  method GetEvolutionStats(readings: seq<EnvFeatures>) returns (stats: map<string, real>)
    ensures stats == Stats(readings)
  {
    if readings == [] {
      return map[];
    }
    var sun, shadow, ember, frost, social, lone := 0.0, 0.0, 0.0, 0.0, 0.0, 0.0;
    var total := |readings|;
    for i := 0 to |readings|
      invariant TallyOf(readings[..i]) == Tally(sun, shadow, ember, frost, social, lone)
    {
      var e := readings[i];
      assert readings[..i + 1][..i] == readings[..i];
      if SunReading(e) { sun := sun + 1.0; }
      if ShadowReading(e) { shadow := shadow + 1.0; }
      if EmberReading(e) { ember := ember + 1.0; }
      if FrostReading(e) { frost := frost + 1.0; }
      if SocialReading(e) { social := social + 0.5; } else { lone := lone + 0.5; }
    }
    assert readings[..|readings|] == readings;
    var n := total as real;
    stats := map["sun" := sun / n, "shadow" := shadow / n, "ember" := ember / n,
                 "frost" := frost / n, "social" := social / n, "lone" := lone / n];
    assert stats == Normalise(Tally(sun, shadow, ember, frost, social, lone), n);
  }
}
