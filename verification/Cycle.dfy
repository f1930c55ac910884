/**
 * Reference definitions of one simulation cycle (installation_sim.py,
 * `InstallationSim.simulate_*`, `calculate_user_engagement` and
 * `generate_complete_dataset`).
 *
 * Every `simulate_*` method walks the zones in dictionary order and, inside
 * a zone, its devices in index order. The functions below describe the
 * result of the first `n` steps of such a walk, given the state the
 * simulator had before it; the methods of `Simulator.InstallationSim` are
 * proved to compute exactly these values, and the lemmas here say what the
 * values are reading by reading and zone by zone.
 */
module Cycle {
  import opened Common
  import opened Zones
  import opened Records
  import opened Generators
  import opened Sequences

  /** Each zone keeps its ten most recent engagement scores. */
  const HistoryCapacity: nat := 10

  /**
   * Everything one call of `generate_complete_dataset` draws: the sine of
   * the diurnal phase, the shared temperature variation, the per-tree sway
   * sines and uniform draws, the per-sensor draws and the per-speaker noise,
   * each in the order the simulator consumes them.
   */
  datatype CycleDraws = CycleDraws(
    sinPhase: real,
    tempVariation: real,
    treeSway: seq<real>,
    treeDraws: seq<TreeDraw>,
    sensorDraws: seq<SensorDraw>,
    volumeNoise: seq<real>)

  predicate ValidWeatherDraw(sinPhase: real, tempVariation: real) {
    -1.0 <= sinPhase <= 1.0 && -0.5 <= tempVariation <= 0.5
  }

  /** Tree `i` of every zone sways with the same sine; each tree makes its own two draws. */
  predicate ValidTreeDraws(sway: seq<real>, draws: seq<TreeDraw>) {
    && |sway| == TreesPerZone
    && |draws| == |ZoneOrder| * TreesPerZone
    && (forall i :: 0 <= i < |sway| ==> -1.0 <= sway[i] <= 1.0)
    && (forall i :: 0 <= i < |draws| ==> ValidTreeDraw(draws[i]))
  }

  predicate ValidSensorDraws(draws: seq<SensorDraw>) {
    |draws| == |ZoneOrder| * SensorsPerZone && forall i :: 0 <= i < |draws| ==> ValidSensorDraw(draws[i])
  }

  predicate ValidNoise(noise: seq<real>) {
    |noise| == |ZoneOrder| && forall i :: 0 <= i < |noise| ==> -2.0 <= noise[i] <= 2.0
  }

  predicate ValidCycleDraws(d: CycleDraws) {
    && ValidWeatherDraw(d.sinPhase, d.tempVariation)
    && ValidTreeDraws(d.treeSway, d.treeDraws)
    && ValidSensorDraws(d.sensorDraws)
    && ValidNoise(d.volumeNoise)
  }

  /** `zone_visitor_activity.get(zone, 0)` */
  function VisitorsIn(activity: map<Zone, int>, z: Zone): (n: int)
    ensures z in activity ==> n == activity[z]
    ensures z !in activity ==> n == 0
  {
    Lookup(activity, z).GetOr(0)
  }

  // ---------------------------------------------------------------------------
  // Weather

  /**
   * The first `n` environmental readings of a cycle; each zone's reading is
   * computed from the temperature and humidity it had stored before the cycle.
   */
  function WeatherReadings(ts: int, temps: map<Zone, real>, hums: map<Zone, real>,
                           sinPhase: real, variation: real, n: nat): (rs: seq<EnvironmentalReading>)
    requires n <= |ZoneOrder|
    ensures |rs| == n
  {
    if n == 0 then []
    else
      var z := ZoneOrder[n - 1];
      WeatherReadings(ts, temps, hums, sinPhase, variation, n - 1)
      + [EnvironmentalOf(ts, z, Lookup(temps, z), Lookup(hums, z), sinPhase, variation)]
  }

  lemma {:induction false} WeatherReadingsAt(ts: int, temps: map<Zone, real>, hums: map<Zone, real>,
                                             sinPhase: real, variation: real, n: nat, j: nat)
    requires j < n <= |ZoneOrder|
    ensures WeatherReadings(ts, temps, hums, sinPhase, variation, n)[j]
            == EnvironmentalOf(ts, ZoneOrder[j], Lookup(temps, ZoneOrder[j]), Lookup(hums, ZoneOrder[j]),
                               sinPhase, variation)
  {
    if j < n - 1 {
      WeatherReadingsAt(ts, temps, hums, sinPhase, variation, n - 1, j);
    }
  }

  /** The temperature map after each reading of `rs` is stored under its zone, in zone order. */
  function TemperaturesStored(m: map<Zone, real>, rs: seq<EnvironmentalReading>): map<Zone, real>
    requires |rs| <= |ZoneOrder|
  {
    if rs == [] then m
    else TemperaturesStored(m, rs[..|rs| - 1])[ZoneOrder[|rs| - 1] := rs[|rs| - 1].temperatureC]
  }

  /** The humidity map after each reading of `rs` is stored under its zone, in zone order. */
  function HumiditiesStored(m: map<Zone, real>, rs: seq<EnvironmentalReading>): map<Zone, real>
    requires |rs| <= |ZoneOrder|
  {
    if rs == [] then m
    else HumiditiesStored(m, rs[..|rs| - 1])[ZoneOrder[|rs| - 1] := rs[|rs| - 1].humidityPercent]
  }

  /**
   * After the readings `rs` are stored, zone `ZoneOrder[j]` holds its own
   * reading's values if it was reached, and its old values otherwise.
   */
  lemma {:induction false} WeatherStoredAt(t: map<Zone, real>, h: map<Zone, real>,
                                           rs: seq<EnvironmentalReading>, j: nat)
    requires |rs| <= |ZoneOrder| && j < |ZoneOrder|
    ensures Lookup(TemperaturesStored(t, rs), ZoneOrder[j])
            == if j < |rs| then Some(rs[j].temperatureC) else Lookup(t, ZoneOrder[j])
    ensures Lookup(HumiditiesStored(h, rs), ZoneOrder[j])
            == if j < |rs| then Some(rs[j].humidityPercent) else Lookup(h, ZoneOrder[j])
  {
    if rs != [] {
      var init := rs[..|rs| - 1];
      WeatherStoredAt(t, h, init, j);
      if j < |init| {
        assert init[j] == rs[j];
      }
    }
  }

  /**
   * The temperature range is an invariant of the weather step: when every
   * stored temperature lies in [4.5, 24.5], so does every reading of the
   * cycle and every temperature stored after it; humidities always end up in
   * [20, 95].
   */
  lemma WeatherKeepsRanges(ts: int, temps: map<Zone, real>, hums: map<Zone, real>, sinPhase: real, variation: real)
    requires ValidWeatherDraw(sinPhase, variation)
    requires forall z :: z in temps ==> MinTemperature <= temps[z] <= MaxTemperature
    ensures var rs := WeatherReadings(ts, temps, hums, sinPhase, variation, |ZoneOrder|);
            forall z :: && MinTemperature <= Lookup(TemperaturesStored(temps, rs), z).GetOr(MinTemperature) <= MaxTemperature
                        && MinHumidity <= Lookup(HumiditiesStored(hums, rs), z).GetOr(MinHumidity) <= MaxHumidity
  {
    var rs := WeatherReadings(ts, temps, hums, sinPhase, variation, |ZoneOrder|);
    forall z
      ensures && MinTemperature <= Lookup(TemperaturesStored(temps, rs), z).GetOr(MinTemperature) <= MaxTemperature
              && MinHumidity <= Lookup(HumiditiesStored(hums, rs), z).GetOr(MinHumidity) <= MaxHumidity
    {
      var j := Index(z);
      WeatherStoredAt(temps, hums, rs, j);
      WeatherReadingsAt(ts, temps, hums, sinPhase, variation, |ZoneOrder|, j);
      TemperatureStaysInRange(ts, z, Lookup(temps, z), Lookup(hums, z), sinPhase, variation);
    }
  }

  // ---------------------------------------------------------------------------
  // Tree biometrics

  /** The first `n` strain readings of zone `z`; tree `i` uses `sway[i]` and `ds[i]`. */
  function ZoneTreeReadings(ts: int, z: Zone, sway: seq<real>, ds: seq<TreeDraw>, n: nat): (rs: seq<TreeReading>)
    requires n <= |sway| && n <= |ds|
    ensures |rs| == n
  {
    if n == 0 then []
    else ZoneTreeReadings(ts, z, sway, ds, n - 1) + [TreeReadingOf(ts, z, n - 1, sway[n - 1], ds[n - 1])]
  }

  /** The draws of the trees of the `zi`-th zone. */
  function ZoneTreeDraws(draws: seq<TreeDraw>, zi: nat): (ds: seq<TreeDraw>)
    requires zi < |ZoneOrder| && |draws| == |ZoneOrder| * TreesPerZone
    ensures |ds| == TreesPerZone
  {
    draws[zi * TreesPerZone..zi * TreesPerZone + TreesPerZone]
  }

  /** The strain readings of the first `nz` zones, zone after zone. */
  function TreeReadings(ts: int, sway: seq<real>, draws: seq<TreeDraw>, nz: nat): (rs: seq<TreeReading>)
    requires nz <= |ZoneOrder| && |sway| == TreesPerZone && |draws| == |ZoneOrder| * TreesPerZone
    ensures |rs| == nz * TreesPerZone
  {
    if nz == 0 then []
    else
      TreeReadings(ts, sway, draws, nz - 1)
      + ZoneTreeReadings(ts, ZoneOrder[nz - 1], sway, ZoneTreeDraws(draws, nz - 1), |sway|)
  }

  lemma {:induction false} ZoneTreeReadingsAt(ts: int, z: Zone, sway: seq<real>, ds: seq<TreeDraw>, n: nat, i: nat)
    requires i < n <= |sway| && n <= |ds|
    ensures ZoneTreeReadings(ts, z, sway, ds, n)[i] == TreeReadingOf(ts, z, i, sway[i], ds[i])
  {
    if i < n - 1 {
      ZoneTreeReadingsAt(ts, z, sway, ds, n - 1, i);
    }
  }

  /** Tree `i` of zone `zi` is reading `3 * zi + i` of the cycle, made with draw `3 * zi + i`. */
  lemma {:induction false} TreeReadingsAt(ts: int, sway: seq<real>, draws: seq<TreeDraw>, nz: nat, zi: nat, i: nat)
    requires nz <= |ZoneOrder| && |sway| == TreesPerZone && |draws| == |ZoneOrder| * TreesPerZone
    requires zi < nz && i < TreesPerZone
    ensures TreeReadings(ts, sway, draws, nz)[zi * TreesPerZone + i]
            == TreeReadingOf(ts, ZoneOrder[zi], i, sway[i], draws[zi * TreesPerZone + i])
  {
    if zi < nz - 1 {
      TreeReadingsAt(ts, sway, draws, nz - 1, zi, i);
    } else {
      ZoneTreeReadingsAt(ts, ZoneOrder[zi], sway, ZoneTreeDraws(draws, zi), |sway|, i);
    }
  }

  // ---------------------------------------------------------------------------
  // Visitor detection

  /** The first `n` LiDAR readings of zone `z` when each sensor detects with `probability`. */
  function ZoneSensorReadings(ts: int, z: Zone, probability: real, ds: seq<SensorDraw>, n: nat): (rs: seq<VisitorReading>)
    requires n <= |ds|
    ensures |rs| == n
  {
    if n == 0 then []
    else ZoneSensorReadings(ts, z, probability, ds, n - 1) + [VisitorReadingOf(ts, z, n - 1, probability, ds[n - 1])]
  }

  /** The draws of the sensors of the `zi`-th zone. */
  function ZoneSensorDraws(draws: seq<SensorDraw>, zi: nat): (ds: seq<SensorDraw>)
    requires zi < |ZoneOrder| && |draws| == |ZoneOrder| * SensorsPerZone
    ensures |ds| == SensorsPerZone
  {
    draws[zi * SensorsPerZone..zi * SensorsPerZone + SensorsPerZone]
  }

  /** All five readings of the `zi`-th zone at hour `hour`. */
  function ZoneDetections(ts: int, hour: int, flow: real, draws: seq<SensorDraw>, zi: nat): (rs: seq<VisitorReading>)
    requires zi < |ZoneOrder| && |draws| == |ZoneOrder| * SensorsPerZone
    ensures |rs| == SensorsPerZone
  {
    var z := ZoneOrder[zi];
    var ds := ZoneSensorDraws(draws, zi);
    ZoneSensorReadings(ts, z, DetectionProbability(z, hour, flow), ds, |ds|)
  }

  /** The LiDAR readings of the first `nz` zones, zone after zone. */
  function SensorReadings(ts: int, hour: int, flow: real, draws: seq<SensorDraw>, nz: nat): (rs: seq<VisitorReading>)
    requires nz <= |ZoneOrder| && |draws| == |ZoneOrder| * SensorsPerZone
    ensures |rs| == nz * SensorsPerZone
  {
    if nz == 0 then [] else SensorReadings(ts, hour, flow, draws, nz - 1) + ZoneDetections(ts, hour, flow, draws, nz - 1)
  }

  /** The visitors counted in the `zi`-th zone this cycle: the sum of its sensors' estimates. */
  function ZoneVisitors(ts: int, hour: int, flow: real, draws: seq<SensorDraw>, zi: nat): int
    requires zi < |ZoneOrder| && |draws| == |ZoneOrder| * SensorsPerZone
  {
    SumEstimates(ZoneDetections(ts, hour, flow, draws, zi))
  }

  /** The counts of the first `n` zones, in zone order. */
  function ZoneCounts(ts: int, hour: int, flow: real, draws: seq<SensorDraw>, n: nat): (cs: seq<int>)
    requires n <= |ZoneOrder| && |draws| == |ZoneOrder| * SensorsPerZone
    ensures |cs| == n
  {
    if n == 0 then [] else ZoneCounts(ts, hour, flow, draws, n - 1) + [ZoneVisitors(ts, hour, flow, draws, n - 1)]
  }

  lemma {:induction false} ZoneCountsAt(ts: int, hour: int, flow: real, draws: seq<SensorDraw>, n: nat, j: nat)
    requires j < n <= |ZoneOrder| && |draws| == |ZoneOrder| * SensorsPerZone
    ensures ZoneCounts(ts, hour, flow, draws, n)[j] == ZoneVisitors(ts, hour, flow, draws, j)
  {
    if j < n - 1 {
      ZoneCountsAt(ts, hour, flow, draws, n - 1, j);
    }
  }

  /** The activity map after the first `n` zones have been reset to 0. */
  function ActivityReset(a: map<Zone, int>, n: nat): map<Zone, int>
    requires n <= |ZoneOrder|
  {
    if n == 0 then a else ActivityReset(a, n - 1)[ZoneOrder[n - 1] := 0]
  }

  /** The activity map after the counts `cs` have been stored under their zones, in zone order. */
  function ActivityStored(a: map<Zone, int>, cs: seq<int>): map<Zone, int>
    requires |cs| <= |ZoneOrder|
  {
    if cs == [] then a else ActivityStored(a, cs[..|cs| - 1])[ZoneOrder[|cs| - 1] := cs[|cs| - 1]]
  }

  /** `zone_visitor_activity` after a detection cycle that counted `cs`: every zone mapped to its count. */
  function ActivityOf(cs: seq<int>): map<Zone, int>
    requires |cs| == |ZoneOrder|
  {
    ActivityStored(map[], cs)
  }

  /** Zone `ZoneOrder[j]` after the first `n` zones were reset: 0 if it was reached, untouched otherwise. */
  lemma {:induction false} ActivityResetAt(a: map<Zone, int>, n: nat, j: nat)
    requires n <= |ZoneOrder| && j < |ZoneOrder|
    ensures Lookup(ActivityReset(a, n), ZoneOrder[j]) == if j < n then Some(0) else Lookup(a, ZoneOrder[j])
  {
    if n > 0 {
      ActivityResetAt(a, n - 1, j);
    }
  }

  /** Zone `ZoneOrder[j]` after the counts `cs` were stored: its count if it was reached, untouched otherwise. */
  lemma {:induction false} ActivityStoredAt(a: map<Zone, int>, cs: seq<int>, j: nat)
    requires |cs| <= |ZoneOrder| && j < |ZoneOrder|
    ensures Lookup(ActivityStored(a, cs), ZoneOrder[j]) == if j < |cs| then Some(cs[j]) else Lookup(a, ZoneOrder[j])
  {
    if cs != [] {
      var init := cs[..|cs| - 1];
      ActivityStoredAt(a, init, j);
      if j < |init| {
        assert init[j] == cs[j];
      }
    }
  }

  /** Whatever the activity map held before, storing every zone's count gives `ActivityOf`. */
  lemma ActivityAfterDetection(a: map<Zone, int>, cs: seq<int>)
    requires |cs| == |ZoneOrder|
    ensures ActivityStored(a, cs) == ActivityOf(cs)
  {
    var left, right := ActivityStored(a, cs), ActivityOf(cs);
    forall z ensures z in left && z in right && left[z] == right[z] {
      ActivityStoredAt(a, cs, Index(z));
      ActivityStoredAt(map[], cs, Index(z));
    }
    assert left.Keys == right.Keys;
  }

  lemma {:induction false} ZoneSensorReadingsAt(ts: int, z: Zone, probability: real, ds: seq<SensorDraw>, n: nat, i: nat)
    requires i < n <= |ds|
    ensures ZoneSensorReadings(ts, z, probability, ds, n)[i] == VisitorReadingOf(ts, z, i, probability, ds[i])
  {
    if i < n - 1 {
      ZoneSensorReadingsAt(ts, z, probability, ds, n - 1, i);
    }
  }

  /** Readings `5 * zi` to `5 * zi + 4` of the cycle are exactly zone `zi`'s block. */
  lemma {:induction false} SensorBlock(ts: int, hour: int, flow: real, draws: seq<SensorDraw>, nz: nat, zi: nat)
    requires nz <= |ZoneOrder| && |draws| == |ZoneOrder| * SensorsPerZone && zi < nz
    ensures SensorReadings(ts, hour, flow, draws, nz)[zi * SensorsPerZone..zi * SensorsPerZone + SensorsPerZone]
            == ZoneDetections(ts, hour, flow, draws, zi)
  {
    var prev, block := SensorReadings(ts, hour, flow, draws, nz - 1), ZoneDetections(ts, hour, flow, draws, nz - 1);
    var lo, hi := zi * SensorsPerZone, zi * SensorsPerZone + SensorsPerZone;
    if zi < nz - 1 {
      SensorBlock(ts, hour, flow, draws, nz - 1, zi);
      SliceOfAppendLeft(prev, block, lo, hi);
    } else {
      SliceOfAppendRight(prev, block);
    }
  }

  /**
   * Sensor `i` of zone `zi` is reading `5 * zi + i` of the cycle, made with
   * draw `5 * zi + i` and that zone's detection probability.
   */
  lemma SensorReadingsAt(ts: int, hour: int, flow: real, draws: seq<SensorDraw>, nz: nat, zi: nat, i: nat)
    requires nz <= |ZoneOrder| && |draws| == |ZoneOrder| * SensorsPerZone
    requires zi < nz && i < SensorsPerZone
    ensures var z := ZoneOrder[zi];
            SensorReadings(ts, hour, flow, draws, nz)[zi * SensorsPerZone + i]
            == VisitorReadingOf(ts, z, i, DetectionProbability(z, hour, flow), draws[zi * SensorsPerZone + i])
  {
    var z := ZoneOrder[zi];
    SensorBlock(ts, hour, flow, draws, nz, zi);
    ZoneSensorReadingsAt(ts, z, DetectionProbability(z, hour, flow), ZoneSensorDraws(draws, zi), SensorsPerZone, i);
  }

  /** The estimates of a concatenation add up. */
  lemma {:induction false} SumEstimatesAppend(a: seq<VisitorReading>, b: seq<VisitorReading>)
    ensures SumEstimates(a + b) == SumEstimates(a) + SumEstimates(b)
  {
    if b != [] {
      var b' := b[..|b| - 1];
      SumEstimatesAppend(a, b');
      assert (a + b)[..|a + b| - 1] == a + b';
      assert (a + b)[|a + b| - 1] == b[|b| - 1];
    } else {
      assert a + b == a;
    }
  }

  /** The visitor total of the first `nz` zones grows by each zone's count. */
  lemma SensorTotalStep(ts: int, hour: int, flow: real, draws: seq<SensorDraw>, nz: nat)
    requires 0 < nz <= |ZoneOrder| && |draws| == |ZoneOrder| * SensorsPerZone
    ensures SumEstimates(SensorReadings(ts, hour, flow, draws, nz))
            == SumEstimates(SensorReadings(ts, hour, flow, draws, nz - 1)) + ZoneVisitors(ts, hour, flow, draws, nz - 1)
  {
    SumEstimatesAppend(SensorReadings(ts, hour, flow, draws, nz - 1), ZoneDetections(ts, hour, flow, draws, nz - 1));
  }

  /** Storing one more count sets the next zone in `ZoneOrder`. */
  lemma ActivityStoredSnoc(a: map<Zone, int>, cs: seq<int>, c: int)
    requires |cs| < |ZoneOrder|
    ensures ActivityStored(a, cs + [c]) == ActivityStored(a, cs)[ZoneOrder[|cs|] := c]
  {
    assert (cs + [c])[..|cs|] == cs;
  }

  /** What one more zone adds: its block of readings, its count, and that count to the total. */
  lemma DetectionStep(ts: int, hour: int, flow: real, draws: seq<SensorDraw>, zi: nat)
    requires zi < |ZoneOrder| && |draws| == |ZoneOrder| * SensorsPerZone
    ensures SensorReadings(ts, hour, flow, draws, zi + 1)
            == SensorReadings(ts, hour, flow, draws, zi) + ZoneDetections(ts, hour, flow, draws, zi)
    ensures SumEstimates(SensorReadings(ts, hour, flow, draws, zi + 1))
            == SumEstimates(SensorReadings(ts, hour, flow, draws, zi)) + ZoneVisitors(ts, hour, flow, draws, zi)
    ensures ZoneCounts(ts, hour, flow, draws, zi + 1)
            == ZoneCounts(ts, hour, flow, draws, zi) + [ZoneVisitors(ts, hour, flow, draws, zi)]
  {
    SensorTotalStep(ts, hour, flow, draws, zi + 1);
  }

  // ---------------------------------------------------------------------------
  // Engagement

  /** The first `n` engagement readings, each zone's computed from the whole list `vs`. */
  function EngagementReadings(ts: int, vs: seq<VisitorReading>, n: nat): (rs: seq<EngagementReading>)
    requires n <= |ZoneOrder|
    ensures |rs| == n
  {
    if n == 0 then [] else EngagementReadings(ts, vs, n - 1) + [EngagementOf(ts, ZoneOrder[n - 1], vs)]
  }

  lemma {:induction false} EngagementReadingsAt(ts: int, vs: seq<VisitorReading>, n: nat, j: nat)
    requires j < n <= |ZoneOrder|
    ensures EngagementReadings(ts, vs, n)[j] == EngagementOf(ts, ZoneOrder[j], vs)
  {
    if j < n - 1 {
      EngagementReadingsAt(ts, vs, n - 1, j);
    }
  }

  /** Zone `z`'s bounded history in `h` with `score` appended. */
  function Extended(h: map<Zone, seq<real>>, z: Zone, score: real): seq<real> {
    AppendBounded(Lookup(h, z).GetOr([]), score, HistoryCapacity)
  }

  /** Zone `z`'s complete log in `l` with `score` appended. */
  function Logged(l: map<Zone, seq<real>>, z: Zone, score: real): seq<real> {
    Lookup(l, z).GetOr([]) + [score]
  }

  /** The histories after each score of `rs` is appended to its zone's bounded list, in zone order. */
  function HistoriesAfter(h: map<Zone, seq<real>>, rs: seq<EngagementReading>): map<Zone, seq<real>>
    requires |rs| <= |ZoneOrder|
  {
    if rs == [] then h
    else
      var z := ZoneOrder[|rs| - 1];
      HistoriesAfter(h, rs[..|rs| - 1])[z := Extended(h, z, rs[|rs| - 1].engagementScore)]
  }

  /** The complete score logs after each score of `rs` is appended to its zone's log. */
  function LogsAfter(l: map<Zone, seq<real>>, rs: seq<EngagementReading>): map<Zone, seq<real>>
    requires |rs| <= |ZoneOrder|
  {
    if rs == [] then l
    else
      var z := ZoneOrder[|rs| - 1];
      LogsAfter(l, rs[..|rs| - 1])[z := Logged(l, z, rs[|rs| - 1].engagementScore)]
  }

  /** Zone `ZoneOrder[j]`'s history after the scores `rs`: extended if reached, untouched otherwise. */
  lemma {:induction false} HistoriesAt(h: map<Zone, seq<real>>, rs: seq<EngagementReading>, j: nat)
    requires |rs| <= |ZoneOrder| && j < |ZoneOrder|
    ensures var z := ZoneOrder[j];
            Lookup(HistoriesAfter(h, rs), z)
            == if j < |rs| then Some(Extended(h, z, rs[j].engagementScore)) else Lookup(h, z)
  {
    if rs != [] {
      var init := rs[..|rs| - 1];
      HistoriesAt(h, init, j);
      if j < |init| {
        assert init[j] == rs[j];
      }
    }
  }

  /** Zone `ZoneOrder[j]`'s log after the scores `rs`: extended if reached, untouched otherwise. */
  lemma {:induction false} LogsAt(l: map<Zone, seq<real>>, rs: seq<EngagementReading>, j: nat)
    requires |rs| <= |ZoneOrder| && j < |ZoneOrder|
    ensures var z := ZoneOrder[j];
            Lookup(LogsAfter(l, rs), z)
            == if j < |rs| then Some(Logged(l, z, rs[j].engagementScore)) else Lookup(l, z)
  {
    if rs != [] {
      var init := rs[..|rs| - 1];
      LogsAt(l, init, j);
      if j < |init| {
        assert init[j] == rs[j];
      }
    }
  }

  /** One more score extends the history of the next zone in `ZoneOrder`. */
  lemma HistoriesSnoc(h: map<Zone, seq<real>>, rs: seq<EngagementReading>, r: EngagementReading)
    requires |rs| < |ZoneOrder|
    ensures HistoriesAfter(h, rs + [r])
            == HistoriesAfter(h, rs)[ZoneOrder[|rs|] := Extended(h, ZoneOrder[|rs|], r.engagementScore)]
  {
    assert (rs + [r])[..|rs|] == rs;
  }

  /** One more score extends the log of the next zone in `ZoneOrder`. */
  lemma LogsSnoc(l: map<Zone, seq<real>>, rs: seq<EngagementReading>, r: EngagementReading)
    requires |rs| < |ZoneOrder|
    ensures LogsAfter(l, rs + [r]) == LogsAfter(l, rs)[ZoneOrder[|rs|] := Logged(l, ZoneOrder[|rs|], r.engagementScore)]
  {
    assert (rs + [r])[..|rs|] == rs;
  }

  /** Each zone's history is the newest ten entries of its log. */
  predicate HistoriesMatchLogs(h: map<Zone, seq<real>>, l: map<Zone, seq<real>>) {
    forall z :: z in l && z in h && h[z] == Window(l[z], HistoryCapacity)
  }

  /**
   * Appending a score to a zone's bounded history and to its log keeps the
   * history equal to the newest ten logged scores.
   */
  lemma HistoriesStayWindows(h: map<Zone, seq<real>>, l: map<Zone, seq<real>>, rs: seq<EngagementReading>)
    requires |rs| == |ZoneOrder| && HistoriesMatchLogs(h, l)
    ensures HistoriesMatchLogs(HistoriesAfter(h, rs), LogsAfter(l, rs))
  {
    forall z ensures z in LogsAfter(l, rs) && z in HistoriesAfter(h, rs)
                     && HistoriesAfter(h, rs)[z] == Window(LogsAfter(l, rs)[z], HistoryCapacity)
    {
      HistoriesAt(h, rs, Index(z));
      LogsAt(l, rs, Index(z));
      WindowStep(l[z], rs[Index(z)].engagementScore, HistoryCapacity);
    }
  }

  // ---------------------------------------------------------------------------
  // Audio

  /**
   * The first `n` speaker readings; each zone's comes from the volume it had
   * stored before the cycle, its visitor activity and the tree intensity.
   */
  function AudioReadings(ts: int, vols: map<Zone, real>, activity: map<Zone, int>, intensity: real,
                         noise: seq<real>, n: nat): (rs: seq<AudioReading>)
    requires n <= |ZoneOrder| && |noise| == |ZoneOrder|
    ensures |rs| == n
  {
    if n == 0 then []
    else
      var z := ZoneOrder[n - 1];
      AudioReadings(ts, vols, activity, intensity, noise, n - 1)
      + [AudioReadingOf(ts, z, Lookup(vols, z), VisitorsIn(activity, z), intensity, noise[n - 1])]
  }

  lemma {:induction false} AudioReadingsAt(ts: int, vols: map<Zone, real>, activity: map<Zone, int>, intensity: real,
                                           noise: seq<real>, n: nat, j: nat)
    requires j < n <= |ZoneOrder| && |noise| == |ZoneOrder|
    ensures AudioReadings(ts, vols, activity, intensity, noise, n)[j]
            == AudioReadingOf(ts, ZoneOrder[j], Lookup(vols, ZoneOrder[j]), VisitorsIn(activity, ZoneOrder[j]),
                              intensity, noise[j])
  {
    if j < n - 1 {
      AudioReadingsAt(ts, vols, activity, intensity, noise, n - 1, j);
    }
  }

  /** The volume map after each reading of `rs` is stored under its zone, in zone order. */
  function VolumesStored(m: map<Zone, real>, rs: seq<AudioReading>): map<Zone, real>
    requires |rs| <= |ZoneOrder|
  {
    if rs == [] then m else VolumesStored(m, rs[..|rs| - 1])[ZoneOrder[|rs| - 1] := rs[|rs| - 1].volumeDb]
  }

  lemma {:induction false} VolumesStoredAt(m: map<Zone, real>, rs: seq<AudioReading>, j: nat)
    requires |rs| <= |ZoneOrder| && j < |ZoneOrder|
    ensures Lookup(VolumesStored(m, rs), ZoneOrder[j]) == if j < |rs| then Some(rs[j].volumeDb) else Lookup(m, ZoneOrder[j])
  {
    if rs != [] {
      var init := rs[..|rs| - 1];
      VolumesStoredAt(m, init, j);
      if j < |init| {
        assert init[j] == rs[j];
      }
    }
  }

  /** Stored volumes are never negative: every reading is clamped at 0 before it is stored. */
  lemma VolumesStayNonNegative(ts: int, vols: map<Zone, real>, activity: map<Zone, int>, intensity: real, noise: seq<real>)
    requires |noise| == |ZoneOrder|
    ensures var m := VolumesStored(vols, AudioReadings(ts, vols, activity, intensity, noise, |ZoneOrder|));
            forall z :: z in m && m[z] >= 0.0
  {
    var rs := AudioReadings(ts, vols, activity, intensity, noise, |ZoneOrder|);
    forall z ensures z in VolumesStored(vols, rs) && VolumesStored(vols, rs)[z] >= 0.0 {
      VolumesStoredAt(vols, rs, Index(z));
      AudioReadingsAt(ts, vols, activity, intensity, noise, |ZoneOrder|, Index(z));
    }
  }

  // ---------------------------------------------------------------------------
  // Lighting

  /** The first `n` LED readings at hour `hour`. */
  function LightingReadings(ts: int, hour: int, intensity: real, activity: map<Zone, int>, n: nat): (rs: seq<LightingReading>)
    requires n <= |ZoneOrder|
    ensures |rs| == n
  {
    if n == 0 then []
    else
      var z := ZoneOrder[n - 1];
      LightingReadings(ts, hour, intensity, activity, n - 1) + [LightingOf(ts, z, hour, intensity, VisitorsIn(activity, z))]
  }

  lemma {:induction false} LightingReadingsAt(ts: int, hour: int, intensity: real, activity: map<Zone, int>, n: nat, j: nat)
    requires j < n <= |ZoneOrder|
    ensures LightingReadings(ts, hour, intensity, activity, n)[j]
            == LightingOf(ts, ZoneOrder[j], hour, intensity, VisitorsIn(activity, ZoneOrder[j]))
  {
    if j < n - 1 {
      LightingReadingsAt(ts, hour, intensity, activity, n - 1, j);
    }
  }

  // ---------------------------------------------------------------------------
  // The whole cycle

  /** The simulator state a cycle depends on. */
  datatype CycleInput = CycleInput(
    ts: int,
    temps: map<Zone, real>,
    hums: map<Zone, real>,
    vols: map<Zone, real>,
    flow: real,
    activeChannels: int)

  function CycleWeather(d: CycleDraws, s: CycleInput): seq<EnvironmentalReading>
    requires ValidCycleDraws(d)
  {
    WeatherReadings(s.ts, s.temps, s.hums, d.sinPhase, d.tempVariation, |ZoneOrder|)
  }

  function CycleTrees(d: CycleDraws, ts: int): seq<TreeReading>
    requires ValidCycleDraws(d)
  {
    TreeReadings(ts, d.treeSway, d.treeDraws, |ZoneOrder|)
  }

  function CycleVisitors(d: CycleDraws, ts: int, flow: real): seq<VisitorReading>
    requires ValidCycleDraws(d)
  {
    SensorReadings(ts, HourOf(ts), flow, d.sensorDraws, |ZoneOrder|)
  }

  function CycleActivity(d: CycleDraws, ts: int, flow: real): map<Zone, int>
    requires ValidCycleDraws(d)
  {
    ActivityOf(ZoneCounts(ts, HourOf(ts), flow, d.sensorDraws, |ZoneOrder|))
  }

  /** Engagement is computed from this cycle's visitor readings. */
  function CycleEngagement(d: CycleDraws, s: CycleInput): seq<EngagementReading>
    requires ValidCycleDraws(d)
  {
    EngagementReadings(s.ts, CycleVisitors(d, s.ts, s.flow), |ZoneOrder|)
  }

  /** Audio follows this cycle's zone activity and tree intensity. */
  function CycleAudio(d: CycleDraws, s: CycleInput): seq<AudioReading>
    requires ValidCycleDraws(d)
  {
    AudioReadings(s.ts, s.vols, CycleActivity(d, s.ts, s.flow), MeanMovement(CycleTrees(d, s.ts)), d.volumeNoise,
                  |ZoneOrder|)
  }

  function CycleLighting(d: CycleDraws, ts: int, flow: real): seq<LightingReading>
    requires ValidCycleDraws(d)
  {
    LightingReadings(ts, HourOf(ts), MeanMovement(CycleTrees(d, ts)), CycleActivity(d, ts, flow), |ZoneOrder|)
  }

  /** The stats after a cycle: this cycle's visitors, power and tree movement. */
  function CycleStats(d: CycleDraws, s: CycleInput): SimStats
    requires ValidCycleDraws(d)
  {
    SimStats(SumEstimates(CycleVisitors(d, s.ts, s.flow)), s.activeChannels,
             TotalPower(|ZoneOrder|, CycleLighting(d, s.ts, s.flow)), MeanMovement(CycleTrees(d, s.ts)))
  }

  /** The dataset `generate_complete_dataset` returns for the state `s` and the draws `d`. */
  function CycleDataset(d: CycleDraws, s: CycleInput): Dataset
    requires ValidCycleDraws(d)
  {
    var metadata := Metadata(Some(s.ts), Some(s.ts), None, Some(StatsBlockOf(CycleStats(d, s))), Some(CycleEngagement(d, s)));
    Dataset(Some(metadata), Some(CycleWeather(d, s)), Some(CycleTrees(d, s.ts)), Some(CycleVisitors(d, s.ts, s.flow)),
            Some(CycleAudio(d, s)), Some(CycleLighting(d, s.ts, s.flow)))
  }

  /**
   * The readings of the six generators, each computed from the state the one
   * before it left, and the stats they leave, make up the cycle's dataset:
   * connects the generator-by-generator description the simulator's methods
   * are proved against with the cycle functions above.
   */
  lemma CycleComposed(d: CycleDraws, s: CycleInput, env: seq<EnvironmentalReading>, trees: seq<TreeReading>,
                      visitors: seq<VisitorReading>, activity: map<Zone, int>, intensity: real,
                      engagement: seq<EngagementReading>, audio: seq<AudioReading>, lighting: seq<LightingReading>,
                      stats: SimStats, dataset: Dataset)
    requires ValidCycleDraws(d)
    requires env == WeatherReadings(s.ts, s.temps, s.hums, d.sinPhase, d.tempVariation, |ZoneOrder|)
    requires trees == TreeReadings(s.ts, d.treeSway, d.treeDraws, |ZoneOrder|)
    requires visitors == SensorReadings(s.ts, HourOf(s.ts), s.flow, d.sensorDraws, |ZoneOrder|)
    requires activity == ActivityOf(ZoneCounts(s.ts, HourOf(s.ts), s.flow, d.sensorDraws, |ZoneOrder|))
    requires intensity == MeanMovement(trees)
    requires engagement == EngagementReadings(s.ts, visitors, |ZoneOrder|)
    requires audio == AudioReadings(s.ts, s.vols, activity, intensity, d.volumeNoise, |ZoneOrder|)
    requires lighting == LightingReadings(s.ts, HourOf(s.ts), intensity, activity, |ZoneOrder|)
    requires stats == SimStats(SumEstimates(visitors), s.activeChannels, TotalPower(|audio|, lighting), intensity)
    requires dataset == Dataset(Some(Metadata(Some(s.ts), Some(s.ts), None, Some(StatsBlockOf(stats)), Some(engagement))),
                                Some(env), Some(trees), Some(visitors), Some(audio), Some(lighting))
    ensures env == CycleWeather(d, s) && trees == CycleTrees(d, s.ts) && activity == CycleActivity(d, s.ts, s.flow)
    ensures engagement == CycleEngagement(d, s) && audio == CycleAudio(d, s)
    ensures stats == CycleStats(d, s) && dataset == CycleDataset(d, s)
  {
  }

  /**
   * The shape of every dataset the simulator produces at time `ts`: all six
   * categories present with one reading per device, all stamped `ts`, the
   * device identifiers in zone order, and every value in its physical range.
   */
  predicate WellFormedCycle(d: Dataset, ts: int) {
    && d.metadata.Some? && d.environmental.Some? && d.treeBiometrics.Some?
    && d.visitorDetection.Some? && d.audioSystem.Some? && d.lightingSystem.Some?
    && d.metadata.value.timestamp == Some(ts)
    && d.metadata.value.simulationTime == Some(ts)
    && d.metadata.value.weatherPattern.None?
    && d.metadata.value.stats.Some?
    && d.metadata.value.userEngagement.Some?
    && WellFormedEnvironmental(d.environmental.value, ts)
    && WellFormedTrees(d.treeBiometrics.value, ts)
    && WellFormedVisitors(d.visitorDetection.value, ts)
    && WellFormedEngagement(d.metadata.value.userEngagement.value, ts)
    && WellFormedAudio(d.audioSystem.value, ts)
    && WellFormedLighting(d.lightingSystem.value, ts)
  }

  predicate WellFormedEnvironmental(rs: seq<EnvironmentalReading>, ts: int) {
    && |rs| == |ZoneOrder|
    && forall i :: 0 <= i < |rs| ==>
         && rs[i].timestamp == ts && rs[i].zone == Name(ZoneOrder[i])
         && MinHumidity <= rs[i].humidityPercent <= MaxHumidity
  }

  predicate WellFormedTrees(rs: seq<TreeReading>, ts: int) {
    && |rs| == |ZoneOrder| * TreesPerZone
    && forall k :: 0 <= k < |rs| ==>
         && rs[k].timestamp == ts && rs[k].treeId == TreeId(ZoneOrder[k / TreesPerZone], k % TreesPerZone)
         && Abs(rs[k].strainXmm) <= 0.15 && Abs(rs[k].strainYmm) <= 0.09
  }

  predicate WellFormedVisitors(rs: seq<VisitorReading>, ts: int) {
    && |rs| == |ZoneOrder| * SensorsPerZone
    && forall k :: 0 <= k < |rs| ==>
         && rs[k].timestamp == ts && rs[k].zone == Name(ZoneOrder[k / SensorsPerZone])
         && rs[k].sensorId == LidarId(ZoneOrder[k / SensorsPerZone], k % SensorsPerZone)
         && (rs[k].detectionActive <==> 1 <= rs[k].visitorCountEstimate <= 3)
         && (!rs[k].detectionActive ==> rs[k].visitorCountEstimate == 0)
         && (rs[k].detectionActive ==>
               75.0 <= rs[k].signalStrength <= 90.0 && 72.0 <= rs[k].confidenceLevel <= 95.0)
         && (!rs[k].detectionActive ==>
               15.0 <= rs[k].signalStrength <= 40.0 && 10.0 <= rs[k].confidenceLevel <= 30.0)
  }

  predicate WellFormedEngagement(rs: seq<EngagementReading>, ts: int) {
    && |rs| == |ZoneOrder|
    && forall i :: 0 <= i < |rs| ==>
         && rs[i].timestamp == ts && rs[i].zone == Name(ZoneOrder[i])
         && (|| (rs[i].averageEngagementDurationSec == 0.0 && rs[i].engagementScore == 0.0)
             || (&& 0.72 <= rs[i].engagementScore <= 0.95
                 && rs[i].averageEngagementDurationSec == 300.0 * rs[i].engagementScore))
  }

  predicate WellFormedAudio(rs: seq<AudioReading>, ts: int) {
    && |rs| == |ZoneOrder|
    && forall i :: 0 <= i < |rs| ==>
         && rs[i].timestamp == ts && rs[i].zone == Name(ZoneOrder[i]) && rs[i].speakerId == SpeakerId(ZoneOrder[i])
         && rs[i].volumeDb >= 0.0
  }

  predicate WellFormedLighting(rs: seq<LightingReading>, ts: int) {
    && |rs| == |ZoneOrder|
    && forall i :: 0 <= i < |rs| ==>
         && rs[i].timestamp == ts && rs[i].zone == Name(ZoneOrder[i]) && rs[i].ledId == LedId(ZoneOrder[i])
         && ChannelsInRange(rs[i])
  }

  lemma EnvironmentalWellFormed(ts: int, temps: map<Zone, real>, hums: map<Zone, real>, sinPhase: real, variation: real)
    ensures WellFormedEnvironmental(WeatherReadings(ts, temps, hums, sinPhase, variation, |ZoneOrder|), ts)
  {
    forall i | 0 <= i < |ZoneOrder| {
      WeatherReadingsAt(ts, temps, hums, sinPhase, variation, |ZoneOrder|, i);
    }
  }

  lemma TreesWellFormed(d: CycleDraws, ts: int)
    requires ValidCycleDraws(d)
    ensures WellFormedTrees(CycleTrees(d, ts), ts)
  {
    var rs := CycleTrees(d, ts);
    forall k | 0 <= k < |rs|
      ensures && rs[k].timestamp == ts && rs[k].treeId == TreeId(ZoneOrder[k / TreesPerZone], k % TreesPerZone)
              && Abs(rs[k].strainXmm) <= 0.15 && Abs(rs[k].strainYmm) <= 0.09
    {
      var zi, i := k / TreesPerZone, k % TreesPerZone;
      assert k == zi * TreesPerZone + i;
      TreeReadingsAt(ts, d.treeSway, d.treeDraws, |ZoneOrder|, zi, i);
      TreeStrainBounds(ts, ZoneOrder[zi], i, d.treeSway[i], d.treeDraws[k]);
    }
  }

  lemma VisitorsWellFormed(d: CycleDraws, ts: int, flow: real)
    requires ValidCycleDraws(d)
    ensures WellFormedVisitors(CycleVisitors(d, ts, flow), ts)
  {
    var rs := CycleVisitors(d, ts, flow);
    forall k | 0 <= k < |rs|
      ensures && rs[k].timestamp == ts && rs[k].zone == Name(ZoneOrder[k / SensorsPerZone])
              && rs[k].sensorId == LidarId(ZoneOrder[k / SensorsPerZone], k % SensorsPerZone)
              && (rs[k].detectionActive <==> 1 <= rs[k].visitorCountEstimate <= 3)
              && (!rs[k].detectionActive ==> rs[k].visitorCountEstimate == 0)
              && (rs[k].detectionActive ==>
                    75.0 <= rs[k].signalStrength <= 90.0 && 72.0 <= rs[k].confidenceLevel <= 95.0)
              && (!rs[k].detectionActive ==>
                    15.0 <= rs[k].signalStrength <= 40.0 && 10.0 <= rs[k].confidenceLevel <= 30.0)
    {
      var zi, i := k / SensorsPerZone, k % SensorsPerZone;
      assert k == zi * SensorsPerZone + i;
      SensorReadingsAt(ts, HourOf(ts), flow, d.sensorDraws, |ZoneOrder|, zi, i);
      assert ValidSensorDraw(d.sensorDraws[k]);
    }
  }

  /**
   * From readings as the detector produces them, every zone either has no
   * engagement at all or scores in [0.72, 0.95] with a duration of 300 times
   * its score.
   */
  lemma EngagementWellFormed(ts: int, vs: seq<VisitorReading>)
    requires forall v :: v in vs && v.detectionActive ==> 72.0 <= v.confidenceLevel <= 95.0
    ensures WellFormedEngagement(EngagementReadings(ts, vs, |ZoneOrder|), ts)
  {
    var rs := EngagementReadings(ts, vs, |ZoneOrder|);
    forall i | 0 <= i < |rs|
      ensures && rs[i].timestamp == ts && rs[i].zone == Name(ZoneOrder[i])
              && (|| (rs[i].averageEngagementDurationSec == 0.0 && rs[i].engagementScore == 0.0)
                  || (&& 0.72 <= rs[i].engagementScore <= 0.95
                      && rs[i].averageEngagementDurationSec == 300.0 * rs[i].engagementScore))
    {
      EngagementReadingsAt(ts, vs, |ZoneOrder|, i);
      if ActiveIn(vs, Name(ZoneOrder[i])) != [] {
        DetectedEngagementBounds(ts, ZoneOrder[i], vs);
      }
    }
  }

  lemma AudioWellFormed(ts: int, vols: map<Zone, real>, activity: map<Zone, int>, intensity: real, noise: seq<real>)
    requires |noise| == |ZoneOrder|
    ensures WellFormedAudio(AudioReadings(ts, vols, activity, intensity, noise, |ZoneOrder|), ts)
  {
    forall i | 0 <= i < |ZoneOrder| {
      AudioReadingsAt(ts, vols, activity, intensity, noise, |ZoneOrder|, i);
    }
  }

  lemma LightingWellFormed(ts: int, hour: int, intensity: real, activity: map<Zone, int>)
    ensures WellFormedLighting(LightingReadings(ts, hour, intensity, activity, |ZoneOrder|), ts)
  {
    forall i | 0 <= i < |ZoneOrder| {
      LightingReadingsAt(ts, hour, intensity, activity, |ZoneOrder|, i);
    }
  }

  /** Every dataset of a cycle is well formed. */
  lemma CycleWellFormed(d: CycleDraws, s: CycleInput)
    requires ValidCycleDraws(d)
    ensures WellFormedCycle(CycleDataset(d, s), s.ts)
  {
    var ts := s.ts;
    EnvironmentalWellFormed(ts, s.temps, s.hums, d.sinPhase, d.tempVariation);
    TreesWellFormed(d, ts);
    VisitorsWellFormed(d, ts, s.flow);
    var vs := CycleVisitors(d, ts, s.flow);
    forall v | v in vs && v.detectionActive ensures 72.0 <= v.confidenceLevel <= 95.0 {
      var k :| 0 <= k < |vs| && vs[k] == v;
    }
    EngagementWellFormed(ts, vs);
    AudioWellFormed(ts, s.vols, CycleActivity(d, ts, s.flow), MeanMovement(CycleTrees(d, ts)), d.volumeNoise);
    LightingWellFormed(ts, HourOf(ts), MeanMovement(CycleTrees(d, ts)), CycleActivity(d, ts, s.flow));
  }

  /**
   * The power estimate of a cycle lies between 190 W (three speakers and the
   * base load, all LEDs off) and 343 W (every LED channel at 255).
   */
  lemma CyclePowerBounds(d: CycleDraws, s: CycleInput)
    requires ValidCycleDraws(d)
    ensures 190.0 <= CycleStats(d, s).totalPowerConsumption <= 343.0
  {
    var ls := CycleLighting(d, s.ts, s.flow);
    LightingWellFormed(s.ts, HourOf(s.ts), MeanMovement(CycleTrees(d, s.ts)), CycleActivity(d, s.ts, s.flow));
    LightingPowerBounds(ls);
  }

  /**
   * The correlations the cycle is built for: the audio and lighting of zone
   * `j` respond to the visitors its own five sensors report in this very
   * dataset (readings `5 * j` to `5 * j + 4`, all tagged with the zone).
   */
  lemma CycleCorrelations(d: CycleDraws, s: CycleInput, j: nat)
    requires ValidCycleDraws(d) && j < |ZoneOrder|
    ensures var ds := CycleDataset(d, s);
            var visitors := CycleVisitors(d, s.ts, s.flow);
            var z := ZoneOrder[j];
            var count := SumEstimates(visitors[j * SensorsPerZone..j * SensorsPerZone + SensorsPerZone]);
            var intensity := MeanMovement(CycleTrees(d, s.ts));
            && VisitorsIn(CycleActivity(d, s.ts, s.flow), z) == count
            && ds.audioSystem.value[j] == AudioReadingOf(s.ts, z, Lookup(s.vols, z), count, intensity, d.volumeNoise[j])
            && ds.lightingSystem.value[j] == LightingOf(s.ts, z, HourOf(s.ts), intensity, count)
  {
    var hour := HourOf(s.ts);
    var activity := CycleActivity(d, s.ts, s.flow);
    var cs := ZoneCounts(s.ts, hour, s.flow, d.sensorDraws, |ZoneOrder|);
    ActivityStoredAt(map[], cs, j);
    ZoneCountsAt(s.ts, hour, s.flow, d.sensorDraws, |ZoneOrder|, j);
    SensorBlock(s.ts, hour, s.flow, d.sensorDraws, |ZoneOrder|, j);
    AudioReadingsAt(s.ts, s.vols, activity, MeanMovement(CycleTrees(d, s.ts)), d.volumeNoise, |ZoneOrder|, j);
    LightingReadingsAt(s.ts, hour, MeanMovement(CycleTrees(d, s.ts)), activity, |ZoneOrder|, j);
  }

  /** The cycle's visitor total is the sum of the three zones' activity. */
  lemma CycleVisitorTotal(d: CycleDraws, s: CycleInput)
    requires ValidCycleDraws(d)
    ensures var activity := CycleActivity(d, s.ts, s.flow);
            CycleStats(d, s).totalVisitorsDetected
            == VisitorsIn(activity, EntranceClearing) + VisitorsIn(activity, DeepForest) + VisitorsIn(activity, Riverside)
  {
    var ts, hour, flow, draws := s.ts, HourOf(s.ts), s.flow, d.sensorDraws;
    var cs := ZoneCounts(ts, hour, flow, draws, |ZoneOrder|);
    SensorTotalStep(ts, hour, flow, draws, 1);
    SensorTotalStep(ts, hour, flow, draws, 2);
    SensorTotalStep(ts, hour, flow, draws, 3);
    ActivityStoredAt(map[], cs, 0);
    ActivityStoredAt(map[], cs, 1);
    ActivityStoredAt(map[], cs, 2);
    ZoneCountsAt(ts, hour, flow, draws, |ZoneOrder|, 0);
    ZoneCountsAt(ts, hour, flow, draws, |ZoneOrder|, 1);
    ZoneCountsAt(ts, hour, flow, draws, |ZoneOrder|, 2);
  }

  /** The cycle's visitor total is also the sum of the estimates the dataset reports per zone. */
  lemma CycleVisitorTotalByZone(d: CycleDraws, s: CycleInput)
    requires ValidCycleDraws(d)
    ensures var visitors := CycleVisitors(d, s.ts, s.flow);
            CycleStats(d, s).totalVisitorsDetected
            == ZoneEstimates(visitors, Name(EntranceClearing)) + ZoneEstimates(visitors, Name(DeepForest))
               + ZoneEstimates(visitors, Name(Riverside))
  {
    var visitors := CycleVisitors(d, s.ts, s.flow);
    VisitorsWellFormed(d, s.ts, s.flow);
    forall k | 0 <= k < |visitors|
      ensures visitors[k].zone in {Name(EntranceClearing), Name(DeepForest), Name(Riverside)}
    {
      assert visitors[k].zone == Name(ZoneOrder[k / SensorsPerZone]);
    }
    TotalIsSumOfZones(visitors);
  }
}
