/**
 * The installation simulator itself (installation_sim.py, class
 * `InstallationSim`, and the dataset buffer of `run_realtime_simulation`).
 *
 * The object keeps per-zone state between cycles (last temperature,
 * humidity and volume, visitor activity, engagement history) and its
 * `simulate_*` methods update that state zone by zone. Each method is proved
 * to return the readings `Cycle` defines and to leave the state `Cycle`
 * defines; what those values mean is proved about the functions in `Cycle`
 * and `Generators`.
 */
module Simulator {
  import opened Common
  import opened Zones
  import opened Records
  import opened Generators
  import opened Sequences
  import opened Cycle

  /** The real-time loop keeps the ten most recent datasets in memory. */
  const RecentCapacity: nat := 10

  class InstallationSim {
    const startTime: int
    var currentTime: int
    var treeMovementIntensity: real
    const visitorFlowMultiplier: real
    var lastTemperatureByZone: map<Zone, real>
    var lastHumidityByZone: map<Zone, real>
    var lastVolumeByZone: map<Zone, real>
    var zoneVisitorActivity: map<Zone, int>
    var stats: SimStats
    var engagementHistory: map<Zone, seq<real>>
    /** Every engagement score ever recorded per zone, oldest first. */
    ghost var scoreLog: map<Zone, seq<real>>

    /**
     * What every cycle preserves: the visitor flow stays at its initial 1.0,
     * the tree movement intensity is never negative, and every zone's
     * engagement history is the newest ten of its logged scores.
     */
    ghost predicate Valid()
      reads this`treeMovementIntensity, this`engagementHistory, this`scoreLog
    {
      && visitorFlowMultiplier == 1.0
      && treeMovementIntensity >= 0.0
      && HistoriesMatchLogs(engagementHistory, scoreLog)
    }

    constructor (start: int)
      ensures Valid()
      ensures startTime == start && currentTime == start
      ensures treeMovementIntensity == 0.1
      ensures lastTemperatureByZone == map[] && lastHumidityByZone == map[] && lastVolumeByZone == map[]
      ensures forall z :: z in zoneVisitorActivity && zoneVisitorActivity[z] == 0
      ensures forall z :: z in engagementHistory && engagementHistory[z] == []
      ensures stats == SimStats(0, 0, 0.0, 0.0)
    {
      startTime := start;
      currentTime := start;
      treeMovementIntensity := 0.1;
      visitorFlowMultiplier := 1.0;
      lastTemperatureByZone := map[];
      lastHumidityByZone := map[];
      lastVolumeByZone := map[];
      zoneVisitorActivity := map z | z in ZoneOrder :: 0;
      stats := SimStats(0, 0, 0.0, 0.0);
      engagementHistory := map z | z in ZoneOrder :: [];
      scoreLog := map z | z in ZoneOrder :: [];
      forall z: Zone ensures z in ZoneOrder {
        InZoneOrder(z);
      }
    }

    method AdvanceTime(seconds: int)
      modifies this`currentTime
      ensures currentTime == old(currentTime) + seconds
    {
      currentTime := currentTime + seconds;
    }

    // -------------------------------------------------------------------------
    // Weather

    /**
     * One environmental reading per zone, in zone order; each zone's stored
     * temperature and humidity become the values just reported.
     */
    method SimulateWeatherConditions(sinPhase: real, tempVariation: real)
      returns (readings: seq<EnvironmentalReading>)
      requires ValidWeatherDraw(sinPhase, tempVariation)
      modifies this`lastTemperatureByZone, this`lastHumidityByZone
      ensures readings
              == WeatherReadings(currentTime, old(lastTemperatureByZone), old(lastHumidityByZone),
                                 sinPhase, tempVariation, |ZoneOrder|)
      ensures lastTemperatureByZone == TemperaturesStored(old(lastTemperatureByZone), readings)
      ensures lastHumidityByZone == HumiditiesStored(old(lastHumidityByZone), readings)
    {
      readings := [];
      for i := 0 to |ZoneOrder|
        invariant readings
                  == WeatherReadings(currentTime, old(lastTemperatureByZone), old(lastHumidityByZone),
                                     sinPhase, tempVariation, i)
        invariant lastTemperatureByZone == TemperaturesStored(old(lastTemperatureByZone), readings)
        invariant lastHumidityByZone == HumiditiesStored(old(lastHumidityByZone), readings)
      {
        WeatherStoredAt(old(lastTemperatureByZone), old(lastHumidityByZone), readings, i);
        var reading := UpdateZoneWeather(ZoneOrder[i], sinPhase, tempVariation);
        assert (readings + [reading])[..i] == readings;
        readings := readings + [reading];
      }
    }

    /** The weather step of one zone: its reading, which also becomes its stored state. */
    method UpdateZoneWeather(z: Zone, sinPhase: real, tempVariation: real) returns (reading: EnvironmentalReading)
      modifies this`lastTemperatureByZone, this`lastHumidityByZone
      ensures reading
              == EnvironmentalOf(currentTime, z, Lookup(old(lastTemperatureByZone), z),
                                 Lookup(old(lastHumidityByZone), z), sinPhase, tempVariation)
      ensures lastTemperatureByZone == old(lastTemperatureByZone)[z := reading.temperatureC]
      ensures lastHumidityByZone == old(lastHumidityByZone)[z := reading.humidityPercent]
    {
      reading := EnvironmentalOf(currentTime, z, Lookup(lastTemperatureByZone, z), Lookup(lastHumidityByZone, z),
                                 sinPhase, tempVariation);
      lastTemperatureByZone := lastTemperatureByZone[z := reading.temperatureC];
      lastHumidityByZone := lastHumidityByZone[z := reading.humidityPercent];
    }

    // -------------------------------------------------------------------------
    // Tree biometrics

    /**
     * Three strain readings per zone, zone by zone; the tree movement
     * intensity becomes their mean magnitude and is copied into the stats.
     */
    method SimulateTreeBiometrics(sway: seq<real>, draws: seq<TreeDraw>) returns (readings: seq<TreeReading>)
      requires ValidTreeDraws(sway, draws)
      modifies this`treeMovementIntensity, this`stats
      ensures readings == TreeReadings(currentTime, sway, draws, |ZoneOrder|)
      ensures treeMovementIntensity == MeanMovement(readings)
      ensures stats == old(stats).(averageTreeMovement := treeMovementIntensity)
    {
      readings := [];
      var totalMovement := 0.0;
      var treeCount := 0;
      for zi := 0 to |ZoneOrder|
        invariant readings == TreeReadings(currentTime, sway, draws, zi)
        invariant totalMovement == TotalMovement(readings) && treeCount == |readings|
        invariant stats == old(stats)
      {
        readings, totalMovement, treeCount :=
          SimulateZoneTrees(ZoneOrder[zi], sway, ZoneTreeDraws(draws, zi), readings, totalMovement, treeCount);
      }
      treeMovementIntensity := if treeCount > 0 then totalMovement / (treeCount as real) else 0.1;
      stats := stats.(averageTreeMovement := treeMovementIntensity);
    }

    /**
     * The trees of zone `z`: appends one reading per tree to `readings0` and
     * adds each magnitude to the running total and count.
     */
    method SimulateZoneTrees(z: Zone, sway: seq<real>, zoneDraws: seq<TreeDraw>,
                             readings0: seq<TreeReading>, total0: real, count0: int)
      returns (readings: seq<TreeReading>, total: real, count: int)
      requires |sway| == |zoneDraws| && total0 == TotalMovement(readings0) && count0 == |readings0|
      ensures readings == readings0 + ZoneTreeReadings(currentTime, z, sway, zoneDraws, |zoneDraws|)
      ensures total == TotalMovement(readings) && count == |readings|
    {
      readings, total, count := readings0, total0, count0;
      for treeIdx := 0 to |zoneDraws|
        invariant readings == readings0 + ZoneTreeReadings(currentTime, z, sway, zoneDraws, treeIdx)
        invariant total == TotalMovement(readings) && count == |readings|
      {
        var reading := TreeReadingOf(currentTime, z, treeIdx, sway[treeIdx], zoneDraws[treeIdx]);
        total := total + Magnitude(reading);
        count := count + 1;
        TotalMovementSnoc(readings, reading);
        readings := readings + [reading];
      }
    }

    // -------------------------------------------------------------------------
    // Visitor detection

    /**
     * Five LiDAR readings per zone, zone by zone. Every zone's activity is
     * reset and then set to the sum of its sensors' estimates; the stats
     * total is the sum over all sensors.
     */
    method SimulateVisitorDetection(draws: seq<SensorDraw>) returns (readings: seq<VisitorReading>)
      requires |draws| == |ZoneOrder| * SensorsPerZone
      modifies this`zoneVisitorActivity, this`stats
      ensures readings == SensorReadings(currentTime, HourOf(currentTime), visitorFlowMultiplier, draws, |ZoneOrder|)
      ensures zoneVisitorActivity
              == ActivityOf(ZoneCounts(currentTime, HourOf(currentTime), visitorFlowMultiplier, draws, |ZoneOrder|))
      ensures stats == old(stats).(totalVisitorsDetected := SumEstimates(readings))
    {
      var hour := HourOf(currentTime);
      var totalVisitors := 0;
      ResetVisitorActivity();
      ghost var reset := zoneVisitorActivity;
      readings := [];
      for zi := 0 to |ZoneOrder|
        invariant readings == SensorReadings(currentTime, hour, visitorFlowMultiplier, draws, zi)
        invariant totalVisitors == SumEstimates(readings)
        invariant zoneVisitorActivity
                  == ActivityStored(reset, ZoneCounts(currentTime, hour, visitorFlowMultiplier, draws, zi))
        invariant stats == old(stats)
      {
        readings, totalVisitors := DetectZone(zi, hour, draws, reset, readings, totalVisitors);
      }
      stats := stats.(totalVisitorsDetected := totalVisitors);
      ActivityAfterDetection(reset, ZoneCounts(currentTime, hour, visitorFlowMultiplier, draws, |ZoneOrder|));
    }

    /**
     * One iteration of the zone loop: zone `ZoneOrder[zi]`'s sensors extend
     * the readings and the running total, and the zone's activity becomes
     * the sum of its sensors' estimates.
     */
    method DetectZone(zi: nat, hour: int, draws: seq<SensorDraw>, ghost reset: map<Zone, int>,
                      readings0: seq<VisitorReading>, total0: int)
      returns (readings: seq<VisitorReading>, total: int)
      requires zi < |ZoneOrder| && |draws| == |ZoneOrder| * SensorsPerZone
      requires readings0 == SensorReadings(currentTime, hour, visitorFlowMultiplier, draws, zi)
      requires total0 == SumEstimates(readings0)
      requires zoneVisitorActivity == ActivityStored(reset, ZoneCounts(currentTime, hour, visitorFlowMultiplier, draws, zi))
      modifies this`zoneVisitorActivity
      ensures readings == SensorReadings(currentTime, hour, visitorFlowMultiplier, draws, zi + 1)
      ensures total == SumEstimates(readings)
      ensures zoneVisitorActivity
              == ActivityStored(reset, ZoneCounts(currentTime, hour, visitorFlowMultiplier, draws, zi + 1))
    {
      var z := ZoneOrder[zi];
      // the hour's base probability, times the flow multiplier, times the zone's factor
      var detectionProbability := DetectionProbability(z, hour, visitorFlowMultiplier);
      var zoneReadings, zoneVisitorsThisCycle;
      zoneReadings, total, zoneVisitorsThisCycle :=
        SenseZone(z, detectionProbability, ZoneSensorDraws(draws, zi), total0);
      DetectionStep(currentTime, hour, visitorFlowMultiplier, draws, zi);
      ActivityStoredSnoc(reset, ZoneCounts(currentTime, hour, visitorFlowMultiplier, draws, zi), zoneVisitorsThisCycle);
      readings := readings0 + zoneReadings;
      zoneVisitorActivity := zoneVisitorActivity[z := zoneVisitorsThisCycle];
    }

    /** Sets every zone's visitor activity to 0, zone by zone. */
    method ResetVisitorActivity()
      modifies this`zoneVisitorActivity
      ensures zoneVisitorActivity == ActivityReset(old(zoneVisitorActivity), |ZoneOrder|)
    {
      for i := 0 to |ZoneOrder|
        invariant zoneVisitorActivity == ActivityReset(old(zoneVisitorActivity), i)
      {
        zoneVisitorActivity := zoneVisitorActivity[ZoneOrder[i] := 0];
      }
    }

    /**
     * The sensors of zone `z`, one reading each; every estimate is added both
     * to the zone's own count and to the running total `total0`.
     */
    method SenseZone(z: Zone, probability: real, zoneDraws: seq<SensorDraw>, total0: int)
      returns (zoneReadings: seq<VisitorReading>, total: int, zoneVisitors: int)
      ensures zoneReadings == ZoneSensorReadings(currentTime, z, probability, zoneDraws, |zoneDraws|)
      ensures zoneVisitors == SumEstimates(zoneReadings)
      ensures total == total0 + zoneVisitors
    {
      zoneReadings, total, zoneVisitors := [], total0, 0;
      for sensorIdx := 0 to |zoneDraws|
        invariant zoneReadings == ZoneSensorReadings(currentTime, z, probability, zoneDraws, sensorIdx)
        invariant zoneVisitors == SumEstimates(zoneReadings)
        invariant total == total0 + zoneVisitors
      {
        var reading := VisitorReadingOf(currentTime, z, sensorIdx, probability, zoneDraws[sensorIdx]);
        total := total + reading.visitorCountEstimate;
        zoneVisitors := zoneVisitors + reading.visitorCountEstimate;
        SumEstimatesSnoc(zoneReadings, reading);
        zoneReadings := zoneReadings + [reading];
      }
    }

    // -------------------------------------------------------------------------
    // Engagement

    /**
     * One engagement reading per zone from the given visitor readings; each
     * zone's score is appended to its bounded history (and to the ghost log).
     */
    method CalculateUserEngagement(visitorData: seq<VisitorReading>) returns (readings: seq<EngagementReading>)
      requires Valid()
      modifies this`engagementHistory, this`scoreLog
      ensures Valid()
      ensures readings == EngagementReadings(currentTime, visitorData, |ZoneOrder|)
      ensures engagementHistory == HistoriesAfter(old(engagementHistory), readings)
      ensures scoreLog == LogsAfter(old(scoreLog), readings)
    {
      readings := [];
      for i := 0 to |ZoneOrder|
        invariant readings == EngagementReadings(currentTime, visitorData, i)
        invariant engagementHistory == HistoriesAfter(old(engagementHistory), readings)
        invariant scoreLog == LogsAfter(old(scoreLog), readings)
      {
        var z := ZoneOrder[i];
        var reading := EngagementOf(currentTime, z, visitorData);
        HistoriesAt(old(engagementHistory), readings, i);
        LogsAt(old(scoreLog), readings, i);
        RecordScore(z, reading.engagementScore);
        HistoriesSnoc(old(engagementHistory), readings, reading);
        LogsSnoc(old(scoreLog), readings, reading);
        readings := readings + [reading];
      }
      HistoriesStayWindows(old(engagementHistory), old(scoreLog), readings);
    }

    /** Appends `score` to zone `z`'s bounded history (and to its ghost log). */
    method RecordScore(z: Zone, score: real)
      modifies this`engagementHistory, this`scoreLog
      ensures engagementHistory == old(engagementHistory)[z := Extended(old(engagementHistory), z, score)]
      ensures scoreLog == old(scoreLog)[z := Logged(old(scoreLog), z, score)]
    {
      var history := Lookup(engagementHistory, z).GetOr([]);
      engagementHistory := engagementHistory[z := AppendBounded(history, score, HistoryCapacity)];
      scoreLog := scoreLog[z := Lookup(scoreLog, z).GetOr([]) + [score]];
    }

    // -------------------------------------------------------------------------
    // Audio

    /**
     * One speaker reading per zone, driven by the zone's visitor activity and
     * the tree movement intensity; each zone's stored volume becomes the
     * value just reported.
     */
    method SimulateAudioSystem(noise: seq<real>) returns (readings: seq<AudioReading>)
      requires |noise| == |ZoneOrder|
      modifies this`lastVolumeByZone
      ensures readings
              == AudioReadings(currentTime, old(lastVolumeByZone), zoneVisitorActivity, treeMovementIntensity,
                               noise, |ZoneOrder|)
      ensures lastVolumeByZone == VolumesStored(old(lastVolumeByZone), readings)
    {
      readings := [];
      for i := 0 to |ZoneOrder|
        invariant readings
                  == AudioReadings(currentTime, old(lastVolumeByZone), zoneVisitorActivity, treeMovementIntensity,
                                   noise, i)
        invariant lastVolumeByZone == VolumesStored(old(lastVolumeByZone), readings)
      {
        VolumesStoredAt(old(lastVolumeByZone), readings, i);
        var reading := UpdateZoneVolume(ZoneOrder[i], noise[i]);
        assert (readings + [reading])[..i] == readings;
        readings := readings + [reading];
      }
    }

    /** The audio step of one zone: its reading, whose volume becomes the zone's stored volume. */
    method UpdateZoneVolume(z: Zone, noise: real) returns (reading: AudioReading)
      modifies this`lastVolumeByZone
      ensures reading
              == AudioReadingOf(currentTime, z, Lookup(old(lastVolumeByZone), z), VisitorsIn(zoneVisitorActivity, z),
                                treeMovementIntensity, noise)
      ensures lastVolumeByZone == old(lastVolumeByZone)[z := reading.volumeDb]
    {
      var zoneVisitors := VisitorsIn(zoneVisitorActivity, z);
      reading := AudioReadingOf(currentTime, z, Lookup(lastVolumeByZone, z), zoneVisitors, treeMovementIntensity, noise);
      lastVolumeByZone := lastVolumeByZone[z := reading.volumeDb];
    }

    // -------------------------------------------------------------------------
    // Lighting

    /** One LED reading per zone; the simulator's state is only read. */
    method SimulateLightingSystem() returns (readings: seq<LightingReading>)
      ensures readings
              == LightingReadings(currentTime, HourOf(currentTime), treeMovementIntensity, zoneVisitorActivity,
                                  |ZoneOrder|)
    {
      var hour := HourOf(currentTime);
      readings := [];
      for i := 0 to |ZoneOrder|
        invariant readings == LightingReadings(currentTime, hour, treeMovementIntensity, zoneVisitorActivity, i)
      {
        var z := ZoneOrder[i];
        readings := readings + [LightingOf(currentTime, z, hour, treeMovementIntensity, VisitorsIn(zoneVisitorActivity, z))];
      }
    }

    // -------------------------------------------------------------------------
    // The whole cycle

    /** The part of the state a cycle depends on. */
    function Input(): CycleInput
      reads this`currentTime, this`lastTemperatureByZone, this`lastHumidityByZone, this`lastVolumeByZone, this`stats
    {
      CycleInput(currentTime, lastTemperatureByZone, lastHumidityByZone, lastVolumeByZone, visitorFlowMultiplier,
                 stats.activeAudioChannels)
    }

    /**
     * One complete cycle: weather, trees, visitors, engagement (from this
     * cycle's visitors), audio and lighting (from this cycle's tree intensity
     * and zone activity), then the power estimate. The dataset, the new stats
     * and every per-zone map are those `Cycle` defines for the state `input`
     * the simulator had before the call.
     */
    method GenerateCompleteDataset(draws: CycleDraws, ghost input: CycleInput) returns (dataset: Dataset)
      requires Valid() && ValidCycleDraws(draws) && input == Input()
      modifies this`lastTemperatureByZone, this`lastHumidityByZone, this`treeMovementIntensity, this`stats,
               this`zoneVisitorActivity, this`engagementHistory, this`scoreLog, this`lastVolumeByZone
      ensures Valid()
      ensures dataset == CycleDataset(draws, input)
      ensures dataset.metadata.Some? && dataset.environmental.Some? && dataset.treeBiometrics.Some?
      ensures dataset.audioSystem.Some? && dataset.metadata.value.userEngagement.Some?
      ensures dataset.metadata.value.stats == Some(StatsBlockOf(stats))
      ensures lastTemperatureByZone == TemperaturesStored(input.temps, dataset.environmental.value)
      ensures lastHumidityByZone == HumiditiesStored(input.hums, dataset.environmental.value)
      ensures treeMovementIntensity == MeanMovement(CycleTrees(draws, input.ts))
      ensures zoneVisitorActivity
              == ActivityOf(ZoneCounts(input.ts, HourOf(input.ts), input.flow, draws.sensorDraws, |ZoneOrder|))
      ensures engagementHistory == HistoriesAfter(old(engagementHistory), dataset.metadata.value.userEngagement.value)
      ensures lastVolumeByZone == VolumesStored(input.vols, dataset.audioSystem.value)
    {
      var environmental, trees, visitors := SenseCycle(draws);
      var engagement, audio, lighting := RespondCycle(draws.volumeNoise, visitors);
      var metadata := Metadata(Some(currentTime), Some(currentTime), None, Some(StatsBlockOf(stats)), Some(engagement));
      dataset := Dataset(Some(metadata), Some(environmental), Some(trees), Some(visitors), Some(audio), Some(lighting));
      CycleComposed(draws, input, environmental, trees, visitors, zoneVisitorActivity, treeMovementIntensity,
                    engagement, audio, lighting, stats, dataset);
    }

    /**
     * The responding half of a cycle: engagement from this cycle's visitor
     * readings, audio and lighting from the zone activity and tree intensity
     * the sensing half left, then the power estimate.
     */
    method RespondCycle(noise: seq<real>, visitors: seq<VisitorReading>)
      returns (engagement: seq<EngagementReading>, audio: seq<AudioReading>, lighting: seq<LightingReading>)
      requires Valid() && |noise| == |ZoneOrder|
      modifies this`engagementHistory, this`scoreLog, this`lastVolumeByZone, this`stats
      ensures Valid()
      ensures engagement == EngagementReadings(currentTime, visitors, |ZoneOrder|)
      ensures engagementHistory == HistoriesAfter(old(engagementHistory), engagement)
      ensures audio
              == AudioReadings(currentTime, old(lastVolumeByZone), zoneVisitorActivity, treeMovementIntensity,
                               noise, |ZoneOrder|)
      ensures lastVolumeByZone == VolumesStored(old(lastVolumeByZone), audio)
      ensures lighting
              == LightingReadings(currentTime, HourOf(currentTime), treeMovementIntensity, zoneVisitorActivity,
                                  |ZoneOrder|)
      ensures stats == old(stats).(totalPowerConsumption := TotalPower(|audio|, lighting))
    {
      engagement := CalculateUserEngagement(visitors);
      audio := SimulateAudioSystem(noise);
      lighting := SimulateLightingSystem();
      // about 30 W per speaker, the LED term, and 100 W of base load
      stats := stats.(totalPowerConsumption := TotalPower(|audio|, lighting));
    }

    /**
     * The sensing half of a cycle: weather, tree biometrics and visitor
     * detection, each from the state the one before it left.
     */
    method SenseCycle(draws: CycleDraws)
      returns (environmental: seq<EnvironmentalReading>, trees: seq<TreeReading>, visitors: seq<VisitorReading>)
      requires ValidCycleDraws(draws)
      modifies this`lastTemperatureByZone, this`lastHumidityByZone, this`treeMovementIntensity, this`stats,
               this`zoneVisitorActivity
      ensures environmental
              == WeatherReadings(currentTime, old(lastTemperatureByZone), old(lastHumidityByZone),
                                 draws.sinPhase, draws.tempVariation, |ZoneOrder|)
      ensures lastTemperatureByZone == TemperaturesStored(old(lastTemperatureByZone), environmental)
      ensures lastHumidityByZone == HumiditiesStored(old(lastHumidityByZone), environmental)
      ensures trees == TreeReadings(currentTime, draws.treeSway, draws.treeDraws, |ZoneOrder|)
      ensures treeMovementIntensity == MeanMovement(trees)
      ensures visitors
              == SensorReadings(currentTime, HourOf(currentTime), visitorFlowMultiplier, draws.sensorDraws, |ZoneOrder|)
      ensures zoneVisitorActivity
              == ActivityOf(ZoneCounts(currentTime, HourOf(currentTime), visitorFlowMultiplier, draws.sensorDraws,
                                       |ZoneOrder|))
      ensures stats == old(stats).(averageTreeMovement := treeMovementIntensity,
                                   totalVisitorsDetected := SumEstimates(visitors))
    {
      environmental := SimulateWeatherConditions(draws.sinPhase, draws.tempVariation);
      trees := SimulateTreeBiometrics(draws.treeSway, draws.treeDraws);
      visitors := SimulateVisitorDetection(draws.sensorDraws);
    }
  }

  /**
   * The real-time loop without its clock and I/O: at each tick the
   * simulator's time is set to the wall-clock reading, a dataset is
   * generated, and the in-memory list keeps only the newest ten.
   */
  method RunRealtime(sim: InstallationSim, ticks: seq<int>, draws: seq<CycleDraws>)
    returns (datasets: seq<Dataset>, ghost produced: seq<Dataset>)
    requires sim.Valid() && |ticks| == |draws|
    requires forall i :: 0 <= i < |draws| ==> ValidCycleDraws(draws[i])
    modifies sim
    ensures sim.Valid()
    ensures |produced| == |ticks|
    ensures forall i :: 0 <= i < |ticks| ==> WellFormedCycle(produced[i], ticks[i])
    ensures datasets == Window(produced, RecentCapacity)
    ensures |datasets| <= RecentCapacity
  {
    datasets := [];
    produced := [];
    for i := 0 to |ticks|
      invariant sim.Valid()
      invariant |produced| == i
      invariant forall j :: 0 <= j < i ==> WellFormedCycle(produced[j], ticks[j])
      invariant datasets == Window(produced, RecentCapacity)
    {
      sim.currentTime := ticks[i];
      ghost var input := sim.Input();
      var dataset := sim.GenerateCompleteDataset(draws[i], input);
      CycleWellFormed(draws[i], input);
      WindowStep(produced, dataset, RecentCapacity);
      datasets := AppendBounded(datasets, dataset, RecentCapacity);
      produced := produced + [dataset];
    }
  }
}
