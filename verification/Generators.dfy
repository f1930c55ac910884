/**
 * The per-reading arithmetic of the installation simulator, written as pure
 * transfer functions (installation_sim.py, the bodies of the `simulate_*`
 * loops, `calculate_user_engagement` and the power estimate of
 * `generate_complete_dataset`).
 *
 * Every `random.*` draw and every `np.sin` value is a parameter; where the
 * source draws from a range, the range is stated by a predicate on the
 * parameter. Python floats are `real`s and `round(x, n)` is not modelled.
 */
module Generators {
  import opened Common
  import opened Zones
  import opened Records

  /** `datetime.hour` of a UTC time given in seconds since the epoch. */
  function HourOf(t: int): (h: nat)
    ensures h < 24
    ensures t % 86400 == 3600 * h + t % 3600
  {
    (t % 86400) / 3600
  }

  /**
   * One step of the simulator's smoothing rule: on a zone's first cycle
   * (no previous value) the new value is the target; afterwards it moves
   * the fraction `rate` of the way from the previous value to the target.
   */
  function Smooth(last: Option<real>, target: real, rate: real): (r: real)
    requires 0.0 <= rate <= 1.0
    ensures last.None? ==> r == target
    ensures last.Some? ==> target - r == (1.0 - rate) * (target - last.value)
    ensures last.Some? ==> Between(r, last.value, target)
  {
    match last
    case None => target
    case Some(prev) =>
      SmoothStep(prev, target, rate);
      prev + (target - prev) * rate
  }

  lemma SmoothStep(prev: real, target: real, rate: real)
    requires 0.0 <= rate <= 1.0
    ensures target - (prev + (target - prev) * rate) == (1.0 - rate) * (target - prev)
    ensures Between(prev + (target - prev) * rate, prev, target)
  {
    var d := target - prev;
    var step := d * rate;
    assert (1.0 - rate) * d == d - step;
    ScaledGapBetween(d, rate);
    assert Between(step, 0.0, d);
    assert prev + (target - prev) * rate == prev + step;
    if d >= 0.0 {
      assert prev <= prev + step <= target;
    } else {
      assert target <= prev + step <= prev;
    }
  }

  /** A fraction `rate` of a gap `d` lies between 0 and `d`. */
  lemma ScaledGapBetween(d: real, rate: real)
    requires 0.0 <= rate <= 1.0
    ensures Between(d * rate, 0.0, d)
  {
    if d >= 0.0 {
      MulMonotone(0.0, d, rate, 1.0);
    } else {
      MulMonotone(0.0, -d, rate, 1.0);
    }
  }

  lemma MulMonotone(a: real, b: real, c: real, d: real)
    requires 0.0 <= a <= b && 0.0 <= c <= d
    ensures 0.0 <= a * c <= b * d
  {
    assert a * c <= b * c;
    assert b * c <= b * d;
  }

  lemma MeanBetween(s: real, n: real, lo: real, hi: real)
    requires n > 0.0 && n * lo <= s <= n * hi
    ensures lo <= s / n <= hi
  {
    var m := s / n;
    assert s == m * n;
    assert m < lo ==> m * n < lo * n;
    assert m > hi ==> m * n > hi * n;
  }

  // ---------------------------------------------------------------------------
  // Weather (installation_sim.py:141-195)

  const HumidityBase: real := 60.0
  const MinHumidity: real := 20.0
  const MaxHumidity: real := 95.0

  /** `max(20, min(95, h))` */
  function ClampHumidity(h: real): (r: real)
    ensures MinHumidity <= r <= MaxHumidity
    ensures MinHumidity <= h <= MaxHumidity ==> r == h
  {
    Max(MinHumidity, Min(MaxHumidity, h))
  }

  /** Micro-climate: the riverside is cooler, the deep forest shaded, the entrance exposed. */
  function TemperatureOffset(z: Zone): real {
    match z
    case Riverside => -2.0
    case DeepForest => -1.0
    case EntranceClearing => 1.0
  }

  function HumidityOffset(z: Zone): real {
    match z
    case Riverside => 15.0
    case DeepForest => 10.0
    case EntranceClearing => -5.0
  }

  /**
   * Target temperature of a zone: a diurnal base `15 + 8 sin((hour - 6) pi / 12)`,
   * where `sinPhase` is the sine value, plus the cycle's shared variation and
   * the zone's offset.
   */
  function TemperatureTarget(z: Zone, sinPhase: real, variation: real): (t: real)
    ensures -1.0 <= sinPhase <= 1.0 && -0.5 <= variation <= 0.5 ==> 4.5 <= t <= 24.5
  {
    15.0 + 8.0 * sinPhase + variation + TemperatureOffset(z)
  }

  function HumidityTarget(z: Zone): (h: real)
    ensures MinHumidity <= h <= MaxHumidity
    ensures h == HumidityBase + HumidityOffset(z)
  {
    ClampHumidity(HumidityBase + HumidityOffset(z))
  }

  /**
   * The environmental reading of zone `z`, given the zone's previously stored
   * temperature and humidity (absent on its first cycle).
   */
  function EnvironmentalOf(ts: int, z: Zone, lastTemp: Option<real>, lastHumidity: Option<real>,
                           sinPhase: real, variation: real): (r: EnvironmentalReading)
    ensures r.timestamp == ts && r.zone == Name(z)
    ensures MinHumidity <= r.humidityPercent <= MaxHumidity
  {
    var temperature := Smooth(lastTemp, TemperatureTarget(z, sinPhase, variation), 0.1);
    var humidity := Smooth(lastHumidity, HumidityTarget(z), 0.1);
    EnvironmentalReading(ts, Name(z), temperature, ClampHumidity(humidity))
  }

  /**
   * On a zone's first cycle the reading is the target itself; afterwards it
   * closes 10% of the gap between the stored value and the target, so the
   * remaining gap is 0.9 of the previous one and the reading lies between
   * the two. For humidity this needs the stored value to be in [20, 95],
   * which the clamp guarantees for every value the simulator stores.
   */
  lemma WeatherSmoothingLaw(ts: int, z: Zone, lastTemp: Option<real>, lastHumidity: Option<real>,
                            sinPhase: real, variation: real)
    ensures var r := EnvironmentalOf(ts, z, lastTemp, lastHumidity, sinPhase, variation);
            var target := TemperatureTarget(z, sinPhase, variation);
            && (lastTemp.None? ==> r.temperatureC == target)
            && (lastTemp.Some? ==>
                  Between(r.temperatureC, lastTemp.value, target)
                  && target - r.temperatureC == 0.9 * (target - lastTemp.value))
            && (lastHumidity.None? ==> r.humidityPercent == HumidityTarget(z))
            && (lastHumidity.Some? && MinHumidity <= lastHumidity.value <= MaxHumidity ==>
                  Between(r.humidityPercent, lastHumidity.value, HumidityTarget(z))
                  && HumidityTarget(z) - r.humidityPercent == 0.9 * (HumidityTarget(z) - lastHumidity.value))
  {
  }

  const MinTemperature: real := 4.5
  const MaxTemperature: real := 24.5

  /**
   * A zone's temperature never leaves [4.5, 24.5]: every target lies in that
   * range and a smoothed value lies between the stored value and the target.
   */
  lemma TemperatureStaysInRange(ts: int, z: Zone, lastTemp: Option<real>, lastHumidity: Option<real>,
                                sinPhase: real, variation: real)
    requires -1.0 <= sinPhase <= 1.0 && -0.5 <= variation <= 0.5
    requires lastTemp.Some? ==> MinTemperature <= lastTemp.value <= MaxTemperature
    ensures MinTemperature <= EnvironmentalOf(ts, z, lastTemp, lastHumidity, sinPhase, variation).temperatureC <= MaxTemperature
  {
    WeatherSmoothingLaw(ts, z, lastTemp, lastHumidity, sinPhase, variation);
  }

  // ---------------------------------------------------------------------------
  // Tree biometrics (installation_sim.py:197-234)

  /** The two uniform draws made per tree. */
  datatype TreeDraw = TreeDraw(movement: real, yJitter: real)

  predicate ValidTreeDraw(d: TreeDraw) {
    -0.05 <= d.movement <= 0.05 && -0.03 <= d.yJitter <= 0.03
  }

  /**
   * The strain reading of tree `idx` of zone `z`; `sway` is the value of
   * `sin(0.1 t + idx)` for the cycle's time `t`.
   */
  function TreeReadingOf(ts: int, z: Zone, idx: nat, sway: real, d: TreeDraw): (r: TreeReading)
    ensures r.timestamp == ts && r.treeId == TreeId(z, idx)
  {
    var naturalSway := 0.1 * sway;
    TreeReading(ts, TreeId(z, idx), naturalSway + d.movement, naturalSway * 0.6 + d.yJitter)
  }

  /**
   * With the sine in [-1, 1] and the draws in their ranges, a strain gauge
   * reads at most 0.15 mm on the X axis and 0.09 mm on the Y axis, and the
   * Y strain follows 0.6 of the common sway.
   */
  lemma TreeStrainBounds(ts: int, z: Zone, idx: nat, sway: real, d: TreeDraw)
    requires -1.0 <= sway <= 1.0 && ValidTreeDraw(d)
    ensures Abs(TreeReadingOf(ts, z, idx, sway, d).strainXmm) <= 0.15
    ensures Abs(TreeReadingOf(ts, z, idx, sway, d).strainYmm) <= 0.09
    ensures TreeReadingOf(ts, z, idx, sway, d).strainYmm - d.yJitter
            == 0.6 * (TreeReadingOf(ts, z, idx, sway, d).strainXmm - d.movement)
  {
  }

  /** `abs(strain_x) + abs(strain_y)` */
  function Magnitude(r: TreeReading): (m: real)
    ensures m >= 0.0
  {
    Abs(r.strainXmm) + Abs(r.strainYmm)
  }

  /** Sum of the movement magnitudes of `rs`, accumulated front to back. */
  function TotalMovement(rs: seq<TreeReading>): (t: real)
    ensures t >= 0.0
  {
    if rs == [] then 0.0 else TotalMovement(rs[..|rs| - 1]) + Magnitude(rs[|rs| - 1])
  }

  /** Appending a reading adds its magnitude. */
  lemma TotalMovementSnoc(rs: seq<TreeReading>, r: TreeReading)
    ensures TotalMovement(rs + [r]) == TotalMovement(rs) + Magnitude(r)
  {
    assert (rs + [r])[..|rs|] == rs;
  }

  /** The tree movement intensity: mean magnitude, or 0.1 when there are no trees. */
  function MeanMovement(rs: seq<TreeReading>): (m: real)
    ensures m >= 0.0
  {
    if |rs| > 0 then TotalMovement(rs) / (|rs| as real) else 0.1
  }

  // ---------------------------------------------------------------------------
  // Visitor detection (installation_sim.py:236-296)

  /** Presence probability by hour: opening hours, evening, night. */
  function BaseProbability(hour: int): (p: real)
    ensures 0.02 <= p <= 0.3
    ensures p == 0.3 <==> 9 <= hour <= 18
    ensures p == 0.15 <==> 19 <= hour <= 22
    ensures p == 0.02 <==> hour < 9 || hour > 22
  {
    if 9 <= hour <= 18 then 0.3
    else if 19 <= hour <= 22 then 0.15
    else 0.02
  }

  /** `typical_visitors / 3`: how much busier than average zone `z` is. */
  function ZoneVisitorFactor(z: Zone): real {
    (TypicalVisitors(z) as real) / 3.0
  }

  /** Probability that one sensor of zone `z` detects someone. */
  function DetectionProbability(z: Zone, hour: int, flowMultiplier: real): real {
    BaseProbability(hour) * flowMultiplier * ZoneVisitorFactor(z)
  }

  /** `random.choice([1, 1, 1, 2, 2, 3])` picks one of these by index. */
  const EstimateChoices: seq<int> := [1, 1, 1, 2, 2, 3]

  /** A position in `EstimateChoices`. */
  type ChoiceIndex = i: nat | i < 6

  /** The draws one sensor may consume: the detection roll and those of either branch. */
  datatype SensorDraw = SensorDraw(
    roll: real,
    detectedSignal: real,
    confidenceJitter: real,
    estimateIndex: ChoiceIndex,
    idleSignal: real,
    idleConfidence: real)

  predicate ValidSensorDraw(d: SensorDraw) {
    && 0.0 <= d.roll < 1.0
    && 75.0 <= d.detectedSignal <= 90.0
    && -3.0 <= d.confidenceJitter <= 3.0
    && 15.0 <= d.idleSignal <= 40.0
    && 10.0 <= d.idleConfidence <= 30.0
  }

  /** The reading of LiDAR sensor `idx` of zone `z` when the detection probability is `probability`. */
  function VisitorReadingOf(ts: int, z: Zone, idx: nat, probability: real, d: SensorDraw): (r: VisitorReading)
    ensures r.timestamp == ts && r.sensorId == LidarId(z, idx) && r.zone == Name(z)
    ensures r.detectionActive <==> d.roll < probability
    ensures r.detectionActive <==> 1 <= r.visitorCountEstimate <= 3
    ensures !r.detectionActive ==> r.visitorCountEstimate == 0
    ensures ValidSensorDraw(d) && r.detectionActive ==>
      75.0 <= r.signalStrength <= 90.0 && 72.0 <= r.confidenceLevel <= 95.0
    ensures ValidSensorDraw(d) && !r.detectionActive ==>
      15.0 <= r.signalStrength <= 40.0 && 10.0 <= r.confidenceLevel <= 30.0
  {
    if d.roll < probability then
      VisitorReading(ts, LidarId(z, idx), Name(z), d.detectedSignal,
                     Min(95.0, d.detectedSignal + d.confidenceJitter), true,
                     EstimateChoices[d.estimateIndex])
    else
      VisitorReading(ts, LidarId(z, idx), Name(z), d.idleSignal, d.idleConfidence, false, 0)
  }

  /** Sum of the visitor estimates of `rs`, accumulated front to back. */
  function SumEstimates(rs: seq<VisitorReading>): int {
    if rs == [] then 0 else SumEstimates(rs[..|rs| - 1]) + rs[|rs| - 1].visitorCountEstimate
  }

  /** Appending a reading adds its estimate. */
  lemma SumEstimatesSnoc(rs: seq<VisitorReading>, r: VisitorReading)
    ensures SumEstimates(rs + [r]) == SumEstimates(rs) + r.visitorCountEstimate
  {
    assert (rs + [r])[..|rs|] == rs;
  }

  /** Sum of the visitor estimates of the readings of `rs` that belong to `zone`. */
  function ZoneEstimates(rs: seq<VisitorReading>, zone: string): int {
    if rs == [] then 0
    else ZoneEstimates(rs[..|rs| - 1], zone)
         + (if rs[|rs| - 1].zone == zone then rs[|rs| - 1].visitorCountEstimate else 0)
  }

  /**
   * When every reading belongs to one of the three zones, the total of the
   * estimates is the sum of the three per-zone totals.
   */
  lemma {:induction false} TotalIsSumOfZones(rs: seq<VisitorReading>)
    requires forall k :: 0 <= k < |rs| ==>
      rs[k].zone in {Name(EntranceClearing), Name(DeepForest), Name(Riverside)}
    ensures SumEstimates(rs) == ZoneEstimates(rs, Name(EntranceClearing))
                                + ZoneEstimates(rs, Name(DeepForest))
                                + ZoneEstimates(rs, Name(Riverside))
  {
    if rs != [] {
      TotalIsSumOfZones(rs[..|rs| - 1]);
    }
  }

  // ---------------------------------------------------------------------------
  // Engagement (installation_sim.py:401-431)

  /** The readings of `vs` from `zone` with an active detection, in input order. */
  function ActiveIn(vs: seq<VisitorReading>, zone: string): (a: seq<VisitorReading>)
    ensures |a| <= |vs|
    ensures forall i :: 0 <= i < |a| ==> a[i] in vs && a[i].zone == zone && a[i].detectionActive
    ensures forall v :: v in vs && v.zone == zone && v.detectionActive ==> v in a
  {
    if vs == [] then []
    else (if vs[0].zone == zone && vs[0].detectionActive then [vs[0]] else []) + ActiveIn(vs[1..], zone)
  }

  function SumConfidence(vs: seq<VisitorReading>): real {
    if vs == [] then 0.0 else vs[0].confidenceLevel + SumConfidence(vs[1..])
  }

  /**
   * Engagement of zone `z` from a list of visitor readings: the average
   * confidence of the zone's active detections sets the duration (at least
   * 5 s) and the score (at most 1); a zone without detections scores 0.
   */
  function EngagementOf(ts: int, z: Zone, vs: seq<VisitorReading>): (r: EngagementReading)
    ensures r.timestamp == ts && r.zone == Name(z)
    ensures ActiveIn(vs, Name(z)) == [] ==>
      r.averageEngagementDurationSec == 0.0 && r.engagementScore == 0.0
    ensures ActiveIn(vs, Name(z)) != [] ==>
      r.averageEngagementDurationSec >= 5.0 && r.engagementScore <= 1.0
  {
    var active := ActiveIn(vs, Name(z));
    if |active| > 0 then
      var avgConfidence := SumConfidence(active) / (|active| as real);
      EngagementReading(ts, Name(z), Max(5.0, avgConfidence / 100.0 * 300.0), Min(1.0, avgConfidence / 100.0))
    else
      EngagementReading(ts, Name(z), 0.0, 0.0)
  }

  /** A zone has no active readings exactly when none of its readings in `vs` detects anything. */
  lemma {:induction false} NoActiveIffNoDetection(vs: seq<VisitorReading>, zone: string)
    ensures ActiveIn(vs, zone) == [] <==> forall v :: v in vs && v.zone == zone ==> !v.detectionActive
  {
    var a := ActiveIn(vs, zone);
    if a != [] {
      assert a[0] in vs && a[0].zone == zone && a[0].detectionActive;
    }
  }

  lemma {:induction false} SumConfidenceBounds(vs: seq<VisitorReading>, lo: real, hi: real)
    requires forall i :: 0 <= i < |vs| ==> lo <= vs[i].confidenceLevel <= hi
    ensures (|vs| as real) * lo <= SumConfidence(vs) <= (|vs| as real) * hi
  {
    if vs != [] {
      SumConfidenceBounds(vs[1..], lo, hi);
    }
  }

  /**
   * For readings as the detector produces them (an active detection has
   * confidence in [72, 95]), a zone with detections scores in [0.72, 0.95]
   * and its duration is exactly 300 times its score.
   */
  lemma {:induction false} DetectedEngagementBounds(ts: int, z: Zone, vs: seq<VisitorReading>)
    requires forall v :: v in vs && v.detectionActive ==> 72.0 <= v.confidenceLevel <= 95.0
    requires ActiveIn(vs, Name(z)) != []
    ensures 0.72 <= EngagementOf(ts, z, vs).engagementScore <= 0.95
    ensures EngagementOf(ts, z, vs).averageEngagementDurationSec == 300.0 * EngagementOf(ts, z, vs).engagementScore
  {
    var active := ActiveIn(vs, Name(z));
    ActiveMeanConfidence(vs, Name(z));
    var avg := SumConfidence(active) / (|active| as real);
    var r := EngagementOf(ts, z, vs);
    assert r.engagementScore == Min(1.0, avg / 100.0);
    assert r.averageEngagementDurationSec == Max(5.0, avg / 100.0 * 300.0);
  }

  /** The mean confidence of a zone's active readings, when detections carry confidence in [72, 95]. */
  lemma {:induction false} ActiveMeanConfidence(vs: seq<VisitorReading>, zone: string)
    requires forall v :: v in vs && v.detectionActive ==> 72.0 <= v.confidenceLevel <= 95.0
    requires ActiveIn(vs, zone) != []
    ensures var a := ActiveIn(vs, zone);
            72.0 <= SumConfidence(a) / (|a| as real) <= 95.0
  {
    var active := ActiveIn(vs, zone);
    ActiveConfidences(vs, zone);
    SumConfidenceBounds(active, 72.0, 95.0);
    MeanBetween(SumConfidence(active), |active| as real, 72.0, 95.0);
  }

  lemma {:induction false} ActiveConfidences(vs: seq<VisitorReading>, zone: string)
    requires forall v :: v in vs && v.detectionActive ==> 72.0 <= v.confidenceLevel <= 95.0
    ensures var a := ActiveIn(vs, zone);
            forall i :: 0 <= i < |a| ==> 72.0 <= a[i].confidenceLevel <= 95.0
  {
    var active := ActiveIn(vs, zone);
    forall i | 0 <= i < |active| ensures 72.0 <= active[i].confidenceLevel <= 95.0 {
      assert active[i] in vs && active[i].detectionActive;
    }
  }

  // ---------------------------------------------------------------------------
  // Audio (installation_sim.py:298-333)

  /** `min(0.7, visitors * 0.15)`: the visitor share of the audio intensity. */
  function VisitorVolumeInfluence(visitors: int): (r: real)
    ensures r <= 0.7
    ensures visitors >= 0 ==> r >= 0.0
  {
    Min(0.7, (visitors as real) * 0.15)
  }

  /** 75 dB times the combined tree and visitor intensity. */
  function TargetVolume(visitors: int, treeIntensity: real): real {
    75.0 * (treeIntensity * 0.3 + VisitorVolumeInfluence(visitors))
  }

  /**
   * The speaker reading of zone `z`: the volume moves 30% of the way from the
   * zone's previous volume to the target, plus noise, and never drops below 0.
   */
  function AudioReadingOf(ts: int, z: Zone, lastVolume: Option<real>, visitors: int,
                          treeIntensity: real, noise: real): (r: AudioReading)
    ensures r.timestamp == ts && r.speakerId == SpeakerId(z) && r.zone == Name(z)
    ensures r.volumeDb >= 0.0
    ensures r.volumeDb > 0.0 ==> r.volumeDb == Smooth(lastVolume, TargetVolume(visitors, treeIntensity), 0.3) + noise
  {
    var volume := Smooth(lastVolume, TargetVolume(visitors, treeIntensity), 0.3);
    AudioReading(ts, SpeakerId(z), Name(z), Max(0.0, volume + noise))
  }

  /** More visitors or more tree movement never lower the volume, all else equal. */
  lemma VolumeMonotone(ts: int, z: Zone, last: Option<real>, v1: int, v2: int, t1: real, t2: real, noise: real)
    requires v1 <= v2 && t1 <= t2
    ensures AudioReadingOf(ts, z, last, v1, t1, noise).volumeDb <= AudioReadingOf(ts, z, last, v2, t2, noise).volumeDb
  {
    assert VisitorVolumeInfluence(v1) <= VisitorVolumeInfluence(v2);
    assert TargetVolume(v1, t1) <= TargetVolume(v2, t2);
    assert Smooth(last, TargetVolume(v1, t1), 0.3) <= Smooth(last, TargetVolume(v2, t2), 0.3);
  }

  // ---------------------------------------------------------------------------
  // Lighting (installation_sim.py:335-399)

  /**
   * Base lighting intensity by hour. The day test `6 <= hour <= 18` is made
   * first, so hour 18 belongs to the day and the evening value applies to
   * hours 19 to 22 only.
   */
  function TimeBase(hour: int): (b: real)
    ensures b == 0.2 <==> 6 <= hour <= 18
    ensures b == 0.6 <==> 19 <= hour <= 22
    ensures b == 0.3 <==> hour < 6 || hour > 22
  {
    if 6 <= hour <= 18 then 0.2
    else if 18 <= hour <= 22 then 0.6
    else 0.3
  }

  /** The overall lighting intensity factor, capped at 1. */
  function LightIntensity(hour: int, treeIntensity: real, visitors: int): (k: real)
    ensures k <= 1.0
    ensures treeIntensity >= 0.0 && visitors >= 0 ==> k >= 0.2
  {
    Min(1.0, TimeBase(hour) + treeIntensity * 0.2 + Min(0.6, (visitors as real) * 0.2))
  }

  datatype Rgb = Rgb(red: int, green: int, blue: int)

  /** Zone colour theme: warm white, mystic green, blue-green. */
  function BaseColor(z: Zone): Rgb {
    match z
    case Riverside => Rgb(50, 150, 200)
    case DeepForest => Rgb(80, 180, 30)
    case EntranceClearing => Rgb(200, 180, 120)
  }

  /** Per-visitor brightening of each channel. */
  function VisitorBoost(z: Zone): Rgb {
    match z
    case Riverside => Rgb(30, 25, 15)
    case DeepForest => Rgb(20, 25, 35)
    case EntranceClearing => Rgb(15, 15, 25)
  }

  /** Python's `int(x)` on a float: truncation toward zero. */
  function Trunc(x: real): (n: int)
    ensures x >= 0.0 ==> n as real <= x < n as real + 1.0
    ensures x < 0.0 ==> n as real - 1.0 < x <= n as real
  {
    if x >= 0.0 then x.Floor else -((-x).Floor)
  }

  /** `max(0, min(255, n))` */
  function ClampChannel(n: int): (c: int)
    ensures 0 <= c <= 255
    ensures 0 <= n <= 255 ==> c == n
  {
    if n > 255 then 255 else if n < 0 then 0 else n
  }

  /** A channel's unscaled value: theme base plus tree and visitor boosts. */
  function ColorValue(base: int, treeGain: real, boost: int, treeIntensity: real, visitors: int): real {
    (base as real) + treeIntensity * treeGain + (boost as real) * (visitors as real)
  }

  /** `max(0, min(255, int(value * k)))`: one LED channel. */
  function Channel(value: real, k: real): (c: int)
    ensures 0 <= c <= 255
  {
    ClampChannel(Trunc(value * k))
  }

  /** The LED reading of zone `z`. */
  function LightingOf(ts: int, z: Zone, hour: int, treeIntensity: real, visitors: int): (r: LightingReading)
    ensures r.timestamp == ts && r.ledId == LedId(z) && r.zone == Name(z)
    ensures ChannelsInRange(r)
  {
    var k := LightIntensity(hour, treeIntensity, visitors);
    var base := BaseColor(z);
    var boost := VisitorBoost(z);
    LightingReading(ts, LedId(z), Name(z),
                    Channel(ColorValue(base.red, 50.0, boost.red, treeIntensity, visitors), k),
                    Channel(ColorValue(base.green, 40.0, boost.green, treeIntensity, visitors), k),
                    Channel(ColorValue(base.blue, 35.0, boost.blue, treeIntensity, visitors), k))
  }

  predicate ChannelsInRange(r: LightingReading) {
    0 <= r.redIntensity <= 255 && 0 <= r.greenIntensity <= 255 && 0 <= r.blueIntensity <= 255
  }

  lemma TruncMonotone(x: real, y: real)
    requires x <= y
    ensures Trunc(x) <= Trunc(y)
  {
    if x >= 0.0 {
      assert x.Floor <= y.Floor;
    } else if y < 0.0 {
      assert (-y).Floor <= (-x).Floor;
    }
  }

  /** Scaling a non-negative colour value by a larger factor never lowers the channel. */
  lemma ChannelMonotone(c1: real, c2: real, k1: real, k2: real)
    requires 0.0 <= c1 <= c2 && 0.0 <= k1 <= k2
    ensures Channel(c1, k1) <= Channel(c2, k2)
  {
    MulMonotone(c1, c2, k1, k2);
    TruncMonotone(c1 * k1, c2 * k2);
  }

  lemma ColorValueMonotone(base: int, gain: real, boost: int, t1: real, t2: real, v1: int, v2: int)
    requires base >= 0 && gain >= 0.0 && boost >= 0
    requires 0.0 <= t1 <= t2 && 0 <= v1 <= v2
    ensures 0.0 <= ColorValue(base, gain, boost, t1, v1) <= ColorValue(base, gain, boost, t2, v2)
  {
    MulMonotone(t1, t2, gain, gain);
    MulMonotone(boost as real, boost as real, v1 as real, v2 as real);
  }

  /**
   * More visitors or more tree movement never dim any LED channel, all else
   * equal (tree intensity is a mean of magnitudes, hence non-negative).
   */
  lemma LightingMonotone(ts: int, z: Zone, hour: int, t1: real, t2: real, v1: int, v2: int)
    requires 0.0 <= t1 <= t2 && 0 <= v1 <= v2
    ensures LightingOf(ts, z, hour, t1, v1).redIntensity <= LightingOf(ts, z, hour, t2, v2).redIntensity
    ensures LightingOf(ts, z, hour, t1, v1).greenIntensity <= LightingOf(ts, z, hour, t2, v2).greenIntensity
    ensures LightingOf(ts, z, hour, t1, v1).blueIntensity <= LightingOf(ts, z, hour, t2, v2).blueIntensity
  {
    var k1 := LightIntensity(hour, t1, v1);
    var k2 := LightIntensity(hour, t2, v2);
    assert Min(0.6, (v1 as real) * 0.2) <= Min(0.6, (v2 as real) * 0.2);
    assert k1 <= k2;
    var base := BaseColor(z);
    var boost := VisitorBoost(z);
    ColorValueMonotone(base.red, 50.0, boost.red, t1, t2, v1, v2);
    ChannelMonotone(ColorValue(base.red, 50.0, boost.red, t1, v1), ColorValue(base.red, 50.0, boost.red, t2, v2), k1, k2);
    ColorValueMonotone(base.green, 40.0, boost.green, t1, t2, v1, v2);
    ChannelMonotone(ColorValue(base.green, 40.0, boost.green, t1, v1), ColorValue(base.green, 40.0, boost.green, t2, v2), k1, k2);
    ColorValueMonotone(base.blue, 35.0, boost.blue, t1, t2, v1, v2);
    ChannelMonotone(ColorValue(base.blue, 35.0, boost.blue, t1, v1), ColorValue(base.blue, 35.0, boost.blue, t2, v2), k1, k2);
  }

  // ---------------------------------------------------------------------------
  // Power estimate (installation_sim.py:454-457)

  /** `(r + g + b) / 3 * 0.2` watts for one LED. */
  function LedPower(r: LightingReading): real {
    ((r.redIntensity + r.greenIntensity + r.blueIntensity) as real) / 3.0 * 0.2
  }

  function LightingPower(ls: seq<LightingReading>): real {
    if ls == [] then 0.0 else LightingPower(ls[..|ls| - 1]) + LedPower(ls[|ls| - 1])
  }

  /** About 30 W per speaker, the LED term, and 100 W of base load. */
  function TotalPower(speakers: nat, ls: seq<LightingReading>): real {
    (speakers * 30) as real + LightingPower(ls) + 100.0
  }

  /** With every channel in [0, 255], each LED draws between 0 and 51 W. */
  lemma {:induction false} LightingPowerBounds(ls: seq<LightingReading>)
    requires forall i :: 0 <= i < |ls| ==> ChannelsInRange(ls[i])
    ensures 0.0 <= LightingPower(ls) <= 51.0 * (|ls| as real)
  {
    if ls != [] {
      LightingPowerBounds(ls[..|ls| - 1]);
    }
  }
}
