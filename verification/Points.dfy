/**
 * The conversion of a simulator dataset into InfluxDB points
 * (influx_bridge.py, the `convert_*_to_points` methods and
 * `convert_dataset_to_influx_points`).
 *
 * A point is a measurement name, string tags, typed fields and a time. Every
 * reading becomes one point and every reading field reaches the point, as a
 * tag or a field, so each category converter has a decoder that reads the
 * readings back. The dataset converter emits the categories in a fixed order
 * and appends one `system_metadata` point when the dataset has metadata.
 */
module InfluxPoints {
  import opened Common
  import opened Zones
  import opened Records
  import opened Sequences

  /** The value types the bridge writes: `float(...)`, `int(...)` and the detection flag. */
  datatype FieldValue = FloatField(r: real) | IntField(i: int) | BoolField(b: bool)

  /** The measurements the bridge writes, one per dataset category and one for the metadata. */
  datatype Measurement =
    | Environmental | TreeBiometrics | VisitorDetection | UserEngagement | AudioSystem | LightingSystem
    | SystemMetadata

  /** The measurement's name in the database. */
  function MeasurementName(m: Measurement): string {
    match m
    case Environmental => "environmental"
    case TreeBiometrics => "tree_biometrics"
    case VisitorDetection => "visitor_detection"
    case UserEngagement => "user_engagement"
    case AudioSystem => "audio_system"
    case LightingSystem => "lighting_system"
    case SystemMetadata => "system_metadata"
  }

  /** Distinct measurements are written under distinct names. */
  lemma {:induction false} MeasurementNameInjective(m1: Measurement, m2: Measurement)
    requires MeasurementName(m1) == MeasurementName(m2)
    ensures m1 == m2
  {
    var n1, n2 := MeasurementName(m1), MeasurementName(m2);
    assert n1[0] == n2[0] && |n1| == |n2|;
  }

  /** `Point(measurement).tag(...).field(...).time(t)` */
  datatype Point = Point(
    measurement: Measurement,
    tags: map<string, string>,
    fields: map<string, FieldValue>,
    time: int)

  // ---------------------------------------------------------------------------
  // One point per reading (influx_bridge.py:89-195)

  function EnvironmentalPoint(r: EnvironmentalReading): Point {
    Point(Environmental,
          map["zone" := r.zone, "measurement_type" := "weather"],
          map["temperature_c" := FloatField(r.temperatureC), "humidity_percent" := FloatField(r.humidityPercent)],
          r.timestamp)
  }

  function TreePoint(r: TreeReading): Point {
    Point(TreeBiometrics,
          map["tree_id" := r.treeId],
          map["strain_x_mm" := FloatField(r.strainXmm), "strain_y_mm" := FloatField(r.strainYmm)],
          r.timestamp)
  }

  function VisitorPoint(r: VisitorReading): Point {
    Point(VisitorDetection,
          map["sensor_id" := r.sensorId, "zone" := r.zone, "sensor_type" := "tf_mini_lidar"],
          map["signal_strength" := FloatField(r.signalStrength),
              "confidence_level" := FloatField(r.confidenceLevel),
              "detection_active" := BoolField(r.detectionActive),
              "visitor_count_estimate" := IntField(r.visitorCountEstimate)],
          r.timestamp)
  }

  function EngagementPoint(r: EngagementReading): Point {
    Point(UserEngagement,
          map["zone" := r.zone],
          map["average_engagement_duration_sec" := FloatField(r.averageEngagementDurationSec),
              "engagement_score" := FloatField(r.engagementScore)],
          r.timestamp)
  }

  function AudioPoint(r: AudioReading): Point {
    Point(AudioSystem,
          map["speaker_id" := r.speakerId, "zone" := r.zone],
          map["volume_db" := FloatField(r.volumeDb)],
          r.timestamp)
  }

  function LightingPoint(r: LightingReading): Point {
    Point(LightingSystem,
          map["led_id" := r.ledId, "zone" := r.zone],
          map["red_intensity" := IntField(r.redIntensity),
              "green_intensity" := IntField(r.greenIntensity),
              "blue_intensity" := IntField(r.blueIntensity)],
          r.timestamp)
  }

  // ---------------------------------------------------------------------------
  // Reading a point back

  /** The float stored under `key`, if the point has one. */
  function FloatAt(p: Point, key: string): Option<real> {
    if key in p.fields && p.fields[key].FloatField? then Some(p.fields[key].r) else None
  }

  /** The integer stored under `key`, if the point has one. */
  function IntAt(p: Point, key: string): Option<int> {
    if key in p.fields && p.fields[key].IntField? then Some(p.fields[key].i) else None
  }

  /** The flag stored under `key`, if the point has one. */
  function BoolAt(p: Point, key: string): Option<bool> {
    if key in p.fields && p.fields[key].BoolField? then Some(p.fields[key].b) else None
  }

  function EnvironmentalOfPoint(p: Point): Option<EnvironmentalReading> {
    if p.measurement == Environmental && "zone" in p.tags
       && FloatAt(p, "temperature_c").Some? && FloatAt(p, "humidity_percent").Some?
    then Some(EnvironmentalReading(p.time, p.tags["zone"], FloatAt(p, "temperature_c").value,
                                   FloatAt(p, "humidity_percent").value))
    else None
  }

  function TreeOfPoint(p: Point): Option<TreeReading> {
    if p.measurement == TreeBiometrics && "tree_id" in p.tags
       && FloatAt(p, "strain_x_mm").Some? && FloatAt(p, "strain_y_mm").Some?
    then Some(TreeReading(p.time, p.tags["tree_id"], FloatAt(p, "strain_x_mm").value, FloatAt(p, "strain_y_mm").value))
    else None
  }

  function VisitorOfPoint(p: Point): Option<VisitorReading> {
    if p.measurement == VisitorDetection && "sensor_id" in p.tags && "zone" in p.tags
       && FloatAt(p, "signal_strength").Some? && FloatAt(p, "confidence_level").Some?
       && BoolAt(p, "detection_active").Some? && IntAt(p, "visitor_count_estimate").Some?
    then Some(VisitorReading(p.time, p.tags["sensor_id"], p.tags["zone"], FloatAt(p, "signal_strength").value,
                             FloatAt(p, "confidence_level").value, BoolAt(p, "detection_active").value,
                             IntAt(p, "visitor_count_estimate").value))
    else None
  }

  function EngagementOfPoint(p: Point): Option<EngagementReading> {
    if p.measurement == UserEngagement && "zone" in p.tags
       && FloatAt(p, "average_engagement_duration_sec").Some? && FloatAt(p, "engagement_score").Some?
    then Some(EngagementReading(p.time, p.tags["zone"], FloatAt(p, "average_engagement_duration_sec").value,
                                FloatAt(p, "engagement_score").value))
    else None
  }

  function AudioOfPoint(p: Point): Option<AudioReading> {
    if p.measurement == AudioSystem && "speaker_id" in p.tags && "zone" in p.tags && FloatAt(p, "volume_db").Some?
    then Some(AudioReading(p.time, p.tags["speaker_id"], p.tags["zone"], FloatAt(p, "volume_db").value))
    else None
  }

  function LightingOfPoint(p: Point): Option<LightingReading> {
    if p.measurement == LightingSystem && "led_id" in p.tags && "zone" in p.tags
       && IntAt(p, "red_intensity").Some? && IntAt(p, "green_intensity").Some? && IntAt(p, "blue_intensity").Some?
    then Some(LightingReading(p.time, p.tags["led_id"], p.tags["zone"], IntAt(p, "red_intensity").value,
                              IntAt(p, "green_intensity").value, IntAt(p, "blue_intensity").value))
    else None
  }

  /** Every field of an environmental reading reaches its point: the point reads back as the reading. */
  lemma {:induction false} EnvironmentalPointRoundTrip(r: EnvironmentalReading)
    ensures EnvironmentalOfPoint(EnvironmentalPoint(r)) == Some(r)
    ensures var p := EnvironmentalPoint(r);
            && p.tags.Keys == {"zone", "measurement_type"} && p.tags["measurement_type"] == "weather"
            && p.fields.Keys == {"temperature_c", "humidity_percent"}
  {
    var p := EnvironmentalPoint(r);
    assert "zone" in p.tags;
    assert FloatAt(p, "temperature_c") == Some(r.temperatureC);
    assert FloatAt(p, "humidity_percent") == Some(r.humidityPercent);
  }

  lemma {:induction false} TreePointRoundTrip(r: TreeReading)
    ensures TreeOfPoint(TreePoint(r)) == Some(r)
    ensures TreePoint(r).tags.Keys == {"tree_id"} && TreePoint(r).fields.Keys == {"strain_x_mm", "strain_y_mm"}
  {
    var p := TreePoint(r);
    assert FloatAt(p, "strain_x_mm") == Some(r.strainXmm);
    assert FloatAt(p, "strain_y_mm") == Some(r.strainYmm);
  }

  lemma {:induction false} VisitorPointRoundTrip(r: VisitorReading)
    ensures VisitorOfPoint(VisitorPoint(r)) == Some(r)
    ensures var p := VisitorPoint(r);
            && p.tags.Keys == {"sensor_id", "zone", "sensor_type"} && p.tags["sensor_type"] == "tf_mini_lidar"
            && p.fields.Keys == {"signal_strength", "confidence_level", "detection_active", "visitor_count_estimate"}
  {
    var p := VisitorPoint(r);
    assert "sensor_id" in p.tags && "zone" in p.tags;
    assert p.tags["zone"] == r.zone;
    assert FloatAt(p, "signal_strength") == Some(r.signalStrength);
    assert FloatAt(p, "confidence_level") == Some(r.confidenceLevel);
    assert BoolAt(p, "detection_active") == Some(r.detectionActive);
    assert IntAt(p, "visitor_count_estimate") == Some(r.visitorCountEstimate);
  }

  lemma {:induction false} EngagementPointRoundTrip(r: EngagementReading)
    ensures EngagementOfPoint(EngagementPoint(r)) == Some(r)
    ensures var p := EngagementPoint(r);
            p.tags.Keys == {"zone"} && p.fields.Keys == {"average_engagement_duration_sec", "engagement_score"}
  {
    var p := EngagementPoint(r);
    assert FloatAt(p, "average_engagement_duration_sec") == Some(r.averageEngagementDurationSec);
    assert FloatAt(p, "engagement_score") == Some(r.engagementScore);
  }

  lemma {:induction false} AudioPointRoundTrip(r: AudioReading)
    ensures AudioOfPoint(AudioPoint(r)) == Some(r)
    ensures AudioPoint(r).tags.Keys == {"speaker_id", "zone"} && AudioPoint(r).fields.Keys == {"volume_db"}
  {
    var p := AudioPoint(r);
    assert "speaker_id" in p.tags && "zone" in p.tags;
    assert p.tags["speaker_id"] == r.speakerId;
    assert FloatAt(p, "volume_db") == Some(r.volumeDb);
  }

  lemma {:induction false} LightingPointRoundTrip(r: LightingReading)
    ensures LightingOfPoint(LightingPoint(r)) == Some(r)
    ensures var p := LightingPoint(r);
            p.tags.Keys == {"led_id", "zone"} && p.fields.Keys == {"red_intensity", "green_intensity", "blue_intensity"}
  {
    var p := LightingPoint(r);
    assert "led_id" in p.tags && "zone" in p.tags;
    assert p.tags["led_id"] == r.ledId;
    assert IntAt(p, "red_intensity") == Some(r.redIntensity);
    assert IntAt(p, "green_intensity") == Some(r.greenIntensity);
    assert IntAt(p, "blue_intensity") == Some(r.blueIntensity);
  }

  // ---------------------------------------------------------------------------
  // Category converters: one point per reading, in input order

  function ConvertEnvironmental(rs: seq<EnvironmentalReading>): (ps: seq<Point>)
    ensures |ps| == |rs|
    ensures forall i :: 0 <= i < |rs| ==> ps[i] == EnvironmentalPoint(rs[i])
  {
    Map(EnvironmentalPoint, rs)
  }

  function ConvertTrees(rs: seq<TreeReading>): (ps: seq<Point>)
    ensures |ps| == |rs|
    ensures forall i :: 0 <= i < |rs| ==> ps[i] == TreePoint(rs[i])
  {
    Map(TreePoint, rs)
  }

  function ConvertVisitors(rs: seq<VisitorReading>): (ps: seq<Point>)
    ensures |ps| == |rs|
    ensures forall i :: 0 <= i < |rs| ==> ps[i] == VisitorPoint(rs[i])
  {
    Map(VisitorPoint, rs)
  }

  function ConvertEngagement(rs: seq<EngagementReading>): (ps: seq<Point>)
    ensures |ps| == |rs|
    ensures forall i :: 0 <= i < |rs| ==> ps[i] == EngagementPoint(rs[i])
  {
    Map(EngagementPoint, rs)
  }

  function ConvertAudio(rs: seq<AudioReading>): (ps: seq<Point>)
    ensures |ps| == |rs|
    ensures forall i :: 0 <= i < |rs| ==> ps[i] == AudioPoint(rs[i])
  {
    Map(AudioPoint, rs)
  }

  function ConvertLighting(rs: seq<LightingReading>): (ps: seq<Point>)
    ensures |ps| == |rs|
    ensures forall i :: 0 <= i < |rs| ==> ps[i] == LightingPoint(rs[i])
  {
    Map(LightingPoint, rs)
  }

  /**
   * The environmental converter loses nothing and keeps the order: decoding
   * its points gives back exactly the readings. Every point is an
   * `environmental` measurement tagged `measurement_type=weather`, stamped
   * with its reading's time.
   */
  lemma {:induction false} ConvertEnvironmentalRoundTrip(rs: seq<EnvironmentalReading>)
    ensures TryMap(EnvironmentalOfPoint, ConvertEnvironmental(rs)) == Some(rs)
  {
    forall r: EnvironmentalReading ensures EnvironmentalOfPoint(EnvironmentalPoint(r)) == Some(r) {
      EnvironmentalPointRoundTrip(r);
    }
    MapThenTryMap(EnvironmentalPoint, EnvironmentalOfPoint, rs);
  }

  /** Tree points carry the tree id as their only tag and both strains as floats. */
  lemma {:induction false} ConvertTreesRoundTrip(rs: seq<TreeReading>)
    ensures TryMap(TreeOfPoint, ConvertTrees(rs)) == Some(rs)
  {
    forall r: TreeReading ensures TreeOfPoint(TreePoint(r)) == Some(r) {
      TreePointRoundTrip(r);
    }
    MapThenTryMap(TreePoint, TreeOfPoint, rs);
  }

  /**
   * LiDAR points are tagged with the sensor, the zone and `sensor_type=tf_mini_lidar`;
   * the detection flag stays a boolean and the visitor estimate an integer.
   */
  lemma {:induction false} ConvertVisitorsRoundTrip(rs: seq<VisitorReading>)
    ensures TryMap(VisitorOfPoint, ConvertVisitors(rs)) == Some(rs)
  {
    forall r: VisitorReading ensures VisitorOfPoint(VisitorPoint(r)) == Some(r) {
      VisitorPointRoundTrip(r);
    }
    MapThenTryMap(VisitorPoint, VisitorOfPoint, rs);
  }

  lemma {:induction false} ConvertEngagementRoundTrip(rs: seq<EngagementReading>)
    ensures TryMap(EngagementOfPoint, ConvertEngagement(rs)) == Some(rs)
  {
    forall r: EngagementReading ensures EngagementOfPoint(EngagementPoint(r)) == Some(r) {
      EngagementPointRoundTrip(r);
    }
    MapThenTryMap(EngagementPoint, EngagementOfPoint, rs);
  }

  lemma {:induction false} ConvertAudioRoundTrip(rs: seq<AudioReading>)
    ensures TryMap(AudioOfPoint, ConvertAudio(rs)) == Some(rs)
  {
    forall r: AudioReading ensures AudioOfPoint(AudioPoint(r)) == Some(r) {
      AudioPointRoundTrip(r);
    }
    MapThenTryMap(AudioPoint, AudioOfPoint, rs);
  }

  /** LED points keep the three colour channels as integers. */
  lemma {:induction false} ConvertLightingRoundTrip(rs: seq<LightingReading>)
    ensures TryMap(LightingOfPoint, ConvertLighting(rs)) == Some(rs)
  {
    forall r: LightingReading ensures LightingOfPoint(LightingPoint(r)) == Some(r) {
      LightingPointRoundTrip(r);
    }
    MapThenTryMap(LightingPoint, LightingOfPoint, rs);
  }

  // ---------------------------------------------------------------------------
  // The whole dataset (influx_bridge.py:197-255)

  /** `metadata.get("stats", {})`: an absent stats block reads as one with every key missing. */
  const NoStats: StatsBlock := StatsBlock(None, None, None, None)

  /**
   * The `system_metadata` point: the weather pattern as a tag ("unknown" when
   * absent) and three stats as fields, each 0 when absent.
   */
  function MetadataPoint(m: Metadata, ts: int): Point {
    var stats := m.stats.GetOr(NoStats);
    Point(SystemMetadata,
          map["weather_pattern" := m.weatherPattern.GetOr("unknown")],
          map["total_visitors_detected" := IntField(stats.totalVisitorsDetected.GetOr(0)),
              "total_power_consumption" := FloatField(stats.totalPowerConsumption.GetOr(0.0)),
              "average_tree_movement" := FloatField(stats.averageTreeMovement.GetOr(0.0))],
          ts)
  }

  /** The user engagement list, present only inside the metadata. */
  function EngagementOfDataset(ds: Dataset): Option<seq<EngagementReading>> {
    if ds.metadata.Some? then ds.metadata.value.userEngagement else None
  }

  /** The points of the categories the dataset holds, in the converter's order. */
  function ReadingPoints(ds: Dataset): seq<Point> {
    ConvertEnvironmental(ds.environmental.GetOr([]))
    + ConvertTrees(ds.treeBiometrics.GetOr([]))
    + ConvertVisitors(ds.visitorDetection.GetOr([]))
    + ConvertEngagement(EngagementOfDataset(ds).GetOr([]))
    + ConvertAudio(ds.audioSystem.GetOr([]))
    + ConvertLighting(ds.lightingSystem.GetOr([]))
  }

  /**
   * `convert_dataset_to_influx_points`: the reading points, then the metadata
   * point. The one failure is a metadata block without a timestamp, where
   * `metadata["timestamp"]` raises.
   */
  function ConvertDataset(ds: Dataset): (r: Result<seq<Point>>)
    ensures r.Err? <==> ds.metadata.Some? && ds.metadata.value.timestamp.None?
  {
    match ds.metadata
    case None => Ok(ReadingPoints(ds))
    case Some(m) =>
      match m.timestamp
      case None => Err("KeyError: 'timestamp'")
      case Some(ts) => Ok(ReadingPoints(ds) + [MetadataPoint(m, ts)])
  }

  /** Number of readings of an optional category; an absent key contributes none. */
  function CountOf<R>(c: Option<seq<R>>): nat {
    |c.GetOr([])|
  }

  /** One point per reading of every category present, plus one for the metadata. */
  lemma {:induction false} ConvertDatasetCount(ds: Dataset)
    requires ConvertDataset(ds).Ok?
    ensures |ConvertDataset(ds).value|
            == CountOf(ds.environmental) + CountOf(ds.treeBiometrics) + CountOf(ds.visitorDetection)
               + CountOf(EngagementOfDataset(ds)) + CountOf(ds.audioSystem) + CountOf(ds.lightingSystem)
               + (if ds.metadata.Some? then 1 else 0)
  {
    var readings := CountOf(ds.environmental) + CountOf(ds.treeBiometrics) + CountOf(ds.visitorDetection)
                    + CountOf(EngagementOfDataset(ds)) + CountOf(ds.audioSystem) + CountOf(ds.lightingSystem);
    assert |ReadingPoints(ds)| == readings;
  }

  /** The metadata point is appended after every reading point and carries the metadata's timestamp. */
  lemma {:induction false} ConvertDatasetMetadataLast(ds: Dataset)
    requires ConvertDataset(ds).Ok? && ds.metadata.Some?
    ensures var ps := ConvertDataset(ds).value;
            && |ps| >= 1 && ps[..|ps| - 1] == ReadingPoints(ds)
            && ps[|ps| - 1] == MetadataPoint(ds.metadata.value, ds.metadata.value.timestamp.value)
            && ps[|ps| - 1].time == ds.metadata.value.timestamp.value
  {
    var ps := ConvertDataset(ds).value;
    assert ps == ReadingPoints(ds) + [MetadataPoint(ds.metadata.value, ds.metadata.value.timestamp.value)];
  }

  /**
   * The metadata point: the weather pattern, or "unknown" when the metadata
   * has none, and the three stats, each 0 when the stats block or the key is
   * missing.
   */
  lemma {:induction false} MetadataPointDefaults(m: Metadata, ts: int)
    ensures var p := MetadataPoint(m, ts);
            && p.measurement == SystemMetadata && p.time == ts
            && p.tags.Keys == {"weather_pattern"}
            && p.tags["weather_pattern"] == (if m.weatherPattern.Some? then m.weatherPattern.value else "unknown")
            && p.fields.Keys == {"total_visitors_detected", "total_power_consumption", "average_tree_movement"}
    ensures var p := MetadataPoint(m, ts);
            && (m.stats.None? ==>
                  && p.fields["total_visitors_detected"] == IntField(0)
                  && p.fields["total_power_consumption"] == FloatField(0.0)
                  && p.fields["average_tree_movement"] == FloatField(0.0))
            && (m.stats.Some? ==>
                  var st := m.stats.value;
                  && p.fields["total_visitors_detected"]
                     == IntField(if st.totalVisitorsDetected.Some? then st.totalVisitorsDetected.value else 0)
                  && p.fields["total_power_consumption"]
                     == FloatField(if st.totalPowerConsumption.Some? then st.totalPowerConsumption.value else 0.0)
                  && p.fields["average_tree_movement"]
                     == FloatField(if st.averageTreeMovement.Some? then st.averageTreeMovement.value else 0.0))
  {
  }

  // ---------------------------------------------------------------------------
  // Category order

  /** Position of a measurement in the converter's output order. */
  function Rank(m: Measurement): nat {
    match m
    case Environmental => 0
    case TreeBiometrics => 1
    case VisitorDetection => 2
    case UserEngagement => 3
    case AudioSystem => 4
    case LightingSystem => 5
    case SystemMetadata => 6
  }

  /** The points of `ps` whose measurement is `m`, in their order. */
  function Measured(ps: seq<Point>, m: Measurement): (r: seq<Point>)
    ensures |r| <= |ps|
  {
    if ps == [] then []
    else Measured(ps[..|ps| - 1], m) + (if ps[|ps| - 1].measurement == m then [ps[|ps| - 1]] else [])
  }

  lemma {:induction false} MeasuredAppend(a: seq<Point>, b: seq<Point>, m: Measurement)
    ensures Measured(a + b, m) == Measured(a, m) + Measured(b, m)
  {
    if b != [] {
      assert (a + b)[..|a + b| - 1] == a + b[..|b| - 1];
      MeasuredAppend(a, b[..|b| - 1], m);
    } else {
      assert a + b == a;
    }
  }

  /** A run of points that all share one measurement is kept whole by its own name and dropped by any other. */
  lemma {:induction false} MeasuredUniform(ps: seq<Point>, m0: Measurement, m: Measurement)
    requires forall i :: 0 <= i < |ps| ==> ps[i].measurement == m0
    ensures Measured(ps, m) == if m == m0 then ps else []
  {
    if ps != [] {
      MeasuredUniform(ps[..|ps| - 1], m0, m);
      if m == m0 {
        assert ps[..|ps| - 1] + [ps[|ps| - 1]] == ps;
      }
    }
  }

  predicate RanksNonDecreasing(ps: seq<Point>) {
    forall i, j :: 0 <= i <= j < |ps| ==> Rank(ps[i].measurement) <= Rank(ps[j].measurement)
  }

  predicate RanksAtMost(ps: seq<Point>, k: nat) {
    forall i :: 0 <= i < |ps| ==> Rank(ps[i].measurement) <= k
  }

  /** Appending a run of rank `k` to points of rank at most `k` keeps the ranks in order. */
  lemma {:induction false} AppendRun(a: seq<Point>, b: seq<Point>, k: nat)
    requires RanksNonDecreasing(a) && RanksAtMost(a, k)
    requires forall i :: 0 <= i < |b| ==> Rank(b[i].measurement) == k
    ensures RanksNonDecreasing(a + b) && RanksAtMost(a + b, k)
  {
    forall i, j | 0 <= i <= j < |a + b|
      ensures Rank((a + b)[i].measurement) <= Rank((a + b)[j].measurement)
    {
      if j < |a| {
        assert (a + b)[i] == a[i] && (a + b)[j] == a[j];
      } else if i < |a| {
        assert (a + b)[i] == a[i] && (a + b)[j] == b[j - |a|];
      } else {
        assert (a + b)[i] == b[i - |a|] && (a + b)[j] == b[j - |a|];
      }
    }
  }

  /** The points the converter produces for one measurement, as that category's converter emits them. */
  function Block(ds: Dataset, m: Measurement): seq<Point> {
    match m
    case Environmental => ConvertEnvironmental(ds.environmental.GetOr([]))
    case TreeBiometrics => ConvertTrees(ds.treeBiometrics.GetOr([]))
    case VisitorDetection => ConvertVisitors(ds.visitorDetection.GetOr([]))
    case UserEngagement => ConvertEngagement(EngagementOfDataset(ds).GetOr([]))
    case AudioSystem => ConvertAudio(ds.audioSystem.GetOr([]))
    case LightingSystem => ConvertLighting(ds.lightingSystem.GetOr([]))
    case SystemMetadata =>
      if ds.metadata.Some? && ds.metadata.value.timestamp.Some?
      then [MetadataPoint(ds.metadata.value, ds.metadata.value.timestamp.value)]
      else []
  }

  /** Every point of `ps` is of measurement `m`. */
  predicate AllOf(ps: seq<Point>, m: Measurement) {
    forall i :: 0 <= i < |ps| ==> ps[i].measurement == m
  }

  /** Every point of a block carries the block's measurement. */
  lemma {:induction false} BlockUniform(ds: Dataset, m: Measurement)
    ensures AllOf(Block(ds, m), m)
  {
    var b := Block(ds, m);
    forall i | 0 <= i < |b| ensures b[i].measurement == m {
      match m
      case Environmental => assert b[i] == EnvironmentalPoint(ds.environmental.GetOr([])[i]);
      case TreeBiometrics => assert b[i] == TreePoint(ds.treeBiometrics.GetOr([])[i]);
      case VisitorDetection => assert b[i] == VisitorPoint(ds.visitorDetection.GetOr([])[i]);
      case UserEngagement => assert b[i] == EngagementPoint(EngagementOfDataset(ds).GetOr([])[i]);
      case AudioSystem => assert b[i] == AudioPoint(ds.audioSystem.GetOr([])[i]);
      case LightingSystem => assert b[i] == LightingPoint(ds.lightingSystem.GetOr([])[i]);
      case SystemMetadata =>
    }
  }

  /** The reading points are the six reading blocks, one after the other. */
  lemma {:induction false} ReadingPointsAreBlocks(ds: Dataset)
    ensures ReadingPoints(ds)
            == Block(ds, Environmental) + Block(ds, TreeBiometrics) + Block(ds, VisitorDetection)
               + Block(ds, UserEngagement) + Block(ds, AudioSystem) + Block(ds, LightingSystem)
  {
    assert Block(ds, Environmental) == ConvertEnvironmental(ds.environmental.GetOr([]));
    assert Block(ds, TreeBiometrics) == ConvertTrees(ds.treeBiometrics.GetOr([]));
    assert Block(ds, VisitorDetection) == ConvertVisitors(ds.visitorDetection.GetOr([]));
    assert Block(ds, UserEngagement) == ConvertEngagement(EngagementOfDataset(ds).GetOr([]));
    assert Block(ds, AudioSystem) == ConvertAudio(ds.audioSystem.GetOr([]));
    assert Block(ds, LightingSystem) == ConvertLighting(ds.lightingSystem.GetOr([]));
  }

  /** The converter's output is the seven blocks, one after the other. */
  lemma {:induction false} ConvertDatasetIsBlocks(ds: Dataset)
    requires ConvertDataset(ds).Ok?
    ensures ConvertDataset(ds).value
            == Block(ds, Environmental) + Block(ds, TreeBiometrics) + Block(ds, VisitorDetection)
               + Block(ds, UserEngagement) + Block(ds, AudioSystem) + Block(ds, LightingSystem)
               + Block(ds, SystemMetadata)
  {
    ReadingPointsAreBlocks(ds);
    var readings := ReadingPoints(ds);
    if ds.metadata.None? {
      assert ConvertDataset(ds).value == readings;
      assert Block(ds, SystemMetadata) == [];
      assert readings + [] == readings;
    } else {
      var m := ds.metadata.value;
      assert ConvertDataset(ds).value == readings + [MetadataPoint(m, m.timestamp.value)];
      assert Block(ds, SystemMetadata) == [MetadataPoint(m, m.timestamp.value)];
    }
  }

  /** Seven runs, one per measurement in rank order, make a sequence whose ranks never decrease. */
  lemma {:induction false} RunsOrdered(b0: seq<Point>, b1: seq<Point>, b2: seq<Point>, b3: seq<Point>, b4: seq<Point>,
                    b5: seq<Point>, b6: seq<Point>)
    requires AllOf(b0, Environmental) && AllOf(b1, TreeBiometrics) && AllOf(b2, VisitorDetection)
    requires AllOf(b3, UserEngagement) && AllOf(b4, AudioSystem) && AllOf(b5, LightingSystem)
    requires AllOf(b6, SystemMetadata)
    ensures RanksNonDecreasing(b0 + b1 + b2 + b3 + b4 + b5 + b6)
  {
    AppendRun([], b0, 0);
    assert [] + b0 == b0;
    AppendRun(b0, b1, 1);
    AppendRun(b0 + b1, b2, 2);
    AppendRun(b0 + b1 + b2, b3, 3);
    AppendRun(b0 + b1 + b2 + b3, b4, 4);
    AppendRun(b0 + b1 + b2 + b3 + b4, b5, 5);
    AppendRun(b0 + b1 + b2 + b3 + b4 + b5, b6, 6);
  }

  /**
   * The categories come out in a fixed order: environmental, tree, visitor,
   * engagement, audio, lighting, then the metadata point.
   */
  lemma {:induction false} ConvertDatasetOrdered(ds: Dataset)
    requires ConvertDataset(ds).Ok?
    ensures RanksNonDecreasing(ConvertDataset(ds).value)
  {
    ConvertDatasetIsBlocks(ds);
    BlockUniform(ds, Environmental);
    BlockUniform(ds, TreeBiometrics);
    BlockUniform(ds, VisitorDetection);
    BlockUniform(ds, UserEngagement);
    BlockUniform(ds, AudioSystem);
    BlockUniform(ds, LightingSystem);
    BlockUniform(ds, SystemMetadata);
    RunsOrdered(Block(ds, Environmental), Block(ds, TreeBiometrics), Block(ds, VisitorDetection),
                Block(ds, UserEngagement), Block(ds, AudioSystem), Block(ds, LightingSystem),
                Block(ds, SystemMetadata));
  }

  /** Appending a run of one measurement adds the run to that measurement's points and leaves the others alone. */
  lemma {:induction false} MeasuredAppendRun(a: seq<Point>, b: seq<Point>, m0: Measurement, m: Measurement)
    requires AllOf(b, m0)
    ensures m == m0 ==> Measured(a + b, m) == Measured(a, m) + b
    ensures m != m0 ==> Measured(a + b, m) == Measured(a, m)
  {
    MeasuredAppend(a, b, m);
    MeasuredUniform(b, m0, m);
    if m != m0 {
      assert Measured(a, m) + [] == Measured(a, m);
    }
  }

  /** Of seven runs, one per measurement in rank order, filtering by a measurement keeps exactly its run. */
  lemma {:induction false} MeasuredOfRuns(b0: seq<Point>, b1: seq<Point>, b2: seq<Point>, b3: seq<Point>, b4: seq<Point>,
                       b5: seq<Point>, b6: seq<Point>, m: Measurement)
    requires AllOf(b0, Environmental) && AllOf(b1, TreeBiometrics) && AllOf(b2, VisitorDetection)
    requires AllOf(b3, UserEngagement) && AllOf(b4, AudioSystem) && AllOf(b5, LightingSystem)
    requires AllOf(b6, SystemMetadata)
    ensures var all := b0 + b1 + b2 + b3 + b4 + b5 + b6;
            && (m == Environmental ==> Measured(all, m) == b0)
            && (m == TreeBiometrics ==> Measured(all, m) == b1)
            && (m == VisitorDetection ==> Measured(all, m) == b2)
            && (m == UserEngagement ==> Measured(all, m) == b3)
            && (m == AudioSystem ==> Measured(all, m) == b4)
            && (m == LightingSystem ==> Measured(all, m) == b5)
            && (m == SystemMetadata ==> Measured(all, m) == b6)
  {
    MeasuredUniform(b0, Environmental, m);
    MeasuredAppendRun(b0, b1, TreeBiometrics, m);
    MeasuredAppendRun(b0 + b1, b2, VisitorDetection, m);
    MeasuredAppendRun(b0 + b1 + b2, b3, UserEngagement, m);
    MeasuredAppendRun(b0 + b1 + b2 + b3, b4, AudioSystem, m);
    MeasuredAppendRun(b0 + b1 + b2 + b3 + b4, b5, LightingSystem, m);
    MeasuredAppendRun(b0 + b1 + b2 + b3 + b4 + b5, b6, SystemMetadata, m);
    match m
    case Environmental =>
    case TreeBiometrics => assert [] + b1 == b1;
    case VisitorDetection => assert [] + b2 == b2;
    case UserEngagement => assert [] + b3 == b3;
    case AudioSystem => assert [] + b4 == b4;
    case LightingSystem => assert [] + b5 == b5;
    case SystemMetadata => assert [] + b6 == b6;
  }

  /** The points of each measurement are exactly that category's converted readings, in their order. */
  lemma {:induction false} ConvertDatasetByMeasurement(ds: Dataset, m: Measurement)
    requires ConvertDataset(ds).Ok?
    ensures Measured(ConvertDataset(ds).value, m) == Block(ds, m)
  {
    ConvertDatasetIsBlocks(ds);
    BlockUniform(ds, Environmental);
    BlockUniform(ds, TreeBiometrics);
    BlockUniform(ds, VisitorDetection);
    BlockUniform(ds, UserEngagement);
    BlockUniform(ds, AudioSystem);
    BlockUniform(ds, LightingSystem);
    BlockUniform(ds, SystemMetadata);
    MeasuredOfRuns(Block(ds, Environmental), Block(ds, TreeBiometrics), Block(ds, VisitorDetection),
                   Block(ds, UserEngagement), Block(ds, AudioSystem), Block(ds, LightingSystem),
                   Block(ds, SystemMetadata), m);
  }
}
