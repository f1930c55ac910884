/**
 * The records the simulator emits and the bridge consumes
 * (installation_sim.py dataclasses and the dataset dictionary built by
 * `generate_complete_dataset`).
 *
 * Timestamps are integer seconds since the Unix epoch (UTC); the ISO-8601
 * text the simulator writes is a one-to-one rendering of that number.
 * Dataset categories are `Option`s because the bridge accepts dictionaries
 * in which any key may be missing.
 */
module Records {
  import opened Common

  datatype EnvironmentalReading = EnvironmentalReading(
    timestamp: int,
    zone: string,
    temperatureC: real,
    humidityPercent: real)

  datatype TreeReading = TreeReading(
    timestamp: int,
    treeId: string,
    strainXmm: real,
    strainYmm: real)

  datatype VisitorReading = VisitorReading(
    timestamp: int,
    sensorId: string,
    zone: string,
    signalStrength: real,
    confidenceLevel: real,
    detectionActive: bool,
    visitorCountEstimate: int)

  datatype AudioReading = AudioReading(
    timestamp: int,
    speakerId: string,
    zone: string,
    volumeDb: real)

  datatype LightingReading = LightingReading(
    timestamp: int,
    ledId: string,
    zone: string,
    redIntensity: int,
    greenIntensity: int,
    blueIntensity: int)

  datatype EngagementReading = EngagementReading(
    timestamp: int,
    zone: string,
    averageEngagementDurationSec: real,
    engagementScore: real)

  /** The simulator's running `stats` dictionary; every key is always present. */
  datatype SimStats = SimStats(
    totalVisitorsDetected: int,
    activeAudioChannels: int,
    totalPowerConsumption: real,
    averageTreeMovement: real)

  /** A `stats` dictionary as the bridge sees it: any key may be missing. */
  datatype StatsBlock = StatsBlock(
    totalVisitorsDetected: Option<int>,
    activeAudioChannels: Option<int>,
    totalPowerConsumption: Option<real>,
    averageTreeMovement: Option<real>)

  /** `self.stats.copy()` as placed in a dataset's metadata. */
  function StatsBlockOf(s: SimStats): StatsBlock {
    StatsBlock(Some(s.totalVisitorsDetected), Some(s.activeAudioChannels),
               Some(s.totalPowerConsumption), Some(s.averageTreeMovement))
  }

  datatype Metadata = Metadata(
    timestamp: Option<int>,
    simulationTime: Option<int>,
    weatherPattern: Option<string>,
    stats: Option<StatsBlock>,
    userEngagement: Option<seq<EngagementReading>>)

  datatype Dataset = Dataset(
    metadata: Option<Metadata>,
    environmental: Option<seq<EnvironmentalReading>>,
    treeBiometrics: Option<seq<TreeReading>>,
    visitorDetection: Option<seq<VisitorReading>>,
    audioSystem: Option<seq<AudioReading>>,
    lightingSystem: Option<seq<LightingReading>>)
}
