/**
 * The bridge's connection and write bookkeeping (influx_bridge.py, class
 * `InstallationDataBridge`: `__init__`, `connect_influxdb`, `disconnect`,
 * `write_points_to_influx` and `process_json_dataset`).
 *
 * The InfluxDB client is foreign code: whether its health check passes,
 * whether creating it raises, and whether a batch write raises are taken as
 * parameters of the methods that call it. The object keeps the `stats`
 * dictionary and the connection flags; a ghost log of the batches written
 * ties the counters together.
 */
module Bridge {
  import opened Common
  import opened Zones
  import opened Records
  import opened Cycle
  import opened InfluxPoints

  /** What one call of `connect_influxdb` meets in the client library. */
  datatype ConnectOutcome =
    | Healthy                          // the health check reports "pass"
    | Unhealthy                        // the health check reports anything else
    | Unreachable(clientCreated: bool) // the client constructor or the health check raises

  /**
   * The connection flags after a reconnection from a disconnected bridge that
   * had client `client` and write API `writeApi`: only a passing health check
   * connects and creates the write API; a failing one leaves a client behind;
   * an exception keeps whatever client existed or was just created.
   */
  predicate ReconnectedFlags(outcome: ConnectOutcome, client: bool, writeApi: bool,
                             connected': bool, client': bool, writeApi': bool)
  {
    && connected' == outcome.Healthy?
    && client' == (!outcome.Unreachable? || client || outcome.clientCreated)
    && writeApi' == (outcome.Healthy? || writeApi)
  }

  /** The bridge's `stats` dictionary. */
  datatype BridgeStats = BridgeStats(
    totalPointsWritten: nat,
    totalBatchesWritten: nat,
    writeErrors: nat,
    lastWriteTime: Option<int>,
    connectionAttempts: nat,
    uptimeStart: int)

  /** Number of points in a list of batches. */
  function TotalLength(batches: seq<seq<Point>>): nat {
    if batches == [] then 0 else TotalLength(batches[..|batches| - 1]) + |batches[|batches| - 1]|
  }

  class InstallationDataBridge {
    var connected: bool
    /** Whether `self.client` holds a client object. */
    var hasClient: bool
    /** Whether `self.write_api` holds a write API object. */
    var hasWriteApi: bool
    var stats: BridgeStats
    /** Every batch written successfully, oldest first. */
    ghost var batches: seq<seq<Point>>

    /**
     * The bridge only reports itself connected once it has a client and a
     * write API, the point and batch counters count the batches written, and
     * a last write time exists exactly when some batch was written.
     */
    ghost predicate Valid()
      reads this
    {
      && (connected ==> hasClient && hasWriteApi)
      && stats.totalBatchesWritten == |batches|
      && stats.totalPointsWritten == TotalLength(batches)
      && (stats.lastWriteTime.Some? <==> |batches| > 0)
    }

    /** `__init__`: nothing connected, every counter 0, the uptime clock started at `now`. */
    constructor (now: int)
      ensures Valid()
      ensures !connected && !hasClient && !hasWriteApi
      ensures stats == BridgeStats(0, 0, 0, None, 0, now)
      ensures batches == []
    {
      connected := false;
      hasClient := false;
      hasWriteApi := false;
      stats := BridgeStats(0, 0, 0, None, 0, now);
      batches := [];
    }

    /**
     * `connect_influxdb`: every call counts one attempt. A passing health
     * check connects; a failing one reports failure and leaves the connection
     * flag as it was; an exception disconnects.
     */
    method ConnectInfluxDb(outcome: ConnectOutcome) returns (ok: bool)
      requires Valid()
      modifies this`connected, this`hasClient, this`hasWriteApi, this`stats
      ensures Valid()
      ensures ok <==> outcome.Healthy?
      ensures stats == old(stats).(connectionAttempts := old(stats.connectionAttempts) + 1)
      ensures outcome.Healthy? ==> connected && hasClient && hasWriteApi
      ensures outcome.Unhealthy? ==>
                connected == old(connected) && hasClient && hasWriteApi == old(hasWriteApi)
      ensures outcome.Unreachable? ==>
                && !connected && hasWriteApi == old(hasWriteApi)
                && hasClient == (old(hasClient) || outcome.clientCreated)
    {
      stats := stats.(connectionAttempts := stats.connectionAttempts + 1);
      match outcome
      case Healthy =>
        hasClient := true;
        hasWriteApi := true;
        connected := true;
        ok := true;
      case Unhealthy =>
        hasClient := true;
        ok := false;
      case Unreachable(created) =>
        hasClient := hasClient || created;
        connected := false;
        ok := false;
    }

    /** `disconnect`: with a client, close it and drop the connection flag; without one, do nothing. */
    method Disconnect()
      requires Valid()
      modifies this`connected
      ensures Valid()
      ensures !connected
      ensures !old(hasClient) ==> connected == old(connected)
    {
      if hasClient {
        connected := false;
      }
    }

    /**
     * `write_points_to_influx`: reconnect first when not connected or without
     * a write API, and give up if that fails; then a successful write counts
     * the points and the batch and records the write time, and a failed one
     * counts one write error.
     */
    method WritePointsToInflux(points: seq<Point>, reconnect: ConnectOutcome, writeSucceeds: bool, now: int)
      returns (ok: bool)
      requires Valid()
      modifies this`connected, this`hasClient, this`hasWriteApi, this`stats, this`batches
      ensures Valid()
      ensures var needed := !old(connected) || !old(hasWriteApi);
              && stats.connectionAttempts == old(stats.connectionAttempts) + (if needed then 1 else 0)
              && (ok <==> (!needed || reconnect.Healthy?) && writeSucceeds)
              && (!needed ==> connected == old(connected) && hasClient == old(hasClient)
                              && hasWriteApi == old(hasWriteApi))
              && (needed ==> ReconnectedFlags(reconnect, old(hasClient), old(hasWriteApi),
                                              connected, hasClient, hasWriteApi))
      // the reconnection failed: nothing is written and no counter but the attempts moves
      ensures var needed := !old(connected) || !old(hasWriteApi);
              needed && !reconnect.Healthy? ==>
                && !ok && batches == old(batches)
                && stats == old(stats).(connectionAttempts := old(stats.connectionAttempts) + 1)
      // the write went through
      ensures var attempted := (old(connected) && old(hasWriteApi)) || reconnect.Healthy?;
              attempted && writeSucceeds ==>
                && connected && batches == old(batches) + [points]
                && stats.totalPointsWritten == old(stats.totalPointsWritten) + |points|
                && stats.totalBatchesWritten == old(stats.totalBatchesWritten) + 1
                && stats.writeErrors == old(stats.writeErrors)
                && stats.lastWriteTime == Some(now)
                && stats.uptimeStart == old(stats.uptimeStart)
      // the write raised
      ensures var attempted := (old(connected) && old(hasWriteApi)) || reconnect.Healthy?;
              attempted && !writeSucceeds ==>
                && batches == old(batches)
                && stats.totalPointsWritten == old(stats.totalPointsWritten)
                && stats.totalBatchesWritten == old(stats.totalBatchesWritten)
                && stats.writeErrors == old(stats.writeErrors) + 1
                && stats.lastWriteTime == old(stats.lastWriteTime)
                && stats.uptimeStart == old(stats.uptimeStart)
    {
      if !connected || !hasWriteApi {
        var reconnected := ConnectInfluxDb(reconnect);
        if !reconnected {
          return false;
        }
      }
      if writeSucceeds {
        stats := stats.(totalPointsWritten := stats.totalPointsWritten + |points|,
                        totalBatchesWritten := stats.totalBatchesWritten + 1,
                        lastWriteTime := Some(now));
        batches := batches + [points];
        assert batches[..|batches| - 1] == old(batches);
        ok := true;
      } else {
        stats := stats.(writeErrors := stats.writeErrors + 1);
        ok := false;
      }
    }

    /**
     * `process_json_dataset`: convert the dataset and write the points. A
     * dataset that cannot be converted, or that yields no points, is not
     * written and reports failure.
     */
    method ProcessJsonDataset(ds: Dataset, reconnect: ConnectOutcome, writeSucceeds: bool, now: int)
      returns (ok: bool)
      requires Valid()
      modifies this`connected, this`hasClient, this`hasWriteApi, this`stats, this`batches
      ensures Valid()
      ensures ConvertDataset(ds).Err? || ConvertDataset(ds).value == [] ==>
                && !ok && stats == old(stats) && batches == old(batches)
                && connected == old(connected) && hasClient == old(hasClient) && hasWriteApi == old(hasWriteApi)
      ensures ConvertDataset(ds).Ok? && ConvertDataset(ds).value != [] ==>
                var attempted := (old(connected) && old(hasWriteApi)) || reconnect.Healthy?;
                var needed := !old(connected) || !old(hasWriteApi);
                var points := ConvertDataset(ds).value;
                && (ok <==> attempted && writeSucceeds)
                && (ok ==> batches == old(batches) + [points])
                && (!ok ==> batches == old(batches))
                && stats.totalPointsWritten == old(stats.totalPointsWritten) + (if ok then |points| else 0)
                && stats.totalBatchesWritten == old(stats.totalBatchesWritten) + (if ok then 1 else 0)
                && stats.writeErrors == old(stats.writeErrors) + (if attempted && !writeSucceeds then 1 else 0)
                && stats.connectionAttempts == old(stats.connectionAttempts) + (if needed then 1 else 0)
                && stats.lastWriteTime == (if ok then Some(now) else old(stats.lastWriteTime))
                && stats.uptimeStart == old(stats.uptimeStart)
                && (!needed ==> connected == old(connected) && hasClient == old(hasClient)
                                && hasWriteApi == old(hasWriteApi))
                && (needed ==> ReconnectedFlags(reconnect, old(hasClient), old(hasWriteApi),
                                                connected, hasClient, hasWriteApi))
    {
      var converted := ConvertDataset(ds);
      if converted.Err? {
        return false;
      }
      var points := converted.value;
      if points != [] {
        ok := WritePointsToInflux(points, reconnect, writeSucceeds, now);
      } else {
        ok := false;
      }
    }
  }

  /** Every point of `ps` is stamped `ts`. */
  predicate AllAt(ps: seq<Point>, ts: int) {
    forall i :: 0 <= i < |ps| ==> ps[i].time == ts
  }

  lemma {:induction false} AllAtAppend(a: seq<Point>, b: seq<Point>, ts: int)
    requires AllAt(a, ts) && AllAt(b, ts)
    ensures AllAt(a + b, ts)
  {
    forall i | 0 <= i < |a + b| ensures (a + b)[i].time == ts {
      if i < |a| {
        assert (a + b)[i] == a[i];
      } else {
        assert (a + b)[i] == b[i - |a|];
      }
    }
  }

  /** In a simulator dataset every category's points carry the cycle's timestamp. */
  lemma {:induction false} CycleBlockAt(d: Dataset, ts: int, m: Measurement)
    requires WellFormedCycle(d, ts)
    ensures AllAt(Block(d, m), ts)
  {
    var b := Block(d, m);
    forall i | 0 <= i < |b| ensures b[i].time == ts {
      match m
      case Environmental => assert b[i] == EnvironmentalPoint(d.environmental.value[i]);
      case TreeBiometrics => assert b[i] == TreePoint(d.treeBiometrics.value[i]);
      case VisitorDetection => assert b[i] == VisitorPoint(d.visitorDetection.value[i]);
      case UserEngagement => assert b[i] == EngagementPoint(d.metadata.value.userEngagement.value[i]);
      case AudioSystem => assert b[i] == AudioPoint(d.audioSystem.value[i]);
      case LightingSystem => assert b[i] == LightingPoint(d.lightingSystem.value[i]);
      case SystemMetadata =>
    }
  }

  /**
   * Every dataset the simulator produces converts: one point per zone for the
   * environmental, engagement, audio and lighting categories, one per tree
   * and per lidar, and the metadata point, all at the cycle's timestamp; the
   * metadata point is tagged with the "unknown" weather pattern because the
   * simulator never sets one.
   */
  lemma {:induction false} CycleDatasetPoints(d: Dataset, ts: int)
    requires WellFormedCycle(d, ts)
    ensures ConvertDataset(d).Ok?
    ensures var ps := ConvertDataset(d).value;
            && |ps| == 4 * |ZoneOrder| + |ZoneOrder| * TreesPerZone + |ZoneOrder| * SensorsPerZone + 1
            && |ps| == 37
            && ps[|ps| - 1].measurement == SystemMetadata
            && ps[|ps| - 1].tags["weather_pattern"] == "unknown"
            && AllAt(ps, ts)
  {
    var m := d.metadata.value;
    ConvertDatasetCount(d);
    ConvertDatasetMetadataLast(d);
    MetadataPointDefaults(m, ts);
    ConvertDatasetIsBlocks(d);
    var b0, b1, b2 := Block(d, Environmental), Block(d, TreeBiometrics), Block(d, VisitorDetection);
    var b3, b4 := Block(d, UserEngagement), Block(d, AudioSystem);
    var b5, b6 := Block(d, LightingSystem), Block(d, SystemMetadata);
    CycleBlockAt(d, ts, Environmental);
    CycleBlockAt(d, ts, TreeBiometrics);
    CycleBlockAt(d, ts, VisitorDetection);
    CycleBlockAt(d, ts, UserEngagement);
    CycleBlockAt(d, ts, AudioSystem);
    CycleBlockAt(d, ts, LightingSystem);
    CycleBlockAt(d, ts, SystemMetadata);
    AllAtAppend(b0, b1, ts);
    AllAtAppend(b0 + b1, b2, ts);
    AllAtAppend(b0 + b1 + b2, b3, ts);
    AllAtAppend(b0 + b1 + b2 + b3, b4, ts);
    AllAtAppend(b0 + b1 + b2 + b3 + b4, b5, ts);
    AllAtAppend(b0 + b1 + b2 + b3 + b4 + b5, b6, ts);
  }
}
