# Interactive art installation monitoring — a verified model

This project models the data path of an interactive forest art installation.

The simulator (`InstallationSim`) produces one dataset per cycle. A cycle contains:
- weather per zone;
- strain-gauge readings per tree;
- LiDAR visitor detections per sensor;
- an engagement score per zone;
- the audio volume per zone;
- the LED colour per zone;
- running statistics.

The simulator keeps per-zone state between cycles: the last temperature, humidity and volume, the visitor activity, and a ten-entry engagement history. The real-time loop keeps the ten most recent datasets.

The InfluxDB bridge (`InstallationDataBridge`) turns a dataset into measurement points and writes them. It keeps connection and write statistics.

Modules:

- `Common`: `Option`, `Result`, and real `Min`/`Max`/`Abs`.
- `Zones`: the three zones, their sensor topology and the device identifier formats, with their decimal round trip.
- `Records`: the reading records, the simulator's statistics and the dataset. Every dataset category is optional, because the bridge accepts dictionaries with missing keys.
- `Generators`: one reading as a function of the state and the random draws, with the laws each reading obeys.
- `Cycle`: reference definitions of a whole cycle, zone by zone, and what a cycle guarantees.
- `Simulator`: the class `InstallationSim`. Its `simulate_*` methods are loops over zones and devices. Each method is proved to compute the `Cycle` definitions and to leave the state they define. The module also holds the bounded dataset buffer of the real-time loop.
- `Sequences`: `Map`/`TryMap` and the bounded append with its sliding-window characterisation.
- `InfluxPoints`: the `Point` value, the six category converters with decoders that read the readings back, and the dataset converter.
- `Bridge`: the class `InstallationDataBridge` with its `stats` counters. Connect, disconnect, write and process take the client library's outcome as a parameter.

Time is an integer number of seconds since the Unix epoch, in UTC. The hour of day is `(t % 86400) / 3600`. Random draws and the values of `np.sin` enter as parameters, with the ranges the source draws them from.

## Model

| member | source | states |
|---|---|---|
| Zones.Index | installation_sim.py:97-110 | every zone has a position in the dictionary's iteration order |
| Zones.IndexOfZoneOrder | installation_sim.py:97-110 | the iteration order lists each zone once |
| Zones.NameInjective | installation_sim.py:97-110 | distinct zones have distinct dictionary keys |
| Zones.DecimalRoundTrip | installation_sim.py:205 | the decimal rendering of an index parses back to the index, with one digit exactly below 10 |
| Zones.Pad2RoundTrip | installation_sim.py:205 | the `:02d` rendering parses back to the index and is two characters below 100 |
| Zones.TreeIdInjective | installation_sim.py:205 | two trees with the same `tree_id` are the same tree of the same zone |
| Zones.LidarIdInjective | installation_sim.py:263 | two sensors with the same `sensor_id` are the same sensor of the same zone |
| Generators.HourOf | installation_sim.py:144 | the UTC hour is below 24 and counts the whole hours elapsed in the day |
| Generators.Smooth | installation_sim.py:168-173 | without a previous value the target; otherwise the gap to the target shrinks by the factor 1 − rate, so the value lies between the previous value and the target |
| Generators.ClampHumidity | installation_sim.py:176-185 | the result lies in [20, 95] and a value already in range is kept |
| Generators.TemperatureTarget | installation_sim.py:147-168 | for sin in [−1, 1] and variation in [−0.5, 0.5] the target lies in [4.5, 24.5] |
| Generators.HumidityTarget | installation_sim.py:150-176 | the target humidity is 60 plus the zone's offset and lies in [20, 95] |
| Generators.EnvironmentalOf | installation_sim.py:168-193 | a weather reading carries the cycle's timestamp and its zone's key, and its humidity is in [20, 95] |
| Generators.WeatherSmoothingLaw | installation_sim.py:168-181 | temperature and humidity start at the target, then each cycle close 10% of the remaining gap, staying between the previous value and the target |
| Generators.TemperatureStaysInRange | installation_sim.py:147-173 | with the draws in range, a stored temperature in [4.5, 24.5] stays in that range |
| Generators.TreeReadingOf | installation_sim.py:205-226 | a tree reading carries the cycle's timestamp and the tree's formatted id |
| Generators.TreeStrainBounds | installation_sim.py:209-216 | the strains are within 0.15 mm and 0.09 mm, and y less its jitter is 0.6 times x less its movement |
| Generators.TotalMovementSnoc | installation_sim.py:218-219 | the accumulated movement grows by each tree's magnitude \|x\| + \|y\| |
| Generators.MeanMovement | installation_sim.py:231 | the tree movement intensity is never negative |
| Generators.BaseProbability | installation_sim.py:241-247 | 0.3 exactly for hours 9–18, 0.15 exactly for 19–22, and 0.02 exactly otherwise |
| Generators.VisitorReadingOf | installation_sim.py:263-287 | a detection happens exactly when the roll is below the probability. A detection estimates 1–3 visitors with signal in [75, 90] and confidence in [72, 95]. An idle sensor estimates 0, with signal in [15, 40] and confidence in [10, 30] |
| Generators.SumEstimatesSnoc | installation_sim.py:273 | the running total grows by each reading's estimate |
| Generators.TotalIsSumOfZones | installation_sim.py:273-295 | when every reading belongs to one of the three zones, the total of the estimates is the sum of the per-zone totals |
| Generators.ActiveIn | installation_sim.py:407 | the zone's active readings are exactly the input's readings of that zone that detect: each one returned is one, and each one is returned |
| Generators.NoActiveIffNoDetection | installation_sim.py:407-409 | a zone has an empty active list exactly when none of its readings detects anything |
| Generators.EngagementOf | installation_sim.py:407-429 | a zone without detections has duration 0 and score 0; otherwise the duration is at least 5 s and the score at most 1 |
| Generators.DetectedEngagementBounds | installation_sim.py:409-413 | with detection confidences in [72, 95] the score lies in [0.72, 0.95] and the duration is 300 times the score |
| Generators.VisitorVolumeInfluence | installation_sim.py:308 | the visitor influence on the volume is at most 0.7 and not negative for a non-negative count |
| Generators.AudioReadingOf | installation_sim.py:303-331 | the volume is never negative, and when positive it is the previous volume smoothed 30% toward the target, plus the noise |
| Generators.VolumeMonotone | installation_sim.py:305-323 | more visitors or more tree movement never lower the volume |
| Generators.TimeBase | installation_sim.py:346-352 | the base is 0.2 for hours 6–18, 0.6 for 19–22 and 0.3 at night |
| Generators.LightIntensity | installation_sim.py:355-357 | the LED intensity is at most 1, and at least 0.2 for non-negative inputs |
| Generators.Trunc | installation_sim.py:385-387 | `int()` truncates toward zero |
| Generators.ClampChannel | installation_sim.py:385-387 | a channel lies in [0, 255] and an in-range value is kept |
| Generators.LightingOf | installation_sim.py:341-397 | an LED reading carries the timestamp, the LED id and the zone, and every channel is in [0, 255] |
| Generators.LightingMonotone | installation_sim.py:355-387 | more visitors or more tree movement never dim any colour channel |
| Generators.LightingPowerBounds | installation_sim.py:456 | the LED power term is between 0 and 51 W per LED |
| Sequences.Map | influx_bridge.py:101-113 | one output per input, in order, each the image of its input |
| Sequences.TryMap | influx_bridge.py:101-113 | the decoding succeeds exactly when every element decodes, and then the results are in order |
| Sequences.MapThenTryMap | influx_bridge.py:101-113 | decoding what was encoded element by element gives back the input |
| Sequences.AppendBounded | installation_sim.py:419-421 | appending to a list of at most `cap` entries keeps at most `cap` entries |
| Sequences.AppendBoundedDropsOldest | installation_sim.py:419-421 | the bounded list is a suffix of the extended list, so only the oldest entry is lost |
| Sequences.WindowIsSuffix | installation_sim.py:508-510 | the window is the newest `cap` entries in their order |
| Sequences.WindowStep | installation_sim.py:508-510 | a bounded append to the window of a history is the window of the extended history |
| Sequences.BoundedKeepsNewest | installation_sim.py:508-510 | repeated bounded appends starting from empty keep exactly the newest `cap` entries |
| Cycle.WeatherReadingsAt | installation_sim.py:154-193 | the j-th weather reading is zone j's reading, computed from that zone's stored values |
| Cycle.WeatherStoredAt | installation_sim.py:184-185 | after the walk, each visited zone stores its reading's values and the other zones keep theirs |
| Cycle.WeatherKeepsRanges | installation_sim.py:147-185 | a cycle keeps every stored temperature in [4.5, 24.5] and every stored humidity in [20, 95] |
| Cycle.TreeReadingsAt | installation_sim.py:203-227 | reading 3z + i is tree i of zone z |
| Cycle.SensorReadingsAt | installation_sim.py:257-290 | reading 5z + i is sensor i of zone z at the zone's detection probability |
| Cycle.SensorBlock | installation_sim.py:257-290 | the five readings of zone z are that zone's detections |
| Cycle.ActivityAfterDetection | installation_sim.py:253-293 | after the reset and the walk, every zone's activity is its own visitor count |
| Cycle.DetectionStep | installation_sim.py:257-295 | each zone extends the readings by its block, the total by its visitors and the counts by one entry |
| Cycle.EngagementReadingsAt | installation_sim.py:405-429 | the j-th engagement reading is zone j's |
| Cycle.HistoriesStayWindows | installation_sim.py:419-421 | every zone's engagement history stays the newest ten of all the scores it has logged |
| Cycle.AudioReadingsAt | installation_sim.py:302-331 | the j-th audio reading is zone j's, from its stored volume and its visitor activity |
| Cycle.VolumesStayNonNegative | installation_sim.py:322-323 | after a cycle every zone has a stored volume and none is negative, whatever volumes were stored before |
| Cycle.LightingReadingsAt | installation_sim.py:340-397 | the j-th LED reading is zone j's, from its visitor activity |
| Cycle.CycleComposed | installation_sim.py:433-471 | the values one cycle computes step by step make up the cycle's reference dataset and statistics |
| Cycle.CycleWellFormed | installation_sim.py:433-471 | a dataset holds 3 weather, 9 tree, 15 visitor, 3 engagement, 3 audio and 3 LED readings in zone order, all stamped with the cycle's time. Humidity is in [20, 95], strains within 0.15 and 0.09 mm, and visitor signal and confidence in 75-90 and 72-95 when detecting (1-3 visitors) or in 15-40 and 10-30 when idle (0 visitors). Each zone's engagement is either 0 s and 0, or a score in [0.72, 0.95] with 300 times the score as duration. Volumes are at least 0 and LED channels in [0, 255]; the metadata carries stats and no weather pattern |
| Cycle.CyclePowerBounds | installation_sim.py:454-457 | the total power is between 190 W and 343 W |
| Cycle.CycleCorrelations | installation_sim.py:293-357 | each zone's audio and lighting react to exactly that zone's visitor count in this cycle |
| Cycle.CycleVisitorTotal | installation_sim.py:273-295 | the visitors total is the sum of the three zones' activities |
| Cycle.CycleVisitorTotalByZone | installation_sim.py:273-295 | the visitors total is the sum of the per-zone estimate totals of the readings |
| Simulator.InstallationSim.constructor | installation_sim.py:92-131 | a fresh simulator: the intensity is 0.1, there are no stored values, every zone's activity is 0 and history empty, and the statistics are zero |
| Simulator.InstallationSim.AdvanceTime | installation_sim.py:133-135 | the clock moves forward by the given seconds |
| Simulator.InstallationSim.SimulateWeatherConditions | installation_sim.py:141-195 | returns the cycle's weather readings and stores each zone's new temperature and humidity |
| Simulator.InstallationSim.UpdateZoneWeather | installation_sim.py:166-193 | one zone's reading, with its new values stored under that zone alone |
| Simulator.InstallationSim.SimulateTreeBiometrics | installation_sim.py:197-234 | returns the tree readings and sets the intensity and `average_tree_movement` to their mean movement |
| Simulator.InstallationSim.SimulateZoneTrees | installation_sim.py:204-227 | one zone's trees are appended with the running total and count kept exact |
| Simulator.InstallationSim.SimulateVisitorDetection | installation_sim.py:236-296 | returns the detections, sets each zone's activity to its count, and sets `total_visitors_detected` to the sum of estimates |
| Simulator.InstallationSim.DetectZone | installation_sim.py:257-293 | one zone extends the readings, the total and the stored activity as the reference walk does |
| Simulator.InstallationSim.ResetVisitorActivity | installation_sim.py:254-255 | every zone's activity is set to 0 |
| Simulator.InstallationSim.SenseZone | installation_sim.py:262-290 | a zone's five readings, with its visitor count added to the total |
| Simulator.InstallationSim.CalculateUserEngagement | installation_sim.py:401-431 | returns the per-zone engagement and appends each score to the zone's history, which stays a ten-entry window |
| Simulator.InstallationSim.RecordScore | installation_sim.py:419-421 | one score is appended to one zone's history, dropping the oldest beyond ten |
| Simulator.InstallationSim.SimulateAudioSystem | installation_sim.py:298-333 | returns the audio readings and stores each zone's new volume |
| Simulator.InstallationSim.UpdateZoneVolume | installation_sim.py:302-331 | one zone's reading, with its volume stored under that zone alone |
| Simulator.InstallationSim.SimulateLightingSystem | installation_sim.py:335-399 | returns the cycle's LED readings |
| Simulator.InstallationSim.SenseCycle | installation_sim.py:436-443 | weather, trees and visitors in the source's order, each leaving the state the next one reads |
| Simulator.InstallationSim.RespondCycle | installation_sim.py:445-457 | engagement, audio, lighting and the power statistic, from the sensing half's results |
| Simulator.InstallationSim.GenerateCompleteDataset | installation_sim.py:433-471 | the dataset is the cycle's reference dataset, and every piece of state is left as the cycle defines it |
| Simulator.RunRealtime | installation_sim.py:502-510 | after any number of cycles the buffer holds the newest ten datasets in order, each well formed at its tick |
| InfluxPoints.MeasurementNameInjective | influx_bridge.py:105-237 | the seven measurement names are distinct |
| InfluxPoints.EnvironmentalPointRoundTrip | influx_bridge.py:104-110 | an environmental point decodes back to its reading; it is tagged `zone` and `measurement_type="weather"` and has the two weather fields |
| InfluxPoints.TreePointRoundTrip | influx_bridge.py:119-125 | a tree point decodes back to its reading, tagged `tree_id` with the two strain fields |
| InfluxPoints.VisitorPointRoundTrip | influx_bridge.py:135-145 | a visitor point decodes back to its reading; it is tagged `sensor_type="tf_mini_lidar"` and has its four fields |
| InfluxPoints.EngagementPointRoundTrip | influx_bridge.py:155-161 | an engagement point decodes back to its reading, tagged `zone` with its two fields |
| InfluxPoints.AudioPointRoundTrip | influx_bridge.py:169-175 | an audio point decodes back to its reading, tagged speaker and zone, with `volume_db` |
| InfluxPoints.LightingPointRoundTrip | influx_bridge.py:185-193 | an LED point decodes back to its reading, with the three colour channels as integer fields |
| InfluxPoints.ConvertEnvironmental | influx_bridge.py:89-113 | one point per reading, in order |
| InfluxPoints.ConvertTrees | influx_bridge.py:115-127 | one point per reading, in order |
| InfluxPoints.ConvertVisitors | influx_bridge.py:129-147 | one point per reading, in order |
| InfluxPoints.ConvertEngagement | influx_bridge.py:149-163 | one point per reading, in order |
| InfluxPoints.ConvertAudio | influx_bridge.py:165-177 | one point per reading, in order |
| InfluxPoints.ConvertLighting | influx_bridge.py:179-195 | one point per reading, in order |
| InfluxPoints.ConvertEnvironmentalRoundTrip | influx_bridge.py:89-113 | the environmental points decode back to exactly the input readings, in order |
| InfluxPoints.ConvertTreesRoundTrip | influx_bridge.py:115-127 | the tree points decode back to exactly the input readings, in order |
| InfluxPoints.ConvertVisitorsRoundTrip | influx_bridge.py:129-147 | the visitor points decode back to exactly the input readings, in order |
| InfluxPoints.ConvertEngagementRoundTrip | influx_bridge.py:149-163 | the engagement points decode back to exactly the input readings, in order |
| InfluxPoints.ConvertAudioRoundTrip | influx_bridge.py:165-177 | the audio points decode back to exactly the input readings, in order |
| InfluxPoints.ConvertLightingRoundTrip | influx_bridge.py:179-195 | the LED points decode back to exactly the input readings, in order |
| InfluxPoints.ConvertDataset | influx_bridge.py:197-255 | the conversion fails exactly when metadata is present without a timestamp |
| InfluxPoints.ConvertDatasetCount | influx_bridge.py:204-255 | the number of points is the sum of the present categories' lengths, plus one when metadata is present |
| InfluxPoints.ConvertDatasetMetadataLast | influx_bridge.py:234-253 | with metadata, the last point is the `system_metadata` point at the metadata's timestamp, after all the reading points |
| InfluxPoints.MetadataPointDefaults | influx_bridge.py:237-251 | the metadata point has the weather pattern as a tag, or "unknown" when absent; each of the three stats fields is 0 when the stats block or its key is missing |
| InfluxPoints.ConvertDatasetIsBlocks | influx_bridge.py:202-254 | the output is the seven category blocks concatenated in the converter's order |
| InfluxPoints.ConvertDatasetOrdered | influx_bridge.py:202-254 | measurements appear in the fixed order environmental, tree, visitor, engagement, audio, lighting, metadata |
| InfluxPoints.ConvertDatasetByMeasurement | influx_bridge.py:202-254 | the points of each measurement are exactly that category's converted readings, in their order |
| InfluxPoints.BlockUniform | influx_bridge.py:104-237 | every point of a category block carries that category's measurement |
| Bridge.InstallationDataBridge.constructor | influx_bridge.py:36-51 | not connected, every counter 0, no last write time, uptime clock started |
| Bridge.InstallationDataBridge.ConnectInfluxDb | influx_bridge.py:53-80 | each call adds one attempt. A passing health check connects; a failing one leaves the connection flag as it was; an exception disconnects. Success is reported exactly on a pass |
| Bridge.InstallationDataBridge.Disconnect | influx_bridge.py:82-87 | afterwards the bridge is not connected |
| Bridge.InstallationDataBridge.WritePointsToInflux | influx_bridge.py:257-281 | without a connection it reconnects (one more attempt), and a failed reconnect returns false with every write counter unchanged. A successful write adds the points and one batch and sets the write time, leaving the errors unchanged. A failed write adds one error only. After a needed reconnect the bridge is connected exactly when the health check passed, and the client and write-API flags are the ones that outcome leaves |
| Bridge.InstallationDataBridge.ProcessJsonDataset | influx_bridge.py:283-299 | a dataset that does not convert or yields no points returns false and changes nothing. Otherwise it writes its points: the result, the batch log, every statistic (points, batches, errors, attempts, last write time, uptime start) and the connection flags are those of the write |
| Bridge.CycleDatasetPoints | influx_bridge.py:197-255 | every simulator dataset converts to 37 points, all at the cycle's timestamp, ending with a metadata point tagged weather pattern "unknown" |

## Left out

- Simulator.InstallationSim.SimulateWeatherConditions: `round(x, 1)` on the stored temperature and humidity is not modelled. The source smooths the next cycle from the rounded value (installation_sim.py:184-185); the model smooths from the unrounded one.
- Simulator.InstallationSim.SimulateAudioSystem: `round(new_volume, 1)` on the stored volume (installation_sim.py:323) is not modelled, for the same reason.
- Simulator.InstallationSim.SimulateTreeBiometrics: the strains (`round(…, 4)`) and `average_tree_movement` (`round(…, 3)`) are emitted unrounded.
- Simulator.InstallationSim.GenerateCompleteDataset: `total_power_consumption` is not rounded. `simulation_time` (`str(current_time)`) and `timestamp` (`isoformat()`) are two renderings of the same instant, so both are modelled as the same integer time.
- Simulator.InstallationSim.CalculateUserEngagement: the emitted duration and score are not rounded.
- Records: time is whole seconds. `datetime.now()` carries microseconds, which the model drops. The ISO-8601 text of a timestamp is not modelled.
- Simulator.InstallationSim.AdvanceTime: the default of 30 seconds is not modelled; the caller passes the seconds.
- Simulator.InstallationSim.constructor: `start_time=None` defaulting to `datetime.now()` is not modelled; the caller passes the start time.
- Simulator.RunRealtime: the loop takes its ticks (the wall-clock times it sets) and its random draws as parameters. Each produced dataset is only stated to be well formed at its tick; the contract does not tie it to the reference dataset of that cycle's state.
- Random draws (`random.uniform`, `random.choice`, `random.random`) are parameters with the source's ranges. The order in which the source consumes the random stream is not modelled, and neither are distributions.
- `np.sin` values are parameters in [−1, 1].
- Python floats are modelled as exact reals.
- `visitor_flow_multiplier` stays 1.0, because nothing in the source changes it. `active_audio_channels` stays at its initial 0, because nothing updates it.
- The lighting branch `18 <= hour <= 22` never sees hour 18, because the day branch takes it first. The model follows the code.
- Printing is not modelled: `print_live_stats`, `print_statistics` with its success rate and uptime formatting, and every status message.
- File I/O is not modelled: the JSON backups and saves, `asdict`/`json.dump`, `run_single_snapshot`, and `main` with its argument parsing.
- The async loops are not modelled: `asyncio.sleep`, the interval timing, `KeyboardInterrupt` handling and `run_simulator_api_mode`.
- The InfluxDB client library is foreign code. Its health check, constructor and `write` appear only as the outcome parameters of the bridge methods. The `InfluxDBConfig` connection settings are not modelled, nor is `test_connection_and_write` with its query.
- InfluxPoints: the line-protocol encoding of a point is not modelled. A point's time is the integer time, not the ISO text the source passes.
- The `float()`/`int()` conversions in the converters are not modelled. They are the identity on the typed readings.
- Bridge.InstallationDataBridge.ProcessJsonDataset: a dataset is a typed value, so the one malformed input modelled is metadata without a timestamp. Other malformed dictionaries that would raise inside the converters are not modelled.
- Bridge.InstallationDataBridge.WritePointsToInflux: `last_write_time` (`datetime.now().isoformat()`) is the integer time passed in. `uptime_start` (`time.time()`) is a constructor parameter.
- simulate_zone_metrics.py and influx_test.py are not part of this model. One is a separate metrics agent printing random gauges; the other is a network smoke test.
