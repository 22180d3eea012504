/** The JSON frame the backend pushes over the WebSocket once per simulation tick, as the
    frontend components read it. Every top-level key is optional because the frontend receives
    it untyped (`any`) and tests the keys it uses before reading them. */
module Telemetry {
  import opened Wrappers

  /** One entry of `sample_panels` (and the shape the chart expects inside `panels`). */
  datatype SamplePanel = SamplePanel(
    id: string,
    sector: string,
    voltage: real,
    current: real,
    efficiency: real,
    dustLevel: real,
    temperature: real,
    powerOutput: real)

  /** One entry of `sector_summaries`. */
  datatype SectorSummary = SectorSummary(sectorId: string, efficiency: real, panelsNeedingCleaning: int)

  /** The `farm_statistics` object. */
  datatype FarmStatistics = FarmStatistics(
    totalEfficiency: real,
    panelsNeedingCleaning: int,
    totalPowerOutputMw: real,
    cleaningPercentage: real)

  /** The `weather` object. */
  datatype Weather = Weather(temperature: real, humidity: real, windSpeed: real, conditions: string)

  /** The `system_status` object that the chart reads; the backend never sends it. */
  datatype SystemStatus = SystemStatus(totalEfficiency: real, totalPowerOutput: real)

  datatype Frame = Frame(
    timestamp: string,
    farmStatistics: Option<FarmStatistics>,
    sectorSummaries: Option<seq<SectorSummary>>,
    samplePanels: Option<seq<SamplePanel>>,
    panels: Option<seq<SamplePanel>>,
    systemStatus: Option<SystemStatus>,
    weather: Option<Weather>)

  /** `samples.find(p => p.id === id)`, as the position of the first match. */
  function FindSample(samples: seq<SamplePanel>, id: string): (r: Option<nat>)
    ensures r.Some? ==> r.value < |samples| && samples[r.value].id == id
    ensures r.Some? ==> forall j :: 0 <= j < r.value ==> samples[j].id != id
    ensures r.None? <==> forall j :: 0 <= j < |samples| ==> samples[j].id != id
  {
    if samples == [] then None
    else if samples[0].id == id then Some(0)
    else
      match FindSample(samples[1..], id)
      case None =>
        assert forall j :: 1 <= j < |samples| ==> samples[j] == samples[1..][j - 1];
        None
      case Some(k) => Some(k + 1)
  }

  /** `j` is the position of the first sample for `id`. */
  predicate FirstMatch(samples: seq<SamplePanel>, id: string, j: int)
  {
    0 <= j < |samples| && samples[j].id == id && forall l :: 0 <= l < j ==> samples[l].id != id
  }

  /** The lookup finds exactly the first match. */
  lemma FindSampleFirst(samples: seq<SamplePanel>, id: string, j: int)
    requires FirstMatch(samples, id, j)
    ensures FindSample(samples, id) == Some(j)
  {
    var r := FindSample(samples, id);
    assert r.Some?;
    assert samples[r.value].id == id;
  }
}
