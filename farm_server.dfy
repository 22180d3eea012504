/** The mutable state of solar-panel-backend/main.py and the endpoints that change it:
    `get_panels` (which caches a `needs_cleaning` key on the panels it lists), `clean_panel`,
    `clean_sector`, one tick of the `/ws` simulation loop and `submit_sensor_data`.

    The module-level globals `panels_db`, `sectors_db`, `sensor_history` and
    `cleaning_history` are the fields of one `FarmDb` object. Randomness is a nondeterministic
    choice inside the bounds the source draws from; clocks (`datetime.now()`) are parameters or
    left out; `round()` is not modelled. */
module FarmServer {
  import opened Wrappers
  import opened Farm
  import opened Generation
  import opened Telemetry
  import opened Ranking

  /** `sensor_history` keeps at most this many readings. */
  const MaxSensorHistory: nat := 10000
  /** The stream samples this many panels per tick ... */
  const SampleSize: nat := 50
  /** ... and sends the first this many of them. */
  const SamplesSent: nat := 10
  /** The stream summarises the first this many sector keys. */
  const SummarySectors: nat := 9
  /** Litres of water per cleaned panel. */
  const WaterPerPanel: real := 2.3
  /** Seconds a manual panel cleaning is reported to take. */
  const CleanDuration: nat := 120
  /** The tick caps the dust level here ... */
  const MaxDust: real := 800.0
  /** ... and never lets the efficiency fall below this. */
  const MinEfficiency: real := 70.0
  /** `19.5 * 5.5`: the power of a panel at rated voltage and 5.5 A. */
  const ExpectedPower: real := 107.25

  function Min(a: real, b: real): real
  {
    if a <= b then a else b
  }

  function Max(a: real, b: real): real
  {
    if a >= b then a else b
  }

  // ---------------------------------------------------------------------------------------
  // calculate_efficiency

  /** Efficiency, in percent of `ExpectedPower`, of a measured power, clamped to [0, 100]. */
  function EfficiencyOfPower(power: real): (r: real)
    ensures 0.0 <= r <= 100.0
    ensures power <= 0.0 ==> r == 0.0
    ensures power >= ExpectedPower ==> r == 100.0
    ensures 0.0 <= power <= ExpectedPower ==> r * ExpectedPower == power * 100.0
  {
    Min(100.0, Max(0.0, (power / (19.5 * 5.5)) * 100.0))
  }

  /** `calculate_efficiency(voltage, current)`. */
  function CalculateEfficiency(voltage: real, current: real): (r: real)
    ensures 0.0 <= r <= 100.0
    ensures r == EfficiencyOfPower(voltage * current)
  {
    EfficiencyOfPower(voltage * current)
  }

  /** More power never means less efficiency. */
  lemma EfficiencyMonotonic(p1: real, p2: real)
    requires p1 <= p2
    ensures EfficiencyOfPower(p1) <= EfficiencyOfPower(p2)
  {
    assert p1 / 107.25 <= p2 / 107.25;
  }

  /** A panel at rated voltage delivering 5.5 A is at 100 %; at no current it is at 0 %. */
  lemma EfficiencyAtRating()
    ensures CalculateEfficiency(RatedVoltage, 5.5) == 100.0
    ensures CalculateEfficiency(RatedVoltage, 0.0) == 0.0
  {
    assert RatedVoltage * 5.5 == ExpectedPower;
  }

  // ---------------------------------------------------------------------------------------
  // Python slicing, as `get_panels` uses it

  /** How Python normalises one bound of a slice of a list of length `n`: a negative bound
      counts from the end, and the result is clipped to [0, n]. */
  function SliceBound(i: int, n: nat): (b: nat)
    ensures b <= n
    ensures 0 <= i ==> b == if i <= n then i else n
    ensures i < 0 ==> b == if -i <= n then n + i else 0
  {
    if i < 0 then (if i + n < 0 then 0 else i + n) else if i > n then n else i
  }

  /** `s[start:stop]`. */
  function PySlice<T>(s: seq<T>, start: int, stop: int): (r: seq<T>)
    ensures |r| <= |s|
    ensures var lo := SliceBound(start, |s|);
            lo + |r| <= |s| && r == s[lo..lo + |r|]
    ensures var lo, hi := SliceBound(start, |s|), SliceBound(stop, |s|);
            |r| == if lo < hi then hi - lo else 0
  {
    var lo, hi := SliceBound(start, |s|), SliceBound(stop, |s|);
    if lo < hi then s[lo..hi] else []
  }

  /** For a nonnegative offset and limit, a page holds the listed items from `skip` on and at
      most `limit` of them; it is short only when the list runs out. */
  lemma PageOfList<T>(s: seq<T>, skip: int, limit: int)
    requires 0 <= skip && 0 <= limit
    ensures var r := PySlice(s, skip, skip + limit);
            && |r| <= limit
            && (skip + limit <= |s| ==> r == s[skip..skip + limit])
            && (skip <= |s| < skip + limit ==> r == s[skip..])
            && (|s| < skip ==> r == [])
  {
  }

  /** A negative limit counts from the end: with no offset, `limit = -1` lists everything but the
      last item. */
  lemma NegativeLimit<T>(s: seq<T>)
    requires s != []
    ensures PySlice(s, 0, -1) == s[..|s| - 1]
  {
  }

  // ---------------------------------------------------------------------------------------
  // Records the endpoints build

  datatype CleaningKind = Manual | Bulk

  /** One entry of `cleaning_history`. A manual record (from `clean_panel`) also carries the
      120 s duration and type "manual"; a bulk record (from `clean_sector`) carries neither. The
      timestamp is not modelled. */
  datatype CleaningRecord = CleaningRecord(panelId: string, sectorId: string, waterUsed: real, kind: CleaningKind)

  /** The request body of `submit_sensor_data`; a missing timestamp defaults to the clock. */
  datatype SensorData = SensorData(
    panelId: string,
    voltage: real,
    current: real,
    temperature: real,
    dustLevel: real,
    timestamp: Option<string>)

  /** One entry of `sensor_history`. */
  datatype SensorReading = SensorReading(
    panelId: string,
    sectorId: string,
    voltage: real,
    current: real,
    temperature: real,
    dustLevel: real,
    efficiency: real,
    timestamp: string)

  datatype SensorAck = SensorAck(panelId: string, sectorId: string, efficiency: real, needsCleaning: bool)

  datatype PanelPage = PanelPage(total: nat, skip: int, limit: int, panels: seq<PanelRec>)

  datatype CleanReceipt = CleanReceipt(
    panelId: string,
    estimatedDuration: nat,
    waterUsage: real,
    newEfficiency: real,
    newDustLevel: real)

  datatype SectorCleanReport = SectorCleanReport(
    sectorId: string,
    panelsCleaned: nat,
    totalWaterUsed: real,
    estimatedEfficiencyGain: real)

  // ---------------------------------------------------------------------------------------
  // get_panels

  /** `if sector_id:`: an absent and an empty sector id both list every panel. */
  predicate Filtering(sectorId: Option<string>)
  {
    sectorId.Some? && sectorId.value != ""
  }

  predicate Selected(p: PanelRec, sectorId: Option<string>)
  {
    !Filtering(sectorId) || p.sectorId == sectorId.value
  }

  /** `all_panels`: the panels of the sector, or all of them, in table order. */
  function Listed(panels: seq<PanelRec>, sectorId: Option<string>): (r: seq<PanelRec>)
    ensures forall p :: p in r <==> p in panels && Selected(p, sectorId)
  {
    InSectorMembers(panels, if Filtering(sectorId) then sectorId.value else "");
    if Filtering(sectorId) then InSector(panels, sectorId.value) else panels
  }

  /** A panel with its `needs_cleaning` key written. */
  function Flagged(p: PanelRec): (q: PanelRec)
    ensures q.needsCleaningFlag == Some(PanelNeedsCleaning(p)) && PanelNeedsCleaning(q) == PanelNeedsCleaning(p)
    ensures q.(needsCleaningFlag := p.needsCleaningFlag) == p
  {
    p.(needsCleaningFlag := Some(PanelNeedsCleaning(p)))
  }

  /** The `for panel in all_panels` loop: every listed panel gets the flag, the others are left
      alone. */
  method FlagListed(ps: seq<PanelRec>, sectorId: Option<string>) returns (qs: seq<PanelRec>)
    ensures |qs| == |ps|
    ensures forall i :: 0 <= i < |ps| ==> qs[i] == if Selected(ps[i], sectorId) then Flagged(ps[i]) else ps[i]
  {
    qs := ps;
    for i := 0 to |ps|
      invariant |qs| == |ps|
      invariant forall k :: 0 <= k < i ==> qs[k] == if Selected(ps[k], sectorId) then Flagged(ps[k]) else ps[k]
      invariant forall k :: i <= k < |ps| ==> qs[k] == ps[k]
    {
      if Selected(ps[i], sectorId) {
        qs := qs[i := Flagged(ps[i])];
      }
    }
  }

  /** After the loop every listed panel carries the current value of the predicate. */
  lemma ListedFlagged(ps: seq<PanelRec>, qs: seq<PanelRec>, sectorId: Option<string>)
    requires |qs| == |ps|
    requires forall i :: 0 <= i < |ps| ==> qs[i] == if Selected(ps[i], sectorId) then Flagged(ps[i]) else ps[i]
    ensures forall p :: p in Listed(qs, sectorId) ==> p.needsCleaningFlag == Some(PanelNeedsCleaning(p))
  {
    forall p | p in Listed(qs, sectorId) ensures p.needsCleaningFlag == Some(PanelNeedsCleaning(p)) {
      var i :| 0 <= i < |qs| && qs[i] == p;
      assert Selected(ps[i], sectorId);
    }
  }

  // ---------------------------------------------------------------------------------------
  // Cleaning

  /** What a cleaning draws: dust in [50, 150], efficiency in [92, 98]. */
  method CleanReadings() returns (dust: real, efficiency: real)
    ensures 50.0 <= dust <= 150.0 && 92.0 <= efficiency <= 98.0
  {
    dust := Uniform(50.0, 150.0);
    efficiency := Uniform(92.0, 98.0);
  }

  /** `q` is `p` cleaned: fresh dust and efficiency readings in the cleaning ranges, the voltage
      that goes with the efficiency, the flag `flag`, and everything else kept. */
  ghost predicate Cleaned(p: PanelRec, q: PanelRec, flag: Option<bool>)
  {
    && q == p.(dustLevel := q.dustLevel, efficiency := q.efficiency,
               voltage := VoltageAt(q.efficiency), needsCleaningFlag := flag)
    && 50.0 <= q.dustLevel <= 150.0 && 92.0 <= q.efficiency <= 98.0
  }

  /** The effect of `clean_sector` on one table entry: a member of the sector that needs
      cleaning is cleaned (with its cached flag left as it was); every other panel is kept. */
  ghost predicate SectorCleanedEntry(p: PanelRec, q: PanelRec, sid: string)
  {
    if p.sectorId == sid && PanelNeedsCleaning(p) then Cleaned(p, q, p.needsCleaningFlag) else q == p
  }

  /** The history records `clean_sector` appends for the sector's panels, in table order. */
  function BulkRecords(members: seq<PanelRec>, sid: string): (r: seq<CleaningRecord>)
    ensures |r| == NeedingCount(members)
    ensures forall j :: 0 <= j < |r| ==> r[j].sectorId == sid && r[j].waterUsed == WaterPerPanel && r[j].kind == Bulk
  {
    if members == [] then []
    else
      var last := members[|members| - 1];
      BulkRecords(members[..|members| - 1], sid)
        + (if PanelNeedsCleaning(last) then [CleaningRecord(last.panelId, sid, WaterPerPanel, Bulk)] else [])
  }

  /** The records of two runs of panels are those of the first run followed by those of the
      second: the history keeps table order. */
  lemma {:induction false} BulkRecordsConcat(a: seq<PanelRec>, b: seq<PanelRec>, sid: string)
    ensures BulkRecords(a + b, sid) == BulkRecords(a, sid) + BulkRecords(b, sid)
  {
    if b != [] {
      var b0 := b[..|b| - 1];
      assert (a + b)[..|a + b| - 1] == a + b0;
      assert (a + b)[|a + b| - 1] == b[|b| - 1];
      BulkRecordsConcat(a, b0, sid);
    } else {
      assert a + b == a;
    }
  }

  /** One panel gives one record, naming it, exactly when it needs cleaning. */
  lemma BulkRecordsSingle(p: PanelRec, sid: string)
    ensures BulkRecords([p], sid) == if PanelNeedsCleaning(p) then [CleaningRecord(p.panelId, sid, WaterPerPanel, Bulk)] else []
  {
    assert [p][..0] == [];
  }

  /** The `for panel in sector_panels` loop of `clean_sector`. */
  method CleanMembers(ps: seq<PanelRec>, sid: string) returns (qs: seq<PanelRec>, records: seq<CleaningRecord>)
    ensures |qs| == |ps|
    ensures forall i :: 0 <= i < |ps| ==> SectorCleanedEntry(ps[i], qs[i], sid)
    ensures records == BulkRecords(InSector(ps, sid), sid)
  {
    qs, records := ps, [];
    for i := 0 to |ps|
      invariant |qs| == |ps|
      invariant forall k :: 0 <= k < i ==> SectorCleanedEntry(ps[k], qs[k], sid)
      invariant forall k :: i <= k < |ps| ==> qs[k] == ps[k]
      invariant records == BulkRecords(InSector(ps[..i], sid), sid)
    {
      assert ps[..i + 1][..i] == ps[..i];
      var p := ps[i];
      if p.sectorId == sid && PanelNeedsCleaning(p) {
        var dust, efficiency := CleanReadings();
        qs := qs[i := p.(dustLevel := dust, efficiency := efficiency, voltage := VoltageAt(efficiency))];
        records := records + [CleaningRecord(p.panelId, sid, WaterPerPanel, Bulk)];
      }
    }
    assert ps[..|ps|] == ps;
  }

  /** `cleaned_count * 10 / len(sector_panels)`: ten points per cleaned panel, averaged over
      the sector, so never more than 10. */
  function EfficiencyGain(count: nat, members: nat): (g: real)
    requires 0 < members && count <= members
    ensures 0.0 <= g <= 10.0
    ensures count == 0 <==> g == 0.0
    ensures count == members <==> g == 10.0
  {
    var n, a := members as real, (count * 10) as real;
    var g := a / n;
    assert g * n == a;
    assert a <= 10.0 * n && (a == 10.0 * n <==> count == members);
    g
  }

  /** After `clean_sector` no panel of the sector needs cleaning. */
  lemma SectorClean(ps: seq<PanelRec>, qs: seq<PanelRec>, sid: string)
    requires |qs| == |ps|
    requires forall i :: 0 <= i < |ps| ==> SectorCleanedEntry(ps[i], qs[i], sid)
    ensures NeedingCount(InSector(qs, sid)) == 0
  {
    var m := InSector(qs, sid);
    forall j | 0 <= j < |m| ensures !PanelNeedsCleaning(m[j]) {
      assert m[j] in qs && m[j].sectorId == sid by {
        InSectorMembers(qs, sid);
      }
      var i :| 0 <= i < |qs| && qs[i] == m[j];
      assert SectorCleanedEntry(ps[i], qs[i], sid);
      assert ps[i].sectorId == sid;
    }
    NeedingCountZero(m);
  }

  // ---------------------------------------------------------------------------------------
  // One tick of the stream

  /** `95 - (dust / 1000) * 15`: the efficiency the dust level allows. */
  function DustEfficiency(dust: real): (e: real)
    ensures 0.0 <= dust ==> e <= 95.0
    ensures dust <= MaxDust ==> 83.0 <= e
  {
    95.0 - (dust / 1000.0) * 15.0
  }

  /** `q` is `p` after one tick: dust raised by a draw from [0, 0.5] and capped at 800, then
      the efficiency recomputed from the new dust plus a draw from [-1, 1] and raised to at
      least 70, and the voltage that goes with it. */
  ghost predicate Drifted(p: PanelRec, q: PanelRec)
  {
    && q == p.(dustLevel := q.dustLevel, efficiency := q.efficiency, voltage := VoltageAt(q.efficiency))
    && Min(MaxDust, p.dustLevel) <= q.dustLevel <= Min(MaxDust, p.dustLevel + 0.5)
    && Max(MinEfficiency, DustEfficiency(q.dustLevel) - 1.0) <= q.efficiency
    && q.efficiency <= Max(MinEfficiency, DustEfficiency(q.dustLevel) + 1.0)
  }

  method DriftPanel(p: PanelRec) returns (q: PanelRec)
    ensures Drifted(p, q)
    ensures q.dustLevel <= MaxDust && q.efficiency >= MinEfficiency
  {
    var rise := Uniform(0.0, 0.5);
    var dust := Min(MaxDust, p.dustLevel + rise);
    var noise := Uniform(-1.0, 1.0);
    var efficiency := Max(MinEfficiency, DustEfficiency(dust) + noise);
    q := p.(dustLevel := dust, efficiency := efficiency, voltage := VoltageAt(efficiency));
  }

  /** The `for panel in panels_db.values()` update loop. */
  method DriftAll(ps: seq<PanelRec>) returns (qs: seq<PanelRec>)
    ensures |qs| == |ps|
    ensures forall i :: 0 <= i < |ps| ==> Drifted(ps[i], qs[i])
    ensures forall i :: 0 <= i < |qs| ==> qs[i].dustLevel <= MaxDust && qs[i].efficiency >= MinEfficiency
  {
    qs := ps;
    for i := 0 to |ps|
      invariant |qs| == |ps|
      invariant forall k :: 0 <= k < i ==> Drifted(ps[k], qs[k]) && qs[k].dustLevel <= MaxDust && qs[k].efficiency >= MinEfficiency
      invariant forall k :: i <= k < |ps| ==> qs[k] == ps[k]
    {
      var q := DriftPanel(ps[i]);
      qs := qs[i := q];
    }
  }

  /** `k` distinct positions of a list of length `n`. */
  predicate DistinctPositions(picks: seq<nat>, n: nat, k: nat)
  {
    && |picks| == k
    && (forall i :: 0 <= i < |picks| ==> picks[i] < n)
    && (forall i, j :: 0 <= i < j < |picks| ==> picks[i] != picks[j])
  }

  /** `random.sample(list(panels_db.values()), k)`, which raises `ValueError` when the list is
      shorter than `k`. */
  method Sample(n: nat, k: nat) returns (picks: Option<seq<nat>>)
    ensures picks.None? <==> n < k
    ensures picks.Some? ==> DistinctPositions(picks.value, n, k)
  {
    if n < k {
      return None;
    }
    assert DistinctPositions(seq(k, i => i), n, k);
    var chosen :| DistinctPositions(chosen, n, k);
    picks := Some(chosen);
  }

  /** `s` is the frame entry for panel `p`: its stored readings, a current drawn from
      5 +- 0.3 A, a temperature drawn from 32 +- 3 degrees and the power at 5 A. */
  ghost predicate SampleOf(s: SamplePanel, p: PanelRec)
  {
    && s.id == p.panelId && s.sector == p.sectorId
    && s.voltage == p.voltage && s.efficiency == p.efficiency && s.dustLevel == p.dustLevel
    && 4.7 <= s.current <= 5.3 && 29.0 <= s.temperature <= 35.0
    && s.powerOutput == p.voltage * 5.0
  }

  /** `s` is the frame entry of some panel of the table. */
  ghost predicate SampledFrom(s: SamplePanel, ps: seq<PanelRec>)
  {
    exists i :: 0 <= i < |ps| && SampleOf(s, ps[i])
  }

  /** The `sample_panels` list: one entry for each of the first picks, in pick order. The
      sampled dicts are the table's own, so the entries show the values after the update. */
  method BuildSamples(ps: seq<PanelRec>, picks: seq<nat>) returns (samples: seq<SamplePanel>)
    requires forall j :: 0 <= j < |picks| ==> picks[j] < |ps|
    ensures |samples| == |picks|
    ensures forall j :: 0 <= j < |picks| ==> SampleOf(samples[j], ps[picks[j]])
  {
    samples := [];
    for j := 0 to |picks|
      invariant |samples| == j
      invariant forall k :: 0 <= k < j ==> SampleOf(samples[k], ps[picks[k]])
    {
      var p := ps[picks[j]];
      var current := Uniform(-0.3, 0.3);
      var temperature := Uniform(-3.0, 3.0);
      samples := samples + [SamplePanel(p.panelId, p.sectorId, p.voltage, 5.0 + current, p.efficiency,
                                        p.dustLevel, 32.0 + temperature, p.voltage * 5.0)];
    }
  }

  /** The `weather` object: 32 +- 2 degrees, 45 +- 5 % humidity, 3.5 +- 1 wind, "clear". */
  method DrawWeather() returns (w: Weather)
    ensures 30.0 <= w.temperature <= 34.0 && 40.0 <= w.humidity <= 50.0
    ensures 2.5 <= w.windSpeed <= 4.5 && w.conditions == "clear"
  {
    var t := Uniform(-2.0, 2.0);
    var h := Uniform(-5.0, 5.0);
    var s := Uniform(-1.0, 1.0);
    w := Weather(32.0 + t, 45.0 + h, 3.5 + s, "clear");
  }

  /** The `sector_summaries` loop over a list of sectors: one entry per sector that has panels. */
  function StreamSummaries(panels: seq<PanelRec>, sectors: seq<SectorRec>): (r: seq<SectorSummary>)
    ensures |r| <= |sectors|
    ensures forall i :: 0 <= i < |r| ==>
              var members := InSector(panels, r[i].sectorId);
              && members != []
              && r[i].efficiency == MeanEfficiency(members)
              && r[i].panelsNeedingCleaning == NeedingCount(members)
  {
    if sectors == [] then []
    else
      var rest := StreamSummaries(panels, sectors[..|sectors| - 1]);
      var sid := sectors[|sectors| - 1].sectorId;
      var members := InSector(panels, sid);
      if members != [] then rest + [SectorSummary(sid, MeanEfficiency(members), NeedingCount(members))]
      else rest
  }

  /** The summaries of two runs of sectors are those of the first run followed by those of the
      second: the summaries keep the order of the sector list. */
  lemma {:induction false} StreamSummariesConcat(panels: seq<PanelRec>, a: seq<SectorRec>, b: seq<SectorRec>)
    ensures StreamSummaries(panels, a + b) == StreamSummaries(panels, a) + StreamSummaries(panels, b)
  {
    if b != [] {
      var b0 := b[..|b| - 1];
      assert (a + b)[..|a + b| - 1] == a + b0;
      assert (a + b)[|a + b| - 1] == b[|b| - 1];
      StreamSummariesConcat(panels, a, b0);
    } else {
      assert a + b == a;
    }
  }

  /** One sector gives one summary, for that sector, exactly when it has panels. */
  lemma StreamSummariesSingle(panels: seq<PanelRec>, sector: SectorRec)
    ensures var members := InSector(panels, sector.sectorId);
            StreamSummaries(panels, [sector])
              == if members != [] then [SectorSummary(sector.sectorId, MeanEfficiency(members), NeedingCount(members))] else []
  {
    assert [sector][..0] == [];
  }

  /** Every sector of the list that has panels is summarised. */
  lemma {:induction false} StreamSummariesComplete(panels: seq<PanelRec>, sectors: seq<SectorRec>, k: nat)
    requires k < |sectors| && InSector(panels, sectors[k].sectorId) != []
    ensures exists i :: 0 <= i < |StreamSummaries(panels, sectors)| && StreamSummaries(panels, sectors)[i].sectorId == sectors[k].sectorId
  {
    var init := sectors[..|sectors| - 1];
    if k == |sectors| - 1 {
      var r := StreamSummaries(panels, sectors);
      assert r[|r| - 1].sectorId == sectors[k].sectorId;
    } else {
      assert init[k] == sectors[k];
      StreamSummariesComplete(panels, init, k);
      var i :| 0 <= i < |StreamSummaries(panels, init)| && StreamSummaries(panels, init)[i].sectorId == sectors[k].sectorId;
      assert StreamSummaries(panels, sectors)[i] == StreamSummaries(panels, init)[i];
    }
  }

  /** Every summary is for a sector of the list. */
  lemma {:induction false} StreamSummariesFromList(panels: seq<PanelRec>, sectors: seq<SectorRec>, i: nat)
    requires i < |StreamSummaries(panels, sectors)|
    ensures exists k :: 0 <= k < |sectors| && sectors[k].sectorId == StreamSummaries(panels, sectors)[i].sectorId
  {
    var init := sectors[..|sectors| - 1];
    var rest := StreamSummaries(panels, init);
    if i < |rest| {
      assert StreamSummaries(panels, sectors)[i] == rest[i];
      StreamSummariesFromList(panels, init, i);
      var k :| 0 <= k < |init| && init[k].sectorId == rest[i].sectorId;
      assert sectors[k] == init[k];
    } else {
      assert StreamSummaries(panels, sectors)[i].sectorId == sectors[|sectors| - 1].sectorId;
    }
  }

  /** The `farm_statistics` object of a non-empty table. */
  function StreamStatistics(panels: seq<PanelRec>): (r: FarmStatistics)
    requires panels != []
    ensures r.totalEfficiency == MeanEfficiency(panels)
    ensures r.panelsNeedingCleaning == NeedingCount(panels) && 0 <= r.panelsNeedingCleaning <= |panels|
    ensures PercentOf(r.cleaningPercentage, NeedingCount(panels), |panels|)
    ensures 0.0 <= r.cleaningPercentage <= 100.0
    ensures r.totalPowerOutputMw * 1000000.0 == SumPower(panels)
  {
    var needing := NeedingCount(panels);
    ShareOf(needing, |panels|);
    FarmStatistics(MeanEfficiency(panels), needing, SumPower(panels) / 1000000.0,
                   (needing as real / |panels| as real) * 100.0)
  }

  // ---------------------------------------------------------------------------------------
  // submit_sensor_data

  /** A panel after `submit_sensor_data`: the measured voltage and dust and the efficiency
      `calculate_efficiency` derives from voltage and current; the cached flag is not touched. */
  function WithSensorData(p: PanelRec, data: SensorData): (q: PanelRec)
    ensures q.panelId == p.panelId && q.sectorId == p.sectorId
    ensures q.voltage == data.voltage && q.dustLevel == data.dustLevel
    ensures q.efficiency == CalculateEfficiency(data.voltage, data.current) && 0.0 <= q.efficiency <= 100.0
    ensures q.capacity == p.capacity && q.needsCleaningFlag == p.needsCleaningFlag
  {
    p.(voltage := data.voltage, efficiency := CalculateEfficiency(data.voltage, data.current),
       dustLevel := data.dustLevel)
  }

  /** The reading stored for updated panel `q`: the request's values, the efficiency computed
      from them, and the request's timestamp or else the clock reading `now`. */
  function ReadingOf(data: SensorData, q: PanelRec, now: string): (r: SensorReading)
    ensures r.panelId == data.panelId && r.sectorId == q.sectorId && r.efficiency == q.efficiency
    ensures r.voltage == data.voltage && r.current == data.current && r.dustLevel == data.dustLevel
            && r.temperature == data.temperature
    ensures data.timestamp.Some? ==> r.timestamp == data.timestamp.value
    ensures data.timestamp.None? ==> r.timestamp == now
  {
    SensorReading(data.panelId, q.sectorId, data.voltage, data.current, data.temperature,
                  data.dustLevel, q.efficiency, if data.timestamp.Some? then data.timestamp.value else now)
  }

  /** `sensor_history.append(r)` followed by `if len(...) > 10000: sensor_history.pop(0)`. */
  function Appended(history: seq<SensorReading>, r: SensorReading): (h: seq<SensorReading>)
    ensures 1 <= |h| <= |history| + 1 && h[|h| - 1] == r
    ensures h[..|h| - 1] == history[|history| + 1 - |h|..]
  {
    var h := history + [r];
    if |h| > MaxSensorHistory then h[1..] else h
  }

  /** From a history within the bound, the history stays within the bound, ends with the new
      reading, and holds the most recent readings in order. */
  lemma AppendedRecent(history: seq<SensorReading>, r: SensorReading)
    requires |history| <= MaxSensorHistory
    ensures var h := Appended(history, r);
            && |h| == (if |history| < MaxSensorHistory then |history| + 1 else MaxSensorHistory)
            && h[|h| - 1] == r
            && h == (history + [r])[|history| + 1 - |h|..]
  {
  }

  lemma AppendedBound(history: seq<SensorReading>, r: SensorReading)
    requires |history| <= MaxSensorHistory
    ensures |Appended(history, r)| <= MaxSensorHistory
  {
  }

  // ---------------------------------------------------------------------------------------
  // The state

  ghost predicate UniqueSectorIds(sectors: seq<SectorRec>)
  {
    forall i, j :: 0 <= i < j < |sectors| ==> sectors[i].sectorId != sectors[j].sectorId
  }

  /** Every entry keeps its key and its sector. */
  ghost predicate SameKeys(a: seq<PanelRec>, b: seq<PanelRec>)
  {
    && |a| == |b|
    && forall i :: 0 <= i < |a| ==> b[i].panelId == a[i].panelId && b[i].sectorId == a[i].sectorId
  }

  lemma SameKeysUnique(a: seq<PanelRec>, b: seq<PanelRec>)
    requires SameKeys(a, b) && UniqueIds(a)
    ensures UniqueIds(b)
  {
    forall i, j | 0 <= i < j < |b| ensures b[i].panelId != b[j].panelId {
      assert a[i].panelId != a[j].panelId;
    }
  }

  class FarmDb {
    var panels: seq<PanelRec>
    var sectors: seq<SectorRec>
    var sensorHistory: seq<SensorReading>
    var cleaningHistory: seq<CleaningRecord>

    /** The keys of both tables are distinct (they are dict keys) and the sensor history is
        within its bound. */
    ghost predicate Valid()
      reads this
    {
      && UniqueIds(panels)
      && UniqueSectorIds(sectors)
      && |sensorHistory| <= MaxSensorHistory
    }

    /** Module start-up: `panels_db, sectors_db = generate_solar_farm()` and empty histories. */
    constructor ()
      ensures Valid()
      ensures FreshFarm(panels, sectors)
      ensures sensorHistory == [] && cleaningHistory == []
    {
      var ps, ss := GenerateSolarFarm();
      panels, sectors := ps, ss;
      sensorHistory, cleaningHistory := [], [];
    }

    /** `get_panels(skip, limit, sector_id)`. */
    method GetPanels(skip: int, limit: int, sectorId: Option<string>) returns (page: PanelPage)
      requires Valid()
      modifies this
      ensures Valid()
      ensures sectors == old(sectors) && sensorHistory == old(sensorHistory) && cleaningHistory == old(cleaningHistory)
      ensures |panels| == |old(panels)|
      ensures forall i :: 0 <= i < |panels| ==>
                panels[i] == if Selected(old(panels)[i], sectorId) then Flagged(old(panels)[i]) else old(panels)[i]
      ensures page == PanelPage(|Listed(panels, sectorId)|, skip, limit,
                                PySlice(Listed(panels, sectorId), skip, skip + limit))
      ensures forall p :: p in page.panels ==> p.needsCleaningFlag == Some(PanelNeedsCleaning(p))
    {
      var qs := FlagListed(panels, sectorId);
      SameKeysUnique(panels, qs);
      ListedFlagged(panels, qs, sectorId);
      panels := qs;
      var listed := Listed(qs, sectorId);
      page := PanelPage(|listed|, skip, limit, PySlice(listed, skip, skip + limit));
    }

    /** `clean_panel(panel_id)`. */
    method CleanPanel(id: string) returns (r: Result<CleanReceipt, Failure>)
      requires Valid()
      modifies this
      ensures Valid()
      ensures sectors == old(sectors) && sensorHistory == old(sensorHistory)
      ensures r.Err? <==> IndexOf(old(panels), id).None?
      ensures r.Err? ==> r.error == NotFound("Panel not found") && panels == old(panels) && cleaningHistory == old(cleaningHistory)
      ensures r.Ok? ==>
                var i := IndexOf(old(panels), id).value;
                && i < |panels| == |old(panels)|
                && panels == old(panels)[i := panels[i]]
                && Cleaned(old(panels)[i], panels[i], Some(false))
                && !PanelNeedsCleaning(panels[i])
                && cleaningHistory == old(cleaningHistory) + [CleaningRecord(id, panels[i].sectorId, WaterPerPanel, Manual)]
                && r.value == CleanReceipt(id, CleanDuration, WaterPerPanel, panels[i].efficiency, panels[i].dustLevel)
    {
      var found := IndexOf(panels, id);
      if found.None? {
        return Err(NotFound("Panel not found"));
      }
      var i := found.value;
      var dust, efficiency := CleanReadings();
      var q := panels[i].(dustLevel := dust, efficiency := efficiency, voltage := VoltageAt(efficiency),
                          needsCleaningFlag := Some(false));
      SameKeysUnique(panels, panels[i := q]);
      panels := panels[i := q];
      cleaningHistory := cleaningHistory + [CleaningRecord(id, q.sectorId, WaterPerPanel, Manual)];
      r := Ok(CleanReceipt(id, CleanDuration, WaterPerPanel, efficiency, dust));
    }

    /** `clean_sector(sector_id)`. */
    method CleanSector(sid: string) returns (r: Result<SectorCleanReport, Failure>)
      requires Valid()
      modifies this
      ensures Valid()
      ensures sectors == old(sectors) && sensorHistory == old(sensorHistory)
      ensures r.Err? <==> InSector(old(panels), sid) == []
      ensures r.Err? ==> r.error == NotFound("Sector not found") && panels == old(panels) && cleaningHistory == old(cleaningHistory)
      ensures r.Ok? ==>
                var members := InSector(old(panels), sid);
                && |panels| == |old(panels)|
                && (forall i :: 0 <= i < |panels| ==> SectorCleanedEntry(old(panels)[i], panels[i], sid))
                && NeedingCount(InSector(panels, sid)) == 0
                && cleaningHistory == old(cleaningHistory) + BulkRecords(members, sid)
                && r.value.sectorId == sid
                && r.value.panelsCleaned == NeedingCount(members)
                && r.value.totalWaterUsed == r.value.panelsCleaned as real * WaterPerPanel
                && r.value.estimatedEfficiencyGain == EfficiencyGain(r.value.panelsCleaned, |members|)
    {
      var members := InSector(panels, sid);
      if members == [] {
        return Err(NotFound("Sector not found"));
      }
      var qs, records := CleanMembers(panels, sid);
      SectorClean(panels, qs, sid);
      SameKeysUnique(panels, qs);
      panels := qs;
      cleaningHistory := cleaningHistory + records;
      var count := |records|;
      r := Ok(SectorCleanReport(sid, count, count as real * WaterPerPanel, EfficiencyGain(count, |members|)));
    }

    /** One pass of the `while True` loop of `/ws`: sample 50 panels (ending the connection
        with `ValueError` when there are fewer), update every panel, and build the frame. The
        three-second sleep and the send are left to the caller. */
    method StreamTick(timestamp: string) returns (frame: Option<Frame>)
      requires Valid()
      modifies this
      ensures Valid()
      ensures sectors == old(sectors) && sensorHistory == old(sensorHistory) && cleaningHistory == old(cleaningHistory)
      ensures frame.None? <==> |old(panels)| < SampleSize
      ensures frame.None? ==> panels == old(panels)
      ensures frame.Some? ==>
                && |panels| == |old(panels)|
                && (forall i :: 0 <= i < |panels| ==> Drifted(old(panels)[i], panels[i]))
                && (forall i :: 0 <= i < |panels| ==>
                      panels[i].dustLevel <= MaxDust && panels[i].efficiency >= MinEfficiency
                      && panels[i].voltage == VoltageAt(panels[i].efficiency))
                && frame.value.timestamp == timestamp
                && frame.value.farmStatistics == Some(StreamStatistics(panels))
                && frame.value.sectorSummaries == Some(StreamSummaries(panels, Take(sectors, SummarySectors)))
                && |frame.value.sectorSummaries.value| <= SummarySectors
                && frame.value.samplePanels.Some?
                && |frame.value.samplePanels.value| == SamplesSent
                && (forall j :: 0 <= j < SamplesSent ==> SampledFrom(frame.value.samplePanels.value[j], panels))
                && (forall j, k :: 0 <= j < k < SamplesSent ==>
                      frame.value.samplePanels.value[j].id != frame.value.samplePanels.value[k].id)
                && frame.value.panels.None? && frame.value.systemStatus.None?
                && frame.value.weather.Some? && frame.value.weather.value.conditions == "clear"
    {
      var picked := Sample(|panels|, SampleSize);
      if picked.None? {
        return None;
      }
      var picks := picked.value;
      var qs := DriftAll(panels);
      SameKeysUnique(panels, qs);
      panels := qs;
      var samples := BuildSamples(qs, picks[..SamplesSent]);
      SamplesDistinct(qs, picks[..SamplesSent], samples);
      var weather := DrawWeather();
      var summaries := StreamSummaries(qs, Take(sectors, SummarySectors));
      frame := Some(Frame(timestamp, Some(StreamStatistics(qs)), Some(summaries), Some(samples), None, None, Some(weather)));
    }

    /** `submit_sensor_data(data)`; `now` is the clock reading used when the data carries no
        timestamp. */
    method SubmitSensorData(data: SensorData, now: string) returns (r: Result<SensorAck, Failure>)
      requires Valid()
      modifies this
      ensures Valid()
      ensures sectors == old(sectors) && cleaningHistory == old(cleaningHistory)
      ensures r.Err? <==> IndexOf(old(panels), data.panelId).None?
      ensures r.Err? ==> r.error == NotFound("Panel not found") && panels == old(panels) && sensorHistory == old(sensorHistory)
      ensures r.Ok? ==>
                var i := IndexOf(old(panels), data.panelId).value;
                var q := WithSensorData(old(panels)[i], data);
                && i < |old(panels)|
                && panels == old(panels)[i := q]
                && sensorHistory == Appended(old(sensorHistory), ReadingOf(data, q, now))
                && r.value == SensorAck(data.panelId, q.sectorId, q.efficiency, PanelNeedsCleaning(q))
    {
      var found := IndexOf(panels, data.panelId);
      if found.None? {
        return Err(NotFound("Panel not found"));
      }
      var i := found.value;
      var q := WithSensorData(panels[i], data);
      SameKeysUnique(panels, panels[i := q]);
      panels := panels[i := q];
      var reading := ReadingOf(data, q, now);
      AppendedBound(sensorHistory, reading);
      sensorHistory := Appended(sensorHistory, reading);
      r := Ok(SensorAck(data.panelId, q.sectorId, q.efficiency, PanelNeedsCleaning(q)));
    }
  }

  /** Samples of distinct positions of a table with distinct keys are of distinct panels. */
  lemma SamplesDistinct(ps: seq<PanelRec>, picks: seq<nat>, samples: seq<SamplePanel>)
    requires UniqueIds(ps)
    requires forall j :: 0 <= j < |picks| ==> picks[j] < |ps|
    requires forall j, k :: 0 <= j < k < |picks| ==> picks[j] != picks[k]
    requires |samples| == |picks|
    requires forall j :: 0 <= j < |picks| ==> SampleOf(samples[j], ps[picks[j]])
    ensures forall j :: 0 <= j < |samples| ==> SampledFrom(samples[j], ps)
    ensures forall j, k :: 0 <= j < k < |samples| ==> samples[j].id != samples[k].id
  {
    forall j | 0 <= j < |samples| ensures SampledFrom(samples[j], ps) {
      var i := picks[j];
      assert 0 <= i < |ps| && SampleOf(samples[j], ps[i]);
    }
    forall j, k | 0 <= j < k < |samples| ensures samples[j].id != samples[k].id {
      assert SampleOf(samples[j], ps[picks[j]]) && SampleOf(samples[k], ps[picks[k]]);
      if picks[j] < picks[k] {
        assert ps[picks[j]].panelId != ps[picks[k]].panelId;
      } else {
        assert ps[picks[k]].panelId != ps[picks[j]].panelId;
      }
    }
  }
}
