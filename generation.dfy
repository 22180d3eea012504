/** `generate_solar_farm` of solar-panel-backend/main.py: a 9 x 9 grid of sectors, each holding
    33 +- 3 panels with consecutive ids, and the per-sector counters and averages. The random
    draws are nondeterministic choices inside the ranges the source draws from; the geographic
    coordinates and `last_cleaned` dates are not modelled. */
module Generation {
  import opened Wrappers
  import opened Farm

  /** The table's ids in insertion order are PNL-0001, PNL-0002, ... */
  ghost predicate Consecutive(panels: seq<PanelRec>)
  {
    forall i :: 0 <= i < |panels| ==> panels[i].panelId == PanelId(i + 1)
  }

  /** The three bands the initial readings are drawn from: good, fair and needing attention.
      Each efficiency range comes with its own dust range. */
  predicate InBands(efficiency: real, dust: real)
  {
    || (88.0 <= efficiency <= 95.0 && 100.0 <= dust <= 250.0)
    || (82.0 <= efficiency <= 88.0 && 250.0 <= dust <= 350.0)
    || (75.0 <= efficiency <= 82.0 && 350.0 <= dust <= 500.0)
  }

  /** The coupling decides the backend's needs-cleaning rule at the extremes: a panel drawn
      above 88 % is clean enough and one drawn below 82 % needs cleaning. */
  lemma BandsCleaning(efficiency: real, dust: real)
    requires InBands(efficiency, dust)
    ensures efficiency > 88.0 ==> !NeedsCleaning(dust, efficiency)
    ensures efficiency < 82.0 ==> NeedsCleaning(dust, efficiency)
  {
  }

  /** What the generator stores for a new panel of sector `sid`. */
  ghost predicate InitialPanel(p: PanelRec, sid: string)
  {
    && p.sectorId == sid
    && p.capacity == PanelCapacity
    && InBands(p.efficiency, p.dustLevel)
    && p.voltage == VoltageAt(p.efficiency)
    && p.needsCleaningFlag.None?
  }

  /** A good efficiency with the dust of the worst band, though inside both ranges, is not a
      generated panel. */
  lemma HullCornerNotInitial(p: PanelRec, sid: string)
    requires p.efficiency == 94.0 && p.dustLevel == 499.0
    ensures !InitialPanel(p, sid)
  {
  }

  /** `sid` is the key of one of the listed sectors. */
  ghost predicate KnownSector(sectors: seq<SectorRec>, sid: string)
  {
    exists k :: 0 <= k < |sectors| && sectors[k].sectorId == sid
  }

  /** The sector generated at grid position `k`, before its average is computed. */
  ghost predicate SectorCounted(s: SectorRec, k: nat, panels: seq<PanelRec>)
  {
    && s.row == GridRow(k) && s.col == GridCol(k)
    && GridRow(k) < SectorsPerSide && s.sectorId == SectorId(GridRow(k), GridCol(k))
    && PanelsPerSector - 3 <= s.panelCount <= PanelsPerSector + 3
    && s.panelCount == |InSector(panels, s.sectorId)|
    && s.totalCapacity == PanelCapacity * s.panelCount
  }

  /** The state of the generator after the first |sectors| grid positions. */
  ghost predicate FarmSoFar(panels: seq<PanelRec>, sectors: seq<SectorRec>)
  {
    && |sectors| <= TotalSectors
    && Consecutive(panels)
    && |panels| <= 36 * |sectors|
    && (forall k :: 0 <= k < |sectors| ==> SectorCounted(sectors[k], k, panels))
    && (forall i :: 0 <= i < |panels| ==>
          InitialPanel(panels[i], panels[i].sectorId) && KnownSector(sectors, panels[i].sectorId))
  }

  /** Consecutive ids below 10000 are distinct, and the next id is fresh. */
  lemma ConsecutiveUnique(panels: seq<PanelRec>)
    requires Consecutive(panels) && |panels| + 1 < 10000
    ensures UniqueIds(panels)
    ensures forall i :: 0 <= i < |panels| ==> panels[i].panelId != PanelId(|panels| + 1)
  {
    forall i | 0 <= i < |panels| ensures panels[i].panelId != PanelId(|panels| + 1) {
      PanelIdInjective(i + 1, |panels| + 1);
    }
    forall i, j | 0 <= i < j < |panels| ensures panels[i].panelId != panels[j].panelId {
      PanelIdInjective(i + 1, j + 1);
    }
  }

  /** The generation order visits each grid position once, so the sector keys are distinct. */
  lemma SectorKeysDistinct(panels: seq<PanelRec>, sectors: seq<SectorRec>)
    requires forall k :: 0 <= k < |sectors| ==> SectorCounted(sectors[k], k, panels)
    ensures forall i, j :: 0 <= i < j < |sectors| ==> sectors[i].sectorId != sectors[j].sectorId
  {
    forall i, j | 0 <= i < j < |sectors| ensures sectors[i].sectorId != sectors[j].sectorId {
      assert SectorCounted(sectors[i], i, panels) && SectorCounted(sectors[j], j, panels);
      GridIndexDistinct(i, j);
      if sectors[i].sectorId == sectors[j].sectorId {
        SectorIdInjective(GridRow(i), GridCol(i), GridRow(j), GridCol(j));
      }
    }
  }

  /** One panel's initial efficiency and dust: 60 % good, 25 % fair, 15 % needing attention. */
  method InitialReadings() returns (efficiency: real, dust: real)
    ensures InBands(efficiency, dust)
  {
    // random.random() lies in [0, 1)
    var draw := Uniform(0.0, 1.0);
    if draw < 0.6 {
      efficiency := Uniform(88.0, 95.0);
      dust := Uniform(100.0, 250.0);
    } else if draw < 0.85 {
      efficiency := Uniform(82.0, 88.0);
      dust := Uniform(250.0, 350.0);
    } else {
      efficiency := Uniform(75.0, 82.0);
      dust := Uniform(350.0, 500.0);
    }
  }

  /** The inner `for p in range(panels_in_sector)` loop: `count` new panels of sector `sid`,
      each with the next id. */
  method AddSectorPanels(panels0: seq<PanelRec>, sid: string, count: nat)
    returns (panels: seq<PanelRec>)
    requires Consecutive(panels0)
    ensures Consecutive(panels)
    ensures |panels| == |panels0| + count && panels[..|panels0|] == panels0
    ensures forall i :: |panels0| <= i < |panels| ==> InitialPanel(panels[i], sid)
  {
    panels := panels0;
    for p := 0 to count
      invariant Consecutive(panels)
      invariant |panels| == |panels0| + p && panels[..|panels0|] == panels0
      invariant forall i :: |panels0| <= i < |panels| ==> InitialPanel(panels[i], sid)
    {
      var efficiency, dust := InitialReadings();
      panels := panels + [PanelRec(PanelId(|panels| + 1), sid, PanelCapacity, efficiency, dust,
                                   VoltageAt(efficiency), None)];
    }
  }

  /** Appending the panels of a new sector leaves the views of the other sectors as they were. */
  lemma AddedPanelsViews(panels0: seq<PanelRec>, panels: seq<PanelRec>, sid: string)
    requires |panels0| <= |panels| && panels[..|panels0|] == panels0
    requires forall i :: |panels0| <= i < |panels| ==> panels[i].sectorId == sid
    ensures forall s :: InSector(panels, s) == InSector(panels0, s) + (if s == sid then panels[|panels0|..] else [])
  {
    forall s ensures InSector(panels, s) == InSector(panels0, s) + (if s == sid then panels[|panels0|..] else []) {
      AddedPanelsView(panels0, panels, sid, s);
    }
  }

  lemma AddedPanelsView(panels0: seq<PanelRec>, panels: seq<PanelRec>, sid: string, s: string)
    requires |panels0| <= |panels| && panels[..|panels0|] == panels0
    requires forall i :: |panels0| <= i < |panels| ==> panels[i].sectorId == sid
    ensures InSector(panels, s) == InSector(panels0, s) + (if s == sid then panels[|panels0|..] else [])
  {
    var added := panels[|panels0|..];
    assert panels == panels0 + added;
    InSectorConcat(panels0, added, s);
    InSectorUniform(added, sid, s);
  }

  /** The body of the two nested loops for grid position (row, col): the sector record with its
      `panel_count` and `total_capacity` counters, and its panels. */
  method AddSector(panels0: seq<PanelRec>, sectors0: seq<SectorRec>, row: nat, col: nat)
    returns (panels: seq<PanelRec>, sectors: seq<SectorRec>)
    requires row < SectorsPerSide && col < SectorsPerSide
    requires |sectors0| == GridIndex(row, col)
    requires FarmSoFar(panels0, sectors0)
    ensures FarmSoFar(panels, sectors)
    ensures |sectors| == |sectors0| + 1 && sectors[..|sectors0|] == sectors0
  {
    var sid := SectorId(row, col);
    GridIndexRoundTrip(row, col);
    var variation := RandInt(-3, 3);
    var count: nat := PanelsPerSector + variation;
    panels := AddSectorPanels(panels0, sid, count);
    var sector := SectorRec(sid, row, col, count, PanelCapacity * count, 0.0);
    sectors := sectors0 + [sector];
    AddedPanelsViews(panels0, panels, sid);
    Step(panels0, sectors0, panels, sectors, sid, count);
  }

  /** The proof obligations of one grid position, apart from the method's own statements. */
  lemma Step(panels0: seq<PanelRec>, sectors0: seq<SectorRec>, panels: seq<PanelRec>,
             sectors: seq<SectorRec>, sid: string, count: nat)
    requires FarmSoFar(panels0, sectors0) && |sectors0| < TotalSectors
    requires sid == SectorId(GridRow(|sectors0|), GridCol(|sectors0|)) && GridRow(|sectors0|) < SectorsPerSide
    requires PanelsPerSector - 3 <= count <= PanelsPerSector + 3
    requires sectors == sectors0 + [SectorRec(sid, GridRow(|sectors0|), GridCol(|sectors0|), count, PanelCapacity * count, 0.0)]
    requires Consecutive(panels)
    requires |panels| == |panels0| + count && panels[..|panels0|] == panels0
    requires forall i :: |panels0| <= i < |panels| ==> InitialPanel(panels[i], sid)
    requires forall s :: InSector(panels, s) == InSector(panels0, s) + (if s == sid then panels[|panels0|..] else [])
    ensures FarmSoFar(panels, sectors)
  {
    NewSectorFresh(panels0, sectors0);
    NewSectorEmpty(panels0, sectors0, sid);
    forall j | 0 <= j < |sectors0|
      ensures InSector(panels, sectors0[j].sectorId) == InSector(panels0, sectors0[j].sectorId) + []
    {
    }
    StepSectors(panels0, sectors0, panels, sectors, sid, count);
    StepPanels(panels0, sectors0, panels, sectors, sid, count);
  }

  /** Step's half about the sector table: the new sector counts exactly its own panels, and the
      earlier ones keep theirs. */
  lemma StepSectors(panels0: seq<PanelRec>, sectors0: seq<SectorRec>, panels: seq<PanelRec>,
                    sectors: seq<SectorRec>, sid: string, count: nat)
    requires forall j :: 0 <= j < |sectors0| ==> SectorCounted(sectors0[j], j, panels0)
    requires forall j :: 0 <= j < |sectors0| ==> sectors0[j].sectorId != sid
    requires forall j :: 0 <= j < |sectors0| ==>
               InSector(panels, sectors0[j].sectorId) == InSector(panels0, sectors0[j].sectorId) + []
    requires GridRow(|sectors0|) < SectorsPerSide && sid == SectorId(GridRow(|sectors0|), GridCol(|sectors0|))
    requires PanelsPerSector - 3 <= count <= PanelsPerSector + 3
    requires sectors == sectors0 + [SectorRec(sid, GridRow(|sectors0|), GridCol(|sectors0|), count, PanelCapacity * count, 0.0)]
    requires |panels| == |panels0| + count
    requires InSector(panels0, sid) == [] && InSector(panels, sid) == InSector(panels0, sid) + panels[|panels0|..]
    ensures forall k :: 0 <= k < |sectors| ==> SectorCounted(sectors[k], k, panels)
  {
    var k := |sectors0|;
    forall j | 0 <= j < |sectors| ensures SectorCounted(sectors[j], j, panels) {
      if j < k {
        assert sectors[j] == sectors0[j];
        OldSectorCounted(sectors0[j], j, panels0, panels, sid);
      } else {
        NewSectorCounted(sectors[k], k, panels0, panels, sid, count);
      }
    }
  }

  /** A sector already listed keeps its count when panels of another sector are appended. */
  lemma OldSectorCounted(s: SectorRec, j: nat, panels0: seq<PanelRec>, panels: seq<PanelRec>, sid: string)
    requires SectorCounted(s, j, panels0) && s.sectorId != sid
    requires InSector(panels, s.sectorId) == InSector(panels0, s.sectorId) + []
    ensures SectorCounted(s, j, panels)
  {
    assert InSector(panels0, s.sectorId) + [] == InSector(panels0, s.sectorId);
  }

  /** The new sector counts exactly the panels appended for it. */
  lemma NewSectorCounted(s: SectorRec, k: nat, panels0: seq<PanelRec>, panels: seq<PanelRec>,
                         sid: string, count: nat)
    requires GridRow(k) < SectorsPerSide && sid == SectorId(GridRow(k), GridCol(k))
    requires PanelsPerSector - 3 <= count <= PanelsPerSector + 3
    requires s == SectorRec(sid, GridRow(k), GridCol(k), count, PanelCapacity * count, 0.0)
    requires |panels| == |panels0| + count
    requires InSector(panels0, sid) == []
    requires InSector(panels, sid) == InSector(panels0, sid) + panels[|panels0|..]
    ensures SectorCounted(s, k, panels)
  {
    assert |InSector(panels, sid)| == |panels| - |panels0|;
  }

  /** The sector at the next grid position is not yet in the table. */
  lemma NewSectorFresh(panels0: seq<PanelRec>, sectors0: seq<SectorRec>)
    requires |sectors0| < TotalSectors && GridRow(|sectors0|) < SectorsPerSide
    requires forall j :: 0 <= j < |sectors0| ==> SectorCounted(sectors0[j], j, panels0)
    ensures forall j :: 0 <= j < |sectors0| ==>
              sectors0[j].sectorId != SectorId(GridRow(|sectors0|), GridCol(|sectors0|))
  {
    var k := |sectors0|;
    forall j | 0 <= j < k ensures sectors0[j].sectorId != SectorId(GridRow(k), GridCol(k)) {
      assert SectorCounted(sectors0[j], j, panels0);
      GridIndexDistinct(j, k);
      if sectors0[j].sectorId == SectorId(GridRow(k), GridCol(k)) {
        SectorIdInjective(GridRow(j), GridCol(j), GridRow(k), GridCol(k));
      }
    }
  }

  /** A sector not yet in the table has no panels yet. */
  lemma NewSectorEmpty(panels0: seq<PanelRec>, sectors0: seq<SectorRec>, sid: string)
    requires forall i :: 0 <= i < |panels0| ==> KnownSector(sectors0, panels0[i].sectorId)
    requires forall j :: 0 <= j < |sectors0| ==> sectors0[j].sectorId != sid
    ensures InSector(panels0, sid) == []
  {
    forall i | 0 <= i < |panels0| ensures panels0[i].sectorId != sid {
      assert KnownSector(sectors0, panels0[i].sectorId);
    }
    InSectorEmpty(panels0, sid);
  }

  /** Step's half about the panel table: old and new panels are initial and of a listed sector. */
  lemma StepPanels(panels0: seq<PanelRec>, sectors0: seq<SectorRec>, panels: seq<PanelRec>,
                   sectors: seq<SectorRec>, sid: string, count: nat)
    requires FarmSoFar(panels0, sectors0)
    requires sectors == sectors0 + [SectorRec(sid, GridRow(|sectors0|), GridCol(|sectors0|), count, PanelCapacity * count, 0.0)]
    requires |panels| == |panels0| + count && panels[..|panels0|] == panels0
    requires forall i :: |panels0| <= i < |panels| ==> InitialPanel(panels[i], sid)
    ensures forall i :: 0 <= i < |panels| ==>
              InitialPanel(panels[i], panels[i].sectorId) && KnownSector(sectors, panels[i].sectorId)
  {
    var k := |sectors0|;
    forall i | 0 <= i < |panels| ensures KnownSector(sectors, panels[i].sectorId) {
      if i < |panels0| {
        assert panels[i] == panels0[i] && KnownSector(sectors0, panels0[i].sectorId);
        var w :| 0 <= w < k && sectors0[w].sectorId == panels0[i].sectorId;
        assert sectors[w] == sectors0[w];
      } else {
        assert sectors[k].sectorId == sid;
      }
    }
    forall i | 0 <= i < |panels| ensures InitialPanel(panels[i], panels[i].sectorId) {
      if i < |panels0| {
        assert panels[i] == panels0[i];
      }
    }
  }

  /** The averaging loop at the end of `generate_solar_farm`: each sector with panels gets the
      mean efficiency of its panels; a sector without panels keeps 0. */
  method SetAverages(panels: seq<PanelRec>, sectors0: seq<SectorRec>) returns (sectors: seq<SectorRec>)
    ensures |sectors| == |sectors0|
    ensures forall k :: 0 <= k < |sectors| ==>
              var members := InSector(panels, sectors0[k].sectorId);
              sectors[k] == if members == [] then sectors0[k]
                            else sectors0[k].(averageEfficiency := MeanEfficiency(members))
  {
    sectors := sectors0;
    for k := 0 to |sectors0|
      invariant |sectors| == |sectors0|
      invariant forall j :: 0 <= j < k ==>
                  var members := InSector(panels, sectors0[j].sectorId);
                  sectors[j] == if members == [] then sectors0[j]
                                else sectors0[j].(averageEfficiency := MeanEfficiency(members))
      invariant forall j :: k <= j < |sectors| ==> sectors[j] == sectors0[j]
    {
      var members := InSector(panels, sectors[k].sectorId);
      if members != [] {
        sectors := sectors[k := sectors[k].(averageEfficiency := MeanEfficiency(members))];
      }
    }
  }

  /** The inner loop `for col in range(SECTORS_PER_SIDE)` for one row. */
  method AddRow(panels0: seq<PanelRec>, sectors0: seq<SectorRec>, row: nat)
    returns (panels: seq<PanelRec>, sectors: seq<SectorRec>)
    requires row < SectorsPerSide && |sectors0| == SectorsPerSide * row
    requires FarmSoFar(panels0, sectors0)
    ensures FarmSoFar(panels, sectors) && |sectors| == |sectors0| + SectorsPerSide
  {
    panels, sectors := panels0, sectors0;
    for col := 0 to SectorsPerSide
      invariant |sectors| == GridIndex(row, col)
      invariant FarmSoFar(panels, sectors)
    {
      panels, sectors := AddSector(panels, sectors, row, col);
    }
  }

  lemma FarmSoFarEmpty()
    ensures FarmSoFar([], [])
  {
  }

  /** The two nested loops over the grid. */
  method GenerateGrid() returns (panels: seq<PanelRec>, sectors: seq<SectorRec>)
    ensures FarmSoFar(panels, sectors) && |sectors| == TotalSectors
  {
    panels, sectors := [], [];
    FarmSoFarEmpty();
    for row := 0 to SectorsPerSide
      invariant |sectors| == SectorsPerSide * row
      invariant FarmSoFar(panels, sectors)
    {
      panels, sectors := AddRow(panels, sectors, row);
    }
  }

  /** The tables `generate_solar_farm` builds. */
  ghost predicate FreshFarm(panels: seq<PanelRec>, sectors: seq<SectorRec>)
  {
    // 81 sectors in row-major order A1, A2, ..., I9, each knowing its grid position
    && |sectors| == TotalSectors
    && (forall k :: 0 <= k < |sectors| ==>
          && sectors[k].sectorId == SectorId(GridRow(k), GridCol(k))
          && sectors[k].row == GridRow(k) && sectors[k].col == GridCol(k))
    && (forall i, j :: 0 <= i < j < |sectors| ==> sectors[i].sectorId != sectors[j].sectorId)
    // panel ids PNL-0001, PNL-0002, ... in insertion order, each panel of a listed sector
    && Consecutive(panels) && UniqueIds(panels)
    && (forall i :: 0 <= i < |panels| ==>
          InitialPanel(panels[i], panels[i].sectorId) && KnownSector(sectors, panels[i].sectorId))
    // 30 to 36 panels per sector, counted by the sector's own counters, and their mean
    && (forall k :: 0 <= k < |sectors| ==>
          var members := InSector(panels, sectors[k].sectorId);
          && PanelsPerSector - 3 <= sectors[k].panelCount <= PanelsPerSector + 3
          && sectors[k].panelCount == |members|
          && sectors[k].totalCapacity == PanelCapacity * sectors[k].panelCount
          && sectors[k].averageEfficiency == MeanEfficiency(members)
          && 75.0 <= sectors[k].averageEfficiency <= 95.0)
  }

  /** The whole generator. */
  method GenerateSolarFarm() returns (panels: seq<PanelRec>, sectors: seq<SectorRec>)
    ensures FreshFarm(panels, sectors)
  {
    panels, sectors := GenerateGrid();
    ghost var counted := sectors;
    sectors := SetAverages(panels, sectors);
    Finish(panels, counted, sectors);
  }

  /** What the averaging loop adds to the generator's invariant. */
  lemma Finish(panels: seq<PanelRec>, counted: seq<SectorRec>, sectors: seq<SectorRec>)
    requires FarmSoFar(panels, counted) && |counted| == TotalSectors
    requires |sectors| == |counted|
    requires forall k :: 0 <= k < |sectors| ==>
               var members := InSector(panels, counted[k].sectorId);
               sectors[k] == if members == [] then counted[k]
                             else counted[k].(averageEfficiency := MeanEfficiency(members))
    ensures forall k :: 0 <= k < |sectors| ==>
              && sectors[k].sectorId == SectorId(GridRow(k), GridCol(k))
              && sectors[k].row == GridRow(k) && sectors[k].col == GridCol(k)
    ensures forall i, j :: 0 <= i < j < |sectors| ==> sectors[i].sectorId != sectors[j].sectorId
    ensures Consecutive(panels) && UniqueIds(panels)
    ensures forall i :: 0 <= i < |panels| ==>
              InitialPanel(panels[i], panels[i].sectorId) && KnownSector(sectors, panels[i].sectorId)
    ensures forall k :: 0 <= k < |sectors| ==>
              var members := InSector(panels, sectors[k].sectorId);
              && PanelsPerSector - 3 <= sectors[k].panelCount <= PanelsPerSector + 3
              && sectors[k].panelCount == |members|
              && sectors[k].totalCapacity == PanelCapacity * sectors[k].panelCount
              && sectors[k].averageEfficiency == MeanEfficiency(members)
              && 75.0 <= sectors[k].averageEfficiency <= 95.0
  {
    ConsecutiveUnique(panels);
    FinishSectors(panels, counted, sectors);
    FinishPanels(panels, counted, sectors);
    FinishCounts(panels, counted, sectors);
  }

  /** The averaging loop keeps every sector's key and grid position, so the keys stay distinct. */
  lemma FinishSectors(panels: seq<PanelRec>, counted: seq<SectorRec>, sectors: seq<SectorRec>)
    requires FarmSoFar(panels, counted)
    requires |sectors| == |counted|
    requires forall k :: 0 <= k < |sectors| ==>
               var members := InSector(panels, counted[k].sectorId);
               sectors[k] == if members == [] then counted[k]
                             else counted[k].(averageEfficiency := MeanEfficiency(members))
    ensures forall k :: 0 <= k < |sectors| ==>
              && sectors[k].sectorId == SectorId(GridRow(k), GridCol(k))
              && sectors[k].row == GridRow(k) && sectors[k].col == GridCol(k)
    ensures forall i, j :: 0 <= i < j < |sectors| ==> sectors[i].sectorId != sectors[j].sectorId
  {
    SectorKeysDistinct(panels, counted);
    forall k | 0 <= k < |sectors|
      ensures sectors[k].sectorId == counted[k].sectorId && sectors[k].row == counted[k].row && sectors[k].col == counted[k].col
    {
    }
  }

  /** The averaging loop leaves the panels alone, and every panel's sector is still listed. */
  lemma FinishPanels(panels: seq<PanelRec>, counted: seq<SectorRec>, sectors: seq<SectorRec>)
    requires FarmSoFar(panels, counted)
    requires |sectors| == |counted|
    requires forall k :: 0 <= k < |sectors| ==> sectors[k].sectorId == counted[k].sectorId
    ensures forall i :: 0 <= i < |panels| ==>
              InitialPanel(panels[i], panels[i].sectorId) && KnownSector(sectors, panels[i].sectorId)
  {
    forall i | 0 <= i < |panels| ensures KnownSector(sectors, panels[i].sectorId) {
      var w :| 0 <= w < |counted| && counted[w].sectorId == panels[i].sectorId;
      assert sectors[w].sectorId == counted[w].sectorId;
    }
  }

  /** The counters and averages part of `Finish`. */
  lemma FinishCounts(panels: seq<PanelRec>, counted: seq<SectorRec>, sectors: seq<SectorRec>)
    requires FarmSoFar(panels, counted) && |counted| == TotalSectors
    requires |sectors| == |counted|
    requires forall k :: 0 <= k < |sectors| ==>
               var members := InSector(panels, counted[k].sectorId);
               sectors[k] == if members == [] then counted[k]
                             else counted[k].(averageEfficiency := MeanEfficiency(members))
    ensures forall k :: 0 <= k < |sectors| ==>
              var members := InSector(panels, sectors[k].sectorId);
              && PanelsPerSector - 3 <= sectors[k].panelCount <= PanelsPerSector + 3
              && sectors[k].panelCount == |members|
              && sectors[k].totalCapacity == PanelCapacity * sectors[k].panelCount
              && sectors[k].averageEfficiency == MeanEfficiency(members)
              && 75.0 <= sectors[k].averageEfficiency <= 95.0
  {
    forall i | 0 <= i < |panels| ensures 75.0 <= panels[i].efficiency <= 95.0 {
      assert InitialPanel(panels[i], panels[i].sectorId);
    }
    forall k | 0 <= k < |sectors|
      ensures sectors[k].sectorId == counted[k].sectorId
      ensures 75.0 <= MeanEfficiency(InSector(panels, counted[k].sectorId)) <= 95.0
    {
      var members := InSector(panels, counted[k].sectorId);
      assert SectorCounted(counted[k], k, panels);
      InSectorEfficiencies(panels, counted[k].sectorId, 75.0, 95.0);
      MeanEfficiencyBounds(members, 75.0, 95.0);
    }
  }
}
