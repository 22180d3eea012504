/** The sector map of solar-panel-frontend/components/SectorMap.tsx: the list of sectors fetched
    once, patched by the `sector_summaries` of every stream frame, an optimistic update when a
    sector clean succeeds, a `cleaningSectors` set that colours a sector blue, and the 9 x 9
    grid the map is drawn from. Unlike the panel grid, the map has no suppression: a frame
    overwrites a sector even right after it was cleaned. */
module SectorMap {
  import opened Wrappers
  import opened Telemetry
  import opened Timers

  /** A sector as the map holds it (`total_power_output` is not read by the map). */
  datatype UiSector = UiSector(
    sectorId: string,
    row: int,
    col: int,
    panelCount: int,
    averageEfficiency: real,
    panelsNeedingCleaning: Option<int>)

  // ---------------------------------------------------------------------------------------
  // The summary merge

  /** `updated.findIndex(s => s.sector_id === id)`, as the position of the first match. */
  function FindSector(sectors: seq<UiSector>, id: string): (r: Option<nat>)
    ensures r.Some? ==> r.value < |sectors| && sectors[r.value].sectorId == id
    ensures r.Some? ==> forall j :: 0 <= j < r.value ==> sectors[j].sectorId != id
    ensures r.None? <==> forall j :: 0 <= j < |sectors| ==> sectors[j].sectorId != id
  {
    if sectors == [] then None
    else if sectors[0].sectorId == id then Some(0)
    else
      match FindSector(sectors[1..], id)
      case None =>
        assert forall j :: 1 <= j < |sectors| ==> sectors[j] == sectors[1..][j - 1];
        None
      case Some(k) => Some(k + 1)
  }

  /** Position `i` is the first sector with its id. */
  predicate FirstWithId(sectors: seq<UiSector>, i: int)
    requires 0 <= i < |sectors|
  {
    forall j :: 0 <= j < i ==> sectors[j].sectorId != sectors[i].sectorId
  }

  lemma FindSectorFirst(sectors: seq<UiSector>, i: int)
    requires 0 <= i < |sectors|
    ensures FindSector(sectors, sectors[i].sectorId) == Some(i) <==> FirstWithId(sectors, i)
  {
    var r := FindSector(sectors, sectors[i].sectorId);
    assert r.Some?;
    assert sectors[r.value].sectorId == sectors[i].sectorId;
  }

  /** The lookup only reads the ids. */
  lemma FindSectorIds(a: seq<UiSector>, b: seq<UiSector>, id: string)
    requires |a| == |b| && forall i :: 0 <= i < |a| ==> a[i].sectorId == b[i].sectorId
    ensures FindSector(a, id) == FindSector(b, id)
  {
    var ra, rb := FindSector(a, id), FindSector(b, id);
    if ra.Some? {
      assert b[ra.value].sectorId == id;
      assert rb.Some?;
      assert a[rb.value].sectorId == id;
    }
  }

  /** The last summary for `id`: later summaries of a frame overwrite earlier ones. */
  function LastSummary(summaries: seq<SectorSummary>, id: string): (r: Option<SectorSummary>)
    ensures r.Some? ==> r.value in summaries && r.value.sectorId == id
    ensures r.None? <==> forall j :: 0 <= j < |summaries| ==> summaries[j].sectorId != id
  {
    if summaries == [] then None
    else if summaries[|summaries| - 1].sectorId == id then Some(summaries[|summaries| - 1])
    else
      assert forall j :: 0 <= j < |summaries| - 1 ==> summaries[j] == summaries[..|summaries| - 1][j];
      LastSummary(summaries[..|summaries| - 1], id)
  }

  lemma {:induction false} LastSummaryIsLast(summaries: seq<SectorSummary>, id: string, j: int)
    requires 0 <= j < |summaries| && summaries[j].sectorId == id
    requires forall l :: j < l < |summaries| ==> summaries[l].sectorId != id
    ensures LastSummary(summaries, id) == Some(summaries[j])
  {
    if j < |summaries| - 1 {
      var front := summaries[..|summaries| - 1];
      assert front[j] == summaries[j];
      LastSummaryIsLast(front, id, j);
    }
  }

  /** A summary replaces the sector's average efficiency and count needing cleaning. */
  function Patched(s: UiSector, m: SectorSummary): (r: UiSector)
    ensures r.sectorId == s.sectorId && r.row == s.row && r.col == s.col && r.panelCount == s.panelCount
    ensures r.averageEfficiency == m.efficiency && OrInt(r.panelsNeedingCleaning, 0) == m.panelsNeedingCleaning
  {
    s.(averageEfficiency := m.efficiency, panelsNeedingCleaning := Some(m.panelsNeedingCleaning))
  }

  function ReconciledEntry(sectors: seq<UiSector>, summaries: seq<SectorSummary>, i: int): (r: UiSector)
    requires 0 <= i < |sectors|
    ensures r.sectorId == sectors[i].sectorId && r.panelCount == sectors[i].panelCount
    ensures !FirstWithId(sectors, i) ==> r == sectors[i]
    ensures (forall j :: 0 <= j < |summaries| ==> summaries[j].sectorId != sectors[i].sectorId) ==> r == sectors[i]
  {
    FindSectorFirst(sectors, i);
    if FindSector(sectors, sectors[i].sectorId) != Some(i) then sectors[i]
    else
      match LastSummary(summaries, sectors[i].sectorId)
      case None => sectors[i]
      case Some(m) => Patched(sectors[i], m)
  }

  /** The list after a frame's summaries: the first sector with each id takes the last summary
      for that id; every other sector is kept. */
  function Reconciled(sectors: seq<UiSector>, summaries: seq<SectorSummary>): (r: seq<UiSector>)
    ensures |r| == |sectors|
    ensures forall i :: 0 <= i < |r| ==> r[i] == ReconciledEntry(sectors, summaries, i)
  {
    seq(|sectors|, i requires 0 <= i < |sectors| => ReconciledEntry(sectors, summaries, i))
  }

  /** What a frame's summaries do, stated without the lookup functions: the list keeps its
      length, order, ids, coordinates and panel counts; a sector no summary names, or one that
      repeats an earlier sector's id, is kept whole; the first sector with an id takes the
      efficiency and count of the last summary with that id. */
  lemma ReconciledFields(sectors: seq<UiSector>, summaries: seq<SectorSummary>)
    ensures var r := Reconciled(sectors, summaries);
            && |r| == |sectors|
            && (forall i :: 0 <= i < |r| ==>
                  r[i].sectorId == sectors[i].sectorId && r[i].row == sectors[i].row && r[i].col == sectors[i].col
                  && r[i].panelCount == sectors[i].panelCount)
            && (forall i :: 0 <= i < |r| && (forall j :: 0 <= j < |summaries| ==> summaries[j].sectorId != sectors[i].sectorId) ==>
                  r[i] == sectors[i])
            && (forall i :: 0 <= i < |r| && !FirstWithId(sectors, i) ==> r[i] == sectors[i])
            && (forall i, j ::
                  (&& 0 <= i < |r| && FirstWithId(sectors, i) && 0 <= j < |summaries|
                   && summaries[j].sectorId == sectors[i].sectorId
                   && (forall l :: j < l < |summaries| ==> summaries[l].sectorId != sectors[i].sectorId)) ==>
                  r[i].averageEfficiency == summaries[j].efficiency
                  && r[i].panelsNeedingCleaning == Some(summaries[j].panelsNeedingCleaning))
  {
    forall i | 0 <= i < |sectors| ensures FindSector(sectors, sectors[i].sectorId) == Some(i) <==> FirstWithId(sectors, i) {
      FindSectorFirst(sectors, i);
    }
    forall i, j | 0 <= i < |sectors| && 0 <= j < |summaries| && summaries[j].sectorId == sectors[i].sectorId
                  && (forall l :: j < l < |summaries| ==> summaries[l].sectorId != sectors[i].sectorId)
      ensures LastSummary(summaries, sectors[i].sectorId) == Some(summaries[j])
    {
      LastSummaryIsLast(summaries, sectors[i].sectorId, j);
    }
  }

  lemma ReconciledEmpty(sectors: seq<UiSector>)
    ensures Reconciled(sectors, []) == sectors
  {
  }

  /** One more summary patches the first sector with its id, if any, and nothing else. */
  lemma ReconciledStep(sectors: seq<UiSector>, summaries: seq<SectorSummary>, m: SectorSummary)
    ensures var before := Reconciled(sectors, summaries);
            var after := Reconciled(sectors, summaries + [m]);
            match FindSector(sectors, m.sectorId)
            case None => after == before
            case Some(k) => after == before[k := Patched(before[k], m)]
  {
    var before := Reconciled(sectors, summaries);
    var after := Reconciled(sectors, summaries + [m]);
    var longer := summaries + [m];
    assert longer[..|longer| - 1] == summaries;
    forall i | 0 <= i < |sectors|
      ensures after[i] == if Some(i) == FindSector(sectors, m.sectorId) then Patched(before[i], m) else before[i]
    {
      if m.sectorId != sectors[i].sectorId {
        assert LastSummary(longer, sectors[i].sectorId) == LastSummary(summaries, sectors[i].sectorId);
      }
    }
  }

  /** The stream effect's `forEach` over `sector_summaries`, on a copy of the list. */
  method MergeSummaries(sectors: seq<UiSector>, summaries: seq<SectorSummary>) returns (updated: seq<UiSector>)
    ensures updated == Reconciled(sectors, summaries)
  {
    updated := sectors;
    ReconciledEmpty(sectors);
    for k := 0 to |summaries|
      invariant updated == Reconciled(sectors, summaries[..k])
    {
      var m := summaries[k];
      assert summaries[..k + 1] == summaries[..k] + [m];
      ReconciledStep(sectors, summaries[..k], m);
      FindSectorIds(updated, sectors, m.sectorId);
      var index := FindSector(updated, m.sectorId);
      if index.Some? {
        updated := updated[index.value := Patched(updated[index.value], m)];
      }
    }
    assert summaries[..|summaries|] == summaries;
  }

  // ---------------------------------------------------------------------------------------
  // The optimistic update

  /** The `setSectors` of a successful sector clean: every sector with the id shows 95 % and
      no panel needing cleaning; the others are kept. */
  function CleanedSectors(sectors: seq<UiSector>, sectorId: string): (r: seq<UiSector>)
    ensures |r| == |sectors|
    ensures forall i :: 0 <= i < |r| ==> r[i] == if sectors[i].sectorId == sectorId
                                                 then sectors[i].(averageEfficiency := 95.0, panelsNeedingCleaning := Some(0))
                                                 else sectors[i]
  {
    seq(|sectors|, i requires 0 <= i < |sectors| =>
      if sectors[i].sectorId == sectorId then sectors[i].(averageEfficiency := 95.0, panelsNeedingCleaning := Some(0))
      else sectors[i])
  }

  // ---------------------------------------------------------------------------------------
  // Colours

  datatype Shade = Blue | Green | Yellow | Orange | Red

  /** How alarming a shade is; the cleaning blue is not an alarm. */
  function Level(s: Shade): nat
  {
    match s
    case Blue => 0
    case Green => 0
    case Yellow => 1
    case Orange => 2
    case Red => 3
  }

  /** The share of the sector's panels that need cleaning, in percent: a missing or zero count
      reads as 0, and a sector without panels as 0 %. */
  function CleaningPercentage(s: UiSector): (pct: real)
    ensures s.panelCount <= 0 ==> pct == 0.0
    ensures s.panelCount > 0 ==> pct * s.panelCount as real == OrInt(s.panelsNeedingCleaning, 0) as real * 100.0
  {
    var needing := OrInt(s.panelsNeedingCleaning, 0);
    if s.panelCount > 0 then needing as real / s.panelCount as real * 100.0 else 0.0
  }

  /** `getSectorColor`: blue while cleaning; otherwise the worst band that the efficiency (a
      falsy 0 reads as 90) or the cleaning share falls into. */
  function SectorColor(s: UiSector, cleaning: set<string>): (c: Shade)
    ensures c == Blue <==> s.sectorId in cleaning
    ensures s.sectorId !in cleaning ==>
              var e, pct := OrNumber(Some(s.averageEfficiency), 90.0), CleaningPercentage(s);
              && (c == Red <==> e < 75.0 || pct > 60.0)
              && (c == Orange <==> !(e < 75.0 || pct > 60.0) && (e < 82.0 || pct > 40.0))
              && (c == Yellow <==> !(e < 82.0 || pct > 40.0) && (e < 88.0 || pct > 20.0))
              && (c == Green <==> !(e < 88.0 || pct > 20.0))
  {
    if s.sectorId in cleaning then Blue
    else
      var efficiency := OrNumber(Some(s.averageEfficiency), 90.0);
      var pct := CleaningPercentage(s);
      if efficiency < 75.0 || pct > 60.0 then Red
      else if efficiency < 82.0 || pct > 40.0 then Orange
      else if efficiency < 88.0 || pct > 20.0 then Yellow
      else Green
  }

  /** The map legend: green 88 % and up, yellow 82-88, orange 75-82, red below 75. */
  function LegendShade(efficiency: real): (c: Shade)
    ensures c != Blue
    ensures c == Green <==> efficiency >= 88.0
    ensures c == Red <==> efficiency < 75.0
  {
    if efficiency >= 88.0 then Green
    else if efficiency >= 82.0 then Yellow
    else if efficiency >= 75.0 then Orange
    else Red
  }

  /** A sector at most a fifth of whose panels need cleaning is coloured as the legend says;
      with a larger share it is coloured at least as badly as the legend says. */
  lemma ColorFollowsLegend(s: UiSector, cleaning: set<string>)
    requires s.sectorId !in cleaning && s.averageEfficiency != 0.0
    ensures CleaningPercentage(s) <= 20.0 ==> SectorColor(s, cleaning) == LegendShade(s.averageEfficiency)
    ensures Level(LegendShade(s.averageEfficiency)) <= Level(SectorColor(s, cleaning))
  {
  }

  /** A higher efficiency and fewer panels needing cleaning never make a sector look worse. */
  lemma ColorMonotonic(s: UiSector, t: UiSector, cleaning: set<string>)
    requires s.sectorId !in cleaning && t.sectorId !in cleaning
    requires s.averageEfficiency != 0.0 && t.averageEfficiency != 0.0 && s.averageEfficiency <= t.averageEfficiency
    requires s.panelCount == t.panelCount
    requires OrInt(t.panelsNeedingCleaning, 0) <= OrInt(s.panelsNeedingCleaning, 0)
    ensures Level(SectorColor(t, cleaning)) <= Level(SectorColor(s, cleaning))
  {
    if s.panelCount > 0 {
      var c, ps, pt := s.panelCount as real, CleaningPercentage(s), CleaningPercentage(t);
      assert ps * c == OrInt(s.panelsNeedingCleaning, 0) as real * 100.0;
      assert pt * c == OrInt(t.panelsNeedingCleaning, 0) as real * 100.0;
      PercentOrder(pt, ps, c);
    }
  }

  lemma PercentOrder(x: real, y: real, c: real)
    requires c > 0.0 && x * c <= y * c
    ensures x <= y
  {
  }

  /** The 95 % and zero count a clean installs show green once the sector is no longer cleaning. */
  lemma CleanedShowsGreen(s: UiSector, cleaning: set<string>)
    requires s.sectorId !in cleaning
    ensures SectorColor(s.(averageEfficiency := 95.0, panelsNeedingCleaning := Some(0)), cleaning) == Green
  {
  }

  /** The `|| 90` default also catches a real 0 %: a sector whose panels produce nothing, with
      few flagged, shows green. */
  lemma ZeroEfficiencyShowsGreen(s: UiSector, cleaning: set<string>)
    requires s.sectorId !in cleaning && s.averageEfficiency == 0.0
    requires CleaningPercentage(s) <= 20.0
    ensures SectorColor(s, cleaning) == Green
  {
  }

  // ---------------------------------------------------------------------------------------
  // The grid

  /** The last sector placed at (`r`, `c`): a later sector overwrites an earlier one. */
  function LastAt(sectors: seq<UiSector>, r: int, c: int): (o: Option<UiSector>)
    ensures o.Some? ==> o.value in sectors && o.value.row == r && o.value.col == c
    ensures o.None? <==> forall i :: 0 <= i < |sectors| ==> !(sectors[i].row == r && sectors[i].col == c)
  {
    if sectors == [] then None
    else
      var last := sectors[|sectors| - 1];
      if last.row == r && last.col == c then Some(last)
      else
        assert forall i :: 0 <= i < |sectors| - 1 ==> sectors[i] == sectors[..|sectors| - 1][i];
        LastAt(sectors[..|sectors| - 1], r, c)
  }

  /** A sector on the board that no later sector shares coordinates with is drawn in its cell. */
  lemma {:induction false} PlacementWins(sectors: seq<UiSector>, i: int)
    requires 0 <= i < |sectors|
    requires forall j :: i < j < |sectors| ==> !(sectors[j].row == sectors[i].row && sectors[j].col == sectors[i].col)
    ensures LastAt(sectors, sectors[i].row, sectors[i].col) == Some(sectors[i])
  {
    if i < |sectors| - 1 {
      var front := sectors[..|sectors| - 1];
      assert front[i] == sectors[i];
      PlacementWins(front, i);
    }
  }

  type Grid = seq<seq<Option<UiSector>>>

  /** `createSectorGrid`: a 9 x 9 board of empty cells; each sector with `row < 9 && col < 9`
      is written to `grid[row][col]`. A negative row reads a row that does not exist and the
      write throws, so the render fails (None); a negative column writes a property outside the
      cells and is not drawn. */
  method CreateSectorGrid(sectors: seq<UiSector>) returns (grid: Option<Grid>)
    ensures grid.None? <==> exists i :: 0 <= i < |sectors| && sectors[i].row < 0 && sectors[i].col < 9
    ensures grid.Some? ==> |grid.value| == 9 && forall r :: 0 <= r < 9 ==> |grid.value[r]| == 9
    ensures grid.Some? ==> forall r, c :: 0 <= r < 9 && 0 <= c < 9 ==> grid.value[r][c] == LastAt(sectors, r, c)
  {
    var g: Grid := seq(9, _ => seq(9, _ => None));
    for k := 0 to |sectors|
      invariant |g| == 9 && forall r :: 0 <= r < 9 ==> |g[r]| == 9
      invariant forall r, c :: 0 <= r < 9 && 0 <= c < 9 ==> g[r][c] == LastAt(sectors[..k], r, c)
      invariant forall i :: 0 <= i < k ==> !(sectors[i].row < 0 && sectors[i].col < 9)
    {
      var s := sectors[k];
      assert sectors[..k + 1][..k] == sectors[..k];
      if s.row < 9 && s.col < 9 {
        if s.row < 0 {
          return None;
        }
        if s.col >= 0 {
          g := g[s.row := g[s.row][s.col := Some(s)]];
        }
      }
    }
    assert sectors[..|sectors|] == sectors;
    return Some(g);
  }

  // ---------------------------------------------------------------------------------------
  // The component

  /** Every sector shown as cleaning has a request in flight or its 2000 ms timer pending, and
      no timer is overdue. */
  ghost predicate Marked(cleaning: set<string>, pending: multiset<string>, timers: seq<Timer<string>>, now: nat)
  {
    && (forall id :: id in cleaning ==> id in pending || Scheduled(timers, id))
    && (forall i :: 0 <= i < |timers| ==> timers[i].due >= now)
  }

  class SectorMapState {
    var sectors: seq<UiSector>
    var loading: bool
    var cleaningSectors: set<string>
    /** One entry per `cleanSector` request that has not settled. */
    var pending: multiset<string>
    /** The 2000 ms timers, each ending the cleaning mark of a sector. */
    var timers: seq<Timer<string>>
    var now: nat

    ghost predicate Valid()
      reads this
    {
      Marked(cleaningSectors, pending, timers, now)
    }

    /** Mounting: an empty list while the fetch of `/api/sectors` is in flight. */
    constructor ()
      ensures Valid()
      ensures sectors == [] && loading && cleaningSectors == {} && pending == multiset{} && timers == [] && now == 0
    {
      sectors, loading := [], true;
      cleaningSectors, pending, timers, now := {}, multiset{}, [], 0;
    }

    /** The fetch settled: on success the list is replaced, on failure it is kept. */
    method OnFetched(data: Option<seq<UiSector>>)
      requires Valid()
      modifies this
      ensures Valid()
      ensures sectors == (if data.Some? then data.value else old(sectors)) && !loading
      ensures cleaningSectors == old(cleaningSectors) && pending == old(pending) && timers == old(timers) && now == old(now)
    {
      if data.Some? {
        sectors := data.value;
      }
      loading := false;
    }

    /** A new `wsData` prop: its summaries, when present, patch the list, cleaning sectors
        included. */
    method OnFrame(frame: Frame)
      requires Valid()
      modifies this
      ensures Valid()
      ensures sectors == if frame.sectorSummaries.Some? then Reconciled(old(sectors), frame.sectorSummaries.value) else old(sectors)
      ensures loading == old(loading) && cleaningSectors == old(cleaningSectors)
      ensures pending == old(pending) && timers == old(timers) && now == old(now)
    {
      if frame.sectorSummaries.Some? {
        sectors := MergeSummaries(sectors, frame.sectorSummaries.value);
      }
    }

    /** The Clean Sector button: the sector turns blue and a request is sent. Nothing stops a
        second request for a sector already cleaning. */
    method RequestClean(sectorId: string)
      requires Valid()
      modifies this
      ensures Valid()
      ensures cleaningSectors == old(cleaningSectors) + {sectorId} && pending == old(pending) + multiset{sectorId}
      ensures sectors == old(sectors) && loading == old(loading) && timers == old(timers) && now == old(now)
    {
      cleaningSectors := cleaningSectors + {sectorId};
      pending := pending + multiset{sectorId};
    }

    /** A request resolved: the optimistic values and the 2000 ms timer. */
    method CleanSucceeded(sectorId: string)
      requires Valid() && sectorId in pending
      modifies this
      ensures Valid()
      ensures pending == old(pending) - multiset{sectorId}
      ensures sectors == CleanedSectors(old(sectors), sectorId)
      ensures timers == old(timers) + [Timer(now + 2000, sectorId)]
      ensures cleaningSectors == old(cleaningSectors) && loading == old(loading) && now == old(now)
    {
      ghost var before := timers;
      pending := pending - multiset{sectorId};
      sectors := CleanedSectors(sectors, sectorId);
      timers := timers + [Timer(now + 2000, sectorId)];
      forall id | id in cleaningSectors ensures id in pending || Scheduled(timers, id) {
        if id == sectorId {
          assert timers[|before|].action == sectorId;
        } else if id !in pending {
          var i :| 0 <= i < |before| && before[i].action == id;
          assert timers[i] == before[i];
        }
      }
    }

    /** A request failed: the sector stops cleaning at once and the list is kept. */
    method CleanFailed(sectorId: string)
      requires Valid() && sectorId in pending
      modifies this
      ensures Valid()
      ensures pending == old(pending) - multiset{sectorId} && cleaningSectors == old(cleaningSectors) - {sectorId}
      ensures sectors == old(sectors) && loading == old(loading) && timers == old(timers) && now == old(now)
    {
      pending := pending - multiset{sectorId};
      cleaningSectors := cleaningSectors - {sectorId};
    }

    /** The clock reaches `t`: the earliest timer due by then ends its sector's cleaning mark,
        whatever other requests for that sector are still in flight. */
    method Tick(t: nat)
      requires Valid() && now <= t
      modifies this
      ensures Valid()
      ensures sectors == old(sectors) && loading == old(loading) && pending == old(pending)
      ensures Earliest(old(timers), t).None? ==> now == t && timers == old(timers) && cleaningSectors == old(cleaningSectors)
      ensures Earliest(old(timers), t).Some? ==>
                var k := Earliest(old(timers), t).value;
                && now == old(timers)[k].due
                && timers == Without(old(timers), k)
                && cleaningSectors == old(cleaningSectors) - {old(timers)[k].action}
    {
      var next := Earliest(timers, t);
      if next.None? {
        now := t;
        return;
      }
      var k := next.value;
      var fired := timers[k];
      ghost var before := timers;
      forall id | id in cleaningSectors - {fired.action} && id !in pending ensures Scheduled(Without(before, k), id) {
        WithoutKeeps(before, k, id);
      }
      cleaningSectors := cleaningSectors - {fired.action};
      timers := Without(timers, k);
      now := fired.due;
    }
  }

  /** A sector clean overwritten by the next frame: A1 is cleaned and shows 95 % with no panel
      flagged, a frame reporting 84.5 % and 12 of 33 panels flagged replaces those values while
      the sector is still blue, and once the 2000 ms timer fires the sector shows yellow. */
  method CleanOverwritten() returns (optimistic: UiSector, afterFrame: UiSector, shade: Shade)
    ensures optimistic.averageEfficiency == 95.0 && optimistic.panelsNeedingCleaning == Some(0)
    ensures afterFrame.averageEfficiency == 84.5 && afterFrame.panelsNeedingCleaning == Some(12)
    ensures shade == Yellow
  {
    var a1 := UiSector("A1", 0, 0, 33, 84.0, Some(12));
    var board := new SectorMapState();
    board.OnFetched(Some([a1]));
    board.RequestClean("A1");
    board.CleanSucceeded("A1");
    optimistic := board.sectors[0];
    var summary := SectorSummary("A1", 84.5, 12);
    board.OnFrame(Frame("t1", None, Some([summary]), None, None, None, None));
    assert FindSector([optimistic], "A1") == Some(0);
    assert LastSummary([summary], "A1") == Some(summary);
    afterFrame := board.sectors[0];
    assert SectorColor(afterFrame, board.cleaningSectors) == Blue;
    assert Earliest(board.timers, 2000) == Some(0);
    board.Tick(2000);
    assert board.cleaningSectors == {};
    shade := SectorColor(afterFrame, board.cleaningSectors);
  }

  /** Two requests for one sector: the timer of the first success ends the cleaning mark while
      the second request is still in flight. */
  method EarlyUnmark() returns (stillPending: bool, shownCleaning: bool)
    ensures stillPending && !shownCleaning
  {
    var board := new SectorMapState();
    board.OnFetched(Some([UiSector("B2", 1, 1, 30, 80.0, Some(5))]));
    board.RequestClean("B2");
    board.RequestClean("B2");
    board.CleanSucceeded("B2");
    assert Earliest(board.timers, 2000) == Some(0);
    board.Tick(2000);
    stillPending := "B2" in board.pending;
    shownCleaning := "B2" in board.cleaningSectors;
  }
}
