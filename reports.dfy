/** The two read-only reports of solar-panel-backend/main.py: `get_statistics` and
    `get_alerts_summary`. Both read the panel and sector tables and change nothing, so they are
    functions of the tables. `round()` is not modelled. */
module Reports {
  import opened Wrappers
  import opened Farm
  import opened Ranking

  // ---------------------------------------------------------------------------------------
  // get_statistics

  /** One entry of `sector_stats`. */
  datatype SectorStat = SectorStat(sectorId: string, efficiency: real, panelCount: nat)

  /** The `sector_stats` loop: one entry per sector that has panels, in table order. */
  function SectorStats(panels: seq<PanelRec>, sectors: seq<SectorRec>): (r: seq<SectorStat>)
    ensures |r| <= |sectors|
    ensures forall i :: 0 <= i < |r| ==>
              var members := InSector(panels, r[i].sectorId);
              && members != []
              && r[i].panelCount == |members|
              && r[i].efficiency == MeanEfficiency(members)
  {
    if sectors == [] then []
    else
      var rest := SectorStats(panels, sectors[..|sectors| - 1]);
      var sid := sectors[|sectors| - 1].sectorId;
      var members := InSector(panels, sid);
      if members != [] then rest + [SectorStat(sid, MeanEfficiency(members), |members|)] else rest
  }

  /** Every sector that has panels gets an entry, and only such sectors do. */
  lemma {:induction false} SectorStatsComplete(panels: seq<PanelRec>, sectors: seq<SectorRec>, k: nat)
    requires k < |sectors| && InSector(panels, sectors[k].sectorId) != []
    ensures exists i :: 0 <= i < |SectorStats(panels, sectors)| && SectorStats(panels, sectors)[i].sectorId == sectors[k].sectorId
  {
    var init := sectors[..|sectors| - 1];
    if k == |sectors| - 1 {
      var r := SectorStats(panels, sectors);
      assert r[|r| - 1].sectorId == sectors[k].sectorId;
    } else {
      assert init[k] == sectors[k];
      SectorStatsComplete(panels, init, k);
      var i :| 0 <= i < |SectorStats(panels, init)| && SectorStats(panels, init)[i].sectorId == sectors[k].sectorId;
      assert SectorStats(panels, sectors)[i] == SectorStats(panels, init)[i];
    }
  }

  /** The entries of two runs of sectors are those of the first run followed by those of the
      second: `sector_stats` keeps table order. */
  lemma {:induction false} SectorStatsConcat(panels: seq<PanelRec>, a: seq<SectorRec>, b: seq<SectorRec>)
    ensures SectorStats(panels, a + b) == SectorStats(panels, a) + SectorStats(panels, b)
  {
    if b != [] {
      var b0 := b[..|b| - 1];
      assert (a + b)[..|a + b| - 1] == a + b0;
      assert (a + b)[|a + b| - 1] == b[|b| - 1];
      SectorStatsConcat(panels, a, b0);
    } else {
      assert a + b == a;
    }
  }

  /** One sector gives one entry, for that sector, exactly when it has panels. */
  lemma SectorStatsSingle(panels: seq<PanelRec>, sector: SectorRec)
    ensures var members := InSector(panels, sector.sectorId);
            SectorStats(panels, [sector])
              == if members != [] then [SectorStat(sector.sectorId, MeanEfficiency(members), |members|)] else []
  {
    assert [sector][..0] == [];
  }

  /** Every entry is for a sector of the table. */
  lemma {:induction false} SectorStatsFromTable(panels: seq<PanelRec>, sectors: seq<SectorRec>, i: nat)
    requires i < |SectorStats(panels, sectors)|
    ensures exists k :: 0 <= k < |sectors| && sectors[k].sectorId == SectorStats(panels, sectors)[i].sectorId
  {
    var init := sectors[..|sectors| - 1];
    var rest := SectorStats(panels, init);
    if i < |rest| {
      assert SectorStats(panels, sectors)[i] == rest[i];
      SectorStatsFromTable(panels, init, i);
      var k :| 0 <= k < |init| && init[k].sectorId == rest[i].sectorId;
      assert sectors[k] == init[k];
    } else {
      assert SectorStats(panels, sectors)[i].sectorId == sectors[|sectors| - 1].sectorId;
    }
  }

  /** `sorted(..., reverse=True)` by efficiency. */
  function EfficiencyKey(s: SectorStat): Rank
  {
    Rank(0, s.efficiency)
  }

  /** The two keys order the entries by efficiency, one ascending, the other descending. */
  lemma EfficiencyKeysOrder(x: SectorStat, y: SectorStat)
    ensures RankLe(EfficiencyKey(x), EfficiencyKey(y)) <==> x.efficiency <= y.efficiency
    ensures RankLe(LowEfficiencyKey(x), LowEfficiencyKey(y)) <==> y.efficiency <= x.efficiency
  {
  }

  /** `sorted(...)` by efficiency, ascending: descending on the negated efficiency. */
  function LowEfficiencyKey(s: SectorStat): Rank
  {
    Rank(0, -s.efficiency)
  }

  /** The response of `get_statistics`. */
  datatype Statistics = Statistics(
    totalPanels: nat,
    totalSectors: nat,
    overallEfficiency: real,
    panelsNeedingCleaning: nat,
    cleaningPercentage: real,
    totalPowerOutputKw: real,
    totalCapacityMw: real,
    bestSectors: seq<SectorStat>,
    worstSectors: seq<SectorStat>,
    estimatedDailyRevenue: real)

  /** `get_statistics`. It divides by `len(panels_db)`, so an empty table ends in a
      `ZeroDivisionError`, a server error. */
  function GetStatistics(panels: seq<PanelRec>, sectors: seq<SectorRec>): (r: Result<Statistics, Failure>)
    ensures r.Err? <==> panels == []
    ensures r.Ok? ==>
              && r.value.totalPanels == |panels| && r.value.totalSectors == |sectors|
              && |r.value.bestSectors| <= 5 && |r.value.worstSectors| <= 5
              && r.value.overallEfficiency == MeanEfficiency(panels)
              && r.value.panelsNeedingCleaning == NeedingCount(panels)
              && r.value.panelsNeedingCleaning <= |panels|
              && PercentOf(r.value.cleaningPercentage, NeedingCount(panels), |panels|)
              && 0.0 <= r.value.cleaningPercentage <= 100.0
              && r.value.totalPowerOutputKw * 1000.0 == SumPower(panels)
              && r.value.totalCapacityMw * 1000000.0 == (|panels| * PanelCapacity) as real
              && r.value.estimatedDailyRevenue == SumPower(panels) * 1.2
  {
    if panels == [] then Err(ServerError)
    else
      var n := |panels| as real;
      var needing := NeedingCount(panels);
      var power := SumPower(panels);
      var stats := SectorStats(panels, sectors);
      var pct := (needing as real / n) * 100.0;
      ShareOf(needing, |panels|);
      Ok(Statistics(
        |panels|, |sectors|,
        MeanEfficiency(panels),
        needing,
        pct,
        power / 1000.0,
        (|panels| * PanelCapacity) as real / 1000000.0,
        Take(SortDesc(stats, EfficiencyKey), 5),
        Take(SortDesc(stats, LowEfficiencyKey), 5),
        power * 24.0 * 0.05))
  }

  /** The best sectors are the five most efficient, highest first, drawn from the sectors that
      have panels: every sector left out is at most as efficient as every one listed. */
  lemma BestSectorsRanked(panels: seq<PanelRec>, sectors: seq<SectorRec>)
    requires panels != []
    ensures var best := GetStatistics(panels, sectors).value.bestSectors;
            var stats := SectorStats(panels, sectors);
            && |best| == (if |stats| < 5 then |stats| else 5)
            && (forall i, j :: 0 <= i < j < |best| ==> best[j].efficiency <= best[i].efficiency)
            && multiset(best) <= multiset(stats)
            && (forall x, i :: x in multiset(stats) - multiset(best) && 0 <= i < |best| ==>
                  x.efficiency <= best[i].efficiency)
  {
    var stats := SectorStats(panels, sectors);
    var best := Take(SortDesc(stats, EfficiencyKey), 5);
    assert GetStatistics(panels, sectors).value.bestSectors == best;
    TopRanked(stats, EfficiencyKey, 5);
    forall i, j | 0 <= i < j < |best| ensures best[j].efficiency <= best[i].efficiency {
      assert RankLe(EfficiencyKey(best[j]), EfficiencyKey(best[i]));
    }
    forall x, i | x in multiset(stats) - multiset(best) && 0 <= i < |best|
      ensures x.efficiency <= best[i].efficiency
    {
      assert RankLe(EfficiencyKey(x), EfficiencyKey(best[i]));
    }
  }

  /** The worst sectors are the five least efficient, lowest first, drawn from the sectors that
      have panels: every sector left out is at least as efficient as every one listed. */
  lemma WorstSectorsRanked(panels: seq<PanelRec>, sectors: seq<SectorRec>)
    requires panels != []
    ensures var worst := GetStatistics(panels, sectors).value.worstSectors;
            var stats := SectorStats(panels, sectors);
            && |worst| == (if |stats| < 5 then |stats| else 5)
            && (forall i, j :: 0 <= i < j < |worst| ==> worst[i].efficiency <= worst[j].efficiency)
            && multiset(worst) <= multiset(stats)
            && (forall x, i :: x in multiset(stats) - multiset(worst) && 0 <= i < |worst| ==>
                  worst[i].efficiency <= x.efficiency)
  {
    var stats := SectorStats(panels, sectors);
    var worst := Take(SortDesc(stats, LowEfficiencyKey), 5);
    assert GetStatistics(panels, sectors).value.worstSectors == worst;
    TopRanked(stats, LowEfficiencyKey, 5);
    forall i, j | 0 <= i < j < |worst| ensures worst[i].efficiency <= worst[j].efficiency {
      assert RankLe(LowEfficiencyKey(worst[j]), LowEfficiencyKey(worst[i]));
    }
    forall x, i | x in multiset(stats) - multiset(worst) && 0 <= i < |worst|
      ensures worst[i].efficiency <= x.efficiency
    {
      assert RankLe(LowEfficiencyKey(x), LowEfficiencyKey(worst[i]));
    }
  }

  // ---------------------------------------------------------------------------------------
  // get_alerts_summary

  datatype Severity = High | Medium

  /** One entry of `sector_alerts` (its `type` is always "sector_performance"; the `message`
      text is not modelled). */
  datatype Alert = Alert(sectorId: string, severity: Severity, avgEfficiency: real, panelsAffected: nat)

  /** A sector is alerted when its average is below 85 or more than half its panels need
      cleaning. */
  predicate Alerted(avg: real, needing: nat, count: nat)
  {
    avg < 85.0 || needing as real > count as real * 0.5
  }

  /** The alert the loop builds for a sector with panels. */
  function SectorAlert(sid: string, members: seq<PanelRec>): (a: Alert)
    requires members != []
    ensures a.sectorId == sid && a.avgEfficiency == MeanEfficiency(members)
    ensures a.panelsAffected == NeedingCount(members) <= |members|
    ensures a.severity == High <==> MeanEfficiency(members) < 80.0
  {
    var avg := MeanEfficiency(members);
    Alert(sid, if avg < 80.0 then High else Medium, avg, NeedingCount(members))
  }

  /** The `for sector_id in sectors_db` loop of `get_alerts_summary`, before sorting. */
  function SectorAlerts(panels: seq<PanelRec>, sectors: seq<SectorRec>): (r: seq<Alert>)
    ensures |r| <= |sectors|
    ensures forall i :: 0 <= i < |r| ==>
              var members := InSector(panels, r[i].sectorId);
              && members != []
              && r[i] == SectorAlert(r[i].sectorId, members)
              && Alerted(r[i].avgEfficiency, r[i].panelsAffected, |members|)
  {
    if sectors == [] then []
    else
      var rest := SectorAlerts(panels, sectors[..|sectors| - 1]);
      var sid := sectors[|sectors| - 1].sectorId;
      var members := InSector(panels, sid);
      if members != [] && Alerted(MeanEfficiency(members), NeedingCount(members), |members|)
      then rest + [SectorAlert(sid, members)]
      else rest
  }

  /** A sector with panels is alerted if and only if its average is below 85 or more than half of
      its panels need cleaning (sector ids being distinct, as dict keys are). */
  lemma {:induction false} AlertedIff(panels: seq<PanelRec>, sectors: seq<SectorRec>, k: nat)
    requires k < |sectors| && InSector(panels, sectors[k].sectorId) != []
    requires forall i, j :: 0 <= i < j < |sectors| ==> sectors[i].sectorId != sectors[j].sectorId
    ensures var members := InSector(panels, sectors[k].sectorId);
            SectorAlert(sectors[k].sectorId, members) in SectorAlerts(panels, sectors)
            <==> Alerted(MeanEfficiency(members), NeedingCount(members), |members|)
  {
    var sid := sectors[k].sectorId;
    var members := InSector(panels, sid);
    var init := sectors[..|sectors| - 1];
    if k < |sectors| - 1 {
      assert init[k] == sectors[k];
      AlertedIff(panels, init, k);
      if SectorAlert(sid, members) in SectorAlerts(panels, sectors) {
        // the last sector has another id, so its alert is not this one
        assert sectors[|sectors| - 1].sectorId != sid;
        var all := SectorAlerts(panels, sectors);
        var i :| 0 <= i < |all| && all[i] == SectorAlert(sid, members);
        if i < |SectorAlerts(panels, init)| {
          assert SectorAlerts(panels, init)[i] == all[i];
        }
      }
    }
  }

  /** `(severity == "high", panels_affected)`: Python compares the tuples left to right, with
      `False < True`. */
  function AlertKey(a: Alert): Rank
  {
    Rank(if a.severity == High then 1 else 0, a.panelsAffected as real)
  }

  /** One alert ranks at or below another exactly when it is not "high" where the other is
      "medium", and affects no more panels when the severities agree. */
  lemma AlertKeyOrder(a: Alert, b: Alert)
    ensures RankLe(AlertKey(a), AlertKey(b))
            <==> (a.severity == High ==> b.severity == High)
                 && (a.severity == b.severity ==> a.panelsAffected <= b.panelsAffected)
  {
  }

  /** `sum(1 for a in alerts if a["severity"] == "high")`. */
  function CountHigh(alerts: seq<Alert>): (n: nat)
    ensures n <= |alerts|
    ensures n == 0 <==> forall i :: 0 <= i < |alerts| ==> alerts[i].severity != High
    ensures n == |alerts| <==> forall i :: 0 <= i < |alerts| ==> alerts[i].severity == High
  {
    if alerts == [] then 0
    else CountHigh(alerts[..|alerts| - 1]) + (if alerts[|alerts| - 1].severity == High then 1 else 0)
  }

  /** Counting is additive over concatenation. */
  lemma {:induction false} CountHighConcat(a: seq<Alert>, b: seq<Alert>)
    ensures CountHigh(a + b) == CountHigh(a) + CountHigh(b)
  {
    if b != [] {
      var b0 := b[..|b| - 1];
      assert (a + b)[..|a + b| - 1] == a + b0;
      assert (a + b)[|a + b| - 1] == b[|b| - 1];
      CountHighConcat(a, b0);
    } else {
      assert a + b == a;
    }
  }

  /** Reordering the alerts does not change the count. */
  lemma {:induction false} CountHighPermutation(a: seq<Alert>, b: seq<Alert>)
    requires multiset(a) == multiset(b)
    ensures CountHigh(a) == CountHigh(b)
  {
    if a == [] {
      assert |b| == |multiset(b)| == 0;
    } else {
      var x := a[|a| - 1];
      var a0 := a[..|a| - 1];
      assert a == a0 + [x];
      assert x in multiset(b);
      var j :| 0 <= j < |b| && b[j] == x;
      var b1, b2 := b[..j], b[j + 1..];
      assert b == b1 + [x] + b2;
      RemoveOne(a0, b1, b2, x);
      CountHighPermutation(a0, b1 + b2);
      CountHighConcat(b1 + [x], b2);
      CountHighConcat(b1, [x]);
      CountHighConcat(b1, b2);
      assert [x][..0] == [];
    }
  }

  /** Taking the same element out of two equal multisets leaves equal multisets. */
  lemma RemoveOne(a0: seq<Alert>, b1: seq<Alert>, b2: seq<Alert>, x: Alert)
    requires multiset(a0 + [x]) == multiset(b1 + [x] + b2)
    ensures multiset(a0) == multiset(b1 + b2)
  {
    assert multiset(a0 + [x]) == multiset(a0) + multiset{x};
    assert multiset(b1 + [x] + b2) == multiset(b1) + multiset{x} + multiset(b2);
    assert multiset(b1 + b2) == multiset(b1) + multiset(b2);
    var m, n := multiset(a0), multiset(b1 + b2);
    assert m + multiset{x} == n + multiset{x};
    assert forall y :: m[y] == (m + multiset{x})[y] - multiset{x}[y] == (n + multiset{x})[y] - multiset{x}[y] == n[y];
  }

  /** The response of `get_alerts_summary`. */
  datatype AlertsReport = AlertsReport(
    totalAlerts: nat,
    highPrioritySectors: nat,
    sectorsNeedingAttention: seq<string>,
    alerts: seq<Alert>)

  /** `get_alerts_summary`: the alerts sorted "high" first and then by panels affected, both
      descending (stable); the first 10 sector ids and the first 20 alerts. */
  function AlertsSummary(panels: seq<PanelRec>, sectors: seq<SectorRec>): (r: AlertsReport)
    ensures r.totalAlerts == |SectorAlerts(panels, sectors)|
    ensures r.highPrioritySectors == CountHigh(SectorAlerts(panels, sectors)) <= r.totalAlerts
    ensures |r.sectorsNeedingAttention| == if r.totalAlerts < 10 then r.totalAlerts else 10
    ensures |r.alerts| == if r.totalAlerts < 20 then r.totalAlerts else 20
    ensures forall i :: 0 <= i < |r.sectorsNeedingAttention| ==>
              r.sectorsNeedingAttention[i] == r.alerts[i].sectorId
  {
    var sorted := SortDesc(SectorAlerts(panels, sectors), AlertKey);
    CountHighPermutation(sorted, SectorAlerts(panels, sectors));
    var top := Take(sorted, 10);
    AlertsReport(
      |sorted|,
      CountHigh(sorted),
      seq(|top|, i requires 0 <= i < |top| => top[i].sectorId),
      Take(sorted, 20))
  }

  /** The reported alerts are in order: every "high" one before every "medium" one, and within
      one severity the most panels affected first. */
  lemma AlertsOrdered(panels: seq<PanelRec>, sectors: seq<SectorRec>)
    ensures var a := AlertsSummary(panels, sectors).alerts;
            forall i, j :: 0 <= i < j < |a| ==>
              || (a[i].severity == High && a[j].severity == Medium)
              || (a[i].severity == a[j].severity && a[j].panelsAffected <= a[i].panelsAffected)
  {
    SortDescSorted(SectorAlerts(panels, sectors), AlertKey);
  }

  /** The reported alerts are the top twenty of the loop's: drawn from them, and every alert
      left out ranks at or below every one reported (not "high" where a reported one is
      "medium", and with no more panels affected than a reported one of its severity). */
  lemma AlertsTopRanked(panels: seq<PanelRec>, sectors: seq<SectorRec>)
    ensures var all := SectorAlerts(panels, sectors);
            var a := AlertsSummary(panels, sectors).alerts;
            && multiset(a) <= multiset(all)
            && forall x, i :: x in multiset(all) - multiset(a) && 0 <= i < |a| ==>
                 && (x.severity == High ==> a[i].severity == High)
                 && (x.severity == a[i].severity ==> x.panelsAffected <= a[i].panelsAffected)
  {
    var all := SectorAlerts(panels, sectors);
    var a := AlertsSummary(panels, sectors).alerts;
    TopRanked(all, AlertKey, 20);
    assert a == Take(SortDesc(all, AlertKey), 20);
    forall x: Alert, i | x in multiset(all) - multiset(a) && 0 <= i < |a|
      ensures && (x.severity == High ==> a[i].severity == High)
              && (x.severity == a[i].severity ==> x.panelsAffected <= a[i].panelsAffected)
    {
      assert RankLe(AlertKey(x), AlertKey(a[i]));
    }
  }

  /** Every reported alert is one of the loop's, so it satisfies the alert condition and its
      severity is "high" exactly when its average is below 80. */
  lemma AlertsReported(panels: seq<PanelRec>, sectors: seq<SectorRec>)
    ensures var a := AlertsSummary(panels, sectors).alerts;
            forall i :: 0 <= i < |a| ==>
              var members := InSector(panels, a[i].sectorId);
              && members != []
              && Alerted(a[i].avgEfficiency, a[i].panelsAffected, |members|)
              && (a[i].severity == High <==> a[i].avgEfficiency < 80.0)
  {
    var all := SectorAlerts(panels, sectors);
    var sorted := SortDesc(all, AlertKey);
    var a := AlertsSummary(panels, sectors).alerts;
    forall i | 0 <= i < |a|
      ensures var members := InSector(panels, a[i].sectorId);
              && members != []
              && Alerted(a[i].avgEfficiency, a[i].panelsAffected, |members|)
              && (a[i].severity == High <==> a[i].avgEfficiency < 80.0)
    {
      assert a[i] == sorted[i];
      assert sorted[i] in multiset(all);
      var j :| 0 <= j < |all| && all[j] == sorted[i];
    }
  }
}
