# Solar farm dashboard — a Dafny model

This project models the core of a solar-farm monitoring system. The farm has 2700 panels in a
9 × 9 grid of sectors, A1 to I9.

- **Backend** (`solar-panel-backend/main.py`) holds the panel and sector tables in memory:
  - it generates the farm once at start-up;
  - it serves the panel list, the statistics and the alerts reports;
  - it cleans single panels and whole sectors, and accepts sensor readings;
  - every three seconds it drifts every panel's readings and streams one frame of telemetry
    over a socket.
- **Frontend** consumes that stream:
  - a hook keeps one socket and reconnects 3000 ms after every close;
  - the panel grid merges frame samples into its tiles, cleans optimistically and suppresses
    stream updates of a freshly cleaned panel for 2000 + 10000 ms;
  - the sector map patches sector averages from the frame's summaries and cleans a whole sector;
  - the live chart keeps a sliding window of the last 20 points.

## How the model is built

- **Backend** (`Farm`, `Generation`, `FarmServer`, `Reports`, `Ranking`):
  - The module-level tables are the fields of the class `FarmServer.FarmDb`. Each table is the
    sequence of its dict's values in insertion order, with distinct keys.
  - Endpoints that change the tables are methods of `FarmDb`.
  - The read-only reports, `get_statistics` and `get_alerts_summary`, are functions.
  - The generator's nested loops are methods with loop invariants.
  - Random draws are nondeterministic choices inside the ranges the source draws from.
- **Frontend components** (`PanelGrid`, `SectorMap`, `WebSocketFeed`, `RealtimeChart`):
  - Each component's state is a class with the component's `useState` cells as fields.
  - Every event is a method: a prop change, a response, a socket event, the clock.
  - `setTimeout` becomes an explicit table of timers (`Timers`) and a logical clock; `Tick(t)`
    fires the earliest timer due by `t`.
  - The pure parts are functions, with lemmas about them. These are the frame merge, the
    optimistic projection, the colour rules and the chart window.
- **Shared wire format** (`Telemetry`): the stream frame's schema. JavaScript's `x || fallback`
  lives in `Wrappers`.

Where the code and its documentation differ, the model follows the code:

- Suppression lasts 2000 + 10000 ms after a successful clean.
- The only guard against a second clean of a panel is the hidden Clean button; the sector map
  has none.
- A new `panels` prop replaces the whole list.
- Sectors have no suppression, so the next frame overwrites a sector clean.
- The chart reads `panels` and `system_status`, which the backend never sends.
- The chart's buffer survives a change of selection.
- A socket constructor that throws schedules no reconnect.
- `onclose` is never detached, so a reconnect can be scheduled after teardown.

## Model

| member | source | states |
|---|---|---|
| Wrappers.OrNumber | solar-panel-frontend/components/PanelGrid.tsx:69-71 | `x \|\| fallback`: the fallback exactly when the value is missing or 0, else the value |
| Wrappers.OrInt | solar-panel-frontend/components/SectorMap.tsx:114 | the same rule for an integer count |
| Telemetry.FindSample | solar-panel-frontend/components/PanelGrid.tsx:39 | `find` by id: None iff no sample has the id; otherwise a position holding the id with no earlier match |
| Telemetry.FindSampleFirst | solar-panel-frontend/components/PanelGrid.tsx:39 | the lookup returns exactly the first position with the id |
| Farm.ConstantValues | solar-panel-backend/main.py:24-28 | 81 sectors and 2700 // 81 = 33 panels per sector |
| Farm.GridIndexRoundTrip | solar-panel-backend/main.py:43-44 | the row-major visiting order maps (row, col) to a position and back |
| Farm.GridIndexDistinct | solar-panel-backend/main.py:43-44 | distinct positions of that order are distinct grid cells |
| Farm.VoltageMonotonic | solar-panel-backend/main.py:94 | the stored voltage `19.5 * e / 100` grows with the efficiency |
| Farm.Uniform | solar-panel-backend/main.py:69-83 | `random.uniform(lo, hi)` returns a value in [lo, hi] |
| Farm.RandInt | solar-panel-backend/main.py:63 | `random.randint(lo, hi)` returns an integer in [lo, hi] |
| Farm.NeedsCleaningMonotone | solar-panel-backend/main.py:201 | the needs-cleaning rule `NeedsCleaning` (dust above 300 or efficiency below 85, `PanelNeedsCleaning` on a record) is monotone: more dust or lower efficiency than a flagged reading is flagged too |
| Farm.VoltageAt | solar-panel-backend/main.py:94 | the stored voltage `19.5 * e / 100` of an efficiency in [0, 100] lies in [0, 19.5] |
| Farm.PaddedDecimal | solar-panel-backend/main.py:66 | exactly `width` characters (which ones: `PaddedDecimalDigits`) |
| Farm.PaddedDecimalDigits | solar-panel-backend/main.py:66 | digit i from the right of the zero-padded form is the i-th decimal digit of n, `(n / 10^i) % 10` |
| Farm.PanelId | solar-panel-backend/main.py:66 | `f"PNL-{n:04d}"` starts with `PNL-`, and has exactly 8 characters for counters below 10000 |
| Farm.PanelIdDigits | solar-panel-backend/main.py:66 | for a counter below 10000 the last four characters are its four decimal digits, most significant first |
| Farm.Decimal | solar-panel-backend/main.py:45 | `str(n)` is non-empty, and one digit below 10 |
| Farm.SectorId | solar-panel-backend/main.py:45 | for a cell of the grid, the id is two characters: the row letter and the column digit |
| Farm.PaddedDecimalInjective | solar-panel-backend/main.py:66 | distinct numbers below 10^width have distinct padded forms |
| Farm.PanelIdInjective | solar-panel-backend/main.py:66 | distinct counters below 10000 give distinct `PNL-dddd` ids |
| Farm.SectorIdInjective | solar-panel-backend/main.py:45 | distinct grid cells give distinct sector ids |
| Farm.IndexOf | solar-panel-backend/main.py:236 | `id in panels_db`: None iff no record has the key; otherwise the position of a record with it |
| Farm.IndexOfUnique | solar-panel-backend/main.py:236 | with distinct keys the lookup finds exactly the record with that key |
| Farm.InSector | solar-panel-backend/main.py:162 | the sector view is no longer than the table; which records it holds and in what order are `InSectorMembers`, `InSectorConcat` and `InSectorSingle` |
| Farm.InSectorMembers | solar-panel-backend/main.py:162 | a record is in the view iff it is in the table and of that sector |
| Farm.InSectorEmpty | solar-panel-backend/main.py:163-164 | the view is empty iff no record is of the sector (the 404 condition) |
| Farm.InSectorConcat | solar-panel-backend/main.py:162 | the view of a concatenation is the concatenation of the views |
| Farm.InSectorSingle | solar-panel-backend/main.py:162 | one record is its own view when it is of the sector and gives an empty view otherwise; with `InSectorConcat` the view keeps table order |
| Farm.InSectorUniform | solar-panel-backend/main.py:105 | records all of one sector are their own view of it and give an empty view of any other |
| Farm.NeedingCount | solar-panel-backend/main.py:201 | the needs-cleaning count is at most the number of records |
| Farm.NeedingCountZero | solar-panel-backend/main.py:201 | the count is 0 iff no record needs cleaning |
| Farm.NeedingCountAll | solar-panel-backend/main.py:201 | the count is the length iff every record needs cleaning |
| Farm.SumEfficiencyBounds | solar-panel-backend/main.py:200 | efficiencies in [lo, hi] sum to between lo·n and hi·n |
| Farm.MeanEfficiencyBounds | solar-panel-backend/main.py:107 | `MeanEfficiency`, the mean of efficiencies in [lo, hi] is in [lo, hi] |
| Farm.InSectorEfficiencies | solar-panel-backend/main.py:105-107 | efficiency bounds of the table hold in every sector view |
| Farm.ShareOf | solar-panel-backend/main.py:225 | `(part / n) * 100` is the share of the count in percent (share × n = 100 × part) and lies in [0, 100] |
| Farm.SumsConcat | solar-panel-backend/main.py:200-202 | `SumEfficiency` and `SumPower`, the generator-expression sums, are additive over concatenation |
| Farm.SumPowerBounds | solar-panel-backend/main.py:202 | with every voltage in [0, 19.5] the power sum `sum(voltage * 5)` lies in [0, 97.5·n] |
| Generation.ConsecutiveUnique | solar-panel-backend/main.py:66 | ids PNL-0001, PNL-0002, … are distinct, and the next id is fresh |
| Generation.SectorKeysDistinct | solar-panel-backend/main.py:43-51 | the generated sectors have distinct keys |
| Generation.InitialReadings | solar-panel-backend/main.py:74-83 | the initial efficiency and dust fall in one of the three bands (`InBands`), each efficiency range with its own dust range: 88–95 % with 100–250, 82–88 % with 250–350, 75–82 % with 350–500 |
| Generation.BandsCleaning | solar-panel-backend/main.py:74-83 | a panel drawn above 88 % does not need cleaning and one drawn below 82 % does |
| Generation.HullCornerNotInitial | solar-panel-backend/main.py:74-83 | readings inside both ranges but in no band (94 % with dust 499) are not a generated panel |
| Generation.AddSectorPanels | solar-panel-backend/main.py:65-101 | the inner loop appends `count` new panels of the sector with consecutive ids, each with capacity 500, readings in one of the three bands and the voltage of its efficiency, and keeps the earlier ones |
| Generation.AddedPanelsViews | solar-panel-backend/main.py:65-101 | appending a sector's panels extends its view and leaves every other view unchanged |
| Generation.AddedPanelsView | solar-panel-backend/main.py:65-101 | the same for one sector |
| Generation.AddSector | solar-panel-backend/main.py:45-101 | one grid cell adds its sector, its counters and its panels, keeping the generator's invariant |
| Generation.Step | solar-panel-backend/main.py:45-101 | one grid cell keeps the invariant: sectors so far, with their counts and capacity matching their panels |
| Generation.StepSectors | solar-panel-backend/main.py:45-101 | after one grid cell every listed sector, old and new, still has 30–36 panels equal to its counter and capacity 500 each |
| Generation.StepPanels | solar-panel-backend/main.py:45-101 | after one grid cell every panel, old and new, has initial readings and belongs to a listed sector |
| Generation.NewSectorFresh | solar-panel-backend/main.py:45-51 | the key of the next grid position differs from every key already generated |
| Generation.NewSectorEmpty | solar-panel-backend/main.py:45-51 | a sector not yet generated has no panels |
| Generation.OldSectorCounted | solar-panel-backend/main.py:63-101 | appending another sector's panels leaves an earlier sector's count correct |
| Generation.NewSectorCounted | solar-panel-backend/main.py:51-101 | the new sector's counter equals the number of panels appended for it, capacity 500 each |
| Generation.SetAverages | solar-panel-backend/main.py:104-107 | a sector with panels gets the mean efficiency of its panels; one without keeps 0 |
| Generation.AddRow | solar-panel-backend/main.py:44-101 | one row adds nine sectors and keeps the invariant |
| Generation.FarmSoFarEmpty | solar-panel-backend/main.py:32-34 | the invariant holds before the loops |
| Generation.GenerateGrid | solar-panel-backend/main.py:43-101 | the nested loops produce 81 sectors under the invariant |
| Generation.GenerateSolarFarm | solar-panel-backend/main.py:31-109 | `FreshFarm`: 81 sectors A1..I9 in row-major order with their grid positions and distinct keys; panel ids PNL-0001, PNL-0002, … in order and distinct, each panel of a listed sector with initial readings in one of the three bands (`InBands`) and the voltage that goes with them; 30–36 panels per sector, equal to its counter, capacity 500 per panel, and an average equal to the mean of its panels, in [75, 95] |
| Generation.Finish | solar-panel-backend/main.py:104-109 | the averaging loop keeps keys and counts and adds the averages |
| Generation.FinishSectors | solar-panel-backend/main.py:104-107 | the averaging loop keeps every sector's key and grid position, so the keys stay distinct |
| Generation.FinishPanels | solar-panel-backend/main.py:104-107 | it leaves the panels as generated, each of a listed sector |
| Generation.FinishCounts | solar-panel-backend/main.py:104-107 | after the averaging loop every sector has 30–36 panels, equal to its counter, capacity 500 each, and the mean efficiency of its panels as average, in [75, 95] |
| Ranking.InsertDesc | solar-panel-backend/main.py:217-218 | insertion keeps the elements (as a multiset) |
| Ranking.SortDesc | solar-panel-backend/main.py:217-218 | the sort is a permutation of its input |
| Ranking.InsertDescSorted | solar-panel-backend/main.py:478 | inserting into a list sorted highest first keeps it sorted |
| Ranking.SortDescSorted | solar-panel-backend/main.py:478 | the sort's output is sorted highest first and is a permutation of its input |
| Ranking.InsertDescLast | solar-panel-backend/main.py:478 | inserting an element that ranks at or below every element appends it: the sort is stable |
| Ranking.SortDescStable | solar-panel-backend/main.py:217-218 | a list whose keys are all equal is left in its order, as Python's stable `sorted` does |
| Ranking.Take | solar-panel-backend/main.py:217-218 | `xs[:n]` is the first min(n, len) elements |
| Ranking.TopRanked | solar-panel-backend/main.py:217-218 | the first n of the sorted list: every left-out element ranks at or below every kept one |
| Reports.SectorStats | solar-panel-backend/main.py:205-214 | at most one entry per sector; each entry names a sector with panels and carries its panel count and mean efficiency (the order and ids are `SectorStatsConcat`, `SectorStatsSingle`, `SectorStatsFromTable`) |
| Reports.SectorStatsConcat | solar-panel-backend/main.py:206-214 | the loop over the sectors is a concatenation: the entries of a + b are those of a followed by those of b |
| Reports.SectorStatsSingle | solar-panel-backend/main.py:207-214 | one sector gives exactly the entry `(id, mean, count)` when it has panels and nothing otherwise |
| Reports.SectorStatsFromTable | solar-panel-backend/main.py:206-211 | every entry's id is the id of a sector of the table |
| Reports.SectorStatsComplete | solar-panel-backend/main.py:206-214 | every sector with panels gets an entry (only such sectors do, by `SectorStats`) |
| Reports.GetStatistics | solar-panel-backend/main.py:199-231 | a server error iff the table is empty; otherwise the panel and sector totals, the mean efficiency, the needs-cleaning count and its share in percent (in [0, 100]), power in kW × 1000 = the sum of `voltage * 5`, capacity in MW × 10^6 = 500 per panel, revenue = power × 24 × 0.05, and at most five best and five worst sectors |
| Reports.BestSectorsRanked | solar-panel-backend/main.py:217 | the best five are the most efficient sectors with panels, highest first; every sector left out is at most as efficient as every one listed |
| Reports.WorstSectorsRanked | solar-panel-backend/main.py:218 | the worst five are the least efficient, lowest first; every sector left out is at least as efficient as every one listed |
| Reports.EfficiencyKeysOrder | solar-panel-backend/main.py:217-218 | `EfficiencyKey`, the best-first key, ranks by higher efficiency and `LowEfficiencyKey`, the worst-first key, by lower efficiency, both ways |
| Reports.SectorAlerts | solar-panel-backend/main.py:461-475 | each alert comes from a sector with panels and satisfies the alert condition |
| Reports.SectorAlert | solar-panel-backend/main.py:464-474 | an alert names its sector, carries its mean efficiency and its needs-cleaning count (at most its size), and is "high" iff the mean is below 80 |
| Reports.AlertedIff | solar-panel-backend/main.py:463-468 | `Alerted`: a sector with panels is alerted iff its average is below 85 or more than half its panels need cleaning |
| Reports.CountHigh | solar-panel-backend/main.py:482 | the high-priority count is at most the number of alerts, 0 iff none is "high", and the number of alerts iff all are |
| Reports.CountHighConcat | solar-panel-backend/main.py:482 | the count is additive over concatenation |
| Reports.CountHighPermutation | solar-panel-backend/main.py:478-482 | the count does not depend on order, so counting after the sort counts the alerts as generated |
| Reports.AlertKeyOrder | solar-panel-backend/main.py:478 | `AlertKey`, the sort key `(severity == "high", panels_affected)` ranks a above b iff a is "high" and b not, or the severity is the same and a affects more panels |
| Reports.AlertsSummary | solar-panel-backend/main.py:457-485 | `total_alerts` is the number of alerts, `high_priority_sectors` their high count; min(total, 10) sector ids, those of the first reported alerts, and min(total, 20) alerts |
| Reports.AlertsTopRanked | solar-panel-backend/main.py:478-484 | the reported alerts are some of the alerts, and every alert left out ranks at or below every reported one: not "high" when a reported one is, and not more panels affected at the same severity |
| Reports.AlertsOrdered | solar-panel-backend/main.py:478 | every "high" alert comes before every "medium" one, and within a severity more panels affected come first |
| Reports.AlertsReported | solar-panel-backend/main.py:461-484 | every reported alert is an alert of a sector with panels, satisfies the condition and has the right severity |
| FarmServer.EfficiencyOfPower | solar-panel-backend/main.py:489-492 | efficiency is in [0, 100]: 0 for no power, 100 from the expected power on, proportional in between |
| FarmServer.CalculateEfficiency | solar-panel-backend/main.py:488-492 | `calculate_efficiency` is the clamped efficiency of voltage × current |
| FarmServer.EfficiencyMonotonic | solar-panel-backend/main.py:488-492 | more power never means lower efficiency |
| FarmServer.EfficiencyAtRating | solar-panel-backend/main.py:489 | 19.5 V at 5.5 A is 100 %; no current is 0 % |
| FarmServer.SliceBound | solar-panel-backend/main.py:188 | Python's slice bound: a negative index counts from the end, and the result is clipped to [0, len] |
| FarmServer.PySlice | solar-panel-backend/main.py:188 | `s[start:stop]` is the elements between the normalised bounds, hi − lo of them or none when hi ≤ lo |
| FarmServer.PageOfList | solar-panel-backend/main.py:187-188 | a nonnegative page holds the elements from `skip` on, at most `limit` of them, and is short only at the end of the list |
| FarmServer.Flagged | solar-panel-backend/main.py:184-185 | `panel["needs_cleaning"] = …` stores the current rule's value and changes no other field |
| FarmServer.NegativeLimit | solar-panel-backend/main.py:188 | `limit = -1` with no offset lists all but the last panel |
| FarmServer.Listed | solar-panel-backend/main.py:178-181 | `Filtering`/`Selected`: `all_panels` holds exactly the table's panels of the sector, or all panels when the sector id is absent or empty |
| FarmServer.FlagListed | solar-panel-backend/main.py:184-185 | the loop writes `needs_cleaning` on exactly the listed panels |
| FarmServer.ListedFlagged | solar-panel-backend/main.py:184-185 | after the loop every listed panel's flag is the current predicate |
| FarmServer.CleanReadings | solar-panel-backend/main.py:240-241 | a cleaning draws dust in [50, 150] and efficiency in [92, 98] |
| FarmServer.BulkRecords | solar-panel-backend/main.py:289-294 | one 2.3-litre record per member needing cleaning, all of this sector (which panels and in what order: `BulkRecordsConcat`, `BulkRecordsSingle`) |
| FarmServer.BulkRecordsConcat | solar-panel-backend/main.py:277-294 | the records of a + b are those of a followed by those of b: table order |
| FarmServer.BulkRecordsSingle | solar-panel-backend/main.py:278-294 | one member gives a record with its own panel id iff it needs cleaning |
| FarmServer.CleanMembers | solar-panel-backend/main.py:277-294 | members needing cleaning are cleaned and every other panel is kept, with one record per cleaned panel |
| FarmServer.EfficiencyGain | solar-panel-backend/main.py:300 | the gain is in [0, 10]: 0 iff nothing was cleaned, 10 iff every member was |
| FarmServer.SectorClean | solar-panel-backend/main.py:277-286 | after `clean_sector` no panel of the sector needs cleaning |
| FarmServer.DustEfficiency | solar-panel-backend/main.py:358-359 | `95 - dust / 1000 * 15` is at most 95 for nonnegative dust and at least 83 up to the 800 cap |
| FarmServer.DriftPanel | solar-panel-backend/main.py:355-361 | dust rises by at most 0.5 and is capped at 800; efficiency follows the dust ±1, is at least 70, and the voltage follows the efficiency |
| FarmServer.DriftAll | solar-panel-backend/main.py:353-361 | every panel drifts so, keeping its key |
| FarmServer.Sample | solar-panel-backend/main.py:350 | `random.sample` fails iff there are fewer than k items; otherwise k distinct positions |
| FarmServer.BuildSamples | solar-panel-backend/main.py:389-401 | one entry per pick, in pick order, with the panel's updated readings, current 5 ± 0.3 A, temperature 32 ± 3 and power at 5 A |
| FarmServer.DrawWeather | solar-panel-backend/main.py:402-407 | temperature 32 ± 2, humidity 45 ± 5, wind 3.5 ± 1, "clear" |
| FarmServer.StreamSummaries | solar-panel-backend/main.py:369-378 | at most one summary per given sector; each names a sector with panels and carries its mean efficiency and needs-cleaning count |
| FarmServer.StreamSummariesConcat | solar-panel-backend/main.py:370-378 | the summaries of a + b are those of a followed by those of b: sector order |
| FarmServer.StreamSummariesSingle | solar-panel-backend/main.py:371-378 | one sector gives exactly its summary when it has panels and nothing otherwise |
| FarmServer.StreamSummariesComplete | solar-panel-backend/main.py:370-378 | every given sector with panels has a summary |
| FarmServer.StreamSummariesFromList | solar-panel-backend/main.py:370-374 | every summary is of one of the given sectors |
| FarmServer.StreamStatistics | solar-panel-backend/main.py:364-386 | the frame's figures: the mean efficiency, the needs-cleaning count (at most the table size) and its share in percent, in [0, 100], and the power in MW × 10^6 = the sum of `voltage * 5` |
| FarmServer.WithSensorData | solar-panel-backend/main.py:425-428 | the panel takes the measured voltage and dust and the computed efficiency in [0, 100]; key, sector and cached flag are kept |
| FarmServer.ReadingOf | solar-panel-backend/main.py:431-440 | the stored reading carries the submitted values, the panel's sector and the computed efficiency, and the submitted timestamp or else the current time |
| FarmServer.Appended | solar-panel-backend/main.py:441-445 | the history gains the reading last and keeps a suffix of the earlier readings, in order, losing at most one |
| FarmServer.AppendedRecent | solar-panel-backend/main.py:441-445 | the history stays within 10000, ends with the new reading and keeps the most recent ones in order |
| FarmServer.AppendedBound | solar-panel-backend/main.py:443-445 | the history never exceeds 10000 readings |
| FarmServer.SameKeysUnique | solar-panel-backend/main.py:353 | updating values in place keeps the keys distinct |
| FarmServer.FarmDb.constructor | solar-panel-backend/main.py:112-115 | start-up: tables satisfying `FreshFarm` (the generated farm, every panel's readings in one of the three bands) and empty cleaning and sensor histories |
| FarmServer.FarmDb.GetPanels | solar-panel-backend/main.py:177-195 | the total listed and the page slice; flags written on the listed panels; nothing else changes |
| FarmServer.FarmDb.CleanPanel | solar-panel-backend/main.py:235-265 | 404 iff the id is unknown, changing nothing; otherwise only that panel is cleaned, one manual record is appended and the receipt reports the stored values |
| FarmServer.FarmDb.CleanSector | solar-panel-backend/main.py:269-302 | 404 iff the sector has no panels; otherwise exactly its panels needing cleaning are cleaned, their records are appended, and the count, water and gain are reported |
| FarmServer.FarmDb.StreamTick | solar-panel-backend/main.py:347-410 | none iff fewer than 50 panels; otherwise every panel drifts and the frame carries the statistics, the summaries of the first nine sectors, ten samples of distinct panels and the weather |
| FarmServer.FarmDb.SubmitSensorData | solar-panel-backend/main.py:420-453 | 404 iff the id is unknown; otherwise only that panel is updated, the reading is appended within the bound, and the acknowledgement's flag uses the new efficiency |
| FarmServer.SamplesDistinct | solar-panel-backend/main.py:350 | samples at distinct positions of a table with distinct keys are of distinct panels |
| Timers.MinDue | solar-panel-frontend/components/PanelGrid.tsx:82-103 | the timer that fires first: the earliest due, the first scheduled among equals |
| Timers.Earliest | solar-panel-frontend/components/PanelGrid.tsx:82-103 | None iff no timer is due by t; otherwise that earliest timer |
| Timers.Without | solar-panel-frontend/components/PanelGrid.tsx:82-103 | removing a fired timer keeps the others in order |
| Timers.WithoutKeeps | solar-panel-frontend/components/PanelGrid.tsx:82-103 | every other scheduled action stays scheduled |
| PanelGrid.MergeFrame | solar-panel-frontend/components/PanelGrid.tsx:37-50 | the list keeps its length |
| PanelGrid.MergePanel | solar-panel-frontend/components/PanelGrid.tsx:38-49 | a tile keeps its id and sector; a suppressed one is kept whole; a changed tile took efficiency, dust and voltage from a sample with its id |
| PanelGrid.Remerge | solar-panel-frontend/components/PanelGrid.tsx:35-53 | re-running the effect keeps the list's length, ids and sectors and every suppressed tile, and changes nothing without a frame carrying samples |
| PanelGrid.FrameMerged | solar-panel-frontend/components/PanelGrid.tsx:37-50 | ids, sectors and order are kept; a suppressed or unsampled panel is kept whole; any other panel takes the first matching sample's efficiency, dust and voltage, with the flag recomputed |
| PanelGrid.LatestFrameWins | solar-panel-frontend/components/PanelGrid.tsx:35-53 | two frames in a row act as one frame with the newer samples first |
| PanelGrid.FirstMatchPrefix | solar-panel-frontend/components/PanelGrid.tsx:39 | the first match in a + b is the one in a when a has one |
| PanelGrid.FirstMatchSuffix | solar-panel-frontend/components/PanelGrid.tsx:39 | otherwise it is b's first match, shifted past a |
| PanelGrid.NoMatchConcat | solar-panel-frontend/components/PanelGrid.tsx:39 | otherwise there is none |
| PanelGrid.MergeFrameIdempotent | solar-panel-frontend/components/PanelGrid.tsx:35-53 | re-running the effect on the same frame changes nothing |
| PanelGrid.CleanedPanel | solar-panel-frontend/components/PanelGrid.tsx:67-73 | `new_dust_level \|\| 100`, `new_efficiency \|\| 95`, the voltage of that efficiency and a cleared flag; id and sector kept |
| PanelGrid.ApplyClean | solar-panel-frontend/components/PanelGrid.tsx:64-76 | every tile with the id is projected and every other tile is kept |
| PanelGrid.ReceiptProjected | solar-panel-frontend/components/PanelGrid.tsx:64-76 | a `clean_panel` response is shown as stored, and the backend predicate does not flag it |
| PanelGrid.FallbackProjected | solar-panel-frontend/components/PanelGrid.tsx:69-71 | missing or zero values fall back to 100 and 95, which are not flagged |
| PanelGrid.PanelColor | solar-panel-frontend/components/PanelGrid.tsx:115-137 | blue iff cleaning; green if cleaned; otherwise red, yellow or green by thresholds |
| PanelGrid.PanelColorMatchesPredicate | solar-panel-frontend/components/PanelGrid.tsx:128-136 | outside both sets the tile is yellow or red iff the backend predicate holds, and red iff below 80 % or above 400 dust |
| PanelGrid.EfficiencyColor | solar-panel-frontend/components/PanelGrid.tsx:139-143 | green from 90, yellow from 80, red below |
| PanelGrid.DustColor | solar-panel-frontend/components/PanelGrid.tsx:145-149 | red above 400, yellow above 300, green otherwise |
| PanelGrid.ColorsMonotonic | solar-panel-frontend/components/PanelGrid.tsx:139-149 | higher efficiency and lower dust never look worse |
| PanelGrid.LifecycleInitial | solar-panel-frontend/components/PanelGrid.tsx:25-27 | the empty sets and no timers satisfy the clean life cycle |
| PanelGrid.ButtonMeansIdle | solar-panel-frontend/components/PanelGrid.tsx:156 | while the Clean button shows (`CleanButtonShown`), no request and no life-cycle timer is pending for the panel |
| PanelGrid.FlagShownAfterFrame | solar-panel-frontend/components/PanelGrid.tsx:40-46 | after a frame the tile of an unsuppressed sampled panel shows "needs cleaning" (`NeedsCleaningShown`, line 156) iff the first matching sample has dust above 300 or efficiency below 85 |
| PanelGrid.LifecycleRequest | solar-panel-frontend/components/PanelGrid.tsx:57 | a click on an offered button keeps the life cycle |
| PanelGrid.LifecycleSuccess | solar-panel-frontend/components/PanelGrid.tsx:79-103 | success (suppression, the 2000 ms timer, the refresh) keeps it |
| PanelGrid.LifecycleFailure | solar-panel-frontend/components/PanelGrid.tsx:104-112 | failure keeps it |
| PanelGrid.LifecycleIdle | solar-panel-frontend/components/PanelGrid.tsx:82-103 | the clock moving with nothing due keeps it |
| PanelGrid.LifecycleEndCleaning | solar-panel-frontend/components/PanelGrid.tsx:83-97 | the 2000 ms timer ends cleaning and arms the 10000 ms one, keeping it |
| PanelGrid.EndCleaningTimers | solar-panel-frontend/components/PanelGrid.tsx:83-97 | after the 2000 ms timer every timer is still due after the clock and fits its panel's phase, and no action is scheduled twice |
| PanelGrid.EndCleaningScheduled | solar-panel-frontend/components/PanelGrid.tsx:83-97 | after it every panel in a phase still has its ending timer scheduled |
| PanelGrid.LifecycleEndSuppression | solar-panel-frontend/components/PanelGrid.tsx:91-97 | the 10000 ms timer lifts suppression, keeping it |
| PanelGrid.EndSuppressionTimers | solar-panel-frontend/components/PanelGrid.tsx:91-97 | after the 10000 ms timer every timer is still due after the clock and fits its panel's phase, and no action is scheduled twice |
| PanelGrid.LifecycleRefresh | solar-panel-frontend/components/PanelGrid.tsx:101-103 | the refresh timer keeps it |
| PanelGrid.PanelGridState.constructor | solar-panel-frontend/components/PanelGrid.tsx:25-53 | mount: the `panels` prop merged with the initial frame; empty sets and no timers |
| PanelGrid.PanelGridState.OnPropsPanels | solar-panel-frontend/components/PanelGrid.tsx:30-32 | a new prop replaces the list wholesale, suppressed tiles included |
| PanelGrid.PanelGridState.OnFrame | solar-panel-frontend/components/PanelGrid.tsx:35-53 | a frame with samples merges into the list; sets and timers unchanged |
| PanelGrid.PanelGridState.RequestClean | solar-panel-frontend/components/PanelGrid.tsx:55-57 | the id joins the cleaning set and a request is awaited |
| PanelGrid.PanelGridState.CleanSucceeded | solar-panel-frontend/components/PanelGrid.tsx:64-103 | projection, suppression, the 2000 ms timer and, with a callback, the 2500 ms refresh |
| PanelGrid.PanelGridState.CleanFailed | solar-panel-frontend/components/PanelGrid.tsx:104-112 | the id leaves the cleaning set; list and suppression kept |
| PanelGrid.PanelGridState.Tick | solar-panel-frontend/components/PanelGrid.tsx:82-103 | the new state is `TickState` of the old one, and the life cycle invariant is kept |
| PanelGrid.PanelGridState.FireTimer | solar-panel-frontend/components/PanelGrid.tsx:82-103 | firing timer k makes the new state `Fire` of the old one |
| PanelGrid.TickState | solar-panel-frontend/components/PanelGrid.tsx:82-103 | with nothing due by t only the clock moves, to t; otherwise the state is `Fire` of the earliest due timer; requests and frame kept, at most one refresh |
| PanelGrid.Fire | solar-panel-frontend/components/PanelGrid.tsx:82-103 | the fired timer leaves the table and the clock stands at its due time; the 2000 ms timer ends cleaning and arms the 10000 ms one; the 10000 ms timer lifts suppression and the frame is merged again; the refresh timer calls `onPanelCleaned` once; nothing else changes |
| PanelGrid.TickLifecycle | solar-panel-frontend/components/PanelGrid.tsx:82-103 | every turn of the event loop keeps the life cycle |
| PanelGrid.FireLifecycle | solar-panel-frontend/components/PanelGrid.tsx:82-103 | firing any due timer keeps it |
| PanelGrid.FireEndCleaning | solar-panel-frontend/components/PanelGrid.tsx:83-98 | firing the 2000 ms timer keeps the life cycle |
| PanelGrid.EndCleaningValid | solar-panel-frontend/components/PanelGrid.tsx:83-98 | so does any state with the fields it produces |
| PanelGrid.FireEndSuppression | solar-panel-frontend/components/PanelGrid.tsx:91-97 | firing the 10000 ms timer keeps it |
| PanelGrid.EndSuppressionValid | solar-panel-frontend/components/PanelGrid.tsx:91-97 | so does any state with the fields it produces |
| PanelGrid.FireRefresh | solar-panel-frontend/components/PanelGrid.tsx:101-103 | firing the refresh timer keeps it |
| PanelGrid.RefreshValid | solar-panel-frontend/components/PanelGrid.tsx:101-103 | so does any state with the fields it produces |
| PanelGrid.SuppressionHolds | solar-panel-frontend/components/PanelGrid.tsx:40-97 | a suppressed panel stays suppressed and keeps its tiles' values until its own 10000 ms timer fires |
| PanelGrid.CleanTimeline | solar-panel-frontend/components/PanelGrid.tsx:35-103 | on a concrete run: the tile shows 95 % and dust 100, a frame is ignored during suppression, and at 12000 ms the frame's 83 % and 335 dust return, flagged; the parent is refreshed once |
| PanelGrid.RunTimers | solar-panel-frontend/components/PanelGrid.tsx:82-103 | the three timers of that run fire at 2000, 2500 and 12000 ms |
| PanelGrid.RunRefreshAndSuppression | solar-panel-frontend/components/PanelGrid.tsx:91-103 | the second part of that run: the refresh at 2500 ms and the end of suppression at 12000 ms |
| SectorMap.FindSector | solar-panel-frontend/components/SectorMap.tsx:39 | `findIndex`: None iff no sector has the id; otherwise the first one with it |
| SectorMap.FindSectorFirst | solar-panel-frontend/components/SectorMap.tsx:39 | the lookup of a sector's id finds it iff it is the first with its id |
| SectorMap.FindSectorIds | solar-panel-frontend/components/SectorMap.tsx:39 | the lookup depends only on the ids |
| SectorMap.LastSummary | solar-panel-frontend/components/SectorMap.tsx:38-47 | None iff no summary names the id; otherwise one that does |
| SectorMap.LastSummaryIsLast | solar-panel-frontend/components/SectorMap.tsx:38-47 | it is the last summary with that id |
| SectorMap.Reconciled | solar-panel-frontend/components/SectorMap.tsx:36-49 | the list keeps its length, each entry reconciled on its own |
| SectorMap.ReconciledFields | solar-panel-frontend/components/SectorMap.tsx:36-49 | ids, coordinates and counts kept; unnamed and repeated sectors kept whole; the first sector with an id takes the last summary's efficiency and count |
| SectorMap.Patched | solar-panel-frontend/components/SectorMap.tsx:41-45 | a patched sector keeps id, coordinates and panel count and takes the summary's efficiency and count |
| SectorMap.ReconciledEntry | solar-panel-frontend/components/SectorMap.tsx:38-47 | an entry keeps its id and count; a repeated id or one no summary names is kept whole |
| SectorMap.ReconciledEmpty | solar-panel-frontend/components/SectorMap.tsx:37 | no summaries leave the list as it was |
| SectorMap.ReconciledStep | solar-panel-frontend/components/SectorMap.tsx:38-47 | one more summary patches the first sector with its id and nothing else |
| SectorMap.MergeSummaries | solar-panel-frontend/components/SectorMap.tsx:36-49 | the `forEach` loop computes the reconciled list |
| SectorMap.CleanedSectors | solar-panel-frontend/components/SectorMap.tsx:75-79 | sectors with the id show 95 % and none needing cleaning; the others are kept |
| SectorMap.CleaningPercentage | solar-panel-frontend/components/SectorMap.tsx:114-115 | the share times the panel count is 100 × the count needing cleaning (a missing or 0 count reads as 0), and it is 0 for a sector without panels |
| SectorMap.SectorColor | solar-panel-frontend/components/SectorMap.tsx:110-122 | blue iff cleaning; otherwise, with e the efficiency (`|| 90`) and p the share: red iff e < 75 or p > 60, orange iff not red and e < 82 or p > 40, yellow iff neither and e < 88 or p > 20, green iff none of these |
| SectorMap.ColorFollowsLegend | solar-panel-frontend/components/SectorMap.tsx:110-165 | with at most a fifth flagged the colour is the legend's band; with more, never better than it |
| SectorMap.LegendShade | solar-panel-frontend/components/SectorMap.tsx:146-165 | the legend's band: never blue, green iff 88 % or more, red iff below 75 % |
| SectorMap.ColorMonotonic | solar-panel-frontend/components/SectorMap.tsx:118-121 | higher efficiency and fewer flagged never look worse |
| SectorMap.PercentOrder | solar-panel-frontend/components/SectorMap.tsx:115 | the share grows with the count |
| SectorMap.CleanedShowsGreen | solar-panel-frontend/components/SectorMap.tsx:75-79 | a cleaned sector shows green once no longer cleaning |
| SectorMap.ZeroEfficiencyShowsGreen | solar-panel-frontend/components/SectorMap.tsx:113 | the `\|\| 90` default turns a real 0 % with few flagged into green |
| SectorMap.LastAt | solar-panel-frontend/components/SectorMap.tsx:126-130 | the last sector placed at a cell, if any, is one with those coordinates |
| SectorMap.PlacementWins | solar-panel-frontend/components/SectorMap.tsx:126-130 | an on-board sector that no later sector shares a cell with is the one drawn there |
| SectorMap.CreateSectorGrid | solar-panel-frontend/components/SectorMap.tsx:124-132 | fails iff some sector has a negative row and a column below 9; otherwise each cell holds the last sector placed there and negative columns are not drawn |
| SectorMap.SectorMapState.constructor | solar-panel-frontend/components/SectorMap.tsx:23-31 | mount: an empty list while loading |
| SectorMap.SectorMapState.OnFetched | solar-panel-frontend/components/SectorMap.tsx:53-64 | success replaces the list, failure keeps it; loading ends either way |
| SectorMap.SectorMapState.OnFrame | solar-panel-frontend/components/SectorMap.tsx:33-51 | the frame's summaries reconcile the list, cleaning sectors included |
| SectorMap.SectorMapState.RequestClean | solar-panel-frontend/components/SectorMap.tsx:66-68 | the sector is marked and a request is awaited, with no guard against a second request |
| SectorMap.SectorMapState.CleanSucceeded | solar-panel-frontend/components/SectorMap.tsx:71-87 | the optimistic values and the 2000 ms timer |
| SectorMap.SectorMapState.CleanFailed | solar-panel-frontend/components/SectorMap.tsx:88-95 | the mark is removed at once and the list kept |
| SectorMap.SectorMapState.Tick | solar-panel-frontend/components/SectorMap.tsx:81-87 | the earliest due timer removes its sector's mark, even with requests still in flight |
| SectorMap.CleanOverwritten | solar-panel-frontend/components/SectorMap.tsx:33-87 | on a concrete run: 95 % and no panels flagged after the clean; the next frame's 84.5 % and 12 flagged while still blue; yellow after the timer |
| SectorMap.EarlyUnmark | solar-panel-frontend/components/SectorMap.tsx:66-87 | with two requests, the first timer unmarks the sector while the second is still in flight |
| WebSocketFeed.FeedState.constructor | solar-panel-frontend/hooks/useWebSocket.ts:6-52 | mount: no data, offline, one attempt; a socket unless the constructor throws |
| WebSocketFeed.FeedState.OnOpen | solar-panel-frontend/hooks/useWebSocket.ts:18-21 | the socket opens and a mounted hook goes online |
| WebSocketFeed.FeedState.OnMessage | solar-panel-frontend/hooks/useWebSocket.ts:23-30 | a frame that parses replaces the data; one that does not is dropped |
| WebSocketFeed.FeedState.OnError | solar-panel-frontend/hooks/useWebSocket.ts:32-35 | an error only logs and keeps the invariant |
| WebSocketFeed.FeedState.OnClose | solar-panel-frontend/hooks/useWebSocket.ts:37-46 | close: offline if mounted, and a reconnect armed 3000 ms later, even after teardown |
| WebSocketFeed.FeedState.Tick | solar-panel-frontend/hooks/useWebSocket.ts:42-49 | a reconnect due by t fires at its due time and makes one more attempt; a throwing constructor leaves no timer |
| WebSocketFeed.FeedState.Teardown | solar-panel-frontend/hooks/useWebSocket.ts:54-61 | cleanup clears the timer and closes a connecting or open socket |
| WebSocketFeed.RetryChain | solar-panel-frontend/hooks/useWebSocket.ts:37-46 | after n closes the hook has made n + 1 attempts, 3000 ms apart, with no cap or backoff |
| WebSocketFeed.ThrowStopsRetrying | solar-panel-frontend/hooks/useWebSocket.ts:47-49 | a throwing constructor leaves the hook offline for good |
| WebSocketFeed.ReconnectAfterTeardown | solar-panel-frontend/hooks/useWebSocket.ts:37-61 | after teardown of an open socket its late close still makes a second attempt, for an unmounted hook |
| RealtimeChart.WindowSlides | solar-panel-frontend/components/RealtimeChart.tsx:21-28 | the window has at most 20 points, the new one last, preceded by the most recent previous ones in order |
| RealtimeChart.MeanDust | solar-panel-frontend/components/RealtimeChart.tsx:34 | the mean dust is NaN (None) iff the list is empty |
| RealtimeChart.SumDustConcat | solar-panel-frontend/components/RealtimeChart.tsx:34 | `SumDust`, the `reduce` sum, is additive over concatenation |
| RealtimeChart.SumDustBounds | solar-panel-frontend/components/RealtimeChart.tsx:34 | dust values in [lo, hi] sum to between lo·n and hi·n |
| RealtimeChart.MeanDustBounds | solar-panel-frontend/components/RealtimeChart.tsx:34 | their mean is in [lo, hi] |
| RealtimeChart.ChartStep | solar-panel-frontend/components/RealtimeChart.tsx:12-47 | the effect throws iff the frame has `panels`, no panel is selected and `system_status` is missing (what it appends: `SelectedPanelPlotted`, `FarmPointPlotted` and their companions) |
| RealtimeChart.StepSlides | solar-panel-frontend/components/RealtimeChart.tsx:12-47 | a step either keeps the chart or slides the window by one point stamped with this frame |
| RealtimeChart.BackendFramesNotPlotted | solar-panel-frontend/components/RealtimeChart.tsx:13 | a frame without `panels`, the only kind the backend sends, leaves the chart as it was |
| RealtimeChart.SelectedPanelPlotted | solar-panel-frontend/components/RealtimeChart.tsx:16-30 | with a panel selected, a frame listing it adds one point with its first reading (dust scaled by 1/10) |
| RealtimeChart.SelectedPanelFound | solar-panel-frontend/components/RealtimeChart.tsx:18-29 | once `find` has found the panel, its reading is the point added |
| RealtimeChart.EmptySelectionIsNone | solar-panel-frontend/components/RealtimeChart.tsx:16 | `Selects` is JavaScript truthiness: an empty selection is falsy: the step is that of no selection |
| RealtimeChart.SelectedPanelMissing | solar-panel-frontend/components/RealtimeChart.tsx:18-19 | with a panel selected, a frame not listing it leaves the chart as it was |
| RealtimeChart.FarmPointPlotted | solar-panel-frontend/components/RealtimeChart.tsx:31-44 | with no panel selected, a frame with panels and `system_status` appends the point of `total_efficiency`, the mean dust / 10 and `total_power_output` / 10 |
| RealtimeChart.FarmPointEmptyPanels | solar-panel-frontend/components/RealtimeChart.tsx:33-44 | with an empty `panels` list the mean dust is NaN (None) and the point is still appended |
| RealtimeChart.ChartState.constructor | solar-panel-frontend/components/RealtimeChart.tsx:10-12 | mount runs the effect once on an empty buffer |
| RealtimeChart.ChartState.Render | solar-panel-frontend/components/RealtimeChart.tsx:12-47 | a prop change runs one step on the kept buffer (not cleared by a new selection); a throw crashes the component and keeps the buffer |

## Left out

- `round()`: numbers are reals and the stream's and reports' rounding is not modelled.
- Coordinates, dates, `last_cleaned`, `installation_date`, `status` and the location fields
  are not modelled. They feed nothing the core decides.
- HTTP routing, CORS, the FastAPI request models and `asyncio` are not modelled. The stream's
  three-second sleep and the send are left to the caller of `StreamTick`.
- The `root`, `get_sectors`, `get_sector_panels` and `predict_sector_cleaning` endpoints are
  outside the core.
- The sector map's hover prediction fetch (SectorMap.tsx:98-108) is not modelled. The
  map's Clean button is modelled as always clickable.
- database.py, lib/api.ts and the `usePanels` hook are not part of this model. The responses
  they deliver are method parameters.
- Toasts and console logging are not modelled, nor React's render and batching semantics;
  every state update applies at once. The chart's `toLocaleTimeString` formatting is
  replaced by the frame's own timestamp.
- NaN is not a real: the chart's mean dust of an empty list is None.
- The sector map's `loading` flag is kept as a field, but the spinner it renders is not
  modelled.
- The `zone` and `total_power_output` fields of the tables are not modelled.
- FarmServer.FarmDb.CleanSector: the cached `needs_cleaning` key of a cleaned panel is left
  as it was. `submit_sensor_data` does not refresh it either (`WithSensorData`). This is the
  source's behaviour, not a weakening.
- PanelGrid.PanelGridState.RequestClean: requires that some tile offers the Clean button for
  the id. The UI only calls it from that button.
- RealtimeChart.ChartState.Render: requires that a prop changed, compared by value; React compares
  `wsData` by identity, so an equal frame sent again re-runs the effect there and not here.
- PanelGrid.PanelGridState.Tick, SectorMap.SectorMapState.Tick and WebSocketFeed.FeedState.Tick:
  one call fires at most one timer. A clock jump past several due timers is a sequence of calls.
