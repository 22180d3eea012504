/** The panel grid of solar-panel-frontend/components/PanelGrid.tsx: a local copy of the panel
    list that stream frames patch, an optimistic update when a clean request succeeds, and two
    id sets: `cleaningPanels` (request in flight or cleaning animation) and `cleanedPanels`
    (panels that frames must not touch).

    React's effects and timers become events on one object: a logical clock `now` and a table
    of pending timer actions, fired one at a time by `Tick`. A remote clean request is a pending
    promise that later resolves (`CleanSucceeded`) or rejects (`CleanFailed`). */
module PanelGrid {
  import opened Wrappers
  import opened Farm
  import opened Telemetry
  import opened Timers

  /** A panel as the grid holds it (`zone` is not modelled). */
  datatype UiPanel = UiPanel(
    panelId: string,
    efficiency: real,
    dustLevel: real,
    voltage: real,
    needsCleaning: bool,
    sectorId: Option<string>)

  // ---------------------------------------------------------------------------------------
  // The frame merge

  /** A panel under one frame: if the frame samples it and it is not suppressed, it takes the
      first sample's efficiency, dust level and voltage, and its flag is recomputed with the
      backend's predicate; otherwise it is kept. */
  function MergePanel(p: UiPanel, samples: seq<SamplePanel>, cleaned: set<string>): (q: UiPanel)
    ensures q.panelId == p.panelId && q.sectorId == p.sectorId
    ensures p.panelId in cleaned ==> q == p
    ensures q != p ==> exists k :: && 0 <= k < |samples| && samples[k].id == p.panelId
                                   && q.efficiency == samples[k].efficiency && q.dustLevel == samples[k].dustLevel
                                   && q.voltage == samples[k].voltage
  {
    match FindSample(samples, p.panelId)
    case None => p
    case Some(k) =>
      if p.panelId in cleaned then p
      else
        var s := samples[k];
        p.(efficiency := s.efficiency, dustLevel := s.dustLevel, voltage := s.voltage,
           needsCleaning := NeedsCleaning(s.dustLevel, s.efficiency))
  }

  /** `prevPanels.map(...)` of the stream effect. */
  function MergeFrame(panels: seq<UiPanel>, samples: seq<SamplePanel>, cleaned: set<string>): (r: seq<UiPanel>)
    ensures |r| == |panels|
    ensures forall i :: 0 <= i < |r| ==> r[i] == MergePanel(panels[i], samples, cleaned)
  {
    seq(|panels|, i requires 0 <= i < |panels| => MergePanel(panels[i], samples, cleaned))
  }

  /** What a frame does to the list, stated without the lookup function: length, order, ids and
      sectors are kept; a suppressed or unsampled panel is kept whole; any other panel takes
      the values of the first sample carrying its id. */
  lemma FrameMerged(panels: seq<UiPanel>, samples: seq<SamplePanel>, cleaned: set<string>)
    ensures var r := MergeFrame(panels, samples, cleaned);
            && |r| == |panels|
            && (forall i :: 0 <= i < |r| ==> r[i].panelId == panels[i].panelId && r[i].sectorId == panels[i].sectorId)
            && (forall i :: 0 <= i < |r| && panels[i].panelId in cleaned ==> r[i] == panels[i])
            && (forall i :: 0 <= i < |r| && (forall j :: 0 <= j < |samples| ==> samples[j].id != panels[i].panelId) ==>
                  r[i] == panels[i])
            && (forall i, j :: 0 <= i < |r| && panels[i].panelId !in cleaned && FirstMatch(samples, panels[i].panelId, j) ==>
                  && r[i].efficiency == samples[j].efficiency
                  && r[i].dustLevel == samples[j].dustLevel
                  && r[i].voltage == samples[j].voltage
                  && r[i].needsCleaning == NeedsCleaning(samples[j].dustLevel, samples[j].efficiency))
  {
    forall i, j | 0 <= i < |panels| && FirstMatch(samples, panels[i].panelId, j)
      ensures FindSample(samples, panels[i].panelId) == Some(j)
    {
      FindSampleFirst(samples, panels[i].panelId, j);
    }
  }

  /** Two frames in a row act as one frame holding the newer samples before the older ones: for
      each panel the newer frame wins where it has a sample. */
  lemma LatestFrameWins(panels: seq<UiPanel>, older: seq<SamplePanel>, newer: seq<SamplePanel>, cleaned: set<string>)
    ensures MergeFrame(MergeFrame(panels, older, cleaned), newer, cleaned) == MergeFrame(panels, newer + older, cleaned)
  {
    var a := MergeFrame(MergeFrame(panels, older, cleaned), newer, cleaned);
    var b := MergeFrame(panels, newer + older, cleaned);
    forall i | 0 <= i < |panels| ensures a[i] == b[i] {
      var id := panels[i].panelId;
      if FindSample(newer, id).Some? {
        FirstMatchPrefix(newer, older, id, FindSample(newer, id).value);
      } else if FindSample(older, id).Some? {
        FirstMatchSuffix(newer, older, id, FindSample(older, id).value);
      } else {
        NoMatchConcat(newer, older, id);
      }
    }
  }

  /** The first match in `a + b` is the first match in `a` when there is one, ... */
  lemma FirstMatchPrefix(a: seq<SamplePanel>, b: seq<SamplePanel>, id: string, k: nat)
    requires FindSample(a, id) == Some(k)
    ensures FindSample(a + b, id) == Some(k)
  {
    var ab := a + b;
    assert ab[k] == a[k];
    assert forall l :: 0 <= l < k ==> ab[l] == a[l];
    FindSampleFirst(ab, id, k);
  }

  /** ... or else the first match in `b`, shifted past `a`, ... */
  lemma FirstMatchSuffix(a: seq<SamplePanel>, b: seq<SamplePanel>, id: string, k: nat)
    requires FindSample(a, id).None? && FindSample(b, id) == Some(k)
    ensures FindSample(a + b, id) == Some(|a| + k)
  {
    var ab := a + b;
    assert ab[|a| + k] == b[k];
    forall l | 0 <= l < |a| + k ensures ab[l].id != id {
      if l < |a| {
        assert ab[l] == a[l];
      } else {
        assert ab[l] == b[l - |a|];
      }
    }
    FindSampleFirst(ab, id, |a| + k);
  }

  /** ... or else none. */
  lemma NoMatchConcat(a: seq<SamplePanel>, b: seq<SamplePanel>, id: string)
    requires FindSample(a, id).None? && FindSample(b, id).None?
    ensures FindSample(a + b, id).None?
  {
    var ab := a + b;
    forall l | 0 <= l < |ab| ensures ab[l].id != id {
      if l < |a| {
        assert ab[l] == a[l];
      } else {
        assert ab[l] == b[l - |a|];
      }
    }
  }

  /** A frame applied twice changes nothing the second time. */
  lemma MergeFrameIdempotent(panels: seq<UiPanel>, samples: seq<SamplePanel>, cleaned: set<string>)
    ensures MergeFrame(MergeFrame(panels, samples, cleaned), samples, cleaned) == MergeFrame(panels, samples, cleaned)
  {
    LatestFrameWins(panels, samples, samples, cleaned);
    var a := MergeFrame(panels, samples + samples, cleaned);
    var b := MergeFrame(panels, samples, cleaned);
    forall i | 0 <= i < |panels| ensures a[i] == b[i] {
      var id := panels[i].panelId;
      if FindSample(samples, id).Some? {
        FirstMatchPrefix(samples, samples, id, FindSample(samples, id).value);
      } else {
        NoMatchConcat(samples, samples, id);
      }
    }
  }

  /** The stream effect for a frame: it runs only when the frame has `sample_panels`. */
  function Remerge(panels: seq<UiPanel>, wsData: Option<Frame>, cleaned: set<string>): (r: seq<UiPanel>)
    ensures |r| == |panels|
    ensures forall i :: 0 <= i < |r| ==> r[i].panelId == panels[i].panelId && r[i].sectorId == panels[i].sectorId
    ensures forall i :: 0 <= i < |r| && panels[i].panelId in cleaned ==> r[i] == panels[i]
    ensures (wsData.None? || wsData.value.samplePanels.None?) ==> r == panels
  {
    if wsData.Some? && wsData.value.samplePanels.Some?
    then MergeFrame(panels, wsData.value.samplePanels.value, cleaned)
    else panels
  }

  // ---------------------------------------------------------------------------------------
  // The optimistic update

  /** The fields of the `cleanPanel` response the grid reads; either may be missing. */
  datatype CleanResult = CleanResult(newDustLevel: Option<real>, newEfficiency: Option<real>)

  /** The projected panel: `new_dust_level || 100`, `new_efficiency || 95`, the voltage of that
      efficiency, and the flag cleared. */
  function CleanedPanel(p: UiPanel, r: CleanResult): (q: UiPanel)
    ensures q.panelId == p.panelId && q.sectorId == p.sectorId && !q.needsCleaning
    ensures q.dustLevel == OrNumber(r.newDustLevel, 100.0)
    ensures q.efficiency == OrNumber(r.newEfficiency, 95.0) && q.voltage == VoltageAt(q.efficiency)
  {
    var efficiency := OrNumber(r.newEfficiency, 95.0);
    p.(dustLevel := OrNumber(r.newDustLevel, 100.0), efficiency := efficiency,
       voltage := VoltageAt(efficiency), needsCleaning := false)
  }

  /** The `setLocalPanels` of a successful clean: every entry with the id is projected, every
      other entry is kept. */
  function ApplyClean(panels: seq<UiPanel>, id: string, r: CleanResult): (q: seq<UiPanel>)
    ensures |q| == |panels|
    ensures forall i :: 0 <= i < |q| ==> q[i] == if panels[i].panelId == id then CleanedPanel(panels[i], r) else panels[i]
  {
    seq(|panels|, i requires 0 <= i < |panels| => if panels[i].panelId == id then CleanedPanel(panels[i], r) else panels[i])
  }

  /** For a response of the backend's `clean_panel` (dust in [50, 150], efficiency in [92, 98])
      the projection shows exactly the stored values, which the backend predicate does not flag. */
  lemma ReceiptProjected(p: UiPanel, dust: real, efficiency: real)
    requires 50.0 <= dust <= 150.0 && 92.0 <= efficiency <= 98.0
    ensures var q := CleanedPanel(p, CleanResult(Some(dust), Some(efficiency)));
            && q.dustLevel == dust && q.efficiency == efficiency && q.voltage == VoltageAt(efficiency)
            && q.needsCleaning == NeedsCleaning(q.dustLevel, q.efficiency)
  {
  }

  /** Missing or zero response values fall back to 100 and 95, which are not flagged either. */
  lemma FallbackProjected(p: UiPanel, r: CleanResult)
    requires r.newDustLevel.None? || r.newDustLevel.value == 0.0
    requires r.newEfficiency.None? || r.newEfficiency.value == 0.0
    ensures var q := CleanedPanel(p, r);
            && q.dustLevel == 100.0 && q.efficiency == 95.0
            && q.needsCleaning == NeedsCleaning(q.dustLevel, q.efficiency)
  {
  }

  // ---------------------------------------------------------------------------------------
  // Colours and the button guard

  datatype Tone = Blue | Green | Yellow | Red

  /** How alarming a tone is: green, yellow, red. */
  function Severity(t: Tone): nat
  {
    match t
    case Blue => 0
    case Green => 0
    case Yellow => 1
    case Red => 2
  }

  /** `getPanelColor`: cleaning (pulsing blue), then cleaned (green), then red, yellow, green. */
  function PanelColor(p: UiPanel, cleaning: set<string>, cleaned: set<string>): (t: Tone)
    ensures t == Blue <==> p.panelId in cleaning
    ensures p.panelId !in cleaning && p.panelId in cleaned ==> t == Green
  {
    if p.panelId in cleaning then Blue
    else if p.panelId in cleaned then Green
    else if p.efficiency < 80.0 || p.dustLevel > 400.0 then Red
    else if p.efficiency < 85.0 || p.dustLevel > 300.0 then Yellow
    else Green
  }

  /** Outside the two sets the tile is yellow or red exactly when the backend predicate holds,
      and red exactly below 80 % or above 400 dust. */
  lemma PanelColorMatchesPredicate(p: UiPanel, cleaning: set<string>, cleaned: set<string>)
    requires p.panelId !in cleaning && p.panelId !in cleaned
    ensures Severity(PanelColor(p, cleaning, cleaned)) > 0 <==> NeedsCleaning(p.dustLevel, p.efficiency)
    ensures PanelColor(p, cleaning, cleaned) == Red <==> p.efficiency < 80.0 || p.dustLevel > 400.0
  {
  }

  /** `getEfficiencyColor`. */
  function EfficiencyColor(efficiency: real): (t: Tone)
    ensures t != Blue
    ensures t == Green <==> efficiency >= 90.0
    ensures t == Red <==> efficiency < 80.0
  {
    if efficiency >= 90.0 then Green else if efficiency >= 80.0 then Yellow else Red
  }

  /** `getDustColor`. */
  function DustColor(dust: real): (t: Tone)
    ensures t != Blue
    ensures t == Green <==> dust <= 300.0
    ensures t == Red <==> dust > 400.0
  {
    if dust > 400.0 then Red else if dust > 300.0 then Yellow else Green
  }

  /** Higher efficiency and lower dust never look worse. */
  lemma ColorsMonotonic(e1: real, e2: real, d1: real, d2: real)
    requires e1 <= e2 && d1 <= d2
    ensures Severity(EfficiencyColor(e2)) <= Severity(EfficiencyColor(e1))
    ensures Severity(DustColor(d1)) <= Severity(DustColor(d2))
  {
  }

  /** The alert icon: the panel's flag, unless it is suppressed. */
  predicate NeedsCleaningShown(p: UiPanel, cleaned: set<string>)
  {
    p.needsCleaning && p.panelId !in cleaned
  }

  /** The Clean button is rendered for a flagged panel that is neither suppressed nor cleaning;
      it is the only guard against a second request. */
  predicate CleanButtonShown(p: UiPanel, cleaning: set<string>, cleaned: set<string>)
  {
    NeedsCleaningShown(p, cleaned) && p.panelId !in cleaning
  }

  /** After a frame, a sampled panel that is not suppressed shows the alert icon exactly when
      the backend's predicate holds of its first sample. */
  lemma FlagShownAfterFrame(panels: seq<UiPanel>, samples: seq<SamplePanel>, cleaned: set<string>, i: nat, j: int)
    requires i < |panels| && panels[i].panelId !in cleaned && FirstMatch(samples, panels[i].panelId, j)
    ensures NeedsCleaningShown(MergeFrame(panels, samples, cleaned)[i], cleaned)
            <==> NeedsCleaning(samples[j].dustLevel, samples[j].efficiency)
  {
    FrameMerged(panels, samples, cleaned);
  }

  /** Some tile of the list shows a Clean button for `id`. */
  ghost predicate CleanOffered(panels: seq<UiPanel>, cleaning: set<string>, cleaned: set<string>, id: string)
  {
    exists i :: 0 <= i < |panels| && panels[i].panelId == id && CleanButtonShown(panels[i], cleaning, cleaned)
  }

  // ---------------------------------------------------------------------------------------
  // Timers

  datatype TimerAction =
    | EndCleaning(id: string)     // the 2000 ms timeout: leave `cleaningPanels`, schedule the next
    | EndSuppression(id: string)  // the nested 10000 ms timeout: leave `cleanedPanels`
    | RefreshParent               // the 2500 ms `onPanelCleaned` callback

  /** A timer action is consistent with the sets: an `EndCleaning` timer exists only after
      success (the id is cleaning, no longer awaited), an `EndSuppression` one only after the
      cleaning phase. */
  predicate Fits(a: TimerAction, pending: set<string>, cleaning: set<string>, cleaned: set<string>)
  {
    match a
    case EndCleaning(id) => id in cleaning && id !in pending
    case EndSuppression(id) => id in cleaned && id !in cleaning
    case RefreshParent => true
  }

  /** The life cycle of a clean, as an invariant of the grid's state: an awaited request's id is
      cleaning and not suppressed; after success the id is cleaning and suppressed with its
      2000 ms timer pending; after that, suppressed only, with its 10000 ms timer pending. No id
      has two life-cycle timers, and no timer is overdue. */
  ghost predicate Lifecycle(pending: set<string>, cleaning: set<string>, cleaned: set<string>, timers: seq<Timer<TimerAction>>, now: nat)
  {
    && pending <= cleaning
    && pending !! cleaned
    && (forall id :: id in cleaning && id !in pending ==> id in cleaned && Scheduled(timers, EndCleaning(id)))
    && (forall id :: id in cleaned && id !in cleaning ==> Scheduled(timers, EndSuppression(id)))
    && (forall i :: 0 <= i < |timers| ==> timers[i].due >= now && Fits(timers[i].action, pending, cleaning, cleaned))
    && (forall i, j :: 0 <= i < j < |timers| && timers[i].action == timers[j].action ==> timers[i].action == RefreshParent)
  }

  lemma LifecycleInitial()
    ensures Lifecycle({}, {}, {}, [], 0)
  {
  }

  /** While a panel shows its Clean button, nothing about it is in progress: no request is
      awaited and no life-cycle timer is pending. So the button alone keeps one clean per panel
      in flight. */
  lemma ButtonMeansIdle(pending: set<string>, cleaning: set<string>, cleaned: set<string>, timers: seq<Timer<TimerAction>>, now: nat, p: UiPanel)
    requires Lifecycle(pending, cleaning, cleaned, timers, now)
    requires CleanButtonShown(p, cleaning, cleaned)
    ensures p.panelId !in pending
    ensures !Scheduled(timers, EndCleaning(p.panelId)) && !Scheduled(timers, EndSuppression(p.panelId))
  {
  }

  lemma LifecycleRequest(pending: set<string>, cleaning: set<string>, cleaned: set<string>, timers: seq<Timer<TimerAction>>, now: nat, id: string)
    requires Lifecycle(pending, cleaning, cleaned, timers, now)
    requires id !in cleaning && id !in cleaned
    ensures Lifecycle(pending + {id}, cleaning + {id}, cleaned, timers, now)
  {
    forall i | 0 <= i < |timers| ensures Fits(timers[i].action, pending + {id}, cleaning + {id}, cleaned) {
      assert Fits(timers[i].action, pending, cleaning, cleaned);
    }
  }

  lemma LifecycleSuccess(pending: set<string>, cleaning: set<string>, cleaned: set<string>, timers: seq<Timer<TimerAction>>, now: nat,
                         id: string, added: seq<Timer<TimerAction>>)
    requires Lifecycle(pending, cleaning, cleaned, timers, now)
    requires id in pending
    requires added == [Timer(now + 2000, EndCleaning(id))] || added == [Timer(now + 2000, EndCleaning(id)), Timer(now + 2500, RefreshParent)]
    ensures Lifecycle(pending - {id}, cleaning, cleaned + {id}, timers + added, now)
  {
    var p, d, ts := pending - {id}, cleaned + {id}, timers + added;
    forall i | 0 <= i < |ts| ensures ts[i].due >= now && Fits(ts[i].action, p, cleaning, d) {
      if i < |timers| {
        assert ts[i] == timers[i] && Fits(timers[i].action, pending, cleaning, cleaned);
      }
    }
    forall i, j | 0 <= i < j < |ts| && ts[i].action == ts[j].action ensures ts[i].action == RefreshParent {
      if j >= |timers| && i < |timers| {
        assert ts[i] == timers[i] && Fits(timers[i].action, pending, cleaning, cleaned);
      }
    }
    forall x | x in cleaning && x !in p ensures x in d && Scheduled(ts, EndCleaning(x)) {
      if x == id {
        assert ts[|timers|].action == EndCleaning(id);
      } else {
        var i :| 0 <= i < |timers| && timers[i].action == EndCleaning(x);
        assert ts[i] == timers[i];
      }
    }
    forall x | x in d && x !in cleaning ensures Scheduled(ts, EndSuppression(x)) {
      var i :| 0 <= i < |timers| && timers[i].action == EndSuppression(x);
      assert ts[i] == timers[i];
    }
  }

  lemma LifecycleFailure(pending: set<string>, cleaning: set<string>, cleaned: set<string>, timers: seq<Timer<TimerAction>>, now: nat, id: string)
    requires Lifecycle(pending, cleaning, cleaned, timers, now)
    requires id in pending
    ensures Lifecycle(pending - {id}, cleaning - {id}, cleaned, timers, now)
  {
    forall i | 0 <= i < |timers| ensures Fits(timers[i].action, pending - {id}, cleaning - {id}, cleaned) {
      assert Fits(timers[i].action, pending, cleaning, cleaned);
    }
  }

  lemma LifecycleIdle(pending: set<string>, cleaning: set<string>, cleaned: set<string>, timers: seq<Timer<TimerAction>>, now: nat, t: nat)
    requires Lifecycle(pending, cleaning, cleaned, timers, now)
    requires now <= t && Earliest(timers, t).None?
    ensures Lifecycle(pending, cleaning, cleaned, timers, t)
  {
  }

  lemma LifecycleEndCleaning(pending: set<string>, cleaning: set<string>, cleaned: set<string>, timers: seq<Timer<TimerAction>>, now: nat,
                             t: nat, k: nat, id: string)
    requires Lifecycle(pending, cleaning, cleaned, timers, now)
    requires Earliest(timers, t) == Some(k) && timers[k].action == EndCleaning(id)
    ensures Lifecycle(pending, cleaning - {id}, cleaned,
                      Without(timers, k) + [Timer(timers[k].due + 10000, EndSuppression(id))], timers[k].due)
  {
    EndCleaningTimers(pending, cleaning, cleaned, timers, now, t, k, id);
    EndCleaningScheduled(pending, cleaning, cleaned, timers, now, k, id);
  }

  /** After `EndCleaning`, every timer is still due no earlier than the clock and fits its id's
      phase, and no action is scheduled twice. */
  lemma EndCleaningTimers(pending: set<string>, cleaning: set<string>, cleaned: set<string>, timers: seq<Timer<TimerAction>>, now: nat,
                          t: nat, k: nat, id: string)
    requires Lifecycle(pending, cleaning, cleaned, timers, now)
    requires Earliest(timers, t) == Some(k) && timers[k].action == EndCleaning(id)
    ensures var ts := Without(timers, k) + [Timer(timers[k].due + 10000, EndSuppression(id))];
            && (forall i :: 0 <= i < |ts| ==> ts[i].due >= timers[k].due && Fits(ts[i].action, pending, cleaning - {id}, cleaned))
            && (forall i, j :: 0 <= i < j < |ts| && ts[i].action == ts[j].action ==> ts[i].action == RefreshParent)
  {
    var c, rest := cleaning - {id}, Without(timers, k);
    var ts := rest + [Timer(timers[k].due + 10000, EndSuppression(id))];
    assert Fits(timers[k].action, pending, cleaning, cleaned);
    forall i | 0 <= i < |ts| ensures ts[i].due >= timers[k].due && Fits(ts[i].action, pending, c, cleaned) {
      if i < |rest| {
        var o := if i < k then i else i + 1;
        assert ts[i] == timers[o] && Fits(timers[o].action, pending, cleaning, cleaned);
        assert timers[o].action != timers[k].action;
      }
    }
    forall i, j | 0 <= i < j < |ts| && ts[i].action == ts[j].action ensures ts[i].action == RefreshParent {
      var oi := if i < k then i else i + 1;
      assert ts[i] == timers[oi];
      if j < |rest| {
        var oj := if j < k then j else j + 1;
        assert ts[j] == timers[oj];
      } else {
        assert false;
      }
    }
  }

  /** After `EndCleaning`, every id in either phase still has its timer scheduled. */
  lemma EndCleaningScheduled(pending: set<string>, cleaning: set<string>, cleaned: set<string>, timers: seq<Timer<TimerAction>>, now: nat,
                             k: nat, id: string)
    requires Lifecycle(pending, cleaning, cleaned, timers, now)
    requires k < |timers| && timers[k].action == EndCleaning(id)
    ensures var ts := Without(timers, k) + [Timer(timers[k].due + 10000, EndSuppression(id))];
            && (forall x :: x in cleaning - {id} && x !in pending ==> x in cleaned && Scheduled(ts, EndCleaning(x)))
            && (forall x :: x in cleaned && x !in cleaning - {id} ==> Scheduled(ts, EndSuppression(x)))
  {
    var c, rest := cleaning - {id}, Without(timers, k);
    var ts := rest + [Timer(timers[k].due + 10000, EndSuppression(id))];
    forall x | x in c && x !in pending ensures x in cleaned && Scheduled(ts, EndCleaning(x)) {
      WithoutKeeps(timers, k, EndCleaning(x));
      var i :| 0 <= i < |rest| && rest[i].action == EndCleaning(x);
      assert ts[i] == rest[i];
    }
    forall x | x in cleaned && x !in c ensures Scheduled(ts, EndSuppression(x)) {
      if x == id {
        assert ts[|rest|].action == EndSuppression(id);
      } else {
        WithoutKeeps(timers, k, EndSuppression(x));
        var i :| 0 <= i < |rest| && rest[i].action == EndSuppression(x);
        assert ts[i] == rest[i];
      }
    }
  }

  lemma LifecycleEndSuppression(pending: set<string>, cleaning: set<string>, cleaned: set<string>, timers: seq<Timer<TimerAction>>, now: nat,
                                t: nat, k: nat, id: string)
    requires Lifecycle(pending, cleaning, cleaned, timers, now)
    requires Earliest(timers, t) == Some(k) && timers[k].action == EndSuppression(id)
    ensures Lifecycle(pending, cleaning, cleaned - {id}, Without(timers, k), timers[k].due)
  {
    EndSuppressionTimers(pending, cleaning, cleaned, timers, now, t, k, id);
    var d, ts := cleaned - {id}, Without(timers, k);
    forall x | x in cleaning && x !in pending ensures x in d && Scheduled(ts, EndCleaning(x)) {
      WithoutKeeps(timers, k, EndCleaning(x));
    }
    forall x | x in d && x !in cleaning ensures Scheduled(ts, EndSuppression(x)) {
      WithoutKeeps(timers, k, EndSuppression(x));
    }
  }

  /** After `EndSuppression`, every timer is still due no earlier than the clock and fits its
      id's phase, and no action is scheduled twice. */
  lemma EndSuppressionTimers(pending: set<string>, cleaning: set<string>, cleaned: set<string>, timers: seq<Timer<TimerAction>>, now: nat,
                             t: nat, k: nat, id: string)
    requires Lifecycle(pending, cleaning, cleaned, timers, now)
    requires Earliest(timers, t) == Some(k) && timers[k].action == EndSuppression(id)
    ensures var ts := Without(timers, k);
            && (forall i :: 0 <= i < |ts| ==> ts[i].due >= timers[k].due && Fits(ts[i].action, pending, cleaning, cleaned - {id}))
            && (forall i, j :: 0 <= i < j < |ts| && ts[i].action == ts[j].action ==> ts[i].action == RefreshParent)
  {
    var d, ts := cleaned - {id}, Without(timers, k);
    assert Fits(timers[k].action, pending, cleaning, cleaned);
    forall i | 0 <= i < |ts| ensures ts[i].due >= timers[k].due && Fits(ts[i].action, pending, cleaning, d) {
      var o := if i < k then i else i + 1;
      assert ts[i] == timers[o] && Fits(timers[o].action, pending, cleaning, cleaned);
      assert timers[o].action != timers[k].action;
    }
    forall i, j | 0 <= i < j < |ts| && ts[i].action == ts[j].action ensures ts[i].action == RefreshParent {
      var oi, oj := if i < k then i else i + 1, if j < k then j else j + 1;
      assert ts[i] == timers[oi] && ts[j] == timers[oj];
    }
  }

  lemma LifecycleRefresh(pending: set<string>, cleaning: set<string>, cleaned: set<string>, timers: seq<Timer<TimerAction>>, now: nat,
                         t: nat, k: nat)
    requires Lifecycle(pending, cleaning, cleaned, timers, now)
    requires Earliest(timers, t) == Some(k) && timers[k].action == RefreshParent
    ensures Lifecycle(pending, cleaning, cleaned, Without(timers, k), timers[k].due)
  {
    var ts := Without(timers, k);
    forall i | 0 <= i < |ts| ensures ts[i].due >= timers[k].due && Fits(ts[i].action, pending, cleaning, cleaned) {
      var o := if i < k then i else i + 1;
      assert ts[i] == timers[o];
    }
    forall i, j | 0 <= i < j < |ts| && ts[i].action == ts[j].action ensures ts[i].action == RefreshParent {
      var oi, oj := if i < k then i else i + 1, if j < k then j else j + 1;
      assert ts[i] == timers[oi] && ts[j] == timers[oj];
    }
    forall x | x in cleaning && x !in pending ensures Scheduled(ts, EndCleaning(x)) {
      WithoutKeeps(timers, k, EndCleaning(x));
    }
    forall x | x in cleaned && x !in cleaning ensures Scheduled(ts, EndSuppression(x)) {
      WithoutKeeps(timers, k, EndSuppression(x));
    }
  }

  // ---------------------------------------------------------------------------------------
  // The component

  class PanelGridState {
    var localPanels: seq<UiPanel>
    var cleaningPanels: set<string>
    var cleanedPanels: set<string>
    /** The latest `wsData` prop the component has rendered with. */
    var wsData: Option<Frame>
    /** Ids whose `cleanPanel` request has not settled yet. */
    var pending: set<string>
    var timers: seq<Timer<TimerAction>>
    var now: nat
    /** How many times `onPanelCleaned` has been called. */
    var refreshes: nat
    /** Whether the parent passed `onPanelCleaned`. */
    const hasCallback: bool

    ghost predicate Valid()
      reads this
    {
      StateValid(State())
    }

    /** Mounting: the list starts as the `panels` prop, and the stream effect runs once with the
        initial `wsData`. */
    constructor (panels: seq<UiPanel>, initialData: Option<Frame>, callback: bool)
      ensures Valid()
      ensures localPanels == Remerge(panels, initialData, {}) && wsData == initialData
      ensures cleaningPanels == {} && cleanedPanels == {} && pending == {}
      ensures timers == [] && now == 0 && refreshes == 0 && hasCallback == callback
    {
      localPanels := Remerge(panels, initialData, {});
      cleaningPanels, cleanedPanels, pending := {}, {}, {};
      wsData := initialData;
      timers, now, refreshes := [], 0, 0;
      hasCallback := callback;
      LifecycleInitial();
    }

    /** A new `panels` prop: the list is replaced wholesale, suppressed panels included. */
    method OnPropsPanels(panels: seq<UiPanel>)
      requires Valid()
      modifies this
      ensures Valid()
      ensures localPanels == panels
      ensures cleaningPanels == old(cleaningPanels) && cleanedPanels == old(cleanedPanels) && wsData == old(wsData)
      ensures pending == old(pending) && timers == old(timers) && now == old(now) && refreshes == old(refreshes)
    {
      localPanels := panels;
    }

    /** A new `wsData` prop (a parsed stream frame). */
    method OnFrame(frame: Frame)
      requires Valid()
      modifies this
      ensures Valid()
      ensures wsData == Some(frame)
      ensures localPanels == Remerge(old(localPanels), Some(frame), cleanedPanels)
      ensures |localPanels| == |old(localPanels)|
      ensures forall i :: 0 <= i < |localPanels| ==>
                localPanels[i].panelId == old(localPanels)[i].panelId
                && (old(localPanels)[i].panelId in cleanedPanels ==> localPanels[i] == old(localPanels)[i])
      ensures cleaningPanels == old(cleaningPanels) && cleanedPanels == old(cleanedPanels)
      ensures pending == old(pending) && timers == old(timers) && now == old(now) && refreshes == old(refreshes)
    {
      if frame.samplePanels.Some? {
        FrameMerged(localPanels, frame.samplePanels.value, cleanedPanels);
      }
      localPanels := Remerge(localPanels, Some(frame), cleanedPanels);
      wsData := Some(frame);
    }

    /** A click on a panel's Clean button: the id starts cleaning and a request is sent. */
    method RequestClean(id: string)
      requires Valid()
      requires CleanOffered(localPanels, cleaningPanels, cleanedPanels, id)
      modifies this
      ensures Valid()
      ensures old(id !in pending)
      ensures cleaningPanels == old(cleaningPanels) + {id} && pending == old(pending) + {id}
      ensures localPanels == old(localPanels) && cleanedPanels == old(cleanedPanels) && wsData == old(wsData)
      ensures timers == old(timers) && now == old(now) && refreshes == old(refreshes)
    {
      var i :| 0 <= i < |localPanels| && localPanels[i].panelId == id && CleanButtonShown(localPanels[i], cleaningPanels, cleanedPanels);
      LifecycleRequest(pending, cleaningPanels, cleanedPanels, timers, now, id);
      cleaningPanels := cleaningPanels + {id};
      pending := pending + {id};
    }

    /** The request for `id` resolved with `result`: the projection, suppression, the 2000 ms
        timer and, with a callback, the 2500 ms refresh. Adding to `cleanedPanels` re-runs the
        stream effect with the latest frame. */
    method CleanSucceeded(id: string, result: CleanResult)
      requires Valid() && id in pending
      modifies this
      ensures Valid()
      ensures pending == old(pending) - {id} && cleanedPanels == old(cleanedPanels) + {id}
      ensures localPanels == Remerge(ApplyClean(old(localPanels), id, result), wsData, cleanedPanels)
      ensures forall i :: 0 <= i < |localPanels| && localPanels[i].panelId == id ==>
                localPanels[i] == CleanedPanel(old(localPanels)[i], result)
      ensures timers == old(timers) + [Timer(now + 2000, EndCleaning(id))]
                        + (if hasCallback then [Timer(now + 2500, RefreshParent)] else [])
      ensures cleaningPanels == old(cleaningPanels) && wsData == old(wsData) && now == old(now) && refreshes == old(refreshes)
    {
      var added := [Timer(now + 2000, EndCleaning(id))] + (if hasCallback then [Timer(now + 2500, RefreshParent)] else []);
      LifecycleSuccess(pending, cleaningPanels, cleanedPanels, timers, now, id, added);
      var projected := ApplyClean(localPanels, id, result);
      if wsData.Some? && wsData.value.samplePanels.Some? {
        FrameMerged(projected, wsData.value.samplePanels.value, cleanedPanels + {id});
      }
      pending := pending - {id};
      cleanedPanels := cleanedPanels + {id};
      localPanels := Remerge(projected, wsData, cleanedPanels);
      timers := timers + added;
    }

    /** The request for `id` failed: the id stops cleaning; the list and suppression are kept. */
    method CleanFailed(id: string)
      requires Valid() && id in pending
      modifies this
      ensures Valid()
      ensures pending == old(pending) - {id} && cleaningPanels == old(cleaningPanels) - {id}
      ensures localPanels == old(localPanels) && cleanedPanels == old(cleanedPanels) && wsData == old(wsData)
      ensures timers == old(timers) && now == old(now) && refreshes == old(refreshes)
    {
      LifecycleFailure(pending, cleaningPanels, cleanedPanels, timers, now, id);
      pending := pending - {id};
      cleaningPanels := cleaningPanels - {id};
    }

    /** The clock reaches `t`: the earliest timer due by then fires (see `TickState`). */
    method Tick(t: nat)
      requires Valid() && now <= t
      modifies this
      ensures Valid()
      ensures State() == TickState(old(State()), t)
    {
      ghost var before := State();
      TickLifecycle(before, t);
      var next := Earliest(timers, t);
      if next.None? {
        now := t;
        assert State() == before.(now := t);
        return;
      }
      var k := next.value;
      FireTimer(k);
    }

    /** Timer `k` fires (see `Fire`). */
    method FireTimer(k: nat)
      requires k < |timers|
      modifies this
      ensures State() == Fire(old(State()), k)
    {
      ghost var before := State();
      var fired := timers[k];
      var rest := Without(timers, k);
      match fired.action
      case EndCleaning(id) =>
        cleaningPanels := cleaningPanels - {id};
        timers := rest + [Timer(fired.due + 10000, EndSuppression(id))];
        now := fired.due;
        assert State() == before.(cleaningPanels := cleaningPanels, timers := timers, now := now);
      case EndSuppression(id) =>
        cleanedPanels := cleanedPanels - {id};
        localPanels := Remerge(localPanels, wsData, cleanedPanels);
        timers := rest;
        now := fired.due;
        assert State() == before.(cleanedPanels := cleanedPanels, localPanels := localPanels, timers := timers, now := now);
      case RefreshParent =>
        refreshes := refreshes + 1;
        timers := rest;
        now := fired.due;
        assert State() == before.(refreshes := refreshes, timers := timers, now := now);
    }

    function State(): GridState
      reads this
    {
      GridState(localPanels, cleaningPanels, cleanedPanels, wsData, pending, timers, now, refreshes)
    }
  }

  /** The component's state as a value. */
  datatype GridState = GridState(
    localPanels: seq<UiPanel>,
    cleaningPanels: set<string>,
    cleanedPanels: set<string>,
    wsData: Option<Frame>,
    pending: set<string>,
    timers: seq<Timer<TimerAction>>,
    now: nat,
    refreshes: nat)

  ghost predicate StateValid(s: GridState)
  {
    Lifecycle(s.pending, s.cleaningPanels, s.cleanedPanels, s.timers, s.now)
  }

  /** One turn of the event loop at time `t`. With no timer due the clock moves to `t`.
      Otherwise the earliest due timer (first scheduled among equals) is removed, the clock
      stands at its due time, and: `EndCleaning` ends the cleaning phase and schedules the end
      of suppression 10000 ms later; `EndSuppression` lifts suppression and the stream effect
      re-runs with the latest frame; `RefreshParent` calls `onPanelCleaned`. */
  function TickState(s: GridState, t: nat): (r: GridState)
    requires s.now <= t
    ensures r.pending == s.pending && r.wsData == s.wsData
    ensures r.now <= t
    ensures Earliest(s.timers, t).None? ==> r == s.(now := t)
    ensures Earliest(s.timers, t).Some? ==> r == Fire(s, Earliest(s.timers, t).value)
    ensures r.refreshes <= s.refreshes + 1
  {
    match Earliest(s.timers, t)
    case None => s.(now := t)
    case Some(k) => Fire(s, k)
  }

  /** Timer `k` fires: it leaves the table, the clock stands at its due time, and its action
      takes effect; nothing else changes. */
  function Fire(s: GridState, k: nat): (r: GridState)
    requires k < |s.timers|
    ensures r.now == s.timers[k].due && r.pending == s.pending && r.wsData == s.wsData
    ensures s.timers[k].action.EndCleaning? ==>
              var id := s.timers[k].action.id;
              && r.cleaningPanels == s.cleaningPanels - {id} && id !in r.cleaningPanels
              && r.timers == Without(s.timers, k) + [Timer(s.timers[k].due + 10000, EndSuppression(id))]
              && r.cleanedPanels == s.cleanedPanels && r.localPanels == s.localPanels && r.refreshes == s.refreshes
    ensures s.timers[k].action.EndSuppression? ==>
              var id := s.timers[k].action.id;
              && r.cleanedPanels == s.cleanedPanels - {id} && id !in r.cleanedPanels
              && r.localPanels == Remerge(s.localPanels, s.wsData, r.cleanedPanels)
              && r.timers == Without(s.timers, k)
              && r.cleaningPanels == s.cleaningPanels && r.refreshes == s.refreshes
    ensures s.timers[k].action.RefreshParent? ==>
              && r.refreshes == s.refreshes + 1 && r.timers == Without(s.timers, k)
              && r.cleaningPanels == s.cleaningPanels && r.cleanedPanels == s.cleanedPanels
              && r.localPanels == s.localPanels
  {
    var fired := s.timers[k];
    var rest := Without(s.timers, k);
    match fired.action
    case EndCleaning(id) =>
      s.(cleaningPanels := s.cleaningPanels - {id}, timers := rest + [Timer(fired.due + 10000, EndSuppression(id))],
         now := fired.due)
    case EndSuppression(id) =>
      s.(cleanedPanels := s.cleanedPanels - {id},
         localPanels := Remerge(s.localPanels, s.wsData, s.cleanedPanels - {id}),
         timers := rest, now := fired.due)
    case RefreshParent =>
      s.(refreshes := s.refreshes + 1, timers := rest, now := fired.due)
  }

  /** Every turn of the event loop keeps the life cycle invariant. */
  lemma TickLifecycle(s: GridState, t: nat)
    requires StateValid(s) && s.now <= t
    ensures StateValid(TickState(s, t))
  {
    var next := Earliest(s.timers, t);
    if next.None? {
      LifecycleIdle(s.pending, s.cleaningPanels, s.cleanedPanels, s.timers, s.now, t);
    } else {
      FireLifecycle(s, t, next.value);
    }
  }

  lemma FireLifecycle(s: GridState, t: nat, k: nat)
    requires StateValid(s) && Earliest(s.timers, t) == Some(k)
    ensures StateValid(Fire(s, k))
  {
    match s.timers[k].action
    case EndCleaning(id) => FireEndCleaning(s, t, k, id);
    case EndSuppression(id) => FireEndSuppression(s, t, k, id);
    case RefreshParent => FireRefresh(s, t, k);
  }

  lemma FireEndCleaning(s: GridState, t: nat, k: nat, id: string)
    requires StateValid(s) && Earliest(s.timers, t) == Some(k) && s.timers[k].action == EndCleaning(id)
    ensures StateValid(Fire(s, k))
  {
    var r := Fire(s, k);
    EndCleaningValid(s, r, t, k, id);
  }

  /** Any state with the fields `EndCleaning` produces keeps the life cycle invariant. */
  lemma EndCleaningValid(s: GridState, r: GridState, t: nat, k: nat, id: string)
    requires StateValid(s) && Earliest(s.timers, t) == Some(k) && s.timers[k].action == EndCleaning(id)
    requires r.pending == s.pending && r.cleaningPanels == s.cleaningPanels - {id} && r.cleanedPanels == s.cleanedPanels
    requires r.timers == Without(s.timers, k) + [Timer(s.timers[k].due + 10000, EndSuppression(id))]
    requires r.now == s.timers[k].due
    ensures StateValid(r)
  {
    LifecycleEndCleaning(s.pending, s.cleaningPanels, s.cleanedPanels, s.timers, s.now, t, k, id);
  }

  lemma FireEndSuppression(s: GridState, t: nat, k: nat, id: string)
    requires StateValid(s) && Earliest(s.timers, t) == Some(k) && s.timers[k].action == EndSuppression(id)
    ensures StateValid(Fire(s, k))
  {
    var r := Fire(s, k);
    EndSuppressionValid(s, r, t, k, id);
  }

  /** Any state with the fields `EndSuppression` produces keeps the life cycle invariant. */
  lemma EndSuppressionValid(s: GridState, r: GridState, t: nat, k: nat, id: string)
    requires StateValid(s) && Earliest(s.timers, t) == Some(k) && s.timers[k].action == EndSuppression(id)
    requires r.pending == s.pending && r.cleaningPanels == s.cleaningPanels && r.cleanedPanels == s.cleanedPanels - {id}
    requires r.timers == Without(s.timers, k) && r.now == s.timers[k].due
    ensures StateValid(r)
  {
    LifecycleEndSuppression(s.pending, s.cleaningPanels, s.cleanedPanels, s.timers, s.now, t, k, id);
  }

  lemma FireRefresh(s: GridState, t: nat, k: nat)
    requires StateValid(s) && Earliest(s.timers, t) == Some(k) && s.timers[k].action == RefreshParent
    ensures StateValid(Fire(s, k))
  {
    var r := Fire(s, k);
    RefreshValid(s, r, t, k);
  }

  /** Any state with the fields `RefreshParent` produces keeps the life cycle invariant. */
  lemma RefreshValid(s: GridState, r: GridState, t: nat, k: nat)
    requires StateValid(s) && Earliest(s.timers, t) == Some(k) && s.timers[k].action == RefreshParent
    requires r.pending == s.pending && r.cleaningPanels == s.cleaningPanels && r.cleanedPanels == s.cleanedPanels
    requires r.timers == Without(s.timers, k) && r.now == s.timers[k].due
    ensures StateValid(r)
  {
    LifecycleRefresh(s.pending, s.cleaningPanels, s.cleanedPanels, s.timers, s.now, t, k);
  }

  /** A suppressed panel stays suppressed, and its tile keeps its values, until its own
      `EndSuppression` timer fires. */
  lemma SuppressionHolds(s: GridState, t: nat, id: string)
    requires s.now <= t && id in s.cleanedPanels
    requires Earliest(s.timers, t).None? || s.timers[Earliest(s.timers, t).value].action != EndSuppression(id)
    ensures id in TickState(s, t).cleanedPanels
    ensures |TickState(s, t).localPanels| == |s.localPanels|
    ensures forall i :: 0 <= i < |s.localPanels| && s.localPanels[i].panelId == id ==>
              TickState(s, t).localPanels[i] == s.localPanels[i]
  {
    var next := Earliest(s.timers, t);
    if next.Some? && s.timers[next.value].action.EndSuppression? && s.wsData.Some? && s.wsData.value.samplePanels.Some? {
      FrameMerged(s.localPanels, s.wsData.value.samplePanels.value, s.cleanedPanels - {s.timers[next.value].action.id});
    }
  }

  /** A panel's whole clean, with the timings of the code: the request at time 0 settles with an
      empty dust level and a zero efficiency, so the tile shows 100 and 95; a frame reporting the
      panel at 83 % and dust 335 is ignored while it is suppressed; the cleaning phase ends at
      2000 ms, the parent is refreshed at 2500 ms, and at 12000 ms suppression ends and the
      tile takes the frame's values again, flag included. */
  method CleanTimeline() returns (projected: UiPanel, duringFrame: UiPanel, afterSuppression: UiPanel, refreshes: nat)
    ensures projected == UiPanel("PNL-0001", 95.0, 100.0, VoltageAt(95.0), false, Some("A1"))
    ensures duringFrame == projected
    ensures afterSuppression == UiPanel("PNL-0001", 83.0, 335.0, VoltageAt(83.0), true, Some("A1"))
    ensures refreshes == 1
  {
    var id := "PNL-0001";
    var dusty := UiPanel(id, 82.0, 340.0, VoltageAt(82.0), true, Some("A1"));
    var grid := new PanelGridState([dusty], None, true);
    assert grid.localPanels == [dusty];
    assert CleanButtonShown(grid.localPanels[0], grid.cleaningPanels, grid.cleanedPanels);
    grid.RequestClean(id);
    grid.CleanSucceeded(id, CleanResult(None, Some(0.0)));
    assert grid.localPanels == ApplyClean([dusty], id, CleanResult(None, Some(0.0)));
    projected := grid.localPanels[0];
    assert grid.timers == [Timer(2000, EndCleaning(id)), Timer(2500, RefreshParent)];

    var sample := SamplePanel(id, "A1", VoltageAt(83.0), 5.0, 83.0, 335.0, 32.0, 100.0);
    var frame := Frame("t1", None, None, Some([sample]), None, None, None);
    grid.OnFrame(frame);
    duringFrame := grid.localPanels[0];
    assert grid.localPanels == [projected];
    assert FindSample([sample], id) == Some(0);

    RunTimers(grid, projected, sample);
    afterSuppression := grid.localPanels[0];
    refreshes := grid.refreshes;
  }

  /** The timers of the clean in `CleanTimeline`, fired in order. */
  method RunTimers(grid: PanelGridState, projected: UiPanel, sample: SamplePanel)
    requires grid.Valid() && grid.now == 0 && grid.refreshes == 0 && grid.pending == {}
    requires projected.panelId == "PNL-0001" && sample.id == "PNL-0001"
    requires grid.localPanels == [projected] && grid.wsData == Some(Frame("t1", None, None, Some([sample]), None, None, None))
    requires grid.cleaningPanels == {"PNL-0001"} && grid.cleanedPanels == {"PNL-0001"}
    requires grid.timers == [Timer(2000, EndCleaning("PNL-0001")), Timer(2500, RefreshParent)]
    modifies grid
    ensures grid.localPanels == [MergePanel(projected, [sample], {})] && grid.refreshes == 1
    ensures grid.cleaningPanels == {} && grid.cleanedPanels == {} && grid.timers == [] && grid.now == 12000
  {
    var id := "PNL-0001";
    ghost var s1 := grid.State();
    assert MinDue(s1.timers) == 0 && Earliest(s1.timers, 2000) == Some(0);
    assert Without(s1.timers, 0) == [Timer(2500, RefreshParent)];
    grid.Tick(2000);
    assert grid.timers == [Timer(2500, RefreshParent), Timer(12000, EndSuppression(id))];
    RunRefreshAndSuppression(grid, projected, sample);
  }

  /** The last two timers of `RunTimers`: the parent refresh at 2500 ms and the end of
      suppression at 12000 ms. */
  method RunRefreshAndSuppression(grid: PanelGridState, projected: UiPanel, sample: SamplePanel)
    requires grid.Valid() && grid.now == 2000 && grid.refreshes == 0 && grid.pending == {}
    requires projected.panelId == "PNL-0001" && sample.id == "PNL-0001"
    requires grid.localPanels == [projected] && grid.wsData == Some(Frame("t1", None, None, Some([sample]), None, None, None))
    requires grid.cleaningPanels == {} && grid.cleanedPanels == {"PNL-0001"}
    requires grid.timers == [Timer(2500, RefreshParent), Timer(12000, EndSuppression("PNL-0001"))]
    modifies grid
    ensures grid.localPanels == [MergePanel(projected, [sample], {})] && grid.refreshes == 1
    ensures grid.cleaningPanels == {} && grid.cleanedPanels == {} && grid.timers == [] && grid.now == 12000
  {
    var id := "PNL-0001";
    ghost var s2 := grid.State();
    assert MinDue(s2.timers) == 0 && Earliest(s2.timers, 2500) == Some(0);
    assert Without(s2.timers, 0) == [Timer(12000, EndSuppression(id))];
    grid.Tick(2500);
    assert grid.timers == [Timer(12000, EndSuppression(id))] && grid.refreshes == 1;

    ghost var s3 := grid.State();
    assert MinDue(s3.timers) == 0 && Earliest(s3.timers, 12000) == Some(0);
    assert Without(s3.timers, 0) == [];
    grid.Tick(12000);
    assert grid.cleanedPanels == {};
    assert grid.localPanels == MergeFrame([projected], [sample], {});
  }
}
