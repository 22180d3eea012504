/** The live chart of solar-panel-frontend/components/RealtimeChart.tsx: a window of the last 20
    points, one appended per render in which `wsData` or `selectedPanel` changed. With a panel
    selected the point is that panel's reading from the frame's `panels`; without one it is the
    farm's `system_status` with the mean dust of `panels`.

    The backend's frames carry `sample_panels`, never `panels` or `system_status`, so against
    the real backend the chart stays empty; the lemma `BackendFramesNotPlotted` states it. */
module RealtimeChart {
  import opened Wrappers
  import opened Telemetry

  const WindowSize: nat := 20

  datatype ChartPoint =
      /** A selected panel's reading; the dust is scaled down by 10. */
    | PanelPoint(time: string, efficiency: real, dustLevel: real, voltage: real, power: real)
      /** The farm's figures; the mean dust of an empty `panels` list is NaN (None). */
    | FarmPoint(time: string, efficiency: real, meanDust: Option<real>, totalPower: real)

  /** Reading `system_status.total_efficiency` of a frame without `system_status` throws. */
  datatype ChartError = MissingSystemStatus

  /** `[...prev, point].slice(-20)`. */
  function Window(prev: seq<ChartPoint>, point: ChartPoint): seq<ChartPoint>
  {
    var all := prev + [point];
    if |all| <= WindowSize then all else all[|all| - WindowSize..]
  }

  /** The window grows by one up to 20 points, the new point last, the earlier ones the most
      recent previous points in order. */
  lemma WindowSlides(prev: seq<ChartPoint>, point: ChartPoint)
    ensures var w := Window(prev, point);
            && |w| == (if |prev| < WindowSize then |prev| + 1 else WindowSize)
            && w[|w| - 1] == point
            && w[..|w| - 1] == prev[|prev| - (|w| - 1)..]
  {
  }

  /** The sum of the listed panels' dust levels (the `reduce`). */
  function SumDust(panels: seq<SamplePanel>): real
  {
    if panels == [] then 0.0 else SumDust(panels[..|panels| - 1]) + panels[|panels| - 1].dustLevel
  }

  /** The sum is additive over concatenation: the `reduce` does not depend on how the list is
      split. */
  lemma {:induction false} SumDustConcat(a: seq<SamplePanel>, b: seq<SamplePanel>)
    ensures SumDust(a + b) == SumDust(a) + SumDust(b)
  {
    if b != [] {
      var b0 := b[..|b| - 1];
      assert (a + b)[..|a + b| - 1] == a + b0;
      assert (a + b)[|a + b| - 1] == b[|b| - 1];
      SumDustConcat(a, b0);
    } else {
      assert a + b == a;
    }
  }

  /** The mean dust level; an empty list gives `0 / 0`, NaN. */
  function MeanDust(panels: seq<SamplePanel>): (m: Option<real>)
    ensures m.None? <==> panels == []
  {
    if panels == [] then None else Some(SumDust(panels) / |panels| as real)
  }

  lemma {:induction false} SumDustBounds(panels: seq<SamplePanel>, lo: real, hi: real)
    requires forall i :: 0 <= i < |panels| ==> lo <= panels[i].dustLevel <= hi
    ensures lo * (|panels| as real) <= SumDust(panels) <= hi * (|panels| as real)
  {
    if panels != [] {
      SumDustBounds(panels[..|panels| - 1], lo, hi);
      assert (|panels| as real) == (|panels| - 1) as real + 1.0;
    }
  }

  /** The mean of dust levels in [lo, hi] lies in [lo, hi]. */
  lemma MeanDustBounds(panels: seq<SamplePanel>, lo: real, hi: real)
    requires panels != []
    requires forall i :: 0 <= i < |panels| ==> lo <= panels[i].dustLevel <= hi
    ensures lo <= MeanDust(panels).value <= hi
  {
    SumDustBounds(panels, lo, hi);
    var n := |panels| as real;
    assert lo * n / n == lo && hi * n / n == hi;
  }

  /** `selectedPanel` is truthy: present and not the empty string. */
  predicate Selects(selected: Option<string>)
  {
    selected.Some? && selected.value != ""
  }

  /** An empty selection is falsy: it plots the farm's figures exactly as no selection does. */
  lemma EmptySelectionIsNone(chart: seq<ChartPoint>, wsData: Option<Frame>)
    ensures ChartStep(chart, wsData, Some("")) == ChartStep(chart, wsData, None)
  {
  }

  /** One run of the update effect. */
  function ChartStep(chart: seq<ChartPoint>, wsData: Option<Frame>, selected: Option<string>): (r: Result<seq<ChartPoint>, ChartError>)
    ensures r.Err? <==> wsData.Some? && wsData.value.panels.Some? && !Selects(selected) && wsData.value.systemStatus.None?
  {
    if wsData.None? || wsData.value.panels.None? then Ok(chart)
    else if Selects(selected) then Ok(PanelStep(chart, wsData.value, selected.value))
    else FarmStep(chart, wsData.value)
  }

  /** The selected panel's point, when the frame's `panels` lists it. */
  function PanelStep(chart: seq<ChartPoint>, frame: Frame, id: string): seq<ChartPoint>
    requires frame.panels.Some?
  {
    var panels := frame.panels.value;
    match FindSample(panels, id)
    case None => chart
    case Some(k) =>
      var p := panels[k];
      Window(chart, PanelPoint(frame.timestamp, p.efficiency, p.dustLevel / 10.0, p.voltage, p.powerOutput))
  }

  /** The farm's point; a frame without `system_status` throws. */
  function FarmStep(chart: seq<ChartPoint>, frame: Frame): Result<seq<ChartPoint>, ChartError>
    requires frame.panels.Some?
  {
    if frame.systemStatus.None? then Err(MissingSystemStatus)
    else
      var status := frame.systemStatus.value;
      var dust := match MeanDust(frame.panels.value) case None => None case Some(m) => Some(m / 10.0);
      Ok(Window(chart, FarmPoint(frame.timestamp, status.totalEfficiency, dust, status.totalPowerOutput / 10.0)))
  }

  /** A step either keeps the chart or slides the window by one point taken from this frame:
      at most 20 points, the new one last, the earlier ones the most recent previous points in
      order, whichever mode produced them. */
  lemma StepSlides(chart: seq<ChartPoint>, wsData: Option<Frame>, selected: Option<string>)
    requires |chart| <= WindowSize
    requires ChartStep(chart, wsData, selected).Ok?
    ensures var next := ChartStep(chart, wsData, selected).value;
            && |next| <= WindowSize
            && (next == chart || (next[..|next| - 1] == chart[|chart| - (|next| - 1)..]
                                  && next[|next| - 1].time == wsData.value.timestamp))
  {
    if wsData.Some? && wsData.value.panels.Some? {
      var frame := wsData.value;
      if Selects(selected) {
        match FindSample(frame.panels.value, selected.value)
        case None =>
        case Some(k) =>
          var p := frame.panels.value[k];
          WindowSlides(chart, PanelPoint(frame.timestamp, p.efficiency, p.dustLevel / 10.0, p.voltage, p.powerOutput));
      } else {
        var status := frame.systemStatus.value;
        var dust := match MeanDust(frame.panels.value) case None => None case Some(m) => Some(m / 10.0);
        WindowSlides(chart, FarmPoint(frame.timestamp, status.totalEfficiency, dust, status.totalPowerOutput / 10.0));
      }
    }
  }

  /** A frame without `panels`, the only kind the backend sends, never changes the chart. */
  lemma BackendFramesNotPlotted(chart: seq<ChartPoint>, frame: Frame, selected: Option<string>)
    requires frame.panels.None?
    ensures ChartStep(chart, Some(frame), selected) == Ok(chart)
  {
  }

  /** With a panel selected, a frame listing that panel adds a point with its first reading. */
  lemma SelectedPanelPlotted(chart: seq<ChartPoint>, frame: Frame, id: string, j: int)
    requires id != "" && frame.panels.Some? && FirstMatch(frame.panels.value, id, j)
    ensures var p := frame.panels.value[j];
            ChartStep(chart, Some(frame), Some(id))
              == Ok(Window(chart, PanelPoint(frame.timestamp, p.efficiency, p.dustLevel / 10.0, p.voltage, p.powerOutput)))
  {
    FindSampleFirst(frame.panels.value, id, j);
    SelectedPanelFound(chart, frame, id, j);
  }

  /** The step once the lookup has found the panel at `k`. */
  lemma SelectedPanelFound(chart: seq<ChartPoint>, frame: Frame, id: string, k: nat)
    requires id != "" && frame.panels.Some? && FindSample(frame.panels.value, id) == Some(k)
    ensures var p := frame.panels.value[k];
            ChartStep(chart, Some(frame), Some(id))
              == Ok(Window(chart, PanelPoint(frame.timestamp, p.efficiency, p.dustLevel / 10.0, p.voltage, p.powerOutput)))
  {
    assert Selects(Some(id));
  }

  /** With no panel selected, a frame with panels and `system_status` adds the farm's point:
      the reported total efficiency, the mean dust scaled down by 10 and the total power
      scaled down by 10. */
  lemma FarmPointPlotted(chart: seq<ChartPoint>, frame: Frame)
    requires frame.panels.Some? && frame.panels.value != [] && frame.systemStatus.Some?
    ensures var panels, status := frame.panels.value, frame.systemStatus.value;
            ChartStep(chart, Some(frame), None)
              == Ok(Window(chart, FarmPoint(frame.timestamp, status.totalEfficiency,
                                            Some(SumDust(panels) / |panels| as real / 10.0),
                                            status.totalPowerOutput / 10.0)))
  {
  }

  /** An empty `panels` list gives a NaN mean dust (None); the point is still added. */
  lemma FarmPointEmptyPanels(chart: seq<ChartPoint>, frame: Frame)
    requires frame.panels == Some([]) && frame.systemStatus.Some?
    ensures var status := frame.systemStatus.value;
            ChartStep(chart, Some(frame), None)
              == Ok(Window(chart, FarmPoint(frame.timestamp, status.totalEfficiency, None, status.totalPowerOutput / 10.0)))
  {
  }

  /** With a panel selected, a frame that does not list it leaves the chart as it was. */
  lemma SelectedPanelMissing(chart: seq<ChartPoint>, frame: Frame, id: string)
    requires id != "" && frame.panels.Some?
    requires forall j :: 0 <= j < |frame.panels.value| ==> frame.panels.value[j].id != id
    ensures ChartStep(chart, Some(frame), Some(id)) == Ok(chart)
  {
  }

  class ChartState {
    var chartData: seq<ChartPoint>
    /** The props of the last render. */
    var wsData: Option<Frame>
    var selected: Option<string>
    /** The effect threw; React tears the component down. */
    var crashed: bool

    ghost predicate Valid()
      reads this
    {
      |chartData| <= WindowSize
    }

    constructor (initialData: Option<Frame>, initialSelection: Option<string>)
      ensures Valid()
      ensures wsData == initialData && selected == initialSelection
      ensures ChartStep([], initialData, initialSelection).Ok? ==> !crashed && chartData == ChartStep([], initialData, initialSelection).value
      ensures ChartStep([], initialData, initialSelection).Err? ==> crashed && chartData == []
    {
      wsData, selected := initialData, initialSelection;
      match ChartStep([], initialData, initialSelection)
      case Ok(c) =>
        StepSlides([], initialData, initialSelection);
        chartData, crashed := c, false;
      case Err(_) =>
        chartData, crashed := [], true;
    }

    /** The effect re-runs because `wsData` or `selectedPanel` changed; the buffer is kept
        across a change of selection. */
    method Render(frame: Option<Frame>, selection: Option<string>)
      requires Valid() && !crashed
      requires frame != wsData || selection != selected
      modifies this
      ensures Valid()
      ensures wsData == frame && selected == selection
      ensures ChartStep(old(chartData), frame, selection).Ok? ==> !crashed && chartData == ChartStep(old(chartData), frame, selection).value
      ensures ChartStep(old(chartData), frame, selection).Err? ==> crashed && chartData == old(chartData)
    {
      wsData, selected := frame, selection;
      match ChartStep(chartData, frame, selection)
      case Ok(c) =>
        StepSlides(chartData, frame, selection);
        chartData := c;
      case Err(_) =>
        crashed := true;
    }
  }
}
