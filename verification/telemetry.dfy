/**
 * The telemetry widget: a side panel with one checkbox per telemetry trace,
 * and a plot with one line per enabled trace. The widget remembers a
 * configuration (enabled, colour) per trace id; a trace seen for the first
 * time gets the next automatic colour. The telemetry store and the user's
 * clicks are parameters of show; the automatic colour of index i (egui's
 * golden-ratio hue) is the parameter autoColor.
 */
module Telemetry {
  import opened Egui

  /** egui's Color32::GOLD. */
  const Gold: Color32 := Color32(255, 215, 0, 255)

  datatype TraceConfig = TraceConfig(enabled: bool, color: Color32)

  /** TraceConfig::default(): enabled, drawn in gold. */
  const DefaultTraceConfig: TraceConfig := TraceConfig(true, Gold)

  /** A trace as the telemetry store lists it: the id keys its configuration, the name its samples. */
  datatype TraceInfo = TraceInfo(id: string, name: string)

  /**
   * What the widget reads from the telemetry store: the samples of the f32
   * traces and of the f64 traces by name (one optional sample per frame
   * kept), how many frames the store keeps and how many have been recorded.
   */
  datatype Store = Store(f32Traces: map<string, seq<Option<real>>>, f64Traces: map<string, seq<Option<real>>>,
                         maximumLength: nat, frames: nat)

  /** A plotted line: its points (x, y) in order, and its colour. */
  datatype Line = Line(points: seq<(real, real)>, color: Color32)

  /** The samples of a trace of one type; none when the store has no trace of that type under the name. */
  function Samples(traces: map<string, seq<Option<real>>>, name: string): seq<Option<real>>
  {
    if name in traces then traces[name] else []
  }

  // ---------------------------------------------------------------------------
  // Plot data

  /** ys_from_trace: the f32 samples if there are any, else the f64 samples if there are any, else none. */
  function YsFromTrace(store: Store, name: string): (ys: seq<Option<real>>)
    ensures Samples(store.f32Traces, name) != [] ==> ys == Samples(store.f32Traces, name)
    ensures Samples(store.f32Traces, name) == [] ==> ys == Samples(store.f64Traces, name)
    ensures ys == [] <==> Samples(store.f32Traces, name) == [] && Samples(store.f64Traces, name) == []
  {
    var ys32 := Samples(store.f32Traces, name);
    if ys32 != [] then ys32
    else
      var ys64 := Samples(store.f64Traces, name);
      if ys64 != [] then ys64
      else []
  }

  /** The frames the store has already dropped: the x of its oldest kept sample. */
  function XOffset(maximumLength: nat, frames: nat): (r: real)
    ensures r >= 0.0 && r >= frames as real - maximumLength as real
    ensures r == 0.0 || r == frames as real - maximumLength as real
  {
    if frames > maximumLength then (frames - maximumLength) as real else 0.0
  }

  /** The x at which sample i of a trace is plotted. */
  function FrameX(i: int, offset: real): real
  {
    i as real + offset
  }

  /** The points of a line: sample i, when present, is plotted at x = i + offset. */
  function PlotPoints(ys: seq<Option<real>>, offset: real): (points: seq<(real, real)>)
    ensures |points| <= |ys|
    ensures forall k: int :: 0 <= k < |points| ==> offset <= points[k].0 < offset + |ys| as real
    decreases |ys|
  {
    if ys == [] then []
    else
      var n := |ys| - 1;
      PlotPoints(ys[..n], offset) + (if ys[n].Some? then [(FrameX(n, offset), ys[n].value)] else [])
  }

  /** Every present sample is plotted, at its frame's x. */
  lemma {:induction false} PlotPointsComplete(ys: seq<Option<real>>, offset: real, i: nat)
    requires i < |ys| && ys[i].Some?
    ensures (FrameX(i, offset), ys[i].value) in PlotPoints(ys, offset)
    decreases |ys|
  {
    var n := |ys| - 1;
    if i < n {
      assert ys[..n][i] == ys[i];
      PlotPointsComplete(ys[..n], offset, i);
    }
  }

  /** Every plotted point is a present sample at its frame's x. */
  lemma {:induction false} PlotPointsSound(ys: seq<Option<real>>, offset: real, p: (real, real))
    requires p in PlotPoints(ys, offset)
    ensures exists i: int :: 0 <= i < |ys| && ys[i] == Some(p.1) && p.0 == FrameX(i, offset)
    decreases |ys|
  {
    var n := |ys| - 1;
    if p in PlotPoints(ys[..n], offset) {
      PlotPointsSound(ys[..n], offset, p);
      var i: int :| 0 <= i < n && ys[..n][i] == Some(p.1) && p.0 == FrameX(i, offset);
      assert ys[i] == ys[..n][i];
    } else {
      assert ys[n] == Some(p.1) && p.0 == FrameX(n, offset);
    }
  }

  /** The number of present samples. */
  function PresentCount(ys: seq<Option<real>>): nat
  {
    if ys == [] then 0 else PresentCount(ys[..|ys| - 1]) + (if ys[|ys| - 1].Some? then 1 else 0)
  }

  /** One point per present sample: missing samples are skipped, not plotted. */
  lemma {:induction false} PlotPointsCount(ys: seq<Option<real>>, offset: real)
    ensures |PlotPoints(ys, offset)| == PresentCount(ys)
    decreases |ys|
  {
    if ys != [] {
      PlotPointsCount(ys[..|ys| - 1], offset);
    }
  }

  /** Points that go strictly left to right. */
  predicate Increasing(points: seq<(real, real)>)
  {
    forall a: int, b: int :: 0 <= a < b < |points| ==> points[a].0 < points[b].0
  }

  /** The points go strictly left to right. */
  lemma {:induction false} PlotPointsIncreasing(ys: seq<Option<real>>, offset: real)
    ensures Increasing(PlotPoints(ys, offset))
    decreases |ys|
  {
    if ys != [] {
      var n := |ys| - 1;
      PlotPointsIncreasing(ys[..n], offset);
      var prev := PlotPoints(ys[..n], offset);
      var points := PlotPoints(ys, offset);
      assert |ys[..n]| == n;
      forall a: int, b: int | 0 <= a < b < |points| ensures points[a].0 < points[b].0 {
        if b < |prev| {
          assert points[a] == prev[a] && points[b] == prev[b];
        } else {
          assert ys[n].Some? && points == prev + [(FrameX(n, offset), ys[n].value)];
          assert points[a] == prev[a];
        }
      }
    }
  }

  /** lines_from_trace_info: the points of a trace's samples, shifted by the frames the store has dropped. */
  function TracePoints(ti: TraceInfo, store: Store): (points: seq<(real, real)>)
    ensures Increasing(points)
    ensures |points| == PresentCount(YsFromTrace(store, ti.name))
    ensures forall k :: 0 <= k < |points| ==> XOffset(store.maximumLength, store.frames) <= points[k].0
  {
    var ys := YsFromTrace(store, ti.name);
    var offset := XOffset(store.maximumLength, store.frames);
    PlotPointsIncreasing(ys, offset);
    PlotPointsCount(ys, offset);
    PlotPoints(ys, offset)
  }

  /**
   * The points of a trace: sample i (present) is at x = i plus the frames
   * dropped, so a full store's x continues where the dropped frames left off.
   */
  lemma TracePointsAt(ti: TraceInfo, store: Store, p: (real, real))
    ensures var ys := YsFromTrace(store, ti.name);
      p in TracePoints(ti, store) <==>
        exists i: int :: 0 <= i < |ys| && ys[i] == Some(p.1)
          && p.0 == FrameX(i, if store.frames > store.maximumLength then (store.frames - store.maximumLength) as real else 0.0)
  {
    var ys := YsFromTrace(store, ti.name);
    var offset := XOffset(store.maximumLength, store.frames);
    if p in TracePoints(ti, store) {
      PlotPointsSound(ys, offset, p);
    }
    if exists i: int :: 0 <= i < |ys| && ys[i] == Some(p.1) && p.0 == FrameX(i, offset) {
      var i: int :| 0 <= i < |ys| && ys[i] == Some(p.1) && p.0 == FrameX(i, offset);
      PlotPointsComplete(ys, offset, i);
    }
  }

  // ---------------------------------------------------------------------------
  // Trace configurations

  /** The ids of a list of traces. */
  function Ids(traces: seq<TraceInfo>): set<string>
    decreases |traces|
  {
    if traces == [] then {} else Ids(traces[..|traces| - 1]) + {traces[|traces| - 1].id}
  }

  /** An id is among the ids of a list exactly when some trace of the list has it. */
  lemma {:induction false} IdsMembership(traces: seq<TraceInfo>, id: string)
    ensures id in Ids(traces) <==> exists k :: 0 <= k < |traces| && traces[k].id == id
    decreases |traces|
  {
    if traces != [] {
      var n := |traces| - 1;
      IdsMembership(traces[..n], id);
      if exists k :: 0 <= k < n && traces[..n][k].id == id {
        var k :| 0 <= k < n && traces[..n][k].id == id;
        assert traces[k] == traces[..n][k];
      }
      if exists k :: 0 <= k < |traces| && traces[k].id == id {
        var k :| 0 <= k < |traces| && traces[k].id == id;
        if k < n {
          assert traces[..n][k] == traces[k];
        }
      }
    }
  }

  /** The position of the first trace with the given id. */
  function FirstIndex(traces: seq<TraceInfo>, id: string): (k: nat)
    requires id in Ids(traces)
    ensures k < |traces| && traces[k].id == id && forall j :: 0 <= j < k ==> traces[j].id != id
    decreases |traces|
  {
    var n := |traces| - 1;
    if id in Ids(traces[..n]) then
      var k := FirstIndex(traces[..n], id);
      assert forall j :: 0 <= j <= k ==> traces[..n][j] == traces[j];
      k
    else
      IdsMembership(traces[..n], id);
      assert forall j :: 0 <= j < n ==> traces[..n][j] == traces[j];
      n
  }

  /**
   * The side-panel loop over traces[..]: the i-th trace draws automatic
   * colour number first + i whether or not it needs one; a trace id without
   * a configuration gets one (enabled, that colour); a click on row i flips
   * its configuration's enabled flag.
   */
  function PanelConfigs(configs: map<string, TraceConfig>, traces: seq<TraceInfo>, clicked: set<nat>,
                        autoColor: nat -> Color32, first: nat): (r: map<string, TraceConfig>)
    ensures r.Keys == configs.Keys + Ids(traces)
    decreases |traces|
  {
    if traces == [] then configs
    else
      var n := |traces| - 1;
      var prev := PanelConfigs(configs, traces[..n], clicked, autoColor, first);
      var id := traces[n].id;
      var tc := if id in prev then prev[id] else TraceConfig(true, autoColor(first + n));
      prev[id := if n in clicked then tc.(enabled := !tc.enabled) else tc]
  }

  /** A trace that already had a configuration keeps its colour, whatever is clicked. */
  lemma {:induction false} PanelKeepsColors(configs: map<string, TraceConfig>, traces: seq<TraceInfo>, clicked: set<nat>,
                                            autoColor: nat -> Color32, first: nat, id: string)
    requires id in configs
    ensures PanelConfigs(configs, traces, clicked, autoColor, first)[id].color == configs[id].color
    decreases |traces|
  {
    if traces != [] {
      PanelKeepsColors(configs, traces[..|traces| - 1], clicked, autoColor, first, id);
    }
  }

  /**
   * A trace id first seen in this panel gets the automatic colour drawn at
   * its first row; later rows with the same id, and clicks, leave it.
   */
  lemma {:induction false} PanelNewColor(configs: map<string, TraceConfig>, traces: seq<TraceInfo>, clicked: set<nat>,
                                         autoColor: nat -> Color32, first: nat, id: string)
    requires id !in configs && id in Ids(traces)
    ensures PanelConfigs(configs, traces, clicked, autoColor, first)[id].color == autoColor(first + FirstIndex(traces, id))
    decreases |traces|
  {
    var n := |traces| - 1;
    var init := traces[..n];
    var prev := PanelConfigs(configs, init, clicked, autoColor, first);
    if id in Ids(init) {
      PanelNewColor(configs, init, clicked, autoColor, first, id);
      assert FirstIndex(traces, id) == FirstIndex(init, id);
    } else {
      assert id !in prev && FirstIndex(traces, id) == n;
    }
  }

  /** No row showing the given trace id was clicked. */
  predicate Unclicked(traces: seq<TraceInfo>, clicked: set<nat>, id: string)
  {
    forall k :: 0 <= k < |traces| && traces[k].id == id ==> k !in clicked
  }

  /** A configured trace id none of whose rows was clicked keeps its configuration. */
  lemma {:induction false} PanelUnclickedKept(configs: map<string, TraceConfig>, traces: seq<TraceInfo>, clicked: set<nat>,
                                              autoColor: nat -> Color32, first: nat, id: string)
    requires id in configs && Unclicked(traces, clicked, id)
    ensures PanelConfigs(configs, traces, clicked, autoColor, first)[id] == configs[id]
    decreases |traces|
  {
    if traces != [] {
      var n := |traces| - 1;
      var init := traces[..n];
      assert forall k :: 0 <= k < n ==> init[k] == traces[k];
      PanelUnclickedKept(configs, init, clicked, autoColor, first, id);
      assert traces[n].id == id ==> n !in clicked;
    }
  }

  /**
   * A trace id first seen in this panel, none of whose rows was clicked,
   * ends up enabled, with the automatic colour drawn at its first row.
   */
  lemma {:induction false} PanelUnclickedNew(configs: map<string, TraceConfig>, traces: seq<TraceInfo>, clicked: set<nat>,
                                             autoColor: nat -> Color32, first: nat, id: string)
    requires id !in configs && id in Ids(traces) && Unclicked(traces, clicked, id)
    ensures PanelConfigs(configs, traces, clicked, autoColor, first)[id] == TraceConfig(true, autoColor(first + FirstIndex(traces, id)))
    decreases |traces|
  {
    var n := |traces| - 1;
    var init := traces[..n];
    assert traces[n].id == id ==> n !in clicked;
    if id in Ids(init) {
      assert forall k :: 0 <= k < n ==> init[k] == traces[k];
      PanelUnclickedNew(configs, init, clicked, autoColor, first, id);
    }
  }

  /** How many of the rows showing the given trace id were clicked. */
  function ClickCount(traces: seq<TraceInfo>, clicked: set<nat>, id: string): nat
    decreases |traces|
  {
    if traces == [] then 0
    else
      var n := |traces| - 1;
      ClickCount(traces[..n], clicked, id) + (if traces[n].id == id && n in clicked then 1 else 0)
  }

  /** A trace id no row shows has no clicked row. */
  lemma {:induction false} ClickCountUnseen(traces: seq<TraceInfo>, clicked: set<nat>, id: string)
    requires id !in Ids(traces)
    ensures ClickCount(traces, clicked, id) == 0
    decreases |traces|
  {
    if traces != [] {
      ClickCountUnseen(traces[..|traces| - 1], clicked, id);
    }
  }

  /**
   * Every clicked row flips the enabled flag of its trace once: a configured
   * trace id ends up enabled exactly when it started enabled and an even
   * number of its rows were clicked, or started disabled and an odd number were.
   */
  lemma {:induction false} PanelClickedKept(configs: map<string, TraceConfig>, traces: seq<TraceInfo>, clicked: set<nat>,
                                            autoColor: nat -> Color32, first: nat, id: string)
    requires id in configs
    ensures PanelConfigs(configs, traces, clicked, autoColor, first)[id].enabled
            == (configs[id].enabled <==> ClickCount(traces, clicked, id) % 2 == 0)
    decreases |traces|
  {
    if traces != [] {
      PanelClickedKept(configs, traces[..|traces| - 1], clicked, autoColor, first, id);
    }
  }

  /**
   * A trace id first seen in this panel starts enabled, and every clicked row
   * showing it flips that once: it ends up enabled exactly when an even
   * number of its rows were clicked.
   */
  lemma {:induction false} PanelClickedNew(configs: map<string, TraceConfig>, traces: seq<TraceInfo>, clicked: set<nat>,
                                           autoColor: nat -> Color32, first: nat, id: string)
    requires id !in configs && id in Ids(traces)
    ensures PanelConfigs(configs, traces, clicked, autoColor, first)[id].enabled == (ClickCount(traces, clicked, id) % 2 == 0)
    decreases |traces|
  {
    var init := traces[..|traces| - 1];
    if id in Ids(init) {
      PanelClickedNew(configs, init, clicked, autoColor, first, id);
    } else {
      ClickCountUnseen(init, clicked, id);
    }
  }

  /** A configuration lookup with or_default: the stored one, or the default. */
  function ConfigOf(configs: map<string, TraceConfig>, id: string): TraceConfig
  {
    if id in configs then configs[id] else DefaultTraceConfig
  }

  /**
   * The configurations after the plot loop's entry(..).or_default() over
   * traces: every id is present, with its old configuration or the default;
   * when every id was present already, nothing changes.
   */
  function OrDefault(configs: map<string, TraceConfig>, traces: seq<TraceInfo>): (r: map<string, TraceConfig>)
    ensures r.Keys == configs.Keys + Ids(traces)
    ensures forall id :: id in r ==> r[id] == ConfigOf(configs, id)
    decreases |traces|
  {
    if traces == [] then configs
    else
      var n := |traces| - 1;
      var prev := OrDefault(configs, traces[..n]);
      var id := traces[n].id;
      if id in prev then prev else prev[id := DefaultTraceConfig]
  }

  /** Once every trace id has a configuration, the plot loop's or_default inserts nothing. */
  lemma OrDefaultInsertsNothing(configs: map<string, TraceConfig>, traces: seq<TraceInfo>)
    requires Ids(traces) <= configs.Keys
    ensures OrDefault(configs, traces) == configs
  {
    var r := OrDefault(configs, traces);
    assert r.Keys == configs.Keys;
    forall id | id in r ensures r[id] == configs[id] {
    }
  }

  /** The line the plot draws for a trace whose configuration is enabled: its points, in the configured colour. */
  predicate LineOf(configs: map<string, TraceConfig>, ti: TraceInfo, store: Store, line: Line)
  {
    ConfigOf(configs, ti.id).enabled && line == Line(TracePoints(ti, store), ConfigOf(configs, ti.id).color)
  }

  /** What the plot loop draws for one trace: its line if the configuration is enabled, nothing otherwise. */
  function TraceLine(configs: map<string, TraceConfig>, ti: TraceInfo, store: Store): (r: seq<Line>)
    ensures |r| == if ConfigOf(configs, ti.id).enabled then 1 else 0
    ensures forall line :: line in r <==> LineOf(configs, ti, store, line)
  {
    var tc := ConfigOf(configs, ti.id);
    if tc.enabled then [Line(TracePoints(ti, store), tc.color)] else []
  }

  /** The plot loop's lines: one per trace whose configuration (or the default) is enabled, in trace order. */
  function PlotLines(configs: map<string, TraceConfig>, traces: seq<TraceInfo>, store: Store): (lines: seq<Line>)
    ensures |lines| <= |traces|
    decreases |traces|
  {
    if traces == [] then []
    else
      var n := |traces| - 1;
      PlotLines(configs, traces[..n], store) + TraceLine(configs, traces[n], store)
  }

  /** A trace without a configuration is plotted, in gold, since the default is enabled. */
  lemma DefaultPlotsInGold(configs: map<string, TraceConfig>, ti: TraceInfo, store: Store)
    requires ti.id !in configs
    ensures TraceLine(configs, ti, store) == [Line(TracePoints(ti, store), Gold)]
  {
  }

  /** The positions, in increasing order, of the traces whose configuration (or the default) is enabled. */
  function EnabledIndices(configs: map<string, TraceConfig>, traces: seq<TraceInfo>): (ks: seq<nat>)
    ensures forall j :: 0 <= j < |ks| ==> ks[j] < |traces| && ConfigOf(configs, traces[ks[j]].id).enabled
    ensures forall i, j :: 0 <= i < j < |ks| ==> ks[i] < ks[j]
    ensures forall k :: 0 <= k < |traces| && ConfigOf(configs, traces[k].id).enabled ==> k in ks
    decreases |traces|
  {
    if traces == [] then []
    else
      var n := |traces| - 1;
      var prev := EnabledIndices(configs, traces[..n]);
      assert forall k :: 0 <= k < n ==> traces[..n][k] == traces[k];
      if ConfigOf(configs, traces[n].id).enabled then prev + [n] else prev
  }

  /** The plot holds exactly one line per enabled trace. */
  lemma {:induction false} PlotLinesCount(configs: map<string, TraceConfig>, traces: seq<TraceInfo>, store: Store)
    ensures |PlotLines(configs, traces, store)| == |EnabledIndices(configs, traces)|
    decreases |traces|
  {
    if traces != [] {
      PlotLinesCount(configs, traces[..|traces| - 1], store);
    }
  }

  /**
   * The lines come in trace order: line j is the line of the j-th enabled
   * trace, its points in its colour.
   */
  lemma {:induction false} PlotLinesAt(configs: map<string, TraceConfig>, traces: seq<TraceInfo>, store: Store, j: nat)
    requires j < |EnabledIndices(configs, traces)|
    ensures var k := EnabledIndices(configs, traces)[j];
      && j < |PlotLines(configs, traces, store)|
      && PlotLines(configs, traces, store)[j] == Line(TracePoints(traces[k], store), ConfigOf(configs, traces[k].id).color)
    decreases |traces|
  {
    var n := |traces| - 1;
    var init := traces[..n];
    var prevKs := EnabledIndices(configs, init);
    PlotLinesCount(configs, init, store);
    assert PlotLines(configs, traces, store) == PlotLines(configs, init, store) + TraceLine(configs, traces[n], store);
    if j < |prevKs| {
      PlotLinesAt(configs, init, store, j);
      assert EnabledIndices(configs, traces)[j] == prevKs[j];
      assert traces[prevKs[j]] == init[prevKs[j]];
    }
  }

  /** Every enabled trace's line is plotted. */
  lemma {:induction false} PlotLinesComplete(configs: map<string, TraceConfig>, traces: seq<TraceInfo>, store: Store, k: nat, line: Line)
    requires k < |traces| && LineOf(configs, traces[k], store, line)
    ensures line in PlotLines(configs, traces, store)
    decreases |traces|
  {
    var n := |traces| - 1;
    var init := traces[..n];
    assert PlotLines(configs, traces, store) == PlotLines(configs, init, store) + TraceLine(configs, traces[n], store);
    if k < n {
      assert init[k] == traces[k];
      PlotLinesComplete(configs, init, store, k, line);
    }
  }

  /** Every plotted line is the line of an enabled trace. */
  lemma {:induction false} PlotLinesSound(configs: map<string, TraceConfig>, traces: seq<TraceInfo>, store: Store, line: Line)
    requires line in PlotLines(configs, traces, store)
    ensures exists k :: 0 <= k < |traces| && LineOf(configs, traces[k], store, line)
    decreases |traces|
  {
    var n := |traces| - 1;
    var init := traces[..n];
    assert PlotLines(configs, traces, store) == PlotLines(configs, init, store) + TraceLine(configs, traces[n], store);
    if line in PlotLines(configs, init, store) {
      PlotLinesSound(configs, init, store, line);
      var k :| 0 <= k < n && LineOf(configs, init[k], store, line);
      assert traces[k] == init[k];
    } else {
      assert LineOf(configs, traces[n], store, line);
    }
  }

  class TelemetryWidget {
    /** How many times the widget has been shown. */
    var count: nat
    /** The widget's size; never set, so the style's interact size is used. */
    var size: Option<real>
    /** The configuration of every trace id seen so far. */
    var traceConfigs: map<string, TraceConfig>
    /** The number of the next automatic colour. */
    var nextAutoColorIdx: nat

    /** EguiTelemetryWidget::default(). */
    constructor ()
      ensures count == 0 && size == None && traceConfigs == map[] && nextAutoColorIdx == 0
    {
      count := 0;
      size := None;
      traceConfigs := map[];
      nextAutoColorIdx := 0;
    }

    /** Hands out automatic colour number nextAutoColorIdx and moves on to the next. */
    method NextAutoColor(autoColor: nat -> Color32) returns (color: Color32)
      modifies this`nextAutoColorIdx
      ensures color == autoColor(old(nextAutoColorIdx))
      ensures nextAutoColorIdx == old(nextAutoColorIdx) + 1
    {
      var i := nextAutoColorIdx;
      nextAutoColorIdx := nextAutoColorIdx + 1;
      color := autoColor(i);
    }

    /**
     * Shows the widget once: counts the showing; when its rectangle is
     * visible, runs the side panel over the traces (clicked holds the rows
     * whose checkbox was clicked), then plots every enabled trace. The plot
     * loop's or_default never inserts: the panel has configured every trace.
     */
    method Show(visible: bool, traces: seq<TraceInfo>, clicked: set<nat>, store: Store, autoColor: nat -> Color32)
      returns (lines: seq<Line>)
      modifies this`count, this`traceConfigs, this`nextAutoColorIdx
      ensures count == old(count) + 1
      ensures !visible ==> traceConfigs == old(traceConfigs) && nextAutoColorIdx == old(nextAutoColorIdx) && lines == []
      ensures visible ==>
        && nextAutoColorIdx == old(nextAutoColorIdx) + |traces|
        && traceConfigs == PanelConfigs(old(traceConfigs), traces, clicked, autoColor, old(nextAutoColorIdx))
        && lines == PlotLines(traceConfigs, traces, store)
    {
      count := count + 1;
      lines := [];
      if !visible {
        return;
      }
      TracesPanel(traces, clicked, autoColor);
      ghost var panel := traceConfigs;
      lines := PlotTraces(traces, store);
      OrDefaultInsertsNothing(panel, traces);
    }

    /** The side panel: one checkbox row per trace, each drawing an automatic colour. */
    method TracesPanel(traces: seq<TraceInfo>, clicked: set<nat>, autoColor: nat -> Color32)
      modifies this`traceConfigs, this`nextAutoColorIdx
      ensures nextAutoColorIdx == old(nextAutoColorIdx) + |traces|
      ensures traceConfigs == PanelConfigs(old(traceConfigs), traces, clicked, autoColor, old(nextAutoColorIdx))
    {
      ghost var configs0 := traceConfigs;
      ghost var first := nextAutoColorIdx;
      var i := 0;
      while i < |traces|
        invariant 0 <= i <= |traces|
        invariant nextAutoColorIdx == first + i
        invariant traceConfigs == PanelConfigs(configs0, traces[..i], clicked, autoColor, first)
      {
        var color := NextAutoColor(autoColor);
        var id := traces[i].id;
        if id !in traceConfigs {
          traceConfigs := traceConfigs[id := TraceConfig(true, color)];
        }
        if i in clicked {
          traceConfigs := traceConfigs[id := traceConfigs[id].(enabled := !traceConfigs[id].enabled)];
        }
        assert traces[..i + 1][..i] == traces[..i];
        i := i + 1;
      }
      assert traces[..i] == traces;
    }

    /** The plot: each trace's configuration, or a default one, decides whether and in what colour it is drawn. */
    method PlotTraces(traces: seq<TraceInfo>, store: Store) returns (lines: seq<Line>)
      modifies this`traceConfigs
      ensures traceConfigs == OrDefault(old(traceConfigs), traces)
      ensures lines == PlotLines(old(traceConfigs), traces, store)
    {
      ghost var configs0 := traceConfigs;
      lines := [];
      var j := 0;
      while j < |traces|
        invariant 0 <= j <= |traces|
        invariant traceConfigs == OrDefault(configs0, traces[..j])
        invariant lines == PlotLines(configs0, traces[..j], store)
      {
        var id := traces[j].id;
        if id !in traceConfigs {
          traceConfigs := traceConfigs[id := DefaultTraceConfig];
        }
        var tc := traceConfigs[id];
        if tc.enabled {
          lines := lines + [Line(TracePoints(traces[j], store), tc.color)];
        }
        assert ConfigOf(configs0, id) == tc;
        assert traces[..j + 1][..j] == traces[..j];
        j := j + 1;
      }
      assert traces[..j] == traces;
    }
  }
}
