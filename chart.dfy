/** Chart dispatch (tz.py:54-82): the sidebar radio selects one of seven chart
    kinds; the matching plotly express call builds a figure from the ranked
    table, and every kind except radar then has its font, y-axis ticks and
    x-axis label angle set on the figure, one update call at a time. Only the
    declarative figure description is modelled, not its rendering. */
module Chart {
  import opened Ranking

  datatype Option<T> = None | Some(value: T)

  datatype ChartKind = Bar | Line | Pie | Scatter | Area | Donut | Radar

  /** The option text of each kind in the radio of tz.py:54. */
  function Label(k: ChartKind): string {
    match k
    case Bar => "数状图"
    case Line => "折线图"
    case Pie => "饼状图"
    case Scatter => "散点图"
    case Area => "面积图"
    case Donut => "圆环图"
    case Radar => "雷达图"
  }

  /** Which branch of the `if`/`elif` chain a selector takes; `None` when no
      branch matches. */
  function ParseKind(choice: string): (k: Option<ChartKind>)
    ensures k.Some? ==> Label(k.value) == choice
    ensures k.None? ==> forall c :: Label(c) != choice
  {
    if choice == Label(Bar) then Some(Bar)
    else if choice == Label(Line) then Some(Line)
    else if choice == Label(Pie) then Some(Pie)
    else if choice == Label(Scatter) then Some(Scatter)
    else if choice == Label(Area) then Some(Area)
    else if choice == Label(Donut) then Some(Donut)
    else if choice == Label(Radar) then Some(Radar)
    else None
  }

  /** Every option of the radio selects its own kind. */
  lemma ParseLabel(k: ChartKind)
    ensures ParseKind(Label(k)) == Some(k)
  {
  }

  /** The data frame columns a figure reads: `词语` (word) and `频次` (count). */
  datatype Column = WordColumn | CountColumn

  datatype Mark = BarMark | LineMark | ScatterMark | AreaMark

  /** The trace a plotly express call describes. */
  datatype Trace =
    | XY(mark: Mark, x: Column, y: Column)
    | PieTrace(names: Column, values: Column, hole: Option<real>)
    | PolarTrace(r: Column, theta: Column, lineClose: bool)

  datatype Font = Font(family: string, size: nat)

  /** A figure as plotly holds it: trace, title, data and the three layout
      settings tz.py:74-82 may set. */
  datatype ChartSpec = ChartSpec(
    trace: Trace,
    title: string,
    data: seq<RankedEntry>,
    font: Option<Font>,
    yTickVals: Option<seq<int>>,
    xTickAngle: Option<int>)

  const TitlePrefix: string := "单词-频次 - "
  const ChartFont: Font := Font("SimHei", 12)
  const LabelAngle: int := 45
  const DonutHole: real := 0.3

  predicate IsCartesian(k: ChartKind) {
    k == Bar || k == Line || k == Scatter || k == Area
  }

  /** The trace of the plotly express call of each branch (tz.py:56-70). */
  function TraceOf(k: ChartKind): Trace {
    match k
    case Bar => XY(BarMark, WordColumn, CountColumn)
    case Line => XY(LineMark, WordColumn, CountColumn)
    case Pie => PieTrace(WordColumn, CountColumn, None)
    case Scatter => XY(ScatterMark, WordColumn, CountColumn)
    case Area => XY(AreaMark, WordColumn, CountColumn)
    case Donut => PieTrace(WordColumn, CountColumn, Some(DonutHole))
    case Radar => PolarTrace(CountColumn, WordColumn, true)
  }

  /** The figure tz.py:56-82 ends with for kind `k`, table `data` and y-axis
      ticks `ticks`. */
  function ChartSpecFor(k: ChartKind, data: seq<RankedEntry>, ticks: seq<int>): (c: ChartSpec)
    ensures c.data == data && c.title == TitlePrefix + Label(k)
    ensures IsCartesian(k) ==> c.trace.XY? && c.trace.x == WordColumn && c.trace.y == CountColumn
    ensures k == Bar ==> c.trace.mark == BarMark
    ensures k == Line ==> c.trace.mark == LineMark
    ensures k == Scatter ==> c.trace.mark == ScatterMark
    ensures k == Area ==> c.trace.mark == AreaMark
    ensures k == Pie || k == Donut ==>
      c.trace.PieTrace? && c.trace.names == WordColumn && c.trace.values == CountColumn
      && c.trace.hole == (if k == Donut then Some(DonutHole) else None)
    ensures k == Radar ==> c.trace == PolarTrace(CountColumn, WordColumn, true)
    ensures k != Radar ==>
      c.font == Some(ChartFont) && c.yTickVals == Some(ticks) && c.xTickAngle == Some(LabelAngle)
    ensures k == Radar ==> c.font == None && c.yTickVals == None && c.xTickAngle == None
  {
    var base := ChartSpec(TraceOf(k), TitlePrefix + Label(k), data, None, None, None);
    if k == Radar then base
    else base.(font := Some(ChartFont), yTickVals := Some(ticks), xTickAngle := Some(LabelAngle))
  }

  /** No two kinds give the same figure: the selector is never lost. */
  lemma KindsDistinct(k1: ChartKind, k2: ChartKind, data: seq<RankedEntry>, ticks: seq<int>)
    requires k1 != k2
    ensures ChartSpecFor(k1, data, ticks) != ChartSpecFor(k2, data, ticks)
  {
    assert ChartSpecFor(k1, data, ticks).title != ChartSpecFor(k2, data, ticks).title by {
      assert Label(k1) != Label(k2);
      assert (TitlePrefix + Label(k1))[|TitlePrefix|..] == Label(k1);
      assert (TitlePrefix + Label(k2))[|TitlePrefix|..] == Label(k2);
    }
  }

  /** The plotly figure object that tz.py:56-82 creates and then updates in place. */
  class Figure {
    var trace: Trace
    var title: string
    var data: seq<RankedEntry>
    var font: Option<Font>
    var yTickVals: Option<seq<int>>
    var xTickAngle: Option<int>

    function Spec(): ChartSpec
      reads this
    {
      ChartSpec(trace, title, data, font, yTickVals, xTickAngle)
    }

    /** A plotly express call: a figure with its trace and no layout settings. */
    constructor (trace: Trace, title: string, data: seq<RankedEntry>)
      ensures Spec() == ChartSpec(trace, title, data, None, None, None)
    {
      this.trace := trace;
      this.title := title;
      this.data := data;
      font, yTickVals, xTickAngle := None, None, None;
    }

    /** `fig.update_layout(font=...)`. */
    method UpdateLayout(f: Font)
      modifies this
      ensures Spec() == old(Spec()).(font := Some(f))
    {
      font := Some(f);
    }

    /** `fig.update_yaxes(tickvals=...)`. */
    method UpdateYAxes(vals: seq<int>)
      modifies this
      ensures Spec() == old(Spec()).(yTickVals := Some(vals))
    {
      yTickVals := Some(vals);
    }

    /** `fig.update_xaxes(tickangle=...)`. */
    method UpdateXAxes(angle: int)
      modifies this
      ensures Spec() == old(Spec()).(xTickAngle := Some(angle))
    {
      xTickAngle := Some(angle);
    }
  }

  /** The outcome of tz.py:56-82: the finished figure, or the `NameError`
      raised at tz.py:74 when no branch bound `fig`. */
  datatype Plot = Plotted(fig: Figure) | NameError

  /** tz.py:56-82 for selector `choice`, table `top` and the interval
      `interval` computed at tz.py:51. */
  method PlotChart(choice: string, top: seq<RankedEntry>, interval: nat) returns (p: Plot)
    requires top != [] && interval > 0
    ensures p.NameError? <==> ParseKind(choice).None?
    ensures p.Plotted? ==> fresh(p.fig)
    ensures p.Plotted? ==>
      p.fig.Spec() == ChartSpecFor(ParseKind(choice).value, top, TickValues(MaxOf(Frequencies(top)), interval))
  {
    var fig: Figure? := null;
    if choice == Label(Bar) {
      fig := new Figure(XY(BarMark, WordColumn, CountColumn), TitlePrefix + choice, top);
    } else if choice == Label(Line) {
      fig := new Figure(XY(LineMark, WordColumn, CountColumn), TitlePrefix + choice, top);
    } else if choice == Label(Pie) {
      fig := new Figure(PieTrace(WordColumn, CountColumn, None), TitlePrefix + choice, top);
    } else if choice == Label(Scatter) {
      fig := new Figure(XY(ScatterMark, WordColumn, CountColumn), TitlePrefix + choice, top);
    } else if choice == Label(Area) {
      fig := new Figure(XY(AreaMark, WordColumn, CountColumn), TitlePrefix + choice, top);
    } else if choice == Label(Donut) {
      fig := new Figure(PieTrace(WordColumn, CountColumn, Some(DonutHole)), TitlePrefix + choice, top);
    } else if choice == Label(Radar) {
      fig := new Figure(PolarTrace(CountColumn, WordColumn, true), TitlePrefix + choice, top);
    }

    assert fig == null <==> ParseKind(choice).None?;
    assert fig != null ==> fig.Spec() == ChartSpec(TraceOf(ParseKind(choice).value), TitlePrefix + choice, top, None, None, None);
    if choice != Label(Radar) {
      if fig == null {
        return NameError;
      }
      fig.UpdateLayout(ChartFont);
    }
    if choice != Label(Radar) {
      fig.UpdateYAxes(TickValues(MaxOf(Frequencies(top)), interval));
    }
    if choice != Label(Radar) {
      fig.UpdateXAxes(LabelAngle);
    }
    return Plotted(fig);
  }
}
