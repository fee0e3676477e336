/** The series list of frontend/src/components/LineChart.tsx: the traces
    plotted for a calculation result, how many there are, and where the
    legend goes. Styling beyond the line colour and dash, and the layout,
    are not modelled. */
module LineChart {
  import opened Wrappers
  import opened Results

  /** The legend name of a trace. The two optional series share the
      "Simple Simulation Result (<alpha> deg.)" form, with the angle taken
      from their own dataset; its formatting is not modelled. */
  datatype TraceName = FdtdResult | SimpleSimulationResult(alpha: Option<real>)

  datatype Dash = Solid | Dotted

  datatype LineTrace = LineTrace(x: seq<real>, y: seq<real>, name: TraceName, color: string, dash: Dash)

  const FDTD_COLOR := "#005AFF"
  const SIMPLE_SIM_COLOR := "#F6AA00"
  const FITTING_COLOR := "#03AF7A"

  /** A dataset drawn as angle against intensity. */
  function SeriesTrace(d: Dataset, name: TraceName, color: string, dash: Dash): (t: LineTrace)
    ensures t.x == d.theta && t.y == d.intensity && t.name == name && t.color == color && t.dash == dash
  {
    LineTrace(d.theta, d.intensity, name, color, dash)
  }

  /** The traces in plotting order: the FDTD series, then the simple
      simulation and then the fitting, each when present. */
  function ExpectedTraces(data: CalcResult): (ts: seq<LineTrace>)
    ensures |ts| == 1 + (if data.simpleSim.Some? then 1 else 0) + (if data.fitting.Some? then 1 else 0)
    ensures ts[0] == SeriesTrace(data.fdtd, FdtdResult, FDTD_COLOR, Solid)
    ensures data.simpleSim.Some? ==>
              ts[1] == SeriesTrace(data.simpleSim.value, SimpleSimulationResult(data.simpleSim.value.alpha),
                                   SIMPLE_SIM_COLOR, Dotted)
    ensures data.fitting.Some? ==>
              ts[|ts| - 1] == SeriesTrace(data.fitting.value, SimpleSimulationResult(data.fitting.value.alpha),
                                          FITTING_COLOR, Dotted)
  {
    [SeriesTrace(data.fdtd, FdtdResult, FDTD_COLOR, Solid)]
    + (if data.simpleSim.Some?
       then [SeriesTrace(data.simpleSim.value, SimpleSimulationResult(data.simpleSim.value.alpha), SIMPLE_SIM_COLOR, Dotted)]
       else [])
    + (if data.fitting.Some?
       then [SeriesTrace(data.fitting.value, SimpleSimulationResult(data.fitting.value.alpha), FITTING_COLOR, Dotted)]
       else [])
  }

  /** Exactly one trace carries the FDTD name, and it is the first. */
  lemma FdtdTraceIsFirstAndOnly(data: CalcResult)
    ensures forall i :: 0 <= i < |ExpectedTraces(data)| ==>
              (ExpectedTraces(data)[i].name == FdtdResult <==> i == 0)
  {
  }

  /** The chart's trace list, counter and legend position, built as the
      component does: start with the FDTD series, push each optional series
      that is present, and raise the legend when three series are shown. */
  method BuildTraces(data: CalcResult) returns (traces: seq<LineTrace>, amountOfPlot: int, legendYPos: real)
    ensures traces == ExpectedTraces(data)
    ensures amountOfPlot == |traces| && 1 <= amountOfPlot <= 3
    ensures legendYPos == if data.simpleSim.Some? && data.fitting.Some? then 1.2 else 1.15
  {
    amountOfPlot := 1;
    legendYPos := 1.15;
    traces := [SeriesTrace(data.fdtd, FdtdResult, FDTD_COLOR, Solid)];

    if data.simpleSim.Some? {
      var d := data.simpleSim.value;
      traces := traces + [SeriesTrace(d, SimpleSimulationResult(d.alpha), SIMPLE_SIM_COLOR, Dotted)];
      amountOfPlot := amountOfPlot + 1;
    }

    if data.fitting.Some? {
      var d := data.fitting.value;
      traces := traces + [SeriesTrace(d, SimpleSimulationResult(d.alpha), FITTING_COLOR, Dotted)];
      amountOfPlot := amountOfPlot + 1;
    }

    if amountOfPlot == 3 {
      legendYPos := 1.2;
    }
  }
}
