/** The trace list of frontend/src/components/PoincareChart.tsx: the unit
    sphere, the polarization labels on its axes, the origin, and a marker
    with a ray from the origin for each drawn Stokes vector. The sine,
    cosine and pi the sphere is computed with are parameters; the styling
    and layout are not modelled. */
module PoincareChart {
  import opened Wrappers
  import opened Results

  /** The number of samples per sphere angle. */
  const RESOLUTION: nat := 50

  /** Three coordinate grids of a surface. */
  datatype Grid = Grid(x: seq<seq<real>>, y: seq<seq<real>>, z: seq<seq<real>>)

  /** The polar angle of row i: pi times i over RESOLUTION - 1. */
  function Theta(pi: real, i: int): real {
    pi * (i as real) / ((RESOLUTION - 1) as real)
  }

  /** The azimuth of column j: two pi times j over RESOLUTION - 1. */
  function Phi(pi: real, j: int): real {
    2.0 * pi * (j as real) / ((RESOLUTION - 1) as real)
  }

  /** A RESOLUTION by RESOLUTION grid whose entry in row i, column j is
      `f(i, j)`. */
  function SampleGrid(f: (int, int) -> real): (rows: seq<seq<real>>)
    ensures |rows| == RESOLUTION
    ensures forall i :: 0 <= i < RESOLUTION ==> |rows[i]| == RESOLUTION
    ensures forall i, j :: 0 <= i < RESOLUTION && 0 <= j < RESOLUTION ==> rows[i][j] == f(i, j)
  {
    seq(RESOLUTION, i => seq(RESOLUTION, j => f(i, j)))
  }

  /** `generateSphereData`: rows over the polar angle, columns over the
      azimuth, each grid RESOLUTION by RESOLUTION, with the points of the
      sphere of radius 1 in spherical coordinates (z constant along a row). */
  function GenerateSphereData(pi: real, sin: real -> real, cos: real -> real): (g: Grid)
    ensures |g.x| == RESOLUTION && |g.y| == RESOLUTION && |g.z| == RESOLUTION
    ensures forall i :: 0 <= i < RESOLUTION ==>
              |g.x[i]| == RESOLUTION && |g.y[i]| == RESOLUTION && |g.z[i]| == RESOLUTION
    ensures forall i, j :: 0 <= i < RESOLUTION && 0 <= j < RESOLUTION ==>
              && g.x[i][j] == sin(Theta(pi, i)) * cos(Phi(pi, j))
              && g.y[i][j] == sin(Theta(pi, i)) * sin(Phi(pi, j))
              && g.z[i][j] == cos(Theta(pi, i))
  {
    Grid(
      SampleGrid((i, j) => sin(Theta(pi, i)) * cos(Phi(pi, j))),
      SampleGrid((i, j) => sin(Theta(pi, i)) * sin(Phi(pi, j))),
      SampleGrid((i, _) => cos(Theta(pi, i))))
  }

  /** The polarization labels: points on the S1, S2 and S3 axes with their
      texts. */
  datatype LabelData = LabelData(x: seq<real>, y: seq<real>, z: seq<real>, text: seq<string>)

  /** The six labels: horizontal and vertical on S1, diagonal and
      antidiagonal on S2, right and left circular on S3. Each is a unit
      point on one axis, and each pair lies at opposite ends of its axis. */
  function Labels(): (l: LabelData)
    ensures |l.x| == 6 && |l.y| == 6 && |l.z| == 6 && |l.text| == 6
    ensures l.text == ["H", "V", "D", "A", "R", "L"]
    ensures forall k :: 0 <= k < 6 ==> l.x[k] * l.x[k] + l.y[k] * l.y[k] + l.z[k] * l.z[k] == 1.0
    ensures forall m :: 0 <= m < 3 ==>
              l.x[2 * m + 1] == -l.x[2 * m] && l.y[2 * m + 1] == -l.y[2 * m] && l.z[2 * m + 1] == -l.z[2 * m]
    ensures l.x[0] == 1.0 && l.y[2] == 1.0 && l.z[4] == 1.0
  {
    LabelData(
      [1.0, -1.0, 0.0, 0.0, 0.0, 0.0],
      [0.0, 0.0, 1.0, -1.0, 0.0, 0.0],
      [0.0, 0.0, 0.0, 0.0, 1.0, -1.0],
      ["H", "V", "D", "A", "R", "L"])
  }

  /** The legend name of a trace; traces hidden from the legend have none.
      The simple-simulation marker names the angle the page was given. */
  datatype TraceName = Unnamed | Sphere | FdtdResult | SimpleSimulationResult(alpha: real)

  datatype Mode = Markers | Lines | TextAndMarkers

  datatype Trace3D =
    | Surface(grid: Grid, name: TraceName)
    | Scatter3D(x: seq<real>, y: seq<real>, z: seq<real>, text: seq<string>, mode: Mode, color: string, name: TraceName)

  /** The marker of a dataset's Stokes vector (s1, s2, s3). */
  function StateMarker(d: Dataset, color: string, name: TraceName): (t: Trace3D)
    ensures t.Scatter3D? && t.mode == Markers
    ensures t.x == [d.s1] && t.y == [d.s2] && t.z == [d.s3]
  {
    Scatter3D([d.s1], [d.s2], [d.s3], [], Markers, color, name)
  }

  /** The segment from the origin to a dataset's Stokes vector. */
  function StateRay(d: Dataset, color: string): (t: Trace3D)
    ensures t.Scatter3D? && t.mode == Lines && t.name == Unnamed
    ensures t.x == [0.0, d.s1] && t.y == [0.0, d.s2] && t.z == [0.0, d.s3]
  {
    Scatter3D([0.0, d.s1], [0.0, d.s2], [0.0, d.s3], [], Lines, color, Unnamed)
  }

  /** The traces in drawing order: the sphere, the axis labels, the origin,
      the FDTD marker and ray, and the simple-simulation marker and ray when
      that dataset is present. */
  function ExpectedTraces(data: CalcResult, alpha: real, sphere: Grid): (ts: seq<Trace3D>)
    ensures |ts| == if data.simpleSim.Some? then 7 else 5
    ensures ts[0] == Surface(sphere, Sphere)
    ensures ts[1] == Scatter3D(Labels().x, Labels().y, Labels().z, Labels().text, TextAndMarkers, "red", Unnamed)
    ensures ts[2] == Scatter3D([0.0], [0.0], [0.0], ["O"], TextAndMarkers, "Black", Unnamed)
    ensures ts[3] == StateMarker(data.fdtd, "Blue", FdtdResult) && ts[4] == StateRay(data.fdtd, "Blue")
    ensures data.simpleSim.Some? ==>
              && ts[5] == StateMarker(data.simpleSim.value, "Green", SimpleSimulationResult(alpha))
              && ts[6] == StateRay(data.simpleSim.value, "green")
  {
    var labels := Labels();
    [ Surface(sphere, Sphere),
      Scatter3D(labels.x, labels.y, labels.z, labels.text, TextAndMarkers, "red", Unnamed),
      Scatter3D([0.0], [0.0], [0.0], ["O"], TextAndMarkers, "Black", Unnamed),
      StateMarker(data.fdtd, "Blue", FdtdResult),
      StateRay(data.fdtd, "Blue") ]
    + (if data.simpleSim.Some?
       then [StateMarker(data.simpleSim.value, "Green", SimpleSimulationResult(alpha)),
             StateRay(data.simpleSim.value, "green")]
       else [])
  }

  /** The fitting dataset is never drawn on the sphere. */
  lemma FittingNotDrawn(data: CalcResult, fitting: Option<Dataset>, alpha: real, sphere: Grid)
    ensures ExpectedTraces(data.(fitting := fitting), alpha, sphere) == ExpectedTraces(data, alpha, sphere)
  {
  }

  /** Every ray starts at the origin and ends at the point of the marker
      drawn just before it. */
  lemma RaysEndAtMarkers(data: CalcResult, alpha: real, sphere: Grid)
    ensures forall k :: 3 <= k < |ExpectedTraces(data, alpha, sphere)| && k % 2 == 0 ==>
              var ray := ExpectedTraces(data, alpha, sphere)[k];
              var marker := ExpectedTraces(data, alpha, sphere)[k - 1];
              && ray.Scatter3D? && ray.mode == Lines && marker.Scatter3D? && marker.mode == Markers
              && ray.x == [0.0] + marker.x && ray.y == [0.0] + marker.y && ray.z == [0.0] + marker.z
  {
    var ts := ExpectedTraces(data, alpha, sphere);
    forall k | 3 <= k < |ts| && k % 2 == 0
      ensures ts[k].Scatter3D? && ts[k].mode == Lines && ts[k - 1].Scatter3D? && ts[k - 1].mode == Markers
      ensures ts[k].x == [0.0] + ts[k - 1].x && ts[k].y == [0.0] + ts[k - 1].y && ts[k].z == [0.0] + ts[k - 1].z
    {
      var d := if k == 4 then data.fdtd else data.simpleSim.value;
      assert ts[k - 1].x == [d.s1] && ts[k - 1].y == [d.s2] && ts[k - 1].z == [d.s3];
      assert ts[k].x == [0.0, d.s1] && ts[k].y == [0.0, d.s2] && ts[k].z == [0.0, d.s3];
    }
  }

  /** The chart's traces, built as the component does: the five fixed
      traces, then the simple-simulation pair pushed when present. */
  method BuildTraces(data: CalcResult, alpha: real, pi: real, sin: real -> real, cos: real -> real)
    returns (traces: seq<Trace3D>)
    ensures traces == ExpectedTraces(data, alpha, GenerateSphereData(pi, sin, cos))
  {
    var sphereData := GenerateSphereData(pi, sin, cos);
    var labelData := Labels();
    traces := [
      Surface(sphereData, Sphere),
      Scatter3D(labelData.x, labelData.y, labelData.z, labelData.text, TextAndMarkers, "red", Unnamed),
      Scatter3D([0.0], [0.0], [0.0], ["O"], TextAndMarkers, "Black", Unnamed),
      StateMarker(data.fdtd, "Blue", FdtdResult),
      StateRay(data.fdtd, "Blue")
    ];

    if data.simpleSim.Some? {
      traces := traces + [
        StateMarker(data.simpleSim.value, "Green", SimpleSimulationResult(alpha)),
        StateRay(data.simpleSim.value, "green")
      ];
    }
  }
}
