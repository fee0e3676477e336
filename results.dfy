/** The calculation result the service returns and the client plots: one
    primary FDTD dataset and two optional secondary datasets. Floating-point
    values are kept as reals; nothing in the model computes with them. */
module Results {
  import opened Wrappers

  /** One dataset: Stokes parameters, the QWP angle samples (degrees), the
      simulation angle (absent for the FDTD dataset) and the intensities. */
  datatype Dataset = Dataset(
    s1: real,
    s2: real,
    s3: real,
    theta: seq<real>,
    alpha: Option<real>,
    intensity: seq<real>)

  datatype CalcResult = CalcResult(
    fdtd: Dataset,
    simpleSim: Option<Dataset>,
    fitting: Option<Dataset>)
}
