/** The response shaping of backend/main.py: the allowed CORS origins, the
    body of a request-validation error, the default-values document and
    the assembly of a calculation response from the arranger's results.
    The numerical routines the endpoint calls are parameters. */
module Api {
  import opened Wrappers
  import opened Json
  import opened Strings
  import opened Results
  import opened DataArranger

  // ---------------------------------------------------------------------
  // CORS origins

  /** The origins allowed when CORS_ORIGINS gives none. */
  const DEFAULT_ORIGINS: seq<string> := ["http://localhost:5173", "http://127.0.0.1:5173"]

  /** The origins list: the value of CORS_ORIGINS (empty when unset) split
      on commas, or the two local development origins when that split is
      the single empty string. A non-empty value is used verbatim: its
      pieces contain no comma and rejoin to the value. */
  method AllowedOrigins(corsOrigins: Option<string>) returns (origins: seq<string>)
    ensures corsOrigins.GetOr("") == "" ==> origins == DEFAULT_ORIGINS
    ensures corsOrigins.GetOr("") != "" ==>
              && |origins| >= 1
              && Join(origins, ',') == corsOrigins.value
              && forall i :: 0 <= i < |origins| ==> ',' !in origins[i]
  {
    var raw := corsOrigins.GetOr("");
    origins := SplitOn(raw, ',');
    if |origins| == 0 || origins == [""] {
      origins := DEFAULT_ORIGINS;
    } else {
      SplitOnEmpty(raw, ',');
    }
  }

  // ---------------------------------------------------------------------
  // Responses

  datatype JsonResponse = JsonResponse(statusCode: int, content: JValue)

  const HTTP_422_UNPROCESSABLE_ENTITY: int := 422

  /** The response to a request that fails validation: status 422 and an
      object whose only member `detail` is the list of validation errors. */
  function ValidationErrorResponse(errors: seq<JValue>): (r: JsonResponse)
    ensures r.statusCode == HTTP_422_UNPROCESSABLE_ENTITY
    ensures r.content.JObj? && r.content.fields.Keys == {"detail"}
    ensures Member(r.content, "detail") == Some(JArr(errors))
  {
    JsonResponse(HTTP_422_UNPROCESSABLE_ENTITY, JObj(map["detail" := JArr(errors)]))
  }

  /** The fields of the ArrangementSettings model. */
  const ARRANGEMENT_SETTINGS_FIELDS: set<string> :=
    {"divNo", "EsRealName", "EsImagName", "EpRealName", "EpImagName",
     "simpleSim", "alpha", "fitting", "initialAlpha"}

  /** `get_default_values`: the defaults of a fresh arranger under exactly
      the keys ArrangementSettings declares. The arranger defines no
      `fitting` or `initialAlpha`; whatever those attributes hold is given
      as `fitting` and `initialAlpha`. */
  method GetDefaultValues(fitting: JValue, initialAlpha: JValue) returns (body: JValue)
    ensures body.JObj?
    ensures body.fields.Keys == ARRANGEMENT_SETTINGS_FIELDS
    ensures body.fields["divNo"] == JNum(201.0)
    ensures body.fields["EsRealName"] == JStr("Es_real.txt")
    ensures body.fields["EsImagName"] == JStr("Es_imag.txt")
    ensures body.fields["EpRealName"] == JStr("Ep_real.txt")
    ensures body.fields["EpImagName"] == JStr("Ep_imag.txt")
    ensures body.fields["simpleSim"] == JNum(0.0) && body.fields["alpha"] == JNum(0.0)
    ensures body.fields["fitting"] == fitting && body.fields["initialAlpha"] == initialAlpha
  {
    var arranger := new Arranger();
    body := JObj(map[
      "divNo" := JNum(arranger.divNo as real),
      "EsRealName" := JStr(arranger.esRealName),
      "EsImagName" := JStr(arranger.esImagName),
      "EpRealName" := JStr(arranger.epRealName),
      "EpImagName" := JStr(arranger.epImagName),
      "simpleSim" := JNum(arranger.simpleSim as real),
      "alpha" := JNum(arranger.alpha),
      "fitting" := fitting,
      "initialAlpha" := initialAlpha]);
  }

  // ---------------------------------------------------------------------
  // The calculation endpoint

  /** The validated body of a calculation request. */
  datatype CalculationRequest = CalculationRequest(
    divNo: int,
    esRealContent: string,
    esImagContent: string,
    epRealContent: string,
    epImagContent: string,
    simpleSim: bool,
    alpha: real,
    fitting: bool,
    initialAlpha: real)

  /** The tuple a polarization routine returns: Stokes parameters, angle
      samples in radians and intensities. */
  datatype Curve = Curve(s1: real, s2: real, s3: real, theta: seq<real>, intensity: seq<real>)

  datatype Readers = Readers(esReal: FileReading, esImag: FileReading, epReal: FileReading, epImag: FileReading)

  /** The arranger routines the endpoint relies on and that are not part of
      this model, as functions of what they are given: `str2Float` with
      Python's `float` for an axis (which `Str2Float` describes for any
      token parser), `np.array` of `str2FloatArr` with Python's `float` for
      a table, which also fails on ragged rows (`NpTable` of
      `Str2FloatArr`, see `TableOfNumpy`), `inputData` as the
      readers it installs for the four contents, the numerical part of
      `calcPolarization` from the extracted arrays and the centre index,
      `simpleSimulations` and `findBestFit` from the arrays and an angle,
      and numpy's degree conversion. */
  datatype Numerics = Numerics(
    toFloats: Conversion,
    toTable: TableConversion,
    inputData: (string, string, string, string) -> Readers,
    polarization: (Blocks, int) -> Curve,
    simulate: (Blocks, real) -> Curve,
    bestFit: (Blocks, real) -> real,
    rad2deg: seq<real> -> seq<real>)

  /** A dataset of the response built from a curve: the curve's Stokes
      values and intensities, its angles in degrees, and the given angle. */
  function ToDataset(c: Curve, alpha: Option<real>, rad2deg: seq<real> -> seq<real>): (d: Dataset)
    ensures d.s1 == c.s1 && d.s2 == c.s2 && d.s3 == c.s3 && d.intensity == c.intensity
    ensures d.theta == rad2deg(c.theta) && d.alpha == alpha
  {
    Dataset(c.s1, c.s2, c.s3, rad2deg(c.theta), alpha, c.intensity)
  }

  /** The arrays `extractData` takes from the readers installed for a
      request, for the request's division count: present exactly when all
      six block conversions succeed, and then made of their results. */
  function RequestBlocks(request: CalculationRequest, nums: Numerics): (b: Option<Blocks>)
    ensures var rs, d := RequestReaders(request, nums), request.divNo;
            && (b.Some? <==>
                  && AxisOf(rs.epReal, d, 0, nums.toFloats).Some? && AxisOf(rs.epReal, d, 1, nums.toFloats).Some?
                  && TableOf(rs.esReal, d, nums.toTable).Some? && TableOf(rs.esImag, d, nums.toTable).Some?
                  && TableOf(rs.epReal, d, nums.toTable).Some? && TableOf(rs.epImag, d, nums.toTable).Some?)
            && (b.Some? ==>
                  && b.value.uz == AxisOf(rs.epReal, d, 0, nums.toFloats).value
                  && b.value.uy == AxisOf(rs.epReal, d, 1, nums.toFloats).value
                  && b.value.esReal == TableOf(rs.esReal, d, nums.toTable).value
                  && b.value.esImag == TableOf(rs.esImag, d, nums.toTable).value
                  && b.value.epReal == TableOf(rs.epReal, d, nums.toTable).value
                  && b.value.epImag == TableOf(rs.epImag, d, nums.toTable).value)
  {
    var rs := RequestReaders(request, nums);
    BlocksOf(rs.esReal, rs.esImag, rs.epReal, rs.epImag, request.divNo, nums.toFloats, nums.toTable)
  }

  /** The readers `inputData` installs for the request's file contents. */
  function RequestReaders(request: CalculationRequest, nums: Numerics): Readers {
    nums.inputData(request.esRealContent, request.esImagContent, request.epRealContent, request.epImagContent)
  }

  /** Lines 114-118 of `run_calculate`: a fresh arranger receives the
      request's division count, file contents, flag and angle. */
  method LoadArranger(request: CalculationRequest, nums: Numerics) returns (arranger: Arranger)
    ensures fresh(arranger)
    ensures arranger.divNo == request.divNo
    ensures arranger.simpleSim == (if request.simpleSim then 1 else 0) && arranger.alpha == request.alpha
    ensures var rs := RequestReaders(request, nums);
            && arranger.esFileReal == Some(rs.esReal) && arranger.esFileImag == Some(rs.esImag)
            && arranger.epFileReal == Some(rs.epReal) && arranger.epFileImag == Some(rs.epImag)
  {
    arranger := new Arranger();
    arranger.SetDivisionNo(request.divNo);
    var rs := RequestReaders(request, nums);
    arranger.esFileReal, arranger.esFileImag := Some(rs.esReal), Some(rs.esImag);
    arranger.epFileReal, arranger.epFileImag := Some(rs.epReal), Some(rs.epImag);
    arranger.SetSimpleSim(request.simpleSim);
    arranger.SetAlpha(request.alpha);
  }

  /** Lines 114-119 of `run_calculate`: the loaded arranger extracts its
      arrays. */
  method PrepareArranger(request: CalculationRequest, nums: Numerics) returns (arranger: Arranger, extracted: bool)
    ensures fresh(arranger)
    ensures arranger.divNo == request.divNo
    ensures extracted <==> RequestBlocks(request, nums).Some?
    ensures extracted ==> arranger.Extracted() == RequestBlocks(request, nums)
  {
    arranger := LoadArranger(request, nums);
    extracted := arranger.ExtractData(nums.toFloats, nums.toTable);
  }

  /** `run_calculate`: the arranger is prepared from the request; a token
      that is not a float raises, and the request gets no calculation
      response (None). Otherwise the FDTD dataset is computed and carries no
      angle. The simple-simulation dataset is present exactly when the
      request asks for it and carries the requested angle; the fitting
      dataset is present exactly when the request asks for it and carries
      the best-fit angle found from the initial angle. */
  method RunCalculate(request: CalculationRequest, nums: Numerics) returns (response: Option<CalcResult>)
    ensures response.Some? <==> RequestBlocks(request, nums).Some?
    ensures response.Some? ==>
              var blocks := RequestBlocks(request, nums).value;
              var r := response.value;
              && r.fdtd == ToDataset(nums.polarization(blocks, CentreIndex(request.divNo)), None, nums.rad2deg)
              && r.fdtd.alpha.None?
              && (r.simpleSim.Some? <==> request.simpleSim)
              && (request.simpleSim ==>
                    r.simpleSim == Some(ToDataset(nums.simulate(blocks, request.alpha), Some(request.alpha), nums.rad2deg)))
              && (r.fitting.Some? <==> request.fitting)
              && (request.fitting ==>
                    var bestAlpha := nums.bestFit(blocks, request.initialAlpha);
                    r.fitting == Some(ToDataset(nums.simulate(blocks, bestAlpha), Some(bestAlpha), nums.rad2deg)))
  {
    var arranger, extracted := PrepareArranger(request, nums);
    if !extracted {
      return None;
    }
    var blocks := arranger.Extracted().value;
    arranger.CalcPolarization();
    var fdtdCurve := nums.polarization(blocks, arranger.ind.value);
    var fdtdResult := Dataset(fdtdCurve.s1, fdtdCurve.s2, fdtdCurve.s3, nums.rad2deg(fdtdCurve.theta), None, fdtdCurve.intensity);

    var simpleSimResult: Option<Dataset> := None;
    if request.simpleSim {
      var sim := nums.simulate(blocks, request.alpha);
      simpleSimResult := Some(Dataset(sim.s1, sim.s2, sim.s3, nums.rad2deg(sim.theta), Some(request.alpha), sim.intensity));
    }

    var fittingResult: Option<Dataset> := None;
    if request.fitting {
      var bestAlpha := nums.bestFit(blocks, request.initialAlpha);
      var fit := nums.simulate(blocks, bestAlpha);
      fittingResult := Some(Dataset(fit.s1, fit.s2, fit.s3, nums.rad2deg(fit.theta), Some(bestAlpha), fit.intensity));
    }

    response := Some(CalcResult(fdtdResult, simpleSimResult, fittingResult));
  }
}
