# Data arrangement for FDTD polarization analysis — a Dafny model of its discrete logic

The system is a web tool for the output of an FDTD simulation of light
leaving an optical fibre. A folder holds four field files: the real and
imaginary parts of the Es and Ep components. A browser page reads them,
posts their contents with a few settings to a Python service, and plots the
Stokes parameters and intensity curves the service returns. Those curves
come from an FDTD calculation and, optionally, from a simple simulation and
a least-squares fit.

The model covers the discrete layer around the numerics:

- `body.dfy` (module `Body`) covers the page body:
  - folder ingestion into a name-to-content map, all or nothing;
  - the busy and error flags, and how they gate the Browse and Start buttons;
  - the switch and angle inputs;
  - assembly of the calculation request, including the falsy-to-zero coercion of the angles;
  - the choice of the message shown for a failed request.
- `settings_sheet.dfy` (module `SettingsSheet`) covers the settings panel: a draft edited field by field, applied or cancelled.
- `data_arranger.dfy` (module `DataArranger`) covers the service's arranger:
  - reading files as stripped lines, and 1-based half-open line slicing with Python slice semantics;
  - whitespace tokenising and the shape of float conversion;
  - the three line blocks taken for a division count;
  - the arranger's defaults and setters, and the tag dispatch of `setFileName`;
  - `fileInput`, the block extraction (with the exceptions that stop it part-way), and the centre index.
- `api.dfy` (module `Api`) covers the endpoints:
  - the CORS origins list;
  - the 422 validation-error body and the default-values document;
  - the assembly of a calculation response.
- `client_server.dfy` (module `ClientServer`) connects the service's validation-error body to the message the page shows for it.
- `line_chart.dfy` and `poincare_chart.dfy` cover the chart trace lists: order, optional series, counter and legend position for the line chart; sphere grid shape, labels, markers and rays for the Poincaré sphere.
- `strings.dfy` holds Python's `strip`, `split()` and `split(sep)` (shared with JavaScript's `split(sep)`) and `join`.
- `json.dfy` holds parsed JSON values with JavaScript truthiness.
- `results.dfy` holds the response datasets.
- `sequences.dfy` and `wrappers.dfy` are small libraries.

Effects are inputs of the model:

- Reading a selected file is a function from the file's position to its outcome.
- The HTTP round trip is a function from payload to reply.
- For the service, the file system is a map from path to lines.
- The numerical routines are functions the caller supplies (`Api.Numerics`): float parsing, the polarization and simulation routines, the fitter, `inputData` and the degree conversion.

Four behaviours of the code worth noting:

- The folder name is updated only after a selection of at least five files has gone through ingestion (`frontend/src/routes/Body.tsx:95-100`, `:127-131`). Smaller selections return before that point.
- A file that fails to read stops the loop: the reads are awaited one by one inside one `try` (`frontend/src/routes/Body.tsx:103-118`).
- The angle coercion in the Start handler happens whatever the state of the switch (`frontend/src/routes/Body.tsx:153-169`). The payload uses `value || 0` for both angles. The stored values are reset to 0 only for a switched-off feature.
- Ingestion stores each file under its name in a plain object. The `__proto__` setter ignores a string value, so an assignment to that key adds no key, so a file of that name is read but never stored, and a configuration naming `__proto__` can never complete a folder.

## Model

| member | source | states |
|---|---|---|
| Body.Gather | frontend/src/routes/Body.tsx:106-111 | a completed loop stores only required names, never `__proto__` |
| Body.GatherSucceeds | frontend/src/routes/Body.tsx:107-111 | the reading loop gets through the selection exactly when every file with a required name reads |
| Body.GatherFailure | frontend/src/routes/Body.tsx:107-111 | a failed loop carries what the first failing read of a required file threw: every earlier required file read |
| Body.GatherFailureSticks | frontend/src/routes/Body.tsx:107-111 | once a read has failed, the later files do not change the outcome |
| Body.GatherKeys | frontend/src/routes/Body.tsx:105-111 | the map's keys are exactly the required names other than `__proto__` occurring among the files; other files are ignored |
| Body.GatherLastWins | frontend/src/routes/Body.tsx:107-110 | the entry under a name is the content of the last file with that name; a file named `__proto__` leaves no entry |
| Sequences.ElementsCard | frontend/src/routes/Body.tsx:112 | a list has at most as many distinct values as entries, and exactly as many iff no value repeats |
| Body.IngestSucceeds | frontend/src/routes/Body.tsx:105-117 | ingestion succeeds iff the four configured names are distinct, none is `__proto__`, all occur, and all read; the keys are then exactly those names, so coinciding names never succeed |
| Body.IngestOutcome | frontend/src/routes/Body.tsx:106-126 | success iff the loop completes with at least as many keys as names, giving its map; a thrown read gives its text as alert; too few keys give the missing-files alert |
| Body.IngestLastWins | frontend/src/routes/Body.tsx:107-115 | in a published map each name maps to the content of the last file carrying it |
| Body.BuildPayload | frontend/src/routes/Body.tsx:160-170 | divNo and switches copied; each angle is the entered value, or 0 when it is 0 or NaN; each content field is the map entry under its configured name |
| Body.OrZero | frontend/src/routes/Body.tsx:167-169 | `n \|\| 0`: 0 for a falsy number, the number itself otherwise; never NaN |
| Body.Normalised | frontend/src/routes/Body.tsx:153-158 | the angle of a switched-off feature with a falsy value becomes 0; everything else is kept |
| Body.FirstMsg | frontend/src/routes/Body.tsx:179 | present iff the detail is a non-empty array whose first element has a truthy `msg`, and then it is that `msg` |
| Body.DetailMessage | frontend/src/routes/Body.tsx:178-183 | first validation `msg` if truthy, else a string `detail`, else the generic server text; never an empty non-string |
| Body.ReplyAlert | frontend/src/routes/Body.tsx:176-194 | an alert is shown exactly when the reply is not a delivered result |
| Body.ReplyResult | frontend/src/routes/Body.tsx:186-187 | a result is stored exactly when the reply delivered one |
| Body.Body.constructor | frontend/src/routes/Body.tsx:71-86 | initial state, with the mount effect raising the error flag for the null map |
| Body.Body.FileContentsEffect | frontend/src/routes/Body.tsx:80-86 | a null map sets `isError`; a map leaves it |
| Body.Body.SetFileContents | frontend/src/routes/Body.tsx:80-86 | a map update followed by its effect keeps "null map implies error" |
| Body.Body.ReceiveSettings | frontend/src/routes/Body.tsx:71 | the page reads the settings from the context |
| Body.Body.BrowseDisabled | frontend/src/routes/Body.tsx:206 | Browse is enabled iff neither reading nor calculating |
| Body.Body.StartDisabled | frontend/src/routes/Body.tsx:240 | Start is never enabled without a map, or while reading or calculating |
| Body.Body.HandleFolderName | frontend/src/routes/Body.tsx:93-132 | empty or null selection: nothing changes; under five files: alert and nothing changes; otherwise reading is flagged throughout, then cleared, the map or the failure's alert is published as `IngestOutcome` says, and the folder name is the first path segment |
| Body.Body.HandleSimpleSimCheckChange | frontend/src/routes/Body.tsx:133-135 | only `simpleSim` flips |
| Body.Body.HandleSimpleSimAlphaChange | frontend/src/routes/Body.tsx:136-138 | only `alpha` takes the parsed number |
| Body.Body.HandleFittingCheckChange | frontend/src/routes/Body.tsx:139-141 | only `fitting` flips |
| Body.Body.HandleInitialAlphaChange | frontend/src/routes/Body.tsx:142-144 | only `initialAlpha` takes the parsed number |
| Body.Body.HandleExecute | frontend/src/routes/Body.tsx:145-198 | no map: alert, no request, result cleared; otherwise the payload of the captured values is sent while busy with no result shown, the values are normalised, and the result and alert follow the reply; `isCalculating` is false afterwards |
| ClientServer.ValidationErrorAlert | frontend/src/routes/Body.tsx:176-184 | the service's 422 body with a first error carrying a non-empty `msg` is shown as that message; an empty error list gives the generic text |
| SettingsSheet.AsRecord | frontend/src/components/SettingsSheet.tsx:22-32 | the typed settings as an object with exactly the nine fields |
| SettingsSheet.RadioNumber | frontend/src/components/SettingsSheet.tsx:47 | 1 iff the chosen value is "1", else 0 |
| SettingsSheet.RadioDisplay | frontend/src/components/SettingsSheet.tsx:84 | "1" iff the field is truthy, else "0" |
| SettingsSheet.RadioRoundTrip | frontend/src/components/SettingsSheet.tsx:45-49 | choosing "0" or "1" makes the group display that choice |
| SettingsSheet.SettingsSheet.constructor | frontend/src/components/SettingsSheet.tsx:40 | the draft starts equal to the applied values and nothing is sent |
| SettingsSheet.SettingsSheet.ReceiveProps | frontend/src/components/SettingsSheet.tsx:39-40 | new props change the applied values and keep the draft |
| SettingsSheet.SettingsSheet.HandleChange | frontend/src/components/SettingsSheet.tsx:41-44 | only the named field changes, to the raw string |
| SettingsSheet.SettingsSheet.HandleRadioChange | frontend/src/components/SettingsSheet.tsx:45-49 | only field `n` changes, to 1 or 0, and the group shows the choice |
| SettingsSheet.SettingsSheet.HandleFilename | frontend/src/components/SettingsSheet.tsx:50-52 | only the named field changes, to the filename |
| SettingsSheet.SettingsSheet.UpdateCurrentValues | frontend/src/components/SettingsSheet.tsx:53-55 | the whole draft is sent |
| SettingsSheet.SettingsSheet.CancelChange | frontend/src/components/SettingsSheet.tsx:56-58 | the draft becomes exactly the applied values; nothing is sent |
| Strings.Strip | backend/DataArranger_func.py:13 | the result is the infix of the line between its leading and trailing whitespace, and starts and ends with non-whitespace |
| Strings.Split | backend/DataArranger_func.py:20 | every token is non-empty and holds no whitespace |
| Strings.SplitJoin | backend/DataArranger_func.py:20 | splitting single-space-joined tokens gives the tokens back |
| Strings.SplitOn | backend/main.py:69 | at least one piece, no piece holds the separator, and the pieces rejoin to the input |
| Strings.SplitOnJoin | backend/main.py:69 | splitting a joined list of separator-free pieces gives the list back |
| Strings.SplitOnEmpty | backend/main.py:69-71 | the split is `[""]` exactly for the empty string |
| DataArranger.SliceBound | backend/DataArranger_func.py:17 | a bound in 0..len is kept, a negative bound down to -len counts from the end (i + len), a bound below -len becomes 0, and one above len becomes len |
| DataArranger.PySlice | backend/DataArranger_func.py:17 | with both bounds normalised to a and b: length b - a when a < b and 0 otherwise, and entry k is entry a + k of the list |
| DataArranger.FileReading.ReadBetween | backend/DataArranger_func.py:16-17 | lines s to e-1 (1-based), of length e-s when 1 ≤ s ≤ e ≤ len+1; cut at the last line; empty for e ≤ s |
| DataArranger.ReadAll | backend/DataArranger_func.py:11-14 | one entry per line, each the stripped line |
| DataArranger.OpenFileReading | backend/DataArranger_func.py:6-9 | the reader keeps the path and the stripped lines |
| DataArranger.DivideStr | backend/DataArranger_func.py:19-21 | as many rows as lines, each the line's tokens |
| DataArranger.DivideStrOfJoined | backend/DataArranger_func.py:19-21 | lines written as space-joined tokens divide back into those tokens |
| DataArranger.Str2Float | backend/DataArranger_func.py:23-25 | succeeds iff every string parses; then same length, element-wise parse |
| DataArranger.Str2FloatArr | backend/DataArranger_func.py:27-29 | succeeds iff every token parses; then same row count and row lengths, element-wise parse |
| DataArranger.Block | backend/DataArranger_func.py:90-107 | never longer than the file; when the block ends within the file (or one past it), exactly lines start to end-1 of that block |
| DataArranger.AxisOfParsed | backend/DataArranger_func.py:90-91 | with `str2Float` as conversion: an axis exists iff every line of its block parses, and then has one entry per line |
| DataArranger.TableOfParsed | backend/DataArranger_func.py:102-107 | with `str2FloatArr` as conversion: a table exists iff every token of the block parses, and then has one row per line |
| DataArranger.NpTable | backend/DataArranger_func.py:102 | `np.array` of a float table passes a table through iff all its rows have the same length, and fails otherwise |
| DataArranger.TableOfNumpy | backend/DataArranger_func.py:102-107 | with `np.array` of `str2FloatArr` as conversion: a table exists iff every token of the block parses and all lines hold the same number of tokens, and then has one row per line |
| DataArranger.BlockLayout | backend/DataArranger_func.py:90-107 | for divNo ≥ 1 three blocks of divNo lines start at line 4 with two-line gaps and end at line 7+3·divNo; all are complete iff the file has at least that many lines |
| DataArranger.BlocksOf | backend/DataArranger_func.py:89-107 | the six arrays exist iff all six block conversions succeed |
| DataArranger.AxisSteps | backend/DataArranger_func.py:90-91 | at most two axis assignments; the first happens iff the Ep real reader exists and its first block converts, the second iff also its second block converts |
| DataArranger.TableSteps | backend/DataArranger_func.py:102-107 | at most four table assignments; the k-th happens iff the (k-1)-th did and the k-th reader, in the order Es real, Es imag, Ep real, Ep imag, exists and its block converts |
| DataArranger.ExtractionSteps | backend/DataArranger_func.py:89-108 | at most six array assignments; below two it is the axis count; the tables start iff both axes were assigned, and then add the table count |
| DataArranger.ExtractionComplete | backend/DataArranger_func.py:89-108 | all six assignments happen iff the four readers exist and every block converts |
| DataArranger.CentreIndex | backend/DataArranger_func.py:123 | the index is divNo / 2 for both parities, lies in 0..divNo-1 for divNo ≥ 1, and is the exact middle for odd divNo |
| DataArranger.ComponentOf | backend/DataArranger_func.py:73-81 | the three named tags select their component; any other tag selects Ep imaginary |
| DataArranger.Arranger.constructor | backend/DataArranger_func.py:49-56 | defaults 201, 0, 0, 1 and the four default filenames; no readers or arrays yet |
| DataArranger.Arranger.SetFolderPath | backend/DataArranger_func.py:58-59 | sets only the folder path |
| DataArranger.Arranger.SetDivisionNo | backend/DataArranger_func.py:61-62 | sets only the division count |
| DataArranger.Arranger.SetSimpleSim | backend/DataArranger_func.py:64-65 | sets only the flag, 1 or 0 |
| DataArranger.Arranger.SetAlpha | backend/DataArranger_func.py:67-68 | sets only the angle |
| DataArranger.Arranger.SetMonitorSide | backend/DataArranger_func.py:70-71 | sets only the monitor side |
| DataArranger.Arranger.SetFileName | backend/DataArranger_func.py:73-81 | sets the name of the component the tag selects; the other three stay |
| DataArranger.Arranger.FileInput | backend/DataArranger_func.py:83-87 | readers are created in order; the first missing file or folder path raises and keeps earlier readers |
| DataArranger.Arranger.ExtractAxes | backend/DataArranger_func.py:90-91 | the two axes from the Ep real file, stopping at a missing reader or failed conversion |
| DataArranger.Arranger.ExtractTables | backend/DataArranger_func.py:102-107 | the four field tables in order, stopping at a missing reader or failed conversion |
| DataArranger.Arranger.ExtractData | backend/DataArranger_func.py:89-108 | success iff all six assignments happen; each array is updated exactly up to the failing step; on success the arrays are `BlocksOf` the readers |
| DataArranger.Arranger.CalcPolarization | backend/DataArranger_func.py:123 | the stored index is the centre index of divNo |
| Api.AllowedOrigins | backend/main.py:69-72 | unset or empty: the two local origins; otherwise the comma-split pieces, which rejoin to the value |
| Api.ValidationErrorResponse | backend/main.py:92-95 | status 422 and an object whose only member `detail` is the error list |
| Api.GetDefaultValues | backend/main.py:97-110 | exactly the nine ArrangementSettings keys, carrying a fresh arranger's defaults |
| Api.LoadArranger | backend/main.py:114-118 | a fresh arranger with the request's division count, flag, angle and the installed readers |
| Api.RequestBlocks | backend/main.py:114-119 | for the readers `inputData` installs: present iff both axes and all four tables convert, and then made of exactly those conversions |
| Api.PrepareArranger | backend/main.py:114-119 | the request's division count reaches the arranger unchanged, and extraction succeeds iff the request's blocks convert, yielding them |
| Api.RunCalculate | backend/main.py:112-142 | a response iff extraction succeeds; fdtd always, with no angle, at the centre index; simpleSim iff requested, with the requested angle; fitting iff requested, with the best-fit angle |
| Api.ToDataset | backend/main.py:121-139 | the curve's Stokes values and intensities, its angles converted to degrees, and the given angle |
| LineChart.SeriesTrace | frontend/src/components/LineChart.tsx:14-15 | x is the dataset's theta and y its intensity |
| LineChart.ExpectedTraces | frontend/src/components/LineChart.tsx:12-53 | 1 + the present optional series; FDTD first, simpleSim second when present, fitting last when present, with the shared name prefix |
| LineChart.FdtdTraceIsFirstAndOnly | frontend/src/components/LineChart.tsx:12-53 | a trace carries the FDTD name iff it is the first |
| LineChart.BuildTraces | frontend/src/components/LineChart.tsx:9-55 | the pushed list is `ExpectedTraces`; the counter is its length, in 1..3; the legend is at 1.2 iff both optional series are present, else 1.15 |
| PoincareChart.SampleGrid | frontend/src/components/PoincareChart.tsx:18-20 | a 50 by 50 grid of the sampled function |
| PoincareChart.GenerateSphereData | frontend/src/components/PoincareChart.tsx:13-23 | three 50 by 50 grids of the unit sphere's points in spherical coordinates |
| PoincareChart.Labels | frontend/src/components/PoincareChart.tsx:27-32 | six unit points, antipodal in pairs on ±S1, ±S2, ±S3, with texts H V D A R L |
| PoincareChart.StateMarker | frontend/src/components/PoincareChart.tsx:79-87 | a marker at (s1, s2, s3) |
| PoincareChart.StateRay | frontend/src/components/PoincareChart.tsx:88-96 | an unnamed line from the origin to (s1, s2, s3) |
| PoincareChart.ExpectedTraces | frontend/src/components/PoincareChart.tsx:34-120 | sphere, labels, origin, FDTD marker and ray, then the simpleSim pair when present: 5 or 7 traces |
| PoincareChart.FittingNotDrawn | frontend/src/components/PoincareChart.tsx:99-120 | the fitting dataset does not affect the traces |
| PoincareChart.RaysEndAtMarkers | frontend/src/components/PoincareChart.tsx:79-119 | every ray runs from the origin to the marker drawn before it |
| PoincareChart.BuildTraces | frontend/src/components/PoincareChart.tsx:25-120 | the pushed list is `ExpectedTraces` of the generated sphere |

## Left out

- Numerics are not modelled: the mode solver, the Jones matrices, `calcState`, the field projections of `calcPolarization`, `simpleSimulations` and `findBestFit`. They are floating-point work over numpy and scipy, and `Api.Numerics` supplies them as functions.
- Float parsing is not modelled. Python's `float` is a parameter: a token parser, or a conversion of a block.
- `inputData` is not modelled beyond being taken to install the four readers, because `backend/DataArranger_func.py` does not define it.
- `arranger.fitting` and `arranger.initialAlpha` are given to `Api.GetDefaultValues` as whatever those attributes hold, because the arranger defines neither of them.
- `simpleSimulations` is called with an angle in `backend/main.py` but takes none in the arranger. The model follows the call.
- Part of `extractData` is left out: the meshgrid, the `arctan2` and `sqrt` coordinate arrays, and the complex combination of the Es and Ep tables (including a shape mismatch it could raise on). This is floating-point array work.
- `Api.RunCalculate`: the response is None (the request raises, giving HTTP 500) exactly when a supplied conversion of a block fails. The table conversion is `np.array` of `str2FloatArr`, so it also fails on ragged token rows (`backend/DataArranger_func.py:102`, `:103`, `:106`, `:107`); `DataArranger.TableOfNumpy` states this for a token parser. Other raises are not modelled: the IndexError of `.T[::-1, :]` on a one-dimensional array when a table block is empty, for example for divNo = 0 (`backend/DataArranger_func.py:104`, `:108`); the shape mismatch when real and imaginary tables of different shapes are combined (`:104`, `:108`); the IndexError of `self.uz[self.ind]` and of the field indexing when the blocks are shorter than the centre index (`:124-126`); and errors inside the numerical routines.
- `DataArranger.CentreIndex` does not model Python's float division inside `np.ceil`, which loses precision for |divNo| above 2^53.
- File I/O is left out: `open` in `readAll`, the browser's file reading helper, `fetch`, `alert` and the API base URL. They become the `read`, `server` and `disk` inputs and the `Alert` results.
- Logging (`print`, `console.log`), the CORS middleware machinery, the `.env` loading and the startup retry of the settings loader are left out. The retry code is not part of this model.
- The service's validation of the payload is not modelled: a missing content field or an infinite angle is rejected before `run_calculate`. `Body.Body.HandleExecute` stops at the reply that the `server` input returns.
- Rendering is left out: React and Plotly output, layout options, styling beyond colour and dash, and the `toFixed` formatting of legend angles. The sine, cosine and pi of the sphere are parameters.
- `Body.Body.HandleExecute` does not model the "Unexpected error occured." branch. Every rejection on those paths is an `Error`, so the branch cannot be reached.
- The file-selection control in the settings panel is not modelled apart from the `(name, filename)` update `HandleFilename` receives. RootLayout and the other presentational components are not part of this model.
