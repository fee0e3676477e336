/** The calculation workflow of the page body (frontend/src/routes/Body.tsx):
    folder ingestion into a file-content map, the angle and toggle inputs,
    assembly of the calculation request, and the busy and error flags that
    gate the two buttons. File reading and the HTTP request are inputs of
    the model: `read` gives the outcome of reading the file at each position
    of the selection, `server` the reply to a payload. */
module Body {
  import opened Wrappers
  import opened Json
  import opened Strings
  import opened Sequences
  import opened Results

  /** A JavaScript number as `parseFloat` yields it. */
  datatype JsNumber = NaN | Infinity(negative: bool) | Finite(value: real)

  /** JavaScript falsiness of a number: NaN and zero. */
  predicate Falsy(n: JsNumber) {
    n.NaN? || n == Finite(0.0)
  }

  /** The settings the page reads from the layout's context. */
  datatype Settings = Settings(
    divNo: int,
    esRealName: string,
    esImagName: string,
    epRealName: string,
    epImagName: string)

  /** The four configured filenames, in the order the source lists them. */
  function RequiredNames(s: Settings): seq<string> {
    [s.esRealName, s.esImagName, s.epRealName, s.epImagName]
  }

  /** The page's own inputs besides the settings. */
  datatype Values = Values(
    simpleSim: bool,
    alpha: JsNumber,
    fitting: bool,
    initialAlpha: JsNumber)

  /** One entry of the folder picker's file list. */
  datatype SelectedFile = SelectedFile(name: string, webkitRelativePath: string)

  /** What a rejected promise carried: an `Error` with its message, or some
      other value. */
  datatype Thrown = ErrorWithMessage(message: string) | NotAnError

  /** The outcome of reading one file as text. */
  datatype ReadResult = Text(content: string) | ReadError(thrown: Thrown)

  type FileContents = map<string, string>

  /** The one key a plain JavaScript object does not store as its own
      property: assigning to it calls the prototype setter instead. */
  const PROTO_KEY := "__proto__"

  /** `contents[name] = c` on an object created as `{}`. The prototype
      setter ignores a string, so under `PROTO_KEY` nothing is stored. */
  function Assign(contents: FileContents, name: string, c: string): FileContents {
    if name == PROTO_KEY then contents else contents[name := c]
  }

  const FOLDER_INCOMPLETE := "Required files are missing.\nCheck the folder component."
  const UNKNOWN_ERROR := "An unknown error occured"
  const NO_FILE_CONTENTS := "Required files are missing."
  const SERVER_FALLBACK := "Error occured in the server."

  /** What `alert` shows: a text, the message the server's error body
      supplied (which `new Error` turns into text), or the TypeError of
      reading `detail` from a `null` body. */
  datatype Alert = Message(text: string) | ServerDetail(detail: JValue) | NullBodyTypeError

  /** The alert text for a failure caught by the ingestion handler. */
  function ThrownText(t: Thrown): string {
    match t
    case ErrorWithMessage(m) => m
    case NotAnError => UNKNOWN_ERROR
  }

  // ---------------------------------------------------------------------
  // Folder ingestion

  /** The state of the reading loop after the first `n` files: the map built
      so far, or what the first failing read threw (the loop awaits each read
      in turn, so a failure stops it). Only required names other than
      `PROTO_KEY` become keys. */
  function Gather(files: seq<SelectedFile>, required: seq<string>, read: nat -> ReadResult, n: nat)
    : (r: Result<FileContents, Thrown>)
    requires n <= |files|
    ensures r.Success? ==> forall key :: key in r.value ==> key in required && key != PROTO_KEY
  {
    if n == 0 then Success(map[])
    else
      match Gather(files, required, read, n - 1)
      case Failure(t) => Failure(t)
      case Success(m) =>
        if files[n - 1].name in required then
          match read(n - 1)
          case Text(c) => Success(Assign(m, files[n - 1].name, c))
          case ReadError(t) => Failure(t)
        else Success(m)
  }

  /** The required names carried by the first `n` files that an object
      stores as keys. */
  function NamesSeen(files: seq<SelectedFile>, required: seq<string>, n: nat): set<string>
    requires n <= |files|
  {
    set k | 0 <= k < n && files[k].name in required && files[k].name != PROTO_KEY :: files[k].name
  }

  /** The loop gets through the first `n` files exactly when every required
      file among them reads successfully. */
  lemma {:induction false} GatherSucceeds(files: seq<SelectedFile>, required: seq<string>, read: nat -> ReadResult, n: nat)
    requires n <= |files|
    ensures Gather(files, required, read, n).Success? <==>
              forall k :: 0 <= k < n && files[k].name in required ==> read(k).Text?
  {
    if n > 0 {
      GatherSucceeds(files, required, read, n - 1);
    }
  }

  /** A failed loop reports what the first failing read of a required file
      threw. */
  lemma {:induction false} GatherFailure(files: seq<SelectedFile>, required: seq<string>, read: nat -> ReadResult, n: nat)
    requires n <= |files|
    requires Gather(files, required, read, n).Failure?
    ensures exists k ::
              && 0 <= k < n && files[k].name in required && read(k) == ReadError(Gather(files, required, read, n).error)
              && forall j :: 0 <= j < k && files[j].name in required ==> read(j).Text?
  {
    if Gather(files, required, read, n - 1).Failure? {
      GatherFailure(files, required, read, n - 1);
    } else {
      GatherSucceeds(files, required, read, n - 1);
      assert files[n - 1].name in required && read(n - 1) == ReadError(Gather(files, required, read, n).error);
    }
  }

  /** The keys of a completed map are exactly the required names that occur
      among the files read: unrelated files are ignored. */
  lemma {:induction false} GatherKeys(files: seq<SelectedFile>, required: seq<string>, read: nat -> ReadResult, n: nat)
    requires n <= |files|
    requires Gather(files, required, read, n).Success?
    ensures Gather(files, required, read, n).value.Keys == NamesSeen(files, required, n)
  {
    if n > 0 {
      GatherKeys(files, required, read, n - 1);
      var nm := files[n - 1].name;
      if nm in required && nm != PROTO_KEY {
        assert NamesSeen(files, required, n) == NamesSeen(files, required, n - 1) + {nm};
      } else {
        assert NamesSeen(files, required, n) == NamesSeen(files, required, n - 1);
      }
    }
  }

  /** The entry under a required name is the content of the LAST file with
      that name: a later file overwrites an earlier one. A file named
      `PROTO_KEY` is read but leaves no entry. */
  lemma {:induction false} GatherLastWins(files: seq<SelectedFile>, required: seq<string>, read: nat -> ReadResult, n: nat, k: nat)
    requires k < n <= |files|
    requires files[k].name in required
    requires forall j :: k < j < n ==> files[j].name != files[k].name
    requires Gather(files, required, read, n).Success?
    ensures read(k).Text?
    ensures files[k].name == PROTO_KEY ==> files[k].name !in Gather(files, required, read, n).value
    ensures files[k].name != PROTO_KEY ==>
              && files[k].name in Gather(files, required, read, n).value
              && Gather(files, required, read, n).value[files[k].name] == read(k).content
  {
    if k < n - 1 {
      GatherLastWins(files, required, read, n - 1, k);
    }
  }

  /** What one folder selection of at least five files publishes: the map,
      or the alert of the failure. A map with fewer keys than there are
      configured names is discarded. */
  function IngestOutcome(files: seq<SelectedFile>, required: seq<string>, read: nat -> ReadResult)
    : (r: Result<FileContents, Alert>)
    ensures r.Success? <==>
              Gather(files, required, read, |files|).Success? &&
              |Gather(files, required, read, |files|).value.Keys| >= |required|
    ensures r.Success? ==> r.value == Gather(files, required, read, |files|).value
    ensures Gather(files, required, read, |files|).Failure? ==>
              r == Failure(Message(ThrownText(Gather(files, required, read, |files|).error)))
    ensures r.Failure? && Gather(files, required, read, |files|).Success? ==> r == Failure(Message(FOLDER_INCOMPLETE))
  {
    match Gather(files, required, read, |files|)
    case Failure(t) => Failure(Message(ThrownText(t)))
    case Success(m) =>
      if |m.Keys| < |required| then Failure(Message(FOLDER_INCOMPLETE)) else Success(m)
  }

  /** A subset with as many elements as its superset is the superset. */
  lemma SubsetCard<T>(a: set<T>, b: set<T>)
    requires a <= b
    ensures |a| <= |b|
    ensures |a| == |b| ==> a == b
  {
    assert b == a + (b - a);
    assert |b| == |a| + |b - a|;
    if |a| == |b| {
      assert |b - a| == 0;
      assert b - a == {};
    }
  }

  /** An ingestion succeeds exactly when the four configured names are
      distinct, none is `PROTO_KEY`, each occurs among the selected files,
      and every required file reads; the map then has exactly the configured
      names as keys. So two coinciding configured names can never succeed. */
  lemma IngestSucceeds(files: seq<SelectedFile>, s: Settings, read: nat -> ReadResult)
    ensures IngestOutcome(files, RequiredNames(s), read).Success? <==>
              && Distinct(RequiredNames(s))
              && PROTO_KEY !in RequiredNames(s)
              && (forall k :: 0 <= k < |files| && files[k].name in RequiredNames(s) ==> read(k).Text?)
              && (forall nm :: nm in RequiredNames(s) ==> exists k :: 0 <= k < |files| && files[k].name == nm)
    ensures IngestOutcome(files, RequiredNames(s), read).Success? ==>
              IngestOutcome(files, RequiredNames(s), read).value.Keys == Elements(RequiredNames(s))
  {
    var req := RequiredNames(s);
    var n := |files|;
    GatherSucceeds(files, req, read, n);
    ElementsCard(req);
    if Gather(files, req, read, n).Success? {
      GatherKeys(files, req, read, n);
      var keys := Gather(files, req, read, n).value.Keys;
      var names := Elements(req);
      KeysWithinNames(Gather(files, req, read, n).value, req);
      if PROTO_KEY !in req {
        forall nm | nm in req
          ensures nm in keys <==> exists k :: 0 <= k < n && files[k].name == nm
        {
          NamesSeenMember(files, req, n, nm);
        }
        if |keys| >= |req| {
          SubsetCard(keys, names);
          assert keys == names;
        }
        if forall nm :: nm in req ==> exists k :: 0 <= k < n && files[k].name == nm {
          assert names <= keys;
          assert keys == names;
        }
      }
    }
  }

  /** A name is among those seen exactly when it is required, can be stored,
      and some file carries it. */
  lemma NamesSeenMember(files: seq<SelectedFile>, required: seq<string>, n: nat, nm: string)
    requires n <= |files|
    ensures nm in NamesSeen(files, required, n) <==>
              nm in required && nm != PROTO_KEY && exists k :: 0 <= k < n && files[k].name == nm
  {
  }

  /** The keys of a map built from the names of `req` are at most as many as
      its distinct names, and fewer when one of them is `PROTO_KEY`. */
  lemma KeysWithinNames(m: FileContents, req: seq<string>)
    requires forall key :: key in m ==> key in req && key != PROTO_KEY
    ensures m.Keys <= Elements(req)
    ensures |m.Keys| <= |Elements(req)|
    ensures PROTO_KEY in req ==> |m.Keys| < |Elements(req)|
  {
    var names := Elements(req);
    SubsetCard(m.Keys, names);
    if PROTO_KEY in req {
      var stored := names - {PROTO_KEY};
      assert names == stored + {PROTO_KEY};
      SubsetCard(m.Keys, stored);
    }
  }

  /** In a successful ingestion the entry under each configured name is the
      content of the last selected file with that name. */
  lemma IngestLastWins(files: seq<SelectedFile>, s: Settings, read: nat -> ReadResult, k: nat)
    requires k < |files| && files[k].name in RequiredNames(s)
    requires forall j :: k < j < |files| ==> files[j].name != files[k].name
    requires IngestOutcome(files, RequiredNames(s), read).Success?
    ensures read(k).Text?
    ensures files[k].name in IngestOutcome(files, RequiredNames(s), read).value
    ensures IngestOutcome(files, RequiredNames(s), read).value[files[k].name] == read(k).content
  {
    IngestSucceeds(files, s, read);
    GatherLastWins(files, RequiredNames(s), read, |files|, k);
  }

  // ---------------------------------------------------------------------
  // Request assembly and the server's reply

  /** The body of the POST to `/calculate`. A content field is `None` when
      the map has no entry under the configured name (`undefined`, which
      `JSON.stringify` leaves out). */
  datatype Payload = Payload(
    divNo: int,
    esRealContent: Option<string>,
    esImagContent: Option<string>,
    epRealContent: Option<string>,
    epImagContent: Option<string>,
    simpleSim: bool,
    alpha: JsNumber,
    fitting: bool,
    initialAlpha: JsNumber)

  /** `n || 0`: a falsy number is replaced by zero, so the result is never
      NaN. */
  function OrZero(n: JsNumber): (r: JsNumber)
    ensures !r.NaN?
    ensures Falsy(n) ==> r == Finite(0.0)
    ensures !Falsy(n) ==> r == n
  {
    if Falsy(n) then Finite(0.0) else n
  }

  /** `contents[name]`: the entry, or `undefined`. */
  function Lookup(contents: FileContents, name: string): Option<string> {
    if name in contents then Some(contents[name]) else None
  }

  /** The payload built from the settings, the map and the values captured
      when the handler started. */
  function BuildPayload(s: Settings, contents: FileContents, v: Values): (p: Payload)
    ensures p.divNo == s.divNo && p.simpleSim == v.simpleSim && p.fitting == v.fitting
    ensures !p.alpha.NaN? && !p.initialAlpha.NaN?
    ensures Falsy(v.alpha) ==> p.alpha == Finite(0.0)
    ensures !Falsy(v.alpha) ==> p.alpha == v.alpha
    ensures Falsy(v.initialAlpha) ==> p.initialAlpha == Finite(0.0)
    ensures !Falsy(v.initialAlpha) ==> p.initialAlpha == v.initialAlpha
    ensures Elements(RequiredNames(s)) <= contents.Keys ==>
              && p.esRealContent == Some(contents[s.esRealName])
              && p.esImagContent == Some(contents[s.esImagName])
              && p.epRealContent == Some(contents[s.epRealName])
              && p.epImagContent == Some(contents[s.epImagName])
  {
    Payload(
      s.divNo,
      Lookup(contents, s.esRealName),
      Lookup(contents, s.esImagName),
      Lookup(contents, s.epRealName),
      Lookup(contents, s.epImagName),
      v.simpleSim,
      OrZero(v.alpha),
      v.fitting,
      OrZero(v.initialAlpha))
  }

  /** The stored values after the handler's normalisation: the angle of a
      switched-off feature whose value is falsy becomes 0. */
  function Normalised(v: Values): (r: Values)
    ensures r.simpleSim == v.simpleSim && r.fitting == v.fitting
    ensures r.alpha == (if !v.simpleSim && Falsy(v.alpha) then Finite(0.0) else v.alpha)
    ensures r.initialAlpha == (if !v.fitting && Falsy(v.initialAlpha) then Finite(0.0) else v.initialAlpha)
  {
    var v1 := if !v.simpleSim && Falsy(v.alpha) then v.(alpha := Finite(0.0)) else v;
    if !v1.fitting && Falsy(v1.initialAlpha) then v1.(initialAlpha := Finite(0.0)) else v1
  }

  /** The server's reply as the handler sees it. */
  datatype Reply =
    | Delivered(result: CalcResult)          // `response.ok`, body parsed
    | Rejected(errorData: JValue)            // not ok, body parsed as JSON
    | BodyNotJson(message: string)           // `response.json()` rejected
    | NetworkFailure(message: string)        // `fetch` rejected

  /** `detail[0]?.msg` when `detail` is an array whose first element carries
      a truthy `msg`. */
  function FirstMsg(detail: Option<JValue>): (m: Option<JValue>)
    ensures m.Some? <==>
              && detail.Some? && detail.value.JArr? && |detail.value.items| > 0
              && Member(detail.value.items[0], "msg").Some?
              && Truthy(Member(detail.value.items[0], "msg").value)
    ensures m.Some? ==> m == Member(detail.value.items[0], "msg") && Truthy(m.value)
  {
    if detail.Some? && detail.value.JArr? && |detail.value.items| > 0 then
      var m := Member(detail.value.items[0], "msg");
      if m.Some? && Truthy(m.value) then m else None
    else None
  }

  /** The message chosen from an error body's `detail` (None: undefined):
      the first validation message, else a string detail, else the generic
      text. */
  function DetailMessage(detail: Option<JValue>): (msg: JValue)
    ensures FirstMsg(detail).Some? ==> msg == FirstMsg(detail).value
    ensures FirstMsg(detail).None? && detail.Some? && detail.value.JStr? ==> msg == detail.value
    ensures FirstMsg(detail).None? && !(detail.Some? && detail.value.JStr?) ==> msg == JStr(SERVER_FALLBACK)
    ensures msg.JStr? || Truthy(msg)
  {
    if FirstMsg(detail).Some? then FirstMsg(detail).value
    else if detail.Some? && detail.value.JStr? then detail.value
    else JStr(SERVER_FALLBACK)
  }

  /** What the user is told about a reply. */
  function ReplyAlert(reply: Reply): (a: Option<Alert>)
    ensures a.None? <==> reply.Delivered?
  {
    match reply
    case Delivered(_) => None
    case Rejected(errorData) =>
      if errorData == JNull then Some(NullBodyTypeError)
      else Some(ServerDetail(DetailMessage(Member(errorData, "detail"))))
    case BodyNotJson(m) => Some(Message(m))
    case NetworkFailure(m) => Some(Message(m))
  }

  /** The result stored for a reply. */
  function ReplyResult(reply: Reply): (r: Option<CalcResult>)
    ensures r.Some? <==> reply.Delivered?
  {
    if reply.Delivered? then Some(reply.result) else None
  }

  // ---------------------------------------------------------------------
  // The page state

  class Body {
    var settings: Settings
    var folderName: string
    var isReading: bool
    var isCalculating: bool
    var isError: bool
    var fileContents: Option<FileContents>
    var currentValues: Values
    var calculationResult: Option<CalcResult>

    /** Once the effects have run, a null map always raises the error flag. */
    ghost predicate Valid()
      reads this
    {
      fileContents.None? ==> isError
    }

    /** The first render followed by the mount effect. */
    constructor (settings: Settings, initialValues: Values)
      ensures Valid()
      ensures this.settings == settings && currentValues == initialValues
      ensures folderName == "" && !isReading && !isCalculating && isError
      ensures fileContents.None? && calculationResult.None?
    {
      this.settings := settings;
      folderName := "";
      isReading := false;
      isCalculating := false;
      isError := false;
      fileContents := None;
      currentValues := initialValues;
      calculationResult := None;
      new;
      FileContentsEffect();
    }

    /** The effect that follows every change of `fileContents`. */
    method FileContentsEffect()
      modifies this`isError
      ensures isError == (old(isError) || fileContents.None?)
    {
      if fileContents.None? {
        isError := true;
      }
    }

    /** `setFileContents(v)` and the effect it triggers. */
    method SetFileContents(v: Option<FileContents>)
      modifies this`fileContents, this`isError
      ensures fileContents == v
      ensures isError == (old(isError) || v.None?)
    {
      fileContents := v;
      FileContentsEffect();
    }

    /** A new settings value from the layout's context. */
    method ReceiveSettings(s: Settings)
      modifies this`settings
      ensures settings == s
    {
      settings := s;
    }

    /** The Browse button is disabled while reading or calculating. */
    function BrowseDisabled(): (disabled: bool)
      reads this
      ensures !disabled <==> !isReading && !isCalculating
    {
      isReading || isCalculating
    }

    /** The Start button is disabled while reading, calculating, or in the
      error state, so it is never enabled without a file-content map. */
    function StartDisabled(): (disabled: bool)
      reads this
      requires Valid()
      ensures !disabled ==> fileContents.Some? && !isReading && !isCalculating
      ensures fileContents.None? ==> disabled
    {
      isReading || isError || isCalculating
    }

    /** The folder picker's change handler. `readingThroughout` records that
        every file was read while `isReading` was set. */
    method HandleFolderName(files: Option<seq<SelectedFile>>, read: nat -> ReadResult)
      returns (alert: Option<Alert>, ghost readingThroughout: bool)
      requires Valid()
      modifies this
      ensures Valid()
      ensures files.None? || files == Some([]) ==> unchanged(this) && alert.None?
      ensures files.Some? && 0 < |files.value| < 5 ==>
                unchanged(this) && alert == Some(Message(FOLDER_INCOMPLETE))
      ensures files.Some? && |files.value| >= 5 ==>
                && readingThroughout
                && !isReading
                && folderName == SplitOn(files.value[0].webkitRelativePath, '/')[0]
                && (match IngestOutcome(files.value, RequiredNames(settings), read)
                    case Success(m) => fileContents == Some(m) && !isError && alert.None?
                    case Failure(a) => fileContents.None? && isError && alert == Some(a))
      ensures settings == old(settings) && isCalculating == old(isCalculating)
      ensures currentValues == old(currentValues) && calculationResult == old(calculationResult)
    {
      readingThroughout := true;
      if files.None? || |files.value| == 0 {
        return None, readingThroughout;
      }
      var fs := files.value;
      if |fs| < 5 {
        return Some(Message(FOLDER_INCOMPLETE)), readingThroughout;
      }
      isReading := true;
      SetFileContents(None);
      var required := RequiredNames(settings);
      var contents: FileContents := map[];
      var failure: Option<Thrown> := None;
      var i := 0;
      while i < |fs| && failure.None?
        invariant 0 <= i <= |fs|
        invariant isReading && readingThroughout && fileContents.None? && isError
        invariant settings == old(settings) && isCalculating == old(isCalculating)
        invariant currentValues == old(currentValues) && calculationResult == old(calculationResult)
        invariant failure.None? ==> Gather(fs, required, read, i) == Success(contents)
        invariant failure.Some? ==> Gather(fs, required, read, i) == Failure(failure.value)
      {
        if fs[i].name in required {
          readingThroughout := readingThroughout && isReading;
          match read(i) {
            case Text(c) => contents := Assign(contents, fs[i].name, c);
            case ReadError(t) => failure := Some(t);
          }
        }
        i := i + 1;
      }
      GatherFailureSticks(fs, required, read, i);
      if failure.Some? {
        isError := true;
        alert := Some(Message(ThrownText(failure.value)));
      } else if |contents.Keys| < |required| {
        isError := true;
        alert := Some(Message(FOLDER_INCOMPLETE));
      } else {
        SetFileContents(Some(contents));
        isError := false;
        alert := None;
      }
      isReading := false;
      folderName := SplitOn(fs[0].webkitRelativePath, '/')[0];
    }

    /** The handler of the simple-simulation switch. */
    method HandleSimpleSimCheckChange()
      modifies this`currentValues
      ensures currentValues == old(currentValues).(simpleSim := !old(currentValues).simpleSim)
    {
      currentValues := currentValues.(simpleSim := !currentValues.simpleSim);
    }

    /** The handler of the simulation angle input; `parsed` is `parseFloat`
        of the input's text. */
    method HandleSimpleSimAlphaChange(parsed: JsNumber)
      modifies this`currentValues
      ensures currentValues == old(currentValues).(alpha := parsed)
    {
      currentValues := currentValues.(alpha := parsed);
    }

    /** The handler of the least-squares switch. */
    method HandleFittingCheckChange()
      modifies this`currentValues
      ensures currentValues == old(currentValues).(fitting := !old(currentValues).fitting)
    {
      currentValues := currentValues.(fitting := !currentValues.fitting);
    }

    /** The handler of the initial-angle input. */
    method HandleInitialAlphaChange(parsed: JsNumber)
      modifies this`currentValues
      ensures currentValues == old(currentValues).(initialAlpha := parsed)
    {
      currentValues := currentValues.(initialAlpha := parsed);
    }

    /** The Start handler. `busyAndCleared` records that the request went
        out with `isCalculating` set and no result displayed. */
    method HandleExecute(server: Payload -> Reply)
      returns (sent: Option<Payload>, alert: Option<Alert>, ghost busyAndCleared: bool)
      requires Valid()
      modifies this`isCalculating, this`calculationResult, this`currentValues
      ensures Valid()
      ensures !isCalculating
      ensures old(fileContents).None? ==>
                && sent.None? && calculationResult.None?
                && currentValues == old(currentValues)
                && alert == Some(Message(NO_FILE_CONTENTS))
      ensures old(fileContents).Some? ==>
                && sent == Some(BuildPayload(settings, fileContents.value, old(currentValues)))
                && busyAndCleared
                && currentValues == Normalised(old(currentValues))
                && calculationResult == ReplyResult(server(sent.value))
                && alert == ReplyAlert(server(sent.value))
    {
      isCalculating := true;
      calculationResult := None;
      if fileContents.None? {
        alert := Some(Message(NO_FILE_CONTENTS));
        isCalculating := false;
        return None, alert, false;
      }
      var captured := currentValues;
      if !captured.simpleSim && Falsy(captured.alpha) {
        currentValues := currentValues.(alpha := Finite(0.0));
      }
      if !captured.fitting && Falsy(captured.initialAlpha) {
        currentValues := currentValues.(initialAlpha := Finite(0.0));
      }
      var payload := BuildPayload(settings, fileContents.value, captured);
      sent := Some(payload);
      busyAndCleared := isCalculating && calculationResult.None?;
      var reply := server(payload);
      calculationResult := ReplyResult(reply);
      alert := ReplyAlert(reply);
      isCalculating := false;
    }
  }

  /** Once the loop has failed, later files do not change the outcome. */
  lemma {:induction false} GatherFailureSticks(files: seq<SelectedFile>, required: seq<string>, read: nat -> ReadResult, i: nat)
    requires i <= |files|
    ensures Gather(files, required, read, i).Failure? ==>
              Gather(files, required, read, |files|) == Gather(files, required, read, i)
    decreases |files| - i
  {
    if i < |files| && Gather(files, required, read, i).Failure? {
      assert Gather(files, required, read, i + 1) == Gather(files, required, read, i);
      GatherFailureSticks(files, required, read, i + 1);
    }
  }
}
