/** The text-level logic of backend/DataArranger_func.py: reading a text
    file as stripped lines, slicing lines by 1-based line numbers,
    splitting lines into tokens, the blocks of lines `extractData` takes
    for a given division count, the name-tag dispatch of `setFileName` and
    the centre-index formula of `calcPolarization`. Float conversion is
    given as a token parser, or as a conversion of a whole block; the
    numerical work is not modelled. */
module DataArranger {
  import opened Wrappers
  import opened Strings

  // ---------------------------------------------------------------------
  // Lines of a file

  /** A Python slice bound for a list of length `len`: a negative bound
      counts from the end, and the result is clamped to 0..len. */
  function SliceBound(i: int, len: nat): (b: nat)
    ensures b <= len
    ensures 0 <= i <= len ==> b == i
    ensures -(len as int) <= i < 0 ==> b == i + len
    ensures i < -(len as int) ==> b == 0
    ensures len < i ==> b == len
  {
    if i < 0 then (if i + len < 0 then 0 else i + len)
    else if i > len then len
    else i
  }

  /** Python's `xs[lo:hi]`: the elements from the clamped lower bound up to
      the clamped upper bound, none when the upper does not exceed the
      lower. */
  function PySlice<T>(xs: seq<T>, lo: int, hi: int): (r: seq<T>)
    ensures |r| <= |xs|
    ensures var a, b := SliceBound(lo, |xs|), SliceBound(hi, |xs|);
            && |r| == (if a < b then b - a else 0)
            && forall k :: 0 <= k < |r| ==> r[k] == xs[a + k]
  {
    var a := SliceBound(lo, |xs|);
    var b := SliceBound(hi, |xs|);
    if a < b then xs[a..b] else []
  }

  /** A `fileReading` object: its path and the lines `readAll` stored. */
  datatype FileReading = FileReading(fPath: string, lines: seq<string>) {

    /** `readBetween(startLine, endLine)`: lines `startLine` up to but not
        including `endLine`, the first line being line 1. An end past the
        last line is cut off there, and an empty range gives no lines. */
    function ReadBetween(startLine: int, endLine: int): (r: seq<string>)
      ensures 1 <= startLine <= endLine <= |lines| + 1 ==>
                |r| == endLine - startLine && r == lines[startLine - 1..endLine - 1]
      ensures 1 <= startLine <= |lines| + 1 < endLine ==> r == lines[startLine - 1..]
      ensures 1 <= endLine <= startLine ==> r == []
    {
      PySlice(lines, startLine - 1, endLine - 1)
    }
  }

  /** `readAll`: one entry per line the file holds, each with its leading
      and trailing whitespace (the newline included) removed. */
  function ReadAll(rawLines: seq<string>): (lines: seq<string>)
    ensures |lines| == |rawLines|
    ensures forall i :: 0 <= i < |lines| ==>
              lines[i] == Strip(rawLines[i]) &&
              (lines[i] == [] || (!IsSpace(lines[i][0]) && !IsSpace(lines[i][|lines[i]| - 1])))
  {
    seq(|rawLines|, i requires 0 <= i < |rawLines| => Strip(rawLines[i]))
  }

  /** `fileReading(path)` for a file whose `readlines()` are `rawLines`. */
  function OpenFileReading(path: string, rawLines: seq<string>): (f: FileReading)
    ensures f.fPath == path && f.lines == ReadAll(rawLines)
  {
    FileReading(path, ReadAll(rawLines))
  }

  // ---------------------------------------------------------------------
  // Tokens and floats

  /** `divideStr`: every line split into its whitespace-separated tokens. */
  function DivideStr(arr: seq<string>): (rows: seq<seq<string>>)
    ensures |rows| == |arr|
    ensures forall i :: 0 <= i < |arr| ==> rows[i] == Split(arr[i])
  {
    seq(|arr|, i requires 0 <= i < |arr| => Split(arr[i]))
  }

  /** A line written as tokens separated by single spaces divides back into
      those tokens. */
  lemma DivideStrOfJoined(rows: seq<seq<string>>)
    requires forall i, j :: 0 <= i < |rows| && 0 <= j < |rows[i]| ==> rows[i][j] != [] && NoSpace(rows[i][j])
    ensures DivideStr(seq(|rows|, i requires 0 <= i < |rows| => Join(rows[i], ' '))) == rows
  {
    var lines := seq(|rows|, i requires 0 <= i < |rows| => Join(rows[i], ' '));
    forall i | 0 <= i < |rows| ensures DivideStr(lines)[i] == rows[i] {
      SplitJoin(rows[i]);
    }
  }

  /** `str2Float`: `parse` applied to every string; None when some string
      does not parse (Python raises ValueError). */
  function Str2Float<F>(arr: seq<string>, parse: string -> Option<F>): (r: Option<seq<F>>)
    ensures r.Some? <==> forall i :: 0 <= i < |arr| ==> parse(arr[i]).Some?
    ensures r.Some? ==> |r.value| == |arr| && forall i :: 0 <= i < |arr| ==> r.value[i] == parse(arr[i]).value
  {
    if arr == [] then Some([])
    else
      match parse(arr[0])
      case None => None
      case Some(x) =>
        match Str2Float(arr[1..], parse)
        case None => None
        case Some(xs) => Some([x] + xs)
  }

  /** `str2FloatArr`: `parse` applied to every string of every row; the rows
      keep their lengths. */
  function Str2FloatArr<F>(rows: seq<seq<string>>, parse: string -> Option<F>): (r: Option<seq<seq<F>>>)
    ensures r.Some? <==> forall i, j :: 0 <= i < |rows| && 0 <= j < |rows[i]| ==> parse(rows[i][j]).Some?
    ensures r.Some? ==>
              && |r.value| == |rows|
              && forall i :: 0 <= i < |rows| ==>
                   && |r.value[i]| == |rows[i]|
                   && forall j :: 0 <= j < |rows[i]| ==> r.value[i][j] == parse(rows[i][j]).value
  {
    if rows == [] then Some([])
    else
      match Str2Float(rows[0], parse)
      case None => None
      case Some(x) =>
        match Str2FloatArr(rows[1..], parse)
        case None => None
        case Some(xs) => Some([x] + xs)
  }

  // ---------------------------------------------------------------------
  // The line blocks extractData reads

  /** The `startLine` of block `k`: 0 the `uz` axis and 1 the `uy` axis
      (both from the Ep real file), 2 the field table (from every file). */
  function BlockStart(divNo: int, k: nat): int
    requires k < 3
  {
    if k == 0 then 4 else if k == 1 then 6 + divNo else 8 + 2 * divNo
  }

  /** The `endLine` of block `k`. */
  function BlockEnd(divNo: int, k: nat): int
    requires k < 3
  {
    if k == 0 then 4 + divNo else if k == 1 then 6 + 2 * divNo else 8 + 3 * divNo
  }

  /** The lines of block `k` of a file: for a non-negative division count
      and a file that reaches the block's end, exactly the lines from its
      start line up to its end line. */
  function Block(f: FileReading, divNo: int, k: nat): (b: seq<string>)
    requires k < 3
    ensures |b| <= |f.lines|
    ensures 0 <= divNo && BlockEnd(divNo, k) <= |f.lines| + 1 ==>
              b == f.lines[BlockStart(divNo, k) - 1..BlockEnd(divNo, k) - 1]
  {
    f.ReadBetween(BlockStart(divNo, k), BlockEnd(divNo, k))
  }

  /** The file layout `extractData` assumes: for a positive division count
      d, three blocks of d lines (lines 4..3+d, 6+d..5+2d, 8+2d..7+3d) in
      increasing order with two lines skipped before each later block. A
      file with at least 7+3d lines yields every block in full, and the
      last block is complete only then. */
  lemma BlockLayout(f: FileReading, d: int)
    requires d >= 1
    ensures forall k :: 0 <= k < 3 ==> BlockEnd(d, k) - BlockStart(d, k) == d
    ensures forall k :: 0 <= k < 2 ==> BlockStart(d, k + 1) == BlockEnd(d, k) + 2
    ensures BlockStart(d, 0) == 4 && BlockEnd(d, 2) - 1 == 7 + 3 * d
    ensures |f.lines| >= 7 + 3 * d ==>
              forall k :: 0 <= k < 3 ==>
                && |Block(f, d, k)| == d
                && Block(f, d, k) == f.lines[BlockStart(d, k) - 1..BlockEnd(d, k) - 1]
    ensures |Block(f, d, 2)| == d <==> |f.lines| >= 7 + 3 * d
  {
    var n := |f.lines|;
    if n < 7 + 3 * d {
      var b := Block(f, d, 2);
      if 7 + 2 * d < n {
        assert b == f.lines[7 + 2 * d..];
      } else {
        assert b == [];
      }
    }
  }

  /** The float conversion of a list of strings (`str2Float` with some
      parser), and of a two-level list (`str2FloatArr`). */
  type Conversion = seq<string> -> Option<seq<real>>
  type TableConversion = seq<seq<string>> -> Option<seq<seq<real>>>

  /** A coordinate block as numbers: block `k` (0 or 1), converted. */
  function AxisOf(f: FileReading, divNo: int, k: nat, toFloats: Conversion): Option<seq<real>>
    requires k < 2
  {
    toFloats(Block(f, divNo, k))
  }

  /** A field table as numbers: block 2 split into tokens, converted. */
  function TableOf(f: FileReading, divNo: int, toTable: TableConversion): Option<seq<seq<real>>> {
    toTable(DivideStr(Block(f, divNo, 2)))
  }

  /** With `str2Float` over a token parser, an axis converts exactly when
      every line of its block parses, and then holds one number per line. */
  lemma AxisOfParsed(f: FileReading, divNo: int, k: nat, parse: string -> Option<real>)
    requires k < 2
    ensures var r := AxisOf(f, divNo, k, a => Str2Float(a, parse));
            && (r.Some? <==> forall i :: 0 <= i < |Block(f, divNo, k)| ==> parse(Block(f, divNo, k)[i]).Some?)
            && (r.Some? ==> |r.value| == |Block(f, divNo, k)|)
  {
  }

  /** With `str2FloatArr` over a token parser, a table converts exactly
      when every token of every line of its block parses, and then holds one
      row per line. */
  lemma TableOfParsed(f: FileReading, divNo: int, parse: string -> Option<real>)
    ensures var r := TableOf(f, divNo, rows => Str2FloatArr(rows, parse));
            var tokens := DivideStr(Block(f, divNo, 2));
            && (r.Some? <==> forall i, j :: 0 <= i < |tokens| && 0 <= j < |tokens[i]| ==> parse(tokens[i][j]).Some?)
            && (r.Some? ==> |r.value| == |tokens| == |Block(f, divNo, 2)|)
  {
  }

  /** A two-level list of floats after `np.array`: current numpy raises a
      ValueError for ragged rows, so only a table whose rows all have the
      same length gets through. */
  function NpTable(t: Option<seq<seq<real>>>): (r: Option<seq<seq<real>>>)
    ensures r.Some? <==> t.Some? && forall i, j :: 0 <= i < |t.value| && 0 <= j < |t.value| ==> |t.value[i]| == |t.value[j]|
    ensures r.Some? ==> r == t
  {
    if t.Some? && forall i :: 0 <= i < |t.value| ==> |t.value[i]| == |t.value[0]| then t else None
  }

  /** `np.array(str2FloatArr(divideStr(...)))` over a token parser: a table
      converts exactly when every token of its block parses and every line
      of the block holds the same number of tokens; it then has one row
      per line. */
  lemma TableOfNumpy(f: FileReading, divNo: int, parse: string -> Option<real>)
    ensures var r := TableOf(f, divNo, rows => NpTable(Str2FloatArr(rows, parse)));
            var tokens := DivideStr(Block(f, divNo, 2));
            && (r.Some? <==>
                  && (forall i, j :: 0 <= i < |tokens| && 0 <= j < |tokens[i]| ==> parse(tokens[i][j]).Some?)
                  && (forall i, j :: 0 <= i < |tokens| && 0 <= j < |tokens| ==> |tokens[i]| == |tokens[j]|))
            && (r.Some? ==> r == TableOf(f, divNo, rows => Str2FloatArr(rows, parse)) && |r.value| == |Block(f, divNo, 2)|)
  {
    var tokens := DivideStr(Block(f, divNo, 2));
    var t := Str2FloatArr(tokens, parse);
    assert TableOf(f, divNo, rows => NpTable(Str2FloatArr(rows, parse))) == NpTable(t);
    assert TableOf(f, divNo, rows => Str2FloatArr(rows, parse)) == t;
    if t.Some? {
      SameRowLengths(t.value, tokens);
    }
  }

  /** Two tables with matching row lengths are ragged together. */
  lemma SameRowLengths<A, B>(a: seq<seq<A>>, b: seq<seq<B>>)
    requires |a| == |b| && forall i :: 0 <= i < |a| ==> |a[i]| == |b[i]|
    ensures (forall i, j :: 0 <= i < |a| && 0 <= j < |a| ==> |a[i]| == |a[j]|) <==>
            (forall i, j :: 0 <= i < |b| && 0 <= j < |b| ==> |b[i]| == |b[j]|)
  {
  }

  /** The arrays `extractData` produces: the two coordinate axes and the
      four field tables. */
  datatype Blocks = Blocks(
    uz: seq<real>,
    uy: seq<real>,
    esReal: seq<seq<real>>,
    esImag: seq<seq<real>>,
    epReal: seq<seq<real>>,
    epImag: seq<seq<real>>)

  /** The arrays taken from the four files for a division count, when every
      token in them parses. */
  function BlocksOf(esReal: FileReading, esImag: FileReading, epReal: FileReading, epImag: FileReading,
                    divNo: int, toFloats: Conversion, toTable: TableConversion): (b: Option<Blocks>)
    ensures b.Some? <==>
              && AxisOf(epReal, divNo, 0, toFloats).Some? && AxisOf(epReal, divNo, 1, toFloats).Some?
              && TableOf(esReal, divNo, toTable).Some? && TableOf(esImag, divNo, toTable).Some?
              && TableOf(epReal, divNo, toTable).Some? && TableOf(epImag, divNo, toTable).Some?
  {
    var uz := AxisOf(epReal, divNo, 0, toFloats);
    var uy := AxisOf(epReal, divNo, 1, toFloats);
    var esR := TableOf(esReal, divNo, toTable);
    var esI := TableOf(esImag, divNo, toTable);
    var epR := TableOf(epReal, divNo, toTable);
    var epI := TableOf(epImag, divNo, toTable);
    if uz.Some? && uy.Some? && esR.Some? && esI.Some? && epR.Some? && epI.Some?
    then Some(Blocks(uz.value, uy.value, esR.value, esI.value, epR.value, epI.value))
    else None
  }

  /** How many of the two axis assignments of `extractData` happen before
      the Ep real reader is missing (AttributeError) or a conversion fails
      (ValueError): `uz` is assigned when the reader exists and its first
      block converts, and `uy` also when the second block converts. */
  function AxisSteps(epReal: Option<FileReading>, divNo: int, toFloats: Conversion): (n: nat)
    ensures n <= 2
    ensures n >= 1 <==> epReal.Some? && AxisOf(epReal.value, divNo, 0, toFloats).Some?
    ensures n == 2 <==> n >= 1 && AxisOf(epReal.value, divNo, 1, toFloats).Some?
  {
    if epReal.None? || AxisOf(epReal.value, divNo, 0, toFloats).None? then 0
    else if AxisOf(epReal.value, divNo, 1, toFloats).None? then 1
    else 2
  }

  /** How many of the four table assignments happen before a reader is
      missing or a conversion fails: the k-th table (Es real, Es imaginary,
      Ep real, Ep imaginary) is assigned when the tables before it were and
      its own reader exists and its table block converts. */
  function TableSteps(esReal: Option<FileReading>, esImag: Option<FileReading>,
                      epReal: Option<FileReading>, epImag: Option<FileReading>,
                      divNo: int, toTable: TableConversion): (n: nat)
    ensures n <= 4
    ensures n >= 1 <==> esReal.Some? && TableOf(esReal.value, divNo, toTable).Some?
    ensures n >= 2 <==> n >= 1 && esImag.Some? && TableOf(esImag.value, divNo, toTable).Some?
    ensures n >= 3 <==> n >= 2 && epReal.Some? && TableOf(epReal.value, divNo, toTable).Some?
    ensures n == 4 <==> n >= 3 && epImag.Some? && TableOf(epImag.value, divNo, toTable).Some?
  {
    if esReal.None? || TableOf(esReal.value, divNo, toTable).None? then 0
    else if esImag.None? || TableOf(esImag.value, divNo, toTable).None? then 1
    else if epReal.None? || TableOf(epReal.value, divNo, toTable).None? then 2
    else if epImag.None? || TableOf(epImag.value, divNo, toTable).None? then 3
    else 4
  }

  /** How many of the six array assignments of `extractData` happen: the
      tables are reached only once both axes are assigned. */
  function ExtractionSteps(esReal: Option<FileReading>, esImag: Option<FileReading>,
                           epReal: Option<FileReading>, epImag: Option<FileReading>,
                           divNo: int, toFloats: Conversion, toTable: TableConversion): (n: nat)
    ensures n <= 6
    ensures n < 2 ==> n == AxisSteps(epReal, divNo, toFloats)
    ensures n >= 2 <==> AxisSteps(epReal, divNo, toFloats) == 2
    ensures n >= 2 ==> n - 2 == TableSteps(esReal, esImag, epReal, epImag, divNo, toTable)
  {
    var axes := AxisSteps(epReal, divNo, toFloats);
    if axes < 2 then axes else 2 + TableSteps(esReal, esImag, epReal, epImag, divNo, toTable)
  }

  /** All six assignments happen exactly when every reader exists and every
      conversion succeeds, and then the arrays are those of `BlocksOf`. */
  lemma ExtractionComplete(esReal: Option<FileReading>, esImag: Option<FileReading>,
                           epReal: Option<FileReading>, epImag: Option<FileReading>,
                           divNo: int, toFloats: Conversion, toTable: TableConversion)
    ensures ExtractionSteps(esReal, esImag, epReal, epImag, divNo, toFloats, toTable) == 6 <==>
              && esReal.Some? && esImag.Some? && epReal.Some? && epImag.Some?
              && BlocksOf(esReal.value, esImag.value, epReal.value, epImag.value, divNo, toFloats, toTable).Some?
  {
  }

  // ---------------------------------------------------------------------
  // The centre index

  /** `int(np.ceil(d / 2))` for an integer `d`. */
  function CeilHalf(d: int): int {
    if d % 2 == 0 then d / 2 else d / 2 + 1
  }

  /** `calcPolarization`'s index of the sample at, or nearest above, the
      origin: the ceiling of d/2 for even d, one less for odd d. For both
      parities this is d/2 rounded down, which lies inside 0..d-1 for every
      positive d and is the exact middle for odd d. */
  function CentreIndex(divNo: int): (ind: int)
    ensures ind == divNo / 2
    ensures divNo >= 1 ==> 0 <= ind < divNo
    ensures divNo % 2 == 1 ==> ind == divNo - 1 - ind
  {
    if divNo % 2 == 0 then CeilHalf(divNo) else CeilHalf(divNo) - 1
  }

  // ---------------------------------------------------------------------
  // The arranger

  /** The four field components a filename can be set for. */
  datatype Component = EsReal | EsImag | EpReal | EpImag

  /** The component `setFileName` updates for a tag: the three named tags
      select their own component, and every other tag selects Ep imaginary. */
  function ComponentOf(tag: string): (c: Component)
    ensures c == EsReal <==> tag == "EsReal"
    ensures c == EsImag <==> tag == "EsImag"
    ensures c == EpReal <==> tag == "EpReal"
    ensures c == EpImag <==> tag != "EsReal" && tag != "EsImag" && tag != "EpReal"
  {
    if tag == "EsReal" then EsReal
    else if tag == "EsImag" then EsImag
    else if tag == "EpReal" then EpReal
    else EpImag
  }

  class Arranger {
    var divNo: int
    /** 0 as the constructor sets it; `setSimpleSim` stores a bool, which
        Python treats as the integer 0 or 1. */
    var simpleSim: int
    var alpha: real
    /** 1: the monitor is on the opposite side, 0: on the same side. */
    var monitorSide: int
    var esRealName: string
    var esImagName: string
    var epRealName: string
    var epImagName: string
    /** Attributes that exist only once a method has set them. */
    var folderPath: Option<string>
    var esFileReal: Option<FileReading>
    var esFileImag: Option<FileReading>
    var epFileReal: Option<FileReading>
    var epFileImag: Option<FileReading>
    var uz: Option<seq<real>>
    var uy: Option<seq<real>>
    var esReal: Option<seq<seq<real>>>
    var esImag: Option<seq<seq<real>>>
    var epReal: Option<seq<seq<real>>>
    var epImag: Option<seq<seq<real>>>
    var ind: Option<int>

    constructor ()
      ensures divNo == 201 && simpleSim == 0 && alpha == 0.0 && monitorSide == 1
      ensures esRealName == "Es_real.txt" && esImagName == "Es_imag.txt"
      ensures epRealName == "Ep_real.txt" && epImagName == "Ep_imag.txt"
      ensures folderPath.None?
      ensures esFileReal.None? && esFileImag.None? && epFileReal.None? && epFileImag.None?
      ensures uz.None? && uy.None? && esReal.None? && esImag.None? && epReal.None? && epImag.None?
      ensures ind.None?
    {
      divNo := 201;
      simpleSim := 0;
      alpha := 0.0;
      monitorSide := 1;
      esRealName := "Es_real.txt";
      esImagName := "Es_imag.txt";
      epRealName := "Ep_real.txt";
      epImagName := "Ep_imag.txt";
      folderPath := None;
      esFileReal, esFileImag, epFileReal, epFileImag := None, None, None, None;
      uz, uy := None, None;
      esReal, esImag, epReal, epImag := None, None, None, None;
      ind := None;
    }

    method SetFolderPath(folderPath: string)
      modifies this`folderPath
      ensures this.folderPath == Some(folderPath)
    {
      this.folderPath := Some(folderPath);
    }

    method SetDivisionNo(divNo: int)
      modifies this`divNo
      ensures this.divNo == divNo
    {
      this.divNo := divNo;
    }

    method SetSimpleSim(simpleSim: bool)
      modifies this`simpleSim
      ensures this.simpleSim == if simpleSim then 1 else 0
    {
      this.simpleSim := if simpleSim then 1 else 0;
    }

    method SetAlpha(alpha: real)
      modifies this`alpha
      ensures this.alpha == alpha
    {
      this.alpha := alpha;
    }

    method SetMonitorSide(monitorSide: int)
      modifies this`monitorSide
      ensures this.monitorSide == monitorSide
    {
      this.monitorSide := monitorSide;
    }

    /** Sets the filename of the component the tag selects; the other three
        names stay. */
    method SetFileName(fileName: string, tag: string)
      modifies this`esRealName, this`esImagName, this`epRealName, this`epImagName
      ensures esRealName == if ComponentOf(tag) == EsReal then fileName else old(esRealName)
      ensures esImagName == if ComponentOf(tag) == EsImag then fileName else old(esImagName)
      ensures epRealName == if ComponentOf(tag) == EpReal then fileName else old(epRealName)
      ensures epImagName == if ComponentOf(tag) == EpImag then fileName else old(epImagName)
    {
      if tag == "EsReal" {
        esRealName := fileName;
      } else if tag == "EsImag" {
        esImagName := fileName;
      } else if tag == "EpReal" {
        epRealName := fileName;
      } else {
        epImagName := fileName;
      }
    }

    /** The path `fileInput` opens for a filename. */
    function PathOf(name: string): string
      reads this
      requires folderPath.Some?
    {
      folderPath.value + "/" + name
    }

    /** The file for `name` can be opened. */
    predicate Readable(disk: map<string, seq<string>>, name: string)
      reads this
    {
      folderPath.Some? && PathOf(name) in disk
    }

    /** The reader `fileInput` creates for `name`. */
    function Opened(disk: map<string, seq<string>>, name: string): FileReading
      reads this
      requires Readable(disk, name)
    {
      OpenFileReading(PathOf(name), disk[PathOf(name)])
    }

    /** `fileInput` over a file system given as path to lines. The four
        readers are created in order; a missing folder path or file raises,
        keeping the readers created before it. */
    method FileInput(disk: map<string, seq<string>>) returns (ok: bool)
      modifies this`esFileReal, this`esFileImag, this`epFileReal, this`epFileImag
      ensures ok <==> Readable(disk, esRealName) && Readable(disk, esImagName) &&
                      Readable(disk, epRealName) && Readable(disk, epImagName)
      ensures esFileReal == if Readable(disk, esRealName)
                            then Some(Opened(disk, esRealName)) else old(esFileReal)
      ensures esFileImag == if Readable(disk, esRealName) && Readable(disk, esImagName)
                            then Some(Opened(disk, esImagName)) else old(esFileImag)
      ensures epFileReal == if Readable(disk, esRealName) && Readable(disk, esImagName) && Readable(disk, epRealName)
                            then Some(Opened(disk, epRealName)) else old(epFileReal)
      ensures epFileImag == if ok then Some(Opened(disk, epImagName)) else old(epFileImag)
    {
      if !Readable(disk, esRealName) {
        return false;
      }
      esFileReal := Some(Opened(disk, esRealName));
      if !Readable(disk, esImagName) {
        return false;
      }
      esFileImag := Some(Opened(disk, esImagName));
      if !Readable(disk, epRealName) {
        return false;
      }
      epFileReal := Some(Opened(disk, epRealName));
      if !Readable(disk, epImagName) {
        return false;
      }
      epFileImag := Some(Opened(disk, epImagName));
      ok := true;
    }

    /** The six arrays, once `extractData` has produced all of them. */
    function Extracted(): Option<Blocks>
      reads this
    {
      if uz.Some? && uy.Some? && esReal.Some? && esImag.Some? && epReal.Some? && epImag.Some?
      then Some(Blocks(uz.value, uy.value, esReal.value, esImag.value, epReal.value, epImag.value))
      else None
    }

    /** Lines 90-91 of `extractData`: the two axes from the Ep real file. */
    method ExtractAxes(toFloats: Conversion) returns (ok: bool)
      modifies this`uz, this`uy
      ensures ok <==> AxisSteps(epFileReal, divNo, toFloats) == 2
      ensures uz == if AxisSteps(epFileReal, divNo, toFloats) >= 1 then AxisOf(epFileReal.value, divNo, 0, toFloats) else old(uz)
      ensures uy == if ok then AxisOf(epFileReal.value, divNo, 1, toFloats) else old(uy)
    {
      if epFileReal.None? {
        return false;
      }
      var axisZ := AxisOf(epFileReal.value, divNo, 0, toFloats);
      if axisZ.None? {
        return false;
      }
      uz := axisZ;
      var axisY := AxisOf(epFileReal.value, divNo, 1, toFloats);
      if axisY.None? {
        return false;
      }
      uy := axisY;
      ok := true;
    }

    /** Lines 102-107 of `extractData`: the field tables of the Es real, Es
        imaginary, Ep real and Ep imaginary files. */
    method ExtractTables(toTable: TableConversion) returns (ok: bool)
      modifies this`esReal, this`esImag, this`epReal, this`epImag
      ensures ok <==> TableSteps(esFileReal, esFileImag, epFileReal, epFileImag, divNo, toTable) == 4
      ensures esReal == if TableSteps(esFileReal, esFileImag, epFileReal, epFileImag, divNo, toTable) >= 1
                        then TableOf(esFileReal.value, divNo, toTable) else old(esReal)
      ensures esImag == if TableSteps(esFileReal, esFileImag, epFileReal, epFileImag, divNo, toTable) >= 2
                        then TableOf(esFileImag.value, divNo, toTable) else old(esImag)
      ensures epReal == if TableSteps(esFileReal, esFileImag, epFileReal, epFileImag, divNo, toTable) >= 3
                        then TableOf(epFileReal.value, divNo, toTable) else old(epReal)
      ensures epImag == if ok then TableOf(epFileImag.value, divNo, toTable) else old(epImag)
    {
      if esFileReal.None? {
        return false;
      }
      var tableEsR := TableOf(esFileReal.value, divNo, toTable);
      if tableEsR.None? {
        return false;
      }
      esReal := tableEsR;
      if esFileImag.None? {
        return false;
      }
      var tableEsI := TableOf(esFileImag.value, divNo, toTable);
      if tableEsI.None? {
        return false;
      }
      esImag := tableEsI;
      if epFileReal.None? {
        return false;
      }
      var tableEpR := TableOf(epFileReal.value, divNo, toTable);
      if tableEpR.None? {
        return false;
      }
      epReal := tableEpR;
      if epFileImag.None? {
        return false;
      }
      var tableEpI := TableOf(epFileImag.value, divNo, toTable);
      if tableEpI.None? {
        return false;
      }
      epImag := tableEpI;
      ok := true;
    }

    /** The line and token part of `extractData`: the two axes, then the
        four field tables, each block converted with `toFloats` or
        `toTable`. A missing reader or a failed conversion raises, keeping
        the arrays assigned before it; on success the six arrays are those
        of `BlocksOf`. */
    method ExtractData(toFloats: Conversion, toTable: TableConversion) returns (ok: bool)
      modifies this`uz, this`uy, this`esReal, this`esImag, this`epReal, this`epImag
      ensures ok <==> ExtractionSteps(esFileReal, esFileImag, epFileReal, epFileImag, divNo, toFloats, toTable) == 6
      ensures uz == if AxisSteps(epFileReal, divNo, toFloats) >= 1 then AxisOf(epFileReal.value, divNo, 0, toFloats) else old(uz)
      ensures uy == if AxisSteps(epFileReal, divNo, toFloats) >= 2 then AxisOf(epFileReal.value, divNo, 1, toFloats) else old(uy)
      ensures AxisSteps(epFileReal, divNo, toFloats) < 2 ==>
                esReal == old(esReal) && esImag == old(esImag) && epReal == old(epReal) && epImag == old(epImag)
      ensures AxisSteps(epFileReal, divNo, toFloats) == 2 ==>
                var tables := TableSteps(esFileReal, esFileImag, epFileReal, epFileImag, divNo, toTable);
                && esReal == (if tables >= 1 then TableOf(esFileReal.value, divNo, toTable) else old(esReal))
                && esImag == (if tables >= 2 then TableOf(esFileImag.value, divNo, toTable) else old(esImag))
                && epReal == (if tables >= 3 then TableOf(epFileReal.value, divNo, toTable) else old(epReal))
                && epImag == (if tables >= 4 then TableOf(epFileImag.value, divNo, toTable) else old(epImag))
      ensures ok ==> Extracted() ==
                       BlocksOf(esFileReal.value, esFileImag.value, epFileReal.value, epFileImag.value, divNo, toFloats, toTable)
      ensures esFileReal.Some? && esFileImag.Some? && epFileReal.Some? && epFileImag.Some? ==>
                (ok <==> BlocksOf(esFileReal.value, esFileImag.value, epFileReal.value, epFileImag.value, divNo, toFloats, toTable).Some?)
    {
      ok := ExtractAxes(toFloats);
      if ok {
        ok := ExtractTables(toTable);
      }
      ExtractionComplete(esFileReal, esFileImag, epFileReal, epFileImag, divNo, toFloats, toTable);
    }

    /** The index step of `calcPolarization`. */
    method CalcPolarization()
      modifies this`ind
      ensures ind == Some(CentreIndex(divNo))
    {
      ind := Some(if divNo % 2 == 0 then CeilHalf(divNo) else CeilHalf(divNo) - 1);
    }
  }
}
