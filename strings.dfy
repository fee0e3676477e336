/** The string operations the source relies on: Python's whitespace rules
    (`str.isspace`, `str.strip()`, `str.split()` with no argument) and the
    split on a one-character separator that Python's `str.split(sep)` and
    JavaScript's `String.prototype.split(sep)` share. */
module Strings {

  /** Python's `str.isspace` for one character: ASCII tab to carriage
      return, space, the separators U+001C..U+001F, and the Unicode spaces. */
  predicate IsSpace(c: char) {
    || c == ' '
    || ('\t' <= c <= '\r')
    || ('\U{1C}' <= c <= '\U{1F}')
    || c == '\U{85}'
    || c == '\U{A0}'
    || c == '\U{1680}'
    || ('\U{2000}' <= c <= '\U{200A}')
    || c == '\U{2028}'
    || c == '\U{2029}'
    || c == '\U{202F}'
    || c == '\U{205F}'
    || c == '\U{3000}'
  }

  /** `s` holds no whitespace character. */
  predicate NoSpace(s: string) {
    forall i :: 0 <= i < |s| ==> !IsSpace(s[i])
  }

  /** `s` with its leading whitespace removed. */
  function TrimStart(s: string): (r: string)
    ensures |r| <= |s| && r == s[|s| - |r|..]
    ensures forall i :: 0 <= i < |s| - |r| ==> IsSpace(s[i])
    ensures r == [] || !IsSpace(r[0])
  {
    if s != [] && IsSpace(s[0]) then TrimStart(s[1..]) else s
  }

  /** `s` with its trailing whitespace removed. */
  function TrimEnd(s: string): (r: string)
    ensures |r| <= |s| && r == s[..|r|]
    ensures forall i :: |r| <= i < |s| ==> IsSpace(s[i])
    ensures r == [] || !IsSpace(r[|r| - 1])
  {
    if s != [] && IsSpace(s[|s| - 1]) then TrimEnd(s[..|s| - 1]) else s
  }

  /** Python's `s.strip()`: the part of `s` between its leading and its
      trailing whitespace. The result starts at offset `StripStart(s)`. */
  function Strip(s: string): (r: string)
    ensures StripStart(s) + |r| <= |s|
    ensures r == s[StripStart(s)..StripStart(s) + |r|]
    ensures forall i :: 0 <= i < StripStart(s) ==> IsSpace(s[i])
    ensures forall i :: StripStart(s) + |r| <= i < |s| ==> IsSpace(s[i])
    ensures r == [] || (!IsSpace(r[0]) && !IsSpace(r[|r| - 1]))
  {
    TrimEnd(TrimStart(s))
  }

  /** How many leading whitespace characters `Strip` drops. */
  function StripStart(s: string): nat {
    |s| - |TrimStart(s)|
  }

  /** The longest prefix of `s` holding no whitespace. */
  function Word(s: string): (w: string)
    ensures |w| <= |s| && w == s[..|w|] && NoSpace(w)
    ensures |w| == |s| || IsSpace(s[|w|])
  {
    if s == [] || IsSpace(s[0]) then [] else [s[0]] + Word(s[1..])
  }

  /** Python's `s.split()` with no separator: the maximal runs of
      non-whitespace characters, in order. */
  function Split(s: string): (words: seq<string>)
    ensures forall i :: 0 <= i < |words| ==> words[i] != [] && NoSpace(words[i])
    decreases |s|
  {
    var t := TrimStart(s);
    if t == [] then [] else
      var w := Word(t);
      assert |w| > 0 by { assert !IsSpace(t[0]); }
      [w] + Split(t[|w|..])
  }

  /** The pieces of `parts` written one after another with `sep` between
      neighbours (Python's `sep.join(parts)` for a one-character `sep`). */
  function Join(parts: seq<string>, sep: char): string {
    if parts == [] then ""
    else if |parts| == 1 then parts[0]
    else parts[0] + [sep] + Join(parts[1..], sep)
  }

  /** `s.split(sep)` for a one-character separator, in Python and in
      JavaScript alike: the pieces between occurrences of `sep`, empty pieces
      kept, so there is always at least one piece and joining them with `sep`
      gives `s` back. */
  function SplitOn(s: string, sep: char): (parts: seq<string>)
    ensures |parts| >= 1
    ensures forall i :: 0 <= i < |parts| ==> sep !in parts[i]
    ensures Join(parts, sep) == s
  {
    if s == [] then [""]
    else
      var rest := SplitOn(s[1..], sep);
      if s[0] == sep then [""] + rest
      else [[s[0]] + rest[0]] + rest[1..]
  }

  /** Splitting a separator-free word list joined by `sep` gives the list
      back: `SplitOn` and `Join` are inverse on non-empty lists of pieces
      that do not contain the separator. */
  lemma {:induction false} SplitOnJoin(parts: seq<string>, sep: char)
    requires |parts| >= 1
    requires forall i :: 0 <= i < |parts| ==> sep !in parts[i]
    ensures SplitOn(Join(parts, sep), sep) == parts
  {
    if |parts| == 1 {
      NoSeparatorIsOnePiece(parts[0], sep);
    } else {
      var tail := parts[1..];
      SplitOnJoin(tail, sep);
      SplitOnPrefix(parts[0], Join(tail, sep), sep);
    }
  }

  /** A piece without the separator is split into itself. */
  lemma {:induction false} NoSeparatorIsOnePiece(p: string, sep: char)
    requires sep !in p
    ensures SplitOn(p, sep) == [p]
  {
    if p != [] {
      NoSeparatorIsOnePiece(p[1..], sep);
      assert [p[0]] + p[1..] == p;
    }
  }

  /** Splitting `p + [sep] + rest`, with `p` separator-free, yields `p`
      followed by the pieces of `rest`. */
  lemma {:induction false} SplitOnPrefix(p: string, rest: string, sep: char)
    requires sep !in p
    ensures SplitOn(p + [sep] + rest, sep) == [p] + SplitOn(rest, sep)
  {
    if p == [] {
      assert ([] + [sep] + rest)[1..] == rest;
    } else {
      var s := p + [sep] + rest;
      assert s[0] == p[0];
      assert s[1..] == p[1..] + [sep] + rest;
      SplitOnPrefix(p[1..], rest, sep);
      assert [p[0]] + p[1..] == p;
    }
  }

  /** `s.split(sep)` is `[""]` exactly when `s` is empty. */
  lemma SplitOnEmpty(s: string, sep: char)
    ensures SplitOn(s, sep) == [""] <==> s == ""
  {
    if SplitOn(s, sep) == [""] {
      assert Join([""], sep) == "";
    }
  }

  /** Whitespace before the first word does not change `Split`. */
  lemma {:induction false} SplitSkipsSpace(c: char, s: string)
    requires IsSpace(c)
    ensures Split([c] + s) == Split(s)
  {
    assert ([c] + s)[1..] == s;
    assert TrimStart([c] + s) == TrimStart(s);
  }

  /** The longest whitespace-free prefix of `w + rest` is `w` when `rest`
      starts with whitespace or is empty. */
  lemma {:induction false} WordOfPrefix(w: string, rest: string)
    requires NoSpace(w)
    requires rest == [] || IsSpace(rest[0])
    ensures Word(w + rest) == w
  {
    if w != [] {
      assert (w + rest)[1..] == w[1..] + rest;
      WordOfPrefix(w[1..], rest);
      assert [w[0]] + w[1..] == w;
    } else {
      assert w + rest == rest;
    }
  }

  /** A leading non-empty word followed by whitespace (or nothing) is the
      first piece `Split` produces. */
  lemma SplitFirstWord(w: string, rest: string)
    requires w != [] && NoSpace(w)
    requires rest == [] || IsSpace(rest[0])
    ensures Split(w + rest) == [w] + Split(rest)
  {
    var s := w + rest;
    assert s[0] == w[0];
    assert TrimStart(s) == s;
    WordOfPrefix(w, rest);
    assert s[|w|..] == rest;
  }

  /** Joining a word in front of a non-empty list puts one space between. */
  lemma JoinCons(words: seq<string>, sep: char)
    requires |words| > 1
    ensures Join(words, sep) == words[0] + ([sep] + Join(words[1..], sep))
  {
  }

  /** The induction step of `SplitJoin`: a first word, one space, and the
      rest split into the word followed by the pieces of the rest. */
  lemma SplitJoinStep(w: string, tail: string)
    requires w != [] && NoSpace(w)
    ensures Split(w + ([' '] + tail)) == [w] + Split(tail)
  {
    SplitFirstWord(w, [' '] + tail);
    SplitSkipsSpace(' ', tail);
  }

  /** Non-empty, whitespace-free words: the lists `Split` produces. */
  predicate SplitWords(words: seq<string>) {
    forall i :: 0 <= i < |words| ==> words[i] != [] && NoSpace(words[i])
  }

  /** The words after the first of such a list are such a list. */
  lemma SplitWordsTail(words: seq<string>)
    requires |words| > 0 && SplitWords(words)
    ensures words[0] != [] && NoSpace(words[0])
    ensures SplitWords(words[1..])
  {
    var ws := words[1..];
    forall i | 0 <= i < |ws| ensures ws[i] != [] && NoSpace(ws[i]) {
      assert ws[i] == words[i + 1];
    }
  }

  /** Splitting words joined by single spaces gives the words back, provided
      each word is non-empty and holds no whitespace: `Split` inverts
      `Join(_, ' ')` on exactly the lists it can produce. */
  lemma {:induction false} SplitJoin(words: seq<string>)
    requires SplitWords(words)
    ensures Split(Join(words, ' ')) == words
  {
    if |words| == 1 {
      assert words[0] + "" == words[0];
      SplitFirstWord(words[0], "");
    } else if |words| > 1 {
      var w, ws := words[0], words[1..];
      assert words == [w] + ws;
      SplitWordsTail(words);
      SplitJoin(ws);
      JoinCons(words, ' ');
      SplitJoinStep(w, Join(ws, ' '));
    }
  }
}
