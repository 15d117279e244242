/**
 * The bootstrap tool tools/parse-kernel-params.py: it reads the kernel's
 * kernel-parameters.txt line by line and folds the tab-indented lines into
 * `Param` records keyed by name. The input is the sequence of texts its
 * `readline` calls return; the file itself, the printing and the command line
 * are not part of this model.
 */
module KernelParamsTool {
  import opened Wrappers
  import opened Text

  // ---------------------------------------------------------------- Python string primitives

  /** `str.isspace` for one character. */
  predicate IsPyWhitespace(c: char)
  {
    IsRustWhitespace(c) || ('\U{001C}' <= c <= '\U{001F}')
  }

  /** `str.lstrip()` with no argument. */
  function PyLstrip(s: String): (r: String)
    ensures |r| <= |s|
    ensures r != [] ==> !IsPyWhitespace(r[0])
  {
    if s != [] && IsPyWhitespace(s[0]) then PyLstrip(s[1..]) else s
  }

  /** `str.rstrip()` with no argument. */
  function PyRstrip(s: String): (r: String)
    ensures |r| <= |s|
    ensures r != [] ==> !IsPyWhitespace(r[|r| - 1])
    ensures r == s[..|r|] && forall i :: |r| <= i < |s| ==> IsPyWhitespace(s[i])
  {
    if s != [] && IsPyWhitespace(s[|s| - 1]) then PyRstrip(s[..|s| - 1]) else s
  }

  /** `str.strip()` with no argument. */
  function PyStrip(s: String): String { PyRstrip(PyLstrip(s)) }

  /** White space in front of text that does not start with white space is exactly what `lstrip` drops. */
  lemma {:induction false} LstripGap(a: String, x: String)
    requires IsGap(a)
    requires x != [] ==> !IsPyWhitespace(x[0])
    ensures PyLstrip(a + x) == x
    decreases |a|
  {
    if a != [] {
      assert (a + x)[1..] == a[1..] + x;
      LstripGap(a[1..], x);
    }
  }

  /** The length of the leading run of characters that are not white space. */
  function WordLength(s: String): (n: nat)
    ensures n <= |s|
    ensures forall i :: 0 <= i < n ==> !IsPyWhitespace(s[i])
    ensures n < |s| ==> IsPyWhitespace(s[n])
  {
    if s == [] || IsPyWhitespace(s[0]) then 0 else 1 + WordLength(s[1..])
  }

  /** The leading run of characters that are not white space. */
  function FirstWord(s: String): String { s[..WordLength(s)] }

  /**
   * `s.split(maxsplit=m)`: white space before each word is skipped, at most `m`
   * words are split off, and what is left keeps its trailing white space.
   */
  function PySplitWhitespace(s: String, maxsplit: nat): (r: seq<String>)
    ensures |r| <= maxsplit + 1
    ensures r == [] <==> PyLstrip(s) == []
    ensures forall i :: 0 <= i < |r| ==> r[i] != [] && !IsPyWhitespace(r[i][0])
    decreases |s|
  {
    var t := PyLstrip(s);
    if t == [] then []
    else if maxsplit == 0 then [t]
    else
      var n := WordLength(t);
      [t[..n]] + PySplitWhitespace(t[n..], maxsplit - 1)
  }

  lemma {:induction false} WordLengthOf(w: String, g: String)
    requires forall i :: 0 <= i < |w| ==> !IsPyWhitespace(w[i])
    requires g != [] ==> IsPyWhitespace(g[0])
    ensures WordLength(w + g) == |w|
    decreases |w|
  {
    if w != [] {
      assert (w + g)[1..] == w[1..] + g;
      WordLengthOf(w[1..], g);
    }
  }

  predicate IsWord(w: String)
  {
    w != [] && forall i :: 0 <= i < |w| ==> !IsPyWhitespace(w[i])
  }

  predicate IsGap(g: String)
  {
    forall i :: 0 <= i < |g| ==> IsPyWhitespace(g[i])
  }

  /** One word split off: the white space in front is skipped and the word ends at the next gap. */
  lemma SplitOneWord(lead: String, w: String, rest: String, maxsplit: nat)
    requires IsGap(lead) && IsWord(w)
    requires rest != [] ==> IsPyWhitespace(rest[0])
    requires maxsplit >= 1
    ensures PySplitWhitespace(lead + w + rest, maxsplit) == [w] + PySplitWhitespace(rest, maxsplit - 1)
  {
    assert lead + w + rest == lead + (w + rest);
    LstripGap(lead, w + rest);
    WordLengthOf(w, rest);
    assert (w + rest)[..|w|] == w;
    assert (w + rest)[|w|..] == rest;
  }

  /** Once the split limit is reached, what is left after the white space is one piece. */
  lemma SplitRest(lead: String, rest: String)
    requires IsGap(lead)
    requires rest != [] && !IsPyWhitespace(rest[0])
    ensures PySplitWhitespace(lead + rest, 0) == [rest]
  {
    LstripGap(lead, rest);
  }

  lemma SplitLastWord(gap1: String, w2: String, gap2: String, rest: String)
    requires IsGap(gap1) && IsGap(gap2) && gap2 != []
    requires IsWord(w2)
    requires rest != [] && !IsPyWhitespace(rest[0])
    ensures PySplitWhitespace(gap1 + w2 + (gap2 + rest), 1) == [w2, rest]
  {
    SplitRest(gap2, rest);
    assert (gap2 + rest)[0] == gap2[0];
    SplitOneWord(gap1, w2, gap2 + rest, 1);
  }

  /**
   * A parameter line laid out as white space, two words and a remainder, each
   * after a gap, splits into exactly those three pieces.
   */
  lemma SplitOfFields(lead: String, w1: String, gap1: String, w2: String, gap2: String, rest: String)
    requires IsGap(lead) && IsGap(gap1) && IsGap(gap2) && gap1 != [] && gap2 != []
    requires IsWord(w1) && IsWord(w2)
    requires rest != [] && !IsPyWhitespace(rest[0])
    ensures PySplitWhitespace(lead + w1 + gap1 + w2 + gap2 + rest, 2) == [w1, w2, rest]
  {
    var tail := gap1 + w2 + (gap2 + rest);
    calc {
      PySplitWhitespace(lead + w1 + gap1 + w2 + gap2 + rest, 2);
      { Regroup(lead, w1, gap1, w2, gap2, rest); }
      PySplitWhitespace(lead + w1 + tail, 2);
      { assert tail[0] == gap1[0]; SplitOneWord(lead, w1, tail, 2); }
      [w1] + PySplitWhitespace(tail, 1);
      { SplitLastWord(gap1, w2, gap2, rest); }
      [w1] + [w2, rest];
    }
  }

  lemma Regroup(a: String, b: String, c: String, d: String, e: String, f: String)
    ensures a + b + c + d + e + f == a + b + (c + d + (e + f))
  {
  }

  // ---------------------------------------------------------------- parse_flags

  predicate IsOpenBracket(c: char) { c == '[' }
  predicate IsCloseBracket(c: char) { c == ']' }

  /**
   * `parse_flags`: every leading `[` goes, then leading and trailing `]`, and the
   * rest is split at commas, so there is always at least one flag.
   */
  function ParseFlags(flags: String): (r: seq<String>)
    ensures |r| >= 1
    ensures forall i :: 0 <= i < |r| ==> ',' !in r[i]
  {
    Split(Trim(TrimStart(flags, IsOpenBracket), IsCloseBracket), ',')
  }

  lemma StripOpening(j: String)
    requires '[' !in j
    ensures TrimStart("[" + j + "]", IsOpenBracket) == j + "]"
  {
    var closed := j + "]";
    assert "[" + j + "]" == "[" + closed;
    assert closed[0] != '[' by {
      if j != [] { assert closed[0] == j[0] && j[0] in j; }
    }
    TrimStartPrefix("[", closed, IsOpenBracket);
  }

  lemma StripClosing(j: String)
    requires ']' !in j
    ensures Trim(j + "]", IsCloseBracket) == j
  {
    if j == [] {
      assert TrimStart(j + "]", IsCloseBracket) == [];
    } else {
      assert (j + "]")[0] == j[0] && j[0] in j;
      assert TrimStart(j + "]", IsCloseBracket) == j + "]";
      assert j[|j| - 1] in j;
      TrimEndSuffix(j, "]", IsCloseBracket);
    }
  }

  /** Brackets around bracket-free text are the only thing stripped. */
  lemma BracketsStripped(j: String)
    requires '[' !in j && ']' !in j
    ensures Trim(TrimStart("[" + j + "]", IsOpenBracket), IsCloseBracket) == j
  {
    StripOpening(j);
    StripClosing(j);
  }

  /** A bracketed comma list of bracket-free flags gives the flags back. */
  lemma ParseFlagsOfList(flags: seq<String>)
    requires |flags| >= 1
    requires forall i :: 0 <= i < |flags| ==> ',' !in flags[i] && '[' !in flags[i] && ']' !in flags[i]
    ensures ParseFlags("[" + Join(flags, ',') + "]") == flags
  {
    NotInJoin(flags, '[', ',');
    NotInJoin(flags, ']', ',');
    BracketsStripped(Join(flags, ','));
    SplitOfJoin(flags, ',');
  }

  // ---------------------------------------------------------------- parse_values

  /** `s.replace(pat, rep)`: left to right, a replaced occurrence is not scanned again. */
  function ReplaceAll(s: String, pat: String, rep: String): (r: String)
    requires pat != []
    ensures |rep| <= |pat| ==> |r| <= |s|
    decreases |s|
  {
    if |s| < |pat| then s
    else if s[..|pat|] == pat then rep + ReplaceAll(s[|pat|..], pat, rep)
    else [s[0]] + ReplaceAll(s[1..], pat, rep)
  }

  /** The pieces joined with the text `sep` between them. */
  function JoinWith(parts: seq<String>, sep: String): String
  {
    if |parts| == 0 then []
    else if |parts| == 1 then parts[0]
    else parts[0] + sep + JoinWith(parts[1..], sep)
  }

  const NestedOpen: String := "{ {"

  lemma {:induction false} ReplaceSkipsPlainText(p: String, q: String)
    requires '{' !in p
    ensures ReplaceAll(p + q, NestedOpen, "{") == p + ReplaceAll(q, NestedOpen, "{")
    decreases |p|
  {
    var s := p + q;
    assert |NestedOpen| == 3;
    if p == [] {
      assert s == q;
    } else if |s| < 3 {
      assert ReplaceAll(s, NestedOpen, "{") == s;
      assert ReplaceAll(q, NestedOpen, "{") == q;
    } else {
      assert s[..3] != NestedOpen by { assert s[0] == p[0] != '{'; }
      assert s[1..] == p[1..] + q;
      ReplaceSkipsPlainText(p[1..], q);
      assert p == [p[0]] + p[1..];
    }
  }

  /** Flattening a nested group: every `{ {` between brace-free pieces becomes `{`. */
  lemma {:induction false} FlattenNestedGroup(pieces: seq<String>)
    requires forall i :: 0 <= i < |pieces| ==> '{' !in pieces[i]
    ensures ReplaceAll(JoinWith(pieces, NestedOpen), NestedOpen, "{") == JoinWith(pieces, "{")
    decreases |pieces|
  {
    if |pieces| == 1 {
      ReplaceSkipsPlainText(pieces[0], []);
      assert pieces[0] + [] == pieces[0];
    } else if |pieces| > 1 {
      var rest := JoinWith(pieces[1..], NestedOpen);
      assert JoinWith(pieces, NestedOpen) == pieces[0] + (NestedOpen + rest);
      ReplaceSkipsPlainText(pieces[0], NestedOpen + rest);
      assert (NestedOpen + rest)[..3] == NestedOpen;
      assert (NestedOpen + rest)[3..] == rest;
      FlattenNestedGroup(pieces[1..]);
    }
  }

  predicate IsBrace(c: char) { c == '{' || c == '}' }

  /** The characters each value is stripped of: tab, space and both quote marks. */
  predicate IsValueBlank(c: char) { c == '\t' || c == ' ' || c == '"' || c == '\'' }

  predicate HasSeparator(s: String) { '|' in s || ',' in s }

  /**
   * `parse_values`: a nested `{ {` group is flattened first, the separator is `|`
   * when one occurs and `,` otherwise, and each item of the brace-stripped text
   * is stripped of blanks and quotes.
   */
  function ParseValues(values: String): (r: seq<String>)
    ensures |r| >= 1
    ensures forall i :: 0 <= i < |r| ==> r[i] != [] ==> !IsValueBlank(r[i][0]) && !IsValueBlank(r[i][|r[i]| - 1])
  {
    var flattened := if StartsWith(values, NestedOpen) then ReplaceAll(values, NestedOpen, "{") else values;
    var sep := if '|' in flattened then '|' else ',';
    StripValues(Split(Trim(flattened, IsBrace), sep))
  }

  /** Each item stripped of blanks and quotes. */
  function StripValues(items: seq<String>): (r: seq<String>)
    ensures |r| == |items|
    ensures forall i :: 0 <= i < |r| ==> r[i] != [] ==> !IsValueBlank(r[i][0]) && !IsValueBlank(r[i][|r[i]| - 1])
  {
    seq(|items|, i requires 0 <= i < |items| => Trim(items[i], IsValueBlank))
  }

  /** Choices are stripped of nothing. */
  lemma StripChoices(items: seq<String>)
    requires forall i :: 0 <= i < |items| ==> IsChoice(items[i])
    ensures StripValues(items) == items
  {
    forall i | 0 <= i < |items| ensures StripValues(items)[i] == items[i] {
      TrimUnchanged(items[i], IsValueBlank);
    }
  }

  /** An item as it appears in a choice list: no braces, and no blank or quote at either end. */
  predicate IsChoice(s: String)
  {
    s != [] && '{' !in s && '}' !in s && !IsValueBlank(s[0]) && !IsValueBlank(s[|s| - 1])
  }

  /** Braces around brace-free text are the only thing stripped. */
  lemma BracesStripped(j: String)
    requires '{' !in j && '}' !in j && j != []
    ensures Trim("{" + j + "}", IsBrace) == j
  {
    assert j[0] in j && j[|j| - 1] in j;
    TrimWrapped('{', j, '}', IsBrace);
  }

  /** Braced brace-free text is not a nested group. */
  lemma NotNested(j: String)
    requires '{' !in j && |j| >= 2
    ensures !StartsWith("{" + j + "}", NestedOpen)
  {
    assert ("{" + j + "}")[2] == j[1] && j[1] in j;
  }

  /** The separator `parse_values` picks for a braced list is the one it was joined with. */
  lemma SeparatorOfChoices(items: seq<String>, sep: char)
    requires sep == '|' || sep == ','
    requires |items| >= 2
    requires forall i :: 0 <= i < |items| ==> '|' !in items[i]
    ensures ('|' in "{" + Join(items, sep) + "}") <==> sep == '|'
  {
    var j := Join(items, sep);
    var s := "{" + j + "}";
    assert forall k :: 1 <= k < |s| - 1 ==> s[k] == j[k - 1];
    if sep == '|' {
      JoinHasSeparator(items, sep);
      assert s[1..|s| - 1] == j;
    } else {
      NotInJoin(items, '|', sep);
      assert forall k :: 0 <= k < |s| ==> s[k] != '|';
    }
  }

  /** Joined choices hold no braces and are at least three characters long. */
  lemma ChoicesJoined(items: seq<String>, sep: char)
    requires sep != '{' && sep != '}'
    requires |items| >= 2
    requires forall i :: 0 <= i < |items| ==> IsChoice(items[i])
    ensures '{' !in Join(items, sep) && '}' !in Join(items, sep) && |Join(items, sep)| >= 3
  {
    NotInJoin(items, '{', sep);
    NotInJoin(items, '}', sep);
    assert Join(items, sep) == items[0] + [sep] + Join(items[1..], sep);
  }

  /**
   * A braced list of two or more choices separated by `|`, or by `,` when no
   * choice contains `|`, gives the choices back.
   */
  lemma ParseValuesOfChoices(items: seq<String>, sep: char)
    requires sep == '|' || sep == ','
    requires |items| >= 2
    requires forall i :: 0 <= i < |items| ==> IsChoice(items[i]) && sep !in items[i] && '|' !in items[i]
    ensures ParseValues("{" + Join(items, sep) + "}") == items
  {
    var j := Join(items, sep);
    ChoicesJoined(items, sep);
    NotNested(j);
    BracesStripped(j);
    SeparatorOfChoices(items, sep);
    SplitOfJoin(items, sep);
    StripChoices(items);
  }

  // ---------------------------------------------------------------- the line-driven fold

  /** One kernel parameter as the tool collects it; `flags` is `None` when the line has none. */
  datatype Param = Param(name: String, flags: Option<seq<String>>, desc: String, fmt: String, values: seq<String>)

  /** The loop's variables: the finished parameters, the one being built and a pending value group. */
  datatype ToolState = ToolState(params: map<String, Param>, param: Option<Param>, formatLine: Option<String>)

  const Start: ToolState := ToolState(map[], None, None)

  /** A tab followed by an ASCII letter or digit. */
  predicate StartsParameter(line: String)
  {
    |line| >= 2 && line[0] == '\t' && IsAsciiAlphanumeric(line[1])
  }

  /** `name.split("=", maxsplit=1)`: the name and, when there is an `=`, what follows it. */
  function SplitName(word: String): (r: (String, Option<String>))
    ensures '=' !in r.0
    ensures r.1.None? <==> '=' !in word
    ensures r.1.None? ==> r.0 == word
    ensures r.1.Some? ==> word == r.0 + "=" + r.1.value
  {
    match SplitOnce(word, '=')
    case Some((name, value)) => (name, Some(value))
    case None => (word, None)
  }

  /**
   * The lines the loop body gets through: a bare tab fails on `line[1]`, and a
   * `sdw_mclk_divider` line without `=` fails on `name_parts[1]`.
   */
  predicate Processable(line: String)
  {
    line != "\t"
    && (StartsParameter(line) && SplitName(FirstWord(line[1..])).0 == "sdw_mclk_divider" ==> '=' in FirstWord(line[1..]))
  }

  /** The first piece of a parameter line is its first word. */
  lemma ParameterLineFields(line: String)
    requires StartsParameter(line)
    ensures PyLstrip(line) == line[1..]
    ensures |PySplitWhitespace(line, 2)| >= 1
    ensures PySplitWhitespace(line, 2)[0] == FirstWord(line[1..])
  {
    assert line == "\t" + line[1..];
    LstripGap("\t", line[1..]);
  }

  /** On the lines the loop gets through, the name field has an `=` when it is `sdw_mclk_divider`. */
  lemma NameFieldOfProcessable(line: String)
    requires StartsParameter(line) && Processable(line)
    ensures NameFieldReadable(PySplitWhitespace(line, 2))
  {
    ParameterLineFields(line);
  }

  /** Completing a parameter: an empty format becomes `"flag"` and it is stored under its name. */
  function Store(params: map<String, Param>, param: Option<Param>): map<String, Param>
  {
    match param
    case None => params
    case Some(p) => params[p.name := if p.fmt == "" then p.(fmt := "flag") else p]
  }

  /** The first field names the parameter; a `sdw_mclk_divider` name must be followed by `=`. */
  predicate NameFieldReadable(parts: seq<String>)
  {
    |parts| >= 1 && (SplitName(parts[0]).0 == "sdw_mclk_divider" ==> SplitName(parts[0]).1.Some?)
  }

  /** The parameter a parameter line starts: name, format after `=`, flags and description. */
  function NewParam(line: String): Param
    requires StartsParameter(line) && Processable(line)
  {
    NameFieldOfProcessable(line);
    ParamOfFields(PySplitWhitespace(line, 2))
  }

  /** The parameter read off the fields of its line. */
  function ParamOfFields(parts: seq<String>): Param
    requires NameFieldReadable(parts)
  {
    var nameParts := SplitName(parts[0]);
    var special := nameParts.0 == "sdw_mclk_divider" && nameParts.1 == Some("[SDW]");
    var flags := if special then Some(ParseFlags(nameParts.1.value))
                 else if |parts| > 1 then Some(ParseFlags(parts[1])) else None;
    var fmt := if special then "<int>"
               else if nameParts.1.Some? && nameParts.1.value != "" then nameParts.1.value else "";
    var desc := if |parts| > 2 then PyStrip(parts[2]) else "";
    Param(nameParts.0, flags, desc, fmt, [])
  }

  /** Python truthiness of `format_line`. */
  predicate Pending(formatLine: Option<String>) { formatLine.Some? && formatLine.value != "" }

  /** What a three-tab line changes: the parameter being built and the pending value group. */
  datatype Detail = Detail(param: Param, formatLine: Option<String>)

  /** The chain that glues `{...}` value groups, possibly spread over several lines. */
  function Glue(p: Param, formatLine: Option<String>, line: String): Detail
  {
    if StartsWith(line, "{") && HasSeparator(line) && EndsWith(line, "}") then
      Detail(p.(values := ParseValues(line), fmt := "enum"), formatLine)
    else if StartsWith(line, "{") && HasSeparator(line) then
      Detail(p, Some(line))
    else if Pending(formatLine) && HasSeparator(line) && EndsWith(line, "}") then
      Detail(p.(values := ParseValues(formatLine.value + line), fmt := "enum"), None)
    else if Pending(formatLine) && HasSeparator(line) then
      Detail(p, Some(formatLine.value + line))
    else if StartsWith(line, "{") && EndsWith(line, "}") then
      Detail(p.(fmt := Trim(line, IsBrace)), formatLine)
    else
      Detail(p.(desc := p.desc + "\n" + line), formatLine)
  }

  const FormatPrefix: String := "Format: "

  /** A line indented by three tabs, already stripped of the tabs and trailing white space. */
  function DetailLine(p: Param, formatLine: Option<String>, line: String): Detail
  {
    if StartsWith(line, FormatPrefix) then
      var rest := line[|FormatPrefix|..];
      if '{' !in rest && '}' !in rest && formatLine.None? then Detail(p.(fmt := rest), formatLine)
      else Glue(p, formatLine, rest)
    else Glue(p, formatLine, line)
  }

  /** A blank line extends the description of the parameter being built. */
  function BlankPhase(st: ToolState, line: String): ToolState
  {
    if line == "\n" && st.param.Some? then st.(param := Some(st.param.value.(desc := st.param.value.desc + "\n")))
    else st
  }

  /** A parameter line stores the parameter being built and starts the next one. */
  function StartPhase(st: ToolState, line: String): ToolState
    requires Processable(line)
  {
    if StartsParameter(line) then ToolState(Store(st.params, st.param), Some(NewParam(line)), st.formatLine)
    else st
  }

  /** A line indented by three tabs adds detail to the parameter being built. */
  function DetailPhase(st: ToolState, line: String): ToolState
  {
    if st.param.Some? && StartsWith(line, "\t\t\t") then
      var d := DetailLine(st.param.value, st.formatLine, PyRstrip(line[3..]));
      st.(param := Some(d.param), formatLine := d.formatLine)
    else st
  }

  /** One pass of the loop body. */
  function Step(st: ToolState, line: String): ToolState
    requires Processable(line)
  {
    DetailPhase(StartPhase(BlankPhase(st, line), line), line)
  }

  predicate AllProcessable(lines: seq<String>)
  {
    forall i :: 0 <= i < |lines| ==> Processable(lines[i])
  }

  /** The loop's state after the given lines. */
  function Run(lines: seq<String>): ToolState
    requires AllProcessable(lines)
    decreases |lines|
  {
    if lines == [] then Start
    else Step(Run(lines[..|lines| - 1]), lines[|lines| - 1])
  }

  /** One more line is one more step. */
  lemma RunStep(lines: seq<String>, i: nat)
    requires i < |lines| && AllProcessable(lines[..i + 1])
    ensures AllProcessable(lines[..i])
    ensures Run(lines[..i + 1]) == Step(Run(lines[..i]), lines[i])
  {
    assert lines[..i + 1][..i] == lines[..i];
    assert forall k :: 0 <= k < i ==> lines[..i][k] == lines[..i + 1][k];
  }

  /** How many `readline` results come before the empty text that marks the end of the file. */
  function LinesBeforeEof(lines: seq<String>): (n: nat)
    ensures n <= |lines|
    ensures forall i :: 0 <= i < n ==> lines[i] != ""
    ensures n < |lines| ==> lines[n] == ""
  {
    if lines == [] || lines[0] == "" then 0 else 1 + LinesBeforeEof(lines[1..])
  }

  /** Storing the finished parameter, if there is one. */
  method CompleteParameter(params: map<String, Param>, param: Option<Param>) returns (stored: map<String, Param>)
    ensures stored == Store(params, param)
  {
    stored := params;
    if param.Some? {
      var p := param.value;
      if p.fmt == "" {
        p := p.(fmt := "flag");
      }
      stored := stored[p.name := p];
    }
  }

  /** Reading the name, format, flags and description off the fields of a parameter line. */
  method ReadParameterLine(parts: seq<String>) returns (param: Param)
    requires NameFieldReadable(parts)
    ensures param == ParamOfFields(parts)
  {
    var nameParts := SplitName(parts[0]);
    var name := nameParts.0;
    var flags: Option<seq<String>>;
    var fmt: String;
    if name == "sdw_mclk_divider" && nameParts.1.value == "[SDW]" {
      flags := Some(ParseFlags(nameParts.1.value));
      fmt := "<int>";
    } else {
      flags := if |parts| > 1 then Some(ParseFlags(parts[1])) else None;
      fmt := if nameParts.1.Some? && nameParts.1.value != "" then nameParts.1.value else "";
    }
    var desc := if |parts| > 2 then PyStrip(parts[2]) else "";
    param := Param(name, flags, desc, fmt, []);
  }

  /** A three-tab line: a plain `Format:` line ends the pass early, the rest goes to the glue chain. */
  method ReadDetailLine(p: Param, formatLine: Option<String>, line: String) returns (q: Param, pending: Option<String>)
    ensures Detail(q, pending) == DetailLine(p, formatLine, line)
  {
    q, pending := p, formatLine;
    var text := line;
    if StartsWith(text, FormatPrefix) || StartsWith(text, "{") {
      if StartsWith(text, FormatPrefix) {
        text := text[|FormatPrefix|..];
        if '{' !in text && '}' !in text && pending.None? {
          q := q.(fmt := text);
          return;
        }
      }
    }
    if StartsWith(text, "{") && HasSeparator(text) && EndsWith(text, "}") {
      q := q.(values := ParseValues(text), fmt := "enum");
    } else if StartsWith(text, "{") && HasSeparator(text) {
      pending := Some(text);
    } else if pending.Some? && pending.value != "" && HasSeparator(text) && EndsWith(text, "}") {
      pending := Some(pending.value + text);
      q := q.(values := ParseValues(pending.value), fmt := "enum");
      pending := None;
    } else if pending.Some? && pending.value != "" && HasSeparator(text) {
      pending := Some(pending.value + text);
    } else if StartsWith(text, "{") && EndsWith(text, "}") {
      q := q.(fmt := Trim(text, IsBrace));
    } else {
      q := q.(desc := q.desc + "\n" + text);
    }
  }

  /** One pass of the loop body over the loop's variables. */
  method ProcessLine(params: map<String, Param>, param: Option<Param>, formatLine: Option<String>, line: String)
    returns (params': map<String, Param>, param': Option<Param>, formatLine': Option<String>)
    requires Processable(line)
    ensures ToolState(params', param', formatLine') == Step(ToolState(params, param, formatLine), line)
  {
    params', param', formatLine' := params, param, formatLine;
    if line == "\n" && param'.Some? {
      param' := Some(param'.value.(desc := param'.value.desc + "\n"));
    }
    ghost var afterBlank := ToolState(params', param', formatLine');
    assert afterBlank == BlankPhase(ToolState(params, param, formatLine), line);
    assert StartsWith(line, "\t") && |line| == 1 ==> line == "\t";
    if StartsWith(line, "\t") && IsAsciiAlphanumeric(line[1]) {
      params' := CompleteParameter(params', param');
      param' := None;
      NameFieldOfProcessable(line);
      var parts := PySplitWhitespace(line, 2);
      var p := ReadParameterLine(parts);
      param' := Some(p);
    }
    ghost var afterStart := ToolState(params', param', formatLine');
    assert afterStart == StartPhase(afterBlank, line);
    if param'.Some? && StartsWith(line, "\t\t\t") {
      var p, pending := ReadDetailLine(param'.value, formatLine', PyRstrip(line[3..]));
      param', formatLine' := Some(p), pending;
    }
    assert ToolState(params', param', formatLine') == DetailPhase(afterStart, line);
  }

  /**
   * `process_kernel_parameters` over the texts `readline` returns: the loop stops
   * at the first empty one, and the parameter still being built then is dropped.
   */
  method ProcessKernelParameters(lines: seq<String>) returns (params: map<String, Param>)
    requires AllProcessable(lines[..LinesBeforeEof(lines)])
    ensures params == Run(lines[..LinesBeforeEof(lines)]).params
  {
    var n := LinesBeforeEof(lines);
    params := map[];
    var param: Option<Param> := None;
    var formatLine: Option<String> := None;
    var i := 0;
    while i < |lines| && lines[i] != ""
      invariant i <= n
      invariant AllProcessable(lines[..i])
      invariant ToolState(params, param, formatLine) == Run(lines[..i])
    {
      assert AllProcessable(lines[..i + 1]) by {
        assert forall k :: 0 <= k <= i ==> lines[..i + 1][k] == lines[..n][k];
      }
      RunStep(lines, i);
      params, param, formatLine := ProcessLine(params, param, formatLine, lines[i]);
      i := i + 1;
    }
    assert i == n;
  }

  // ---------------------------------------------------------------- what the fold promises

  /**
   * A parameter line stores the parameter being built, with `"flag"` for an empty
   * format and over any earlier one of the same name, and starts a new parameter
   * named by its first word up to the first `=`, with no values yet.
   */
  lemma ParameterLineStartsParameter(st: ToolState, line: String)
    requires StartsParameter(line) && Processable(line)
    ensures st.param.None? ==> Step(st, line).params == st.params
    ensures st.param.Some? ==>
              var p := st.param.value;
              Step(st, line).params == st.params[p.name := p.(fmt := if p.fmt == "" then "flag" else p.fmt)]
    ensures Step(st, line).param.Some?
    ensures var name := Step(st, line).param.value.name;
            var word := FirstWord(line[1..]);
            '=' !in name && (name == word || StartsWith(word, name + "="))
    ensures Step(st, line).param.value.values == []
    ensures Step(st, line).formatLine == st.formatLine
  {
    StepOfParameterLine(st, line);
    NameOfParameterLine(line);
    if st.param.Some? {
      var p := st.param.value;
      assert p.fmt != "" ==> p.(fmt := p.fmt) == p;
    }
  }

  /** A parameter line is neither blank nor indented by three tabs. */
  lemma StepOfParameterLine(st: ToolState, line: String)
    requires StartsParameter(line) && Processable(line)
    ensures Step(st, line) == ToolState(Store(st.params, st.param), Some(NewParam(line)), st.formatLine)
  {
    assert line != "\n" by { assert line[0] == '\t'; }
    assert !StartsWith(line, "\t\t\t") by { assert line[1] != '\t'; }
  }

  lemma NameOfParameterLine(line: String)
    requires StartsParameter(line) && Processable(line)
    ensures var name := NewParam(line).name;
            var word := FirstWord(line[1..]);
            '=' !in name && (name == word || StartsWith(word, name + "="))
    ensures NewParam(line).values == []
  {
    ParameterLineFields(line);
    var word := FirstWord(line[1..]);
    var nameParts := SplitName(word);
    if nameParts.1.Some? {
      assert word == (nameParts.0 + "=") + nameParts.1.value;
      assert word[..|nameParts.0 + "="|] == nameParts.0 + "=";
    }
  }

  /** Only parameter lines change the stored parameters. */
  lemma OtherLineKeepsParams(st: ToolState, line: String)
    requires Processable(line) && !StartsParameter(line)
    ensures Step(st, line).params == st.params
  {
  }

  /**
   * Lines after the last parameter line leave the stored parameters as they
   * were, so the last parameter of the input is never stored.
   */
  lemma {:induction false} TrailingLinesKeepParams(xs: seq<String>, ys: seq<String>)
    requires AllProcessable(xs + ys)
    requires forall i :: 0 <= i < |ys| ==> !StartsParameter(ys[i])
    ensures AllProcessable(xs)
    ensures Run(xs + ys).params == Run(xs).params
    decreases |ys|
  {
    assert forall k :: 0 <= k < |xs| ==> xs[k] == (xs + ys)[k];
    if ys == [] {
      assert xs + ys == xs;
    } else {
      var ys' := ys[..|ys| - 1];
      var last := ys[|ys| - 1];
      var zs := xs + ys;
      assert zs[..|zs| - 1] == xs + ys';
      assert zs[|zs| - 1] == last;
      assert forall k :: 0 <= k < |xs + ys'| ==> (xs + ys')[k] == zs[k];
      assert AllProcessable(xs + ys');
      TrailingLinesKeepParams(xs, ys');
      assert Run(zs) == Step(Run(xs + ys'), last);
      OtherLineKeepsParams(Run(xs + ys'), last);
    }
  }

  /** An input with a single parameter line stores nothing at all. */
  lemma SingleParameterNotStored(first: String, ys: seq<String>)
    requires StartsParameter(first)
    requires AllProcessable([first] + ys)
    requires forall i :: 0 <= i < |ys| ==> !StartsParameter(ys[i])
    ensures Run([first] + ys).params == map[]
  {
    TrailingLinesKeepParams([first], ys);
    assert [first][..0] == [];
    ParameterLineStartsParameter(Start, first);
  }

  /** A blank line adds a line break to the description of the parameter being built. */
  lemma BlankLineExtendsDescription(st: ToolState)
    requires st.param.Some?
    ensures Step(st, "\n") == st.(param := Some(st.param.value.(desc := st.param.value.desc + "\n")))
  {
    assert !StartsWith("\n", "\t\t\t");
  }

  /** A line ending in a newline loses exactly that newline to `rstrip`. */
  lemma RstripNewline(text: String)
    requires text != [] ==> !IsPyWhitespace(text[|text| - 1])
    ensures PyRstrip(text + "\n") == text
  {
    assert (text + "\n")[..|text|] == text;
  }

  lemma DetailText(line: String, text: String)
    requires line == "\t\t\t" + text + "\n"
    requires text != [] ==> !IsPyWhitespace(text[|text| - 1])
    ensures Processable(line) && !StartsParameter(line) && line != "\n"
    ensures StartsWith(line, "\t\t\t") && PyRstrip(line[3..]) == text
  {
    assert line[3..] == text + "\n";
    RstripNewline(text);
  }

  /** A three-tab line hands its text, without the newline, to the detail handling. */
  lemma StepOfDetailLine(st: ToolState, text: String)
    requires st.param.Some?
    requires text != [] ==> !IsPyWhitespace(text[|text| - 1])
    ensures Processable("\t\t\t" + text + "\n")
    ensures var d := DetailLine(st.param.value, st.formatLine, text);
            Step(st, "\t\t\t" + text + "\n") == st.(param := Some(d.param), formatLine := d.formatLine)
  {
    DetailText("\t\t\t" + text + "\n", text);
  }

  /**
   * A three-tab line holding a whole `{a|b|...}` group sets the values and the
   * format `"enum"` of the parameter being built.
   */
  lemma ValueGroupLine(st: ToolState, text: String)
    requires st.param.Some?
    requires StartsWith(text, "{") && EndsWith(text, "}") && HasSeparator(text)
    requires !IsPyWhitespace(text[|text| - 1])
    ensures Processable("\t\t\t" + text + "\n")
    ensures var after := Step(st, "\t\t\t" + text + "\n");
            after == st.(param := Some(st.param.value.(values := ParseValues(text), fmt := "enum")))
  {
    StepOfDetailLine(st, text);
    GlueWholeGroup(st.param.value, st.formatLine, text);
  }

  lemma GlueWholeGroup(p: Param, formatLine: Option<String>, text: String)
    requires StartsWith(text, "{") && EndsWith(text, "}") && HasSeparator(text)
    ensures DetailLine(p, formatLine, text) == Detail(p.(values := ParseValues(text), fmt := "enum"), formatLine)
  {
    assert !StartsWith(text, FormatPrefix) by { assert text[0] == '{'; }
  }

  /**
   * The line that closes a group opened on an earlier line parses the glued text
   * and clears the pending group.
   */
  lemma ClosingGroupLine(st: ToolState, text: String)
    requires st.param.Some? && Pending(st.formatLine)
    requires text != [] && text[0] != '{' && !StartsWith(text, FormatPrefix)
    requires EndsWith(text, "}") && HasSeparator(text)
    requires !IsPyWhitespace(text[|text| - 1])
    ensures Processable("\t\t\t" + text + "\n")
    ensures var after := Step(st, "\t\t\t" + text + "\n");
            after.param == Some(st.param.value.(values := ParseValues(st.formatLine.value + text), fmt := "enum"))
            && after.formatLine.None? && after.params == st.params
  {
    StepOfDetailLine(st, text);
    GlueClosingGroup(st.param.value, st.formatLine, text);
  }

  lemma GlueClosingGroup(p: Param, formatLine: Option<String>, text: String)
    requires Pending(formatLine)
    requires text != [] && text[0] != '{' && !StartsWith(text, FormatPrefix)
    requires EndsWith(text, "}") && HasSeparator(text)
    ensures DetailLine(p, formatLine, text) == Detail(p.(values := ParseValues(formatLine.value + text), fmt := "enum"), None)
  {
    assert !StartsWith(text, "{");
  }

  /**
   * A `Format: x` line without braces, while no group is pending, sets the format
   * to `x` and nothing else.
   */
  lemma FormatLine(st: ToolState, x: String)
    requires st.param.Some? && st.formatLine.None?
    requires '{' !in x && '}' !in x
    requires x != [] && !IsPyWhitespace(x[|x| - 1])
    ensures Processable("\t\t\t" + FormatPrefix + x + "\n")
    ensures Step(st, "\t\t\t" + FormatPrefix + x + "\n") == st.(param := Some(st.param.value.(fmt := x)))
  {
    var text := FormatPrefix + x;
    assert "\t\t\t" + FormatPrefix + x + "\n" == "\t\t\t" + text + "\n";
    StepOfDetailLine(st, text);
    assert text[..|FormatPrefix|] == FormatPrefix;
    assert text[|FormatPrefix|..] == x;
  }
}
