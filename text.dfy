/**
 * String and number primitives with the semantics of the Rust standard library
 * calls the validators make (`split`, `split_once`, `trim`, `starts_with`,
 * `from_str_radix`, `parse`, `len`, `Display`/`Debug` formatting).
 * Strings are sequences of Unicode scalar values.
 */
module Text {
  import opened Wrappers

  type String = seq<char>

  const U16Bound: nat := 0x1_0000
  const U32Bound: nat := 0x1_0000_0000
  const U64Bound: nat := 0x1_0000_0000_0000_0000
  const I64Min: int := -0x8000_0000_0000_0000
  const I64Max: int := 0x7FFF_FFFF_FFFF_FFFF

  type I64 = x: int | I64Min <= x <= I64Max
  type U16 = x: int | 0 <= x < U16Bound
  type U32 = x: int | 0 <= x < U32Bound

  // ---------------------------------------------------------------- characters

  /** An ASCII decimal digit (the model's reading of the regex class `\d`). */
  predicate IsAsciiDigit(c: char) { '0' <= c <= '9' }

  /** The regex class `[0-9a-fA-F]`. */
  predicate IsHexDigit(c: char) { IsAsciiDigit(c) || 'a' <= c <= 'f' || 'A' <= c <= 'F' }

  /** Python's `string.ascii_letters + string.digits`. */
  predicate IsAsciiAlphanumeric(c: char) { 'a' <= c <= 'z' || 'A' <= c <= 'Z' || IsAsciiDigit(c) }

  /** The characters with the Unicode White_Space property, which Rust's `str::trim` removes. */
  predicate IsRustWhitespace(c: char) {
    ('\t' <= c <= '\r') || c == ' ' || c == '\U{0085}' || c == '\U{00A0}' || c == '\U{1680}'
    || ('\U{2000}' <= c <= '\U{200A}') || c == '\U{2028}' || c == '\U{2029}'
    || c == '\U{202F}' || c == '\U{205F}' || c == '\U{3000}'
  }

  predicate AllDigits(s: String) { forall i :: 0 <= i < |s| ==> IsAsciiDigit(s[i]) }

  predicate AllHex(s: String) { forall i :: 0 <= i < |s| ==> IsHexDigit(s[i]) }

  // ---------------------------------------------------------------- prefixes, suffixes, search

  predicate StartsWith(s: String, prefix: String) { |prefix| <= |s| && s[..|prefix|] == prefix }

  /** A text whose first character differs from the prefix's does not start with it. */
  lemma DiffersAtStart(s: String, prefix: String)
    requires s != [] && prefix != [] && s[0] != prefix[0]
    ensures !StartsWith(s, prefix)
  {
  }

  predicate EndsWith(s: String, suffix: String) { |suffix| <= |s| && s[|s| - |suffix|..] == suffix }

  /** The first position of `c` in `s`. */
  function IndexOf(s: String, c: char): (i: nat)
    requires c in s
    ensures i < |s| && s[i] == c && c !in s[..i]
  {
    if s[0] == c then 0
    else
      var j := IndexOf(s[1..], c);
      assert s[..j + 1] == [s[0]] + s[1..][..j];
      j + 1
  }

  /** `pat` occurs in `s` starting at position `i`. */
  predicate OccursAt(s: String, pat: String, i: nat) { i + |pat| <= |s| && s[i..i + |pat|] == pat }

  function FindFrom(s: String, pat: String, k: nat): (r: Option<nat>)
    requires k <= |s|
    ensures r.Some? ==> k <= r.value && OccursAt(s, pat, r.value)
    ensures r.Some? ==> forall j :: k <= j < r.value ==> !OccursAt(s, pat, j)
    ensures r.None? ==> forall j :: k <= j <= |s| ==> !OccursAt(s, pat, j)
    decreases |s| - k
  {
    if OccursAt(s, pat, k) then Some(k)
    else if k == |s| then None
    else FindFrom(s, pat, k + 1)
  }

  /** Rust's `str::find(&str)`: the first position at which `pat` occurs (0 for the empty pattern). */
  function Find(s: String, pat: String): (r: Option<nat>)
    ensures r.Some? ==> OccursAt(s, pat, r.value) && forall j :: 0 <= j < r.value ==> !OccursAt(s, pat, j)
    ensures r.None? ==> forall j :: 0 <= j <= |s| ==> !OccursAt(s, pat, j)
  {
    FindFrom(s, pat, 0)
  }

  /** Rust's `str::contains(&str)` and Python's `in` on strings. */
  predicate ContainsStr(s: String, pat: String) { Find(s, pat).Some? }

  // ---------------------------------------------------------------- splitting

  /** The pieces joined back together with `c` between them. */
  function Join(parts: seq<String>, c: char): String
  {
    if |parts| == 0 then []
    else if |parts| == 1 then parts[0]
    else parts[0] + [c] + Join(parts[1..], c)
  }

  /** `s.split(c)` (Rust `str::split(char)`, Python `str.split(sep)` with a one-character `sep`). */
  function Split(s: String, c: char): (r: seq<String>)
    ensures |r| >= 1
    ensures forall i :: 0 <= i < |r| ==> c !in r[i]
    ensures Join(r, c) == s
    decreases |s|
  {
    if c !in s then [s]
    else
      var i := IndexOf(s, c);
      assert s == s[..i] + [c] + s[i + 1..];
      [s[..i]] + Split(s[i + 1..], c)
  }

  /** Splitting a joined list of `c`-free pieces gives the pieces back. */
  lemma {:induction false} SplitOfJoin(parts: seq<String>, c: char)
    requires |parts| >= 1
    requires forall i :: 0 <= i < |parts| ==> c !in parts[i]
    ensures Split(Join(parts, c), c) == parts
    decreases |parts|
  {
    if |parts| > 1 {
      var rest := Join(parts[1..], c);
      SplitAfterFirst(parts[0], c, rest);
      SplitOfJoin(parts[1..], c);
      assert parts == [parts[0]] + parts[1..];
    }
  }

  /** Splitting `a + [c] + b` with `c` not in `a` splits off `a` and goes on with `b`. */
  lemma SplitAfterFirst(a: String, c: char, b: String)
    requires c !in a
    ensures Split(a + [c] + b, c) == [a] + Split(b, c)
  {
    var s := a + [c] + b;
    FirstSeparator(a, c, b);
    assert s[..|a|] == a;
    assert s[|a| + 1..] == b;
  }

  /** In `a + [c] + b` with `c` not in `a`, the first `c` is the one after `a`. */
  lemma FirstSeparator(a: String, c: char, b: String)
    requires c !in a
    ensures c in a + [c] + b && IndexOf(a + [c] + b, c) == |a|
  {
    var s := a + [c] + b;
    assert s[|a|] == c;
    var i := IndexOf(s, c);
    assert forall j :: 0 <= j < |a| ==> s[j] == a[j];
  }

  /** `s.split_once(c)`, `s.splitn(2, c)` and Python's `s.split(c, maxsplit=1)` when `c` occurs. */
  function SplitOnce(s: String, c: char): (r: Option<(String, String)>)
    ensures r.None? <==> c !in s
    ensures r.Some? ==> s == r.value.0 + [c] + r.value.1 && c !in r.value.0
  {
    if c in s then
      var i := IndexOf(s, c);
      assert s == s[..i] + [c] + s[i + 1..];
      Some((s[..i], s[i + 1..]))
    else None
  }

  /** `split_once` at a `c` is determined by the `c`-free text before it. */
  lemma SplitOnceOfConcat(a: String, c: char, b: String)
    requires c !in a
    ensures SplitOnce(a + [c] + b, c) == Some((a, b))
  {
    FirstSeparator(a, c, b);
    var s := a + [c] + b;
    assert s[..|a|] == a && s[|a| + 1..] == b;
  }

  /** Rust's `str::split_once(&str)`: split around the first occurrence of `sep`. */
  function SplitOnceStr(s: String, sep: String): (r: Option<(String, String)>)
    ensures r.None? <==> forall j :: 0 <= j <= |s| ==> !OccursAt(s, sep, j)
    ensures r.Some? ==> s == r.value.0 + sep + r.value.1
    ensures r.Some? ==> forall j :: 0 <= j < |r.value.0| ==> !OccursAt(s, sep, j)
  {
    match Find(s, sep)
    case None => None
    case Some(i) =>
      assert s == s[..i] + sep + s[i + |sep|..] by {
        assert s[i..i + |sep|] == sep;
      }
      Some((s[..i], s[i + |sep|..]))
  }

  /** The number of pieces is one more than the number of separators. */
  lemma {:induction false} SplitCount(s: String, c: char)
    ensures |Split(s, c)| == multiset(s)[c] + 1
    decreases |s|
  {
    if c in s {
      var i := IndexOf(s, c);
      assert s == s[..i] + [c] + s[i + 1..];
      assert multiset(s[..i])[c] == 0;
      SplitCount(s[i + 1..], c);
    } else {
      assert multiset(s)[c] == 0;
    }
  }

  /** With a one-character separator, `split_once(&str)` and `split_once(char)` agree. */
  lemma SplitOnceStrChar(s: String, c: char)
    ensures SplitOnceStr(s, [c]) == SplitOnce(s, c)
  {
    if c in s {
      var i := IndexOf(s, c);
      assert OccursAt(s, [c], i);
      assert forall j :: 0 <= j < i ==> s[j] == s[..i][j];
    }
  }

  /** The length of the longest prefix of `s` made of ASCII digits (a greedy `\d+`). */
  function LeadingDigits(s: String): (n: nat)
    ensures n <= |s| && AllDigits(s[..n])
    ensures n < |s| ==> !IsAsciiDigit(s[n])
  {
    if s != [] && IsAsciiDigit(s[0]) then
      var n := 1 + LeadingDigits(s[1..]);
      assert s[..n] == [s[0]] + s[1..][..n - 1];
      n
    else 0
  }

  /** `r` is `xs` with some elements left out, the rest in their order. */
  predicate IsSubsequence<T(==)>(r: seq<T>, xs: seq<T>)
    decreases |xs|
  {
    if r == [] then true
    else if xs == [] then false
    else (r[0] == xs[0] && IsSubsequence(r[1..], xs[1..])) || IsSubsequence(r, xs[1..])
  }

  /** `xs.filter(|s| s.starts_with(prefix))`. */
  function KeepWithPrefix(xs: seq<String>, prefix: String): (r: seq<String>)
    ensures forall s :: s in r <==> s in xs && StartsWith(s, prefix)
    ensures IsSubsequence(r, xs)
  {
    if xs == [] then []
    else
      var rest := KeepWithPrefix(xs[1..], prefix);
      assert xs == [xs[0]] + xs[1..];
      if StartsWith(xs[0], prefix) then
        var r := [xs[0]] + rest;
        assert r[1..] == rest;
        r
      else rest
  }

  /** Filtering a concatenation filters each part: the kept strings stay in their order. */
  lemma {:induction false} KeepWithPrefixConcat(a: seq<String>, b: seq<String>, prefix: String)
    ensures KeepWithPrefix(a + b, prefix) == KeepWithPrefix(a, prefix) + KeepWithPrefix(b, prefix)
    decreases |a|
  {
    if a == [] {
      assert a + b == b;
    } else {
      KeepWithPrefixConcat(a[1..], b, prefix);
      assert (a + b)[0] == a[0];
      assert (a + b)[1..] == a[1..] + b;
    }
  }

  /** Each string with the prefix is kept as often as it occurs, and no other string is. */
  lemma {:induction false} KeepWithPrefixCounts(xs: seq<String>, prefix: String, s: String)
    ensures multiset(KeepWithPrefix(xs, prefix))[s] == if StartsWith(s, prefix) then multiset(xs)[s] else 0
    decreases |xs|
  {
    if xs != [] {
      KeepWithPrefixCounts(xs[1..], prefix, s);
      assert xs == [xs[0]] + xs[1..];
      assert multiset(xs) == multiset{xs[0]} + multiset(xs[1..]);
    }
  }

  /** One string is kept exactly when it has the prefix. */
  lemma KeepWithPrefixSingle(x: String, prefix: String)
    ensures KeepWithPrefix([x], prefix) == if StartsWith(x, prefix) then [x] else []
  {
    assert [x][1..] == [];
  }

  /** Every string starts with the empty prefix, so nothing is filtered out. */
  lemma {:induction false} KeepWithEmptyPrefix(xs: seq<String>)
    ensures KeepWithPrefix(xs, "") == xs
  {
    if xs != [] {
      KeepWithEmptyPrefix(xs[1..]);
      assert xs == [xs[0]] + xs[1..];
    }
  }

  // ---------------------------------------------------------------- trimming

  /** Drop the leading characters that satisfy `p`. */
  function TrimStart(s: String, p: char -> bool): (r: String)
    ensures |r| <= |s| && r == s[|s| - |r|..]
    ensures r != [] ==> !p(r[0])
    ensures forall i :: 0 <= i < |s| - |r| ==> p(s[i])
  {
    if s != [] && p(s[0]) then TrimStart(s[1..], p) else s
  }

  /** Drop the trailing characters that satisfy `p`. */
  function TrimEnd(s: String, p: char -> bool): (r: String)
    ensures |r| <= |s| && r == s[..|r|]
    ensures r != [] ==> !p(r[|r| - 1])
    ensures forall i :: |r| <= i < |s| ==> p(s[i])
  {
    if s != [] && p(s[|s| - 1]) then TrimEnd(s[..|s| - 1], p) else s
  }

  /** Drop the characters that satisfy `p` at both ends. */
  function Trim(s: String, p: char -> bool): (r: String)
    ensures r != [] ==> !p(r[0]) && !p(r[|r| - 1])
  {
    TrimEnd(TrimStart(s, p), p)
  }

  /** A run of `p` characters in front of text that does not start with one is exactly what is dropped. */
  lemma {:induction false} TrimStartPrefix(a: String, x: String, p: char -> bool)
    requires forall i :: 0 <= i < |a| ==> p(a[i])
    requires x != [] ==> !p(x[0])
    ensures TrimStart(a + x, p) == x
    decreases |a|
  {
    if a != [] {
      assert (a + x)[1..] == a[1..] + x;
      TrimStartPrefix(a[1..], x, p);
    }
  }

  /** A run of `p` characters after text that does not end with one is exactly what is dropped. */
  lemma {:induction false} TrimEndSuffix(x: String, b: String, p: char -> bool)
    requires forall i :: 0 <= i < |b| ==> p(b[i])
    requires x != [] ==> !p(x[|x| - 1])
    ensures TrimEnd(x + b, p) == x
    decreases |b|
  {
    if b != [] {
      var b' := b[..|b| - 1];
      assert (x + b)[..|x + b| - 1] == x + b';
      TrimEndSuffix(x, b', p);
    }
  }

  /** One `p` character at each end of text that neither starts nor ends with one is what is stripped. */
  lemma TrimWrapped(a: char, j: String, b: char, p: char -> bool)
    requires p(a) && p(b)
    requires j != [] && !p(j[0]) && !p(j[|j| - 1])
    ensures Trim([a] + j + [b], p) == j
  {
    assert [a] + j + [b] == [a] + (j + [b]);
    TrimStartPrefix([a], j + [b], p);
    TrimEndSuffix(j, [b], p);
  }

  /** Text that neither starts nor ends with a `p` character is left as it is. */
  lemma TrimUnchanged(s: String, p: char -> bool)
    requires s != [] ==> !p(s[0]) && !p(s[|s| - 1])
    ensures Trim(s, p) == s
  {
  }

  /** A character that is neither the separator nor in any piece is not in the joined text. */
  lemma {:induction false} NotInJoin(parts: seq<String>, c: char, sep: char)
    requires c != sep
    requires forall i :: 0 <= i < |parts| ==> c !in parts[i]
    ensures c !in Join(parts, sep)
    decreases |parts|
  {
    if |parts| > 1 {
      NotInJoin(parts[1..], c, sep);
    }
  }

  /** Two or more pieces joined by `sep` contain `sep` right after the first piece. */
  lemma JoinHasSeparator(parts: seq<String>, sep: char)
    requires |parts| >= 2
    ensures sep in Join(parts, sep)
  {
    assert Join(parts, sep)[|parts[0]|] == sep;
  }

  /** Rust's `str::trim`. */
  function RustTrim(s: String): String
  {
    Trim(s, IsRustWhitespace)
  }

  /** Text that neither starts nor ends with white space is left as it is by `trim`. */
  lemma RustTrimUnchanged(s: String)
    requires s != [] ==> !IsRustWhitespace(s[0]) && !IsRustWhitespace(s[|s| - 1])
    ensures RustTrim(s) == s
  {
  }

  // ---------------------------------------------------------------- numbers

  /** A digit of the given radix (10 or 16), as Rust's `char::to_digit` accepts it. */
  predicate IsDigitIn(c: char, radix: nat)
  {
    if radix == 16 then IsHexDigit(c) else IsAsciiDigit(c)
  }

  predicate AllDigitsIn(s: String, radix: nat)
  {
    forall i :: 0 <= i < |s| ==> IsDigitIn(s[i], radix)
  }

  function DigitValue(c: char): (d: nat)
    requires IsHexDigit(c)
    ensures d < 16
    ensures IsAsciiDigit(c) ==> d < 10
  {
    if IsAsciiDigit(c) then c as int - '0' as int
    else if 'a' <= c <= 'f' then c as int - 'a' as int + 10
    else c as int - 'A' as int + 10
  }

  /** The value of a digit string, most significant digit first. */
  function DigitsValue(s: String, radix: nat): nat
    requires radix == 10 || radix == 16
    requires AllDigitsIn(s, radix)
  {
    if s == [] then 0
    else DigitsValue(s[..|s| - 1], radix) * radix + DigitValue(s[|s| - 1])
  }

  /**
   * `from_str_radix` (and `str::parse`) for an unsigned integer type whose values
   * are those below `bound`: an optional `+`, then one or more digits, with no overflow.
   */
  function ParseUnsigned(s: String, radix: nat, bound: nat): (r: Option<nat>)
    requires radix == 10 || radix == 16
    ensures r.Some? ==> r.value < bound
    ensures r.Some? ==> s != [] && s != "+"
  {
    if s == [] then None
    else if (s[0] == '+' || s[0] == '-') && |s| == 1 then None
    else
      var digits := if s[0] == '+' then s[1..] else s;
      if AllDigitsIn(digits, radix) && DigitsValue(digits, radix) < bound
      then Some(DigitsValue(digits, radix))
      else None
  }

  /** `str::parse::<i64>()`: an optional sign, then one or more ASCII digits, within the i64 range. */
  function ParseI64(s: String): (r: Option<int>)
    ensures r.Some? ==> I64Min <= r.value <= I64Max
  {
    if s == [] then None
    else if (s[0] == '+' || s[0] == '-') && |s| == 1 then None
    else
      var digits := if s[0] == '+' || s[0] == '-' then s[1..] else s;
      if !AllDigits(digits) then None
      else
        assert AllDigitsIn(digits, 10);
        var v := DigitsValue(digits, 10);
        var n: int := if s[0] == '-' then -(v as int) else v as int;
        if I64Min <= n <= I64Max then Some(n) else None
  }

  function DigitChar(d: nat): (c: char)
    requires d < 10
    ensures IsAsciiDigit(c) && DigitValue(c) == d
  {
    ('0' as int + d) as char
  }

  /** Decimal `Display` of a natural number. */
  function FormatNat(n: nat): (r: String)
    ensures |r| >= 1 && AllDigits(r) && AllDigitsIn(r, 10)
    ensures DigitsValue(r, 10) == n
  {
    if n < 10 then [DigitChar(n)]
    else
      var r := FormatNat(n / 10) + [DigitChar(n % 10)];
      assert r[..|r| - 1] == FormatNat(n / 10);
      r
  }

  /** Decimal `Display` of an integer. */
  function FormatInt(i: int): String
  {
    if i < 0 then "-" + FormatNat(-i) else FormatNat(i)
  }

  /** Parsing the decimal rendering of an i64 gives the number back. */
  lemma ParseFormatI64(i: int)
    requires I64Min <= i <= I64Max
    ensures ParseI64(FormatInt(i)) == Some(i)
  {
    if i < 0 {
      var s := FormatInt(i);
      assert s[1..] == FormatNat(-i);
    } else {
      var s := FormatInt(i);
      assert IsAsciiDigit(s[0]);
    }
  }

  /** Parsing the decimal rendering of a number below `bound` as an unsigned integer gives it back. */
  lemma ParseFormatUnsigned(n: nat, bound: nat)
    requires n < bound
    ensures ParseUnsigned(FormatNat(n), 10, bound) == Some(n)
  {
    var s := FormatNat(n);
    assert IsAsciiDigit(s[0]);
  }

  // ---------------------------------------------------------------- byte length

  function Utf8Width(c: char): (w: nat)
    ensures 1 <= w <= 4
  {
    if c as int < 0x80 then 1
    else if c as int < 0x800 then 2
    else if c as int < 0x1_0000 then 3
    else 4
  }

  /** Rust's `str::len`: the length in bytes of the UTF-8 encoding. */
  function Utf8Len(s: String): (n: nat)
    ensures n >= |s|
  {
    if s == [] then 0 else Utf8Len(s[..|s| - 1]) + Utf8Width(s[|s| - 1])
  }

  /** Hexadecimal digits are ASCII, so their byte length is their character count. */
  lemma {:induction false} HexUtf8Len(s: String)
    requires AllHex(s)
    ensures Utf8Len(s) == |s|
    decreases |s|
  {
    if s != [] {
      HexUtf8Len(s[..|s| - 1]);
    }
  }

  /** The byte length of a concatenation is the sum of the byte lengths. */
  lemma {:induction false} Utf8LenConcat(a: String, b: String)
    ensures Utf8Len(a + b) == Utf8Len(a) + Utf8Len(b)
    decreases |b|
  {
    if b != [] {
      assert (a + b)[..|a + b| - 1] == a + b[..|b| - 1];
      Utf8LenConcat(a, b[..|b| - 1]);
    } else {
      assert a + b == a;
    }
  }

  function Power(base: nat, n: nat): (p: nat)
    ensures base >= 1 ==> p >= 1
  {
    if n == 0 then 1 else base * Power(base, n - 1)
  }

  /** `n` digits of a radix denote a number below radix to the power `n`. */
  lemma {:induction false} DigitsValueBound(s: String, radix: nat)
    requires radix == 10 || radix == 16
    requires AllDigitsIn(s, radix)
    ensures DigitsValue(s, radix) < Power(radix, |s|)
    decreases |s|
  {
    if s != [] {
      var init := s[..|s| - 1];
      assert AllDigitsIn(init, radix) by {
        assert forall i :: 0 <= i < |init| ==> init[i] == s[i];
      }
      DigitsValueBound(init, radix);
      assert DigitValue(s[|s| - 1]) < radix;
      assert DigitsValue(s, radix) == DigitsValue(init, radix) * radix + DigitValue(s[|s| - 1]);
      assert DigitsValue(init, radix) * radix <= (Power(radix, |init|) - 1) * radix;
    }
  }

  // ---------------------------------------------------------------- formatting

  /** `'{}'` in a format string: the text between single quotes. */
  function Quoted(s: String): String
  {
    "'" + s + "'"
  }

  function HexDigitChar(d: nat): (c: char)
    requires d < 16
    ensures IsHexDigit(c) && !('A' <= c <= 'F') && DigitValue(c) == d
  {
    if d < 10 then DigitChar(d) else ('a' as int + d - 10) as char
  }

  /** `{:x}` of a natural number: lower-case hexadecimal digits, without leading zeros. */
  function FormatHex(n: nat): (r: String)
    ensures |r| >= 1 && AllDigitsIn(r, 16) && DigitsValue(r, 16) == n
    ensures n > 0 ==> r[0] != '0'
    ensures forall i :: 0 <= i < |r| ==> !('A' <= r[i] <= 'F')
  {
    if n < 16 then [HexDigitChar(n)]
    else
      var r := FormatHex(n / 16) + [HexDigitChar(n % 16)];
      assert r[..|r| - 1] == FormatHex(n / 16);
      r
  }

  /** The control characters (C0, DEL and C1) that Rust's `Debug` writes as `\u{..}` when they have no short escape. */
  predicate IsDebugControl(c: char)
  {
    c < ' ' || '\U{007F}' <= c <= '\U{009F}'
  }

  /**
   * Rust's `Debug` for `str`, without the quotes: the short escapes for `"`, `\\`, newline,
   * carriage return, tab and NUL, `\u{hex}` for the other control characters, and every
   * other character as it is.
   */
  function EscapeDebug(s: String): String
  {
    if s == [] then []
    else
      var c := s[0];
      var e := if c == '"' then "\\\"" else if c == '\\' then "\\\\"
               else if c == '\n' then "\\n" else if c == '\r' then "\\r"
               else if c == '\t' then "\\t" else if c == '\0' then "\\0"
               else if IsDebugControl(c) then "\\u{" + FormatHex(c as int) + "}" else [c];
      e + EscapeDebug(s[1..])
  }

  /** `{:?}` of a list of strings: `["a", "b"]`. */
  function DebugList(xs: seq<String>): String
  {
    "[" + DebugItems(xs) + "]"
  }

  function DebugItems(xs: seq<String>): String
  {
    if xs == [] then []
    else if |xs| == 1 then "\"" + EscapeDebug(xs[0]) + "\""
    else "\"" + EscapeDebug(xs[0]) + "\", " + DebugItems(xs[1..])
  }
}
