/**
 * The kernel validators of src/validators/kernel.rs: cpu_list (with optional
 * flag prefix and `^` exclusions), memory_range and io_range.
 */
module KernelValidators {
  import opened Wrappers
  import opened Text
  import opened Toml
  import opened Validation

  // ---------------------------------------------------------------- cpu_list items

  /** The captures of `^(\^?)(\d+)(-(\d+))?$` on one trimmed item. */
  datatype CpuCaptures = CpuCaptures(exclusion: bool, start: String, end: Option<String>)

  /** The text `\d+(-\d+)?`. */
  predicate CpuRangeText(body: String)
  {
    (body != [] && AllDigits(body))
    || exists i :: 0 < i < |body| - 1 && body[i] == '-' && AllDigits(body[..i]) && AllDigits(body[i + 1..])
  }

  /** The text `\^?\d+(-\d+)?`. */
  predicate CpuItemText(t: String)
  {
    CpuRangeText(t) || (t != [] && t[0] == '^' && CpuRangeText(t[1..]))
  }

  /** The number a run of decimal digits denotes. */
  function DecimalValue(s: String): nat
    requires AllDigits(s)
  {
    assert AllDigitsIn(s, 10);
    DigitsValue(s, 10)
  }

  /** A run of decimal digits whose value is below `bound` parses as that value. */
  lemma ParseDecimal(s: String, bound: nat)
    requires s != [] && AllDigits(s) && DecimalValue(s) < bound
    ensures ParseUnsigned(s, 10, bound) == Some(DecimalValue(s))
  {
    assert IsAsciiDigit(s[0]);
  }

  /** Matching `\d+(-\d+)?`: split at the first `-`, digits on both sides. */
  function MatchCpuRange(body: String): (r: Option<(String, Option<String>)>)
    ensures r.Some? ==> r.value.0 != [] && AllDigits(r.value.0)
    ensures r.Some? && r.value.1.Some? ==> r.value.1.value != [] && AllDigits(r.value.1.value)
    ensures r.Some? && r.value.1.None? ==> body == r.value.0
    ensures r.Some? && r.value.1.Some? ==> body == r.value.0 + "-" + r.value.1.value
  {
    match SplitOnce(body, '-')
    case None => if body != [] && AllDigits(body) then Some((body, None)) else None
    case Some((a, b)) =>
      if a != [] && AllDigits(a) && b != [] && AllDigits(b) then Some((a, Some(b))) else None
  }

  /** The matcher accepts exactly the text of the regular expression. */
  lemma MatchCpuRangeIsRegex(body: String)
    ensures MatchCpuRange(body).Some? <==> CpuRangeText(body)
  {
    if MatchCpuRange(body).Some? {
      MatchCpuRangeSound(body);
    }
    if CpuRangeText(body) {
      MatchCpuRangeComplete(body);
    }
  }

  lemma MatchCpuRangeSound(body: String)
    requires MatchCpuRange(body).Some?
    ensures CpuRangeText(body)
  {
    var r := MatchCpuRange(body);
    if r.value.1.Some? {
      var a := r.value.0;
      assert body[..|a|] == a && body[|a| + 1..] == r.value.1.value && body[|a|] == '-';
    }
  }

  lemma MatchCpuRangeComplete(body: String)
    requires CpuRangeText(body)
    ensures MatchCpuRange(body).Some?
  {
    if body != [] && AllDigits(body) {
      CpuRangeOfDigits(body);
    } else {
      var i :| 0 < i < |body| - 1 && body[i] == '-' && AllDigits(body[..i]) && AllDigits(body[i + 1..]);
      assert body == body[..i] + "-" + body[i + 1..];
      CpuRangeOfParts(body[..i], body[i + 1..]);
    }
  }

  /** A digit run alone is a single CPU. */
  lemma CpuRangeOfDigits(body: String)
    requires body != [] && AllDigits(body)
    ensures MatchCpuRange(body) == Some((body, None))
  {
    assert forall k :: 0 <= k < |body| ==> body[k] != '-';
  }

  /** Two digit runs around a dash are a range. */
  lemma CpuRangeOfParts(a: String, b: String)
    requires a != [] && AllDigits(a) && b != [] && AllDigits(b)
    ensures MatchCpuRange(a + "-" + b) == Some((a, Some(b)))
  {
    assert forall k :: 0 <= k < |a| ==> a[k] != '-';
    SplitOnceOfConcat(a, '-', b);
  }

  /** Matching one trimmed item (the optional `^` is taken greedily; no digit is a `^`). */
  function MatchCpuItem(t: String): (r: Option<CpuCaptures>)
    ensures r.Some? ==> r.value.start != [] && AllDigits(r.value.start)
    ensures r.Some? && r.value.end.Some? ==> r.value.end.value != [] && AllDigits(r.value.end.value)
  {
    var exclusion := t != [] && t[0] == '^';
    var body := if exclusion then t[1..] else t;
    match MatchCpuRange(body)
    case None => None
    case Some((start, end)) => Some(CpuCaptures(exclusion, start, end))
  }

  /** The item matcher accepts exactly the text `\^?\d+(-\d+)?`. */
  lemma MatchCpuItemIsRegex(t: String)
    ensures MatchCpuItem(t).Some? <==> CpuItemText(t)
  {
    MatchCpuRangeIsRegex(t);
    if t != [] {
      MatchCpuRangeIsRegex(t[1..]);
      if t[0] == '^' {
        assert !CpuRangeText(t) by {
          assert !IsAsciiDigit(t[0]);
          assert forall i :: 0 < i <= |t| ==> t[..i][0] == t[0];
        }
      }
    }
  }

  /** What a matched item means: `^` only where exclusions are supported, ranges strictly ascending. */
  predicate CapturesAccepted(c: CpuCaptures, supportsExclusion: bool)
    requires AllDigits(c.start) && (c.end.Some? ==> AllDigits(c.end.value))
  {
    (c.exclusion ==> supportsExclusion)
    && (c.end.Some? ==> DecimalValue(c.start) < DecimalValue(c.end.value))
  }

  predicate CpuItemAccepted(t: String, supportsExclusion: bool)
  {
    MatchCpuItem(t).Some? && CapturesAccepted(MatchCpuItem(t).value, supportsExclusion)
  }

  /** Every comma-separated part, trimmed, is an accepted item. */
  predicate CpuListAccepted(cpuList: String, supportsExclusion: bool)
  {
    var parts := Split(cpuList, ',');
    forall i :: 0 <= i < |parts| ==> CpuItemAccepted(RustTrim(parts[i]), supportsExclusion)
  }

  /**
   * No `parse::<u32>().unwrap()` panics on one matched item: its start is parsed
   * before the exclusion check and its end after it.
   */
  predicate CpuItemFits(t: String, supportsExclusion: bool)
  {
    var m := MatchCpuItem(t);
    m.None?
    || (DecimalValue(m.value.start) < U32Bound
        && ((m.value.exclusion && !supportsExclusion) || m.value.end.None?
            || DecimalValue(m.value.end.value) < U32Bound))
  }

  /** No item is parsed after the first rejected one. */
  predicate CpuItemsFit(parts: seq<String>, supportsExclusion: bool, k: nat)
    requires k <= |parts|
    decreases |parts| - k
  {
    k == |parts|
    || (CpuItemFits(RustTrim(parts[k]), supportsExclusion)
        && (CpuItemAccepted(RustTrim(parts[k]), supportsExclusion) ==> CpuItemsFit(parts, supportsExclusion, k + 1)))
  }

  /** The body of the loop of `validate_cpu_list` for one trimmed item: no error, or the one it reports. */
  function CheckCpuItem(trimmed: String, supportsExclusion: bool): (r: Option<ValidationResult>)
    requires CpuItemFits(trimmed, supportsExclusion)
    ensures r.None? <==> CpuItemAccepted(trimmed, supportsExclusion)
    ensures r.Some? ==> r.value.Error?
  {
    match MatchCpuItem(trimmed)
    case None => Some(Error("Invalid CPU specification: " + Quoted(trimmed)))
    case Some(c) =>
      ParseDecimal(c.start, U32Bound);
      var start := ParseUnsigned(c.start, 10, U32Bound).Extract();
      if c.exclusion && !supportsExclusion then Some(Error("CPU exclusion (^) not supported"))
      else if c.end.Some? then
        ParseDecimal(c.end.value, U32Bound);
        var end := ParseUnsigned(c.end.value, 10, U32Bound).Extract();
        if end <= start then Some(Error("Invalid CPU range: " + FormatNat(start) + "-" + FormatNat(end)))
        else None
      else None
  }

  /** The loop of `validate_cpu_list` from part `k` on: the first rejected item decides the error. */
  function CheckCpuItems(parts: seq<String>, supportsExclusion: bool, k: nat): (r: ValidationResult)
    requires k <= |parts|
    requires CpuItemsFit(parts, supportsExclusion, k)
    ensures r.Valid? <==> forall i :: k <= i < |parts| ==> CpuItemAccepted(RustTrim(parts[i]), supportsExclusion)
    ensures r.Valid? || r.Error?
    decreases |parts| - k
  {
    if k == |parts| then Valid
    else
      var item := CheckCpuItem(RustTrim(parts[k]), supportsExclusion);
      if item.Some? then item.value
      else
        var r := CheckCpuItems(parts, supportsExclusion, k + 1);
        assert r.Valid? ==> forall i :: k <= i < |parts| ==> CpuItemAccepted(RustTrim(parts[i]), supportsExclusion) by {
          if r.Valid? {
            assert forall i :: k + 1 <= i < |parts| ==> CpuItemAccepted(RustTrim(parts[i]), supportsExclusion);
          }
        }
        r
  }

  /** `validate_cpu_list`: split at commas and check every item. */
  function ValidateCpuItems(cpuList: String, supportsExclusion: bool): (r: ValidationResult)
    requires CpuItemsFit(Split(cpuList, ','), supportsExclusion, 0)
    ensures r == Valid <==> CpuListAccepted(cpuList, supportsExclusion)
    ensures r.Valid? || r.Error?
  {
    CheckCpuItems(Split(cpuList, ','), supportsExclusion, 0)
  }

  // ---------------------------------------------------------------- cpu_list flags

  /** The string items of `valid_flags`, none when it is absent or not an array. */
  function ValidFlags(config: Config): (r: seq<String>)
    ensures GetArray(config, "valid_flags").None? ==> r == []
    ensures GetArray(config, "valid_flags").Some? ==> r == StrItems(GetArray(config, "valid_flags").value)
  {
    match GetArray(config, "valid_flags")
    case None => []
    case Some(items) => StrItems(items)
  }

  /** A flag passes when no valid flags are listed, or when it is listed once trimmed. */
  predicate FlagAccepted(flag: String, validFlags: seq<String>)
  {
    validFlags == [] || RustTrim(flag) in validFlags
  }

  /** The index of the first rejected flag from `k` on. */
  function FirstRejectedFlag(flags: seq<String>, validFlags: seq<String>, k: nat): (r: Option<nat>)
    requires k <= |flags|
    ensures r.None? <==> forall i :: k <= i < |flags| ==> FlagAccepted(flags[i], validFlags)
    ensures r.Some? ==> k <= r.value < |flags| && !FlagAccepted(flags[r.value], validFlags)
                        && forall j :: k <= j < r.value ==> FlagAccepted(flags[j], validFlags)
    decreases |flags| - k
  {
    if k == |flags| then None
    else if !FlagAccepted(flags[k], validFlags) then Some(k)
    else FirstRejectedFlag(flags, validFlags, k + 1)
  }

  /** The flag prefix and the CPU part: the value is split at its first `:` only when flags are supported. */
  function SplitCpuFlags(value: String, supportsFlags: bool): (r: (Option<String>, String))
    ensures r.0.None? <==> !supportsFlags || ':' !in value
    ensures r.0.None? ==> r.1 == value
    ensures r.0.Some? ==> value == r.0.value + ":" + r.1 && ':' !in r.0.value
  {
    if supportsFlags && ':' in value then
      var (flags, cpus) := SplitOnce(value, ':').value;
      (Some(flags), cpus)
    else (None, value)
  }

  /** What a cpu_list value means under its configuration. */
  predicate CpuListValueAccepted(value: String, config: Config)
  {
    var (flags, cpus) := SplitCpuFlags(value, FlagSet(config, "supports_flags"));
    (flags.Some? ==> forall f :: f in Split(flags.value, ',') ==> FlagAccepted(f, ValidFlags(config)))
    && CpuListAccepted(cpus, FlagSet(config, "supports_exclusion"))
  }

  /** No `unwrap` panics: the items are checked only when the flags pass. */
  predicate CpuListFits(value: String, config: Config)
  {
    var (flags, cpus) := SplitCpuFlags(value, FlagSet(config, "supports_flags"));
    (flags.None? || FirstRejectedFlag(Split(flags.value, ','), ValidFlags(config), 0).None?)
      ==> CpuItemsFit(Split(cpus, ','), FlagSet(config, "supports_exclusion"), 0)
  }

  function ValidateCpuList(value: String, config: Config): (r: ValidationResult)
    requires CpuListFits(value, config)
    ensures r == Valid <==> CpuListValueAccepted(value, config)
    ensures r.Valid? || r.Error?
  {
    var supportsExclusion := FlagSet(config, "supports_exclusion");
    var (flags, cpus) := SplitCpuFlags(value, FlagSet(config, "supports_flags"));
    if flags.Some? then
      var parts := Split(flags.value, ',');
      match FirstRejectedFlag(parts, ValidFlags(config), 0)
      case Some(i) => Error("Invalid CPU flag: " + Quoted(parts[i]))
      case None => ValidateCpuItems(cpus, supportsExclusion)
    else ValidateCpuItems(cpus, supportsExclusion)
  }

  /** An ascending range of two u32 numbers, written in decimal, is an accepted item. */
  lemma AscendingRangeAccepted(a: nat, b: nat, supportsExclusion: bool)
    requires a < b < U32Bound
    ensures CpuItemAccepted(FormatNat(a) + "-" + FormatNat(b), supportsExclusion)
    ensures !CpuItemAccepted(FormatNat(b) + "-" + FormatNat(a), supportsExclusion)
  {
    AscendingRangeMatch(a, b);
    AscendingRangeMatch(b, a);
  }

  lemma AscendingRangeMatch(a: nat, b: nat)
    ensures MatchCpuItem(FormatNat(a) + "-" + FormatNat(b))
            == Some(CpuCaptures(false, FormatNat(a), Some(FormatNat(b))))
  {
    var fa, fb := FormatNat(a), FormatNat(b);
    assert forall k :: 0 <= k < |fa| ==> fa[k] != '-';
    SplitOnceOfConcat(fa, '-', fb);
    assert fa + "-" + fb == fa + ['-'] + fb;
    assert (fa + "-" + fb)[0] == fa[0];
  }

  /** An excluded CPU is rejected unless exclusions are supported. */
  lemma ExclusionNeedsSupport(a: nat)
    ensures CpuItemAccepted("^" + FormatNat(a), true)
    ensures !CpuItemAccepted("^" + FormatNat(a), false)
  {
    var fa := FormatNat(a);
    assert ("^" + fa)[1..] == fa;
    assert forall k :: 0 <= k < |fa| ==> fa[k] != '-';
  }

  // ---------------------------------------------------------------- memory_range

  predicate IsMemorySeparator(c: char) { c == '@' || c == '#' || c == '$' }

  /** The text `\d+[KMG]?`. */
  predicate MemorySizeText(s: String)
  {
    (s != [] && AllDigits(s))
    || (|s| >= 2 && AllDigits(s[..|s| - 1]) && (s[|s| - 1] == 'K' || s[|s| - 1] == 'M' || s[|s| - 1] == 'G'))
  }

  /** The text `\d+[KMG]?[@#$]\d+[KMG]?`. */
  predicate MemoryRangeText(value: String)
  {
    exists i :: 0 <= i < |value| && IsMemorySeparator(value[i])
                && MemorySizeText(value[..i]) && MemorySizeText(value[i + 1..])
  }

  /** The position a left-to-right match expects the separator at: after the digits and an optional suffix. */
  function MemorySeparatorPosition(value: String): (j: nat)
    ensures j <= |value|
  {
    var n := LeadingDigits(value);
    if n < |value| && (value[n] == 'K' || value[n] == 'M' || value[n] == 'G') then n + 1 else n
  }

  /** A size text contains no separator. */
  lemma NoSeparatorInSize(s: String)
    requires MemorySizeText(s)
    ensures forall k :: 0 <= k < |s| ==> !IsMemorySeparator(s[k])
  {
    if !(s != [] && AllDigits(s)) {
      assert forall k :: 0 <= k < |s| - 1 ==> s[k] == s[..|s| - 1][k];
    }
  }

  /** The separator of a memory range is where the left-to-right match expects it. */
  lemma MemorySeparatorIsUnique(value: String, i: nat)
    requires i < |value| && IsMemorySeparator(value[i])
    requires MemorySizeText(value[..i])
    ensures MemorySeparatorPosition(value) == i
  {
    var left := value[..i];
    var n := LeadingDigits(value);
    if AllDigits(left) && left != [] {
      assert forall k :: 0 <= k < i ==> value[k] == left[k];
      assert n >= i;
      assert n == i;
    } else {
      assert forall k :: 0 <= k < i ==> value[k] == left[k];
      assert forall k :: 0 <= k < i - 1 ==> value[k] == left[..i - 1][k];
      assert !IsAsciiDigit(value[i - 1]);
      assert n == i - 1;
    }
  }

  function ValidateMemoryRange(value: String, config: Config): (r: ValidationResult)
    ensures r == Valid <==> MemoryRangeText(value)
    ensures r != Valid ==> r == Error("Invalid memory range format: " + Quoted(value))
    ensures !r.Unknown?
  {
    var j := MemorySeparatorPosition(value);
    var matched := j < |value| && IsMemorySeparator(value[j])
                   && MemorySizeText(value[..j]) && MemorySizeText(value[j + 1..]);
    MemoryMatchIsRegex(value);
    if matched then Valid else Error("Invalid memory range format: " + Quoted(value))
  }

  lemma MemoryMatchIsRegex(value: String)
    ensures var j := MemorySeparatorPosition(value);
            (j < |value| && IsMemorySeparator(value[j])
             && MemorySizeText(value[..j]) && MemorySizeText(value[j + 1..]))
            <==> MemoryRangeText(value)
  {
    if MemoryRangeText(value) {
      var i :| 0 <= i < |value| && IsMemorySeparator(value[i])
               && MemorySizeText(value[..i]) && MemorySizeText(value[i + 1..]);
      MemorySeparatorIsUnique(value, i);
    }
  }

  /** Two sizes joined by any of the three separators form a memory range. */
  lemma MemoryRangeOfSizes(size: nat, sep: char, start: nat)
    requires IsMemorySeparator(sep)
    ensures ValidateMemoryRange(FormatNat(size) + "M" + [sep] + FormatNat(start), map[]) == Valid
  {
    var left := FormatNat(size) + "M";
    var value := left + [sep] + FormatNat(start);
    assert value[..|left|] == left && value[|left| + 1..] == FormatNat(start);
    assert left[..|left| - 1] == FormatNat(size);
    assert value[|left|] == sep;
  }

  // ---------------------------------------------------------------- io_range

  /** `u64::from_str_radix(&part[2..], 16)` after `0x`, decimal `parse::<u64>()` otherwise. */
  function IoNumber(part: String): (r: Option<nat>)
    ensures r.Some? ==> r.value < U64Bound
  {
    if StartsWith(part, "0x") then ParseUnsigned(part[2..], 16, U64Bound)
    else ParseUnsigned(part, 10, U64Bound)
  }

  /** The error for a part that is not a number, naming which kind it was read as. */
  function IoNumberError(part: String): (r: Option<ValidationResult>)
    ensures r.None? <==> IoNumber(part).Some?
    ensures r.Some? ==> r.value.Error?
  {
    if IoNumber(part).Some? then None
    else if StartsWith(part, "0x") then Some(Error("Invalid hex number: " + Quoted(part)))
    else Some(Error("Invalid number: " + Quoted(part)))
  }

  /** A comma is required; then exactly two parts, base first, each a u64. */
  function ValidateIoRange(value: String, config: Config): (r: ValidationResult)
    ensures ',' !in value ==> r == Error("I/O range must specify base,size")
    ensures ',' in value && |Split(value, ',')| != 2 ==> r == Error("I/O range must be base,size")
    ensures r == Valid <==> |Split(value, ',')| == 2
                            && IoNumber(Split(value, ',')[0]).Some? && IoNumber(Split(value, ',')[1]).Some?
    ensures r.Valid? || r.Error?
  {
    if ',' in value then
      var parts := Split(value, ',');
      if |parts| != 2 then Error("I/O range must be base,size")
      else if IoNumberError(parts[0]).Some? then IoNumberError(parts[0]).value
      else if IoNumberError(parts[1]).Some? then IoNumberError(parts[1]).value
      else Valid
    else
      assert Split(value, ',') == [value];
      Error("I/O range must specify base,size")
  }

  /** Two u64 numbers in decimal, joined by one comma, are an I/O range. */
  lemma IoRangeOfNumbers(base: nat, size: nat)
    requires base < U64Bound && size < U64Bound
    ensures ValidateIoRange(FormatNat(base) + "," + FormatNat(size), map[]) == Valid
  {
    var b, s := FormatNat(base), FormatNat(size);
    CommaJoin(b, s);
    DecimalIoNumber(base);
    DecimalIoNumber(size);
  }

  lemma CommaJoin(b: String, s: String)
    requires AllDigits(b) && AllDigits(s)
    ensures Split(b + "," + s, ',') == [b, s]
  {
    assert forall k :: 0 <= k < |b| ==> b[k] != ',';
    assert forall k :: 0 <= k < |s| ==> s[k] != ',';
    assert Join([b, s], ',') == b + "," + s;
    SplitOfJoin([b, s], ',');
  }

  lemma DecimalIoNumber(n: nat)
    requires n < U64Bound
    ensures IoNumber(FormatNat(n)) == Some(n)
  {
    var f := FormatNat(n);
    ParseFormatUnsigned(n, U64Bound);
    if |f| >= 2 {
      assert f[..2][1] == f[1];
    }
  }
}
