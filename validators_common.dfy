/**
 * The processor-independent validators of src/validators/common.rs:
 * boolean, integer, size, enum (with completions), hex and key_value.
 * Each is a pure function of the value and the syntax configuration map.
 */
module CommonValidators {
  import opened Wrappers
  import opened Text
  import opened Toml
  import opened Validation

  // ---------------------------------------------------------------- boolean

  const BooleanTokens: seq<String> := ["0", "1", "true", "false", "on", "off", "yes", "no", "y", "n"]

  /** A boolean parameter may be given bare (empty value) or with one of the ten tokens. */
  function ValidateBoolean(value: String, config: Config): (r: ValidationResult)
    ensures r == Valid <==> value == "" || value in BooleanTokens
    ensures r != Valid ==> r == Error("Invalid boolean value: " + Quoted(value))
    ensures !r.Unknown?
  {
    if value == "" then Valid
    else if value in BooleanTokens then Valid
    else Error("Invalid boolean value: " + Quoted(value))
  }

  lemma BooleanExamples(config: Config)
    ensures ValidateBoolean("", config) == Valid
    ensures ValidateBoolean("yes", config) == Valid
    ensures ValidateBoolean("maybe", config).Error?
  {
  }

  // ---------------------------------------------------------------- integer

  /** The range check applies only when both `min` and `max` are integers, and includes both ends. */
  predicate InConfiguredRange(n: int, config: Config)
  {
    match (GetInteger(config, "min"), GetInteger(config, "max"))
    case (Some(lo), Some(hi)) => lo <= n <= hi
    case _ => true
  }

  function ValidateInteger(value: String, config: Config): (r: ValidationResult)
    ensures r == Valid <==> ParseI64(value).Some? && InConfiguredRange(ParseI64(value).value, config)
    ensures ParseI64(value).None? ==> r == Error("Invalid integer: " + Quoted(value))
    ensures r.Valid? || r.Error?
  {
    match ParseI64(value)
    case None => Error("Invalid integer: " + Quoted(value))
    case Some(n) =>
      match (GetInteger(config, "min"), GetInteger(config, "max"))
      case (Some(lo), Some(hi)) =>
        if n < lo || n > hi then
          Error("Integer " + FormatInt(n) + " out of range [" + FormatInt(lo) + ", " + FormatInt(hi) + "]")
        else Valid
      case _ => Valid
  }

  /** Every i64, written in decimal, is accepted exactly when it lies in the configured range. */
  lemma IntegerOfDecimal(n: int, config: Config)
    requires I64Min <= n <= I64Max
    ensures ValidateInteger(FormatInt(n), config) == Valid <==> InConfiguredRange(n, config)
  {
    ParseFormatI64(n);
  }

  lemma IntegerExamples()
    ensures var config := map["min" := Integer(0), "max" := Integer(10)];
      ValidateInteger("5", config) == Valid && ValidateInteger("11", config).Error?
      && ValidateInteger("x", config).Error?
  {
    var config := map["min" := Integer(0), "max" := Integer(10)];
    IntegerOfDecimal(5, config);
    IntegerOfDecimal(11, config);
    assert FormatInt(5) == "5" && FormatInt(11) == "11";
  }

  // ---------------------------------------------------------------- size

  predicate IsSizeSuffix(c: char) { c == 'K' || c == 'M' || c == 'G' }

  /** The text `\d+[KMG]?`: one or more digits, then at most one of K, M, G. */
  predicate SizeText(s: String)
  {
    (s != [] && AllDigits(s))
    || (|s| >= 2 && AllDigits(s[..|s| - 1]) && IsSizeSuffix(s[|s| - 1]))
  }

  /** The two captures of `^(\d+)([KMG]?)$`, when it matches: the digits and the suffix. */
  function SizeCaptures(value: String): (r: Option<(String, String)>)
    ensures r.Some? <==> SizeText(value)
    ensures r.Some? ==> value == r.value.0 + r.value.1 && r.value.0 != [] && AllDigits(r.value.0)
    ensures r.Some? ==> r.value.1 in ["", "K", "M", "G"]
  {
    if value != [] && AllDigits(value) then
      assert value == value + "";
      Some((value, ""))
    else if |value| >= 2 && AllDigits(value[..|value| - 1]) && IsSizeSuffix(value[|value| - 1]) then
      assert value == value[..|value| - 1] + [value[|value| - 1]];
      Some((value[..|value| - 1], [value[|value| - 1]]))
    else None
  }

  /** `captures[1].parse::<u64>().unwrap()` does not panic: the digit run fits in a u64. */
  predicate SizeDigitsFit(value: String)
  {
    SizeCaptures(value).Some? ==> ParseUnsigned(SizeCaptures(value).value.0, 10, U64Bound).Some?
  }

  /** Valid exactly for `\d+[KMG]?`; the "Invalid size suffix" branch can never be taken. */
  function ValidateSize(value: String, config: Config): (r: ValidationResult)
    requires SizeDigitsFit(value)
    ensures r == Valid <==> SizeText(value)
    ensures r != Valid ==> r == Error("Invalid size format: " + Quoted(value))
    ensures !r.Unknown?
  {
    match SizeCaptures(value)
    case None => Error("Invalid size format: " + Quoted(value))
    case Some((digits, suffix)) =>
      var number := ParseUnsigned(digits, 10, U64Bound).Extract();
      if suffix in ["", "K", "M", "G"] then Valid
      else Error("Invalid size suffix: " + Quoted(suffix))
  }

  // ---------------------------------------------------------------- enum

  /** The string items of `choices`, when `choices` is an array. */
  function EnumChoices(config: Config): (r: Option<seq<String>>)
    ensures r.Some? <==> GetArray(config, "choices").Some?
    ensures r.Some? ==> r.value == StrItems(GetArray(config, "choices").value)
  {
    match GetArray(config, "choices")
    case None => None
    case Some(items) => Some(StrItems(items))
  }

  /**
   * The index of the first part, from `k` on, that trimmed is not a choice
   * (the early return of the `allow_multiple` loop).
   */
  function FirstInvalidPart(parts: seq<String>, choices: seq<String>, k: nat): (r: Option<nat>)
    requires k <= |parts|
    ensures r.None? <==> forall i :: k <= i < |parts| ==> RustTrim(parts[i]) in choices
    ensures r.Some? ==> k <= r.value < |parts| && RustTrim(parts[r.value]) !in choices
                        && forall j :: k <= j < r.value ==> RustTrim(parts[j]) in choices
    decreases |parts| - k
  {
    if k == |parts| then None
    else if RustTrim(parts[k]) !in choices then Some(k)
    else FirstInvalidPart(parts, choices, k + 1)
  }

  /**
   * What an enum accepts, given its choices: the empty value when `allow_empty`;
   * with `allow_multiple`, a comma list whose every trimmed part is a choice;
   * otherwise exactly one choice, untrimmed.
   */
  predicate EnumAccepts(value: String, choices: seq<String>, allowEmpty: bool, allowMultiple: bool)
  {
    (value == "" && allowEmpty)
    || (if allowMultiple then
          var parts := Split(value, ',');
          forall i :: 0 <= i < |parts| ==> RustTrim(parts[i]) in choices
        else value in choices)
  }

  /** The verdict once the choices and the two flags are known. */
  function EnumVerdict(value: String, choices: seq<String>, allowEmpty: bool, allowMultiple: bool)
    : (r: ValidationResult)
    ensures r == Valid <==> EnumAccepts(value, choices, allowEmpty, allowMultiple)
    ensures r.Valid? || r.Error?
  {
    if value == "" && allowEmpty then Valid
    else if allowMultiple then
      var parts := Split(value, ',');
      match FirstInvalidPart(parts, choices, 0)
      case Some(i) => Error("Invalid choice: " + Quoted(RustTrim(parts[i])))
      case None => Valid
    else if value !in choices then
      Error("Invalid choice: " + Quoted(value) + ". Valid: " + DebugList(choices))
    else Valid
  }

  /** Missing or non-array `choices` is an error before anything else is looked at. */
  function ValidateEnum(value: String, config: Config): (r: ValidationResult)
    ensures EnumChoices(config).None? ==> r == Error("No choices configured for enum")
    ensures r == Valid <==> EnumChoices(config).Some?
                            && EnumAccepts(value, EnumChoices(config).value,
                                           FlagSet(config, "allow_empty"), FlagSet(config, "allow_multiple"))
    ensures r.Valid? || r.Error?
  {
    match EnumChoices(config)
    case None => Error("No choices configured for enum")
    case Some(choices) =>
      EnumVerdict(value, choices, FlagSet(config, "allow_empty"), FlagSet(config, "allow_multiple"))
  }

  /** Even the empty value with `allow_empty` is rejected when no choices are configured. */
  lemma EnumNeedsChoices(value: String, config: Config)
    requires GetArray(config, "choices").None?
    ensures ValidateEnum(value, config) == Error("No choices configured for enum")
  {
  }

  /** The string choices that start with `partial`, in configured order; none without choices. */
  function EnumCompletions(partial: String, config: Config): (r: seq<String>)
    ensures EnumChoices(config).None? ==> r == []
    ensures EnumChoices(config).Some? ==>
              (forall s :: s in r <==> s in EnumChoices(config).value && StartsWith(s, partial))
              && IsSubsequence(r, EnumChoices(config).value)
  {
    match EnumChoices(config)
    case None => []
    case Some(choices) => KeepWithPrefix(choices, partial)
  }

  /** Completions follow the configured order: those of earlier choices come first. */
  lemma EnumCompletionsInOrder(partial: String, config: Config, before: seq<Value>, after: seq<Value>)
    requires GetArray(config, "choices") == Some(before + after)
    ensures EnumCompletions(partial, config)
            == KeepWithPrefix(StrItems(before), partial) + KeepWithPrefix(StrItems(after), partial)
  {
    StrItemsConcat(before, after);
    KeepWithPrefixConcat(StrItems(before), StrItems(after), partial);
  }

  /** A configured string choice with the prefix is offered as often as it is configured; nothing else is offered. */
  lemma EnumCompletionCounts(partial: String, config: Config, s: String)
    requires GetArray(config, "choices").Some?
    ensures multiset(EnumCompletions(partial, config))[s]
            == if StartsWith(s, partial) then multiset(GetArray(config, "choices").value)[Str(s)] else 0
  {
    var items := GetArray(config, "choices").value;
    KeepWithPrefixCounts(StrItems(items), partial, s);
    StrItemsCounts(items, s);
  }

  // ---------------------------------------------------------------- hex

  /** The text `0x[0-9a-fA-F]+`. */
  predicate HexText(s: String)
  {
    |s| >= 3 && s[..2] == "0x" && AllHex(s[2..])
  }

  function ValidateHex(value: String, config: Config): (r: ValidationResult)
    ensures r == Valid <==> HexText(value)
    ensures r != Valid ==> r == Error("Invalid hex format: " + Quoted(value))
    ensures !r.Unknown?
  {
    if HexText(value) then Valid else Error("Invalid hex format: " + Quoted(value))
  }

  /** Only a lower-case `0x` followed by at least one hex digit is accepted. */
  lemma HexPrefixes(digits: String, config: Config)
    requires digits != [] && AllHex(digits)
    ensures ValidateHex("0x" + digits, config) == Valid
    ensures ValidateHex("0X" + digits, config).Error?
    ensures ValidateHex("0x", config).Error?
  {
    assert ("0x" + digits)[..2] == "0x" && ("0x" + digits)[2..] == digits;
    assert ("0X" + digits)[..2] == "0X";
  }

  // ---------------------------------------------------------------- key_value

  /** The configured `separator` string, `=` by default. */
  function Separator(config: Config): String
  {
    match GetStr(config, "separator")
    case None => "="
    case Some(sep) => sep
  }

  /**
   * Split at the first separator: no separator is an error, an empty key is an error,
   * and only then an empty value is a warning.
   */
  function ValidateKeyValue(value: String, config: Config): (r: ValidationResult)
    ensures var sep := Separator(config);
            SplitOnceStr(value, sep).None? ==>
              r == Error("Missing " + Quoted(sep) + " separator in key" + sep + "value pair")
    ensures var split := SplitOnceStr(value, Separator(config));
            (r.Error? <==> split.None? || split.value.0 == "")
            && (r.Warning? <==> split.Some? && split.value.0 != "" && split.value.1 == "")
            && (r == Valid <==> split.Some? && split.value.0 != "" && split.value.1 != "")
    ensures !r.Unknown?
  {
    var sep := Separator(config);
    match SplitOnceStr(value, sep)
    case Some((key, val)) =>
      if key == "" then Error("Empty key in key=value pair")
      else if val == "" then Warning("Empty value for key " + Quoted(key))
      else Valid
    case None => Error("Missing " + Quoted(sep) + " separator in key" + sep + "value pair")
  }

  /** With the default separator, `key=val` is judged by its key (up to the first `=`) and value. */
  lemma KeyValueOfParts(key: String, val: String)
    requires '=' !in key
    ensures ValidateKeyValue(key + "=" + val, map[]) ==
              if key == "" then Error("Empty key in key=value pair")
              else if val == "" then Warning("Empty value for key " + Quoted(key))
              else Valid
  {
    SplitOnceStrChar(key + "=" + val, '=');
    SplitOnceOfConcat(key, '=', val);
  }
}
