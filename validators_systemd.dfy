/** The systemd unit-name validator of src/validators/systemd.rs, with its completions. */
module SystemdValidators {
  import opened Wrappers
  import opened Text
  import opened Toml
  import opened Validation

  const UnitSuffixes: seq<String> := [".service", ".target", ".socket", ".timer", ".mount",
                                      ".automount", ".swap", ".path", ".slice", ".scope"]

  const CompletionTargets: seq<String> := ["multi-user.target", "graphical.target",
                                           "rescue.target", "emergency.target"]

  predicate HasUnitSuffix(value: String)
  {
    exists i :: 0 <= i < |UnitSuffixes| && EndsWith(value, UnitSuffixes[i])
  }

  /**
   * Empty is an error; a missing suffix is only a warning and is reported before a
   * path separator, which is an error.
   */
  function ValidateUnit(value: String, config: Config): (r: ValidationResult)
    ensures value == "" ==> r == Error("Unit name cannot be empty")
    ensures r.Warning? <==> value != "" && !HasUnitSuffix(value)
    ensures r.Valid? <==> value != "" && HasUnitSuffix(value) && '/' !in value && '\\' !in value
    ensures !r.Unknown?
  {
    if value == "" then Error("Unit name cannot be empty")
    else if !HasUnitSuffix(value) then Warning("Unit " + Quoted(value) + " doesn't have a recognized suffix")
    else if '/' in value || '\\' in value then Error("Unit names cannot contain path separators")
    else Valid
  }

  /** A suffixed name with a path separator is rejected; without a suffix the same name only warns. */
  lemma SeparatorAfterSuffix(dir: String, name: String)
    requires name != ""
    ensures ValidateUnit(dir + "/" + name + ".service", map[]) == Error("Unit names cannot contain path separators")
    ensures !HasUnitSuffix(dir + "/" + name) ==> ValidateUnit(dir + "/" + name, map[]).Warning?
  {
    var value := dir + "/" + name + ".service";
    assert EndsWith(value, UnitSuffixes[0]) by {
      assert value[|value| - 8..] == ".service";
    }
    assert value[|dir|] == '/';
  }

  /** The four well-known targets that start with `partial`, in their listed order. */
  function UnitCompletions(partial: String, config: Config): (r: seq<String>)
    ensures forall s :: s in r <==> s in CompletionTargets && StartsWith(s, partial)
    ensures IsSubsequence(r, CompletionTargets)
  {
    KeepWithPrefix(CompletionTargets, partial)
  }

  /** With nothing typed yet all four targets are offered. */
  lemma AllCompletionsForEmpty(config: Config)
    ensures UnitCompletions("", config) == CompletionTargets
  {
    KeepWithEmptyPrefix(CompletionTargets);
  }
}
