/**
 * The dracut validators of src/validators/dracut.rs: rd.lvm.lv, rd.luks.name,
 * rd.break and the dracut form of ip=.
 */
module DracutValidators {
  import opened Wrappers
  import opened Text
  import opened Toml
  import opened Validation

  // ---------------------------------------------------------------- rd.lvm.lv

  const LvmFormatMessage: String := "Must be in format volume_group/logical_volume"
  const LvmSlashMessage: String := "Volume group name cannot start with '/'"

  /**
   * `vg/lv` split at the first `/`: both sides non-empty. The check that the group
   * does not start with `/` is never reached, since the group holds no `/`.
   */
  function ValidateLvmLv(value: String, config: Config): (r: ValidationResult)
    ensures '/' !in value ==> r == Error(LvmFormatMessage)
    ensures r.Valid? <==> exists vg, lv :: vg != "" && lv != "" && '/' !in vg && value == vg + "/" + lv
    ensures r != Error(LvmSlashMessage)
    ensures r.Valid? || r.Error?
  {
    match SplitOnce(value, '/')
    case Some((vg, lv)) =>
      assert value == vg + "/" + lv;
      assert forall g, l :: '/' !in g && value == g + "/" + l ==> g == vg && l == lv by {
        forall g, l | '/' !in g && value == g + "/" + l
          ensures g == vg && l == lv
        {
          assert g + "/" + l == g + ['/'] + l;
          SplitOnceOfConcat(g, '/', l);
        }
      }
      if vg == "" then Error("Volume group name cannot be empty")
      else if lv == "" then Error("Logical volume name cannot be empty")
      else if vg[0] == '/' then Error(LvmSlashMessage)
      else Valid
    case None => Error(LvmFormatMessage)
  }

  /** The group is the text before the first `/`, the volume everything after it. */
  lemma LvmOfParts(vg: String, lv: String)
    requires '/' !in vg
    ensures ValidateLvmLv(vg + "/" + lv, map[]) ==
              if vg == "" then Error("Volume group name cannot be empty")
              else if lv == "" then Error("Logical volume name cannot be empty")
              else Valid
  {
    assert vg + "/" + lv == vg + ['/'] + lv;
    SplitOnceOfConcat(vg, '/', lv);
  }

  // ---------------------------------------------------------------- rd.luks.name

  /** The text `[0-9a-fA-F]{8}-[0-9a-fA-F]{4}-[0-9a-fA-F]{4}-[0-9a-fA-F]{4}-[0-9a-fA-F]{12}`. */
  predicate UuidText(s: String)
  {
    var groups := Split(s, '-');
    |groups| == 5
    && |groups[0]| == 8 && |groups[1]| == 4 && |groups[2]| == 4 && |groups[3]| == 4 && |groups[4]| == 12
    && forall i :: 0 <= i < 5 ==> AllHex(groups[i])
  }

  /**
   * `uuid=name` split at the first `=`: a UUID that does not look right is only a
   * warning, and it is reported before any problem with the name.
   */
  function ValidateLuksName(value: String, config: Config): (r: ValidationResult)
    ensures '=' !in value ==> r == Error("Must be in format uuid=name")
    ensures r.Warning? <==> SplitOnce(value, '=').Some? && !UuidText(SplitOnce(value, '=').value.0)
    ensures r.Valid? <==> SplitOnce(value, '=').Some?
                          && var (uuid, name) := SplitOnce(value, '=').value;
                             UuidText(uuid) && name != "" && '/' !in name
    ensures !r.Unknown?
  {
    match SplitOnce(value, '=')
    case Some((uuid, name)) =>
      if !UuidText(uuid) then Warning(Quoted(uuid) + " doesn't look like a valid UUID")
      else if name == "" then Error("LUKS device name cannot be empty")
      else if '/' in name then Error("LUKS device name cannot contain '/'")
      else Valid
    case None => Error("Must be in format uuid=name")
  }

  lemma NoDashInHex(s: String)
    requires AllHex(s)
    ensures '-' !in s && '=' !in s
  {
    assert forall k :: 0 <= k < |s| ==> s[k] != '-' && s[k] != '=';
  }

  /** Five hex groups of 8, 4, 4, 4 and 12 digits joined by dashes form a UUID. */
  lemma UuidOfGroups(groups: seq<String>)
    requires |groups| == 5
    requires |groups[0]| == 8 && |groups[1]| == 4 && |groups[2]| == 4 && |groups[3]| == 4 && |groups[4]| == 12
    requires forall i :: 0 <= i < 5 ==> AllHex(groups[i])
    ensures UuidText(Join(groups, '-'))
    ensures '=' !in Join(groups, '-')
  {
    forall i | 0 <= i < 5 {
      NoDashInHex(groups[i]);
    }
    SplitOfJoin(groups, '-');
    JoinOfHexHasNoEquals(groups);
  }

  lemma {:induction false} JoinOfHexHasNoEquals(groups: seq<String>)
    requires forall i :: 0 <= i < |groups| ==> AllHex(groups[i])
    ensures '=' !in Join(groups, '-')
    decreases |groups|
  {
    if |groups| == 1 {
      NoDashInHex(groups[0]);
    } else if |groups| > 1 {
      NoDashInHex(groups[0]);
      JoinOfHexHasNoEquals(groups[1..]);
    }
  }

  /** A well-formed UUID, `=`, and a name without `/` is a valid rd.luks.name value. */
  lemma LuksOfUuid(groups: seq<String>, name: String)
    requires |groups| == 5
    requires |groups[0]| == 8 && |groups[1]| == 4 && |groups[2]| == 4 && |groups[3]| == 4 && |groups[4]| == 12
    requires forall i :: 0 <= i < 5 ==> AllHex(groups[i])
    requires name != "" && '/' !in name
    ensures ValidateLuksName(Join(groups, '-') + "=" + name, map[]) == Valid
  {
    var uuid := Join(groups, '-');
    UuidOfGroups(groups);
    assert uuid + "=" + name == uuid + ['='] + name;
    SplitOnceOfConcat(uuid, '=', name);
  }

  // ---------------------------------------------------------------- rd.break

  const BreakPoints: seq<String> := ["cmdline", "pre-udev", "pre-trigger", "initqueue",
                                     "pre-mount", "mount", "pre-pivot", "cleanup"]

  /** The bare parameter (empty value) or one of the eight break points. */
  function ValidateBreak(value: String, config: Config): (r: ValidationResult)
    ensures r.Valid? <==> value == "" || value in BreakPoints
    ensures !r.Valid? ==> r == Error("Invalid break point: " + Quoted(value) + ". Valid: " + DebugList(BreakPoints))
    ensures !r.Unknown?
  {
    if value == "" then Valid
    else if value in BreakPoints then Valid
    else Error("Invalid break point: " + Quoted(value) + ". Valid: " + DebugList(BreakPoints))
  }

  // ---------------------------------------------------------------- ip=

  const BootProtocols: seq<String> := ["none", "off", "dhcp", "on", "any", "dhcp6", "auto6", "ibft"]

  /** At least seven colon-separated fields, the seventh a boot protocol; the others are not checked. */
  function ValidateNetwork(value: String, config: Config): (r: ValidationResult)
    ensures |Split(value, ':')| < 7 ==> r == Error("IP configuration requires at least 7 colon-separated fields")
    ensures r.Valid? <==> |Split(value, ':')| >= 7 && Split(value, ':')[6] in BootProtocols
    ensures r.Valid? || r.Error?
  {
    var parts := Split(value, ':');
    if |parts| < 7 then Error("IP configuration requires at least 7 colon-separated fields")
    else if parts[6] !in BootProtocols then
      Error("Invalid boot protocol: " + Quoted(parts[6]) + ". Valid: " + DebugList(BootProtocols))
    else Valid
  }

  /** Any colon-free fields with a boot protocol in seventh place, and any more fields after it. */
  lemma NetworkOfFields(fields: seq<String>)
    requires |fields| >= 7
    requires forall i :: 0 <= i < |fields| ==> ':' !in fields[i]
    requires fields[6] in BootProtocols
    ensures ValidateNetwork(Join(fields, ':'), map[]) == Valid
  {
    SplitOfJoin(fields, ':');
  }
}
