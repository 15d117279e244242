/**
 * The validator registry of src/validators/mod.rs: a closed set of validator
 * kinds standing for the boxed validators, their dispatch, and the two-table
 * `StandardValidatorRegistry`.
 */
module ValidatorRegistry {
  import opened Wrappers
  import opened Text
  import opened Toml
  import opened Validation
  import opened Parameters
  import CommonValidators
  import KernelValidators
  import HardwareValidators
  import DracutValidators
  import SystemdValidators

  /** One constructor per validator struct of the library. */
  datatype ValidatorKind =
    | BooleanValidator
    | IntegerValidator
    | EnumValidator
    | SizeValidator
    | HexValidator
    | KeyValueValidator
    | CpuListValidator
    | MemoryRangeValidator
    | IoRangeValidator
    | PciDeviceSpecValidator
    | UsbDeviceSpecValidator
    | DmiSpecValidator
    | DracutLvmLvValidator
    | DracutLuksNameValidator
    | DracutBreakValidator
    | DracutNetworkValidator
    | SystemdUnitValidator

  /** The inputs on which a validator's `unwrap` of a parsed digit run does not panic. */
  predicate DoesNotPanic(kind: ValidatorKind, value: String, config: Config)
  {
    match kind
    case SizeValidator => CommonValidators.SizeDigitsFit(value)
    case CpuListValidator => KernelValidators.CpuListFits(value, config)
    case _ => true
  }

  /** The validators of src/validators/common.rs. */
  predicate IsCommonKind(kind: ValidatorKind)
  {
    kind.BooleanValidator? || kind.IntegerValidator? || kind.EnumValidator?
    || kind.SizeValidator? || kind.HexValidator? || kind.KeyValueValidator?
  }

  /** The validators of src/validators/kernel.rs. */
  predicate IsKernelKind(kind: ValidatorKind)
  {
    kind.CpuListValidator? || kind.MemoryRangeValidator? || kind.IoRangeValidator?
  }

  /** The validators of src/validators/hardware.rs. */
  predicate IsHardwareKind(kind: ValidatorKind)
  {
    kind.PciDeviceSpecValidator? || kind.UsbDeviceSpecValidator? || kind.DmiSpecValidator?
  }

  /** `validate`, dispatched on the kind: no built-in validator ever answers Unknown. */
  function Validate(kind: ValidatorKind, value: String, config: Config): (r: ValidationResult)
    requires DoesNotPanic(kind, value, config)
    ensures !r.Unknown?
  {
    if IsCommonKind(kind) then ValidateCommon(kind, value, config)
    else if IsKernelKind(kind) then ValidateKernel(kind, value, config)
    else if IsHardwareKind(kind) then ValidateHardware(kind, value, config)
    else ValidateBoot(kind, value, config)
  }

  function ValidateCommon(kind: ValidatorKind, value: String, config: Config): (r: ValidationResult)
    requires IsCommonKind(kind) && DoesNotPanic(kind, value, config)
    ensures !r.Unknown?
  {
    match kind
    case BooleanValidator => CommonValidators.ValidateBoolean(value, config)
    case IntegerValidator => CommonValidators.ValidateInteger(value, config)
    case EnumValidator => CommonValidators.ValidateEnum(value, config)
    case SizeValidator => CommonValidators.ValidateSize(value, config)
    case HexValidator => CommonValidators.ValidateHex(value, config)
    case KeyValueValidator => CommonValidators.ValidateKeyValue(value, config)
  }

  function ValidateKernel(kind: ValidatorKind, value: String, config: Config): (r: ValidationResult)
    requires IsKernelKind(kind) && DoesNotPanic(kind, value, config)
    ensures !r.Unknown?
  {
    match kind
    case CpuListValidator => KernelValidators.ValidateCpuList(value, config)
    case MemoryRangeValidator => KernelValidators.ValidateMemoryRange(value, config)
    case IoRangeValidator => KernelValidators.ValidateIoRange(value, config)
  }

  function ValidateHardware(kind: ValidatorKind, value: String, config: Config): (r: ValidationResult)
    requires IsHardwareKind(kind)
    ensures !r.Unknown?
  {
    match kind
    case PciDeviceSpecValidator => HardwareValidators.ValidatePciDevice(value, config)
    case UsbDeviceSpecValidator => HardwareValidators.ValidateUsbDevice(value, config)
    case DmiSpecValidator => HardwareValidators.ValidateDmi(value, config)
  }

  /** The validators of src/validators/dracut.rs and src/validators/systemd.rs. */
  function ValidateBoot(kind: ValidatorKind, value: String, config: Config): (r: ValidationResult)
    requires !IsCommonKind(kind) && !IsKernelKind(kind) && !IsHardwareKind(kind)
    ensures !r.Unknown?
  {
    match kind
    case DracutLvmLvValidator => DracutValidators.ValidateLvmLv(value, config)
    case DracutLuksNameValidator => DracutValidators.ValidateLuksName(value, config)
    case DracutBreakValidator => DracutValidators.ValidateBreak(value, config)
    case DracutNetworkValidator => DracutValidators.ValidateNetwork(value, config)
    case SystemdUnitValidator => SystemdValidators.ValidateUnit(value, config)
  }

  /** `get_completion_suggestions`: only enum and systemd_unit override the empty default. */
  function CompletionSuggestions(kind: ValidatorKind, partial: String, config: Config): (r: seq<String>)
    ensures !kind.EnumValidator? && !kind.SystemdUnitValidator? ==> r == []
    ensures forall s :: s in r ==> StartsWith(s, partial)
  {
    match kind
    case EnumValidator => CommonValidators.EnumCompletions(partial, config)
    case SystemdUnitValidator => SystemdValidators.UnitCompletions(partial, config)
    case _ => []
  }

  /** The common table of a fresh registry. */
  const FreshCommonTable: map<String, ValidatorKind> :=
    map["boolean" := BooleanValidator, "integer" := IntegerValidator, "enum" := EnumValidator,
        "size" := SizeValidator, "hex" := HexValidator, "key_value" := KeyValueValidator]

  /** The processor table of a fresh registry. */
  const FreshProcessorTable: map<String, ValidatorKind> :=
    map["cpu_list" := CpuListValidator, "memory_range" := MemoryRangeValidator,
        "pci_device" := PciDeviceSpecValidator, "dracut_luks_name" := DracutLuksNameValidator]

  /** The two-step lookup: the processor table wins, the common table is the fallback. */
  function Lookup(processorTable: map<String, ValidatorKind>, commonTable: map<String, ValidatorKind>, name: String)
    : (r: Option<ValidatorKind>)
    ensures r.Some? <==> name in processorTable || name in commonTable
    ensures name in processorTable ==> r == Some(processorTable[name])
    ensures name !in processorTable && name in commonTable ==> r == Some(commonTable[name])
  {
    if name in processorTable then Some(processorTable[name])
    else if name in commonTable then Some(commonTable[name])
    else None
  }

  /** A fresh registry knows exactly ten names; the other validators are unreachable by name. */
  lemma FreshLookups(name: String)
    ensures Lookup(FreshProcessorTable, FreshCommonTable, name).Some? <==>
              name in {"boolean", "integer", "enum", "size", "hex", "key_value",
                       "cpu_list", "memory_range", "pci_device", "dracut_luks_name"}
    ensures Lookup(FreshProcessorTable, FreshCommonTable, "usb_device") == None
    ensures Lookup(FreshProcessorTable, FreshCommonTable, "dmi") == None
    ensures Lookup(FreshProcessorTable, FreshCommonTable, "systemd_unit") == None
    ensures Lookup(FreshProcessorTable, FreshCommonTable, "io_range") == None
    ensures Lookup(FreshProcessorTable, FreshCommonTable, "cpu_list") == Some(CpuListValidator)
    ensures Lookup(FreshProcessorTable, FreshCommonTable, "boolean") == Some(BooleanValidator)
  {
  }

  class StandardValidatorRegistry {
    var commonValidators: map<String, ValidatorKind>
    var processorValidators: map<String, ValidatorKind>

    /** `new`: both tables built by successive inserts. */
    constructor ()
      ensures commonValidators == FreshCommonTable
      ensures processorValidators == FreshProcessorTable
    {
      var common: map<String, ValidatorKind> := map[];
      common := common["boolean" := BooleanValidator];
      common := common["integer" := IntegerValidator];
      common := common["enum" := EnumValidator];
      common := common["size" := SizeValidator];
      common := common["hex" := HexValidator];
      common := common["key_value" := KeyValueValidator];
      var processorSpecific: map<String, ValidatorKind> := map[];
      processorSpecific := processorSpecific["cpu_list" := CpuListValidator];
      processorSpecific := processorSpecific["memory_range" := MemoryRangeValidator];
      processorSpecific := processorSpecific["pci_device" := PciDeviceSpecValidator];
      processorSpecific := processorSpecific["dracut_luks_name" := DracutLuksNameValidator];
      commonValidators := common;
      processorValidators := processorSpecific;
    }

    /** `get_validator`; the processor argument is not consulted. */
    function GetValidator(processor: ParameterProcessor, name: String): (r: Option<ValidatorKind>)
      reads this
      ensures r.Some? <==> name in processorValidators || name in commonValidators
      ensures name in processorValidators ==> r == Some(processorValidators[name])
      ensures name !in processorValidators && name in commonValidators ==> r == Some(commonValidators[name])
    {
      Lookup(processorValidators, commonValidators, name)
    }

    /** The lookup gives the same answer for every processor. */
    lemma GetValidatorIgnoresProcessor(p: ParameterProcessor, q: ParameterProcessor, name: String)
      ensures GetValidator(p, name) == GetValidator(q, name)
    {
    }

    /**
     * `register_validator` never fails (its collision check is commented out): it
     * overwrites the processor-table entry, so the name now resolves to the new
     * validator even over a common one, and nothing else changes.
     */
    method RegisterValidator(name: String, validator: ValidatorKind) returns (r: Result<(), RegistryError>)
      modifies this
      ensures r == Ok(())
      ensures processorValidators == old(processorValidators)[name := validator]
      ensures commonValidators == old(commonValidators)
      ensures forall p :: GetValidator(p, name) == Some(validator)
      ensures forall p, other :: other != name ==> GetValidator(p, other) == old(GetValidator(p, other))
    {
      processorValidators := processorValidators[name := validator];
      r := Ok(());
    }
  }
}
