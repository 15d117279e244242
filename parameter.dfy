/**
 * The records of src/parameter.rs, the probe result of src/probe.rs and the
 * error enums of src/error.rs that the modelled code produces. They are data
 * only; the `todo!()` methods on them are not part of this model.
 */
module Parameters {
  import opened Wrappers
  import opened Text
  import opened Toml

  /** Which boot component consumes a parameter; equality compares the variant and its payload. */
  datatype ParameterProcessor =
    | Kernel
    | Systemd(minVersion: String)
    | Dracut(minVersion: String)
    | InitramfsTools
    | Plymouth
    | Grub

  /** The validator name, the format text and the open configuration the validator reads. */
  datatype SyntaxDefinition = SyntaxDefinition(validatorType: String, format: String, config: Config)

  datatype DistributionSupport = DistributionSupport(
    minVersion: Option<String>,
    maxVersion: Option<String>,
    componentVersion: Option<String>,
    notes: Option<String>)

  datatype Examples = Examples(valid: seq<String>, invalid: seq<String>)

  datatype DocumentationLinks = DocumentationLinks(
    kernelOrg: Option<String>,
    manPages: seq<String>,
    distributionDocs: map<String, String>)

  datatype Parameter = Parameter(
    name: String,
    processor: ParameterProcessor,
    description: String,
    deprecated: bool,
    selectors: seq<String>,
    syntax: SyntaxDefinition,
    distributions: map<String, DistributionSupport>,
    examples: Examples,
    documentation: Option<DocumentationLinks>)

  datatype DistributionInfo = DistributionInfo(
    id: String,
    versionId: String,
    variantId: Option<String>,
    name: String)

  /** What the system probe reports; the model takes it as a given value. */
  datatype SystemProbe = SystemProbe(
    hardwareTags: set<String>,
    softwareTags: set<String>,
    distribution: DistributionInfo)

  /** `DatabaseError`; an I/O error carries the text of the failed operation. */
  datatype DatabaseError =
    | IoError(detail: String)
    | LoadError(message: String)
    | FormatError(message: String)
    | MissingDefinition(name: String)

  /** `RegistryError`: the collision error `register_validator` no longer raises. */
  datatype RegistryError = NameError(name: String)
}
