/** The four-way outcome every validator produces (src/validators/mod.rs). */
module Validation {
  import opened Text

  /**
   * Valid; Warning: accepted but suspicious; Error: rejected;
   * Unknown: no schema entry (never produced by a validator itself).
   */
  datatype ValidationResult =
    | Valid
    | Warning(reason: String)
    | Error(reason: String)
    | Unknown(name: String)
}
