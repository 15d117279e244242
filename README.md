# libkcmdline in Dafny

This project models the core of libkcmdline. libkcmdline is a Rust library that knows the Linux kernel command line: it loads a database of parameters and validates parameter values. It also models `tools/parse-kernel-params.py`, the script that reads the kernel's `kernel-parameters.txt` and builds the parameter table.

The model covers these parts:

- **TOML values** (`toml.dfy`). A small TOML value type and the typed `get(..).and_then(as_*)` accessors that the validators use on their configuration tables.
- **Validators** (`validation.dfy` and `validators_*.dfy`):
  - the common validators: boolean, integer, enum, size, hex and key=value;
  - the kernel validators: CPU lists, memory ranges and I/O ranges;
  - the hardware validators: PCI devices, USB devices and DMI fields;
  - the dracut and systemd validators;
  - the registry. It dispatches on a closed set of validator kinds and keeps the two lookup tables of `StandardValidatorRegistry`.

  Each validator is a function on the value text and its configuration. Its contract says which inputs it accepts, which error it reports otherwise, and that it never answers `Unknown`. Round-trip lemmas show that well-formed values are accepted.
- **Database** (`sources.dfy`, `database.dfy`).
  - The layered loading of definition sources. The last source that defines a name wins.
  - The version overlays.
  - `DatabaseLoader`, a class. The loop inside its `build_database` (the method `LoadAll` here) fills the parameter map and the sub-parameter index. Its loop invariants state which names are loaded and that each child is indexed under its parent.
- **Catalog and queries** (`catalog.dfy`, `query.dfy`, `config.dfy`, `kcmdline.dfy`):
  - the catalog lookups;
  - the query builders and their laws;
  - the parameter configuration constructors;
  - the And/Or combination of the seven query conditions in `KCmdline::matches_query`.
- **The parsing tool** (`kernel_params_tool.dfy`).
  - The Python string operations the script relies on: `strip`, `split` and `replace`.
  - `parse_flags` and `parse_values`, each with a round-trip lemma.
  - `process_kernel_parameters`, written as a loop over the lines that `readline` returns. It is proved equal to a step function, and lemmas describe what each kind of line does to the table.

Shared helpers are in `wrappers.dfy` (Option and Result), `text.dfy` (prefixes, `split` and `join`, digits, and the UTF-8 length of a string) and `parameter.dfy` (the record types of `src/parameter.rs`).

## Model

| member | source | states |
|---|---|---|
| Toml.GetBool | src/validators/common.rs:89-91 | `get(key).and_then(as_bool)`: present exactly when the key holds a boolean, and then that boolean |
| Toml.GetInteger | src/validators/common.rs:36-37 | `get(key).and_then(as_integer)`: present exactly when the key holds an integer, and then that integer |
| Toml.GetStr | src/validators/common.rs:158-160 | `get(key).and_then(as_str)`: present exactly when the key holds a string, and then that string |
| Toml.GetArray | src/validators/common.rs:84 | `get(key).and_then(as_array)`: present exactly when the key holds an array, and then its items |
| Toml.StrItems | src/validators/common.rs:85 | `filter_map(as_str)`: the string items of an array and no others, never more of them than items |
| Toml.StrItemsConcat | src/validators/common.rs:85 | the string items of a concatenation are those of the first part followed by those of the second, so the array's order is kept |
| Toml.StrItemsSingle | src/validators/common.rs:85 | one item gives its text when it is a string, and nothing otherwise |
| Toml.StrItemsCounts | src/validators/common.rs:85 | each string occurs among the results exactly as often as it occurs as an item |
| CommonValidators.ValidateBoolean | src/validators/common.rs:9-17 | valid exactly for the empty value and the ten boolean tokens; every other value gets the "Invalid boolean value" error that quotes it |
| CommonValidators.BooleanExamples | src/validators/common.rs:10-15 | the empty value and `yes` are valid and `maybe` is an error, whatever the configuration |
| CommonValidators.ValidateInteger | src/validators/common.rs:28-47 | valid exactly when the value parses as an i64 and, when both `min` and `max` are integers, lies between them; an unparsable value gets "Invalid integer"; never a warning |
| CommonValidators.IntegerOfDecimal | src/validators/common.rs:29-46 | the decimal text of every i64 is accepted exactly when that number is in the configured range |
| CommonValidators.IntegerExamples | src/validators/common.rs:35-44 | with `min` 0 and `max` 10, `5` is valid while `11` and `x` are errors |
| CommonValidators.SizeCaptures | src/validators/common.rs:59-63 | matches exactly the text `(\d+)([KMG]?)`: a digit run and a suffix in "", K, M, G that concatenate back to the value |
| CommonValidators.ValidateSize | src/validators/common.rs:58-72 | valid exactly for that size text, otherwise the "Invalid size format" error; the `unwrap` of the u64 parse is the precondition that the digits fit |
| CommonValidators.EnumChoices | src/validators/common.rs:84-87 | present exactly when `choices` is an array, and then its string items (`StrItems`), in order and with their repeats |
| CommonValidators.FirstInvalidPart | src/validators/common.rs:103-108 | the first comma part whose trimmed text is not a choice, with every earlier part a choice; none exactly when every part is a choice |
| CommonValidators.EnumVerdict | src/validators/common.rs:98-113 | valid exactly when the value is empty and empty is allowed, or every trimmed part (allow_multiple) or the whole value is a choice; never a warning |
| CommonValidators.ValidateEnum | src/validators/common.rs:83-114 | without a `choices` array the "No choices configured" error; otherwise valid exactly when the value is accepted with the configured `allow_empty` and `allow_multiple` flags (default false) |
| CommonValidators.EnumNeedsChoices | src/validators/common.rs:84-87 | a configuration without a `choices` array rejects every value with the same error |
| Text.KeepWithPrefix | src/validators/common.rs:122 | `filter(starts_with(partial))`: only strings with the prefix, every such string present, as a subsequence of the input |
| Text.KeepWithPrefixConcat | src/validators/common.rs:122 | filtering a concatenation gives the first part's kept strings followed by the second part's |
| Text.KeepWithPrefixSingle | src/validators/common.rs:122 | one string is kept exactly when it has the prefix |
| Text.KeepWithPrefixCounts | src/validators/common.rs:122 | each string with the prefix occurs exactly as often as in the input, and no other string occurs |
| CommonValidators.EnumCompletions | src/validators/common.rs:116-127 | only string choices that start with the partial text, as a subsequence of the choices; empty when `choices` is not an array |
| CommonValidators.EnumCompletionsInOrder | src/validators/common.rs:116-127 | for choices split as `before + after`, the completions of `before` come first, then those of `after`: the configured order is kept |
| CommonValidators.EnumCompletionCounts | src/validators/common.rs:116-127 | a string choice with the prefix is offered exactly as often as it is configured, and nothing else is offered |
| CommonValidators.ValidateHex | src/validators/common.rs:138-146 | valid exactly for `0x` followed by one or more hex digits, otherwise the "Invalid hex format" error |
| CommonValidators.HexPrefixes | src/validators/common.rs:139 | `0x` with hex digits is valid, while `0X` with the same digits and a bare `0x` are errors |
| CommonValidators.ValidateKeyValue | src/validators/common.rs:157-174 | split at the first occurrence of the configured separator (default `=`): no separator or an empty key is an error, an empty value a warning, and anything else valid |
| CommonValidators.KeyValueOfParts | src/validators/common.rs:162-170 | for a key without `=`, `key=val` gives the empty-key error, the empty-value warning or Valid, as the parts dictate |
| KernelValidators.ParseDecimal | src/validators/kernel.rs:59 | a digit run whose value is below the bound parses to that value |
| KernelValidators.MatchCpuRange | src/validators/kernel.rs:52 | a match is a digit run, optionally followed by `-` and a second digit run, and the captures concatenate back to the text |
| KernelValidators.MatchCpuRangeIsRegex | src/validators/kernel.rs:52 | the matcher accepts exactly the text `\d+(-\d+)?` |
| KernelValidators.MatchCpuRangeSound | src/validators/kernel.rs:52 | every text the matcher accepts is of that form |
| KernelValidators.MatchCpuRangeComplete | src/validators/kernel.rs:52 | every text of that form is accepted |
| KernelValidators.CpuRangeOfDigits | src/validators/kernel.rs:52 | a lone digit run is captured as a start with no end |
| KernelValidators.CpuRangeOfParts | src/validators/kernel.rs:52 | `a-b` on digit runs is captured as start `a` and end `b` |
| KernelValidators.MatchCpuItem | src/validators/kernel.rs:52-58 | the captured start and end are nonempty digit runs |
| KernelValidators.MatchCpuItemIsRegex | src/validators/kernel.rs:52 | the item matcher accepts exactly the text `\^?\d+(-\d+)?` |
| KernelValidators.CheckCpuItem | src/validators/kernel.rs:57-73 | no error exactly when the trimmed item matches, uses `^` only where exclusion is supported, and has an end above its start; otherwise an error |
| KernelValidators.CheckCpuItems | src/validators/kernel.rs:54-76 | valid exactly when every remaining comma part, trimmed, is an accepted item; otherwise an error |
| KernelValidators.ValidateCpuItems | src/validators/kernel.rs:51-77 | `validate_cpu_list`: valid exactly when every comma part, trimmed, is accepted; the `unwrap` of the u32 parses is the precondition that those digits fit |
| KernelValidators.ValidFlags | src/validators/kernel.rs:29-32 | no `valid_flags` array gives the empty list; otherwise the string items of that array, in order and with their repeats, non-strings skipped (the order and count laws are `Toml.StrItemsConcat`, `Toml.StrItemsSingle` and `Toml.StrItemsCounts`) |
| KernelValidators.FirstRejectedFlag | src/validators/kernel.rs:34-38 | the first flag rejected by a nonempty `valid_flags` list, with every earlier flag accepted; none exactly when all are accepted |
| KernelValidators.SplitCpuFlags | src/validators/kernel.rs:20-25 | flags are split off only when supported and a `:` is present, at the first `:`; otherwise the whole value is the CPU part |
| KernelValidators.ValidateCpuList | src/validators/kernel.rs:10-43 | valid exactly when every flag is accepted and the CPU part is accepted with the configured exclusion support; never a warning |
| KernelValidators.AscendingRangeAccepted | src/validators/kernel.rs:65-70 | `a-b` with `a < b` is accepted and its reverse `b-a` is rejected |
| KernelValidators.AscendingRangeMatch | src/validators/kernel.rs:52 | the decimal text `a-b` is captured as start `a` and end `b` with no exclusion |
| KernelValidators.ExclusionNeedsSupport | src/validators/kernel.rs:61-63 | `^n` is accepted exactly when exclusion is supported |
| KernelValidators.MemorySeparatorPosition | src/validators/kernel.rs:86 | the separator position lies within the value |
| KernelValidators.NoSeparatorInSize | src/validators/kernel.rs:86 | a size text `\d+[KMG]?` holds no `@`, `#` or `$` |
| KernelValidators.MemorySeparatorIsUnique | src/validators/kernel.rs:86 | a separator that follows a size text is the one the matcher finds |
| KernelValidators.ValidateMemoryRange | src/validators/kernel.rs:84-93 | valid exactly for the text `\d+[KMG]?[@#$]\d+[KMG]?`, otherwise the "Invalid memory range format" error |
| KernelValidators.MemoryMatchIsRegex | src/validators/kernel.rs:86-88 | splitting at the found separator agrees exactly with the regular expression |
| KernelValidators.MemoryRangeOfSizes | src/validators/kernel.rs:85-89 | `sizeM@start`, and the same with `#` or `$`, is valid |
| KernelValidators.IoNumber | src/validators/kernel.rs:114-120 | a number is present only when it fits in u64 |
| KernelValidators.IoNumberError | src/validators/kernel.rs:113-121 | an error exactly when the part is neither `0x` with a u64 hex number nor a u64 decimal number |
| KernelValidators.ValidateIoRange | src/validators/kernel.rs:104-127 | no comma gives "must specify base,size", a part count other than two gives "must be base,size", and the range is valid exactly when both parts are u64 numbers |
| KernelValidators.IoRangeOfNumbers | src/validators/kernel.rs:106-123 | `base,size` in decimal with both below 2^64 is valid |
| KernelValidators.CommaJoin | src/validators/kernel.rs:107 | two digit runs joined by a comma split back into the two runs |
| KernelValidators.DecimalIoNumber | src/validators/kernel.rs:118 | the decimal text of a u64 reads back as that number |
| HardwareValidators.HexIdAcceptedChars | src/validators/hardware.rs:33-38 | a part passes both checks exactly when it is four characters that are all hex digits, or `+` and three hex digits (what `from_str_radix` accepts) |
| HardwareValidators.HexIdError | src/validators/hardware.rs:32-39 | no error exactly when the part is accepted; a byte length other than 4 gives the length message, and a 4-byte part that is not hex gives the quoting hex message |
| HardwareValidators.FirstBadId | src/validators/hardware.rs:32-39 | the first rejected part, with every earlier part accepted; none exactly when all are accepted |
| HardwareValidators.CheckIds | src/validators/hardware.rs:32-41 | valid exactly when every part is accepted; otherwise an error |
| HardwareValidators.ValidatePciIds | src/validators/hardware.rs:25-42 | valid exactly when the colon split has two or four parts and all are accepted; another part count gives the count error |
| HardwareValidators.ValidatePciAddress | src/validators/hardware.rs:44-52 | valid exactly for `[dddd:]bb:dd.f` (hex fields of 1-4, 1-2 and 1-2 digits, function 0-7), otherwise the "Invalid PCI address format" error |
| HardwareValidators.ValidatePciDevice | src/validators/hardware.rs:9-17 | a value starting with `pci:` is checked as an ID list after the prefix, any other as a bus address; never Unknown |
| HardwareValidators.NoColonInHex | src/validators/hardware.rs:46 | a hex field holds no colon |
| HardwareValidators.SplitTwoHex | src/validators/hardware.rs:27 | two hex runs joined by a colon split back into the two runs |
| HardwareValidators.SplitThreeHex | src/validators/hardware.rs:46 | three hex runs joined by colons split back into the three runs |
| HardwareValidators.AddressTextOfHead | src/validators/hardware.rs:46 | fields of the right widths followed by `.` and a function 0-7 form the address text |
| HardwareValidators.AddressOfHead | src/validators/hardware.rs:12-15 | such an address starts with a hex digit, not `pci:`, so the device validator accepts it |
| HardwareValidators.PciAddressOfBus | src/validators/hardware.rs:44-51 | `bus:dev.func` with 1-2 digit hex fields and a function 0-7 is valid |
| HardwareValidators.PciAddressOfDomain | src/validators/hardware.rs:44-51 | `domain:bus:dev.func` with a 1-4 digit domain is valid |
| HardwareValidators.PciIdsOfTwo | src/validators/hardware.rs:12-13 | `pci:vvvv:dddd` with two four-digit hex IDs is valid |
| HardwareValidators.PlusSignedIdAccepted | src/validators/hardware.rs:36 | `+` followed by three hex digits passes the ID check |
| HardwareValidators.ValidateUsbDevice | src/validators/hardware.rs:63-84 | a value without `usb:` gets the prefix error; valid exactly when the rest splits at colons into two accepted IDs; never a warning |
| HardwareValidators.UsbOfIds | src/validators/hardware.rs:63-83 | `usb:vvvv:pppp` with two four-digit hex IDs is valid |
| HardwareValidators.ValidateDmi | src/validators/hardware.rs:95-123 | a value without `dmi:` or without a second `:` is an error; a field outside the ten known ones is a warning; valid exactly for a known field with a nonempty value |
| HardwareValidators.DmiOfField | src/validators/hardware.rs:106-122 | `dmi:field:text` with a known field and nonempty text is valid |
| DracutValidators.ValidateLvmLv | src/validators/dracut.rs:9-24 | no `/` gives the format error; valid exactly for a nonempty volume group without `/`, a `/` and a nonempty logical volume; the starts-with-`/` error is unreachable, since the split is at the first `/`; never a warning |
| DracutValidators.LvmOfParts | src/validators/dracut.rs:11-20 | for a slash-free group, `vg/lv` gives the empty-group error, the empty-volume error or Valid, in that order |
| DracutValidators.ValidateLuksName | src/validators/dracut.rs:35-53 | no `=` gives the format error; a first part that is not a UUID is a warning; valid exactly for a UUID, `=` and a nonempty name without `/` |
| DracutValidators.NoDashInHex | src/validators/dracut.rs:39 | a hex group holds neither `-` nor `=` |
| DracutValidators.UuidOfGroups | src/validators/dracut.rs:39 | five hex groups of 8, 4, 4, 4 and 12 digits joined by `-` form a UUID without `=` |
| DracutValidators.JoinOfHexHasNoEquals | src/validators/dracut.rs:37 | hex groups joined by `-` hold no `=`, so the split happens after the UUID |
| DracutValidators.LuksOfUuid | src/validators/dracut.rs:37-48 | `uuid=name` with a real UUID and a nonempty slash-free name is valid |
| DracutValidators.ValidateBreak | src/validators/dracut.rs:64-80 | valid exactly for the empty value and the eight break points; otherwise the error quoting the value and listing them |
| DracutValidators.ValidateNetwork | src/validators/dracut.rs:91-109 | fewer than seven colon fields is the field-count error; valid exactly when the seventh field is one of the eight boot protocols; never a warning |
| DracutValidators.NetworkOfFields | src/validators/dracut.rs:94-108 | seven or more colon-free fields with a known protocol in the seventh, joined by `:`, are valid |
| SystemdValidators.ValidateUnit | src/validators/systemd.rs:9-31 | the empty value is an error; a value without one of the ten unit suffixes is a warning; valid exactly for a suffixed value with no `/` or `\` |
| SystemdValidators.SeparatorAfterSuffix | src/validators/systemd.rs:20-28 | the suffix check comes first: `dir/name.service` is the path-separator error, while `dir/name` without a suffix is only a warning |
| SystemdValidators.UnitCompletions | src/validators/systemd.rs:33-42 | exactly the four fixed targets that start with the partial text, in their fixed order |
| SystemdValidators.AllCompletionsForEmpty | src/validators/systemd.rs:34-41 | the empty partial text offers all four targets |
| ValidatorRegistry.Validate | src/validators/mod.rs:18-19 | `validate` on any built-in validator (the seventeen structs of the five validator files) never answers Unknown; the precondition is that no `unwrap` of a digit run panics |
| ValidatorRegistry.CompletionSuggestions | src/validators/mod.rs:20-22 | only the enum and systemd-unit validators override the empty default, and every suggestion starts with the partial text |
| ValidatorRegistry.Lookup | src/validators/mod.rs:79-86 | found exactly when either table has the name; the processor table wins, the common table is the fallback |
| ValidatorRegistry.FreshLookups | src/validators/mod.rs:55-75 | a fresh registry resolves exactly the ten inserted names; `usb_device`, `dmi`, `systemd_unit` and `io_range` are unreachable by name |
| ValidatorRegistry.StandardValidatorRegistry.constructor | src/validators/mod.rs:55-75 | `new` fills the common table with six validators and the processor table with four |
| ValidatorRegistry.StandardValidatorRegistry.GetValidator | src/validators/mod.rs:79-86 | found exactly when either table has the name; the processor table's entry wins, and the common table's entry is the fallback |
| ValidatorRegistry.StandardValidatorRegistry.GetValidatorIgnoresProcessor | src/validators/mod.rs:79 | the processor argument does not change the answer |
| ValidatorRegistry.StandardValidatorRegistry.RegisterValidator | src/validators/mod.rs:88-94 | always Ok (the collision check is commented out); the processor entry is overwritten, so the name resolves to the new validator even over a common one, and every other name resolves as before |
| Sources.ChildNamed | src/database.rs:342-344 | a child is found exactly when the node is a directory with an entry of that name |
| Sources.FirstNamed | src/database.rs:342-344 | found exactly when some entry has the name, and what is found is the node of such an entry |
| Sources.Lookup | src/database.rs:342-344 | the empty path resolves to the node itself |
| Sources.NameSegments | src/database.rs:343 | `Path::join` of a relative name: its components, each nonempty, not `.` and free of `/` |
| Sources.PathSegments | src/database.rs:343 | empty and `.` components are dropped; never more components than parts |
| Sources.Extend | src/database.rs:400-404 | an empty prefix gives the bare name, any other `prefix/name` |
| Sources.Appended | src/database.rs:353 | a failed walk passes its error on; a successful one appends the names it found, in order |
| Sources.CollectParametersRecursive | src/database.rs:416-445 | the walk appends exactly the names `Collect` gives for the tree, aborting with the first unreadable entry's error |
| Sources.CollectComplete | src/database.rs:426-440 | every directory below the walked one that holds `definition.toml` is listed under its slash-joined path |
| Sources.EntriesComplete | src/database.rs:422-442 | the same for one entry of a directory listing |
| Sources.CollectSound | src/database.rs:434-437 | every listed name is the slash-joined path of a directory holding `definition.toml` |
| Sources.EntriesSound | src/database.rs:422-442 | the same for a directory listing, naming the entry the name comes from |
| Sources.NewFilesystem | src/database.rs:334-340 | a missing root is the "Database path does not exist" load error; an existing one gives a filesystem source over that tree |
| Sources.FilesystemListing | src/database.rs:348-357 | without a `parameters` directory the listing is empty; otherwise it holds exactly the names of the directories below it with a `definition.toml` |
| Sources.ReadRecord | src/database.rs:359-373 | a missing file is `Ok(None)`. A readable file gives `Ok(Some(v))` exactly when it decodes to `v`, and otherwise a format error. A failed read, or a directory in the file's place, gives a load error |
| Sources.ListParameters | src/database.rs:348-357 | a mapped source gives its listing; the filesystem gives nothing without a `parameters` directory, and otherwise the walk, which fails only with an I/O error |
| Sources.GetDefinition | src/database.rs:359-373 | a mapped source gives `Ok(None)` for an absent name and otherwise its stored answer; the filesystem reads `definition.toml` as `ReadRecord` states |
| Sources.GetVersions | src/database.rs:375-389 | a mapped source gives `Ok(None)` for an absent name and otherwise its stored answer; the filesystem reads `versions.toml` as `ReadRecord` states |
| Sources.GetChildren | src/database.rs:391-412 | a mapped source gives its stored children or none; on the filesystem a missing parent has no children, and every failure is an I/O error |
| Sources.Collect | src/database.rs:416-445 | a file in place of a directory is the not-a-directory error, and the walk fails only with I/O errors |
| Sources.DirectoryChildren | src/database.rs:396-408 | fails exactly when an entry cannot be read; otherwise exactly the directory entries, prefixed with the parent |
| Sources.FilesystemChildren | src/database.rs:391-412 | `get_subparameters` on an existing directory lists exactly its subdirectories under `parent/` |
| Database.ParseProcessor | src/database.rs:221-231 | accepted exactly for the six processor names, `systemd` with minimum version 219 and `dracut` with 011; any other text is the "Unknown processor" format error |
| Database.ParseProcessorInverse | src/database.rs:221-231 | a parsed processor prints back as its name, and a processor is parsed back from its name exactly when it carries the fixed minimum version |
| Database.ParentName | src/database.rs:233-236 | none exactly when the name has no `/`; otherwise the text before the last `/` |
| Database.ParentOfJoin | src/database.rs:233-236 | the parent of `parent/child`, for a slash-free child, is `parent` |
| Database.ParentSkipsLast | src/database.rs:235 | appending a character other than `/` does not change the parent |
| Database.ConvertRawParameter | src/database.rs:197-219 | fails exactly when the processor or one of the three converters fails, an unknown processor first; otherwise copies the raw fields, with `deprecated` false and `selectors` empty by default |
| Database.Scan | src/database.rs:179-187 | a successful scan means every source answered both questions; no sources keep nothing |
| Database.ScanSucceeds | src/database.rs:180-187 | the scan of the sources succeeds exactly when every source answers both questions without error |
| Database.ScanStep | src/database.rs:180-187 | one more source keeps what it answers with `Some` and otherwise what was kept before |
| Database.ScanNoDefinition | src/database.rs:181-183 | no definition is kept exactly when every source answers `None` |
| Database.ScanLastDefinition | src/database.rs:181-183 | the kept definition is that of the last source that has one |
| Database.ScanNoVersions | src/database.rs:184-186 | no versions record is kept exactly when every source answers `None` |
| Database.ScanLastVersions | src/database.rs:184-186 | the kept versions record is that of the last source that has one |
| Database.ScanLastSome | src/database.rs:179-187 | later sources override earlier ones: last `Some` wins, for the definition and the versions record independently |
| Database.LoadSpec | src/database.rs:175-195 | a scan error is the result; no definition loads as `Ok(None)`; a loaded parameter carries the name of the kept definition |
| Database.UndefinedLoadsNothing | src/database.rs:189-194 | a name that no source defines loads as `Ok(None)`, whatever the versions records say |
| Database.AllNames | src/database.rs:137-142 | a successful collection means every source listed without error |
| Database.AllNamesListed | src/database.rs:138-142 | the collected set holds exactly the names some source lists |
| Database.Push | src/database.rs:149-152 | `entry(k).or_insert_with(Vec::new).push(m)` adds `k` to the keys and nothing else |
| Database.IndexInsert | src/database.rs:145-166 | pushing a new name under its key keeps the index exact over the names done: nonempty duplicate-free lists of exactly the names with that key |
| Database.GetParameter | src/database.rs:256-258 | found exactly when the name is loaded, and then its parameter |
| Database.PresentParameters | src/database.rs:264-266 | `filter_map`: only parameters of present names, and no more of them than names; as many as names when every name is present |
| Database.PresentParametersConcat | src/database.rs:264-266 | the result for a concatenation is the result for the first part followed by the result for the second, so the list's order is kept |
| Database.PresentParametersSingle | src/database.rs:264-266 | one name gives its parameter when it is stored, and nothing otherwise |
| Database.GetSubparameters | src/database.rs:260-269 | an unindexed parent gives the empty list |
| Database.ParametersByProcessor | src/database.rs:271-280 | an unindexed processor gives the empty list |
| Database.AllParameters | src/database.rs:282-284 | exactly the stored parameters |
| Database.BuildLookup | src/database.rs:145-157 | in a built database a name is found exactly when some source lists it and it loads to a parameter, and then it is that parameter |
| Database.UnloadedNotIndexed | src/database.rs:145-166 | a name that did not load appears in neither index |
| Database.NotIndexedOutside | src/database.rs:145-166 | an index over a set of names lists no other name |
| Database.IndexedPresent | src/database.rs:260-280 | over an exact index, `filter_map` yields exactly the parameters whose key is the one asked for, one per indexed name |
| Database.SubparametersOfBuild | src/database.rs:146-153 | every loaded name with a parent is indexed under it, and `get_subparameters` yields exactly the loaded parameters directly below that parent |
| Database.ProcessorIndexOfBuild | src/database.rs:160-166 | every loaded parameter is indexed under its full processor value, and `parameters_by_processor` yields exactly the parameters with that processor |
| Database.DatabaseLoader.constructor | src/database.rs:102-107 | `new`: no sources and no cache |
| Database.DatabaseLoader.WithSource | src/database.rs:109-112 | a source is pushed last and the cache is untouched |
| Database.DatabaseLoader.WithFilesystem | src/database.rs:114-118 | a missing path is the load error with the sources unchanged; otherwise the filesystem source is pushed last |
| Database.DatabaseLoader.LoadParameter | src/database.rs:175-195 | the loop over the sources computes `LoadSpec`: the last definition and versions, their conversion, or the first error |
| Database.DatabaseLoader.BuildDatabase | src/database.rs:132-173 | succeeds exactly when every source lists without error and every listed name loads; the result is the build of the sources, and an error is one of those failures |
| Database.DatabaseLoader.CollectNames | src/database.rs:137-142 | the first loop gives the union of all listings, or the first listing error |
| Database.DatabaseLoader.LoadAll | src/database.rs:144-157 | the second loop succeeds exactly when every name loads; the map holds exactly the names that load to a parameter, and the parent index is exact |
| Database.DatabaseLoader.LoadOne | src/database.rs:146-156 | one pass of that loop keeps its invariant, or reports the load error of that name |
| Database.DatabaseLoader.LoadingStored | src/database.rs:146-155 | a name that loads to a parameter joins the map and the parent index |
| Database.DatabaseLoader.LoadingSkipped | src/database.rs:146 | a name that loads to nothing changes neither |
| Database.DatabaseLoader.Load | src/database.rs:120-125 | a cached database is returned unchanged; otherwise it is built and cached, and a failed build leaves the cache empty |
| Database.DatabaseLoader.Reload | src/database.rs:127-130 | drops the cache and builds from the current sources |
| Database.BuildProcessorIndex | src/database.rs:159-166 | the third loop builds an exact index of the loaded names by processor |
| Database.ScanErrorPersists | src/database.rs:181-184 | the `?` on a source's answer aborts the scan: a failed prefix decides the whole result |
| Database.AllNamesErrorPersists | src/database.rs:139 | the first listing error decides the collection |
| Catalog.Filter | src/catalog.rs:62-64 | `filter(..).collect()`: only elements `keep` accepts, every accepted value present, as a subsequence of the input |
| Catalog.FilterConcat | src/catalog.rs:62-64 | filtering a concatenation gives the first part's kept elements followed by the second part's |
| Catalog.FilterSingle | src/catalog.rs:62-64 | one element is kept exactly when `keep` accepts it |
| Catalog.FilterCounts | src/catalog.rs:62-64 | each accepted value occurs exactly as often as in the input, and no other value occurs |
| Catalog.AllParameters | src/catalog.rs:48-50 | `parameters()`: every stored parameter, one per stored name, in one fixed iteration order |
| Catalog.OrderLength | src/catalog.rs:49 | the iteration order visits each stored name once |
| Catalog.DistinctCount | src/catalog.rs:49 | a duplicate-free list of names has as many distinct names as entries |
| Catalog.PresentInOrder | src/catalog.rs:70-72 | when every name is stored, `filter_map` yields their parameters position by position |
| Catalog.EachStoredOnce | src/catalog.rs:48-50 | each stored parameter appears in `parameters()` exactly once, at its name's position |
| Catalog.GetParameter | src/catalog.rs:52-54 | found exactly when the name is stored, and then it is one of `parameters()` |
| Catalog.GetSubparameters | src/catalog.rs:67-75 | an unindexed parent gives the empty list; otherwise exactly the stored parameters of the indexed children, all among `parameters()` |
| Catalog.SubparametersInIndexOrder | src/catalog.rs:67-75 | for an index list `before + [child] + after`, the result is the parameters of `before`, then the child's parameter when it is stored, then those of `after`: index order, with unstored names skipped |
| Catalog.GetApplicableParameters | src/catalog.rs:61-65 | only parameters applicable to the probe, every applicable one present, as a subsequence of `parameters()` |
| Catalog.ApplicableCounts | src/catalog.rs:61-65 | each applicable parameter occurs exactly as often as in `parameters()`, and no other parameter occurs |
| Query.New | src/query.rs:37-39 | the default query: And mode and no constraint set |
| Query.EmptyQueryIsDefault | src/query.rs:4-16 | a query sets no constraint and uses And mode exactly when it is the default |
| Query.WithNamePattern | src/query.rs:41-44 | a pattern that does not compile is the regex error; otherwise only the name field changes, to that pattern |
| Query.WithProcessor | src/query.rs:46-49 | only the processor field changes, to the given processor |
| Query.ApplicableOnly | src/query.rs:51-54 | only the applicable field changes, to `Some(true)` |
| Query.BuildersCommute | src/query.rs:41-54 | the builders touch disjoint fields, so they commute; setting a field twice keeps the last value |
| Config.FromBool | src/config.rs:14-16 | builds the Boolean variant holding the value |
| Config.FromInt | src/config.rs:18-20 | builds the Integer variant holding the value |
| Config.FromString | src/config.rs:22-24 | builds the String variant holding the value |
| Config.FromStringList | src/config.rs:26-28 | builds the List variant holding the values |
| Config.FromCpuList | src/config.rs:30-32 | builds a CPU list with no flags |
| Config.WithFlags | src/config.rs:34-39 | replaces the flags of a CPU list and leaves every other variant unchanged |
| Config.WithFlagsLaws | src/config.rs:30-39 | setting flags twice keeps the last set, `from_cpu_list(..).with_flags(f)` is the CPU list with `f`, and empty flags change nothing exactly when there were none |
| KCmdlineApi.Conditions | src/lib.rs:75-83 | the seven condition checks, in source order |
| KCmdlineApi.All | src/lib.rs:86 | `iter().all`: true exactly when every element is true |
| KCmdlineApi.Any | src/lib.rs:87 | `iter().any`: true exactly when some element is true |
| KCmdlineApi.MatchesQuery | src/lib.rs:74-89 | And mode needs all seven conditions and Or mode any one of them |
| KCmdlineApi.AndImpliesOr | src/lib.rs:85-88 | when the conditions do not depend on the mode, an And match is also an Or match |
| KCmdlineApi.QueryParameters | src/lib.rs:40-44 | only catalog parameters that match the query, every matching one present, as a subsequence of `parameters()` |
| KCmdlineApi.QueryCounts | src/lib.rs:40-44 | each matching parameter occurs exactly as often as in `parameters()`, and no other parameter occurs |
| KCmdlineApi.NameQuery | src/lib.rs:94-97 | sets only the name pattern on the default query |
| KCmdlineApi.FindParameters | src/lib.rs:92-98 | for a pattern that compiles (the `unwrap`), the query with only that name set, which is what `with_name_pattern` gives on a new query |
| KCmdlineApi.PciQuery | src/lib.rs:101-104 | sets only the single PCI ID pair on the default query |
| KCmdlineApi.ParametersForPciDevice | src/lib.rs:100-105 | exactly the parameters for which all seven conditions hold on that query |
| KernelParamsTool.PyLstrip | tools/parse-kernel-params.py:54 | `lstrip()`: no longer than its input, and the result never starts with white space |
| KernelParamsTool.PyRstrip | tools/parse-kernel-params.py:68 | `rstrip()`: the result is a prefix of the input that does not end with white space, and every character dropped is white space |
| KernelParamsTool.LstripGap | tools/parse-kernel-params.py:54 | `lstrip` drops exactly the leading white space in front of text that does not start with white space |
| KernelParamsTool.PySplitWhitespace | tools/parse-kernel-params.py:54 | `split(maxsplit=m)`: at most `m + 1` parts, none of them empty and none starting with white space; empty exactly when the line is all white space |
| KernelParamsTool.SplitOneWord | tools/parse-kernel-params.py:54 | with splits left, the first word after leading white space is split off and the rest is split with one fewer |
| KernelParamsTool.SplitOfFields | tools/parse-kernel-params.py:54-57 | a parameter line of name, flags and description splits into exactly those three fields |
| KernelParamsTool.ParseFlags | tools/parse-kernel-params.py:22-25 | at least one flag, and no flag holds a comma |
| KernelParamsTool.ParseFlagsOfList | tools/parse-kernel-params.py:22-25 | round trip: a bracketed comma-joined list of flags parses back to the same flags |
| KernelParamsTool.ReplaceAll | tools/parse-kernel-params.py:32 | `str.replace`: a replacement no longer than the pattern never lengthens the text |
| KernelParamsTool.FlattenNestedGroup | tools/parse-kernel-params.py:31-32 | replacing every `{ {` turns a nested group into the same group with single braces |
| KernelParamsTool.ParseValues | tools/parse-kernel-params.py:28-35 | at least one value, and no value starts or ends with a tab, blank or quote |
| KernelParamsTool.StripValues | tools/parse-kernel-params.py:35 | one stripped value per item |
| KernelParamsTool.SeparatorOfChoices | tools/parse-kernel-params.py:34 | the separator is `\|` exactly when the group holds a `\|` |
| KernelParamsTool.ParseValuesOfChoices | tools/parse-kernel-params.py:28-35 | round trip: a braced group of plain choices joined by `\|` or `,` parses back to the same choices |
| KernelParamsTool.SplitName | tools/parse-kernel-params.py:56-57 | `split("=", maxsplit=1)`: the name holds no `=`; there is a format part exactly when the word holds `=`, and name, `=` and format rebuild the word |
| KernelParamsTool.ParameterLineFields | tools/parse-kernel-params.py:46-55 | a line that starts a parameter has a first field, which is its first word after the tab |
| KernelParamsTool.RunStep | tools/parse-kernel-params.py:43 | the run over one more line is one more step of the loop |
| KernelParamsTool.LinesBeforeEof | tools/parse-kernel-params.py:43 | the loop reads lines up to the first empty read, which `readline` returns at end of file |
| KernelParamsTool.CompleteParameter | tools/parse-kernel-params.py:48-52 | completes the pending parameter: with none the table is unchanged, else it is stored under its name with format `flag` when it had none |
| KernelParamsTool.ReadParameterLine | tools/parse-kernel-params.py:53-66 | builds the new parameter from the line's fields, with the `sdw_mclk_divider` special case |
| KernelParamsTool.ReadDetailLine | tools/parse-kernel-params.py:67-94 | the three-tab line handling: `Format:` lines, whole and glued value groups, plain braces and description text |
| KernelParamsTool.ProcessLine | tools/parse-kernel-params.py:44-94 | one iteration of the loop body, on the table, the pending parameter and the pending format line |
| KernelParamsTool.ProcessKernelParameters | tools/parse-kernel-params.py:37-95 | the table after running the loop body over every line read before end of file |
| KernelParamsTool.ParameterLineStartsParameter | tools/parse-kernel-params.py:46-66 | a parameter line stores the pending parameter (format `flag` when empty) and starts a new one whose name is the first word up to `=`, with no values, leaving the pending format line alone |
| KernelParamsTool.NameOfParameterLine | tools/parse-kernel-params.py:54-57 | the new parameter's name is the first word, or the part of it before `=`, and holds no `=` |
| KernelParamsTool.OtherLineKeepsParams | tools/parse-kernel-params.py:44-94 | only a parameter line changes the table of completed parameters |
| KernelParamsTool.TrailingLinesKeepParams | tools/parse-kernel-params.py:43-95 | lines after the last parameter line do not change the returned table |
| KernelParamsTool.SingleParameterNotStored | tools/parse-kernel-params.py:48-52 | the last parameter is never completed, so a file with one parameter gives the empty table |
| KernelParamsTool.BlankLineExtendsDescription | tools/parse-kernel-params.py:44-45 | a blank line appends a newline to the pending parameter's description and changes nothing else |
| KernelParamsTool.ValueGroupLine | tools/parse-kernel-params.py:79-81 | a whole `{…}` group with a separator sets the values to the parsed group and the format to `enum` |
| KernelParamsTool.ClosingGroupLine | tools/parse-kernel-params.py:84-88 | a line closing a pending group sets the values parsed from the glued text and the format to `enum`, and clears the pending format line |
| KernelParamsTool.FormatLine | tools/parse-kernel-params.py:71-76 | a `Format:` line without braces and with no group pending sets the format to its text and changes nothing else |

## Left out

- The real filesystem in `FilesystemDatabase`. `fs::read_dir`, `exists` and `read_to_string` are replaced by a directory tree value (`Sources.Node`). A failed read of a file, a `read_dir` that fails and a failed directory entry each carry their I/O error text. A directory whose listing fails (`Sources.Node.UnreadableDir`) has no children in the model, so `ReadRecord` and `GetChildren` answer below it as if nothing were stored there; a real directory that can be traversed but not listed would still let `exists` and `read_to_string` reach the files below it. `Collect` fails on such a directory in both.
- `toml::from_str`. A definition source hands back raw records or an error; the TOML text itself is not parsed.
- `convert_distributions`, `convert_examples` and `convert_documentation`, which are `todo!()`. They are function-valued inputs of `Database.ConvertRawParameter`.
- The seven `check_*_condition` methods of `KCmdline`, which are `todo!()`. They are seven function-valued inputs (`KCmdlineApi.Checks`), so only their combination is modelled.
- `Parameter::is_applicable` and `is_available_in_distribution`, which are `todo!()`. `is_applicable` is a function-valued input of `Catalog.GetApplicableParameters`.
- `regex::Regex::new` in `with_name_pattern` and `find_parameters`. Whether a pattern compiles, and the compiler's message, are a function-valued input `syntaxError`.
- The regex crate. Each pattern is written as a predicate on characters. Rust's `\d` also matches non-ASCII Unicode digits, but the model reads it as the ASCII digits `0`-`9`.
- `SystemProbe::new` and the `probe_*` functions (`/proc`, `/sys`, `/etc/os-release`, all `todo!()`). The probe is a given value.
- `src/parser.rs` (`parse`, `validate`, `parse_single` and `build` are all `todo!()`), `src/version.rs` (data only) and `build.rs` (code generation) are not part of this model.
- `EmbeddedDatabase` and `with_embedded`. They rely on `include!` data, and their lookups are `todo!()`.
- `ParameterCatalog::load_embedded`, `query_parameters` and `build_parameter_tree`, which are `todo!()`.
- Iteration order of `HashMap` and `HashSet`. Names, children and processor buckets are sets, or sequences chosen without a fixed order. `Catalog.AllParameters` follows one fixed order of the stored names.
- Database.AllParameters: states the set of loaded parameters, not how often each appears, because the order of `values()` is not modelled.
- `dyn Validator`, `Send + Sync` and `clone_boxed`. The registry stores a closed set of validator kinds (`ValidatorRegistry.ValidatorKind`), so a user-defined validator cannot be registered.
- `ValidationSummary` (src/validators/mod.rs:40). None of the modelled operations builds it.
- The panicking `unwrap` on digit runs in the size validator (a run over `u64`, src/validators/common.rs:62) and the CPU list validator (a run over `u32`, src/validators/kernel.rs:59 and 66). These are preconditions (`CommonValidators.SizeDigitsFit`, `KernelValidators.CpuListFits`).
- The `ParameterConfig::String` variant is named `Str`, because `string` is a type name in Dafny.
- In the Python tool: printing (`dump_*`), `argparse`, `main` and opening the input file. The input is the sequence of results of `readline`, and its first empty result ends the loop. The output is the `params` table without the order of its keys.
- In the Python tool, two inputs raise `IndexError`. One is a bare `"\t"` line (`line[1]`). The other is `sdw_mclk_divider` written without `=` (`name_parts[1]`). A precondition (`KernelParamsTool.Processable`) excludes both.
- KernelParamsTool.PySplitWhitespace: does not state that its words hold no inner white space. Lemmas about parameter lines (`SplitOfFields`, `ParameterLineFields`) state what the fields are.
- KCmdlineApi.Conditions: states only that there are seven checks. The checks themselves are `todo!()` in the library.
- Sources.NameSegments: a name that is absolute or holds a `..` component gives no path, so the filesystem source answers as if nothing were stored under it. Rust's `Path::join` (src/database.rs:342-344) would instead resolve such a name outside the `parameters` directory, a part of the filesystem the model's tree does not hold.
- Text.EscapeDebug: writes `\u{..}` only for the control characters U+0000-U+001F, U+007F and U+0080-U+009F that have no short escape. Rust also escapes the other characters its Unicode tables mark as not printable or as grapheme extenders; the model copies those unchanged.
- Strings are sequences of Unicode scalar values. Where the library measures byte length (`len()` on the PCI ID fields), the model uses the UTF-8 encoded length.
