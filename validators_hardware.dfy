/**
 * The hardware validators of src/validators/hardware.rs: pci_device (an ID
 * list after `pci:`, or a bus address), usb_device and dmi.
 */
module HardwareValidators {
  import opened Wrappers
  import opened Text
  import opened Toml
  import opened Validation

  // ---------------------------------------------------------------- four-digit IDs

  /** An ID passes both checks: four bytes long, and `u16::from_str_radix(part, 16)` succeeds. */
  predicate HexIdAccepted(part: String)
  {
    Utf8Len(part) == 4 && ParseUnsigned(part, 16, U16Bound).Some?
  }

  /**
   * What the two checks accept: four hex digits, or, since `from_str_radix` takes a
   * leading `+`, a `+` followed by three hex digits.
   */
  lemma HexIdAcceptedChars(part: String)
    ensures HexIdAccepted(part) <==> |part| == 4 && (AllHex(part) || (part[0] == '+' && AllHex(part[1..])))
  {
    if |part| == 4 && AllHex(part) {
      HexUtf8Len(part);
      assert AllDigitsIn(part, 16);
      DigitsValueBound(part, 16);
      assert !(part[0] == '+' || part[0] == '-');
    } else if |part| == 4 && part[0] == '+' && AllHex(part[1..]) {
      assert part == "+" + part[1..];
      Utf8LenConcat("+", part[1..]);
      HexUtf8Len(part[1..]);
      assert AllDigitsIn(part[1..], 16);
      DigitsValueBound(part[1..], 16);
    }
    if HexIdAccepted(part) {
      var digits := if part[0] == '+' then part[1..] else part;
      assert AllDigitsIn(digits, 16);
      assert AllHex(digits);
      HexUtf8Len(digits);
      if part[0] == '+' {
        assert part == "+" + digits;
        Utf8LenConcat("+", digits);
      }
    }
  }

  /** The error of the first of the two checks an ID fails. */
  function HexIdError(part: String, lengthMessage: String, hexMessage: String): (r: Option<ValidationResult>)
    ensures r.None? <==> HexIdAccepted(part)
    ensures Utf8Len(part) != 4 ==> r == Some(Error(lengthMessage))
    ensures r.Some? && Utf8Len(part) == 4 ==> r == Some(Error(hexMessage + Quoted(part)))
  {
    if Utf8Len(part) != 4 then Some(Error(lengthMessage))
    else if ParseUnsigned(part, 16, U16Bound).None? then Some(Error(hexMessage + Quoted(part)))
    else None
  }

  /** The index of the first ID from `k` on that fails. */
  function FirstBadId(parts: seq<String>, k: nat): (r: Option<nat>)
    requires k <= |parts|
    ensures r.None? <==> forall i :: k <= i < |parts| ==> HexIdAccepted(parts[i])
    ensures r.Some? ==> k <= r.value < |parts| && !HexIdAccepted(parts[r.value])
                        && forall j :: k <= j < r.value ==> HexIdAccepted(parts[j])
    decreases |parts| - k
  {
    if k == |parts| then None
    else if !HexIdAccepted(parts[k]) then Some(k)
    else FirstBadId(parts, k + 1)
  }

  /** The loop over the IDs: valid when all pass, otherwise the first failure's error. */
  function CheckIds(parts: seq<String>, lengthMessage: String, hexMessage: String): (r: ValidationResult)
    ensures r.Valid? <==> forall i :: 0 <= i < |parts| ==> HexIdAccepted(parts[i])
    ensures r.Valid? || r.Error?
  {
    match FirstBadId(parts, 0)
    case None => Valid
    case Some(i) => HexIdError(parts[i], lengthMessage, hexMessage).value
  }

  // ---------------------------------------------------------------- pci_device

  const PciIdCountMessage: String := "PCI ID must be vendor:device or vendor:device:subvendor:subdevice"

  /** `validate_pci_id_format`: two or four colon-separated IDs. */
  function ValidatePciIds(ids: String): (r: ValidationResult)
    ensures var parts := Split(ids, ':');
            r.Valid? <==> (|parts| == 2 || |parts| == 4) && forall i :: 0 <= i < |parts| ==> HexIdAccepted(parts[i])
    ensures var n := |Split(ids, ':')|; n != 2 && n != 4 ==> r == Error(PciIdCountMessage)
    ensures r.Valid? || r.Error?
  {
    var parts := Split(ids, ':');
    if |parts| != 2 && |parts| != 4 then Error(PciIdCountMessage)
    else CheckIds(parts, "PCI IDs must be 4-digit hex", "Invalid hex PCI ID: ")
  }

  /** One to `hi` hex digits. */
  predicate HexRun(s: String, hi: nat)
  {
    1 <= |s| <= hi && AllHex(s)
  }

  /** The text `(?:[0-9a-fA-F]{1,4}:)?[0-9a-fA-F]{1,2}:[0-9a-fA-F]{1,2}\.[0-7]`. */
  predicate PciAddressText(value: String)
  {
    |value| >= 2 && value[|value| - 2] == '.' && '0' <= value[|value| - 1] <= '7'
    && var fields := Split(value[..|value| - 2], ':');
       (|fields| == 2 && HexRun(fields[0], 2) && HexRun(fields[1], 2))
       || (|fields| == 3 && HexRun(fields[0], 4) && HexRun(fields[1], 2) && HexRun(fields[2], 2))
  }

  function ValidatePciAddress(value: String): (r: ValidationResult)
    ensures r.Valid? <==> PciAddressText(value)
    ensures !r.Valid? ==> r == Error("Invalid PCI address format: " + Quoted(value))
  {
    if PciAddressText(value) then Valid else Error("Invalid PCI address format: " + Quoted(value))
  }

  /** `pci:` introduces an ID list; anything else is read as a bus address. */
  function ValidatePciDevice(value: String, config: Config): (r: ValidationResult)
    ensures StartsWith(value, "pci:") ==> r == ValidatePciIds(value[4..])
    ensures !StartsWith(value, "pci:") ==> r == ValidatePciAddress(value)
    ensures !r.Unknown?
  {
    if StartsWith(value, "pci:") then ValidatePciIds(value[4..]) else ValidatePciAddress(value)
  }

  lemma NoColonInHex(s: String)
    requires AllHex(s)
    ensures ':' !in s
  {
    assert forall k :: 0 <= k < |s| ==> s[k] != ':';
  }

  /** Two hex runs joined by a colon split back into those runs. */
  lemma SplitTwoHex(a: String, b: String)
    requires AllHex(a) && AllHex(b)
    ensures Split(a + ":" + b, ':') == [a, b]
  {
    NoColonInHex(a);
    NoColonInHex(b);
    assert Join([a, b], ':') == a + ":" + b;
    SplitOfJoin([a, b], ':');
  }

  /** Three hex runs joined by colons split back into those runs. */
  lemma SplitThreeHex(a: String, b: String, c: String)
    requires AllHex(a) && AllHex(b) && AllHex(c)
    ensures Split(a + ":" + b + ":" + c, ':') == [a, b, c]
  {
    NoColonInHex(a);
    NoColonInHex(b);
    NoColonInHex(c);
    assert [a, b, c][1..] == [b, c];
    assert Join([b, c], ':') == b + ":" + c;
    assert Join([a, b, c], ':') == a + ":" + b + ":" + c;
    SplitOfJoin([a, b, c], ':');
  }

  /** Colon-separated fields of the right widths, a dot and a function number form a valid address. */
  lemma AddressOfHead(head: String, func: char)
    requires head != [] && IsHexDigit(head[0]) && '0' <= func <= '7'
    requires var fields := Split(head, ':');
             (|fields| == 2 && HexRun(fields[0], 2) && HexRun(fields[1], 2))
             || (|fields| == 3 && HexRun(fields[0], 4) && HexRun(fields[1], 2) && HexRun(fields[2], 2))
    ensures ValidatePciDevice(head + "." + [func], map[]) == Valid
  {
    var value := head + "." + [func];
    AddressTextOfHead(head, func);
    assert value[0] == head[0];
    DiffersAtStart(value, "pci:");
    assert ValidatePciAddress(value) == Valid;
  }

  lemma AddressTextOfHead(head: String, func: char)
    requires '0' <= func <= '7'
    requires var fields := Split(head, ':');
             (|fields| == 2 && HexRun(fields[0], 2) && HexRun(fields[1], 2))
             || (|fields| == 3 && HexRun(fields[0], 4) && HexRun(fields[1], 2) && HexRun(fields[2], 2))
    ensures PciAddressText(head + "." + [func])
  {
    var value := head + "." + [func];
    assert value[..|value| - 2] == head;
  }

  /** A bus address without a domain: `bus:dev.func`. */
  lemma PciAddressOfBus(bus: String, dev: String, func: char)
    requires HexRun(bus, 2) && HexRun(dev, 2) && '0' <= func <= '7'
    ensures ValidatePciDevice(bus + ":" + dev + "." + [func], map[]) == Valid
  {
    var head := bus + ":" + dev;
    SplitTwoHex(bus, dev);
    assert head[0] == bus[0];
    AddressOfHead(head, func);
  }

  /** A bus address with a domain: `domain:bus:dev.func`. */
  lemma PciAddressOfDomain(domain: String, bus: String, dev: String, func: char)
    requires HexRun(domain, 4) && HexRun(bus, 2) && HexRun(dev, 2) && '0' <= func <= '7'
    ensures ValidatePciDevice(domain + ":" + bus + ":" + dev + "." + [func], map[]) == Valid
  {
    var head := domain + ":" + bus + ":" + dev;
    SplitThreeHex(domain, bus, dev);
    assert head[0] == domain[0];
    AddressOfHead(head, func);
  }

  /** Two four-digit IDs after `pci:` are a valid ID list. */
  lemma PciIdsOfTwo(vendor: String, device: String)
    requires |vendor| == 4 && AllHex(vendor) && |device| == 4 && AllHex(device)
    ensures ValidatePciDevice("pci:" + vendor + ":" + device, map[]) == Valid
  {
    var value := "pci:" + vendor + ":" + device;
    assert value[..4] == "pci:" && value[4..] == vendor + ":" + device;
    NoColonInHex(vendor);
    NoColonInHex(device);
    assert Join([vendor, device], ':') == vendor + ":" + device;
    SplitOfJoin([vendor, device], ':');
    HexIdAcceptedChars(vendor);
    HexIdAcceptedChars(device);
  }

  /** `from_str_radix` takes a leading `+`, so `+` and three hex digits pass as a four-digit ID. */
  lemma PlusSignedIdAccepted(digits: String)
    requires |digits| == 3 && AllHex(digits)
    ensures HexIdAccepted("+" + digits)
  {
    var part := "+" + digits;
    assert part[1..] == digits;
    HexIdAcceptedChars(part);
  }

  // ---------------------------------------------------------------- usb_device

  function ValidateUsbDevice(value: String, config: Config): (r: ValidationResult)
    ensures !StartsWith(value, "usb:") ==> r == Error("USB device spec must start with 'usb:'")
    ensures r.Valid? <==> StartsWith(value, "usb:")
                          && var parts := Split(value[4..], ':');
                             |parts| == 2 && HexIdAccepted(parts[0]) && HexIdAccepted(parts[1])
    ensures r.Valid? || r.Error?
  {
    if !StartsWith(value, "usb:") then Error("USB device spec must start with 'usb:'")
    else
      var parts := Split(value[4..], ':');
      if |parts| != 2 then Error("USB device spec must be usb:vendor:product")
      else CheckIds(parts, "USB vendor/product IDs must be 4-digit hex", "Invalid hex USB ID: ")
  }

  /** `usb:` and two four-digit IDs is a valid USB spec. */
  lemma UsbOfIds(vendor: String, product: String)
    requires |vendor| == 4 && AllHex(vendor) && |product| == 4 && AllHex(product)
    ensures ValidateUsbDevice("usb:" + vendor + ":" + product, map[]) == Valid
  {
    var value := "usb:" + vendor + ":" + product;
    assert value[..4] == "usb:" && value[4..] == vendor + ":" + product;
    SplitTwoHex(vendor, product);
    HexIdAcceptedChars(vendor);
    HexIdAcceptedChars(product);
  }

  // ---------------------------------------------------------------- dmi

  const DmiFields: seq<String> := ["vendor", "product", "version", "serial", "uuid", "sku",
                                   "family", "board_vendor", "board_name", "chassis_vendor"]

  /**
   * `dmi:` then a field and a value split at the first further colon: an unknown field
   * is only a warning, and it is reported before an empty value.
   */
  function ValidateDmi(value: String, config: Config): (r: ValidationResult)
    ensures !StartsWith(value, "dmi:") ==> r == Error("DMI spec must start with 'dmi:'")
    ensures StartsWith(value, "dmi:") && ':' !in value[4..] ==> r == Error("DMI spec must be dmi:field:value")
    ensures r.Warning? <==> StartsWith(value, "dmi:") && SplitOnce(value[4..], ':').Some?
                            && SplitOnce(value[4..], ':').value.0 !in DmiFields
    ensures r.Valid? <==> StartsWith(value, "dmi:") && SplitOnce(value[4..], ':').Some?
                          && SplitOnce(value[4..], ':').value.0 in DmiFields
                          && SplitOnce(value[4..], ':').value.1 != ""
    ensures !r.Unknown?
  {
    if !StartsWith(value, "dmi:") then Error("DMI spec must start with 'dmi:'")
    else
      match SplitOnce(value[4..], ':')
      case None => Error("DMI spec must be dmi:field:value")
      case Some((field, fieldValue)) =>
        if field !in DmiFields then
          Warning("Unknown DMI field: " + Quoted(field) + ". Valid: " + DebugList(DmiFields))
        else if fieldValue == "" then Error("DMI value cannot be empty")
        else Valid
  }

  /** `dmi:<field>:<text>` for a known field and non-empty text is valid; the text may contain colons. */
  lemma DmiOfField(field: String, text: String)
    requires field in DmiFields && text != ""
    ensures ValidateDmi("dmi:" + field + ":" + text, map[]) == Valid
  {
    var value := "dmi:" + field + ":" + text;
    assert value[..4] == "dmi:" && value[4..] == field + [':'] + text;
    assert ':' !in field;
    SplitOnceOfConcat(field, ':', text);
  }
}
