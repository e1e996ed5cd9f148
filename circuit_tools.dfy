// Model of kicad_mcp/tools/circuit_tools.py: the symbol classifier, the
// power-symbol table and `#PWR` numbering, the millimetre to internal-unit
// conversion, the format gate in front of every JSON modification, the
// warning rules of `validate_schematic`, and `add_power_symbol(s)` over a
// schematic file held as state.
module CircuitTools {
  import opened Common
  import opened ComponentUtils
  import ValidationTools

  // ---------------------------------------------------------------------
  // `_get_component_type_from_symbol`

  const SymbolTypes: set<string> :=
    {"resistor", "capacitor", "inductor", "led", "diode", "transistor", "switch", "connector", "ic", "default"}

  const McuLibraries: seq<string> := ["mcu", "microcontroller", "mcu_espressif"]

  /** The component type of a library symbol: exact names first, then name
      substrings, then the library, in this order; case does not matter. */
  function ComponentTypeFromSymbol(library: string, name: string): (r: string)
    ensures r in SymbolTypes
    ensures r == "led" <==> Lower(name) == "led"
    ensures r == "switch" ==> Lower(library) == "switch"
    ensures r == "connector" ==> Lower(library) == "connector"
    ensures Lower(library) in McuLibraries ==> r != "default"
  {
    var lib := Lower(library);
    var n := Lower(name);
    if n in ["r", "resistor"] then "resistor"
    else if n in ["c", "capacitor"] then "capacitor"
    else if n in ["l", "inductor"] then "inductor"
    else if n == "led" then "led"
    else if n in ["d", "diode"] then "diode"
    else if Contains(n, "transistor") || Contains(n, "npn") || Contains(n, "pnp") then "transistor"
    else if lib == "switch" then "switch"
    else if lib == "connector" then "connector"
    else if Contains(n, "ic") || Contains(n, "mcu") || Contains(n, "esp32") || lib in McuLibraries then "ic"
    else "default"
  }

  /** Names are matched exactly: "R_Small" from "Device" is not a resistor. */
  lemma VariantNameIsDefault(library: string, name: string)
    requires library == "Device" && name == "R_Small"
    ensures ComponentTypeFromSymbol(library, name) == "default"
  {
    var n := Lower(name);
    assert n == "r_small";
    assert Lower(library) == "device";
    AbsentChar(n, "transistor", 0);
    AbsentChar(n, "npn", 0);
    AbsentChar(n, "pnp", 0);
    AbsentChar(n, "ic", 0);
    AbsentChar(n, "mcu", 1);
    AbsentChar(n, "esp32", 0);
  }

  /** For "R" and "C" of the Device library this classifier and the lib_id
      classifier of the validation tools give the same type. */
  lemma DevicePassivesAgree(library: string, name: string)
    requires library == "Device" && (name == "R" || name == "C")
    ensures ComponentTypeFromSymbol(library, name) == ValidationTools.ComponentTypeFromLibId(library + ":" + name)
  {
    if name == "R" {
      assert Lower(name) == "r";
      ValidationTools.DeviceRIsResistor(library + ":" + name);
    } else {
      assert Lower(name) == "c";
      ValidationTools.DeviceCIsCapacitor(library + ":" + name);
    }
  }

  /** For "LED" they disagree: an exact-name "led" here, an "inductor" for
      the lib_id "Device:LED", where ":l" is checked before "led". */
  lemma LedClassifiersDisagree(library: string, name: string)
    requires library == "Device" && name == "LED"
    ensures ComponentTypeFromSymbol(library, name) == "led"
    ensures ValidationTools.ComponentTypeFromLibId(library + ":" + name) == "inductor"
  {
    assert Lower(name) == "led";
    ValidationTools.LedReadsAsInductor(library + ":" + name);
  }

  // ---------------------------------------------------------------------
  // The power-symbol table and `#PWR` references

  const PowerSymbols: map<string, string> := map[
    "VCC" := "power:VCC", "GND" := "power:GND", "+5V" := "power:+5V",
    "+3V3" := "power:+3V3", "+12V" := "power:+12V", "-12V" := "power:-12V"]

  /** The keys of the table in their insertion order, as `list(keys())` lists them. */
  const PowerTypeOrder: seq<string> := ["VCC", "GND", "+5V", "+3V3", "+12V", "-12V"]

  const PowerPrefix: string := "power:"

  /** The lib_id of a power type, or None for a type outside the table. */
  function PowerLibId(powerType: string): (r: Option<string>)
    ensures r.Some? <==> powerType in PowerTypeOrder
    ensures r.Some? ==> r.value == PowerPrefix + powerType
  {
    if powerType in PowerSymbols then Some(PowerSymbols[powerType]) else None
  }

  /** Python's `repr` of a list of strings without quotes in them. */
  function ListRepr(items: seq<string>): string {
    "[" + Quoted(items) + "]"
  }

  function Quoted(items: seq<string>): string
    decreases |items|
  {
    if items == [] then ""
    else if |items| == 1 then "'" + items[0] + "'"
    else "'" + items[0] + "', " + Quoted(items[1..])
  }

  function UnknownPowerType(powerType: string): string {
    "Unknown power type: " + powerType + ". Available types: " + ListRepr(PowerTypeOrder)
  }

  /** `f"#PWR0{n + 1:03d}"` for n power symbols already in the schematic. */
  function PowerReference(existing: nat): (r: string)
    ensures StartsWith(r, "#PWR0") && |r| >= 8
    ensures AllDigits(r[5..])
  {
    "#PWR0" + Pad3(existing + 1)
  }

  /** Zeros in front of a run of digits do not change its value. */
  lemma {:induction false} LeadingZerosIgnored(z: string, d: string)
    requires AllZeros(z) && AllDigits(d)
    ensures AllDigits(z + d)
    ensures DigitsValue(z + d) == DigitsValue(d)
  {
    if d == [] {
      assert z + d == z;
      DigitsValueBound(z);
    } else {
      var init := d[..|d| - 1];
      LeadingZerosIgnored(z, init);
      assert (z + d)[..|z + d| - 1] == z + init;
    }
  }

  /** The zero-padded digits read back as the number. */
  lemma Pad3Value(n: nat)
    ensures DigitsValue(Pad3(n)) == n
  {
    NatToStringValue(n);
    var d := NatToString(n);
    if |d| < 3 {
      LeadingZerosIgnored(seq(3 - |d|, _ => '0'), d);
    }
  }

  /** The number after "#PWR0" is one more than the power symbols already
      placed. */
  /** The number a `#PWR0...` reference carries after its five-character
      prefix (0 for text of another shape). */
  function ReferenceNumber(r: string): nat {
    if |r| >= 5 && AllDigits(r[5..]) then DigitsValue(r[5..]) else 0
  }

  lemma PowerReferenceNumber(existing: nat)
    ensures DigitsValue(PowerReference(existing)[5..]) == existing + 1
    ensures ReferenceNumber(PowerReference(existing)) == existing + 1
  {
    assert PowerReference(existing)[5..] == Pad3(existing + 1);
    Pad3Value(existing + 1);
  }

  /** Different counts give different references. */
  lemma PowerReferencesDistinct(a: nat, b: nat)
    requires a != b
    ensures PowerReference(a) != PowerReference(b)
  {
    PowerReferenceNumber(a);
    PowerReferenceNumber(b);
  }

  /** The first power symbol is "#PWR0001". */
  lemma FirstPowerReference(existing: nat)
    requires existing == 0
    ensures PowerReference(existing) == "#PWR0001"
  {
    assert NatToString(1) == "1";
  }

  // ---------------------------------------------------------------------
  // Internal units

  /** `int(mm * 10)`: tenths of a millimetre, truncated toward zero as
      Python's `int()` does. */
  function ToInternal(mm: real): (r: int)
    ensures 0.0 <= mm ==> 0 <= r && r as real <= mm * 10.0 < r as real + 1.0
    ensures mm < 0.0 ==> r <= 0 && r as real - 1.0 < mm * 10.0 <= r as real
  {
    var t := mm * 10.0;
    if t >= 0.0 then t.Floor else -((-t).Floor)
  }

  /** Truncation is symmetric about zero, unlike the floor. */
  lemma ToInternalOdd(mm: real)
    ensures ToInternal(-mm) == -ToInternal(mm)
  {
    var a, b := ToInternal(mm), ToInternal(-mm);
    if mm > 0.0 {
      SameWholePart(a, -b, mm * 10.0);
    } else if mm < 0.0 {
      SameWholePart(-a, b, -mm * 10.0);
    }
  }

  /** Only one integer n has n <= t < n + 1. */
  lemma SameWholePart(m: int, n: int, t: real)
    requires m as real <= t < m as real + 1.0 && n as real <= t < n as real + 1.0
    ensures m == n
  {
  }

  // ---------------------------------------------------------------------
  // Symbol entries written into a JSON schematic

  datatype Label = Label(name: string, value: string, at: (int, int, int), hidden: bool)

  datatype SymbolEntry = SymbolEntry(libId: Option<string>, at: (int, int, int), uuid: string, property: seq<Label>)

  /** The entry for a new symbol at internal position (x, y): the Reference
      label 254 units above, the Value label 254 units below, Footprint and
      Datasheet empty and hidden on the symbol itself. */
  function NewSymbol(libId: string, reference: string, value: string, uuid: string, x: int, y: int): SymbolEntry {
    SymbolEntry(Some(libId), (x, y, 0), uuid,
                [Label("Reference", reference, (x, y - 254, 0), false),
                 Label("Value", value, (x, y + 254, 0), false),
                 Label("Footprint", "", (x, y, 0), true),
                 Label("Datasheet", "", (x, y, 0), true)])
  }

  /** The entry as the validation tools' JSON extractor sees it. */
  function AsFound(e: SymbolEntry): ValidationTools.JsonSymbol {
    ValidationTools.JsonSymbol(
      Some(seq(|e.property|, i requires 0 <= i < |e.property| =>
                 ValidationTools.PropertyEntry(Some(e.property[i].name), Some(e.property[i].value)))),
      Some([e.at.0 as real, e.at.1 as real, e.at.2 as real]),
      e.libId)
  }

  /** A symbol placed at (x, y) mm is read back by the boundary validation
      with its reference and lib_id, less than 0.1 mm from where it was
      asked for, and exactly there when both coordinates are whole tenths. */
  lemma NewSymbolReadsBack(libId: string, reference: string, value: string, uuid: string, x: real, y: real)
    ensures var c := ValidationTools.ComponentOf(AsFound(NewSymbol(libId, reference, value, uuid, ToInternal(x), ToInternal(y))));
            c.reference == reference && c.libId == libId &&
            -0.1 < c.position.x - x < 0.1 && -0.1 < c.position.y - y < 0.1 &&
            ((x * 10.0).Floor as real == x * 10.0 && (y * 10.0).Floor as real == y * 10.0 ==> c.position == Point(x, y))
  {
    var e := NewSymbol(libId, reference, value, uuid, ToInternal(x), ToInternal(y));
    var props := AsFound(e).property.value;
    assert props[0] == ValidationTools.PropertyEntry(Some("Reference"), Some(reference));
    ExactTenths(x);
    ExactTenths(y);
  }

  /** Converted to internal units and back, a coordinate moves by less than
      a tenth of a millimetre, and not at all when it is a whole tenth. */
  lemma ExactTenths(v: real)
    ensures -0.1 < ToInternal(v) as real / 10.0 - v < 0.1
    ensures (v * 10.0).Floor as real == v * 10.0 ==> ToInternal(v) as real / 10.0 == v
  {
    var k := ToInternal(v);
    if (v * 10.0).Floor as real == v * 10.0 {
      var f := (v * 10.0).Floor;
      if v >= 0.0 {
        SameWholePart(k, f, v * 10.0);
      } else {
        SameWholePart(-k, -f, -v * 10.0);
      }
    }
  }

  // ---------------------------------------------------------------------
  // The file and the format gate (`_read_schematic_for_modification`)

  /** The top-level JSON object of a legacy schematic, as far as the tools
      use it: its "symbol" list, None when the key is missing. */
  datatype JsonDoc = JsonDoc(symbol: Option<seq<SymbolEntry>>)

  function Symbols(doc: JsonDoc): seq<SymbolEntry> {
    OrElse(doc.symbol, [])
  }

  datatype ReadResult = Readable(data: JsonDoc) | Refused(error: string, suggestion: Option<string>)

  const SexprHeader: string := "(kicad_sch"

  const SexprRefusal: string :=
    "Schematic is in S-expression format. Use create_kicad_schematic_from_text for modifying S-expression schematics."

  const SexprSuggestion: string := "Use the text-to-schematic tools for better S-expression support"

  const NotJsonRefusal: string := "Schematic file is not valid JSON or S-expression format"

  const NoSchematicError: string := "No schematic file found in project"

  predicate IsSexprText(content: string) {
    StartsWith(Strip(content), SexprHeader)
  }

  /** The gate: S-expression content is refused with a suggestion; other
      content is accepted exactly when it is JSON (`json` is what
      `json.loads` makes of the stripped content, None when it raises). */
  function ReadForModification(content: string, json: Option<JsonDoc>): (r: ReadResult)
    ensures r.Readable? <==> !IsSexprText(content) && json.Some?
    ensures r.Readable? ==> r.data == json.value
    ensures r.Refused? && r.suggestion.Some? <==> IsSexprText(content)
    ensures r.Refused? ==> r.error == (if IsSexprText(content) then SexprRefusal else NotJsonRefusal)
  {
    if IsSexprText(content) then Refused(SexprRefusal, Some(SexprSuggestion))
    else if json.None? then Refused(NotJsonRefusal, None)
    else Readable(json.value)
  }

  /** The project's schematic: none at all, a file as found on disk with
      what `json.loads` makes of it, or a file this module wrote with
      `json.dump` (an object, so it reads back as the same document). */
  datatype FileState =
    | NoSchematic
    | OnDisk(content: string, json: Option<JsonDoc>)
    | Written(doc: JsonDoc)

  function Reading(f: FileState): ReadResult
    requires !f.NoSchematic?
  {
    match f
    case OnDisk(content, json) => ReadForModification(content, json)
    case Written(doc) => Readable(doc)
  }

  predicate Modifiable(f: FileState) {
    !f.NoSchematic? && Reading(f).Readable?
  }

  // ---------------------------------------------------------------------
  // `add_power_symbol`

  datatype PowerRequest = PowerRequest(powerType: string, x: real, y: real)

  datatype PowerResult =
    | PowerAdded(reference: string, uuid: string, position: (real, real), powerType: string)
    | PowerFailed(error: string)

  predicate IsPowerEntry(e: SymbolEntry) {
    StartsWith(OrElse(e.libId, ""), PowerPrefix)
  }

  /** How many entries have a lib_id starting with "power:". */
  function PowerCount(symbols: seq<SymbolEntry>): (n: nat)
    ensures n <= |symbols|
  {
    if symbols == [] then 0
    else PowerCount(symbols[..|symbols| - 1]) + (if IsPowerEntry(symbols[|symbols| - 1]) then 1 else 0)
  }

  /** One call: the type is checked first, then the schematic's presence,
      then the gate; a failure leaves the file as it was, a success appends
      one power symbol numbered after those already there. */
  function PowerStep(f: FileState, q: PowerRequest, uuid: string): (out: (PowerResult, FileState))
    ensures out.0.PowerAdded? <==> q.powerType in PowerTypeOrder && Modifiable(f)
    ensures out.0.PowerFailed? ==> out.1 == f
    ensures q.powerType !in PowerTypeOrder ==> out.0 == PowerFailed(UnknownPowerType(q.powerType))
    ensures q.powerType in PowerTypeOrder && f.NoSchematic? ==> out.0 == PowerFailed(NoSchematicError)
    ensures out.0.PowerAdded? ==>
              var before := Symbols(Reading(f).data);
              out.0 == PowerAdded(PowerReference(PowerCount(before)), uuid, (q.x, q.y), q.powerType) &&
              out.1.Written? && |Symbols(out.1.doc)| == |before| + 1 &&
              Symbols(out.1.doc)[..|before|] == before && PowerCount(Symbols(out.1.doc)) == PowerCount(before) + 1
  {
    match PowerLibId(q.powerType)
    case None => (PowerFailed(UnknownPowerType(q.powerType)), f)
    case Some(libId) =>
      if f.NoSchematic? then (PowerFailed(NoSchematicError), f)
      else
        match Reading(f)
        case Refused(error, _) => (PowerFailed(error), f)
        case Readable(doc) =>
          var before := Symbols(doc);
          var reference := PowerReference(PowerCount(before));
          var entry := NewSymbol(libId, reference, q.powerType, uuid, ToInternal(q.x), ToInternal(q.y));
          assert (before + [entry])[..|before|] == before;
          assert StartsWith(OrElse(entry.libId, ""), PowerPrefix);
          (PowerAdded(reference, uuid, (q.x, q.y), q.powerType), Written(JsonDoc(Some(before + [entry]))))
  }

  /** `add_power_symbols`: one call per request, in order, against the file
      each previous call left behind. */
  function PowerSteps(f: FileState, requests: seq<PowerRequest>, uuids: seq<string>): (out: (seq<PowerResult>, FileState))
    requires |uuids| == |requests|
    ensures |out.0| == |requests|
    decreases |requests|
  {
    if requests == [] then ([], f)
    else
      var last := |requests| - 1;
      var prev := PowerSteps(f, requests[..last], uuids[..last]);
      var step := PowerStep(prev.1, requests[last], uuids[last]);
      (prev.0 + [step.0], step.1)
  }

  /** How many requests name a known power type. */
  function KnownCount(requests: seq<PowerRequest>): (n: nat)
    ensures n <= |requests|
  {
    if requests == [] then 0
    else KnownCount(requests[..|requests| - 1]) + (if requests[|requests| - 1].powerType in PowerTypeOrder then 1 else 0)
  }

  /** After a batch on a modifiable schematic the file is still modifiable
      and holds one more power symbol per request of a known type. */
  lemma {:induction false} PowerStateAfter(f: FileState, requests: seq<PowerRequest>, uuids: seq<string>)
    requires |uuids| == |requests| && Modifiable(f)
    ensures Modifiable(PowerSteps(f, requests, uuids).1)
    ensures PowerCount(Symbols(Reading(PowerSteps(f, requests, uuids).1).data)) ==
              PowerCount(Symbols(Reading(f).data)) + KnownCount(requests)
  {
    if requests != [] {
      var last := |requests| - 1;
      PowerStateAfter(f, requests[..last], uuids[..last]);
    }
  }

  /** On a modifiable schematic with n power symbols, exactly the requests
      of a known type succeed, each numbered after n and the successes
      before it; an unknown type takes no number. */
  lemma {:induction false} PowerNumbering(f: FileState, requests: seq<PowerRequest>, uuids: seq<string>, i: nat)
    requires |uuids| == |requests| && Modifiable(f) && i < |requests|
    ensures NumberedAs(PowerSteps(f, requests, uuids).0[i], requests[i].powerType in PowerTypeOrder,
                       PowerCount(Symbols(Reading(f).data)) + KnownCount(requests[..i]))
  {
    var last := |requests| - 1;
    if i == last {
      LastPowerNumbered(f, requests, uuids, i);
    } else {
      var init, initUuids := requests[..last], uuids[..last];
      PowerStepsAt(f, requests, uuids, i);
      PowerNumbering(f, init, initUuids, i);
      assert init[..i] == requests[..i];
      var r, r0 := PowerSteps(f, requests, uuids).0[i], PowerSteps(f, init, initUuids).0[i];
      var known := requests[i].powerType in PowerTypeOrder;
      var n := PowerCount(Symbols(Reading(f).data)) + KnownCount(requests[..i]);
      assert r == r0 && init[i] == requests[i];
      assert NumberedAs(r0, known, n);
    }
  }

  lemma LastPowerNumbered(f: FileState, requests: seq<PowerRequest>, uuids: seq<string>, last: nat)
    requires |uuids| == |requests| && Modifiable(f) && last + 1 == |requests|
    ensures NumberedAs(PowerSteps(f, requests, uuids).0[last], requests[last].powerType in PowerTypeOrder,
                       PowerCount(Symbols(Reading(f).data)) + KnownCount(requests[..last]))
  {
    var init, initUuids := requests[..last], uuids[..last];
    var prev := PowerSteps(f, init, initUuids);
    PowerStepsAt(f, requests, uuids, last);
    PowerStateAfter(f, init, initUuids);
    PowerStepNumbered(prev.1, requests[last], uuids[last]);
  }

  /** A result succeeds exactly when `known`, and then carries the reference
      numbered after `existing` symbols. */
  predicate NumberedAs(r: PowerResult, known: bool, existing: nat) {
    (r.PowerAdded? <==> known) && (r.PowerAdded? ==> r.reference == PowerReference(existing))
  }

  lemma PowerStepNumbered(f: FileState, q: PowerRequest, uuid: string)
    requires Modifiable(f)
    ensures NumberedAs(PowerStep(f, q, uuid).0, q.powerType in PowerTypeOrder, PowerCount(Symbols(Reading(f).data)))
  {
  }

  /** The i-th result of a batch: the last call's, or the earlier batch's. */
  lemma PowerStepsAt(f: FileState, requests: seq<PowerRequest>, uuids: seq<string>, i: nat)
    requires |uuids| == |requests| && i < |requests|
    ensures i + 1 == |requests| ==>
              PowerSteps(f, requests, uuids).0[i]
              == PowerStep(PowerSteps(f, requests[..i], uuids[..i]).1, requests[i], uuids[i]).0
    ensures i + 1 < |requests| ==>
              PowerSteps(f, requests, uuids).0[i] == PowerSteps(f, requests[..|requests| - 1], uuids[..|requests| - 1]).0[i]
  {
  }

  /** With every type known, the i-th request succeeds as the (n + i + 1)-th
      power symbol. */
  lemma {:induction false} ConsecutivePowerReferences(f: FileState, requests: seq<PowerRequest>, uuids: seq<string>, i: nat)
    requires |uuids| == |requests| && Modifiable(f)
    requires forall k :: 0 <= k < |requests| ==> requests[k].powerType in PowerTypeOrder
    requires i < |requests|
    ensures PowerSteps(f, requests, uuids).0[i].PowerAdded?
    ensures PowerSteps(f, requests, uuids).0[i].reference == PowerReference(PowerCount(Symbols(Reading(f).data)) + i)
    ensures ReferenceNumber(PowerSteps(f, requests, uuids).0[i].reference) == PowerCount(Symbols(Reading(f).data)) + i + 1
  {
    var n := PowerCount(Symbols(Reading(f).data));
    var out := PowerSteps(f, requests, uuids).0;
    PowerNumbering(f, requests, uuids, i);
    assert requests[i].powerType in PowerTypeOrder;
    assert out[i].PowerAdded?;
    AllKnownPrefix(requests, i);
    assert out[i].reference == PowerReference(n + i);
    PowerReferenceNumber(n + i);
  }

  /** ... and no two of them get the same reference. */
  lemma {:induction false} PowerReferencesUnique(f: FileState, requests: seq<PowerRequest>, uuids: seq<string>, i: nat, j: nat)
    requires |uuids| == |requests| && Modifiable(f)
    requires forall k :: 0 <= k < |requests| ==> requests[k].powerType in PowerTypeOrder
    requires i < j < |requests|
    ensures PowerSteps(f, requests, uuids).0[i].PowerAdded? && PowerSteps(f, requests, uuids).0[j].PowerAdded?
    ensures PowerSteps(f, requests, uuids).0[i].reference != PowerSteps(f, requests, uuids).0[j].reference
  {
    ConsecutivePowerReferences(f, requests, uuids, i);
    ConsecutivePowerReferences(f, requests, uuids, j);
  }

  lemma {:induction false} AllKnownPrefix(requests: seq<PowerRequest>, i: nat)
    requires i <= |requests|
    requires forall k :: 0 <= k < |requests| ==> requests[k].powerType in PowerTypeOrder
    ensures KnownCount(requests[..i]) == i
  {
    if i > 0 {
      AllKnownPrefix(requests, i - 1);
      assert requests[..i][..i - 1] == requests[..i - 1];
    }
  }

  /** Without a modifiable schematic every call fails and the file is left
      as it was. */
  lemma {:induction false} UnmodifiableFailsAll(f: FileState, requests: seq<PowerRequest>, uuids: seq<string>)
    requires |uuids| == |requests| && !Modifiable(f)
    ensures var out := PowerSteps(f, requests, uuids);
            out.1 == f && forall i :: 0 <= i < |requests| ==> out.0[i].PowerFailed?
  {
    if requests != [] {
      var last := |requests| - 1;
      UnmodifiableFailsAll(f, requests[..last], uuids[..last]);
    }
  }

  /** The project's schematic file, changed by the tools that add to it. */
  class SchematicFile {
    var file: FileState

    constructor (initial: FileState)
      ensures file == initial
    {
      file := initial;
    }

    /** `add_power_symbol`, with the new symbol's uuid given. */
    method AddPowerSymbol(q: PowerRequest, uuid: string) returns (result: PowerResult)
      modifies this
      ensures (result, file) == PowerStep(old(file), q, uuid)
    {
      var libId := PowerLibId(q.powerType);
      if libId.None? {
        return PowerFailed(UnknownPowerType(q.powerType));
      }
      if file.NoSchematic? {
        return PowerFailed(NoSchematicError);
      }
      var read := Reading(file);
      if read.Refused? {
        return PowerFailed(read.error);
      }
      var symbols := Symbols(read.data);
      var reference := PowerReference(PowerCount(symbols));
      var entry := NewSymbol(libId.value, reference, q.powerType, uuid, ToInternal(q.x), ToInternal(q.y));
      file := Written(JsonDoc(Some(symbols + [entry])));
      result := PowerAdded(reference, uuid, (q.x, q.y), q.powerType);
    }

    /** `add_power_symbols`: the results in request order, and success when
        every call succeeded. */
    method AddPowerSymbols(requests: seq<PowerRequest>, uuids: seq<string>) returns (success: bool, results: seq<PowerResult>)
      requires |uuids| == |requests|
      modifies this
      ensures (results, file) == PowerSteps(old(file), requests, uuids)
      ensures |results| == |requests|
      ensures success <==> forall i :: 0 <= i < |results| ==> results[i].PowerAdded?
    {
      results := [];
      var i := 0;
      while i < |requests|
        invariant 0 <= i <= |requests|
        invariant (results, file) == PowerSteps(old(file), requests[..i], uuids[..i])
      {
        assert requests[..i + 1][..i] == requests[..i];
        assert uuids[..i + 1][..i] == uuids[..i];
        var r := AddPowerSymbol(requests[i], uuids[i]);
        results := results + [r];
        i := i + 1;
      }
      assert requests[..i] == requests && uuids[..i] == uuids;
      success := forall k :: 0 <= k < |results| ==> results[k].PowerAdded?;
    }
  }

  // ---------------------------------------------------------------------
  // `validate_schematic`

  /** A property of a symbol; a None field is a missing key. */
  datatype CheckProperty = CheckProperty(name: Option<string>, value: Option<string>)

  datatype CheckSymbol = CheckSymbol(property: Option<seq<CheckProperty>>)

  /** What the validator reads: the "symbol" list and the length of the
      "wire" list, each None when the key is missing. */
  datatype CheckData = CheckData(symbol: Option<seq<CheckSymbol>>, wire: Option<nat>)

  /** A symbol's reference and value, or the key whose absence raised. */
  datatype Labels = Labels(reference: string, value: string) | MissingKey(key: string)

  function ApplyLabel(acc: Labels, p: CheckProperty): Labels {
    match acc
    case MissingKey(_) => acc
    case Labels(reference, value) =>
      if p.name.None? then MissingKey("name")
      else if p.name.value == "Reference" then
        (if p.value.None? then MissingKey("value") else Labels(p.value.value, value))
      else if p.name.value == "Value" then
        (if p.value.None? then MissingKey("value") else Labels(reference, p.value.value))
      else acc
  }

  function LabelsOf(props: seq<CheckProperty>): Labels {
    if props == [] then Labels("Unknown", "Unknown")
    else ApplyLabel(LabelsOf(props[..|props| - 1]), props[|props| - 1])
  }

  function SymbolLabels(s: CheckSymbol): Labels {
    if s.property.None? then Labels("Unknown", "Unknown") else LabelsOf(s.property.value)
  }

  predicate HasNoValue(value: string) {
    value == "" || value == "Unknown"
  }

  function NoValueWarning(reference: string): string {
    "Component " + reference + " has no value assigned"
  }

  const EmptyWarning: string := "Schematic contains no components"

  const UnwiredWarning: string := "Schematic has components but no wire connections"

  const NeitherFormatError: string := "Schematic file is neither valid S-expression nor JSON format"

  /** `str(KeyError(key))`. */
  function KeyErrorText(key: string): string {
    "'" + key + "'"
  }

  datatype Warnings = Warnings(items: seq<string>) | Raised(key: string)

  /** The per-component warnings, in symbol order. */
  function ValueWarnings(symbols: seq<CheckSymbol>): Warnings {
    if symbols == [] then Warnings([])
    else
      match ValueWarnings(symbols[..|symbols| - 1])
      case Raised(key) => Raised(key)
      case Warnings(items) =>
        match SymbolLabels(symbols[|symbols| - 1])
        case MissingKey(key) => Raised(key)
        case Labels(reference, value) =>
          Warnings(items + (if HasNoValue(value) then [NoValueWarning(reference)] else []))
  }

  datatype SchematicCheck =
    | Checked(issues: seq<string>, warnings: seq<string>, componentCount: nat, wireCount: nat, unconnectedPins: seq<string>)
    | CheckFailed(error: string)

  function ComponentCount(data: CheckData): nat {
    if data.symbol.Some? then |data.symbol.value| else 0
  }

  function CheckOf(data: CheckData): SchematicCheck {
    var count := ComponentCount(data);
    var wires := OrElse(data.wire, 0);
    match ValueWarnings(OrElse(data.symbol, []))
    case Raised(key) => CheckFailed(KeyErrorText(key))
    case Warnings(items) =>
      Checked([], items + (if count == 0 then [EmptyWarning] else [])
                        + (if count > 0 && wires == 0 then [UnwiredWarning] else []), count, wires, [])
  }

  lemma {:induction false} LabelsStayMissing(props: seq<CheckProperty>, j: nat)
    requires j <= |props| && LabelsOf(props[..j]).MissingKey?
    ensures LabelsOf(props) == LabelsOf(props[..j])
    decreases |props| - j
  {
    if j < |props| {
      assert props[..j + 1][..j] == props[..j];
      LabelsStayMissing(props, j + 1);
    } else {
      assert props[..j] == props;
    }
  }

  lemma {:induction false} WarningsStayRaised(symbols: seq<CheckSymbol>, i: nat)
    requires i <= |symbols| && ValueWarnings(symbols[..i]).Raised?
    ensures ValueWarnings(symbols) == ValueWarnings(symbols[..i])
    decreases |symbols| - i
  {
    if i < |symbols| {
      assert symbols[..i + 1][..i] == symbols[..i];
      WarningsStayRaised(symbols, i + 1);
    } else {
      assert symbols[..i] == symbols;
    }
  }

  /** The reference and value of one symbol, read property by property;
      stops at the first property missing a key it reads. */
  method ReadLabels(props: seq<CheckProperty>) returns (labels: Labels)
    ensures labels == LabelsOf(props)
  {
    var reference, value := "Unknown", "Unknown";
    var j := 0;
    while j < |props|
      invariant 0 <= j <= |props|
      invariant LabelsOf(props[..j]) == Labels(reference, value)
    {
      assert props[..j + 1][..j] == props[..j];
      var key := "";
      if props[j].name.None? {
        key := "name";
      } else if props[j].name.value == "Reference" {
        if props[j].value.None? {
          key := "value";
        } else {
          reference := props[j].value.value;
        }
      } else if props[j].name.value == "Value" {
        if props[j].value.None? {
          key := "value";
        } else {
          value := props[j].value.value;
        }
      }
      if key != "" {
        LabelsStayMissing(props, j + 1);
        return MissingKey(key);
      }
      j := j + 1;
    }
    assert props[..j] == props;
    labels := Labels(reference, value);
  }

  lemma ValueWarningsStep(symbols: seq<CheckSymbol>, i: nat, items: seq<string>)
    requires i < |symbols| && ValueWarnings(symbols[..i]) == Warnings(items)
    ensures var l := SymbolLabels(symbols[i]);
            ValueWarnings(symbols[..i + 1])
            == if l.MissingKey? then Raised(l.key)
               else Warnings(items + if HasNoValue(l.value) then [NoValueWarning(l.reference)] else [])
  {
    assert symbols[..i + 1][..i] == symbols[..i];
  }

  /** The checks of `validate_schematic` on the data read from the file. */
  method CheckSchematicData(data: CheckData) returns (r: SchematicCheck)
    ensures r == CheckOf(data)
  {
    var count := 0;
    if data.symbol.Some? {
      count := |data.symbol.value|;
    }
    var wires := 0;
    if data.wire.Some? {
      wires := data.wire.value;
    }
    var symbols := OrElse(data.symbol, []);
    var warnings: seq<string> := [];
    var i := 0;
    while i < |symbols|
      invariant 0 <= i <= |symbols|
      invariant ValueWarnings(symbols[..i]) == Warnings(warnings)
    {
      var labels := Labels("Unknown", "Unknown");
      if symbols[i].property.Some? {
        labels := ReadLabels(symbols[i].property.value);
      }
      ValueWarningsStep(symbols, i, warnings);
      if labels.MissingKey? {
        WarningsStayRaised(symbols, i + 1);
        return CheckFailed(KeyErrorText(labels.key));
      }
      if HasNoValue(labels.value) {
        warnings := warnings + [NoValueWarning(labels.reference)];
      }
      i := i + 1;
    }
    assert symbols[..i] == symbols;
    if count == 0 {
      warnings := warnings + [EmptyWarning];
    }
    if count > 0 && wires == 0 {
      warnings := warnings + [UnwiredWarning];
    }
    r := Checked([], warnings, count, wires, []);
  }

  /** `validate_schematic`: S-expression text goes through its own reader
      (whose result is `fromSexpr`), anything else must be JSON (`json`,
      None when `json.loads` raises). */
  method ValidateSchematic(content: Option<string>, fromSexpr: CheckData, json: Option<CheckData>) returns (r: SchematicCheck)
    ensures content.None? ==> r == CheckFailed(NoSchematicError)
    ensures content.Some? && IsSexprText(content.value) ==> r == CheckOf(fromSexpr)
    ensures content.Some? && !IsSexprText(content.value) && json.None? ==> r == CheckFailed(NeitherFormatError)
    ensures content.Some? && !IsSexprText(content.value) && json.Some? ==> r == CheckOf(json.value)
  {
    if content.None? {
      return CheckFailed(NoSchematicError);
    }
    if IsSexprText(content.value) {
      r := CheckSchematicData(fromSexpr);
    } else if json.None? {
      r := CheckFailed(NeitherFormatError);
    } else {
      r := CheckSchematicData(json.value);
    }
  }

  /** How many symbols read without a value. */
  function NoValueCount(symbols: seq<CheckSymbol>): (n: nat)
    ensures n <= |symbols|
  {
    if symbols == [] then 0
    else
      var l := SymbolLabels(symbols[|symbols| - 1]);
      NoValueCount(symbols[..|symbols| - 1]) + (if l.Labels? && HasNoValue(l.value) then 1 else 0)
  }

  /** The validator fails exactly when some symbol has a property without a
      name, or a Reference or Value property without a value; otherwise it
      warns once per symbol without a value, and every such warning starts
      with "Component ". */
  lemma {:induction false} ValueWarningsSpec(symbols: seq<CheckSymbol>)
    ensures ValueWarnings(symbols).Raised? <==> exists i :: 0 <= i < |symbols| && SymbolLabels(symbols[i]).MissingKey?
    ensures ValueWarnings(symbols).Warnings? ==>
              |ValueWarnings(symbols).items| == NoValueCount(symbols) &&
              forall w | w in ValueWarnings(symbols).items :: StartsWith(w, "Component ")
  {
    if symbols != [] {
      var init := symbols[..|symbols| - 1];
      ValueWarningsSpec(init);
      if ValueWarnings(symbols).Raised? && ValueWarnings(init).Raised? {
        var i :| 0 <= i < |init| && SymbolLabels(init[i]).MissingKey?;
        assert symbols[i] == init[i];
      }
      if exists i :: 0 <= i < |symbols| && SymbolLabels(symbols[i]).MissingKey? {
        var i :| 0 <= i < |symbols| && SymbolLabels(symbols[i]).MissingKey?;
        if i < |init| {
          assert init[i] == symbols[i];
        }
      }
      forall w | ValueWarnings(symbols).Warnings? && w in ValueWarnings(symbols).items
        ensures StartsWith(w, "Component ")
      {
        var items := ValueWarnings(init).items;
        if w !in items {
          var l := SymbolLabels(symbols[|symbols| - 1]);
          assert w == NoValueWarning(l.reference);
        }
      }
    }
  }

  /** "no components" is warned exactly for an empty schematic and "no wire
      connections" exactly for components without wires; never both. The
      issues list is always empty. */
  lemma SchematicWarnings(data: CheckData)
    requires CheckOf(data).Checked?
    ensures CheckOf(data).issues == []
    ensures EmptyWarning in CheckOf(data).warnings <==> ComponentCount(data) == 0
    ensures UnwiredWarning in CheckOf(data).warnings <==> ComponentCount(data) > 0 && OrElse(data.wire, 0) == 0
    ensures |CheckOf(data).warnings| ==
              NoValueCount(OrElse(data.symbol, [])) + (if ComponentCount(data) == 0 then 1 else 0)
              + (if ComponentCount(data) > 0 && OrElse(data.wire, 0) == 0 then 1 else 0)
  {
    var symbols := OrElse(data.symbol, []);
    ValueWarningsSpec(symbols);
    var items := ValueWarnings(symbols).items;
    assert !StartsWith(EmptyWarning, "Component ") by {
      assert EmptyWarning[0] == 'S';
    }
    assert !StartsWith(UnwiredWarning, "Component ") by {
      assert UnwiredWarning[0] == 'S';
    }
    assert EmptyWarning !in items && UnwiredWarning !in items;
    assert EmptyWarning != UnwiredWarning by {
      assert EmptyWarning[10] != UnwiredWarning[10];
    }
  }

  /** The check reads a written symbol back with its reference and value, so
      a power symbol, whose value is its type, is never warned about. */
  lemma NewSymbolLabels(libId: string, reference: string, value: string, uuid: string, x: int, y: int)
    ensures SymbolLabels(AsChecked(NewSymbol(libId, reference, value, uuid, x, y))) == Labels(reference, value)
    ensures value in PowerTypeOrder ==> !HasNoValue(value)
  {
    var props := AsChecked(NewSymbol(libId, reference, value, uuid, x, y)).property.value;
    assert props[..1][..0] == [];
    assert LabelsOf(props[..1]) == Labels(reference, "Unknown");
    assert props[..2][..1] == props[..1];
    assert LabelsOf(props[..2]) == Labels(reference, value);
    assert props[..3][..2] == props[..2];
    assert LabelsOf(props[..3]) == Labels(reference, value);
    assert props[..4][..3] == props[..3];
    assert props[..4] == props;
  }

  /** The entry as the schematic check sees it. */
  function AsChecked(e: SymbolEntry): CheckSymbol {
    CheckSymbol(Some(seq(|e.property|, i requires 0 <= i < |e.property| =>
                           CheckProperty(Some(e.property[i].name), Some(e.property[i].value)))))
  }
}
