// Model of kicad_mcp/tools/validation_tools.py: the lib_id classifier, the
// component extraction from a JSON schematic, and the result dictionary of
// the project-boundary validation tool.

module ValidationTools {
  import opened Common
  import opened ComponentLayout
  import opened BoundaryValidation

  // ---------------------------------------------------------------------
  // `_get_component_type_from_lib_id`

  /** The component type of a lib_id: the first rule, in source order, one
      of whose substrings occurs in the lower-cased lib_id. */
  function ComponentTypeFromLibId(libId: string): (r: string)
    ensures r in TypeNames
  {
    TypeOfLower(Lower(libId))
  }

  /** The rule chain on the lower-cased lib_id. */
  function TypeOfLower(l: string): (r: string)
    ensures r in TypeNames
  {
    if Contains(l, "resistor") || Contains(l, ":r") then "resistor"
    else if Contains(l, "capacitor") || Contains(l, ":c") then "capacitor"
    else if Contains(l, "inductor") || Contains(l, ":l") then "inductor"
    else if Contains(l, "led") then "led"
    else if Contains(l, "diode") || Contains(l, ":d") then "diode"
    else if Contains(l, "transistor") || Contains(l, "npn") || Contains(l, "pnp") then "transistor"
    else if Contains(l, "power:") then "power"
    else if Contains(l, "switch") then "switch"
    else if Contains(l, "connector") then "connector"
    else if Contains(l, "mcu") || Contains(l, "ic") || Contains(l, ":u") then "ic"
    else "default"
  }

  const TypeNames: set<string> :=
    {"resistor", "capacitor", "inductor", "led", "diode", "transistor", "power", "switch", "connector", "ic", "default"}

  /** The classification rules as a table: a type and the substrings that
      select it. */
  const TypeRules: seq<(string, seq<string>)> := [
    ("resistor", ["resistor", ":r"]),
    ("capacitor", ["capacitor", ":c"]),
    ("inductor", ["inductor", ":l"]),
    ("led", ["led"]),
    ("diode", ["diode", ":d"]),
    ("transistor", ["transistor", "npn", "pnp"]),
    ("power", ["power:"]),
    ("switch", ["switch"]),
    ("connector", ["connector"]),
    ("ic", ["mcu", "ic", ":u"])
  ]

  predicate Matches(rule: (string, seq<string>), s: string) {
    exists p :: p in rule.1 && Contains(s, p)
  }

  /** First-match classification over a rule table. */
  function FirstRule(rules: seq<(string, seq<string>)>, s: string): string {
    if rules == [] then "default"
    else if Matches(rules[0], s) then rules[0].0
    else FirstRule(rules[1..], s)
  }

  /** `FirstRule` picks the earliest matching rule, and "default" when no
      rule matches. */
  lemma {:induction false} FirstRuleIsEarliest(rules: seq<(string, seq<string>)>, s: string)
    ensures forall j :: 0 <= j < |rules| && Matches(rules[j], s) && (forall k :: 0 <= k < j ==> !Matches(rules[k], s))
              ==> FirstRule(rules, s) == rules[j].0
    ensures (forall k :: 0 <= k < |rules| ==> !Matches(rules[k], s)) ==> FirstRule(rules, s) == "default"
  {
    if rules != [] {
      FirstRuleIsEarliest(rules[1..], s);
      forall j | 0 < j < |rules| && Matches(rules[j], s) && (forall k :: 0 <= k < j ==> !Matches(rules[k], s))
        ensures FirstRule(rules, s) == rules[j].0
      {
        assert rules[1..][j - 1] == rules[j];
        assert forall k :: 0 <= k < j - 1 ==> rules[1..][k] == rules[k + 1];
      }
      if forall k :: 0 <= k < |rules| ==> !Matches(rules[k], s) {
        assert forall k :: 0 <= k < |rules| - 1 ==> rules[1..][k] == rules[k + 1];
      }
    }
  }

  /** The classifier is first-match over the rule table. */
  lemma ClassifierIsFirstMatch(libId: string)
    ensures ComponentTypeFromLibId(libId) == FirstRule(TypeRules, Lower(libId))
  {
    RuleChain(TypeRules, Lower(libId));
  }

  /** The chain of tests and the table agree rule by rule. */
  lemma RuleChain(rules: seq<(string, seq<string>)>, l: string)
    requires rules == TypeRules
    ensures TypeOfLower(l) == FirstRule(rules, l)
  {
    MatchesTwo(rules[0], l);
    MatchesTwo(rules[1], l);
    MatchesTwo(rules[2], l);
    assert Matches(rules[3], l) <==> Contains(l, "led");
    MatchesTwo(rules[4], l);
    RuleChainTail(rules[5..], l);
    var r := rules;
    Step(r, l);
    Step(r[1..], l);
    Step(r[1..][1..], l);
    Step(r[1..][1..][1..], l);
    Step(r[1..][1..][1..][1..], l);
    assert r[1..][1..][1..][1..][1..] == rules[5..];
  }

  /** The last five rules. */
  function TailType(l: string): string {
    if Contains(l, "transistor") || Contains(l, "npn") || Contains(l, "pnp") then "transistor"
    else if Contains(l, "power:") then "power"
    else if Contains(l, "switch") then "switch"
    else if Contains(l, "connector") then "connector"
    else if Contains(l, "mcu") || Contains(l, "ic") || Contains(l, ":u") then "ic"
    else "default"
  }

  lemma RuleChainTail(rules: seq<(string, seq<string>)>, l: string)
    requires rules == TypeRules[5..]
    ensures TailType(l) == FirstRule(rules, l)
  {
    MatchesThree(rules[0], l);
    assert Matches(rules[1], l) <==> Contains(l, "power:");
    assert Matches(rules[2], l) <==> Contains(l, "switch");
    assert Matches(rules[3], l) <==> Contains(l, "connector");
    MatchesThree(rules[4], l);
    var r := rules;
    Step(r, l);
    Step(r[1..], l);
    Step(r[1..][1..], l);
    Step(r[1..][1..][1..], l);
    Step(r[1..][1..][1..][1..], l);
    assert r[1..][1..][1..][1..][1..] == [];
  }

  lemma Step(rules: seq<(string, seq<string>)>, l: string)
    requires rules != []
    ensures FirstRule(rules, l) == if Matches(rules[0], l) then rules[0].0 else FirstRule(rules[1..], l)
  {
  }

  lemma MatchesTwo(rule: (string, seq<string>), s: string)
    requires |rule.1| == 2
    ensures Matches(rule, s) <==> Contains(s, rule.1[0]) || Contains(s, rule.1[1])
  {
  }

  lemma MatchesThree(rule: (string, seq<string>), s: string)
    requires |rule.1| == 3
    ensures Matches(rule, s) <==> Contains(s, rule.1[0]) || Contains(s, rule.1[1]) || Contains(s, rule.1[2])
  {
  }

  /** Case does not matter. */
  lemma ClassifierIgnoresCase(a: string, b: string)
    requires Lower(a) == Lower(b)
    ensures ComponentTypeFromLibId(a) == ComponentTypeFromLibId(b)
  {
  }

  /** A lib_id "Device:R" is a resistor. */
  lemma DeviceRIsResistor(libId: string)
    requires libId == "Device:R"
    ensures ComponentTypeFromLibId(libId) == "resistor"
  {
    var l := Lower(libId);
    assert l == "device:r";
    assert OccursAt(l, ":r", 6);
  }

  /** A lib_id "Device:C" is a capacitor. */
  lemma DeviceCIsCapacitor(libId: string)
    requires libId == "Device:C"
    ensures ComponentTypeFromLibId(libId) == "capacitor"
  {
    var l := Lower(libId);
    assert l == "device:c";
    AbsentChar(l, "resistor", 2);
    AbsentPair(l, ":r");
    assert OccursAt(l, ":c", 6);
  }

  /** Because ":l" is checked before "led", "Device:LED" is an inductor. */
  lemma LedReadsAsInductor(libId: string)
    requires libId == "Device:LED"
    ensures ComponentTypeFromLibId(libId) == "inductor"
  {
    var l := Lower(libId);
    assert l == "device:led";
    AbsentChar(l, "resistor", 0);
    AbsentChar(l, ":r", 1);
    AbsentChar(l, "capacitor", 2);
    AbsentPair(l, ":c");
    assert OccursAt(l, ":l", 6);
  }

  /** Because ":c" is checked before "connector", "Connector:Conn_01x02" is a
      capacitor. */
  lemma ConnectorReadsAsCapacitor(libId: string)
    requires libId == "Connector:Conn_01x02"
    ensures ComponentTypeFromLibId(libId) == "capacitor"
  {
    ConnectorLower(libId);
    ConnectorLowerIsCapacitor(Lower(libId));
  }

  lemma ConnectorLowerIsCapacitor(l: string)
    requires l == "connector:conn_01x02"
    ensures TypeOfLower(l) == "capacitor"
  {
    ConnectorHasNoColonR(l);
    AbsentChar(l, "resistor", 2);
    assert OccursAt(l, ":c", 9);
    CapacitorRule(l);
  }

  lemma ConnectorLower(libId: string)
    requires libId == "Connector:Conn_01x02"
    ensures Lower(libId) == "connector:conn_01x02"
  {
  }

  lemma ConnectorHasNoColonR(l: string)
    requires l == "connector:conn_01x02"
    ensures !Contains(l, ":r")
  {
    assert l[..9] == "connector" && l[10..] == "conn_01x02";
    OnlyAt(l, ":r", 9);
    assert !OccursAt(l, ":r", 9) by {
      assert l[9..11][1] == l[10] == 'c';
    }
  }

  lemma CapacitorRule(l: string)
    requires !Contains(l, "resistor") && !Contains(l, ":r") && Contains(l, ":c")
    ensures TypeOfLower(l) == "capacitor"
  {
  }

  /** A symbol name starting with "c" after the colon makes a capacitor:
      "Unknown:Component" is not "default". */
  lemma UnknownComponentReadsAsCapacitor(libId: string)
    requires libId == "Unknown:Component"
    ensures ComponentTypeFromLibId(libId) == "capacitor"
  {
    UnknownLower(libId);
    UnknownLowerIsCapacitor(Lower(libId));
  }

  lemma UnknownLower(libId: string)
    requires libId == "Unknown:Component"
    ensures Lower(libId) == "unknown:component"
  {
  }

  lemma UnknownLowerIsCapacitor(l: string)
    requires l == "unknown:component"
    ensures TypeOfLower(l) == "capacitor"
  {
    AbsentChar(l, "resistor", 0);
    AbsentChar(l, ":r", 1);
    assert OccursAt(l, ":c", 7);
    CapacitorRule(l);
  }

  /** The empty lib_id is "default". */
  lemma EmptyLibIdIsDefault(libId: string)
    requires libId == ""
    ensures ComponentTypeFromLibId(libId) == "default"
  {
    var l := Lower(libId);
    assert l == "";
    forall p: string | p != []
      ensures !Contains(l, p)
    {
      AbsentChar(l, p, 0);
    }
  }

  // ---------------------------------------------------------------------
  // `_extract_components_from_json`

  /** One entry of a symbol's property list. */
  datatype PropertyEntry = PropertyEntry(name: Option<string>, value: Option<string>)

  /** The keys of a JSON symbol that the extraction reads. */
  datatype JsonSymbol = JsonSymbol(property: Option<seq<PropertyEntry>>, at: Option<seq<real>>, libId: Option<string>)

  /** A JSON schematic: its `symbol` list, if it has one. */
  datatype JsonSchematic = JsonSchematic(symbol: Option<seq<JsonSymbol>>)

  /** An extracted component, as the boundary validator receives it. */
  datatype FoundComponent = FoundComponent(reference: string, position: Point, componentType: string, libId: string)

  /** The value of the first "Reference" entry, or "Unknown". */
  function FirstReference(props: seq<PropertyEntry>): (r: string)
    ensures (forall i :: 0 <= i < |props| ==> props[i].name != Some("Reference")) ==> r == "Unknown"
  {
    if props == [] then "Unknown"
    else if props[0].name == Some("Reference") then OrElse(props[0].value, "Unknown")
    else FirstReference(props[1..])
  }

  /** The first "Reference" entry decides; later ones are ignored. */
  lemma {:induction false} FirstReferenceWins(props: seq<PropertyEntry>, i: nat)
    requires i < |props| && props[i].name == Some("Reference")
    requires forall k :: 0 <= k < i ==> props[k].name != Some("Reference")
    ensures FirstReference(props) == OrElse(props[i].value, "Unknown")
  {
    if i > 0 {
      assert forall k :: 0 <= k < i - 1 ==> props[1..][k] == props[k + 1];
      FirstReferenceWins(props[1..], i - 1);
    }
  }

  function ReferenceOf(s: JsonSymbol): string {
    if s.property.Some? then FirstReference(s.property.value) else "Unknown"
  }

  /** `at` in internal units, converted to millimetres, when it has two
      values; the origin otherwise. */
  function PositionOf(s: JsonSymbol): (p: Point)
    ensures s.at.None? || |s.at.value| < 2 ==> p == Point(0.0, 0.0)
    ensures s.at.Some? && |s.at.value| >= 2 ==> p.x * 10.0 == s.at.value[0] && p.y * 10.0 == s.at.value[1]
  {
    if s.at.Some? && |s.at.value| >= 2 then Point(s.at.value[0] / 10.0, s.at.value[1] / 10.0) else Point(0.0, 0.0)
  }

  function ComponentOf(s: JsonSymbol): (c: FoundComponent)
    ensures c.componentType == ComponentTypeFromLibId(c.libId)
    ensures c.libId == OrElse(s.libId, "")
  {
    var libId := OrElse(s.libId, "");
    FoundComponent(ReferenceOf(s), PositionOf(s), ComponentTypeFromLibId(libId), libId)
  }

  /** The components extracted from a JSON schematic. */
  function ComponentsOf(data: JsonSchematic): (cs: seq<FoundComponent>)
    ensures data.symbol.None? ==> cs == []
    ensures data.symbol.Some? ==>
              |cs| == |data.symbol.value| && forall i :: 0 <= i < |cs| ==> cs[i] == ComponentOf(data.symbol.value[i])
  {
    if data.symbol.None? then []
    else seq(|data.symbol.value|, i requires 0 <= i < |data.symbol.value| => ComponentOf(data.symbol.value[i]))
  }

  /** The inner loop: the first "Reference" entry, with `break`. */
  method FindReference(props: seq<PropertyEntry>) returns (reference: string)
    ensures reference == FirstReference(props)
  {
    reference := "Unknown";
    var i := 0;
    while i < |props|
      invariant 0 <= i <= |props|
      invariant forall k :: 0 <= k < i ==> props[k].name != Some("Reference")
      invariant FirstReference(props) == FirstReference(props[i..])
    {
      assert props[i..][1..] == props[i + 1..];
      if props[i].name == Some("Reference") {
        reference := OrElse(props[i].value, "Unknown");
        break;
      }
      i := i + 1;
    }
  }

  /** `_extract_components_from_json`: nothing without a `symbol` key,
      otherwise one component per symbol, in order. */
  method ExtractComponentsFromJson(data: JsonSchematic) returns (components: seq<FoundComponent>)
    ensures data.symbol.None? ==> components == []
    ensures data.symbol.Some? ==> |components| == |data.symbol.value|
    ensures data.symbol.Some? ==> forall i :: 0 <= i < |components| ==> components[i] == ComponentOf(data.symbol.value[i])
    ensures components == ComponentsOf(data)
  {
    components := [];
    if data.symbol.Some? {
      var symbols := data.symbol.value;
      for i := 0 to |symbols|
        invariant |components| == i
        invariant forall k :: 0 <= k < i ==> components[k] == ComponentOf(symbols[k])
      {
        var s := symbols[i];
        var reference := "Unknown";
        if s.property.Some? {
          reference := FindReference(s.property.value);
        }
        var position := Point(0.0, 0.0);
        if s.at.Some? && |s.at.value| >= 2 {
          position := Point(s.at.value[0] / 10.0, s.at.value[1] / 10.0);
        }
        var libId := if s.libId.Some? then s.libId.value else "";
        components := components + [FoundComponent(reference, position, ComponentTypeFromLibId(libId), libId)];
      }
    }
  }

  /** A symbol with only a lib_id and `at` = [500, 500, 0] is an "Unknown"
      resistor at (50, 50). */
  lemma SymbolWithoutProperties()
    ensures ComponentOf(JsonSymbol(None, Some([500.0, 500.0, 0.0]), Some("Device:R")))
            == FoundComponent("Unknown", Point(50.0, 50.0), "resistor", "Device:R")
  {
    DeviceRIsResistor("Device:R");
  }

  // ---------------------------------------------------------------------
  // `validate_project_boundaries`

  /** The dictionary the validator reads for a component. */
  function ValidatorInput(c: FoundComponent): Component {
    Component(Some(c.reference), Some(c.componentType), Coordinates([c.position.x, c.position.y]))
  }

  function ValidatorInputs(cs: seq<FoundComponent>): (r: seq<Component>)
    ensures |r| == |cs| && forall i :: 0 <= i < |cs| ==> r[i] == ValidatorInput(cs[i])
  {
    seq(|cs|, i requires 0 <= i < |cs| => ValidatorInput(cs[i]))
  }

  /** The result dictionary: the report's figures, or an error. */
  datatype ToolResult =
    | Validated(success: bool, totalComponents: nat, outOfBoundsCount: nat, correctedPositions: Dict<string, Point>,
                hasErrors: bool, hasWarnings: bool, issues: seq<ValidationIssue>)
    | ToolError(error: string)

  const NoSchematic := "No schematic file found in project"
  const UnreadableSchematic := "Schematic file is neither valid S-expression nor JSON format"

  /** The result dictionary built from a validation report. */
  function ResultOf(report: ValidationReport): (r: ToolResult)
    ensures r.Validated?
  {
    Validated(report.success, report.totalComponents, report.outOfBoundsCount, report.correctedPositions,
              report.HasErrors(), report.HasWarnings(), report.issues)
  }

  /** The result mirrors the report: it succeeds exactly when no component
      is out of bounds, counts every component, and has errors exactly
      when some issue is an error. */
  lemma ResultMirrorsReport(cs: seq<FoundComponent>)
    ensures var r := ResultOf(CircuitReport(A4, ValidatorInputs(cs)));
            var inputs := ValidatorInputs(cs);
            r.totalComponents == |cs| && |r.issues| == |cs|
            && (r.success <==> forall i :: 0 <= i < |cs| ==> !OutOfBounds(inputs[i]))
            && (r.success <==> r.outOfBoundsCount == 0)
            && (r.hasErrors <==> exists i :: 0 <= i < |r.issues| && r.issues[i].severity == Error)
  {
    ReportShape(A4, ValidatorInputs(cs));
  }

  /** How the schematic text reads as JSON: not at all, or as a schematic. */
  datatype JsonParse = NotJson | Json(data: JsonSchematic)

  /** `validate_project_boundaries`, with the project's schematic text (if
      the project has a schematic), its JSON reading and the S-expression
      extractor's findings given. */
  method ValidateProjectBoundaries(schematic: Option<string>, json: JsonParse, fromSexpr: seq<FoundComponent>)
    returns (r: ToolResult)
    ensures schematic.None? ==> r == ToolError(NoSchematic)
    ensures schematic.Some? && StartsWith(Strip(schematic.value), "(kicad_sch") ==>
              r == ResultOf(CircuitReport(A4, ValidatorInputs(fromSexpr)))
    ensures schematic.Some? && !StartsWith(Strip(schematic.value), "(kicad_sch") && json.NotJson? ==>
              r == ToolError(UnreadableSchematic)
    ensures schematic.Some? && !StartsWith(Strip(schematic.value), "(kicad_sch") && json.Json? ==>
              r == ResultOf(CircuitReport(A4, ValidatorInputs(ComponentsOf(json.data))))
  {
    if schematic.None? {
      return ToolError(NoSchematic);
    }
    var content := Strip(schematic.value);
    var components: seq<FoundComponent>;
    if StartsWith(content, "(kicad_sch") {
      components := fromSexpr;
    } else if json.NotJson? {
      return ToolError(UnreadableSchematic);
    } else {
      components := ExtractComponentsFromJson(json.data);
    }
    r := ValidateFound(components);
  }

  /** The validation step of `validate_project_boundaries`: each found
      component becomes a validator input and a fresh A4 validator checks
      them all. */
  method ValidateFound(components: seq<FoundComponent>) returns (r: ToolResult)
    ensures r == ResultOf(CircuitReport(A4, ValidatorInputs(components)))
  {
    var validator := new BoundaryValidator(None);
    var inputs: seq<Component> := [];
    for i := 0 to |components|
      invariant inputs == ValidatorInputs(components[..i])
    {
      inputs := inputs + [ValidatorInput(components[i])];
    }
    assert components[..|components|] == components;
    var report := validator.ValidateCircuitComponents(inputs);
    r := Validated(report.success, report.totalComponents, report.outOfBoundsCount, report.correctedPositions,
                   report.HasErrors(), report.HasWarnings(), report.issues);
  }
}
