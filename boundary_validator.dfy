/** Boundary validation of component and wire positions before a schematic
    is generated: every position is graded against the whole A4 sheet and
    against its usable area (a 20 mm margin on every side), out-of-bounds
    components receive a corrected position from a layout manager, and the
    circuit-wide report counts and collects the results. */
module BoundaryValidation {
  import opened Common
  import opened ComponentLayout
  import opened CoordinateConverter

  datatype Severity = Error | Warning | Info

  /** The message of an issue. The ones that print coordinates (with two
      decimals) carry the coordinates; their text is not modelled. */
  datatype Message =
    | OutsideSheet(reference: string, x: real, y: real)
    | OutsideUsableArea(reference: string, x: real, y: real)
    | PositionIsValid(reference: string)
    | NoPositionSpecified(reference: string)
    | InvalidPositionFormat(reference: string)
    | WireStartOutside(x: real, y: real)
    | WireEndOutside(x: real, y: real)

  /** The text of the messages that print no coordinates. */
  function NoPositionText(reference: string): string {
    "Component " + reference + " has no position specified"
  }

  function ValidText(reference: string): string {
    "Component " + reference + " position is valid"
  }

  function Text(m: Message): Option<string> {
    match m
    case PositionIsValid(r) => Some(ValidText(r))
    case NoPositionSpecified(r) => Some(NoPositionText(r))
    case _ => None
  }

  const ValidPhrase: string := "position is valid"

  datatype ValidationIssue = ValidationIssue(severity: Severity, componentRef: string, message: Message,
                                             position: Point, suggestedPosition: Option<Point>, componentType: string)

  datatype ValidationReport = ValidationReport(success: bool, issues: seq<ValidationIssue>, totalComponents: nat,
                                               validatedComponents: nat, outOfBoundsCount: nat,
                                               correctedPositions: Dict<string, Point>)
  {
    predicate HasErrors() {
      exists i :: 0 <= i < |issues| && issues[i].severity == Error
    }

    predicate HasWarnings() {
      exists i :: 0 <= i < |issues| && issues[i].severity == Warning
    }

    /** `get_issues_by_severity`: the issues of one severity, in report order. */
    function IssuesBySeverity(s: Severity): (r: seq<ValidationIssue>)
      ensures forall v :: v in r ==> v in issues && v.severity == s
      ensures forall i :: 0 <= i < |issues| && issues[i].severity == s ==> issues[i] in r
    {
      Filter(issues, s)
    }
  }

  function Filter(vs: seq<ValidationIssue>, s: Severity): (r: seq<ValidationIssue>)
    ensures |r| <= |vs|
    ensures forall v :: v in r ==> v in vs && v.severity == s
    ensures forall i :: 0 <= i < |vs| && vs[i].severity == s ==> vs[i] in r
  {
    if vs == [] then []
    else (if vs[0].severity == s then [vs[0]] else []) + Filter(vs[1..], s)
  }

  /** Filtering by the three severities splits the issues: nothing is lost or counted twice. */
  lemma {:induction false} SeveritiesPartition(vs: seq<ValidationIssue>)
    ensures |Filter(vs, Error)| + |Filter(vs, Warning)| + |Filter(vs, Info)| == |vs|
  {
    if vs != [] {
      SeveritiesPartition(vs[1..]);
    }
  }

  /** `has_errors` holds exactly when the error list is non-empty (likewise warnings). */
  lemma HasErrorsIffErrorIssues(report: ValidationReport)
    ensures report.HasErrors() <==> report.IssuesBySeverity(Error) != []
    ensures report.HasWarnings() <==> report.IssuesBySeverity(Warning) != []
  {
    if report.IssuesBySeverity(Error) != [] {
      var v := report.IssuesBySeverity(Error)[0];
      var i :| 0 <= i < |report.issues| && report.issues[i] == v;
    }
    if report.IssuesBySeverity(Warning) != [] {
      var v := report.IssuesBySeverity(Warning)[0];
      var i :| 0 <= i < |report.issues| && report.issues[i] == v;
    }
  }

  // ---------------------------------------------------------------------
  // Grading one position

  /** `validate_component_position` against a layout of boxes `placed`:
      outside the sheet is an error, inside the sheet but within the margin a
      warning, both with the layout's suggested position; otherwise info. */
  function PositionIssue(b: SchematicBounds, placed: seq<ComponentBounds>, reference: string, x: real, y: real,
                         componentType: string): (r: ValidationIssue)
    ensures r.componentRef == reference && r.position == Point(x, y) && r.componentType == componentType
    ensures r.severity == Error <==> !ValidLayoutCoordinates(x, y)
    ensures r.severity == Warning <==> ValidLayoutCoordinates(x, y) && !ValidLayoutUsableArea(x, y, DefaultMargin)
    ensures r.severity == Info <==> ValidLayoutUsableArea(x, y, DefaultMargin)
    ensures r.severity == Info ==> r.suggestedPosition.None? && r.message == PositionIsValid(reference)
    ensures r.severity != Info ==>
              r.suggestedPosition == Some(FindValidPositionSpec(b, placed, reference, componentType, Some(x), Some(y)))
  {
    if !ValidatePosition(x, y, false) then
      ValidationIssue(Error, reference, OutsideSheet(reference, x, y), Point(x, y),
                      Some(FindValidPositionSpec(b, placed, reference, componentType, Some(x), Some(y))), componentType)
    else if !ValidatePosition(x, y, true) then
      ValidationIssue(Warning, reference, OutsideUsableArea(reference, x, y), Point(x, y),
                      Some(FindValidPositionSpec(b, placed, reference, componentType, Some(x), Some(y))), componentType)
    else
      ValidationIssue(Info, reference, PositionIsValid(reference), Point(x, y), None, componentType)
  }

  /** With no box placed yet (the validator always clears its layout first),
      a suggestion for the A4 sheet lies inside the A4 usable area, so it
      passes the margin check. */
  lemma SuggestionInsideUsableArea(reference: string, componentType: string, px: Option<real>, py: Option<real>)
    ensures var p := FindValidPositionSpec(A4, [], reference, componentType, px, py);
            ValidatePosition(p.x, p.y, true)
  {
    var p := FindValidPositionSpec(A4, [], reference, componentType, px, py);
    var (w, h) := SizeOf(componentType);
    FindValidPositionIsFirstFit(A4, [], reference, componentType, px, py);
    if Fits(A4, [], reference, componentType, p) {
      assert ValidPosition(A4, p.x, p.y, componentType);
    } else {
      assert p == Fallback(A4, componentType);
      var q := Point(A4.MinX() + w / 2.0, A4.MinY() + h / 2.0);
      SnapIsOnGrid(q);
      SizesAreSmall(componentType);
      RoundedAbove(q.x, 20);
      RoundedAbove(q.y, 20);
    }
  }

  /** Every default symbol is at most 20 mm wide and 15 mm high. */
  lemma SizesAreSmall(componentType: string)
    ensures SizeOf(componentType).0 <= 20.0 && SizeOf(componentType).1 <= 15.0
  {
    var t := componentType;
    if t in ComponentSizes {
      assert t in {"resistor", "capacitor", "inductor", "led", "diode", "ic", "transistor", "switch",
                   "connector", "power", "default"};
    }
  }

  /** Rounding a value above an integer to the nearest integer stays at or above it. */
  lemma RoundedAbove(v: real, n: int)
    requires v > n as real
    ensures SnapCoord(v) >= n as real
  {
    RoundIsNearest(v);
    var r := Round(v);
    assert r as real > n as real - 0.5;
    assert r > n - 1;
  }

  // ---------------------------------------------------------------------
  // The circuit-wide report

  /** The `position` entry of a component dictionary: missing or None, a
      list or tuple of numbers, or some other value. */
  datatype PositionField = NoPosition | Coordinates(values: seq<real>) | OtherValue

  /** The component dictionary keys the validator reads. */
  datatype Component = Component(reference: Option<string>, componentType: Option<string>, position: PositionField)

  function RefOf(c: Component): string {
    if c.reference.Some? then c.reference.value else "Unknown"
  }

  function TypeOf(c: Component): string {
    if c.componentType.Some? then c.componentType.value else "default"
  }

  predicate HasCoordinates(c: Component) {
    c.position.Coordinates? && |c.position.values| >= 2
  }

  /** A component that the report counts as out of bounds: it has two
      coordinates and they fail the margin check. */
  predicate OutOfBounds(c: Component) {
    HasCoordinates(c) && !ValidatePosition(c.position.values[0], c.position.values[1], true)
  }

  /** The issue recorded for one component, the layout being empty. */
  function ComponentIssue(b: SchematicBounds, c: Component): (r: ValidationIssue)
    ensures r.componentRef == RefOf(c) && r.componentType == TypeOf(c)
    ensures (r.severity == Error || r.severity == Warning) && HasCoordinates(c) <==> OutOfBounds(c)
    ensures OutOfBounds(c) ==> r.suggestedPosition.Some?
    ensures !HasCoordinates(c) ==> r.position == Point(0.0, 0.0) && r.suggestedPosition.None?
    ensures c.position.NoPosition? ==> r.severity == Info
    ensures !HasCoordinates(c) && !c.position.NoPosition? ==> r.severity == Error
  {
    if c.position.NoPosition? then
      ValidationIssue(Info, RefOf(c), NoPositionSpecified(RefOf(c)), Point(0.0, 0.0), None, TypeOf(c))
    else if HasCoordinates(c) then
      PositionIssue(b, [], RefOf(c), c.position.values[0], c.position.values[1], TypeOf(c))
    else
      ValidationIssue(Error, RefOf(c), InvalidPositionFormat(RefOf(c)), Point(0.0, 0.0), None, TypeOf(c))
  }

  function Issues(b: SchematicBounds, cs: seq<Component>): (r: seq<ValidationIssue>)
    ensures |r| == |cs| && forall i :: 0 <= i < |cs| ==> r[i] == ComponentIssue(b, cs[i])
  {
    seq(|cs|, i requires 0 <= i < |cs| => ComponentIssue(b, cs[i]))
  }

  function OutCount(cs: seq<Component>): (n: nat)
    ensures n <= |cs|
  {
    if cs == [] then 0 else OutCount(cs[..|cs| - 1]) + (if OutOfBounds(cs[|cs| - 1]) then 1 else 0)
  }

  /** The corrections, keyed by reference: a later component with the same
      reference overwrites an earlier one's entry. */
  function Corrections(b: SchematicBounds, cs: seq<Component>): Dict<string, Point> {
    if cs == [] then []
    else
      var c := cs[|cs| - 1];
      if OutOfBounds(c) then Put(Corrections(b, cs[..|cs| - 1]), RefOf(c), ComponentIssue(b, c).suggestedPosition.value)
      else Corrections(b, cs[..|cs| - 1])
  }

  /** An issue counted as validated: info severity and a message mentioning a valid position. */
  predicate MentionsValid(v: ValidationIssue) {
    v.severity == Info && Text(v.message).Some? && Contains(Text(v.message).value, ValidPhrase)
  }

  function ValidatedCount(vs: seq<ValidationIssue>): (n: nat)
    ensures n <= |vs|
  {
    if vs == [] then 0 else ValidatedCount(vs[..|vs| - 1]) + (if MentionsValid(vs[|vs| - 1]) then 1 else 0)
  }

  /** `validate_circuit_components` on an empty layout. */
  function CircuitReport(b: SchematicBounds, cs: seq<Component>): ValidationReport {
    ValidationReport(OutCount(cs) == 0, Issues(b, cs), |cs|, ValidatedCount(Issues(b, cs)), OutCount(cs), Corrections(b, cs))
  }

  /** The report has one issue per component, in component order, and
      succeeds exactly when no component is out of bounds; an unreadable
      position is an error issue but does not make the report fail. */
  lemma ReportShape(b: SchematicBounds, cs: seq<Component>)
    ensures var r := CircuitReport(b, cs);
            |r.issues| == r.totalComponents == |cs|
            && (forall i :: 0 <= i < |cs| ==> r.issues[i].componentRef == RefOf(cs[i]))
            && r.validatedComponents <= r.totalComponents
            && (r.success <==> forall i :: 0 <= i < |cs| ==> !OutOfBounds(cs[i]))
  {
    NoneOutIffZero(cs);
  }

  lemma {:induction false} NoneOutIffZero(cs: seq<Component>)
    ensures OutCount(cs) == 0 <==> forall i :: 0 <= i < |cs| ==> !OutOfBounds(cs[i])
  {
    if cs != [] {
      var init := cs[..|cs| - 1];
      NoneOutIffZero(init);
      assert forall i :: 0 <= i < |init| ==> init[i] == cs[i];
    }
  }

  /** A reference is a key of the corrections exactly when some component
      with that reference is out of bounds; its value is the suggestion made
      for the last such component; keys are never repeated. */
  lemma CorrectionsAreLastSuggestions(b: SchematicBounds, cs: seq<Component>, k: string)
    ensures Distinct(Keys(Corrections(b, cs)))
    ensures k in Keys(Corrections(b, cs)) <==> exists i :: 0 <= i < |cs| && OutOfBounds(cs[i]) && RefOf(cs[i]) == k
    ensures forall i :: 0 <= i < |cs| && OutOfBounds(cs[i]) && RefOf(cs[i]) == k
                        && (forall j :: i < j < |cs| ==> !(OutOfBounds(cs[j]) && RefOf(cs[j]) == k))
                   ==> Lookup(Corrections(b, cs), k) == ComponentIssue(b, cs[i]).suggestedPosition
  {
    CorrectionKeysDistinct(b, cs);
    CorrectionKeys(b, cs, k);
    forall i | 0 <= i < |cs| && OutOfBounds(cs[i]) && RefOf(cs[i]) == k
                && (forall j :: i < j < |cs| ==> !(OutOfBounds(cs[j]) && RefOf(cs[j]) == k))
      ensures Lookup(Corrections(b, cs), k) == ComponentIssue(b, cs[i]).suggestedPosition
    {
      CorrectionIsLast(b, cs, k, i);
    }
  }

  /** The last step of Corrections, for an out-of-bounds last component. */
  lemma CorrectionsLast(b: SchematicBounds, cs: seq<Component>)
    requires cs != [] && OutOfBounds(cs[|cs| - 1])
    ensures Corrections(b, cs) == Put<string, Point>(Corrections(b, cs[..|cs| - 1]), RefOf(cs[|cs| - 1]),
                                                     ComponentIssue(b, cs[|cs| - 1]).suggestedPosition.value)
  {
  }

  lemma {:induction false} CorrectionKeysDistinct(b: SchematicBounds, cs: seq<Component>)
    ensures Distinct(Keys(Corrections(b, cs)))
  {
    if cs != [] {
      var init := cs[..|cs| - 1];
      var c := cs[|cs| - 1];
      CorrectionKeysDistinct(b, init);
      if OutOfBounds(c) {
        var d: Dict<string, Point> := Corrections(b, init);
        var p: Point := ComponentIssue(b, c).suggestedPosition.value;
        CorrectionsLast(b, cs);
        PutKeepsDistinctKeys<string, Point>(d, RefOf(c), p);
      } else {
        assert Corrections(b, cs) == Corrections(b, init);
      }
    }
  }

  lemma {:induction false} CorrectionKeys(b: SchematicBounds, cs: seq<Component>, k: string)
    ensures k in Keys(Corrections(b, cs)) <==> exists i :: 0 <= i < |cs| && OutOfBounds(cs[i]) && RefOf(cs[i]) == k
  {
    if cs != [] {
      var n := |cs| - 1;
      var init := cs[..n];
      var c := cs[n];
      CorrectionKeys(b, init, k);
      assert forall i :: 0 <= i < n ==> init[i] == cs[i];
      if OutOfBounds(c) {
        var d: Dict<string, Point> := Corrections(b, init);
        var p: Point := ComponentIssue(b, c).suggestedPosition.value;
        CorrectionsLast(b, cs);
        LookupPut<string, Point>(d, RefOf(c), p, k);
      } else {
        assert Corrections(b, cs) == Corrections(b, init);
      }
    }
  }

  lemma {:induction false} CorrectionIsLast(b: SchematicBounds, cs: seq<Component>, k: string, i: nat)
    requires i < |cs| && OutOfBounds(cs[i]) && RefOf(cs[i]) == k
    requires forall j :: i < j < |cs| ==> !(OutOfBounds(cs[j]) && RefOf(cs[j]) == k)
    ensures Lookup(Corrections(b, cs), k) == ComponentIssue(b, cs[i]).suggestedPosition
  {
    var n := |cs| - 1;
    var init := cs[..n];
    var c := cs[n];
    var d: Dict<string, Point> := Corrections(b, init);
    if i == n {
      var p: Point := ComponentIssue(b, c).suggestedPosition.value;
      CorrectionsLast(b, cs);
      LookupPut<string, Point>(d, RefOf(c), p, k);
    } else {
      assert forall j :: 0 <= j < n ==> init[j] == cs[j];
      CorrectionIsLast(b, init, k, i);
      if OutOfBounds(c) {
        var p: Point := ComponentIssue(b, c).suggestedPosition.value;
        CorrectionsLast(b, cs);
        LookupPut<string, Point>(d, RefOf(c), p, k);
      } else {
        assert Corrections(b, cs) == d;
      }
    }
  }


  /** Every value of the corrections is the suggestion made for some
      out-of-bounds component. */
  lemma {:induction false} CorrectionsComeFromIssues(b: SchematicBounds, cs: seq<Component>, k: string)
    ensures Lookup(Corrections(b, cs), k).Some? ==>
              exists i :: 0 <= i < |cs| && OutOfBounds(cs[i])
                          && Lookup(Corrections(b, cs), k) == ComponentIssue(b, cs[i]).suggestedPosition
  {
    if cs != [] {
      var n := |cs| - 1;
      var init := cs[..n];
      CorrectionsComeFromIssues(b, init, k);
      assert forall i :: 0 <= i < n ==> init[i] == cs[i];
      if OutOfBounds(cs[n]) {
        LookupPut(Corrections(b, init), RefOf(cs[n]), ComponentIssue(b, cs[n]).suggestedPosition.value, k);
      }
    }
  }

  /** One more component extends the issues, the count and the corrections
      by that component's contribution. */
  lemma CircuitStep(b: SchematicBounds, cs: seq<Component>, i: nat)
    requires i < |cs|
    ensures Issues(b, cs[..i + 1]) == Issues(b, cs[..i]) + [ComponentIssue(b, cs[i])]
    ensures OutCount(cs[..i + 1]) == OutCount(cs[..i]) + if OutOfBounds(cs[i]) then 1 else 0
    ensures Corrections(b, cs[..i + 1])
            == if OutOfBounds(cs[i]) then Put(Corrections(b, cs[..i]), RefOf(cs[i]), ComponentIssue(b, cs[i]).suggestedPosition.value)
               else Corrections(b, cs[..i])
  {
    assert cs[..i + 1][..i] == cs[..i];
  }

  /** A component counts as validated when its position passes the margin
      check, or when it has no position but its reference makes the
      no-position message contain the phrase "position is valid". */
  predicate CountedAsValidated(c: Component) {
    (HasCoordinates(c) && ValidatePosition(c.position.values[0], c.position.values[1], true))
    || (c.position.NoPosition? && Contains(NoPositionText(RefOf(c)), ValidPhrase))
  }

  function CountValidated(cs: seq<Component>): (n: nat) {
    if cs == [] then 0 else CountValidated(cs[..|cs| - 1]) + (if CountedAsValidated(cs[|cs| - 1]) then 1 else 0)
  }

  lemma {:induction false} ValidatedCountIsCountedComponents(b: SchematicBounds, cs: seq<Component>)
    ensures ValidatedCount(Issues(b, cs)) == CountValidated(cs)
  {
    if cs != [] {
      var n := |cs| - 1;
      ValidatedCountIsCountedComponents(b, cs[..n]);
      var vs := Issues(b, cs);
      assert vs[..n] == Issues(b, cs[..n]);
      ValidatedCountStep(vs);
      IssueMentionsValid(b, cs[n]);
    }
  }

  lemma ValidatedCountStep(vs: seq<ValidationIssue>)
    requires vs != []
    ensures ValidatedCount(vs) == ValidatedCount(vs[..|vs| - 1]) + if MentionsValid(vs[|vs| - 1]) then 1 else 0
  {
  }

  /** A component's issue mentions the phrase exactly when the component
      counts as validated. */
  lemma IssueMentionsValid(b: SchematicBounds, c: Component)
    ensures MentionsValid(ComponentIssue(b, c)) == CountedAsValidated(c)
  {
    if HasCoordinates(c) && ValidatePosition(c.position.values[0], c.position.values[1], true) {
      ValidPhraseInValidText(RefOf(c));
    }
  }

  lemma ValidPhraseInValidText(reference: string)
    ensures Contains(ValidText(reference), ValidPhrase)
  {
    var t := ValidText(reference);
    var i := |"Component "| + |reference| + 1;
    assert t[i..i + |ValidPhrase|] == ValidPhrase;
    ContainsAt(t, ValidPhrase, i);
  }

  /** The no-position message of a reference without the letter 'v' never
      contains the phrase, so such a component is not counted. */
  lemma NoPositionNotValidated(reference: string)
    requires 'v' !in reference
    ensures !Contains(NoPositionText(reference), ValidPhrase)
  {
    var pre, post := "Component ", " has no position specified";
    var t := NoPositionText(reference);
    assert t == pre + reference + post;
    forall k | 0 <= k < |t|
      ensures t[k] != 'v'
    {
      if k < |pre| {
        assert t[k] == pre[k] && pre[k] in pre;
      } else if k < |pre| + |reference| {
        assert t[k] == reference[k - |pre|];
      } else {
        assert t[k] == post[k - |pre| - |reference|] && post[k - |pre| - |reference|] in post;
      }
    }
    forall i: nat | i <= |t|
      ensures !OccursAt(t, ValidPhrase, i)
    {
      if i + |ValidPhrase| <= |t| {
        assert t[i..i + |ValidPhrase|][12] == t[i + 12] != ValidPhrase[12];
      }
    }
  }

  /** A component without a position whose reference is the phrase itself
      is counted as validated. */
  lemma NoPositionCanCountAsValidated(b: SchematicBounds)
    ensures CircuitReport(b, [Component(Some(ValidPhrase), None, NoPosition)]).validatedComponents == 1
  {
    var cs := [Component(Some(ValidPhrase), None, NoPosition)];
    var t := NoPositionText(ValidPhrase);
    assert t[10..10 + |ValidPhrase|] == ValidPhrase;
    ContainsAt(t, ValidPhrase, 10);
    ValidatedCountIsCountedComponents(b, cs);
    assert cs[..0] == [];
  }

  // ---------------------------------------------------------------------
  // Wires

  /** `validate_wire_connection`: one error per endpoint outside the sheet,
      start first. */
  function ValidateWireConnection(startX: real, startY: real, endX: real, endY: real): (r: seq<ValidationIssue>)
    ensures |r| <= 2
    ensures forall v :: v in r ==> v.severity == Error && v.suggestedPosition.None? && v.componentType == "default"
    ensures (exists v :: v in r && v.componentRef == "WIRE_START") <==> !ValidLayoutCoordinates(startX, startY)
    ensures (exists v :: v in r && v.componentRef == "WIRE_END") <==> !ValidLayoutCoordinates(endX, endY)
    ensures r != [] && !ValidLayoutCoordinates(startX, startY) ==> r[0].position == Point(startX, startY)
  {
    (if !ValidatePosition(startX, startY, false)
     then [ValidationIssue(Error, "WIRE_START", WireStartOutside(startX, startY), Point(startX, startY), None, "default")]
     else [])
    + (if !ValidatePosition(endX, endY, false)
       then [ValidationIssue(Error, "WIRE_END", WireEndOutside(endX, endY), Point(endX, endY), None, "default")]
       else [])
  }

  // ---------------------------------------------------------------------
  // Auto-correction

  /** Components whose reference has a correction get that position (as a
      pair); the rest are kept as they are. */
  function Corrected(cs: seq<Component>, corrections: Dict<string, Point>): (r: seq<Component>)
    ensures |r| == |cs|
  {
    if cs == [] then []
    else
      var c := cs[|cs| - 1];
      var p := Lookup(corrections, RefOf(c));
      Corrected(cs[..|cs| - 1], corrections)
      + [if p.Some? then c.(position := Coordinates([p.value.x, p.value.y])) else c]
  }

  lemma {:induction false} CorrectedAt(cs: seq<Component>, corrections: Dict<string, Point>, i: nat)
    requires i < |cs|
    ensures Corrected(cs, corrections)[i]
            == match Lookup(corrections, RefOf(cs[i]))
               case Some(p) => cs[i].(position := Coordinates([p.x, p.y]))
               case None => cs[i]
  {
    if i < |cs| - 1 {
      CorrectedAt(cs[..|cs| - 1], corrections, i);
    }
  }

  /** On the A4 sheet, auto-correction leaves no component out of bounds:
      every corrected component receives a suggestion inside the usable
      area, and every out-of-bounds component is corrected. Components keep
      their order, reference and type. */
  lemma AutoCorrectionClearsOutOfBounds(cs: seq<Component>)
    ensures var r := Corrected(cs, Corrections(A4, cs));
            |r| == |cs|
            && (forall i :: 0 <= i < |cs| ==> r[i].reference == cs[i].reference && r[i].componentType == cs[i].componentType)
            && (forall i :: 0 <= i < |cs| ==> !OutOfBounds(r[i]))
  {
    var d := Corrections(A4, cs);
    var r := Corrected(cs, d);
    forall i | 0 <= i < |cs|
      ensures r[i].reference == cs[i].reference && r[i].componentType == cs[i].componentType
      ensures !OutOfBounds(r[i])
    {
      CorrectedAt(cs, d, i);
      var k := RefOf(cs[i]);
      CorrectionsAreLastSuggestions(A4, cs, k);
      CorrectionsComeFromIssues(A4, cs, k);
      if Lookup(d, k).Some? {
        var j :| 0 <= j < |cs| && OutOfBounds(cs[j]) && Lookup(d, k) == ComponentIssue(A4, cs[j]).suggestedPosition;
        var c := cs[j];
        SuggestionInsideUsableArea(RefOf(c), TypeOf(c), Some(c.position.values[0]), Some(c.position.values[1]));
      }
    }
  }

  // ---------------------------------------------------------------------
  // The validator object

  /** `BoundaryValidator`: the sheet and its own layout manager, used only
      to compute suggested positions. */
  class BoundaryValidator {
    const bounds: SchematicBounds
    const layout: LayoutManager

    ghost predicate Valid()
      reads this, layout
    {
      layout.bounds == bounds
    }

    constructor (sheet: Option<SchematicBounds>)
      ensures bounds == (if sheet.Some? then sheet.value else A4)
      ensures Valid() && fresh(layout) && layout.placed == []
    {
      bounds := if sheet.Some? then sheet.value else A4;
      layout := new LayoutManager(sheet);
    }

    /** Grade one position, suggesting a position from the current layout. */
    method ValidateComponentPosition(reference: string, x: real, y: real, componentType: string) returns (issue: ValidationIssue)
      ensures issue == PositionIssue(layout.bounds, layout.placed, reference, x, y, componentType)
    {
      if !ValidatePosition(x, y, false) {
        var p := layout.FindValidPosition(reference, componentType, Some(x), Some(y));
        return ValidationIssue(Error, reference, OutsideSheet(reference, x, y), Point(x, y), Some(p), componentType);
      }
      if !ValidatePosition(x, y, true) {
        var p := layout.FindValidPosition(reference, componentType, Some(x), Some(y));
        return ValidationIssue(Warning, reference, OutsideUsableArea(reference, x, y), Point(x, y), Some(p), componentType);
      }
      issue := ValidationIssue(Info, reference, PositionIsValid(reference), Point(x, y), None, componentType);
    }

    /** Clear the layout, then grade every component in order. */
    method ValidateCircuitComponents(cs: seq<Component>) returns (report: ValidationReport)
      requires Valid()
      modifies layout
      ensures Valid() && layout.placed == []
      ensures report == CircuitReport(bounds, cs)
    {
      layout.ClearLayout();
      var issues: seq<ValidationIssue> := [];
      var corrected: Dict<string, Point> := [];
      var count: nat := 0;
      for i := 0 to |cs|
        invariant Valid() && layout.placed == []
        invariant issues == Issues(bounds, cs[..i])
        invariant count == OutCount(cs[..i])
        invariant corrected == Corrections(bounds, cs[..i])
      {
        CircuitStep(bounds, cs, i);
        var c := cs[i];
        var issue;
        if c.position.NoPosition? {
          issue := ValidationIssue(Info, RefOf(c), NoPositionSpecified(RefOf(c)), Point(0.0, 0.0), None, TypeOf(c));
        } else if HasCoordinates(c) {
          issue := ValidateComponentPosition(RefOf(c), c.position.values[0], c.position.values[1], TypeOf(c));
          if issue.severity == Error || issue.severity == Warning {
            count := count + 1;
            if issue.suggestedPosition.Some? {
              corrected := Put(corrected, RefOf(c), issue.suggestedPosition.value);
            }
          }
        } else {
          issue := ValidationIssue(Error, RefOf(c), InvalidPositionFormat(RefOf(c)), Point(0.0, 0.0), None, TypeOf(c));
        }
        issues := issues + [issue];
      }
      assert cs[..|cs|] == cs;
      report := ValidationReport(count == 0, issues, |cs|, ValidatedCount(issues), count, corrected);
    }

    /** Validate, then replace the position of every component whose
        reference received a correction. */
    method AutoCorrectPositions(cs: seq<Component>) returns (corrected: seq<Component>, report: ValidationReport)
      requires Valid()
      modifies layout
      ensures Valid() && layout.placed == []
      ensures report == CircuitReport(bounds, cs)
      ensures corrected == Corrected(cs, report.correctedPositions)
    {
      report := ValidateCircuitComponents(cs);
      corrected := [];
      for i := 0 to |cs|
        invariant corrected == Corrected(cs[..i], report.correctedPositions)
      {
        assert cs[..i + 1][..i] == cs[..i];
        var c := cs[i];
        var p := Lookup(report.correctedPositions, RefOf(c));
        if p.Some? {
          corrected := corrected + [c.(position := Coordinates([p.value.x, p.value.y]))];
        } else {
          corrected := corrected + [c];
        }
      }
      assert cs[..|cs|] == cs;
    }
  }
}
