/** The line-based schematic text emitter (`SExpressionGenerator`): the
    lib_symbols section, one block per component and power symbol, wire
    segments along pin-mapper routes, and the document framing. UUIDs and
    the printing of floats are parameters: the model fixes what is printed
    where, not how Python renders a float. */
module SexprGeneration {
  import opened Common
  import ComponentLayout
  import CoordinateConverter
  import PinMapper
  import SexprHandling

  // ---------------------------------------------------------------------
  // Inputs

  /** The keys of a component dictionary the generator reads. */
  datatype GenComponent = GenComponent(reference: string, value: string, symbolLibrary: Option<string>, symbolName: Option<string>,
                                       componentType: Option<string>, position: Option<(real, real)>)

  /** The keys of a power-symbol dictionary the generator reads. */
  datatype GenPower = GenPower(reference: Option<string>, powerType: Option<string>, position: Option<(real, real)>)

  /** A number as it arrives in a coordinate connection: Python int or float. */
  datatype Number = IntNumber(i: int) | RealNumber(r: real)

  /** The keys of a connection dictionary; a missing key is None. */
  datatype WireRequest = WireRequest(startComponent: Option<string>, startPin: Option<string>,
                                     endComponent: Option<string>, endPin: Option<string>,
                                     startX: Option<Number>, startY: Option<Number>,
                                     endX: Option<Number>, endY: Option<Number>)

  /** A net of `generate_advanced_wire_routing`: "ref.pin" entries. */
  datatype Net = Net(name: Option<string>, pins: seq<string>)

  /** The UUIDs one symbol block uses: the symbol's and one per pin. */
  datatype SymbolUuids = SymbolUuids(symbol: string, pin1: string, pin2: string)

  // ---------------------------------------------------------------------
  // Component types

  /** `_get_component_type`: the explicit type, else the first matching rule
      on the lower-cased symbol name and library. */
  function GetComponentType(q: SexprHandling.TypeQuery): (r: string)
    ensures q.componentType.Some? ==> r == q.componentType.value
    ensures q.componentType.None? ==>
              r in {"resistor", "capacitor", "inductor", "led", "diode", "transistor", "switch", "connector", "ic", "default"}
  {
    if q.componentType.Some? then q.componentType.value
    else
      var name := Lower(OrElse(q.symbolName, ""));
      var library := Lower(OrElse(q.symbolLibrary, ""));
      if name == "r" || name == "resistor" then "resistor"
      else if name == "c" || name == "capacitor" then "capacitor"
      else if name == "l" || name == "inductor" then "inductor"
      else if name == "led" then "led"
      else if name == "d" || name == "diode" then "diode"
      else if Contains(name, "transistor") then "transistor"
      else if library == "switch" then "switch"
      else if library == "connector" then "connector"
      else if Contains(name, "ic") || Contains(name, "mcu") then "ic"
      else "default"
  }

  /** The generator and the handler type a component alike, except for
      names that only the handler's "atmega" rule recognises. */
  lemma ComponentTypeAgreesWithHandler(q: SexprHandling.TypeQuery)
    ensures !Contains(Lower(OrElse(q.symbolName, "")), "atmega") ==>
              GetComponentType(q) == SexprHandling.GetComponentType(q)
    ensures GetComponentType(q) != SexprHandling.GetComponentType(q) ==>
              GetComponentType(q) == "default" && SexprHandling.GetComponentType(q) == "ic"
  {
  }

  /** An ATmega part without "ic" or "mcu" in its name is an IC to the
      handler and a default-sized part to the generator. */
  lemma AtmegaTypedDifferently()
    ensures GetComponentType(SexprHandling.TypeQuery(None, Some("ATmega8"), None)) == "default"
    ensures SexprHandling.GetComponentType(SexprHandling.TypeQuery(None, Some("ATmega8"), None)) == "ic"
  {
    var name := Lower("ATmega8");
    assert name == "atmega8";
    AtmegaForGenerator(name);
    AtmegaForHandler(name);
  }

  lemma AtmegaForGenerator(name: string)
    requires name == "atmega8" && Lower("ATmega8") == name
    ensures GetComponentType(SexprHandling.TypeQuery(None, Some("ATmega8"), None)) == "default"
  {
    assert Lower("") == "";
    MissingCharacter(name, "ic", 0);
    MissingCharacter(name, "mcu", 2);
    MissingCharacter(name, "transistor", 1);
  }

  lemma AtmegaForHandler(name: string)
    requires name == "atmega8" && Lower("ATmega8") == name
    ensures SexprHandling.GetComponentType(SexprHandling.TypeQuery(None, Some("ATmega8"), None)) == "ic"
  {
    assert name[0..6] == "atmega";
    ContainsAt(name, "atmega", 0);
    assert Lower("") == "";
    MissingCharacter(name, "ic", 0);
    MissingCharacter(name, "mcu", 2);
  }

  /** A text lacking one of the characters of `sub` does not contain `sub`. */
  lemma MissingCharacter(s: string, sub: string, k: nat)
    requires k < |sub| && forall j :: 0 <= j < |s| ==> s[j] != sub[k]
    ensures !Contains(s, sub)
  {
    forall i: nat | i <= |s|
      ensures !OccursAt(s, sub, i)
    {
      if i + |sub| <= |s| {
        assert s[i..i + |sub|][k] == s[i + k];
      }
    }
  }

  function TypeQueryOf(c: GenComponent): SexprHandling.TypeQuery {
    SexprHandling.TypeQuery(c.componentType, c.symbolName, c.symbolLibrary)
  }

  // ---------------------------------------------------------------------
  // Library symbol definitions

  /** The definitions `_generate_symbol_definition` can return. */
  datatype SymbolDef = ResistorDef | CapacitorDef | InductorDef | LedDef | DiodeDef | PowerDef(powerType: string)

  /** The lib_id each definition declares in its opening line. */
  function DefinitionName(d: SymbolDef): string {
    match d
    case ResistorDef => "Device:R"
    case CapacitorDef => "Device:C"
    case InductorDef => "Device:L"
    case LedDef => "Device:LED"
    case DiodeDef => "Device:D"
    case PowerDef(t) => "power:" + t
  }

  const KnownDeviceSymbols: set<string> := {"R", "C", "L", "LED", "D"}

  /** `_generate_symbol_definition`: the specific Device definitions, the
      power definition for the power library, the resistor otherwise. */
  function SymbolDefinition(library: string, symbol: string): (d: SymbolDef)
    ensures d.PowerDef? <==> library == "power"
    ensures d.PowerDef? ==> d.powerType == symbol
    ensures (library == "power" || (library == "Device" && symbol in KnownDeviceSymbols)) ==>
              DefinitionName(d) == library + ":" + symbol
    ensures !(library == "power" || (library == "Device" && symbol in KnownDeviceSymbols)) ==> d == ResistorDef
  {
    if library == "Device" && symbol == "R" then ResistorDef
    else if library == "Device" && symbol == "C" then CapacitorDef
    else if library == "Device" && symbol == "L" then InductorDef
    else if library == "Device" && symbol == "LED" then LedDef
    else if library == "Device" && symbol == "D" then DiodeDef
    else if library == "power" then PowerDef(symbol)
    else ResistorDef
  }

  /** The opening and closing lines of a definition; the drawing between
      them is not modelled. */
  function DefinitionLines(d: SymbolDef): seq<string> {
    ["(symbol \"" + DefinitionName(d) + "\"", ")"]
  }

  function Indent(lines: seq<string>): (r: seq<string>)
    ensures |r| == |lines|
    ensures forall i :: 0 <= i < |lines| ==> r[i] == "    " + lines[i]
  {
    seq(|lines|, i requires 0 <= i < |lines| => "    " + lines[i])
  }

  // ---------------------------------------------------------------------
  // Python's ordering of strings, and sorted(set(...))

  /** `a < b` on Python strings: lexicographic by code point. */
  predicate Less(a: string, b: string)
    decreases |a|
  {
    if a == [] then b != []
    else if b == [] then false
    else if a[0] != b[0] then a[0] < b[0]
    else Less(a[1..], b[1..])
  }

  lemma {:induction false} LessIrreflexive(a: string)
    ensures !Less(a, a)
    decreases |a|
  {
    if a != [] {
      LessIrreflexive(a[1..]);
    }
  }

  lemma {:induction false} LessTransitive(a: string, b: string, c: string)
    requires Less(a, b) && Less(b, c)
    ensures Less(a, c)
    decreases |a|
  {
    if a != [] && b != [] && c != [] && a[0] == b[0] && b[0] == c[0] {
      LessTransitive(a[1..], b[1..], c[1..]);
    }
  }

  lemma {:induction false} LessTotal(a: string, b: string)
    requires a != b
    ensures Less(a, b) || Less(b, a)
    decreases |a|
  {
    if a != [] && b != [] && a[0] == b[0] {
      assert a == [a[0]] + a[1..] && b == [b[0]] + b[1..];
      LessTotal(a[1..], b[1..]);
    }
  }

  predicate StrictlySorted(s: seq<string>) {
    forall i, j :: 0 <= i < j < |s| ==> Less(s[i], s[j])
  }

  /** Insertion into a strictly sorted list; an element already present is
      not repeated. */
  function Insert(s: seq<string>, x: string): seq<string> {
    if s == [] then [x]
    else if x == s[0] then s
    else if Less(x, s[0]) then [x] + s
    else [s[0]] + Insert(s[1..], x)
  }

  lemma {:induction false} InsertSorted(s: seq<string>, x: string)
    requires StrictlySorted(s)
    ensures StrictlySorted(Insert(s, x))
    ensures Elements(Insert(s, x)) == Elements(s) + {x}
  {
    InsertElements(s, x);
    if s == [] {
    } else if x == s[0] {
    } else if Less(x, s[0]) {
      forall k | 0 <= k < |s|
        ensures Less(x, s[k])
      {
        if k > 0 {
          LessTransitive(x, s[0], s[k]);
        }
      }
      ConsSorted(x, s);
    } else {
      LessTotal(x, s[0]);
      var tail := s[1..];
      var rest := Insert(tail, x);
      InsertSorted(tail, x);
      forall k | 0 <= k < |rest|
        ensures Less(s[0], rest[k])
      {
        assert rest[k] in Elements(rest);
        if rest[k] != x {
          var m :| 0 <= m < |tail| && tail[m] == rest[k];
          assert s[m + 1] == tail[m];
        }
      }
      ConsSorted(s[0], rest);
    }
  }

  lemma {:induction false} InsertElements(s: seq<string>, x: string)
    ensures Elements(Insert(s, x)) == Elements(s) + {x}
  {
    if s != [] && x != s[0] {
      assert s == [s[0]] + s[1..];
      assert Elements(s) == {s[0]} + Elements(s[1..]);
      if !Less(x, s[0]) {
        InsertElements(s[1..], x);
        assert Elements(Insert(s, x)) == {s[0]} + Elements(Insert(s[1..], x));
      }
    }
  }

  /** An element below every element of a strictly sorted list can lead it. */
  lemma ConsSorted(a: string, s: seq<string>)
    requires StrictlySorted(s)
    requires forall k :: 0 <= k < |s| ==> Less(a, s[k])
    ensures StrictlySorted([a] + s)
  {
    var r := [a] + s;
    forall i, j | 0 <= i < j < |r|
      ensures Less(r[i], r[j])
    {
      assert r[j] == s[j - 1];
      if i > 0 {
        assert r[i] == s[i - 1];
      }
    }
  }

  /** `sorted(set(xs))`, built by inserting the elements in their order. */
  function SortedSet(xs: seq<string>): seq<string> {
    if xs == [] then [] else Insert(SortedSet(xs[..|xs| - 1]), xs[|xs| - 1])
  }

  /** The sorted set is strictly increasing and holds exactly the elements. */
  lemma {:induction false} SortedSetSpec(xs: seq<string>)
    ensures StrictlySorted(SortedSet(xs))
    ensures Elements(SortedSet(xs)) == Elements(xs)
  {
    if xs != [] {
      var init := xs[..|xs| - 1];
      SortedSetSpec(init);
      InsertSorted(SortedSet(init), xs[|xs| - 1]);
      assert xs == init + [xs[|xs| - 1]];
      assert Elements(xs) == Elements(init) + {xs[|xs| - 1]};
    }
  }

  /** Two strictly sorted lists with the same elements are equal: the order
      in which lib_ids were added does not show in the output. */
  lemma {:induction false} SortedUnique(a: seq<string>, b: seq<string>)
    requires StrictlySorted(a) && StrictlySorted(b) && Elements(a) == Elements(b)
    ensures a == b
    decreases |a|
  {
    NoElements(a);
    NoElements(b);
    if a != [] {
      SmallestFirst(a, b[0]);
      SmallestFirst(b, a[0]);
      LessAsymmetric(a[0], b[0]);
      assert a[0] == b[0];
      assert a == [a[0]] + a[1..] && b == [b[0]] + b[1..];
      assert Elements(a) == {a[0]} + Elements(a[1..]);
      assert Elements(b) == {b[0]} + Elements(b[1..]);
      NotInTail(a);
      NotInTail(b);
      assert Elements(a[1..]) == Elements(b[1..]);
      SortedUnique(a[1..], b[1..]);
    }
  }

  lemma NoElements(s: seq<string>)
    ensures Elements(s) == {} <==> s == []
  {
    if s != [] {
      assert s[0] in Elements(s);
    }
  }

  lemma {:induction false} LessAsymmetric(a: string, b: string)
    ensures Less(a, b) ==> !Less(b, a)
    decreases |a|
  {
    if a != [] && b != [] && a[0] == b[0] {
      LessAsymmetric(a[1..], b[1..]);
    }
  }

  /** The first element of a strictly sorted list is its least. */
  lemma SmallestFirst(s: seq<string>, y: string)
    requires StrictlySorted(s) && y in Elements(s)
    ensures s[0] == y || Less(s[0], y)
  {
    var k :| 0 <= k < |s| && s[k] == y;
  }

  lemma NotInTail(s: seq<string>)
    requires StrictlySorted(s) && s != []
    ensures s[0] !in Elements(s[1..])
  {
    LessIrreflexive(s[0]);
    assert forall k :: 0 <= k < |s| - 1 ==> Less(s[0], s[1..][k]);
  }

  // ---------------------------------------------------------------------
  // The lib_symbols section

  function ComponentLibId(c: GenComponent): string {
    OrElse(c.symbolLibrary, "Device") + ":" + OrElse(c.symbolName, "R")
  }

  function PowerLibId(p: GenPower): string {
    "power:" + OrElse(p.powerType, "VCC")
  }

  /** The lib_ids in the order `_generate_lib_symbols` adds them to its set. */
  function LibIds(cs: seq<GenComponent>, ps: seq<GenPower>): (r: seq<string>)
    ensures |r| == |cs| + |ps|
    ensures forall i :: 0 <= i < |cs| ==> r[i] == ComponentLibId(cs[i])
    ensures forall i :: 0 <= i < |ps| ==> r[|cs| + i] == PowerLibId(ps[i])
  {
    seq(|cs|, i requires 0 <= i < |cs| => ComponentLibId(cs[i])) + seq(|ps|, i requires 0 <= i < |ps| => PowerLibId(ps[i]))
  }

  /** The definition for one lib_id, or None when `lib_id.split(":")` does
      not give exactly two parts (Python raises ValueError). */
  function DefinitionFor(id: string): Option<SymbolDef> {
    var parts := Split(id, ":");
    if |parts| == 2 then Some(SymbolDefinition(parts[0], parts[1])) else None
  }

  /** The definitions for the ids, in order. */
  function DefinitionsFor(ids: seq<string>): (r: seq<Option<SymbolDef>>)
    ensures |r| == |ids| && forall k :: 0 <= k < |ids| ==> r[k] == DefinitionFor(ids[k])
  {
    seq(|ids|, k requires 0 <= k < |ids| => DefinitionFor(ids[k]))
  }

  /** The indented definitions, in order; None at the first id that does not split. */
  function DefinitionsBody(defs: seq<Option<SymbolDef>>): Option<seq<string>> {
    if defs == [] then Some([])
    else
      match DefinitionsBody(defs[..|defs| - 1])
      case None => None
      case Some(prev) =>
        match defs[|defs| - 1]
        case None => None
        case Some(d) => Some(prev + Indent(DefinitionLines(d)))
  }

  /** `_generate_lib_symbols`. */
  function LibSymbols(cs: seq<GenComponent>, ps: seq<GenPower>): Option<seq<string>> {
    match DefinitionsBody(DefinitionsFor(SortedSet(LibIds(cs, ps))))
    case None => None
    case Some(body) => Some(["  (lib_symbols"] + body + ["  )"])
  }

  /** The body exists exactly when every id splits in two. */
  lemma {:induction false} DefinitionsBodyDefined(defs: seq<Option<SymbolDef>>)
    ensures DefinitionsBody(defs).Some? <==> forall k :: 0 <= k < |defs| ==> defs[k].Some?
  {
    if defs != [] {
      var init := defs[..|defs| - 1];
      DefinitionsBodyDefined(init);
      assert forall k :: 0 <= k < |init| ==> init[k] == defs[k];
    }
  }

  lemma DefinitionsBodyExtend(defs: seq<Option<SymbolDef>>, k: nat, lines: seq<string>, d: SymbolDef)
    requires k < |defs| && defs[k] == Some(d) && DefinitionsBody(defs[..k]) == Some(lines)
    ensures DefinitionsBody(defs[..k + 1]) == Some(lines + Indent(DefinitionLines(d)))
  {
    assert defs[..k + 1][..k] == defs[..k];
  }

  /** The body holds one two-line definition per id, in the ids' order. */
  lemma {:induction false} DefinitionsBodyLines(defs: seq<Option<SymbolDef>>)
    requires DefinitionsBody(defs).Some?
    ensures |DefinitionsBody(defs).value| == 2 * |defs|
    ensures forall k :: 0 <= k < |defs| ==>
              (defs[k].Some? && DefinitionsBody(defs).value[2 * k] == OpeningLineOf(defs[k].value))
  {
    if defs != [] {
      var n := |defs| - 1;
      var init := defs[..n];
      DefinitionsBodyStep(defs);
      var prev: seq<string> := DefinitionsBody(init).value;
      var d := defs[n].value;
      DefinitionsBodyLines(init);
      var body: seq<string> := DefinitionsBody(defs).value;
      var last: seq<string> := Indent(DefinitionLines(d));
      assert body == prev + last;
      OpeningLine(d);
      forall k | 0 <= k < |defs|
        ensures defs[k].Some? && body[2 * k] == OpeningLineOf(defs[k].value)
      {
        if k < n {
          assert init[k] == defs[k];
          assert body[2 * k] == prev[2 * k];
        } else {
          assert body[2 * k] == last[0];
        }
      }
    }
  }

  lemma DefinitionsBodyStep(defs: seq<Option<SymbolDef>>)
    requires defs != [] && DefinitionsBody(defs).Some?
    ensures DefinitionsBody(defs[..|defs| - 1]).Some? && defs[|defs| - 1].Some?
    ensures DefinitionsBody(defs).value ==
              DefinitionsBody(defs[..|defs| - 1]).value + Indent(DefinitionLines(defs[|defs| - 1].value))
  {
  }

  /** The indented opening line of a definition. */
  function OpeningLineOf(d: SymbolDef): string {
    "    (symbol \"" + DefinitionName(d) + "\""
  }

  lemma OpeningLine(d: SymbolDef)
    ensures |Indent(DefinitionLines(d))| == 2
    ensures Indent(DefinitionLines(d))[0] == OpeningLineOf(d)
  {
    assert DefinitionLines(d)[0] == "(symbol \"" + DefinitionName(d) + "\"";
  }


  /** A lib_id "library:symbol" with a single colon splits into its two halves. */
  lemma SplitInTwo(id: string)
    requires |Split(id, ":")| == 2
    ensures Split(id, ":")[0] + ":" + Split(id, ":")[1] == id
  {
    var i := Find(id, ":").value;
    var rest := id[i + 1..];
    assert Split(id, ":") == [id[..i]] + Split(rest, ":");
    assert Split(rest, ":") == [rest];
    assert id == id[..i] + ":" + rest;
  }

  /** Names without a colon rejoin into a lib_id that splits back into them. */
  lemma ColonSplit(library: string, symbol: string)
    requires forall k :: 0 <= k < |library| ==> library[k] != ':'
    requires forall k :: 0 <= k < |symbol| ==> symbol[k] != ':'
    ensures Split(library + ":" + symbol, ":") == [library, symbol]
  {
    var id := library + ":" + symbol;
    var i := |library|;
    assert id[i..i + 1] == ":";
    ContainsAt(id, ":", i);
    var v := Find(id, ":").value;
    assert id[v..v + 1][0] == id[v];
    assert v == i;
    assert id[..i] == library && id[i + 1..] == symbol;
    MissingCharacter(symbol, ":", 0);
  }

  /** With colon-free library and symbol names, every lib_id has a definition. */
  lemma ColonFreeNamesSplit(c: GenComponent)
    requires forall k :: 0 <= k < |OrElse(c.symbolLibrary, "Device")| ==> OrElse(c.symbolLibrary, "Device")[k] != ':'
    requires forall k :: 0 <= k < |OrElse(c.symbolName, "R")| ==> OrElse(c.symbolName, "R")[k] != ':'
    ensures DefinitionFor(ComponentLibId(c)).Some?
  {
    ColonSplit(OrElse(c.symbolLibrary, "Device"), OrElse(c.symbolName, "R"));
  }

  /** A definition names its own lib_id, except that any Device symbol other
      than R, C, L, LED, D and any library other than Device and power get
      the resistor's. */
  lemma DefinitionNamesItsId(id: string)
    requires DefinitionFor(id).Some?
    ensures var parts := Split(id, ":");
      if parts[0] == "power" || (parts[0] == "Device" && parts[1] in KnownDeviceSymbols)
      then DefinitionName(DefinitionFor(id).value) == id
      else DefinitionFor(id).value == ResistorDef
  {
    SplitInTwo(id);
  }

  /** `_generate_lib_symbols` emits one definition per distinct lib_id, in
      sorted order, between the section's opening and closing lines. */
  lemma LibSymbolsOnePerLibId(cs: seq<GenComponent>, ps: seq<GenPower>)
    ensures var ids := SortedSet(LibIds(cs, ps));
      StrictlySorted(ids) && Elements(ids) == Elements(LibIds(cs, ps))
      && (LibSymbols(cs, ps).Some? ==>
            var lines := LibSymbols(cs, ps).value;
            |lines| == 2 * |ids| + 2 && lines[0] == "  (lib_symbols" && lines[|lines| - 1] == "  )"
            && forall k :: 0 <= k < |ids| ==>
                 (DefinitionFor(ids[k]).Some? && lines[2 * k + 1] == OpeningLineOf(DefinitionFor(ids[k]).value)))
  {
    var ids := SortedSet(LibIds(cs, ps));
    SortedSetSpec(LibIds(cs, ps));
    if LibSymbols(cs, ps).Some? {
      var defs := DefinitionsFor(ids);
      SectionLines(defs, LibSymbols(cs, ps).value);
    }
  }

  /** The section around a body of definitions: two framing lines and each
      definition's opening line at an odd index. */
  lemma SectionLines(defs: seq<Option<SymbolDef>>, lines: seq<string>)
    requires DefinitionsBody(defs).Some? && lines == ["  (lib_symbols"] + DefinitionsBody(defs).value + ["  )"]
    ensures |lines| == 2 * |defs| + 2 && lines[0] == "  (lib_symbols" && lines[|lines| - 1] == "  )"
    ensures forall k :: 0 <= k < |defs| ==> defs[k].Some? && lines[2 * k + 1] == OpeningLineOf(defs[k].value)
  {
    var body := DefinitionsBody(defs).value;
    DefinitionsBodyLines(defs);
    SectionOpenings(defs, body, lines);
  }

  lemma SectionOpenings(defs: seq<Option<SymbolDef>>, body: seq<string>, lines: seq<string>)
    requires |body| == 2 * |defs|
    requires forall k :: 0 <= k < |defs| ==> defs[k].Some? && body[2 * k] == OpeningLineOf(defs[k].value)
    requires lines == ["  (lib_symbols"] + body + ["  )"]
    ensures forall k :: 0 <= k < |defs| ==> defs[k].Some? && lines[2 * k + 1] == OpeningLineOf(defs[k].value)
  {
    forall k | 0 <= k < |defs|
      ensures lines[2 * k + 1] == body[2 * k]
    {
    }
  }

  /** A lib_symbols section fails exactly when some lib_id does not split in two. */
  lemma LibSymbolsFailure(cs: seq<GenComponent>, ps: seq<GenPower>)
    ensures LibSymbols(cs, ps).None? <==> exists k :: 0 <= k < |LibIds(cs, ps)| && DefinitionFor(LibIds(cs, ps)[k]).None?
  {
    var ids := SortedSet(LibIds(cs, ps));
    SortedSetSpec(LibIds(cs, ps));
    DefinitionsBodyDefined(DefinitionsFor(ids));
    if LibSymbols(cs, ps).None? {
      var k :| 0 <= k < |ids| && DefinitionFor(ids[k]).None?;
      assert ids[k] in Elements(LibIds(cs, ps));
    } else {
      forall k | 0 <= k < |LibIds(cs, ps)|
        ensures DefinitionFor(LibIds(cs, ps)[k]).Some?
      {
        assert LibIds(cs, ps)[k] in Elements(ids);
      }
    }
  }

  /** Every power symbol contributes "power:<type>", "power:VCC" by default. */
  lemma PowerSymbolsContributeTheirType(cs: seq<GenComponent>, ps: seq<GenPower>, i: nat)
    requires i < |ps|
    ensures "power:" + OrElse(ps[i].powerType, "VCC") in SortedSet(LibIds(cs, ps))
  {
    SortedSetSpec(LibIds(cs, ps));
    assert LibIds(cs, ps)[|cs| + i] == PowerLibId(ps[i]);
    assert PowerLibId(ps[i]) in Elements(LibIds(cs, ps));
  }

  /** An unknown Device symbol shares the resistor's definition, so a sheet
      using both Device:R and, say, Device:Q declares "Device:R" twice. */
  lemma UnknownDeviceSymbolsShareResistorDefinition(symbol: string)
    requires forall k :: 0 <= k < |symbol| ==> symbol[k] != ':'
    requires symbol !in KnownDeviceSymbols
    ensures DefinitionFor("Device" + ":" + symbol) == Some(ResistorDef)
    ensures DefinitionName(DefinitionFor("Device" + ":" + symbol).value) == "Device:R"
  {
    ColonSplit("Device", symbol);
  }

  // ---------------------------------------------------------------------
  // Symbol instances

  /** The simulation, BOM, board and DNP flags every symbol instance carries. */
  const SymbolFlags: string := "    (exclude_from_sim no) (in_bom yes) (on_board yes) (dnp no)"

  /** `_generate_component_symbol`'s lines for a component placed at `at`. */
  function ComponentLines(c: GenComponent, at: Point, ids: SymbolUuids, fmt: real -> string): seq<string> {
    var k := CoordinateConverter.LayoutToKicad(at);
    var x, y := fmt(k.x), fmt(k.y);
    [SymbolHead(ComponentLibId(c)) + At(x, y) + " (unit 1)",
     SymbolFlags,
     "    (uuid \"" + ids.symbol + "\")",
     PropertyHead("Reference", c.reference) + At(fmt(k.x + 25.4), fmt(k.y - 12.7)) + ")",
     PropertyHead("Value", c.value) + At(fmt(k.x + 25.4), fmt(k.y + 12.7)) + ")",
     PropertyHead("Footprint", "") + At(x, y) + ")",
     PropertyHead("Datasheet", "~") + At(x, y) + ")",
     PinHead("1") + " (uuid \"" + ids.pin1 + "\"))",
     PinHead("2") + " (uuid \"" + ids.pin2 + "\"))",
     "  )"]
  }

  /** The opening of a symbol instance line. */
  function SymbolHead(libId: string): string {
    "  (symbol (lib_id \"" + libId + "\")"
  }

  /** The opening of a property line: its name and value. */
  function PropertyHead(name: string, value: string): string {
    "    (property \"" + name + "\" \"" + value + "\""
  }

  /** The opening of a pin line. */
  function PinHead(number: string): string {
    "    (pin \"" + number + "\""
  }

  /** " (at x y 0)". */
  function At(x: string, y: string): string {
    " (at " + x + " " + y + " 0)"
  }

  /** A component block names the component's lib_id, reference and value,
      carries the UUID recorded for it, and always lists pins "1" and "2". */
  lemma ComponentBlockShape(c: GenComponent, at: Point, ids: SymbolUuids, fmt: real -> string)
    ensures var lines := ComponentLines(c, at, ids, fmt);
      |lines| == 10
      && StartsWith(lines[0], SymbolHead(ComponentLibId(c)))
      && lines[2] == "    (uuid \"" + ids.symbol + "\")"
      && StartsWith(lines[3], PropertyHead("Reference", c.reference))
      && StartsWith(lines[4], PropertyHead("Value", c.value))
      && StartsWith(lines[7], PinHead("1")) && StartsWith(lines[8], PinHead("2"))
      && lines[9] == "  )"
  {
    var lines := ComponentLines(c, at, ids, fmt);
    var k := CoordinateConverter.LayoutToKicad(at);
    ConcatStartsWith(SymbolHead(ComponentLibId(c)), At(fmt(k.x), fmt(k.y)) + " (unit 1)");
    ConcatStartsWith(PropertyHead("Reference", c.reference), At(fmt(k.x + 25.4), fmt(k.y - 12.7)) + ")");
    ConcatStartsWith(PropertyHead("Value", c.value), At(fmt(k.x + 25.4), fmt(k.y + 12.7)) + ")");
    ConcatStartsWith(PinHead("1"), " (uuid \"" + ids.pin1 + "\"))");
    ConcatStartsWith(PinHead("2"), " (uuid \"" + ids.pin2 + "\"))");
  }

  lemma ConcatStartsWith(p: string, t: string)
    ensures StartsWith(p + t, p)
  {
    assert (p + t)[..|p|] == p;
  }

  /** The reference of a power symbol: its own, else "#PWR0" and the
      zero-padded number one past the count of symbols emitted so far. */
  function PowerReference(p: GenPower, emitted: nat): (r: string)
    ensures p.reference.Some? ==> r == p.reference.value
    ensures p.reference.None? ==> StartsWith(r, "#PWR0") && r[5..] == Pad3(emitted + 1)
  {
    if p.reference.Some? then p.reference.value
    else
      var r := "#PWR0" + Pad3(emitted + 1);
      assert r[..5] == "#PWR0";
      r
  }

  /** `_generate_power_symbol`'s lines, or None when the power type is
      missing (Python raises KeyError). */
  function PowerLines(p: GenPower, ref: string, at: Point, ids: SymbolUuids, fmt: real -> string): (r: Option<seq<string>>)
    ensures r.Some? <==> p.powerType.Some?
  {
    if p.powerType.None? then None
    else
      var t := p.powerType.value;
      var k := CoordinateConverter.LayoutToKicad(at);
      var x, y := fmt(k.x), fmt(k.y);
      Some([SymbolHead("power:" + t) + At(x, y) + " (unit 1)",
            SymbolFlags,
            "    (uuid \"" + ids.symbol + "\")",
            PropertyHead("Reference", ref) + At(x, fmt(k.y - 25.4)) + ")",
            PropertyHead("Value", t) + At(x, fmt(k.y + 35.56)) + ")",
            PropertyHead("Footprint", "") + At(x, y) + ")",
            PropertyHead("Datasheet", "") + At(x, y) + ")",
            PinHead("1") + " (uuid \"" + ids.pin1 + "\"))",
            "  )"])
  }

  /** A power block exists exactly when the type is given; its lib_id is
      "power:<type>", its Value is the type and it has the single pin "1". */
  lemma PowerBlockShape(p: GenPower, ref: string, at: Point, ids: SymbolUuids, fmt: real -> string)
    ensures PowerLines(p, ref, at, ids, fmt).Some? <==> p.powerType.Some?
    ensures p.powerType.Some? ==>
      var lines := PowerLines(p, ref, at, ids, fmt).value;
      |lines| == 9
      && StartsWith(lines[0], SymbolHead(PowerLibId(p)))
      && lines[2] == "    (uuid \"" + ids.symbol + "\")"
      && StartsWith(lines[3], PropertyHead("Reference", ref))
      && StartsWith(lines[4], PropertyHead("Value", p.powerType.value))
      && StartsWith(lines[7], PinHead("1"))
      && lines[8] == "  )"
  {
    if p.powerType.Some? {
      var k := CoordinateConverter.LayoutToKicad(at);
      ConcatStartsWith(SymbolHead(PowerLibId(p)), At(fmt(k.x), fmt(k.y)) + " (unit 1)");
      ConcatStartsWith(PropertyHead("Reference", ref), At(fmt(k.x), fmt(k.y - 25.4)) + ")");
      ConcatStartsWith(PropertyHead("Value", p.powerType.value), At(fmt(k.x), fmt(k.y + 35.56)) + ")");
      ConcatStartsWith(PinHead("1"), " (uuid \"" + ids.pin1 + "\"))");
    }
  }

  // ---------------------------------------------------------------------
  // Wire segments

  /** A wire segment between two points given as text. */
  function SegmentLines(sx: string, sy: string, ex: string, ey: string, uuid: string): seq<string> {
    ["  (wire (pts (xy " + sx + " " + sy + ") (xy " + ex + " " + ey + ")) (stroke (width 0) (type default))",
     "    (uuid \"" + uuid + "\")",
     "  )"]
  }

  /** `int(v * 10)`: the route coordinate in tenths, truncated toward zero. */
  function Tenfold(v: real): string {
    IntToString(Trunc(v * 10.0))
  }

  /** The segment from route point a to route point b. */
  function RouteSegment(a: PinMapper.Point, b: PinMapper.Point, uuid: string): seq<string> {
    SegmentLines(Tenfold(a.0), Tenfold(a.1), Tenfold(b.0), Tenfold(b.1), uuid)
  }

  /** One segment per consecutive pair of route points; segment i has UUID id(i). */
  function RouteLines(route: seq<PinMapper.Point>, id: nat -> string): seq<string>
    decreases |route|
  {
    if |route| < 2 then []
    else RouteLines(route[..|route| - 1], id) + RouteSegment(route[|route| - 2], route[|route| - 1], id(|route| - 2))
  }

  /** A route of n >= 1 points gives n - 1 segments of three lines, segment i
      running from point i to point i + 1. */
  lemma {:induction false} RouteLinesShape(route: seq<PinMapper.Point>, id: nat -> string)
    ensures |RouteLines(route, id)| == if |route| < 2 then 0 else 3 * (|route| - 1)
    ensures forall i :: 0 <= i < |route| - 1 ==>
              RouteLines(route, id)[3 * i..3 * i + 3] == RouteSegment(route[i], route[i + 1], id(i))
    decreases |route|
  {
    if |route| >= 2 {
      var init := route[..|route| - 1];
      RouteLinesShape(init, id);
      var prev := RouteLines(init, id);
      var r := RouteLines(route, id);
      assert r == prev + RouteSegment(route[|route| - 2], route[|route| - 1], id(|route| - 2));
      forall i | 0 <= i < |route| - 1
        ensures r[3 * i..3 * i + 3] == RouteSegment(route[i], route[i + 1], id(i))
      {
        if i < |route| - 2 {
          assert init[i] == route[i] && init[i + 1] == route[i + 1];
          EarlierBlock(prev, RouteSegment(route[|route| - 2], route[|route| - 1], id(|route| - 2)), 3 * i);
        } else {
          EarlierBlock(prev, RouteSegment(route[|route| - 2], route[|route| - 1], id(|route| - 2)), |prev|);
        }
      }
    }
  }

  /** A three-line block at offset j of `prev + seg` lies in `prev` or is `seg`. */
  lemma EarlierBlock<T>(prev: seq<T>, seg: seq<T>, j: nat)
    requires |seg| == 3 && (j + 3 <= |prev| || j == |prev|)
    ensures j + 3 <= |prev| ==> (prev + seg)[j..j + 3] == prev[j..j + 3]
    ensures j == |prev| ==> (prev + seg)[j..j + 3] == seg
  {
  }

  /** The connection point of pin `number` of component `ref`, as the pin
      mapper's `get_pin` finds it. */
  function LookupPin(pins: Dict<string, seq<PinMapper.ComponentPin>>, ref: string, number: string): Option<PinMapper.ComponentPin> {
    PinMapper.FindPin(PinMapper.PinsOf(pins, ref), number)
  }

  /** A connection naming both components is routed pin to pin. */
  predicate PinLevel(w: WireRequest) {
    w.startComponent.Some? && w.endComponent.Some?
  }

  /** The route of a pin-level connection, None when either pin is unknown;
      pins default to "1". */
  function PinRoute(pins: Dict<string, seq<PinMapper.ComponentPin>>, w: WireRequest): Option<seq<PinMapper.Point>>
    requires PinLevel(w)
  {
    var s := LookupPin(pins, w.startComponent.value, OrElse(w.startPin, "1"));
    var e := LookupPin(pins, w.endComponent.value, OrElse(w.endPin, "1"));
    if s.Some? && e.Some? then Some(PinMapper.WireRoute(s.value, e.value)) else None
  }

  /** `connection.get(key, default) * 10`, printed: an int stays an int. */
  function ScaledNumber(n: Option<Number>, default: int, fmt: real -> string): string {
    match n
    case None => IntToString(default * 10)
    case Some(IntNumber(i)) => IntToString(i * 10)
    case Some(RealNumber(r)) => fmt(r * 10.0)
  }

  /** `_generate_wire`. */
  function WireLines(pins: Dict<string, seq<PinMapper.ComponentPin>>, w: WireRequest, id: nat -> string, fmt: real -> string): seq<string> {
    if PinLevel(w) then
      match PinRoute(pins, w)
      case None => []
      case Some(route) => RouteLines(route, id)
    else
      SegmentLines(ScaledNumber(w.startX, 100, fmt), ScaledNumber(w.startY, 100, fmt),
                   ScaledNumber(w.endX, 200, fmt), ScaledNumber(w.endY, 100, fmt), id(0))
  }

  /** A pin-level wire emits one segment per consecutive pair of route
      points (one or two segments), nothing when a pin is unresolved; a
      coordinate connection emits exactly one wire. */
  lemma WireSegments(pins: Dict<string, seq<PinMapper.ComponentPin>>, w: WireRequest, id: nat -> string, fmt: real -> string)
    ensures PinLevel(w) && PinRoute(pins, w).None? ==> WireLines(pins, w, id, fmt) == []
    ensures PinLevel(w) && PinRoute(pins, w).Some? ==>
      var route := PinRoute(pins, w).value;
      var lines := WireLines(pins, w, id, fmt);
      (|lines| == 3 || |lines| == 6) && |lines| == 3 * (|route| - 1)
      && forall i :: 0 <= i < |route| - 1 ==> lines[3 * i..3 * i + 3] == RouteSegment(route[i], route[i + 1], id(i))
    ensures !PinLevel(w) ==> |WireLines(pins, w, id, fmt)| == 3
  {
    if PinLevel(w) && PinRoute(pins, w).Some? {
      var s := LookupPin(pins, w.startComponent.value, OrElse(w.startPin, "1"));
      var e := LookupPin(pins, w.endComponent.value, OrElse(w.endPin, "1"));
      PinMapper.WireRouteShape(s.value, e.value);
      RouteLinesShape(PinRoute(pins, w).value, id);
    }
  }

  /** Missing coordinates default to (100, 100) -> (200, 100), scaled by 10. */
  lemma LegacyWireDefaults(pins: Dict<string, seq<PinMapper.ComponentPin>>, id: nat -> string, fmt: real -> string)
    ensures WireLines(pins, WireRequest(None, None, None, None, None, None, None, None), id, fmt)
            == SegmentLines("1000", "1000", "2000", "1000", id(0))
  {
    assert NatToString(1) == "1";
    assert NatToString(10) == "10";
    assert NatToString(100) == "100";
    assert NatToString(1000) == "1000";
    assert NatToString(2) == "2";
    assert NatToString(20) == "20";
    assert NatToString(200) == "200";
    assert NatToString(2000) == "2000";
  }

  // ---------------------------------------------------------------------
  // Advanced routing

  /** The pins a net's "ref.pin" entries resolve to, in order; an entry
      without a dot or naming an unknown pin is dropped. */
  function ResolvePins(pins: Dict<string, seq<PinMapper.ComponentPin>>, entries: seq<string>): (r: seq<PinMapper.ComponentPin>)
    ensures |r| <= |entries|
  {
    if entries == [] then []
    else
      var prev := ResolvePins(pins, entries[..|entries| - 1]);
      match SplitOnce(entries[|entries| - 1], ".")
      case None => prev
      case Some((ref, number)) =>
        match LookupPin(pins, ref, number)
        case None => prev
        case Some(p) => prev + [p]
  }

  /** The segments of a bus: route r's segment j has UUID id(r)(j). */
  function BusLines(routes: seq<seq<PinMapper.Point>>, id: nat -> nat -> string): seq<string> {
    if routes == [] then []
    else BusLines(routes[..|routes| - 1], id) + RouteLines(routes[|routes| - 1], id(|routes| - 1))
  }

  /** Two-point routes give one segment each. */
  lemma {:induction false} BusLinesLength(routes: seq<seq<PinMapper.Point>>, id: nat -> nat -> string)
    requires forall r :: 0 <= r < |routes| ==> |routes[r]| == 2
    ensures |BusLines(routes, id)| == 3 * |routes|
  {
    if routes != [] {
      BusLinesLength(routes[..|routes| - 1], id);
      RouteLinesShape(routes[|routes| - 1], id(|routes| - 1));
    }
  }

  /** One net of `generate_advanced_wire_routing`, with UUIDs id(route)(segment). */
  function NetLines(pins: Dict<string, seq<PinMapper.ComponentPin>>, net: Net, id: nat -> nat -> string): (r: seq<string>)
    ensures |ResolvePins(pins, net.pins)| < 2 ==> r == []
    ensures |ResolvePins(pins, net.pins)| > 2 ==> |r| == 3 * |ResolvePins(pins, net.pins)|
    ensures |ResolvePins(pins, net.pins)| == 2 ==> |r| == 3 || |r| == 6
  {
    if |net.pins| < 2 then []
    else
      var resolved := ResolvePins(pins, net.pins);
      if |resolved| < 2 then []
      else if |resolved| > 2 then
        var routes := PinMapper.BusRoutes(resolved);
        BusLinesLength(routes, id);
        BusLines(routes, id)
      else
        var route := PinMapper.WireRoute(resolved[0], resolved[1]);
        PinMapper.WireRouteShape(resolved[0], resolved[1]);
        RouteLinesShape(route, id(0));
        RouteLines(route, id(0))
  }

  /** All nets in order; net k's UUIDs are id(k). */
  function AdvancedLines(pins: Dict<string, seq<PinMapper.ComponentPin>>, nets: seq<Net>, id: nat -> nat -> nat -> string): seq<string> {
    if nets == [] then []
    else AdvancedLines(pins, nets[..|nets| - 1], id) + NetLines(pins, nets[|nets| - 1], id(|nets| - 1))
  }

  /** Nets that resolve fewer than two pins add nothing. */
  lemma {:induction false} SkippedNetsAddNothing(pins: Dict<string, seq<PinMapper.ComponentPin>>, nets: seq<Net>,
                                                 id: nat -> nat -> nat -> string)
    requires forall k :: 0 <= k < |nets| ==> |ResolvePins(pins, nets[k].pins)| < 2
    ensures AdvancedLines(pins, nets, id) == []
  {
    if nets != [] {
      SkippedNetsAddNothing(pins, nets[..|nets| - 1], id);
    }
  }

  // ---------------------------------------------------------------------
  // Placement before emission

  /** What `_validate_*_positions` hands the layout manager per symbol. */
  datatype PlacementRequest = PlacementRequest(reference: string, componentType: string, position: Option<(real, real)>)

  /** One placement: the requested point when it is within the sheet, else
      an automatic one. */
  function PlaceOne(b: ComponentLayout.SchematicBounds, placed: seq<ComponentLayout.ComponentBounds>, q: PlacementRequest): Point {
    if q.position.Some? && ComponentLayout.ValidPosition(b, q.position.value.0, q.position.value.1, q.componentType)
    then ComponentLayout.FindValidPositionSpec(b, placed, q.reference, q.componentType, Some(q.position.value.0), Some(q.position.value.1))
    else ComponentLayout.FindValidPositionSpec(b, placed, q.reference, q.componentType, None, None)
  }

  /** The points chosen for the requests in order, and the boxes recorded. */
  function Placements(b: ComponentLayout.SchematicBounds, placed: seq<ComponentLayout.ComponentBounds>, qs: seq<PlacementRequest>)
    : (r: (seq<Point>, seq<ComponentLayout.ComponentBounds>))
    ensures |r.0| == |qs| && |r.1| == |placed| + |qs|
    ensures r.1[..|placed|] == placed
    ensures forall i :: 0 <= i < |qs| ==> r.1[|placed| + i] == ComponentLayout.BoxAt(qs[i].reference, r.0[i], qs[i].componentType)
  {
    if qs == [] then ([], placed)
    else
      var prev := Placements(b, placed, qs[..|qs| - 1]);
      var q := qs[|qs| - 1];
      var p := PlaceOne(b, prev.1, q);
      var r := (prev.0 + [p], prev.1 + [ComponentLayout.BoxAt(q.reference, p, q.componentType)]);
      assert forall i :: 0 <= i < |qs| - 1 ==> qs[..|qs| - 1][i] == qs[i];
      r
  }

  function ComponentRequests(cs: seq<GenComponent>): (r: seq<PlacementRequest>)
    ensures |r| == |cs|
  {
    seq(|cs|, i requires 0 <= i < |cs| => PlacementRequest(cs[i].reference, GetComponentType(TypeQueryOf(cs[i])), cs[i].position))
  }

  // ---------------------------------------------------------------------
  // Framing

  function HeaderLines(circuitName: string, uuid: string): seq<string> {
    ["(kicad_sch",
     "  (version 20240618)",
     "  (generator kicad-mcp)",
     "  (uuid \"" + uuid + "\")",
     "  (paper \"A4\")",
     "",
     "  (title_block",
     "    (title \"" + circuitName + "\")",
     "    (date \"\")",
     "    (rev \"\")",
     "    (company \"\")",
     "  )",
     ""]
  }

  const SheetInstances: seq<string> := ["  (sheet_instances", "    (path \"/\" (page \"1\"))", "  )", ")"]

  /** How the schematic text begins: the opening and the format version. */
  const TextHead: string := "(kicad_sch" + "\n" + "  (version 20240618)"

  /** How it ends: the sheet instances block and the closing parenthesis. */
  const TextTail: string := "\n" + Join(SheetInstances, "\n")

  /** The join of at least two lines starts with the first two. */
  lemma JoinStartsWithTwo(lines: seq<string>, sep: string)
    requires |lines| >= 2
    ensures StartsWith(Join(lines, sep), lines[0] + sep + lines[1])
  {
    var p := lines[0] + sep + lines[1];
    if |lines| == 2 {
      assert Join(lines[1..], sep) == lines[1];
    } else {
      assert Join(lines[1..], sep) == lines[1] + sep + Join(lines[2..], sep);
      assert Join(lines, sep) == p + (sep + Join(lines[2..], sep));
      ConcatStartsWith(p, sep + Join(lines[2..], sep));
    }
  }

  lemma StartsWithExtended(s: string, t: string, p: string)
    requires StartsWith(s, p)
    ensures StartsWith(s + t, p)
  {
    assert (s + t)[..|p|] == s[..|p|];
  }

  lemma ConcatEndsWith(s: string, t: string)
    ensures EndsWith(s + t, t)
  {
    assert (s + t)[|s|..] == t;
  }

  /** Joining `lines` and then `tail` keeps the first two lines at the front. */
  lemma JoinFrameHead(lines: seq<string>, tail: seq<string>)
    requires |lines| >= 2 && tail != []
    ensures StartsWith(Join(lines + tail, "\n"), lines[0] + "\n" + lines[1])
  {
    JoinAppend(lines, tail, "\n");
    JoinStartsWithTwo(lines, "\n");
    StartsWithExtended(Join(lines, "\n"), "\n" + Join(tail, "\n"), lines[0] + "\n" + lines[1]);
  }

  /** ... and the tail's own join at the end. */
  lemma JoinFrameTail(lines: seq<string>, tail: seq<string>)
    requires lines != [] && tail != []
    ensures EndsWith(Join(lines + tail, "\n"), "\n" + Join(tail, "\n"))
  {
    JoinAppend(lines, tail, "\n");
    ConcatEndsWith(Join(lines, "\n"), "\n" + Join(tail, "\n"));
  }

  /** Lines that open with the header, followed by the sheet instances,
      join into text with the promised head and tail. */
  lemma Framed(lines: seq<string>)
    requires |lines| >= 2 && lines[0] == "(kicad_sch" && lines[1] == "  (version 20240618)"
    ensures StartsWith(Join(lines + SheetInstances, "\n"), TextHead)
    ensures EndsWith(Join(lines + SheetInstances, "\n"), TextTail)
  {
    JoinFrameHead(lines, SheetInstances);
    JoinFrameTail(lines, SheetInstances);
  }

  /** The requests for power symbols that all carry a reference. */
  function PowerRequests(ps: seq<GenPower>): (r: seq<PlacementRequest>)
    requires forall i :: 0 <= i < |ps| ==> ps[i].reference.Some?
    ensures |r| == |ps|
  {
    seq(|ps|, i requires 0 <= i < |ps| => PlacementRequest(ps[i].reference.value, "power", ps[i].position))
  }

  /** The pin table after registering each (reference, type, position) in
      order with angle 0 and the type's standard pins. */
  function PinTable(d: Dict<string, seq<PinMapper.ComponentPin>>, entries: seq<(string, string, PinMapper.Point)>)
    : Dict<string, seq<PinMapper.ComponentPin>>
  {
    if entries == [] then d
    else
      var (ref, t, at) := entries[|entries| - 1];
      Put(PinTable(d, entries[..|entries| - 1]), ref, PinMapper.PlacePins(ref, PinMapper.PinLayout(t, []), at, 0))
  }

  /** Registering one more entry puts that component into the table. */
  lemma PinTableStep(d: Dict<string, seq<PinMapper.ComponentPin>>, entries: seq<(string, string, PinMapper.Point)>, i: nat)
    requires i < |entries|
    ensures PinTable(d, entries[..i + 1])
         == Put(PinTable(d, entries[..i]), entries[i].0, PinMapper.PlacePins(entries[i].0, PinMapper.PinLayout(entries[i].1, []), entries[i].2, 0))
  {
    assert entries[..i + 1][..i] == entries[..i];
  }

  /** Emits a route's segments one by one. */
  method EmitRoute(route: seq<PinMapper.Point>, id: nat -> string) returns (lines: seq<string>)
    ensures lines == RouteLines(route, id)
  {
    lines := [];
    if route == [] {
      return;
    }
    for i := 1 to |route|
      invariant lines == RouteLines(route[..i], id)
    {
      assert route[..i + 1][..i] == route[..i];
      lines := lines + RouteSegment(route[i - 1], route[i], id(i - 1));
    }
    assert route[..|route|] == route;
  }

  lemma LibIdsSnocComponent(cs: seq<GenComponent>, i: nat)
    requires i < |cs|
    ensures LibIds(cs[..i + 1], []) == LibIds(cs[..i], []) + [ComponentLibId(cs[i])]
  {
  }

  lemma LibIdsSnocPower(cs: seq<GenComponent>, ps: seq<GenPower>, j: nat)
    requires j < |ps|
    ensures LibIds(cs, ps[..j + 1]) == LibIds(cs, ps[..j]) + [PowerLibId(ps[j])]
  {
  }

  /** The segments of a bus, route by route. */
  method EmitBus(routes: seq<seq<PinMapper.Point>>, id: nat -> nat -> string) returns (lines: seq<string>)
    ensures lines == BusLines(routes, id)
  {
    lines := [];
    for r := 0 to |routes|
      invariant lines == BusLines(routes[..r], id)
    {
      assert routes[..r + 1][..r] == routes[..r];
      var segment := EmitRoute(routes[r], id(r));
      lines := lines + segment;
    }
    assert routes[..|routes|] == routes;
  }

  /** What `_map_component_pins` registers: components with their inferred
      type, then power symbols with type "power", at their placed points. */
  function PinEntries(cs: seq<GenComponent>, cpts: seq<Point>, ps: seq<GenPower>, ppts: seq<Point>)
    : seq<(string, string, PinMapper.Point)>
    requires |cpts| == |cs| && |ppts| == |ps| && forall i :: 0 <= i < |ps| ==> ps[i].reference.Some?
  {
    seq(|cs|, i requires 0 <= i < |cs| => (cs[i].reference, GetComponentType(TypeQueryOf(cs[i])), (cpts[i].x, cpts[i].y)))
    + seq(|ps|, i requires 0 <= i < |ps| => (ps[i].reference.value, "power", (ppts[i].x, ppts[i].y)))
  }

  /** The document's lines before the sheet instances: the header, the
      lib_symbols section and a blank line, the symbol blocks, the wires and,
      when there are connections, a blank line. */
  function SchematicLines(header: seq<string>, lib: seq<string>, components: seq<string>, powers: seq<string>,
                          wires: seq<string>, anyWires: bool): (r: seq<string>)
    requires |header| >= 2
    ensures |r| >= 2 && r[0] == header[0] && r[1] == header[1]
  {
    header + (lib + [""] + components + powers + wires + (if anyWires then [""] else []))
  }

  /** The whole file: header, sections and sheet instances, one per line. */
  function SchematicText(circuitName: string, sheetUuid: string, lib: seq<string>, components: seq<string>,
                         powers: seq<string>, wires: seq<string>, anyWires: bool): (t: string)
    ensures StartsWith(t, TextHead) && EndsWith(t, TextTail)
  {
    var lines := SchematicLines(HeaderLines(circuitName, sheetUuid), lib, components, powers, wires, anyWires);
    Framed(lines);
    Join(lines + SheetInstances, "\n")
  }

  // ---------------------------------------------------------------------
  // The emitting loops

  /** `[f(0), ..., f(n - 1)]`. */
  function Tabulate<T>(f: nat -> T, n: nat): (r: seq<T>)
    ensures |r| == n
  {
    if n == 0 then [] else Tabulate(f, n - 1) + [f(n - 1)]
  }

  lemma {:induction false} TabulateAt<T>(f: nat -> T, n: nat, j: nat)
    requires j < n
    ensures Tabulate(f, n)[j] == f(j)
  {
    if j < n - 1 {
      TabulateAt(f, n - 1, j);
    }
  }

  /** The block of component `j`, with the UUIDs `ids(j)`. */
  function ComponentBlock(cs: seq<GenComponent>, points: seq<Point>, ids: nat -> SymbolUuids, fmt: real -> string,
                          j: nat): seq<string>
    requires |points| == |cs|
  {
    if j < |cs| then ComponentLines(cs[j], points[j], ids(j), fmt) else []
  }

  /** The block of every component, in order. */
  function ComponentBlockList(cs: seq<GenComponent>, points: seq<Point>, ids: nat -> SymbolUuids, fmt: real -> string)
    : (r: seq<seq<string>>)
    requires |points| == |cs|
    ensures |r| == |cs|
  {
    Tabulate(j => ComponentBlock(cs, points, ids, fmt, j), |cs|)
  }

  /** The component blocks in order, each followed by a blank line. */
  function ComponentBlocks(cs: seq<GenComponent>, points: seq<Point>, ids: nat -> SymbolUuids, fmt: real -> string): seq<string>
    requires |points| == |cs|
  {
    Flattened(ComponentBlockList(cs, points, ids, fmt))
  }

  /** The first `i` references stay recorded when the map only grows, and
      the `i`-th is recorded. */
  lemma KeysKept(cs: seq<GenComponent>, i: nat, before: Dict<string, string>, after: Dict<string, string>)
    requires i < |cs|
    requires forall j :: 0 <= j < i ==> cs[j].reference in Keys(before)
    requires forall k :: k in Keys(before) ==> k in Keys(after)
    requires cs[i].reference in Keys(after)
    ensures forall j :: 0 <= j < i + 1 ==> cs[j].reference in Keys(after)
  {
  }

  /** Blocks joined, each followed by a blank line. */
  function Flattened(blocks: seq<seq<string>>): (r: seq<string>)
    decreases |blocks|
  {
    if blocks == [] then [] else Flattened(blocks[..|blocks| - 1]) + blocks[|blocks| - 1] + [""]
  }

  /** Blocks `..i + 1` are blocks `..i` and block `i`. */
  lemma FlattenedStep(blocks: seq<seq<string>>, i: nat)
    requires i < |blocks|
    ensures Flattened(blocks[..i + 1]) == Flattened(blocks[..i]) + blocks[i] + [""]
  {
    assert blocks[..i + 1][..i] == blocks[..i];
  }

  /** The UUID map after the first `n` power symbols recorded theirs; a
      symbol's default reference counts the map as it then stands. */
  function PowerUuids(d: Dict<string, string>, ps: seq<GenPower>, ids: nat -> SymbolUuids, n: nat): Dict<string, string>
    requires n <= |ps|
  {
    if n == 0 then d
    else
      var prev := PowerUuids(d, ps, ids, n - 1);
      Put(prev, PowerReference(ps[n - 1], |prev|), ids(n - 1).symbol)
  }

  predicate AllTyped(ps: seq<GenPower>) {
    forall i :: 0 <= i < |ps| ==> ps[i].powerType.Some?
  }

  /** How many power symbols lead the list with a type. */
  function TypedPrefix(ps: seq<GenPower>): (k: nat)
    ensures k <= |ps|
    ensures forall i :: 0 <= i < k ==> ps[i].powerType.Some?
    ensures k < |ps| ==> ps[k].powerType.None?
  {
    if ps == [] || ps[0].powerType.None? then 0 else 1 + TypedPrefix(ps[1..])
  }

  /** A typed symbol right after the typed prefix extends it. */
  lemma TypedPrefixGrows(ps: seq<GenPower>, i: nat)
    requires i <= TypedPrefix(ps) && i < |ps| && ps[i].powerType.Some?
    ensures i < TypedPrefix(ps)
  {
  }

  /** The block of power symbol `j`, empty when it has no type; it uses the
      UUIDs `ids(j)` and a default reference that counts the map after the
      symbols before it. */
  function PowerBlock(d: Dict<string, string>, ps: seq<GenPower>, points: seq<Point>, ids: nat -> SymbolUuids,
                      fmt: real -> string, j: nat): seq<string>
    requires |points| == |ps|
  {
    if j < |ps|
    then OrElse(PowerLines(ps[j], PowerReference(ps[j], |PowerUuids(d, ps, ids, j)|), points[j], ids(j), fmt), [])
    else []
  }

  /** The block of every power symbol, in order. */
  function PowerBlockList(d: Dict<string, string>, ps: seq<GenPower>, points: seq<Point>, ids: nat -> SymbolUuids,
                          fmt: real -> string): (r: seq<seq<string>>)
    requires |points| == |ps|
    ensures |r| == |ps|
  {
    Tabulate(j => PowerBlock(d, ps, points, ids, fmt, j), |ps|)
  }

  /** The power blocks in order, each followed by a blank line, for symbols
      that all have a type. */
  function PowerBlocks(d: Dict<string, string>, ps: seq<GenPower>, points: seq<Point>, ids: nat -> SymbolUuids,
                       fmt: real -> string): seq<string>
    requires |points| == |ps| && AllTyped(ps)
  {
    Flattened(PowerBlockList(d, ps, points, ids, fmt))
  }

  /** Recording a key keeps every key already present. */
  lemma PutKeepsKeys(d: Dict<string, string>, k: string, v: string)
    ensures forall x :: x in Keys(d) ==> x in Keys(Put(d, k, v))
  {
    if k !in Keys(d) {
      assert Keys(Put(d, k, v)) == Keys(d) + [k];
    }
  }

  /** When every power symbol names its reference, the blocks do not
      depend on the UUID map they start from. */
  lemma PowerBlocksReferenced(d: Dict<string, string>, d': Dict<string, string>, ps: seq<GenPower>,
                               points: seq<Point>, ids: nat -> SymbolUuids, fmt: real -> string)
    requires |points| == |ps| && AllReferenced(ps)
    ensures PowerBlockList(d, ps, points, ids, fmt) == PowerBlockList(d', ps, points, ids, fmt)
  {
    var f, f' := j => PowerBlock(d, ps, points, ids, fmt, j), j => PowerBlock(d', ps, points, ids, fmt, j);
    forall j | 0 <= j < |ps|
      ensures Tabulate(f, |ps|)[j] == Tabulate(f', |ps|)[j]
    {
      TabulateAt(f, |ps|, j);
      TabulateAt(f', |ps|, j);
    }
  }

  /** The pin connections after one connection: a pin-level connection whose
      two pins exist and may be joined links their ids, as `add_connection`
      does; anything else leaves the connections as they were. */
  function WireConnections(pins: Dict<string, seq<PinMapper.ComponentPin>>, conns: Dict<string, set<string>>, w: WireRequest)
    : Dict<string, set<string>>
  {
    if PinLevel(w) then
      var sc, sp := w.startComponent.value, OrElse(w.startPin, "1");
      var ec, ep := w.endComponent.value, OrElse(w.endPin, "1");
      var s, e := LookupPin(pins, sc, sp), LookupPin(pins, ec, ep);
      if s.Some? && e.Some? && PinMapper.CanConnectPins(s.value, e.value)
      then PinMapper.Connect(conns, PinMapper.PinId(sc, sp), PinMapper.PinId(ec, ep))
      else conns
    else conns
  }

  /** The wire lines of the first `n` connections, in order. */
  function WireBlocks(pins: Dict<string, seq<PinMapper.ComponentPin>>, ws: seq<WireRequest>, ids: nat -> nat -> string,
                      fmt: real -> string, n: nat): seq<string>
    requires n <= |ws|
  {
    if n == 0 then [] else WireBlocks(pins, ws, ids, fmt, n - 1) + WireLines(pins, ws[n - 1], ids(n - 1), fmt)
  }

  /** The pin connections after the first `n` connections. */
  function WireConnectionsAll(pins: Dict<string, seq<PinMapper.ComponentPin>>, conns: Dict<string, set<string>>,
                              ws: seq<WireRequest>, n: nat): Dict<string, set<string>>
    requires n <= |ws|
  {
    if n == 0 then conns else WireConnections(pins, WireConnectionsAll(pins, conns, ws, n - 1), ws[n - 1])
  }

  /** Whether every power symbol names its reference. */
  predicate AllReferenced(ps: seq<GenPower>) {
    forall i :: 0 <= i < |ps| ==> ps[i].reference.Some?
  }

  /** `generate_schematic` from a given sheet and UUID map: the components
      are placed, then the power symbols after them; the pin table holds
      both; the text joins the header, the lib_symbols section, the
      component blocks, the power blocks and the wires. None when a power
      symbol lacks a reference or a type, or a lib_id does not split. */
  function Schematic(bounds: ComponentLayout.SchematicBounds, uuids: Dict<string, string>, circuitName: string,
                     cs: seq<GenComponent>, ps: seq<GenPower>, ws: seq<WireRequest>, sheetUuid: string,
                     componentIds: nat -> SymbolUuids, powerIds: nat -> SymbolUuids, wireIds: nat -> nat -> string,
                     fmt: real -> string): Option<string>
  {
    var placedComponents := Placements(bounds, [], ComponentRequests(cs));
    if !AllReferenced(ps) then None
    else
      var powerPoints := Placements(bounds, placedComponents.1, PowerRequests(ps)).0;
      var pins := PinTable([], PinEntries(cs, placedComponents.0, ps, powerPoints));
      match LibSymbols(cs, ps)
      case None => None
      case Some(lib) =>
        if !AllTyped(ps) then None
        else
          var components := ComponentBlocks(cs, placedComponents.0, componentIds, fmt);
          var powers := PowerBlocks(uuids, ps, powerPoints, powerIds, fmt);
          Some(SchematicText(circuitName, sheetUuid, lib, components, powers,
                             WireBlocks(pins, ws, wireIds, fmt, |ws|), ws != []))
  }

  /** The text does not depend on the UUID map left by earlier calls: a
      default power reference would count the map, but every power symbol
      must name its own reference to be placed at all. */
  lemma SchematicIgnoresUuidMap(bounds: ComponentLayout.SchematicBounds, d: Dict<string, string>, d': Dict<string, string>,
                                circuitName: string, cs: seq<GenComponent>, ps: seq<GenPower>, ws: seq<WireRequest>,
                                sheetUuid: string, componentIds: nat -> SymbolUuids, powerIds: nat -> SymbolUuids,
                                wireIds: nat -> nat -> string, fmt: real -> string)
    ensures Schematic(bounds, d, circuitName, cs, ps, ws, sheetUuid, componentIds, powerIds, wireIds, fmt)
            == Schematic(bounds, d', circuitName, cs, ps, ws, sheetUuid, componentIds, powerIds, wireIds, fmt)
  {
    if AllReferenced(ps) {
      var placedComponents := Placements(bounds, [], ComponentRequests(cs));
      var powerPoints := Placements(bounds, placedComponents.1, PowerRequests(ps)).0;
      PowerBlocksReferenced(d, d', ps, powerPoints, powerIds, fmt);
    }
  }

  // ---------------------------------------------------------------------
  // The generator

  class SexprGenerator {
    var componentUuidMap: Dict<string, string>
    const layout: ComponentLayout.LayoutManager
    const pinMapper: PinMapper.ComponentPinMapper

    /** The UUID map has one entry per reference; the pin mapper is consistent. */
    ghost predicate Valid()
      reads this, pinMapper
    {
      Distinct(Keys(componentUuidMap)) && pinMapper.Valid()
    }

    constructor ()
      ensures Valid() && componentUuidMap == []
      ensures fresh(layout) && fresh(pinMapper)
      ensures layout.bounds == ComponentLayout.A4 && layout.placed == []
      ensures pinMapper.componentPins == [] && pinMapper.pinConnections == []
    {
      componentUuidMap := [];
      layout := new ComponentLayout.LayoutManager(None);
      pinMapper := new PinMapper.ComponentPinMapper();
    }

    /** `_generate_lib_symbols`: the lib_ids are gathered into a sorted list
        without repeats (the set, kept sorted), then each is split at its
        colon and given its definition. */
    method GenerateLibSymbols(cs: seq<GenComponent>, ps: seq<GenPower>) returns (lines: Option<seq<string>>)
      ensures lines == LibSymbols(cs, ps)
    {
      var needed := CollectLibIds(cs, ps);
      var body := DefinitionsOf(needed);
      if body.None? {
        return None;
      }
      lines := Some(["  (lib_symbols"] + body.value + ["  )"]);
    }

    /** The set of lib_ids, kept as a sorted list. */
    method CollectLibIds(cs: seq<GenComponent>, ps: seq<GenPower>) returns (needed: seq<string>)
      ensures needed == SortedSet(LibIds(cs, ps))
    {
      needed := [];
      for i := 0 to |cs|
        invariant needed == SortedSet(LibIds(cs[..i], []))
      {
        LibIdsSnocComponent(cs, i);
        needed := Insert(needed, ComponentLibId(cs[i]));
      }
      assert cs[..|cs|] == cs;
      assert ps[..0] == [];
      for j := 0 to |ps|
        invariant needed == SortedSet(LibIds(cs, ps[..j]))
      {
        LibIdsSnocPower(cs, ps, j);
        needed := Insert(needed, PowerLibId(ps[j]));
      }
      assert ps[..|ps|] == ps;
    }

    /** Each id split at its colon and given its definition, in order. */
    method DefinitionsOf(needed: seq<string>) returns (body: Option<seq<string>>)
      ensures body == DefinitionsBody(DefinitionsFor(needed))
    {
      ghost var defs := DefinitionsFor(needed);
      var lines: seq<string> := [];
      for k := 0 to |needed|
        invariant DefinitionsBody(defs[..k]) == Some(lines)
      {
        var parts := Split(needed[k], ":");
        if |parts| != 2 {
          assert defs[k].None?;
          DefinitionsBodyDefined(defs);
          return None;
        }
        var d := SymbolDefinition(parts[0], parts[1]);
        assert defs[k] == Some(d);
        DefinitionsBodyExtend(defs, k, lines, d);
        lines := lines + Indent(DefinitionLines(d));
      }
      assert defs[..|needed|] == defs;
      body := Some(lines);
    }

    /** `_generate_component_symbol`: records the component's UUID under its
        reference and emits its block. */
    method GenerateComponentSymbol(c: GenComponent, at: Point, ids: SymbolUuids, fmt: real -> string) returns (lines: seq<string>)
      requires Valid()
      modifies this
      ensures Valid()
      ensures componentUuidMap == Put(old(componentUuidMap), c.reference, ids.symbol)
      ensures Lookup(componentUuidMap, c.reference) == Some(ids.symbol)
      ensures lines == ComponentLines(c, at, ids, fmt)
      ensures c.reference in Keys(componentUuidMap)
      ensures forall k :: k in Keys(old(componentUuidMap)) ==> k in Keys(componentUuidMap)
    {
      PutKeepsKeys(componentUuidMap, c.reference, ids.symbol);
      PutKeepsDistinctKeys(componentUuidMap, c.reference, ids.symbol);
      LookupPut(componentUuidMap, c.reference, ids.symbol, c.reference);
      componentUuidMap := Put(componentUuidMap, c.reference, ids.symbol);
      lines := ComponentLines(c, at, ids, fmt);
    }

    /** `_generate_power_symbol`: the reference defaults to "#PWR0" and the
        padded map size plus one; the UUID is recorded before the power type
        is read, so a missing type fails after the map has changed. */
    method GeneratePowerSymbol(p: GenPower, at: Point, ids: SymbolUuids, fmt: real -> string) returns (lines: Option<seq<string>>)
      requires Valid()
      modifies this
      ensures Valid()
      ensures componentUuidMap == Put(old(componentUuidMap), PowerReference(p, |old(componentUuidMap)|), ids.symbol)
      ensures Lookup(componentUuidMap, PowerReference(p, |old(componentUuidMap)|)) == Some(ids.symbol)
      ensures lines == PowerLines(p, PowerReference(p, |old(componentUuidMap)|), at, ids, fmt)
      ensures lines.Some? <==> p.powerType.Some?
      ensures forall k :: k in Keys(old(componentUuidMap)) ==> k in Keys(componentUuidMap)
    {
      var ref := PowerReference(p, |componentUuidMap|);
      PutKeepsKeys(componentUuidMap, ref, ids.symbol);
      PutKeepsDistinctKeys(componentUuidMap, ref, ids.symbol);
      LookupPut(componentUuidMap, ref, ids.symbol, ref);
      componentUuidMap := Put(componentUuidMap, ref, ids.symbol);
      lines := PowerLines(p, ref, at, ids, fmt);
    }

    /** `_generate_wire`: a pin-level connection is routed between the two
        pins and registered with the pin mapper; a coordinate connection is
        one straight wire. */
    method GenerateWire(w: WireRequest, id: nat -> string, fmt: real -> string) returns (lines: seq<string>)
      requires Valid()
      modifies pinMapper
      ensures Valid()
      ensures lines == WireLines(old(pinMapper.componentPins), w, id, fmt)
      ensures pinMapper.componentPins == old(pinMapper.componentPins)
      ensures !(PinLevel(w) && PinRoute(old(pinMapper.componentPins), w).Some?) ==>
                pinMapper.pinConnections == old(pinMapper.pinConnections)
      ensures pinMapper.pinConnections == WireConnections(old(pinMapper.componentPins), old(pinMapper.pinConnections), w)
    {
      if w.startComponent.Some? && w.endComponent.Some? {
        var sc, sp := w.startComponent.value, OrElse(w.startPin, "1");
        var ec, ep := w.endComponent.value, OrElse(w.endPin, "1");
        var startPoint := pinMapper.GetPinConnectionPoint(sc, sp);
        var endPoint := pinMapper.GetPinConnectionPoint(ec, ep);
        if startPoint.Some? && endPoint.Some? {
          var s := pinMapper.GetPin(sc, sp);
          var e := pinMapper.GetPin(ec, ep);
          lines := EmitRoute(PinMapper.WireRoute(s.value, e.value), id);
          var _ := pinMapper.AddConnection(sc, sp, ec, ep);
        } else {
          lines := [];
        }
      } else {
        lines := SegmentLines(ScaledNumber(w.startX, 100, fmt), ScaledNumber(w.startY, 100, fmt),
                              ScaledNumber(w.endX, 200, fmt), ScaledNumber(w.endY, 100, fmt), id(0));
      }
    }

    /** The pins a net's entries resolve to, looked up one entry at a time. */
    method ResolveNetPins(entries: seq<string>) returns (pins: seq<PinMapper.ComponentPin>)
      ensures pins == ResolvePins(pinMapper.componentPins, entries)
    {
      pins := [];
      for i := 0 to |entries|
        invariant pins == ResolvePins(pinMapper.componentPins, entries[..i])
      {
        assert entries[..i + 1][..i] == entries[..i];
        var parts := SplitOnce(entries[i], ".");
        if parts.Some? {
          var pin := pinMapper.GetPin(parts.value.0, parts.value.1);
          if pin.Some? {
            pins := pins + [pin.value];
          }
        }
      }
      assert entries[..|entries|] == entries;
    }

    /** One net: bus routing for more than two pins, a point-to-point route
        for two, nothing for fewer. */
    method RouteNet(net: Net, id: nat -> nat -> string) returns (lines: seq<string>)
      ensures lines == NetLines(pinMapper.componentPins, net, id)
    {
      if |net.pins| < 2 {
        return [];
      }
      var resolved := ResolveNetPins(net.pins);
      if |resolved| < 2 {
        return [];
      }
      if |resolved| > 2 {
        var routes := PinMapper.CalculateBusRoute(resolved);
        lines := EmitBus(routes, id);
      } else {
        lines := EmitRoute(PinMapper.WireRoute(resolved[0], resolved[1]), id(0));
      }
    }

    /** `generate_advanced_wire_routing`. */
    method GenerateAdvancedWireRouting(nets: seq<Net>, id: nat -> nat -> nat -> string) returns (lines: seq<string>)
      ensures lines == AdvancedLines(pinMapper.componentPins, nets, id)
    {
      lines := [];
      for k := 0 to |nets|
        invariant lines == AdvancedLines(pinMapper.componentPins, nets[..k], id)
      {
        assert nets[..k + 1][..k] == nets[..k];
        var netLines := RouteNet(nets[k], id(k));
        lines := lines + netLines;
      }
      assert nets[..|nets|] == nets;
    }

    /** Places the requests in order, as `_validate_component_positions` does. */
    method PlaceRequests(qs: seq<PlacementRequest>) returns (points: seq<Point>)
      modifies layout
      ensures (points, layout.placed) == Placements(layout.bounds, old(layout.placed), qs)
    {
      points := [];
      for i := 0 to |qs|
        invariant (points, layout.placed) == Placements(layout.bounds, old(layout.placed), qs[..i])
      {
        assert qs[..i + 1][..i] == qs[..i];
        var q := qs[i];
        var p;
        if q.position.Some? && ComponentLayout.ValidPosition(layout.bounds, q.position.value.0, q.position.value.1, q.componentType) {
          p := layout.PlaceComponent(q.reference, q.componentType, Some(q.position.value.0), Some(q.position.value.1));
        } else {
          p := layout.PlaceComponent(q.reference, q.componentType, None, None);
        }
        points := points + [p];
      }
      assert qs[..|qs|] == qs;
    }

    /** `_validate_power_positions`: as for components with type "power";
        a power symbol without a reference fails (Python raises KeyError). */
    method PlacePowerSymbols(ps: seq<GenPower>) returns (points: Option<seq<Point>>)
      modifies layout
      ensures points.None? <==> exists i :: 0 <= i < |ps| && ps[i].reference.None?
      ensures points.Some? ==> (points.value, layout.placed) == Placements(layout.bounds, old(layout.placed), PowerRequests(ps))
    {
      for i := 0 to |ps|
        invariant forall j :: 0 <= j < i ==> ps[j].reference.Some?
      {
        if ps[i].reference.None? {
          return None;
        }
      }
      var placed := PlaceRequests(PowerRequests(ps));
      points := Some(placed);
    }

    /** `_map_component_pins`: every symbol is registered with the pin mapper
        at its placed position, angle 0. */
    method MapPins(entries: seq<(string, string, PinMapper.Point)>)
      requires Valid()
      modifies pinMapper
      ensures Valid()
      ensures pinMapper.componentPins == PinTable(old(pinMapper.componentPins), entries)
      ensures pinMapper.pinConnections == old(pinMapper.pinConnections)
    {
      for i := 0 to |entries|
        invariant Valid()
        invariant pinMapper.componentPins == PinTable(old(pinMapper.componentPins), entries[..i])
        invariant pinMapper.pinConnections == old(pinMapper.pinConnections)
      {
        PinTableStep(old(pinMapper.componentPins), entries, i);
        var _ := pinMapper.AddComponent(entries[i].0, entries[i].1, entries[i].2, 0, []);
      }
      assert entries[..|entries|] == entries;
    }

    /** The component blocks, each followed by a blank line. */
    method EmitComponents(cs: seq<GenComponent>, points: seq<Point>, ids: nat -> SymbolUuids, fmt: real -> string)
      returns (lines: seq<string>)
      requires Valid() && |points| == |cs|
      modifies this
      ensures Valid()
      ensures lines == ComponentBlocks(cs, points, ids, fmt)
      ensures forall j :: 0 <= j < |cs| ==> cs[j].reference in Keys(componentUuidMap)
    {
      lines := [];
      ghost var blocks := ComponentBlockList(cs, points, ids, fmt);
      for i := 0 to |cs|
        invariant Valid()
        invariant lines == Flattened(blocks[..i])
        invariant forall j :: 0 <= j < i ==> cs[j].reference in Keys(componentUuidMap)
      {
        ghost var before := componentUuidMap;
        var block := GenerateComponentSymbol(cs[i], points[i], ids(i), fmt);
        KeysKept(cs, i, before, componentUuidMap);
        TabulateAt(j => ComponentBlock(cs, points, ids, fmt, j), |cs|, i);
        FlattenedStep(blocks, i);
        lines := lines + block + [""];
      }
      assert blocks[..|cs|] == blocks;
    }

    /** The power blocks, each followed by a blank line; None at the first
        power symbol without a type. */
    method EmitPowers(ps: seq<GenPower>, points: seq<Point>, ids: nat -> SymbolUuids, fmt: real -> string)
      returns (lines: Option<seq<string>>)
      requires Valid() && |points| == |ps|
      modifies this
      ensures Valid()
      ensures lines.None? <==> exists i :: 0 <= i < |ps| && ps[i].powerType.None?
      ensures lines.Some? ==> AllTyped(ps) && lines.value == PowerBlocks(old(componentUuidMap), ps, points, ids, fmt)
      ensures componentUuidMap == PowerUuids(old(componentUuidMap), ps, ids, if TypedPrefix(ps) < |ps| then TypedPrefix(ps) + 1 else |ps|)
      ensures forall k :: k in Keys(old(componentUuidMap)) ==> k in Keys(componentUuidMap)
    {
      var acc := [];
      ghost var blocks := PowerBlockList(old(componentUuidMap), ps, points, ids, fmt);
      for i := 0 to |ps|
        invariant Valid()
        invariant i <= TypedPrefix(ps)
        invariant acc == Flattened(blocks[..i])
        invariant componentUuidMap == PowerUuids(old(componentUuidMap), ps, ids, i)
        invariant forall k :: k in Keys(old(componentUuidMap)) ==> k in Keys(componentUuidMap)
      {
        ghost var before := componentUuidMap;
        var block := GeneratePowerSymbol(ps[i], points[i], ids(i), fmt);
        forall k | k in Keys(old(componentUuidMap)) ensures k in Keys(componentUuidMap) {
          assert k in Keys(before);
        }
        if block.None? {
          assert TypedPrefix(ps) == i;
          assert componentUuidMap == PowerUuids(old(componentUuidMap), ps, ids, i + 1);
          return None;
        }
        TypedPrefixGrows(ps, i);
        TabulateAt(j => PowerBlock(old(componentUuidMap), ps, points, ids, fmt, j), |ps|, i);
        FlattenedStep(blocks, i);
        acc := acc + block.value + [""];
      }
      assert TypedPrefix(ps) == |ps|;
      assert blocks[..|ps|] == blocks;
      lines := Some(acc);
    }

    /** The wires of every connection, in order. */
    method EmitWires(ws: seq<WireRequest>, ids: nat -> nat -> string, fmt: real -> string) returns (lines: seq<string>)
      requires Valid()
      modifies pinMapper
      ensures Valid()
      ensures lines == WireBlocks(old(pinMapper.componentPins), ws, ids, fmt, |ws|)
      ensures pinMapper.componentPins == old(pinMapper.componentPins)
      ensures pinMapper.pinConnections == WireConnectionsAll(old(pinMapper.componentPins), old(pinMapper.pinConnections), ws, |ws|)
    {
      lines := [];
      for i := 0 to |ws|
        invariant Valid()
        invariant lines == WireBlocks(old(pinMapper.componentPins), ws, ids, fmt, i)
        invariant pinMapper.componentPins == old(pinMapper.componentPins)
        invariant pinMapper.pinConnections == WireConnectionsAll(old(pinMapper.componentPins), old(pinMapper.pinConnections), ws, i)
      {
        var wire := GenerateWire(ws[i], ids(i), fmt);
        lines := lines + wire;
      }
    }

    /** `generate_schematic`: the header, the lib_symbols section, every
        component and power block, every wire, and the sheet instances. The
        layout and pin mapper are reset first; the UUID map is not. */
    method GenerateSchematic(circuitName: string, cs: seq<GenComponent>, ps: seq<GenPower>, ws: seq<WireRequest>,
                             sheetUuid: string, componentIds: nat -> SymbolUuids, powerIds: nat -> SymbolUuids,
                             wireIds: nat -> nat -> string, fmt: real -> string)
      returns (text: Option<string>)
      requires Valid()
      modifies this, layout, pinMapper
      ensures Valid()
      ensures text.None? <==> (exists i :: 0 <= i < |ps| && ps[i].reference.None?)
                              || LibSymbols(cs, ps).None?
                              || (exists i :: 0 <= i < |ps| && ps[i].powerType.None?)
      ensures text.Some? ==> StartsWith(text.value, TextHead) && EndsWith(text.value, TextTail)
      ensures text.Some? ==> forall i :: 0 <= i < |cs| ==> cs[i].reference in Keys(componentUuidMap)
      ensures text == Schematic(layout.bounds, old(componentUuidMap), circuitName, cs, ps, ws, sheetUuid,
                                componentIds, powerIds, wireIds, fmt)
    {
      layout.ClearLayout();
      pinMapper.ClearMappings();
      var componentPoints := PlaceRequests(ComponentRequests(cs));
      var powerPoints := PlacePowerSymbols(ps);
      if powerPoints.None? {
        return None;
      }
      var entries := PinEntries(cs, componentPoints, ps, powerPoints.value);
      MapPins(entries);
      var lib := GenerateLibSymbols(cs, ps);
      if lib.None? {
        return None;
      }
      var components := EmitComponents(cs, componentPoints, componentIds, fmt);
      ghost var uuids := componentUuidMap;
      var powers := EmitPowers(ps, powerPoints.value, powerIds, fmt);
      if powers.None? {
        return None;
      }
      PowerBlocksReferenced(uuids, old(componentUuidMap), ps, powerPoints.value, powerIds, fmt);
      var wires := EmitWires(ws, wireIds, fmt);
      text := Some(SchematicText(circuitName, sheetUuid, lib.value, components, powers.value, wires, ws != []));
    }
  }
}
