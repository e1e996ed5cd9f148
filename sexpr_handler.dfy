/** The S-expression handler: schematic trees built from component,
    power-symbol and wire descriptions, atom quoting, yes/no boolean
    symbols, reading a parsed tree back into dictionaries, and the
    character-by-character pretty printer. */
module SexprHandling {
  import opened Common
  import PinMapper

  /** A parsed or generated S-expression: symbols print bare, strings are
      quoted, numbers are integers or floats. */
  datatype Sexp = Sym(name: string) | Str(text: string) | Int(i: int) | Real(r: real) | List(items: seq<Sexp>)

  function Tail(xs: seq<Sexp>): seq<Sexp> {
    if xs == [] then [] else xs[1..]
  }

  /** Python's `type(v).__name__` for an S-expression value. */
  function TypeName(s: Sexp): string {
    match s
    case Sym(_) => "Symbol"
    case Str(_) => "str"
    case Int(_) => "int"
    case Real(_) => "float"
    case List(_) => "list"
  }

  /** Python's `str(v)`. Symbols and strings give their text and integers
      their decimal digits; the text of a float or a list is `show`. */
  function KeyOf(s: Sexp, show: Sexp -> string): string {
    match s
    case Sym(n) => n
    case Str(t) => t
    case Int(i) => IntToString(i)
    case _ => show(s)
  }

  /** A symbol is a string subclass: a symbol and a string with the same
      text compare equal. */
  function TextOf(s: Sexp): Option<string> {
    match s
    case Sym(n) => Some(n)
    case Str(t) => Some(t)
    case _ => None
  }

  // ---------------------------------------------------------------------
  // Atoms and booleans

  /** `_create_boolean_symbol`: None stands for the ValueError. */
  function CreateBooleanSymbol(value: string): (r: Option<Sexp>)
    ensures r == Some(Sym("yes")) <==> Lower(value) == "yes" || Lower(value) == "true"
    ensures r == Some(Sym("no")) <==> Lower(value) == "no" || Lower(value) == "false"
    ensures r.None? <==> Lower(value) !in {"yes", "true", "no", "false"}
  {
    var v := Lower(value);
    if v == "yes" || v == "true" then Some(Sym("yes"))
    else if v == "no" || v == "false" then Some(Sym("no"))
    else None
  }

  /** Upper-case spellings are accepted; a near miss is rejected. */
  lemma BooleanSpellings()
    ensures CreateBooleanSymbol("TRUE") == Some(Sym("yes"))
    ensures CreateBooleanSymbol("No") == Some(Sym("no"))
    ensures CreateBooleanSymbol("y") == None
  {
    assert Lower("TRUE") == "true";
    assert Lower("No") == "no";
    assert Lower("y") == "y";
  }

  /** What `_format_atom` can be given: None, a number (with the text
      Python's `str` prints for it), a symbol, or a string. */
  datatype Atom = NoneAtom | NumberAtom(printed: string) | SymbolAtom(name: string) | StringAtom(text: string)

  predicate NeedsQuotes(s: string) {
    s == [] || '"' in s || exists i :: 0 <= i < |s| && IsSpace(s[i])
  }

  /** `_format_atom`: None is `""`; numbers and symbols are bare; a string is
      quoted, without escaping, exactly when it is empty or holds whitespace
      or a double quote. */
  function FormatAtom(a: Atom): (r: string)
    ensures a.NoneAtom? ==> r == "\"\""
    ensures a.NumberAtom? ==> r == a.printed
    ensures a.SymbolAtom? ==> r == a.name
    ensures a.StringAtom? && NeedsQuotes(a.text) ==> r == "\"" + a.text + "\""
    ensures a.StringAtom? && !NeedsQuotes(a.text) ==> r == a.text
  {
    match a
    case NoneAtom => "\"\""
    case NumberAtom(p) => p
    case SymbolAtom(n) => n
    case StringAtom(s) => if NeedsQuotes(s) then "\"" + s + "\"" else s
  }

  /** Removing one pair of surrounding quotes. */
  function Unquote(s: string): string {
    if |s| >= 2 && s[0] == '"' && s[|s| - 1] == '"' then s[1..|s| - 1] else s
  }

  /** Every string survives formatting: stripping the added quotes gives it back. */
  lemma FormatStringRoundTrip(s: string)
    ensures Unquote(FormatAtom(StringAtom(s))) == s
  {
    if !NeedsQuotes(s) {
      assert s[0] != '"';
    }
  }

  /** Because nothing is escaped, a string holding a quote comes out with
      more than two quote characters: the quoting is ambiguous. */
  lemma QuotesAreNotEscaped()
    ensures FormatAtom(StringAtom("test\"quote")) == "\"test\"quote\""
  {
    assert NeedsQuotes("test\"quote") by {
      assert "test\"quote"[4] == '"';
    }
  }

  // ---------------------------------------------------------------------
  // Symbol definitions and instances

  /** `_build_symbol_definition`. */
  function BuildSymbolDefinition(library: string, symbol: string): (r: Sexp)
    ensures library == "UnknownLib" ==> r == List([Sym("symbol"), Str("Device:R")])
    ensures library == "power" ==> r == List([Sym("symbol"), Str("power:" + symbol), List([Sym("power")])])
    ensures library != "UnknownLib" && library != "power" ==> r == List([Sym("symbol"), Str(library + ":" + symbol)])
  {
    if library == "UnknownLib" then List([Sym("symbol"), Str("Device:R")])
    else if library == "power" then List([Sym("symbol"), Str("power:" + symbol), List([Sym("power")])])
    else List([Sym("symbol"), Str(library + ":" + symbol)])
  }

  /** `_build_device_symbol` and `_build_power_symbol_definition` agree with
      the general builder for the Device and power libraries. */
  function BuildDeviceSymbol(symbolName: string): (r: Sexp)
    ensures r == BuildSymbolDefinition("Device", symbolName)
  {
    assert |"Device"| != |"UnknownLib"| && |"Device"| != |"power"|;
    assert "Device" + ":" + symbolName == "Device:" + symbolName;
    List([Sym("symbol"), Str("Device:" + symbolName)])
  }

  function BuildPowerSymbolDefinition(powerType: string): (r: Sexp)
    ensures r == BuildSymbolDefinition("power", powerType)
    ensures |r.items| == 3 && r.items[2] == List([Sym("power")])
  {
    List([Sym("symbol"), Str("power:" + powerType), List([Sym("power")])])
  }

  /** The `position` entry of a symbol dictionary: a dictionary with
      optional x, y and angle, a list or tuple, or any other value (with
      its Python truth value). */
  datatype PositionValue = PosDict(x: Option<real>, y: Option<real>, angle: Option<real>) | PosSeq(values: seq<real>) | PosOther(truthy: bool)

  /** The keys of a component or power-symbol dictionary the builder reads. */
  datatype SymbolSpec = SymbolSpec(libId: Option<string>, powerType: Option<string>, symbolLibrary: Option<string>,
                                   symbolName: Option<string>, reference: Option<string>, value: Option<string>,
                                   position: Option<PositionValue>, footprint: Option<string>, datasheet: Option<string>)

  /** The lib_id: an explicit non-empty one, else "power:<type>" when a
      power type is given, else library:symbol (Device:R by default). */
  function LibId(c: SymbolSpec): string {
    if c.libId.Some? && c.libId.value != "" then c.libId.value
    else if c.powerType.Some? then "power:" + c.powerType.value
    else OrElse(c.symbolLibrary, "Device") + ":" + OrElse(c.symbolName, "R")
  }

  function Reference(c: SymbolSpec): string {
    OrElse(c.reference, "REF?")
  }

  /** The position in millimetres and the angle as written (an integer 0 by default). */
  function Placement(p: PositionValue): (real, real, Sexp) {
    match p
    case PosDict(x, y, a) =>
      ((if x.Some? then x.value else 0.0), (if y.Some? then y.value else 0.0), (if a.Some? then Real(a.value) else Int(0)))
    case PosSeq(vs) =>
      if |vs| >= 2 then (vs[0], vs[1], if |vs| > 2 then Real(vs[2]) else Int(0)) else (0.0, 0.0, Int(0))
    case PosOther(_) => (0.0, 0.0, Int(0))
  }

  /** A missing position is read as (0, 0). */
  function PlacementOf(c: SymbolSpec): (real, real, Sexp) {
    if c.position.Some? then Placement(c.position.value) else (0.0, 0.0, Int(0))
  }

  function Property(name: string, value: string, x: real, y: real, hidden: bool): Sexp {
    var font := List([Sym("font"), List([Sym("size"), Real(1.27), Real(1.27)])]);
    List([Sym("property"), Str(name), Str(value), List([Sym("at"), Real(x), Real(y), Int(0)]),
          List([Sym("effects"), font] + (if hidden then [Sym("hide")] else []))])
  }

  /** `_build_symbol_sexpr` with the fresh instance UUID `uuid`. Coordinates
      are scaled by 10; the Reference and Value labels sit 2.54 above and
      below the scaled position. */
  function SymbolSexpr(c: SymbolSpec, uuid: string): Sexp {
    var (mx, my, angle) := PlacementOf(c);
    var x, y := mx * 10.0, my * 10.0;
    List([Sym("symbol")] + SymbolHeadItems(LibId(c), Real(x), Real(y), angle, uuid)
         + [Property("Reference", Reference(c), x, y - 2.54, false),
            Property("Value", OrElse(c.value, ""), x, y + 2.54, false),
            Property("Footprint", OrElse(c.footprint, ""), x, y, true),
            Property("Datasheet", OrElse(c.datasheet, "~"), x, y, true)])
  }

  /** The eight children before the properties: lib_id, at, the four flags and uuid. */
  function SymbolHeadItems(lib: string, x: Sexp, y: Sexp, angle: Sexp, uuid: string): seq<Sexp> {
    [List([Sym("lib_id"), Str(lib)]),
     List([Sym("at"), x, y, angle]),
     List([Sym("unit"), Int(1)]),
     List([Sym("exclude_from_sim"), Sym("no")]),
     List([Sym("in_bom"), Sym("yes")]),
     List([Sym("on_board"), Sym("yes")]),
     List([Sym("dnp"), Sym("no")]),
     List([Sym("uuid"), Str(uuid)])]
  }

  /** The four flags are bare yes/no symbols, never quoted strings, and
      exactly the Footprint and Datasheet properties end in `hide`. */
  lemma SymbolFlagsAndHiddenProperties(c: SymbolSpec, uuid: string)
    ensures var items := SymbolSexpr(c, uuid).items;
            |items| == 13
            && items[4].items[1] == Sym("no") && items[5].items[1] == Sym("yes")
            && items[6].items[1] == Sym("yes") && items[7].items[1] == Sym("no")
            && (forall k :: 9 <= k < 13 ==>
                  (items[k].items[0] == Sym("property") && (Last(items[k].items[4].items) == Sym("hide") <==> k >= 11)))
  {
  }

  function Last(xs: seq<Sexp>): Sexp {
    if xs == [] then List([]) else xs[|xs| - 1]
  }

  /** Python's truth value of a position: an empty list or dictionary is false. */
  predicate Truthy(p: PositionValue) {
    match p
    case PosDict(x, y, a) => x.Some? || y.Some? || a.Some?
    case PosSeq(vs) => vs != []
    case PosOther(t) => t
  }

  /** `_build_component_symbol` fills a missing or false position with (100, 100)
      and leaves every other key alone. */
  function WithDefaultPosition(c: SymbolSpec): (r: SymbolSpec)
    ensures r.position.Some? && Truthy(r.position.value)
    ensures c.position.Some? && Truthy(c.position.value) ==> r == c
    ensures r.(position := c.position) == c
  {
    if c.position.None? || !Truthy(c.position.value)
    then c.(position := Some(PosSeq([100.0, 100.0])))
    else c
  }

  /** Without a position, a component is placed at 1000 1000 internal units. */
  lemma DefaultPositionIsScaled(c: SymbolSpec, uuid: string)
    requires c.position.None?
    ensures SymbolSexpr(WithDefaultPosition(c), uuid).items[2] == List([Sym("at"), Real(1000.0), Real(1000.0), Int(0)])
  {
  }

  // ---------------------------------------------------------------------
  // Wires

  /** The keys of a connection dictionary: pin-to-pin or coordinates. */
  datatype Connection = Connection(startComponent: Option<string>, startPin: Option<string>,
                                   endComponent: Option<string>, endPin: Option<string>,
                                   startX: Option<real>, startY: Option<real>, endX: Option<real>, endY: Option<real>)

  predicate HasPinKeys(c: Connection) {
    c.startComponent.Some? && c.startPin.Some? && c.endComponent.Some? && c.endPin.Some?
  }

  predicate HasCoordinateKeys(c: Connection) {
    c.startX.Some? && c.startY.Some? && c.endX.Some? && c.endY.Some?
  }

  function WireSexpr(sx: real, sy: real, ex: real, ey: real, uuid: string): Sexp {
    List([Sym("wire"),
          List([Sym("pts"), List([Sym("xy"), Real(sx), Real(sy)]), List([Sym("xy"), Real(ex), Real(ey)])]),
          List([Sym("stroke"), List([Sym("width"), Int(0)]), List([Sym("type"), Str("default")])]),
          List([Sym("uuid"), Str(uuid)])])
  }

  // ---------------------------------------------------------------------
  // Component types

  /** The keys `_get_component_type` reads. */
  datatype TypeQuery = TypeQuery(componentType: Option<string>, symbolName: Option<string>, symbolLibrary: Option<string>)

  /** `_get_component_type`: the explicit type, else the first matching rule
      on the lower-cased symbol name and library. */
  function GetComponentType(q: TypeQuery): (r: string)
    ensures q.componentType.Some? ==> r == q.componentType.value
    ensures q.componentType.None? ==>
              r in {"resistor", "capacitor", "inductor", "led", "diode", "transistor", "switch", "connector", "ic", "default"}
  {
    if q.componentType.Some? then q.componentType.value
    else
      var name := Lower(OrElse(q.symbolName, ""));
      var library := Lower(OrElse(q.symbolLibrary, ""));
      if name == "r" || name == "resistor" then "resistor"
      else if name == "c" || name == "capacitor" then "capacitor"
      else if name == "l" || name == "inductor" then "inductor"
      else if name == "led" then "led"
      else if name == "d" || name == "diode" then "diode"
      else if Contains(name, "transistor") then "transistor"
      else if library == "switch" then "switch"
      else if library == "connector" then "connector"
      else if Contains(name, "ic") || Contains(name, "mcu") || Contains(name, "atmega") then "ic"
      else "default"
  }

  /** Without an explicit type the result always has a size in the layout's table. */
  lemma ComponentTypeHasSize(q: TypeQuery)
    requires q.componentType.None?
    ensures GetComponentType(q) in ComponentSizeNames
  {
  }

  const ComponentSizeNames: set<string> :=
    {"resistor", "capacitor", "inductor", "led", "diode", "ic", "transistor", "switch", "connector", "power", "default"}

  /** A name is matched by substring: a microphone symbol "Mic" is typed as an IC. */
  lemma SubstringRuleCatchesOtherNames()
    ensures GetComponentType(TypeQuery(None, Some("Mic"), None)) == "ic"
  {
    var name := Lower("Mic");
    assert name == "mic";
    assert name[1..3] == "ic";
    ContainsAt(name, "ic", 1);
    assert Lower("") == "";
  }

  // ---------------------------------------------------------------------
  // Reading a parsed tree back

  /** What `_parse_symbol_sexpr` collects; a missing key is None. Property
      names are kept by their text. */
  datatype SymbolRecord = SymbolRecord(libId: Option<Sexp>, position: Option<(Sexp, Sexp, Sexp)>, uuid: Option<Sexp>,
                                       properties: Option<Dict<Sexp, Sexp>>, reference: Option<Sexp>, value: Option<Sexp>)

  /** What `_parse_wire_sexpr` collects. */
  datatype WireRecord = WireRecord(start: Option<(Sexp, Sexp)>, end: Option<(Sexp, Sexp)>, uuid: Option<Sexp>)

  const NoSymbol: SymbolRecord := SymbolRecord(None, None, None, None, None, None)
  const NoWire: WireRecord := WireRecord(None, None, None)

  function NameKey(s: Sexp): Sexp {
    if s.Sym? then Str(s.name) else s
  }

  /** One child of a symbol; None stands for the IndexError of a short `at`
      or `property` entry and the TypeError of a list used as a name. */
  function SymbolStep(rec: SymbolRecord, item: Sexp, show: Sexp -> string): Option<SymbolRecord> {
    if !(item.List? && |item.items| >= 2) then Some(rec)
    else
      var xs := item.items;
      var key := KeyOf(xs[0], show);
      if key == "lib_id" then Some(rec.(libId := Some(xs[1])))
      else if key == "at" then
        if |xs| < 3 then None else Some(rec.(position := Some((xs[1], xs[2], if |xs| > 3 then xs[3] else Int(0)))))
      else if key == "uuid" then Some(rec.(uuid := Some(xs[1])))
      else if key == "property" then
        if |xs| < 3 || xs[1].List? then None
        else
          var props := if rec.properties.Some? then rec.properties.value else [];
          var rec' := rec.(properties := Some(Put(props, NameKey(xs[1]), xs[2])));
          if TextOf(xs[1]) == Some("Reference") then Some(rec'.(reference := Some(xs[2])))
          else if TextOf(xs[1]) == Some("Value") then Some(rec'.(value := Some(xs[2])))
          else Some(rec')
      else Some(rec)
  }

  function SymbolRecordOf(children: seq<Sexp>, show: Sexp -> string): Option<SymbolRecord> {
    if children == [] then Some(NoSymbol)
    else
      match SymbolRecordOf(children[..|children| - 1], show)
      case None => None
      case Some(rec) => SymbolStep(rec, children[|children| - 1], show)
  }

  /** The points of a `pts` entry; None for an empty list or a short `xy`. */
  function PointsOf(pts: seq<Sexp>, show: Sexp -> string): Option<seq<(Sexp, Sexp)>> {
    if pts == [] then Some([])
    else
      match PointsOf(pts[..|pts| - 1], show)
      case None => None
      case Some(ps) =>
        var p := pts[|pts| - 1];
        if !p.List? then Some(ps)
        else if p.items == [] then None
        else if KeyOf(p.items[0], show) != "xy" then Some(ps)
        else if |p.items| < 3 then None
        else Some(ps + [(p.items[1], p.items[2])])
  }

  function WireStep(rec: WireRecord, item: Sexp, show: Sexp -> string): Option<WireRecord> {
    if !(item.List? && |item.items| >= 2) then Some(rec)
    else
      var xs := item.items;
      var key := KeyOf(xs[0], show);
      if key == "pts" then
        match PointsOf(xs[1..], show)
        case None => None
        case Some(ps) => if |ps| >= 2 then Some(rec.(start := Some(ps[0]), end := Some(ps[|ps| - 1]))) else Some(rec)
      else if key == "uuid" then Some(rec.(uuid := Some(xs[1])))
      else Some(rec)
  }

  function WireRecordOf(children: seq<Sexp>, show: Sexp -> string): Option<WireRecord> {
    if children == [] then Some(NoWire)
    else
      match WireRecordOf(children[..|children| - 1], show)
      case None => None
      case Some(rec) => WireStep(rec, children[|children| - 1], show)
  }

  /** A symbol instance built by the handler reads back as what was put in:
      its lib_id, scaled position and angle, UUID, reference and value. */
  lemma ParseBuiltSymbol(c: SymbolSpec, uuid: string, show: Sexp -> string)
    ensures var (mx, my, angle) := PlacementOf(c);
            var r := SymbolRecordOf(SymbolSexpr(c, uuid).items[1..], show);
            r.Some?
            && r.value.libId == Some(Str(LibId(c)))
            && r.value.position == Some((Real(mx * 10.0), Real(my * 10.0), angle))
            && r.value.uuid == Some(Str(uuid))
            && r.value.reference == Some(Str(Reference(c)))
            && r.value.value == Some(Str(OrElse(c.value, "")))
            && r.value.properties == Some([(Str("Reference"), Str(Reference(c))), (Str("Value"), Str(OrElse(c.value, ""))),
                                           (Str("Footprint"), Str(OrElse(c.footprint, ""))), (Str("Datasheet"), Str(OrElse(c.datasheet, "~")))])
  {
    var cs := SymbolSexpr(c, uuid).items[1..];
    var r8 := ParseSymbolHead(c, uuid, show);
    ParseSymbolProperties(c, uuid, show, r8);
    assert cs[..12] == cs;
  }

  /** The first eight children: lib_id, at, the flags and uuid. */
  lemma ParseSymbolHead(c: SymbolSpec, uuid: string, show: Sexp -> string) returns (r8: SymbolRecord)
    ensures var (mx, my, angle) := PlacementOf(c);
            r8 == NoSymbol.(libId := Some(Str(LibId(c))), position := Some((Real(mx * 10.0), Real(my * 10.0), angle)), uuid := Some(Str(uuid)))
    ensures SymbolRecordOf(SymbolSexpr(c, uuid).items[1..][..8], show) == Some(r8)
  {
    var (mx, my, angle) := PlacementOf(c);
    var cs := SymbolSexpr(c, uuid).items[1..];
    var head := SymbolHeadItems(LibId(c), Real(mx * 10.0), Real(my * 10.0), angle, uuid);
    assert cs[..8] == head;
    HeadItemsAt(LibId(c), Real(mx * 10.0), Real(my * 10.0), angle, uuid);
    r8 := HeadFold(head, LibId(c), Real(mx * 10.0), Real(my * 10.0), angle, uuid, show);
  }

  lemma HeadItemsAt(lib: string, x: Sexp, y: Sexp, angle: Sexp, uuid: string)
    ensures var head := SymbolHeadItems(lib, x, y, angle, uuid);
      |head| == 8
      && head[0] == List([Sym("lib_id"), Str(lib)])
      && head[1] == List([Sym("at"), x, y, angle])
      && head[2] == List([Sym("unit"), Int(1)])
      && head[3] == List([Sym("exclude_from_sim"), Sym("no")])
      && head[4] == List([Sym("in_bom"), Sym("yes")])
      && head[5] == List([Sym("on_board"), Sym("yes")])
      && head[6] == List([Sym("dnp"), Sym("no")])
      && head[7] == List([Sym("uuid"), Str(uuid)])
  {
  }

  lemma HeadFold(head: seq<Sexp>, lib: string, x: Sexp, y: Sexp, angle: Sexp, uuid: string, show: Sexp -> string) returns (r8: SymbolRecord)
    requires |head| == 8
    requires head[0] == List([Sym("lib_id"), Str(lib)])
    requires head[1] == List([Sym("at"), x, y, angle])
    requires head[2] == List([Sym("unit"), Int(1)])
    requires head[3] == List([Sym("exclude_from_sim"), Sym("no")])
    requires head[4] == List([Sym("in_bom"), Sym("yes")])
    requires head[5] == List([Sym("on_board"), Sym("yes")])
    requires head[6] == List([Sym("dnp"), Sym("no")])
    requires head[7] == List([Sym("uuid"), Str(uuid)])
    ensures r8 == NoSymbol.(libId := Some(Str(lib)), position := Some((x, y, angle)), uuid := Some(Str(uuid)))
    ensures SymbolRecordOf(head, show) == Some(r8)
  {
    var r1 := NoSymbol.(libId := Some(Str(lib)));
    var r2 := r1.(position := Some((x, y, angle)));
    r8 := r2.(uuid := Some(Str(uuid)));
    StepSet(head, 0, show, NoSymbol, r1);
    StepSet(head, 1, show, r1, r2);
    StepSet(head, 2, show, r2, r2);
    StepSet(head, 3, show, r2, r2);
    StepSet(head, 4, show, r2, r2);
    StepSet(head, 5, show, r2, r2);
    StepSet(head, 6, show, r2, r2);
    StepSet(head, 7, show, r2, r8);
    assert head[..8] == head;
  }

  /** The four properties, each keyed by its name. */
  lemma ParseSymbolProperties(c: SymbolSpec, uuid: string, show: Sexp -> string, r8: SymbolRecord)
    requires r8.properties.None?
    requires SymbolRecordOf(SymbolSexpr(c, uuid).items[1..][..8], show) == Some(r8)
    ensures SymbolRecordOf(SymbolSexpr(c, uuid).items[1..][..12], show)
            == Some(r8.(reference := Some(Str(Reference(c))), value := Some(Str(OrElse(c.value, ""))),
                        properties := Some([(Str("Reference"), Str(Reference(c))), (Str("Value"), Str(OrElse(c.value, ""))),
                                            (Str("Footprint"), Str(OrElse(c.footprint, ""))), (Str("Datasheet"), Str(OrElse(c.datasheet, "~")))])))
  {
    var cs := SymbolSexpr(c, uuid).items[1..];
    PropertiesFold(cs, Reference(c), OrElse(c.value, ""), OrElse(c.footprint, ""), OrElse(c.datasheet, "~"), r8, show);
  }

  predicate IsProperty(e: Sexp, name: string, value: string) {
    e.List? && |e.items| >= 3 && e.items[0] == Sym("property") && e.items[1] == Str(name) && e.items[2] == Str(value)
  }

  lemma PropertiesFold(cs: seq<Sexp>, ref: string, val: string, fp: string, ds: string, r8: SymbolRecord, show: Sexp -> string)
    requires |cs| >= 12 && r8.properties.None?
    requires SymbolRecordOf(cs[..8], show) == Some(r8)
    requires IsProperty(cs[8], "Reference", ref) && IsProperty(cs[9], "Value", val)
    requires IsProperty(cs[10], "Footprint", fp) && IsProperty(cs[11], "Datasheet", ds)
    ensures SymbolRecordOf(cs[..12], show)
            == Some(r8.(reference := Some(Str(ref)), value := Some(Str(val)),
                        properties := Some([(Str("Reference"), Str(ref)), (Str("Value"), Str(val)),
                                            (Str("Footprint"), Str(fp)), (Str("Datasheet"), Str(ds))])))
  {
    var none: Dict<Sexp, Sexp> := [];
    var p1 := [(Str("Reference"), Str(ref))];
    var p2 := p1 + [(Str("Value"), Str(val))];
    var p3 := p2 + [(Str("Footprint"), Str(fp))];
    var p4 := p3 + [(Str("Datasheet"), Str(ds))];
    assert none + p1 == p1;
    assert "Value"[0] != "Reference"[0] && "Footprint"[0] != "Reference"[0] && "Datasheet"[0] != "Reference"[0];
    assert "Footprint"[0] != "Value"[0] && "Datasheet"[0] != "Value"[0] && "Datasheet"[0] != "Footprint"[0];
    var r9 := PropertyFoldStep(cs, 8, "Reference", ref, r8, show);
    assert r9.properties == Some(p1);
    var r10 := PropertyFoldStep(cs, 9, "Value", val, r9, show);
    assert r10.properties == Some(p2) && p2[0].0 == Str("Reference") && p2[1].0 == Str("Value");
    var r11 := PropertyFoldStep(cs, 10, "Footprint", fp, r10, show);
    assert r11.properties == Some(p3) && p3[0].0 == Str("Reference") && p3[1].0 == Str("Value") && p3[2].0 == Str("Footprint");
    var r12 := PropertyFoldStep(cs, 11, "Datasheet", ds, r11, show);
    assert p4 == [(Str("Reference"), Str(ref)), (Str("Value"), Str(val)), (Str("Footprint"), Str(fp)), (Str("Datasheet"), Str(ds))];
  }

  /** One property child with a new name: appended, and promoted when it
      is the Reference or the Value. */
  lemma PropertyFoldStep(cs: seq<Sexp>, k: nat, name: string, value: string, before: SymbolRecord, show: Sexp -> string)
    returns (after: SymbolRecord)
    requires 0 < k < |cs| && SymbolRecordOf(cs[..k], show) == Some(before)
    requires IsProperty(cs[k], name, value)
    requires before.properties.Some? ==> Str(name) !in Keys(before.properties.value)
    ensures var props := if before.properties.Some? then before.properties.value else [];
            var r := before.(properties := Some(props + [(Str(name), Str(value))]));
            after == (if name == "Reference" then r.(reference := Some(Str(value)))
                      else if name == "Value" then r.(value := Some(Str(value))) else r)
    ensures SymbolRecordOf(cs[..k + 1], show) == Some(after)
  {
    var props := if before.properties.Some? then before.properties.value else [];
    PutNewKeyAppends(props, Str(name), Str(value));
    PropertyStep(before, cs[k], name, value, show);
    after := SymbolStep(before, cs[k], show).value;
    StepSet(cs, k, show, before, after);
  }

  lemma PropertyStep(rec: SymbolRecord, e: Sexp, name: string, value: string, show: Sexp -> string)
    requires IsProperty(e, name, value)
    ensures var props := if rec.properties.Some? then rec.properties.value else [];
            var r := rec.(properties := Some(Put(props, Str(name), Str(value))));
            SymbolStep(rec, e, show)
            == Some(if name == "Reference" then r.(reference := Some(Str(value)))
                    else if name == "Value" then r.(value := Some(Str(value))) else r)
  {
  }

  /** One step of the fold, given the step's outcome. */
  lemma StepSet(cs: seq<Sexp>, k: nat, show: Sexp -> string, before: SymbolRecord, after: SymbolRecord)
    requires k < |cs|
    requires k == 0 ==> before == NoSymbol
    requires k > 0 ==> SymbolRecordOf(cs[..k], show) == Some(before)
    requires SymbolStep(before, cs[k], show) == Some(after)
    ensures SymbolRecordOf(cs[..k + 1], show) == Some(after)
  {
    assert cs[..k + 1][..k] == cs[..k];
  }

  lemma SymbolSnoc(cs: seq<Sexp>, k: nat, show: Sexp -> string)
    requires k < |cs|
    ensures SymbolRecordOf(cs[..k + 1], show)
            == match SymbolRecordOf(cs[..k], show) case None => None case Some(r) => SymbolStep(r, cs[k], show)
  {
    assert cs[..k + 1][..k] == cs[..k];
  }

  /** A wire built from two endpoints reads back with those endpoints. */
  lemma ParseBuiltWire(sx: real, sy: real, ex: real, ey: real, uuid: string, show: Sexp -> string)
    ensures WireRecordOf(WireSexpr(sx, sy, ex, ey, uuid).items[1..], show)
            == Some(WireRecord(Some((Real(sx), Real(sy))), Some((Real(ex), Real(ey))), Some(Str(uuid))))
  {
    var cs := WireSexpr(sx, sy, ex, ey, uuid).items[1..];
    var pts := cs[0].items[1..];
    assert |pts| == 2 && pts[..1][..0] == [] && pts[..|pts| - 1] == pts[..1];
    assert pts[..1][0] == List([Sym("xy"), Real(sx), Real(sy)]);
    var none: seq<(Sexp, Sexp)> := [];
    assert PointsOf(pts[..1][..0], show) == Some(none);
    assert none + [(Real(sx), Real(sy))] == [(Real(sx), Real(sy))];
    assert PointsOf(pts[..1], show) == Some(none + [(Real(sx), Real(sy))]);
    assert pts[1] == List([Sym("xy"), Real(ex), Real(ey)]);
    assert [(Real(sx), Real(sy))] + [(Real(ex), Real(ey))] == [(Real(sx), Real(sy)), (Real(ex), Real(ey))];
    assert PointsOf(pts, show) == Some([(Real(sx), Real(sy))] + [(Real(ex), Real(ey))]);
    assert cs[..1] == [cs[0]] && cs[..2][..1] == cs[..1] && cs[..3][..2] == cs[..2] && cs[..3] == cs;
    assert WireRecordOf(cs[..1], show) == Some(WireRecord(Some((Real(sx), Real(sy))), Some((Real(ex), Real(ey))), None));
    assert WireRecordOf(cs[..2], show) == WireRecordOf(cs[..1], show);
  }

  /** A wire whose `pts` has fewer than two points has no start or end. */
  lemma ShortWireHasNoEnds(show: Sexp -> string)
    ensures WireRecordOf([List([Sym("pts"), List([Sym("xy"), Int(1), Int(2)])])], show) == Some(NoWire)
  {
    var item := List([Sym("pts"), List([Sym("xy"), Int(1), Int(2)])]);
    var pts := item.items[1..];
    assert |pts| == 1 && pts[..|pts| - 1] == [];
    var none: seq<(Sexp, Sexp)> := [];
    assert none + [(Int(1), Int(2))] == [(Int(1), Int(2))];
    assert PointsOf(pts, show) == Some(none + [(Int(1), Int(2))]);
    assert WireStep(NoWire, item, show) == Some(NoWire);
    assert [item][..0] == [];
  }

  /** A value of the dictionary `_parse_sexpr_to_dict` returns. */
  datatype Record = SymbolRec(symbol: SymbolRecord) | WireRec(wire: WireRecord)
  datatype DictValue =
    | TypeText(text: string)
    | Records(records: seq<Record>)
    | Flag
    | Single(value: Sexp, typeName: string)
    | Several(values: seq<Sexp>)

  /** The list key children of a tag are collected under. */
  function ListKey(tag: string): string {
    if tag == "symbol" then "symbols" else "wires"
  }

  predicate IsEntry(item: Sexp) {
    item.List? && |item.items| >= 2
  }

  /** A child that is neither a symbol nor a wire, and the key it is stored under. */
  predicate IsOther(item: Sexp, show: Sexp -> string) {
    IsEntry(item) && KeyOf(item.items[0], show) != "symbol" && KeyOf(item.items[0], show) != "wire"
  }

  function ParseRecord(tag: string, item: Sexp, show: Sexp -> string): Option<Record>
    requires IsEntry(item)
  {
    if tag == "symbol" then
      match SymbolRecordOf(item.items[1..], show)
      case Some(s) => Some(SymbolRec(s))
      case None => None
    else
      match WireRecordOf(item.items[1..], show)
      case Some(w) => Some(WireRec(w))
      case None => None
  }

  /** Append a parsed record to the list under ListKey(tag), creating it
      first; None when the key holds something that is not a list. */
  function Collect(result: Dict<string, DictValue>, tag: string, item: Sexp, show: Sexp -> string): Option<Dict<string, DictValue>>
    requires IsEntry(item)
  {
    var key := ListKey(tag);
    var current := Lookup(result, key);
    if current.Some? && !current.value.Records? then None
    else
      match ParseRecord(tag, item, show)
      case None => None
      case Some(rec) =>
        var list := if current.Some? then current.value.records else [];
        var r := Put(result, key, Records(list + [rec]));
        if tag == "symbol" then Some(Put(r, "symbol", Flag)) else Some(r)
  }

  function OtherValue(xs: seq<Sexp>): DictValue
    requires |xs| >= 2
  {
    if |xs| == 2 then Single(xs[1], TypeName(xs[1])) else Several(xs[1..])
  }

  function DictStep(result: Dict<string, DictValue>, item: Sexp, show: Sexp -> string): Option<Dict<string, DictValue>> {
    if !IsEntry(item) then Some(result)
    else
      var key := KeyOf(item.items[0], show);
      if key == "symbol" || key == "wire" then Collect(result, key, item, show)
      else Some(Put(result, key, OtherValue(item.items)))
  }

  function DictOf(head: Sexp, children: seq<Sexp>, show: Sexp -> string): Option<Dict<string, DictValue>> {
    if children == [] then Some([("type", TypeText(KeyOf(head, show)))])
    else
      match DictOf(head, children[..|children| - 1], show)
      case None => None
      case Some(d) => DictStep(d, children[|children| - 1], show)
  }

  /** `_parse_sexpr_to_dict`: {} for an atom or a list shorter than two. */
  function SexprToDict(s: Sexp, show: Sexp -> string): Option<Dict<string, DictValue>> {
    if !s.List? || |s.items| < 2 then Some([]) else DictOf(s.items[0], s.items[1..], show)
  }

  /** The children of a tag, parsed, in order (the reference for the lists). */
  function Collected(children: seq<Sexp>, tag: string, show: Sexp -> string): seq<Record> {
    if children == [] then []
    else
      var item := children[|children| - 1];
      var rest := Collected(children[..|children| - 1], tag, show);
      if IsEntry(item) && KeyOf(item.items[0], show) == tag && ParseRecord(tag, item, show).Some?
      then rest + [ParseRecord(tag, item, show).value]
      else rest
  }

  /** The value the last other child with key k leaves (the reference for
      plain keys): later duplicates overwrite earlier ones. */
  function LastOther(children: seq<Sexp>, k: string, show: Sexp -> string): Option<DictValue> {
    if children == [] then None
    else
      var item := children[|children| - 1];
      if IsOther(item, show) && KeyOf(item.items[0], show) == k then Some(OtherValue(item.items))
      else LastOther(children[..|children| - 1], k, show)
  }

  /** When parsing succeeds and no plain child takes the key, symbol (wire)
      children are collected in order under "symbols" ("wires"); the key is
      absent when there are none. */
  lemma {:induction false} ChildrenCollectedInOrder(head: Sexp, children: seq<Sexp>, tag: string, show: Sexp -> string)
    requires tag == "symbol" || tag == "wire"
    requires KeyOf(head, show) != ListKey(tag) || ListKey(tag) != "type"
    requires forall i :: 0 <= i < |children| && IsOther(children[i], show) ==> KeyOf(children[i].items[0], show) != ListKey(tag)
    ensures DictOf(head, children, show).Some? ==>
              Lookup(DictOf(head, children, show).value, ListKey(tag))
              == if Collected(children, tag, show) == [] then None else Some(Records(Collected(children, tag, show)))
  {
    if children != [] {
      var n := |children| - 1;
      var init := children[..n];
      assert forall i :: 0 <= i < n ==> init[i] == children[i];
      ChildrenCollectedInOrder(head, init, tag, show);
      if DictOf(head, init, show).Some? {
        var d := DictOf(head, init, show).value;
        assert DictOf(head, children, show) == DictStep(d, children[n], show);
        CollectedStep(d, children, tag, show);
      }
    }
  }

  /** The "symbols" or "wires" entry, holding the records collected so far. */
  function ListEntry(records: seq<Record>): Option<DictValue> {
    if records == [] then None else Some(Records(records))
  }

  /** One more child keeps the list entry in step with Collected. */
  lemma CollectedStep(d: Dict<string, DictValue>, children: seq<Sexp>, tag: string, show: Sexp -> string)
    requires tag == "symbol" || tag == "wire"
    requires children != []
    requires Lookup(d, ListKey(tag)) == ListEntry(Collected(children[..|children| - 1], tag, show))
    requires IsOther(children[|children| - 1], show) ==> KeyOf(children[|children| - 1].items[0], show) != ListKey(tag)
    ensures DictStep(d, children[|children| - 1], show).Some? ==>
              Lookup(DictStep(d, children[|children| - 1], show).value, ListKey(tag)) == ListEntry(Collected(children, tag, show))
  {
    var item := children[|children| - 1];
    var prev := Collected(children[..|children| - 1], tag, show);
    if IsEntry(item) {
      var key := KeyOf(item.items[0], show);
      if key == "symbol" || key == "wire" {
        if Collect(d, key, item, show).Some? {
          var list := if Lookup(d, ListKey(key)).Some? then Lookup(d, ListKey(key)).value.records else [];
          var rec := ParseRecord(key, item, show).value;
          var r := Put(d, ListKey(key), Records(list + [rec]));
          LookupPut(d, ListKey(key), Records(list + [rec]), ListKey(tag));
          if key == "symbol" {
            LookupPut(r, "symbol", Flag, ListKey(tag));
          }
          if key == tag {
            assert Collected(children, tag, show) == prev + [rec];
          } else {
            assert Collected(children, tag, show) == prev;
          }
        }
      } else {
        LookupPut(d, key, OtherValue(item.items), ListKey(tag));
        assert Collected(children, tag, show) == prev;
      }
    } else {
      assert Collected(children, tag, show) == prev;
    }
  }

  /** Any other key holds the value of the last plain child with that key. */
  lemma {:induction false} OtherKeysKeepLastValue(head: Sexp, children: seq<Sexp>, k: string, show: Sexp -> string)
    requires k != "type" && k != "symbol" && k != "symbols" && k != "wires"
    ensures DictOf(head, children, show).Some? ==> Lookup(DictOf(head, children, show).value, k) == LastOther(children, k, show)
  {
    if children != [] {
      var n := |children| - 1;
      var item := children[n];
      OtherKeysKeepLastValue(head, children[..n], k, show);
      match DictOf(head, children[..n], show)
      case None =>
      case Some(d) =>
        if IsEntry(item) {
          var key := KeyOf(item.items[0], show);
          if key == "symbol" || key == "wire" {
            if Collect(d, key, item, show).Some? {
              var list := if Lookup(d, ListKey(key)).Some? then Lookup(d, ListKey(key)).value.records else [];
              var rec := ParseRecord(key, item, show).value;
              var r := Put(d, ListKey(key), Records(list + [rec]));
              LookupPut(d, ListKey(key), Records(list + [rec]), k);
              if key == "symbol" {
                LookupPut(r, "symbol", Flag, k);
              }
            }
          } else {
            LookupPut(d, key, OtherValue(item.items), k);
          }
        }
    }
  }

  /** The "type" entry is the head, unless a child uses the key "type". */
  lemma {:induction false} TypeIsHead(head: Sexp, children: seq<Sexp>, show: Sexp -> string)
    requires forall i :: 0 <= i < |children| && IsEntry(children[i]) ==> KeyOf(children[i].items[0], show) != "type"
    ensures DictOf(head, children, show).Some? ==> Lookup(DictOf(head, children, show).value, "type") == Some(TypeText(KeyOf(head, show)))
  {
    if children != [] {
      var n := |children| - 1;
      var item := children[n];
      assert forall i :: 0 <= i < n ==> children[..n][i] == children[i];
      TypeIsHead(head, children[..n], show);
      match DictOf(head, children[..n], show)
      case None =>
      case Some(d) =>
        if IsEntry(item) {
          var key := KeyOf(item.items[0], show);
          if key == "symbol" || key == "wire" {
            if Collect(d, key, item, show).Some? {
              var list := if Lookup(d, ListKey(key)).Some? then Lookup(d, ListKey(key)).value.records else [];
              var rec := ParseRecord(key, item, show).value;
              var r := Put(d, ListKey(key), Records(list + [rec]));
              LookupPut(d, ListKey(key), Records(list + [rec]), "type");
              if key == "symbol" {
                LookupPut(r, "symbol", Flag, "type");
              }
            }
          } else {
            LookupPut(d, key, OtherValue(item.items), "type");
          }
        }
    }
  }

  /** A plain `(symbols ...)` child followed by a symbol child makes the
      source's `append` fail. */
  lemma PlainListKeyBreaksCollection(show: Sexp -> string)
    ensures SexprToDict(List([Sym("kicad_sch"), List([Sym("symbols"), Int(1)]), List([Sym("symbol"), List([Sym("uuid"), Str("u")])])]), show).None?
  {
    var children := [List([Sym("symbols"), Int(1)]), List([Sym("symbol"), List([Sym("uuid"), Str("u")])])];
    assert children[..1] == [children[0]] && children[..1][..0] == [];
    var d0 := [("type", TypeText("kicad_sch"))];
    var d1 := [("type", TypeText("kicad_sch")), ("symbols", Single(Int(1), "int"))];
    assert DictOf(Sym("kicad_sch"), children[..1][..0], show) == Some(d0);
    assert Put(d0, "symbols", Single(Int(1), "int")) == d1;
    assert DictOf(Sym("kicad_sch"), children[..1], show) == Some(d1);
    assert children[..|children| - 1] == children[..1];
    assert Lookup(d1, "symbols") == Some(Single(Int(1), "int"));
  }

  /** The loops of the source, proved against the definitions above. */
  method ParseSymbolSexpr(expr: seq<Sexp>, show: Sexp -> string) returns (r: Option<SymbolRecord>)
    ensures r == SymbolRecordOf(Tail(expr), show)
  {
    var children := Tail(expr);
    var rec := NoSymbol;
    for i := 0 to |children|
      invariant SymbolRecordOf(children[..i], show) == Some(rec)
    {
      assert children[..i + 1][..i] == children[..i];
      var next := SymbolStep(rec, children[i], show);
      if next.None? {
        SymbolFailureSticks(children, i + 1, show);
        return None;
      }
      rec := next.value;
    }
    assert children[..|children|] == children;
    r := Some(rec);
  }

  lemma {:induction false} SymbolFailureSticks(children: seq<Sexp>, i: nat, show: Sexp -> string)
    requires i <= |children| && SymbolRecordOf(children[..i], show).None?
    ensures SymbolRecordOf(children, show).None?
    decreases |children| - i
  {
    if i < |children| {
      assert children[..i + 1][..i] == children[..i];
      SymbolFailureSticks(children, i + 1, show);
    } else {
      assert children[..i] == children;
    }
  }

  method ParseWireSexpr(expr: seq<Sexp>, show: Sexp -> string) returns (r: Option<WireRecord>)
    ensures r == WireRecordOf(Tail(expr), show)
  {
    var children := Tail(expr);
    var rec := NoWire;
    for i := 0 to |children|
      invariant WireRecordOf(children[..i], show) == Some(rec)
    {
      assert children[..i + 1][..i] == children[..i];
      var item := children[i];
      if item.List? && |item.items| >= 2 {
        var key := KeyOf(item.items[0], show);
        if key == "pts" {
          var points := CollectPoints(item.items[1..], show);
          if points.None? {
            WireFailureSticks(children, i + 1, show);
            return None;
          }
          if |points.value| >= 2 {
            rec := rec.(start := Some(points.value[0]), end := Some(points.value[|points.value| - 1]));
          }
        } else if key == "uuid" {
          rec := rec.(uuid := Some(item.items[1]));
        }
      }
    }
    assert children[..|children|] == children;
    r := Some(rec);
  }

  method CollectPoints(pts: seq<Sexp>, show: Sexp -> string) returns (r: Option<seq<(Sexp, Sexp)>>)
    ensures r == PointsOf(pts, show)
  {
    var points: seq<(Sexp, Sexp)> := [];
    for i := 0 to |pts|
      invariant PointsOf(pts[..i], show) == Some(points)
    {
      assert pts[..i + 1][..i] == pts[..i];
      var p := pts[i];
      if p.List? {
        if p.items == [] || (KeyOf(p.items[0], show) == "xy" && |p.items| < 3) {
          PointsFailureSticks(pts, i + 1, show);
          return None;
        }
        if KeyOf(p.items[0], show) == "xy" {
          points := points + [(p.items[1], p.items[2])];
        }
      }
    }
    assert pts[..|pts|] == pts;
    r := Some(points);
  }

  lemma {:induction false} PointsFailureSticks(pts: seq<Sexp>, i: nat, show: Sexp -> string)
    requires i <= |pts| && PointsOf(pts[..i], show).None?
    ensures PointsOf(pts, show).None?
    decreases |pts| - i
  {
    if i < |pts| {
      assert pts[..i + 1][..i] == pts[..i];
      PointsFailureSticks(pts, i + 1, show);
    } else {
      assert pts[..i] == pts;
    }
  }

  lemma {:induction false} WireFailureSticks(children: seq<Sexp>, i: nat, show: Sexp -> string)
    requires i <= |children| && WireRecordOf(children[..i], show).None?
    ensures WireRecordOf(children, show).None?
    decreases |children| - i
  {
    if i < |children| {
      assert children[..i + 1][..i] == children[..i];
      WireFailureSticks(children, i + 1, show);
    } else {
      assert children[..i] == children;
    }
  }

  method ParseSexprToDict(s: Sexp, show: Sexp -> string) returns (r: Option<Dict<string, DictValue>>)
    ensures r == SexprToDict(s, show)
  {
    if !s.List? || |s.items| < 2 {
      return Some([]);
    }
    var head, children := s.items[0], s.items[1..];
    var result: Dict<string, DictValue> := [("type", TypeText(KeyOf(head, show)))];
    for i := 0 to |children|
      invariant DictOf(head, children[..i], show) == Some(result)
    {
      assert children[..i + 1][..i] == children[..i];
      var next := DictStep(result, children[i], show);
      if next.None? {
        DictFailureSticks(head, children, i + 1, show);
        return None;
      }
      result := next.value;
    }
    assert children[..|children|] == children;
    r := Some(result);
  }

  lemma {:induction false} DictFailureSticks(head: Sexp, children: seq<Sexp>, i: nat, show: Sexp -> string)
    requires i <= |children| && DictOf(head, children[..i], show).None?
    ensures DictOf(head, children, show).None?
    decreases |children| - i
  {
    if i < |children| {
      assert children[..i + 1][..i] == children[..i];
      DictFailureSticks(head, children, i + 1, show);
    } else {
      assert children[..i] == children;
    }
  }

  // ---------------------------------------------------------------------
  // The pretty printer

  /** The characters of s that are not whitespace, in order. */
  function NonSpace(s: string): string {
    if s == [] then [] else NonSpace(s[..|s| - 1]) + if IsSpace(s[|s| - 1]) then [] else [s[|s| - 1]]
  }

  lemma {:induction false} NonSpaceAppend(a: string, b: string)
    ensures NonSpace(a + b) == NonSpace(a) + NonSpace(b)
    decreases |b|
  {
    if b != [] {
      var b' := b[..|b| - 1];
      assert (a + b)[..|a + b| - 1] == a + b';
      NonSpaceAppend(a, b');
    } else {
      assert a + b == a;
    }
  }

  lemma {:induction false} NonSpaceOfSpaces(s: string)
    requires forall i :: 0 <= i < |s| ==> IsSpace(s[i])
    ensures NonSpace(s) == []
  {
    if s != [] {
      NonSpaceOfSpaces(s[..|s| - 1]);
    }
  }

  function Spaces(n: nat): (r: string)
    ensures |r| == 2 * n && forall i :: 0 <= i < |r| ==> r[i] == ' '
  {
    if n == 0 then [] else Spaces(n - 1) + "  "
  }

  /** Python's `text.split("\n")`. */
  function Lines(t: string): (ls: seq<string>)
    ensures |ls| >= 1
  {
    if t == [] then [[]]
    else
      var ls := Lines(t[..|t| - 1]);
      if t[|t| - 1] == '\n' then ls + [[]]
      else ls[..|ls| - 1] + [ls[|ls| - 1] + [t[|t| - 1]]]
  }

  /** Python's `"\n".join(lines)`. */
  function JoinLines(ls: seq<string>): string {
    if ls == [] then []
    else if |ls| == 1 then ls[0]
    else JoinLines(ls[..|ls| - 1]) + "\n" + ls[|ls| - 1]
  }

  /** Trailing whitespace removed from every line. */
  function CleanLines(t: string): string {
    var ls := Lines(t);
    JoinLines(seq(|ls|, i requires 0 <= i < |ls| => TrimEnd(ls[i])))
  }

  /** Splitting at newlines and joining again gives the text back. */
  lemma {:induction false} LinesJoin(t: string)
    ensures JoinLines(Lines(t)) == t
  {
    if t != [] {
      var t' := t[..|t| - 1];
      var c := t[|t| - 1];
      var ls := Lines(t');
      LinesJoin(t');
      assert t == t' + [c];
      if c == '\n' {
        JoinSnoc(ls, []);
      } else {
        JoinExtendLast(ls, c);
      }
    }
  }

  lemma {:induction false} JoinSnoc(ls: seq<string>, x: string)
    requires ls != []
    ensures JoinLines(ls + [x]) == JoinLines(ls) + "\n" + x
  {
    assert (ls + [x])[..|ls|] == ls;
  }

  lemma {:induction false} JoinExtendLast(ls: seq<string>, c: char)
    requires ls != []
    ensures JoinLines(ls[..|ls| - 1] + [ls[|ls| - 1] + [c]]) == JoinLines(ls) + [c]
  {
    var n := |ls|;
    var init, last := ls[..n - 1], ls[n - 1];
    if n > 1 {
      assert init + [last] == ls;
      JoinSnoc(init, last + [c]);
      JoinSnoc(init, last);
      var j := JoinLines(init);
      assert j + "\n" + (last + [c]) == (j + "\n" + last) + [c];
    } else {
      assert init + [last + [c]] == [last + [c]];
    }
  }

  /** The first line is the text up to the first newline, or all of it. */
  lemma {:induction false} FirstLine(t: string)
    ensures |Lines(t)[0]| <= |t| && Lines(t)[0] == t[..|Lines(t)[0]|]
    ensures '\n' !in Lines(t)[0]
    ensures |Lines(t)| == 1 ==> Lines(t)[0] == t
    ensures |Lines(t)| > 1 ==> |Lines(t)[0]| < |t| && t[|Lines(t)[0]|] == '\n'
  {
    if t != [] {
      var t' := t[..|t| - 1];
      var c := t[|t| - 1];
      var ls' := Lines(t');
      var f' := ls'[0];
      FirstLine(t');
      assert t'[..|f'|] == t[..|f'|];
      if c == '\n' {
        assert Lines(t) == ls' + [[]];
        assert Lines(t)[0] == f';
      } else if |ls'| == 1 {
        assert Lines(t) == [f' + [c]];
        assert t == t' + [c];
      } else {
        assert Lines(t) == ls'[..|ls'| - 1] + [ls'[|ls'| - 1] + [c]];
        assert Lines(t)[0] == f';
      }
    }
  }

  lemma {:induction false} JoinKeepsNonSpace(ps: seq<string>, qs: seq<string>)
    requires |ps| == |qs|
    requires forall i :: 0 <= i < |ps| ==> NonSpace(ps[i]) == NonSpace(qs[i])
    ensures NonSpace(JoinLines(ps)) == NonSpace(JoinLines(qs))
  {
    if |ps| > 1 {
      var n := |ps| - 1;
      JoinKeepsNonSpace(ps[..n], qs[..n]);
      NonSpaceAppend(JoinLines(ps[..n]) + "\n", ps[n]);
      NonSpaceAppend(JoinLines(qs[..n]) + "\n", qs[n]);
      NonSpaceAppend(JoinLines(ps[..n]), "\n");
      NonSpaceAppend(JoinLines(qs[..n]), "\n");
    }
  }

  lemma TrimEndKeepsNonSpace(p: string)
    ensures NonSpace(TrimEnd(p)) == NonSpace(p)
  {
    var r := TrimEnd(p);
    assert p == r + p[|r|..];
    NonSpaceAppend(r, p[|r|..]);
    NonSpaceOfSpaces(p[|r|..]);
  }

  /** Cleaning keeps every non-whitespace character, in order. */
  lemma CleanLinesKeepsNonSpace(t: string)
    ensures NonSpace(CleanLines(t)) == NonSpace(t)
  {
    var ls := Lines(t);
    var qs := seq(|ls|, i requires 0 <= i < |ls| => TrimEnd(ls[i]));
    LinesJoin(t);
    forall i | 0 <= i < |ls|
      ensures NonSpace(ls[i]) == NonSpace(qs[i])
    {
      TrimEndKeepsNonSpace(ls[i]);
    }
    JoinKeepsNonSpace(ls, qs);
  }

  /** Cleaning keeps a leading prefix that holds no newline and ends in a
      non-whitespace character. */
  lemma CleanLinesKeepsHead(t: string, prefix: string)
    requires prefix != [] && StartsWith(t, prefix) && '\n' !in prefix && !IsSpace(prefix[|prefix| - 1])
    ensures StartsWith(CleanLines(t), prefix)
  {
    var ls := Lines(t);
    var qs := seq(|ls|, i requires 0 <= i < |ls| => TrimEnd(ls[i]));
    var first := ls[0];
    FirstLine(t);
    assert forall k :: 0 <= k < |prefix| ==> t[k] == prefix[k] && t[k] != '\n';
    assert |first| >= |prefix|;
    assert first[..|prefix|] == prefix;
    var tr := TrimEnd(first);
    assert !IsSpace(first[|prefix| - 1]);
    assert |tr| >= |prefix|;
    JoinStartsWithFirst(qs);
    assert CleanLines(t)[..|prefix|] == tr[..|prefix|];
  }

  lemma {:induction false} JoinStartsWithFirst(ls: seq<string>)
    requires ls != []
    ensures StartsWith(JoinLines(ls), ls[0])
  {
    if |ls| > 1 {
      JoinStartsWithFirst(ls[..|ls| - 1]);
    }
  }

  const SchematicHead: string := "(kicad_sch"

  /** The text so far agrees with the input up to the tenth character and
      then keeps the schematic head. */
  ghost predicate HeadKept(s: string, acc: string, i: nat) {
    (i <= |SchematicHead| ==> i <= |s| && acc == s[..i])
    && (i >= |SchematicHead| ==> StartsWith(acc, SchematicHead))
  }

  lemma HeadChars()
    ensures SchematicHead[0] == '('
    ensures forall k :: 1 <= k < |SchematicHead| ==> SchematicHead[k] != '(' && SchematicHead[k] != ')' && !IsSpace(SchematicHead[k])
    ensures '\n' !in SchematicHead
  {
  }

  /** What a newline, an indentation and "(" contribute besides the bracket. */
  lemma LayoutNonSpace(nl: string, n: nat)
    requires nl == [] || nl == "\n"
    ensures NonSpace(nl + Spaces(n) + "(") == "("
  {
    NonSpaceOfSpaces(nl + Spaces(n));
    NonSpaceAppend(nl + Spaces(n), "(");
    assert "("[..0] == [];
  }

  lemma PieceStep(s: string, i: nat, next: nat, acc: string, piece: string, head: bool)
    requires i < next <= |s|
    requires NonSpace(acc) == NonSpace(s[..i])
    requires NonSpace(piece) == NonSpace([s[i]])
    requires forall k :: i < k < next ==> IsSpace(s[k])
    requires head ==> StartsWith(s, SchematicHead) && HeadKept(s, acc, i)
    requires head && i < |SchematicHead| ==> piece == [s[i]] && next == i + 1
    ensures NonSpace(acc + piece) == NonSpace(s[..next])
    ensures head ==> HeadKept(s, acc + piece, next)
  {
    PieceNonSpace(s, i, next, acc, piece);
    if head {
      PieceHead(s, i, next, acc, piece);
    }
  }

  lemma PieceNonSpace(s: string, i: nat, next: nat, acc: string, piece: string)
    requires i < next <= |s|
    requires NonSpace(acc) == NonSpace(s[..i])
    requires NonSpace(piece) == NonSpace([s[i]])
    requires forall k :: i < k < next ==> IsSpace(s[k])
    ensures NonSpace(acc + piece) == NonSpace(s[..next])
  {
    var a, b := s[..i] + [s[i]], s[i + 1..next];
    assert s[..next] == a + b;
    NonSpaceAppend(a, b);
    NonSpaceAppend(s[..i], [s[i]]);
    NonSpaceOfSpaces(b);
    NonSpaceAppend(acc, piece);
  }

  lemma PieceHead(s: string, i: nat, next: nat, acc: string, piece: string)
    requires i < next <= |s|
    requires StartsWith(s, SchematicHead) && HeadKept(s, acc, i)
    requires i < |SchematicHead| ==> piece == [s[i]] && next == i + 1
    ensures HeadKept(s, acc + piece, next)
  {
    var n := |SchematicHead|;
    if i < n {
      assert acc + piece == s[..i + 1];
      assert s[..n] == SchematicHead;
    } else {
      assert (acc + piece)[..n] == acc[..n];
    }
  }

  /** One step of the formatting loop: the text emitted for the character
      at `i`, the index after it, and the new indentation level. */
  method NextPiece(s: string, i: nat, acc: string, indent: nat, ghost head: bool)
    returns (piece: string, next: nat, indentAfter: nat)
    requires i < |s|
    requires i == 0 ==> indent == 0 && acc == []
    requires head ==> StartsWith(s, SchematicHead) && HeadKept(s, acc, i)
    ensures i < next <= |s|
    ensures NonSpace(piece) == NonSpace([s[i]])
    ensures forall k :: i < k < next ==> IsSpace(s[k])
    ensures head && i < |SchematicHead| ==> piece == [s[i]] && next == i + 1
  {
    var c := s[i];
    if head && i < |SchematicHead| {
      HeadPrefixChar(s, i);
      HeadPrefixChar(s, 1);
    }
    if c == '(' {
      var nl := if i > 0 && acc != [] && acc[|acc| - 1] != '\n' then "\n" else "";
      LayoutNonSpace(nl, indent);
      piece := nl + Spaces(indent) + "(";
      indentAfter := indent + 1;
      next := SkipSpaces(s, i + 1);
    } else if c == ')' {
      indentAfter := if indent > 0 then indent - 1 else 0;
      piece := if i + 1 < |s| && s[i + 1] != ')' then ")\n" else ")";
      assert NonSpace(piece) == ")" by { CloseNonSpace(); }
      next := i + 1;
    } else {
      piece := [c];
      indentAfter := indent;
      next := i + 1;
    }
  }

  lemma CloseNonSpace()
    ensures NonSpace(")\n") == ")" && NonSpace(")") == ")"
  {
    NonSpaceAppend(")", "\n");
    NonSpaceOfSpaces("\n");
  }

  /** The character at `i < |SchematicHead|` of a text starting with the head:
      "(" first, then no bracket and no whitespace. */
  lemma HeadPrefixChar(s: string, i: nat)
    requires StartsWith(s, SchematicHead) && i < |SchematicHead|
    ensures i < |s| && s[i] == SchematicHead[i]
    ensures i == 0 ==> s[i] == '('
    ensures i > 0 ==> s[i] != '(' && s[i] != ')' && !IsSpace(s[i])
  {
    HeadChars();
    assert s[..|SchematicHead|][i] == s[i];
  }

  /** The inner loop of the source: the index of the first character at or
      after `from` that is not whitespace. */
  method SkipSpaces(s: string, from: nat) returns (j: nat)
    requires from <= |s|
    ensures from <= j <= |s|
    ensures forall k :: from <= k < j ==> IsSpace(s[k])
    ensures j < |s| ==> !IsSpace(s[j])
  {
    j := from;
    while j < |s| && IsSpace(s[j])
      invariant from <= j <= |s|
      invariant forall k :: from <= k < j ==> IsSpace(s[k])
    {
      j := j + 1;
    }
  }

  /** `_pretty_format_sexpr`: a newline before every "(" that does not
      already start a line, indented two spaces per open level, whitespace
      after "(" skipped, a newline after ")" unless another ")" follows,
      then trailing whitespace removed from every line. Every
      non-whitespace character is kept, in order, exactly once; text that
      begins with "(kicad_sch" still does. */
  method PrettyFormat(s: string) returns (out: string)
    ensures NonSpace(out) == NonSpace(s)
    ensures StartsWith(s, SchematicHead) ==> StartsWith(out, SchematicHead)
  {
    var acc: string := [];
    var indent: nat := 0;
    var i: nat := 0;
    ghost var head := StartsWith(s, SchematicHead);
    HeadChars();
    while i < |s|
      invariant i <= |s|
      invariant i == 0 ==> indent == 0 && acc == []
      invariant NonSpace(acc) == NonSpace(s[..i])
      invariant head ==> HeadKept(s, acc, i)
    {
      var piece, next;
      piece, next, indent := NextPiece(s, i, acc, indent, head);
      PieceStep(s, i, next, acc, piece, head);
      acc := acc + piece;
      i := next;
    }
    assert s[..|s|] == s;
    CleanLinesKeepsNonSpace(acc);
    if head {
      CleanLinesKeepsHead(acc, SchematicHead);
    }
    out := CleanLines(acc);
  }

  // ---------------------------------------------------------------------
  // The handler object

  /** `SExpressionHandler`: the UUID of every symbol instance by reference,
      and the pin mapper wires are resolved against. */
  class SexprHandler {
    var componentUuidMap: Dict<string, string>
    const pinMapper: PinMapper.ComponentPinMapper

    ghost predicate Valid()
      reads this, pinMapper
    {
      Distinct(Keys(componentUuidMap)) && pinMapper.Valid()
    }

    constructor ()
      ensures Valid() && componentUuidMap == [] && fresh(pinMapper)
      ensures pinMapper.componentPins == [] && pinMapper.pinConnections == []
    {
      componentUuidMap := [];
      pinMapper := new PinMapper.ComponentPinMapper();
    }

    /** `_build_symbol_sexpr`, the instance UUID being `uuid`. */
    method BuildSymbolSexpr(c: SymbolSpec, uuid: string) returns (e: Sexp)
      requires Valid()
      modifies this
      ensures Valid()
      ensures e == SymbolSexpr(c, uuid)
      ensures componentUuidMap == Put(old(componentUuidMap), Reference(c), uuid)
    {
      PutKeepsDistinctKeys(componentUuidMap, Reference(c), uuid);
      componentUuidMap := Put(componentUuidMap, Reference(c), uuid);
      e := SymbolSexpr(c, uuid);
    }

    /** `_build_component_symbol`. */
    method BuildComponentSymbol(c: SymbolSpec, uuid: string) returns (e: Sexp)
      requires Valid()
      modifies this
      ensures Valid()
      ensures e == SymbolSexpr(WithDefaultPosition(c), uuid)
      ensures componentUuidMap == Put(old(componentUuidMap), Reference(c), uuid)
    {
      e := BuildSymbolSexpr(WithDefaultPosition(c), uuid);
    }

    /** `_build_power_symbol`: a missing or empty reference becomes "#PWR"
        followed by the map size plus one, zero padded to three digits. */
    method BuildPowerSymbol(c: SymbolSpec, uuid: string) returns (e: Sexp)
      requires Valid()
      modifies this
      ensures Valid()
      ensures var ref := if c.reference.None? || c.reference == Some("")
                         then "#PWR" + Pad3(|old(componentUuidMap)| + 1) else c.reference.value;
              e == SymbolSexpr(c.(reference := Some(ref)), uuid)
              && componentUuidMap == Put(old(componentUuidMap), ref, uuid)
    {
      var spec := c;
      if c.reference.None? || c.reference == Some("") {
        spec := c.(reference := Some("#PWR" + Pad3(|componentUuidMap| + 1)));
      }
      e := BuildSymbolSexpr(spec, uuid);
    }

    /** `_build_wire_sexpr`: the pin form when all four pin keys are there
        (None when a pin has no connection point; the connection is
        registered whatever its outcome), else the coordinate form when all
        four coordinates are there, else None. */
    method BuildWireSexpr(c: Connection, uuid: string) returns (e: Option<Sexp>)
      requires Valid()
      modifies pinMapper
      ensures Valid()
      ensures !HasPinKeys(c) && !HasCoordinateKeys(c) ==> e.None? && unchanged(pinMapper)
      ensures !HasPinKeys(c) && HasCoordinateKeys(c) ==>
                e == Some(WireSexpr(c.startX.value, c.startY.value, c.endX.value, c.endY.value, uuid))
                && unchanged(pinMapper)
      ensures HasPinKeys(c) ==>
                var s := old(pinMapper.GetPinConnectionPoint(c.startComponent.value, c.startPin.value));
                var t := old(pinMapper.GetPinConnectionPoint(c.endComponent.value, c.endPin.value));
                e == (if s.Some? && t.Some? then Some(WireSexpr(s.value.0, s.value.1, t.value.0, t.value.1, uuid)) else None)
                && pinMapper.componentPins == old(pinMapper.componentPins)
                && (s.None? || t.None? ==> unchanged(pinMapper))
                && (s.Some? && t.Some? ==>
                      pinMapper.pinConnections
                      == if old(pinMapper.Connectable(c.startComponent.value, c.startPin.value, c.endComponent.value, c.endPin.value))
                         then PinMapper.Connect(old(pinMapper.pinConnections), PinMapper.PinId(c.startComponent.value, c.startPin.value),
                                                PinMapper.PinId(c.endComponent.value, c.endPin.value))
                         else old(pinMapper.pinConnections))
    {
      if HasPinKeys(c) {
        var s := pinMapper.GetPinConnectionPoint(c.startComponent.value, c.startPin.value);
        var t := pinMapper.GetPinConnectionPoint(c.endComponent.value, c.endPin.value);
        if s.None? || t.None? {
          return None;
        }
        var _ := pinMapper.AddConnection(c.startComponent.value, c.startPin.value, c.endComponent.value, c.endPin.value);
        e := Some(WireSexpr(s.value.0, s.value.1, t.value.0, t.value.1, uuid));
      } else if HasCoordinateKeys(c) {
        e := Some(WireSexpr(c.startX.value, c.startY.value, c.endX.value, c.endY.value, uuid));
      } else {
        e := None;
      }
    }
  }
}
