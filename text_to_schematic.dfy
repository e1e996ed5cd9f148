/** The text circuit descriptions of `TextToSchematicParser`: the line
    format ("R1 resistor 1k (10, 20)" under section headers) and the
    items of an already loaded YAML document ("R1: resistor 1k at (10, 20)"),
    the position, connection and component parsers they share, and the
    warnings reported about a parsed circuit. */
module TextToSchematic {
  import opened Common
  import ComponentUtils

  // ---------------------------------------------------------------------
  // The data classes

  datatype Component = Component(reference: string, componentType: string, value: string, position: Point,
                                 symbolLibrary: string, symbolName: string)

  datatype PowerSymbol = PowerSymbol(reference: string, powerType: string, position: Point)

  /** One end of a connection: a component and, after a ".", a pin. */
  datatype Connection = Connection(startComponent: string, startPin: Option<string>,
                                   endComponent: string, endPin: Option<string>)

  datatype Circuit = Circuit(name: string, components: seq<Component>, powerSymbols: seq<PowerSymbol>,
                             connections: seq<Connection>)

  // ---------------------------------------------------------------------
  // Component types

  /** `COMPONENT_SYMBOLS`: library and symbol name per component type. */
  const ComponentSymbols: map<string, (string, string)> :=
    map["resistor" := ("Device", "R"), "capacitor" := ("Device", "C"), "inductor" := ("Device", "L"),
        "led" := ("Device", "LED"), "diode" := ("Device", "D"), "transistor_npn" := ("Device", "Q_NPN_CBE"),
        "transistor_pnp" := ("Device", "Q_PNP_CBE"), "ic" := ("Device", "U"),
        "switch" := ("Switch", "SW_Push"), "connector" := ("Connector", "Conn_01x02")]

  /** The symbol of a component type; an unknown type silently falls back to
      a resistor symbol rather than failing. */
  function SymbolFor(componentType: string): (r: (string, string))
    ensures componentType in ComponentSymbols ==> r == ComponentSymbols[componentType]
    ensures componentType !in ComponentSymbols ==> r == ("Device", "R")
    ensures r.0 in {"Device", "Switch", "Connector"} && r.1 != []
  {
    if componentType in ComponentSymbols then ComponentSymbols[componentType] else ("Device", "R")
  }

  // ---------------------------------------------------------------------
  // Numbers and positions

  /** Python's `float(s)` on an optionally signed decimal without exponent:
      digits, optionally a "." and more digits, at least one digit in all. */
  function ParseDecimal(s: string): (r: Option<real>)
    ensures r.Some? ==> s != []
  {
    if s != [] && (s[0] == '-' || s[0] == '+') then
      match Unsigned(s[1..])
      case None => None
      case Some(v) => Some(if s[0] == '-' then -v else v)
    else Unsigned(s)
  }

  function Unsigned(s: string): (r: Option<real>)
    ensures r.Some? ==> s != []
  {
    var d := match Find(s, ".")
             case None => ComponentUtils.Decimal(s, "")
             case Some(i) => ComponentUtils.Decimal(s[..i], s[i + 1..]);
    if ComponentUtils.WellFormed(d) && (d.whole != [] || d.frac != []) then Some(ComponentUtils.Value(d)) else None
  }

  lemma NoCharNoOccurrence(s: string, c: char)
    requires c !in s
    ensures !Contains(s, [c])
  {
    forall i: nat | i <= |s|
      ensures !OccursAt(s, [c], i)
    {
      if i + 1 <= |s| {
        assert s[i..i + 1][0] == s[i] != c;
      }
    }
  }

  lemma DigitsLack(s: string, c: char)
    requires forall k :: 0 <= k < |s| ==> IsDigit(s[k])
    requires !IsDigit(c)
    ensures c !in s
  {
  }

  /** The decimal text of a natural number reads back as that number. */
  lemma DecimalOfNat(n: nat)
    ensures ParseDecimal(NatToString(n)) == Some(n as real)
    ensures ParseDecimal("-" + NatToString(n)) == Some(-(n as real))
  {
    var s := NatToString(n);
    DigitsLack(s, '.');
    NoCharNoOccurrence(s, '.');
    ComponentUtils.NatToStringValue(n);
    assert ComponentUtils.Value(ComponentUtils.Decimal(s, "")) == n as real;
    assert ("-" + s)[1..] == s;
    assert IsDigit(s[0]);
  }

  /** `_parse_position`: strip every surrounding parenthesis, split at
      commas and read the first two pieces as numbers; anything else fails,
      which the callers see as a failed parse. */
  function ParsePosition(s: string): (r: Option<Point>)
    ensures r.Some? ==> |Split(StripChars(s, {'(', ')'}), ",")| >= 2
  {
    var coords := Split(StripChars(s, {'(', ')'}), ",");
    if |coords| < 2 then None
    else
      match (ParseDecimal(Strip(coords[0])), ParseDecimal(Strip(coords[1])))
      case (Some(x), Some(y)) => Some(Point(x, y))
      case _ => None
  }

  /** A piece that can stand between the parentheses and around the comma
      of a position and come out unchanged. */
  predicate Coordinate(s: string) {
    s != [] && ',' !in s && s[0] !in {'(', ')'} && s[|s| - 1] !in {'(', ')'}
    && !IsSpace(s[0]) && !IsSpace(s[|s| - 1])
  }

  lemma StripKeeps(s: string)
    requires s != [] && !IsSpace(s[0]) && !IsSpace(s[|s| - 1])
    ensures Strip(s) == s
  {
    assert TrimStart(s) == s;
  }

  lemma SplitWithout(s: string, sep: string)
    requires sep != [] && !Contains(s, sep)
    ensures Split(s, sep) == [s]
  {
  }

  lemma StripParens(x: string, y: string)
    requires Coordinate(x) && Coordinate(y)
    ensures StripChars("(" + x + ", " + y + ")", {'(', ')'}) == x + ", " + y
  {
    var inner := x + ", " + y;
    assert "(" + x + ", " + y + ")" == ['('] + inner + [')'];
    assert inner[0] == x[0] && inner[|inner| - 1] == y[|y| - 1];
    StripCharsUnwrap('(', inner, ')', {'(', ')'});
  }

  /** Stripping a set of characters removes one wrapping pair around a text
      that neither starts nor ends with one of them. */
  lemma StripCharsUnwrap(a: char, inner: string, b: char, chars: set<char>)
    requires a in chars && b in chars
    requires inner != [] && inner[0] !in chars && inner[|inner| - 1] !in chars
    ensures StripChars([a] + inner + [b], chars) == inner
  {
    var s := [a] + inner + [b];
    assert s[1..] == inner + [b];
    assert StripChars(s, chars) == StripChars(inner + [b], chars);
    var t := inner + [b];
    assert t[0] == inner[0] && t[|t| - 1] == b;
    assert t[..|t| - 1] == inner;
    assert StripChars(t, chars) == StripChars(inner, chars);
  }

  /** The first comma of a text whose first part has none ends that part. */
  lemma FindComma(x: string, rest: string)
    requires ',' !in x
    ensures Find(x + "," + rest, ",") == Some(|x|)
  {
    var s := x + "," + rest;
    assert OccursAt(s, ",", |x|);
    forall k: nat | k < |x|
      ensures !OccursAt(s, ",", k)
    {
      assert s[k..k + 1] == [x[k]];
    }
  }

  lemma SplitCoordinates(x: string, y: string)
    requires Coordinate(x) && Coordinate(y)
    ensures Split(x + ", " + y, ",") == [x, " " + y]
  {
    var rest := " " + y;
    var inner := x + "," + rest;
    assert x + ", " + y == inner;
    FindComma(x, rest);
    assert inner[..|x|] == x && inner[|x| + 1..] == rest;
    assert Split(inner, ",") == [x] + Split(rest, ",");
    assert ',' !in rest;
    NoCharNoOccurrence(rest, ',');
    SplitWithout(rest, ",");
  }

  lemma StripSpaced(y: string)
    requires Coordinate(y)
    ensures Strip(" " + y) == y
  {
    assert (" " + y)[1..] == y;
    assert TrimStart(" " + y) == TrimStart(y);
    StripKeeps(y);
    assert TrimStart(y) == y;
  }

  /** `_parse_position` reads back the position "(x, y)" it is given. */
  lemma {:induction false} PositionRoundTrip(x: string, y: string)
    requires Coordinate(x) && Coordinate(y)
    ensures ParsePosition("(" + x + ", " + y + ")") ==
      (match (ParseDecimal(x), ParseDecimal(y))
       case (Some(a), Some(b)) => Some(Point(a, b))
       case _ => None)
  {
    StripParens(x, y);
    SplitCoordinates(x, y);
    StripKeeps(x);
    StripSpaced(y);
  }

  /** A natural number's text is a coordinate, with or without a minus. */
  lemma NatCoordinate(n: nat)
    ensures Coordinate(NatToString(n)) && Coordinate("-" + NatToString(n))
  {
    var x := NatToString(n);
    assert IsDigit(x[0]) && IsDigit(x[|x| - 1]);
    DigitsLack(x, ',');
    assert ("-" + x)[|"-" + x| - 1] == x[|x| - 1];
    assert ',' !in "-" + x;
  }

  /** Whole-number positions such as "(10, 20)" read back exactly. */
  lemma IntegerPosition(a: nat, b: nat)
    ensures ParsePosition("(" + NatToString(a) + ", " + NatToString(b) + ")") == Some(Point(a as real, b as real))
  {
    NatCoordinate(a);
    NatCoordinate(b);
    DecimalOfNat(a);
    DecimalOfNat(b);
    PositionRoundTrip(NatToString(a), NatToString(b));
  }

  // ---------------------------------------------------------------------
  // The position group `re.search(r"\(([^)]+)\)", line)`

  /** Characters i..j of s are "(", at least one character other than ")",
      and the closing ")". */
  predicate GroupAt(s: string, i: nat, j: nat) {
    i + 1 < j < |s| && s[i] == '(' && s[j] == ')' && forall k :: i < k < j ==> s[k] != ')'
  }

  /** The first ")" at or after `from`. */
  function CloseFrom(s: string, from: nat): (r: Option<nat>)
    ensures r.Some? ==> from <= r.value < |s| && s[r.value] == ')'
    ensures r.Some? ==> forall k :: from <= k < r.value ==> s[k] != ')'
    ensures r.None? ==> forall k :: from <= k < |s| ==> s[k] != ')'
    decreases |s| - from
  {
    if from >= |s| then None else if s[from] == ')' then Some(from) else CloseFrom(s, from + 1)
  }

  /** The leftmost match at or after `from`, as its two parenthesis indices. */
  function GroupFrom(s: string, from: nat): (r: Option<(nat, nat)>)
    ensures r.Some? ==> from <= r.value.0 && GroupAt(s, r.value.0, r.value.1)
    ensures r.Some? ==> forall i, j :: from <= i < r.value.0 ==> !GroupAt(s, i, j)
    ensures r.None? ==> forall i, j :: from <= i ==> !GroupAt(s, i, j)
    decreases |s| - from
  {
    if from >= |s| then None
    else
      var close := CloseFrom(s, from + 1);
      if s[from] == '(' && close.Some? && close.value > from + 1 then Some((from, close.value))
      else GroupFrom(s, from + 1)
  }

  /** The whole matched text, parentheses included. */
  function PositionGroup(line: string): (r: Option<string>)
    ensures r.Some? ==> |r.value| >= 3 && r.value[0] == '(' && r.value[|r.value| - 1] == ')'
    ensures r.None? <==> forall i, j :: !GroupAt(line, i, j)
  {
    match GroupFrom(line, 0)
    case None => None
    case Some((i, j)) => Some(line[i..j + 1])
  }

  /** The tokens before the first one holding a "(": the loop
      `for part in parts: if "(" not in part: ... else: break`. */
  function TokensBeforeParen(tokens: seq<string>): (r: seq<string>)
    ensures |r| <= |tokens| && r == tokens[..|r|]
    ensures forall k :: 0 <= k < |r| ==> '(' !in r[k]
    ensures |r| < |tokens| ==> '(' in tokens[|r|]
  {
    if tokens == [] || '(' in tokens[0] then [] else [tokens[0]] + TokensBeforeParen(tokens[1..])
  }

  // ---------------------------------------------------------------------
  // Words and substrings

  predicate Word(w: string) {
    w != [] && forall k :: 0 <= k < |w| ==> !IsSpace(w[k])
  }

  lemma {:induction false} WordsAreWords(s: string)
    ensures forall i :: 0 <= i < |Words(s)| ==> Word(Words(s)[i])
    decreases |s|
  {
    if s != [] {
      if IsSpace(s[0]) {
        WordsAreWords(s[1..]);
      } else {
        var w := WordPrefix(s);
        WordsAreWords(s[|w|..]);
        assert Words(s) == [w] + Words(s[|w|..]);
      }
    }
  }

  lemma {:induction false} WordPrefixOf(w: string, tail: string)
    requires Word(w) && (tail == [] || IsSpace(tail[0]))
    ensures WordPrefix(w + tail) == w
  {
    var s := w + tail;
    if |w| > 1 {
      assert s[1..] == w[1..] + tail;
      WordPrefixOf(w[1..], tail);
    }
  }

  /** Joining words with single spaces and splitting at whitespace gives the
      words back. */
  lemma {:induction false} WordsOfJoin(ws: seq<string>)
    requires forall i :: 0 <= i < |ws| ==> Word(ws[i])
    ensures Words(Join(ws, " ")) == ws
  {
    if |ws| == 1 {
      WordPrefixOf(ws[0], []);
      assert ws[0] + [] == ws[0];
    } else if |ws| > 1 {
      var rest := Join(ws[1..], " ");
      var s := ws[0] + (" " + rest);
      assert Join(ws, " ") == s;
      WordPrefixOf(ws[0], " " + rest);
      assert s[|ws[0]|..] == " " + rest;
      assert (" " + rest)[1..] == rest;
      WordsOfJoin(ws[1..]);
    }
  }

  lemma ContainsWithin(s: string, a: nat, b: nat, sub: string)
    requires a <= b <= |s| && Contains(s[a..b], sub)
    ensures Contains(s, sub)
  {
    var i: nat :| i <= |s[a..b]| && OccursAt(s[a..b], sub, i);
    forall k | 0 <= k < |sub|
      ensures sub[k] == s[a + i + k]
    {
      assert sub[k] == s[a..b][i..i + |sub|][k] == s[a..b][i + k];
    }
    assert s[a + i..a + i + |sub|] == sub;
    assert OccursAt(s, sub, a + i);
  }

  /** Whatever occurs in `Strip(s)` occurs in `s`. */
  lemma StripWithin(s: string, sub: string)
    ensures Contains(Strip(s), sub) ==> Contains(s, sub)
  {
    var t := TrimStart(s);
    var r := TrimEnd(t);
    var a := |s| - |t|;
    assert r == s[a..a + |r|];
    if Contains(r, sub) {
      ContainsWithin(s, a, a + |r|, sub);
    }
  }

  lemma ContainsInSuffix(a: string, b: string, sub: string)
    requires Contains(b, sub)
    ensures Contains(a + b, sub)
  {
    assert (a + b)[|a|..|a + b|] == b;
    ContainsWithin(a + b, |a|, |a + b|, sub);
  }

  lemma SplitFirstLacks(s: string, sep: string)
    requires sep != []
    ensures !Contains(Split(s, sep)[0], sep)
    ensures StartsWith(s, Split(s, sep)[0])
    ensures |Split(s, sep)| >= 2 <==> Contains(s, sep)
  {
    match Find(s, sep)
    case None =>
    case Some(i) =>
      NothingBeforeFirst(s, sep, i);
  }

  // ---------------------------------------------------------------------
  // Component and power-symbol items

  /** The line format `_parse_component_simple`: reference, type, value
      tokens and a "(x, y)" group; every failure is None. */
  function ComponentLine(line: string): (r: Option<Component>)
    ensures |Words(line)| < 3 ==> r.None?
    ensures PositionGroup(line).None? ==> r.None?
    ensures r.Some? ==> r.value.reference == Words(line)[0] && r.value.componentType == Lower(Words(line)[1])
    ensures r.Some? ==> (r.value.symbolLibrary, r.value.symbolName) == SymbolFor(r.value.componentType)
  {
    var parts := Words(line);
    if |parts| < 3 then None
    else
      match PositionGroup(line)
      case None => None
      case Some(group) =>
        match ParsePosition(group)
        case None => None
        case Some(p) =>
          var t := Lower(parts[1]);
          var symbol := SymbolFor(t);
          Some(Component(parts[0], t, Join(TokensBeforeParen(parts[2..]), " "), p, symbol.0, symbol.1))
  }

  /** The value of a line-format component is made of the tokens after the
      type up to the first one holding "(". */
  lemma ComponentLineValue(line: string)
    requires ComponentLine(line).Some?
    ensures Words(ComponentLine(line).value.value) == TokensBeforeParen(Words(line)[2..])
  {
    var parts := Words(line);
    WordsAreWords(line);
    var value := TokensBeforeParen(parts[2..]);
    assert forall i :: 0 <= i < |value| ==> value[i] == parts[2 + i];
    WordsOfJoin(value);
  }

  /** The line format `_parse_power_symbol_simple`: reference, type tokens
      and a "(x, y)" group. */
  function PowerLine(line: string): (r: Option<PowerSymbol>)
    ensures |Words(line)| < 2 ==> r.None?
    ensures PositionGroup(line).None? ==> r.None?
    ensures r.Some? ==> r.value.reference == Words(line)[0]
  {
    var parts := Words(line);
    if |parts| < 2 then None
    else
      match PositionGroup(line)
      case None => None
      case Some(group) =>
        match ParsePosition(group)
        case None => None
        case Some(p) => Some(PowerSymbol(parts[0], Join(TokensBeforeParen(parts[1..]), " "), p))
  }

  lemma PowerLineType(line: string)
    requires PowerLine(line).Some?
    ensures Words(PowerLine(line).value.powerType) == TokensBeforeParen(Words(line)[1..])
  {
    var parts := Words(line);
    WordsAreWords(line);
    var kind := TokensBeforeParen(parts[1..]);
    assert forall i :: 0 <= i < |kind| ==> kind[i] == parts[1 + i];
    WordsOfJoin(kind);
  }

  /** An item "ref: text at position" of a YAML list: the stripped
      reference, the stripped text before the first " at " and the stripped
      text between it and the next " at ". */
  function AtParts(desc: string): (r: Option<(string, string, string)>)
    ensures !Contains(desc, ":") ==> r.None?
    ensures r.Some? ==> Contains(desc, ":") && Contains(desc, " at ")
    ensures r.Some? ==> !Contains(r.value.1, " at ")
  {
    match SplitOnce(desc, ":")
    case None => None
    case Some((before, after)) =>
      var d := Strip(after);
      SplitFirstLacks(d, " at ");
      if !Contains(d, " at ") then None
      else
        var parts := Split(d, " at ");
        StripWithin(after, " at ");
        ContainsInSuffix(before + ":", after, " at ");
        StripWithin(parts[0], " at ");
        Some((Strip(before), Strip(parts[0]), Strip(parts[1])))
  }

  /** The YAML item format `_parse_component`: None unless the item holds
      ":" and " at ", a first word and a readable position. */
  function ComponentItem(desc: string): (r: Option<Component>)
    ensures r.Some? ==> Contains(desc, ":") && Contains(desc, " at ")
    ensures r.Some? ==> forall k :: 0 <= k < |r.value.componentType| ==> !IsUpperAscii(r.value.componentType[k])
    ensures r.Some? ==> (r.value.symbolLibrary, r.value.symbolName) == SymbolFor(r.value.componentType)
  {
    match AtParts(desc)
    case None => None
    case Some((reference, info, positionText)) => InfoComponent(reference, info, positionText)
  }

  /** The component described by the text before " at ": its first word
      is the type, the other words the value. */
  function InfoComponent(reference: string, info: string, positionText: string): (r: Option<Component>)
    ensures r.Some? ==> forall k :: 0 <= k < |r.value.componentType| ==> !IsUpperAscii(r.value.componentType[k])
    ensures r.Some? ==> (r.value.symbolLibrary, r.value.symbolName) == SymbolFor(r.value.componentType)
  {
    var ws := Words(info);
    if ws == [] then None
    else
      match ParsePosition(positionText)
      case None => None
      case Some(p) =>
        var t := Lower(ws[0]);
        var symbol := SymbolFor(t);
        Some(Component(reference, t, Join(ws[1..], " "), p, symbol.0, symbol.1))
  }

  /** The type of a YAML component is its lower-cased first word and the
      value gives back the remaining words. */
  lemma InfoComponentWords(reference: string, info: string, positionText: string)
    requires InfoComponent(reference, info, positionText).Some?
    ensures Words(info) != [] && ParsePosition(positionText).Some?
    ensures InfoComponent(reference, info, positionText).value.componentType == Lower(Words(info)[0])
    ensures Words(InfoComponent(reference, info, positionText).value.value) == Words(info)[1..]
  {
    WordsAreWords(info);
    WordsOfJoin(Words(info)[1..]);
  }

  /** The YAML item format `_parse_power_symbol`: the text before " at " is
      the power type, kept whole. */
  function PowerItem(desc: string): (r: Option<PowerSymbol>)
    ensures r.Some? ==> Contains(desc, ":") && Contains(desc, " at ")
    ensures r.Some? ==> !Contains(r.value.powerType, " at ")
  {
    match AtParts(desc)
    case None => None
    case Some((reference, powerType, positionText)) =>
      match ParsePosition(positionText)
      case None => None
      case Some(p) => Some(PowerSymbol(reference, powerType, p))
  }

  // ---------------------------------------------------------------------
  // Connections

  const RightArrow := "\U{2192}"
  const AsciiArrow := "->"
  const EmDash := "\U{2014}"

  /** The separator `_parse_connection` splits at: "→" before "->" before
      "—". */
  function Arrow(s: string): (r: Option<string>)
    ensures r.Some? ==> r.value != [] && Contains(s, r.value)
    ensures r.None? <==> !Contains(s, RightArrow) && !Contains(s, AsciiArrow) && !Contains(s, EmDash)
    ensures Contains(s, RightArrow) ==> r == Some(RightArrow)
  {
    if Contains(s, RightArrow) then Some(RightArrow)
    else if Contains(s, AsciiArrow) then Some(AsciiArrow)
    else if Contains(s, EmDash) then Some(EmDash)
    else None
  }

  /** "R1.2" as component "R1" and pin "2"; no "." means no pin, and text
      after a second "." is dropped. */
  function Endpoint(text: string): (r: (string, Option<string>))
    ensures !Contains(r.0, ".")
    ensures r.1.None? <==> !Contains(text, ".")
    ensures r.1.Some? ==> !Contains(r.1.value, ".") && StartsWith(text, r.0 + "." + r.1.value)
  {
    var parts := Split(text, ".");
    SplitFirstLacks(text, ".");
    if |parts| > 1 then
      var i := Find(text, ".").value;
      var rest := text[i + 1..];
      assert parts == [text[..i]] + Split(rest, ".");
      SplitFirstLacks(rest, ".");
      assert text == text[..i] + "." + rest;
      assert StartsWith(text, parts[0] + "." + parts[1]) by {
        assert rest[..|parts[1]|] == parts[1];
        assert text[..|parts[0] + "." + parts[1]|] == parts[0] + "." + parts[1];
      }
      (parts[0], Some(parts[1]))
    else (parts[0], None)
  }

  lemma SingleCharFirst(s: string, prefix: string, c: char)
    requires |prefix| <= |s| && s[..|prefix|] == prefix && c !in prefix
    ensures forall k: nat :: k < |prefix| ==> !OccursAt(s, [c], k)
  {
    forall k: nat | k < |prefix|
      ensures !OccursAt(s, [c], k)
    {
      assert s[k] == prefix[k];
      assert s[k..k + 1][0] == s[k];
    }
  }

  /** Endpoints read back the "component.pin" or "component" they are
      given. */
  lemma EndpointRoundTrip(component: string, pin: string)
    requires '.' !in component && '.' !in pin
    ensures Endpoint(component + "." + pin) == (component, Some(pin))
    ensures Endpoint(component) == (component, None)
  {
    var s := component + "." + pin;
    SingleCharFirst(s, component, '.');
    assert OccursAt(s, ".", |component|);
    assert Find(s, ".") == Some(|component|);
    assert s[..|component|] == component && s[|component| + 1..] == pin;
    NoCharNoOccurrence(pin, '.');
    NoCharNoOccurrence(component, '.');
    SplitWithout(pin, ".");
    assert Split(s, ".") == [component, pin];
  }

  /** `_parse_connection`: split once at the chosen arrow, strip both sides
      and read each as an endpoint. */
  function ParseConnection(s: string): (r: Option<Connection>)
    ensures r.None? <==> Arrow(s).None?
    ensures r.Some? ==> !Contains(r.value.startComponent, ".") && !Contains(r.value.endComponent, ".")
  {
    match Arrow(s)
    case None => None
    case Some(arrow) =>
      var (before, after) := SplitOnce(s, arrow).value;
      var start := Endpoint(Strip(before));
      var end := Endpoint(Strip(after));
      Some(Connection(start.0, start.1, end.0, end.1))
  }

  /** Without a "→", the text before the first "->" is the start and the
      rest is the end. */
  lemma ConnectionRoundTrip(x: string, y: string)
    requires '\U{2192}' !in x && '\U{2192}' !in y && !Contains(x, AsciiArrow)
    ensures ParseConnection(x + AsciiArrow + y) ==
      Some(Connection(Endpoint(Strip(x)).0, Endpoint(Strip(x)).1, Endpoint(Strip(y)).0, Endpoint(Strip(y)).1))
  {
    var s := x + AsciiArrow + y;
    assert '\U{2192}' !in s;
    NoCharNoOccurrence(s, '\U{2192}');
    assert OccursAt(s, AsciiArrow, |x|);
    forall k: nat | k < |x|
      ensures !OccursAt(s, AsciiArrow, k)
    {
      if k + 2 <= |x| {
        assert s[k..k + 2] == x[k..k + 2];
        assert !OccursAt(x, AsciiArrow, k);
      } else {
        assert s[k + 1] == '-';
      }
    }
    assert Find(s, AsciiArrow) == Some(|x|);
    assert s[..|x|] == x && s[|x| + 2..] == y;
  }

  // ---------------------------------------------------------------------
  // The line format: `parse_simple_text`

  datatype Section = NoSection | ComponentsSection | PowerSection | ConnectionsSection

  /** The loop variables of `parse_simple_text`. */
  datatype TextState = TextState(name: string, section: Section, components: seq<Component>,
                                 powerSymbols: seq<PowerSymbol>, connections: seq<Connection>)

  const UntitledCircuit := "Untitled Circuit"
  const Initial := TextState(UntitledCircuit, NoSection, [], [], [])

  /** "components:", "power:" or "connections:" in any letter case. */
  function HeaderSection(line: string): (r: Option<Section>)
    ensures r.Some? ==> r.value != NoSection
    ensures r.Some? ==> Lower(line) in {"components:", "power:", "connections:"}
  {
    var l := Lower(line);
    if l == "components:" then Some(ComponentsSection)
    else if l == "power:" then Some(PowerSection)
    else if l == "connections:" then Some(ConnectionsSection)
    else None
  }

  /** `line.split(":", 1)[1].strip().strip("\"'")`; a circuit line without
      ":" has no second piece, which Python reports as an IndexError. */
  function CircuitLineName(line: string): (r: Option<string>)
    ensures r.None? <==> !Contains(line, ":")
    ensures r.Some? ==> r.value == [] || (r.value[0] !in {'"', '\''} && r.value[|r.value| - 1] !in {'"', '\''})
  {
    match SplitOnce(line, ":")
    case None => None
    case Some((_, after)) => Some(StripChars(Strip(after), {'"', '\''}))
  }

  function TotalItems(st: TextState): nat {
    |st.components| + |st.powerSymbols| + |st.connections|
  }

  /** The item lists of `b` extend those of `a` by at most one item in all. */
  predicate Grows(a: TextState, b: TextState) {
    a.components <= b.components && a.powerSymbols <= b.powerSymbols && a.connections <= b.connections
    && TotalItems(b) <= TotalItems(a) + 1
  }

  /** One iteration of the loop over lines; None is the IndexError a
      "circuit" line without ":" raises. */
  function Step(st: TextState, raw: string): (r: Option<TextState>)
    ensures r.None? <==> StartsWith(Strip(raw), "circuit") && !Contains(Strip(raw), ":")
    ensures r.Some? ==> Grows(st, r.value)
    ensures r.Some? && st.section == NoSection && HeaderSection(Strip(raw)).None? ==>
      r.value.section == NoSection && TotalItems(r.value) == TotalItems(st)
  {
    var line := Strip(raw);
    if line == [] || StartsWith(line, "#") then Some(st)
    else if StartsWith(line, "circuit") then
      match CircuitLineName(line)
      case None => None
      case Some(n) => Some(st.(name := n))
    else if HeaderSection(line).Some? then Some(st.(section := HeaderSection(line).value))
    else Some(SectionItem(st, line))
  }

  /** A line inside a section adds the item it reads to that section's
      list; an unreadable line, or one outside any section, adds nothing. */
  function SectionItem(st: TextState, line: string): (r: TextState)
    ensures Grows(st, r) && r.name == st.name && r.section == st.section
    ensures st.section == NoSection ==> r == st
    ensures r.components == st.components || (ComponentLine(line).Some? && r.components == st.components + [ComponentLine(line).value])
  {
    match st.section
    case NoSection => st
    case ComponentsSection =>
      (match ComponentLine(line)
       case None => st
       case Some(c) => st.(components := st.components + [c]))
    case PowerSection =>
      (match PowerLine(line)
       case None => st
       case Some(p) => st.(powerSymbols := st.powerSymbols + [p]))
    case ConnectionsSection =>
      (match ParseConnection(line)
       case None => st
       case Some(c) => st.(connections := st.connections + [c]))
  }

  /** The loop state after the given lines, or None once a line failed. */
  function TextFold(lines: seq<string>): Option<TextState> {
    if lines == [] then Some(Initial)
    else
      match TextFold(lines[..|lines| - 1])
      case None => None
      case Some(st) => Step(st, lines[|lines| - 1])
  }

  function TextLines(text: string): seq<string> {
    Split(Strip(text), "\n")
  }

  function ParsedText(text: string): Option<Circuit> {
    match TextFold(TextLines(text))
    case None => None
    case Some(st) => Some(Circuit(st.name, st.components, st.powerSymbols, st.connections))
  }

  /** A failed line fails the whole text. */
  lemma {:induction false} FailureStays(lines: seq<string>, n: nat)
    requires n <= |lines| && TextFold(lines[..n]).None?
    ensures TextFold(lines).None?
    decreases |lines| - n
  {
    if n == |lines| {
      assert lines[..n] == lines;
    } else {
      assert lines[..n + 1][..n] == lines[..n];
      FailureStays(lines, n + 1);
    }
  }

  /** One pass of the loop body of `parse_simple_text`. */
  method ReadLine(st: TextState, raw: string) returns (next: Option<TextState>)
    ensures next == Step(st, raw)
  {
    var line := Strip(raw);
    next := Some(st);
    if line == [] || StartsWith(line, "#") {
      return;
    }
    if StartsWith(line, "circuit") {
      var n := CircuitLineName(line);
      if n.None? {
        return None;
      }
      return Some(st.(name := n.value));
    }
    var header := HeaderSection(line);
    if header.Some? {
      return Some(st.(section := header.value));
    }
    match st.section {
      case NoSection =>
      case ComponentsSection =>
        var c := ComponentLine(line);
        if c.Some? {
          next := Some(st.(components := st.components + [c.value]));
        }
      case PowerSection =>
        var p := PowerLine(line);
        if p.Some? {
          next := Some(st.(powerSymbols := st.powerSymbols + [p.value]));
        }
      case ConnectionsSection =>
        var c := ParseConnection(line);
        if c.Some? {
          next := Some(st.(connections := st.connections + [c.value]));
        }
    }
  }

  /** `parse_simple_text`: the loop over the stripped text's lines. */
  method ParseSimpleText(text: string) returns (r: Option<Circuit>)
    ensures r == ParsedText(text)
  {
    var folded := ReadLines(TextLines(text));
    if folded.None? {
      return None;
    }
    var st := folded.value;
    r := Some(Circuit(st.name, st.components, st.powerSymbols, st.connections));
  }

  /** The loop over lines of `parse_simple_text`, stopping at a failed line. */
  method ReadLines(lines: seq<string>) returns (r: Option<TextState>)
    ensures r == TextFold(lines)
  {
    var st := Initial;
    for i := 0 to |lines|
      invariant TextFold(lines[..i]) == Some(st)
    {
      var next := ReadLine(st, lines[i]);
      FoldNext(lines, i, st);
      if next.None? {
        FailureStays(lines, i + 1);
        return None;
      }
      st := next.value;
    }
    assert lines[..|lines|] == lines;
    r := Some(st);
  }

  lemma FoldNext(lines: seq<string>, i: nat, st: TextState)
    requires i < |lines| && TextFold(lines[..i]) == Some(st)
    ensures TextFold(lines[..i + 1]) == Step(st, lines[i])
  {
    assert lines[..i + 1][..i] == lines[..i];
  }

  /** Each line adds at most one item. */
  lemma {:induction false} ItemsBoundedByLines(lines: seq<string>)
    requires TextFold(lines).Some?
    ensures TotalItems(TextFold(lines).value) <= |lines|
  {
    if lines != [] {
      ItemsBoundedByLines(lines[..|lines| - 1]);
    }
  }

  /** Lines before the first section header add nothing. */
  lemma {:induction false} NothingBeforeHeader(lines: seq<string>)
    requires forall i :: 0 <= i < |lines| ==> HeaderSection(Strip(lines[i])).None?
    requires TextFold(lines).Some?
    ensures TextFold(lines).value.section == NoSection
    ensures TotalItems(TextFold(lines).value) == 0
  {
    if lines != [] {
      var init := lines[..|lines| - 1];
      assert forall i :: 0 <= i < |init| ==> init[i] == lines[i];
      NothingBeforeHeader(init);
    }
  }

  /** Every component comes from some line of the text: unreadable lines
      are dropped, nothing is invented. */
  lemma {:induction false} ComponentsFromLines(lines: seq<string>)
    requires TextFold(lines).Some?
    ensures forall c :: c in TextFold(lines).value.components ==>
      exists i :: 0 <= i < |lines| && ComponentLine(Strip(lines[i])) == Some(c)
  {
    if lines != [] {
      var init := lines[..|lines| - 1];
      ComponentsFromLines(init);
      var before := TextFold(init).value;
      var after := TextFold(lines).value;
      forall c | c in after.components
        ensures exists i :: 0 <= i < |lines| && ComponentLine(Strip(lines[i])) == Some(c)
      {
        StepComponents(before, lines[|lines| - 1], c);
        if c in before.components {
          var i :| 0 <= i < |init| && ComponentLine(Strip(init[i])) == Some(c);
          assert lines[i] == init[i];
        }
      }
    }
  }

  /** A component after one line was there before or is that line's parse. */
  lemma StepComponents(st: TextState, raw: string, c: Component)
    requires Step(st, raw).Some? && c in Step(st, raw).value.components
    ensures c in st.components || ComponentLine(Strip(raw)) == Some(c)
  {
    var line := Strip(raw);
    if !(line == [] || StartsWith(line, "#") || StartsWith(line, "circuit") || HeaderSection(line).Some?) {
      var r := SectionItem(st, line);
      assert Step(st, raw) == Some(r);
      if c !in st.components {
        assert ComponentLine(line).Some? && r.components == st.components + [ComponentLine(line).value];
      }
    }
  }

  lemma EmptyTextLines()
    ensures TextLines("") == [""]
  {
    assert Strip("") == "";
    assert !OccursAt("", "\n", 0);
    SplitWithout("", "\n");
  }

  lemma BlankLineKeeps(st: TextState)
    ensures Step(st, "") == Some(st)
  {
    assert Strip("") == "";
  }

  /** An empty description is an untitled circuit with nothing in it. */
  lemma EmptyText()
    ensures ParsedText("") == Some(Circuit(UntitledCircuit, [], [], []))
  {
    EmptyTextLines();
    assert [""][..0] == [];
    BlankLineKeeps(Initial);
    assert TextFold([""]) == Some(Initial);
  }

  // ---------------------------------------------------------------------
  // YAML circuits, after `yaml.safe_load`

  /** A list item: a one-line string, or the mapping YAML makes of
      "R1: resistor ..." (keys and values as their text). */
  datatype YamlItem = MappingItem(entries: seq<(string, string)>) | TextItem(text: string)

  /** A section of the circuit mapping: missing, a list, or present with a
      null value. */
  datatype YamlList<T> = Absent | Listed(items: seq<T>) | NullList

  datatype YamlBody = YamlBody(components: YamlList<YamlItem>, power: YamlList<YamlItem>, connections: YamlList<string>)

  /** The loaded document: a mapping whose first key names the circuit and
      whose value is the circuit body (None when null), or anything else. */
  datatype YamlDocument = YamlMapping(entries: seq<(string, Option<YamlBody>)>) | NotAMapping

  datatype Outcome = Parsed(circuit: Circuit) | Failed(message: string)

  const YamlErrorPrefix := "Error parsing YAML circuit: "

  /** The circuit name of the first key: X for `circuit "X"` or `circuit X`,
      otherwise the key itself. */
  function CircuitName(key: string): (r: string)
    ensures StartsWith(key, "circuit \"") && EndsWith(key, "\"") && |key| >= 10 ==> key == "circuit \"" + r + "\""
    ensures !(StartsWith(key, "circuit \"") && EndsWith(key, "\"")) && StartsWith(key, "circuit ") ==> key == "circuit " + r
    ensures !StartsWith(key, "circuit ") ==> r == key
  {
    if StartsWith(key, "circuit \"") && EndsWith(key, "\"") then
      (if |key| >= 10 then key[9..|key| - 1] else "")
    else if StartsWith(key, "circuit ") then key[8..]
    else key
  }

  /** The descriptions a list of items hands to the item parser in order: a
      mapping entry (ref, desc) as "ref: desc", a string as itself. */
  function ItemTexts(items: seq<YamlItem>): (r: seq<string>)
    ensures items == [] ==> r == []
  {
    if items == [] then []
    else ItemTexts(items[..|items| - 1]) + ItemText(items[|items| - 1])
  }

  function ItemText(item: YamlItem): seq<string> {
    match item
    case MappingItem(entries) => EntryTexts(entries)
    case TextItem(text) => [text]
  }

  function EntryTexts(entries: seq<(string, string)>): (r: seq<string>)
    ensures |r| == |entries|
  {
    if entries == [] then []
    else EntryTexts(entries[..|entries| - 1]) + [entries[|entries| - 1].0 + ": " + entries[|entries| - 1].1]
  }

  /** The results of `parse` that are not None, in order. */
  function Kept<T>(texts: seq<string>, parse: string -> Option<T>): (r: seq<T>)
    ensures |r| <= |texts|
  {
    if texts == [] then []
    else
      var init := Kept(texts[..|texts| - 1], parse);
      match parse(texts[|texts| - 1])
      case None => init
      case Some(x) => init + [x]
  }

  /** Everything kept is the parse of one of the texts. */
  lemma {:induction false} KeptFromTexts<T>(texts: seq<string>, parse: string -> Option<T>, x: T)
    requires x in Kept(texts, parse)
    ensures exists i :: 0 <= i < |texts| && parse(texts[i]) == Some(x)
  {
    var init := texts[..|texts| - 1];
    if x in Kept(init, parse) {
      KeptFromTexts(init, parse, x);
      var i :| 0 <= i < |init| && parse(init[i]) == Some(x);
      assert texts[i] == init[i];
    } else {
      assert parse(texts[|texts| - 1]) == Some(x);
    }
  }

  /** The loop over a list of items, appending what parses. */
  method CollectItems<T>(items: seq<YamlItem>, parse: string -> Option<T>) returns (r: seq<T>)
    ensures r == Kept(ItemTexts(items), parse)
  {
    r := [];
    for i := 0 to |items|
      invariant r == Kept(ItemTexts(items[..i]), parse)
    {
      assert items[..i + 1][..i] == items[..i];
      var before := ItemTexts(items[..i]);
      assert ItemTexts(items[..i + 1]) == before + ItemText(items[i]);
      match items[i] {
        case TextItem(text) =>
          KeptSnoc(before, text, parse);
          var x := parse(text);
          if x.Some? {
            r := r + [x.value];
          }
        case MappingItem(entries) =>
          r := CollectEntries(before, r, entries, parse);
      }
    }
    assert items[..|items|] == items;
  }

  /** The inner loop over a mapping's entries, each read as "ref: text". */
  method CollectEntries<T>(before: seq<string>, kept: seq<T>, entries: seq<(string, string)>, parse: string -> Option<T>)
    returns (r: seq<T>)
    requires kept == Kept(before, parse)
    ensures r == Kept(before + EntryTexts(entries), parse)
  {
    r := kept;
    assert before + EntryTexts(entries[..0]) == before;
    for j := 0 to |entries|
      invariant r == Kept(before + EntryTexts(entries[..j]), parse)
    {
      assert entries[..j + 1][..j] == entries[..j];
      var (reference, desc) := entries[j];
      var text := reference + ": " + desc;
      var done := before + EntryTexts(entries[..j]);
      assert before + EntryTexts(entries[..j + 1]) == done + [text];
      KeptSnoc(done, text, parse);
      var x := parse(text);
      if x.Some? {
        r := r + [x.value];
      }
    }
    assert entries[..|entries|] == entries;
  }

  lemma KeptSnoc<T>(texts: seq<string>, text: string, parse: string -> Option<T>)
    ensures Kept(texts + [text], parse) ==
      if parse(text).Some? then Kept(texts, parse) + [parse(text).value] else Kept(texts, parse)
  {
    assert (texts + [text])[..|texts|] == texts;
  }

  /** The loop over the connection strings. */
  method CollectTexts<T>(texts: seq<string>, parse: string -> Option<T>) returns (r: seq<T>)
    ensures r == Kept(texts, parse)
  {
    r := [];
    for i := 0 to |texts|
      invariant r == Kept(texts[..i], parse)
    {
      assert texts[..i + 1][..i] == texts[..i];
      var x := parse(texts[i]);
      if x.Some? {
        r := r + [x.value];
      }
    }
    assert texts[..|texts|] == texts;
  }

  function ListItems<T>(l: YamlList<T>): seq<T> {
    if l.Listed? then l.items else []
  }

  /** What `parse_yaml_circuit` returns or raises for a loaded document. */
  function YamlCircuit(doc: YamlDocument): (r: Outcome)
    ensures r.Failed? ==> StartsWith(r.message, YamlErrorPrefix)
    ensures r.Failed? <==> (doc.NotAMapping? || doc.entries == [] || doc.entries[0].1.None?
                            || doc.entries[0].1.value.components.NullList? || doc.entries[0].1.value.power.NullList?
                            || doc.entries[0].1.value.connections.NullList?)
  {
    if doc.NotAMapping? then Failed(YamlErrorPrefix + "the document is not a mapping")
    else if doc.entries == [] then Failed(YamlErrorPrefix + "list index out of range")
    else
      var (key, body) := doc.entries[0];
      if body.None? then Failed(YamlErrorPrefix + "argument of type 'NoneType' is not iterable")
      else
        var b := body.value;
        if b.components.NullList? || b.power.NullList? || b.connections.NullList? then
          Failed(YamlErrorPrefix + "'NoneType' object is not iterable")
        else
          Parsed(Circuit(CircuitName(key), Kept(ItemTexts(ListItems(b.components)), ComponentItem),
                         Kept(ItemTexts(ListItems(b.power)), PowerItem),
                         Kept(ListItems(b.connections), ParseConnection)))
  }

  /** `parse_yaml_circuit` from the loaded document on. */
  method ParseYamlCircuit(doc: YamlDocument) returns (r: Outcome)
    ensures r == YamlCircuit(doc)
  {
    if doc.NotAMapping? {
      return Failed(YamlErrorPrefix + "the document is not a mapping");
    }
    if doc.entries == [] {
      return Failed(YamlErrorPrefix + "list index out of range");
    }
    var (key, body) := doc.entries[0];
    var name := CircuitName(key);
    if body.None? {
      return Failed(YamlErrorPrefix + "argument of type 'NoneType' is not iterable");
    }
    var b := body.value;
    if b.components.NullList? || b.power.NullList? || b.connections.NullList? {
      return Failed(YamlErrorPrefix + "'NoneType' object is not iterable");
    }
    var components := CollectItems(ListItems(b.components), ComponentItem);
    var powerSymbols := CollectItems(ListItems(b.power), PowerItem);
    var connections := CollectTexts(ListItems(b.connections), ParseConnection);
    r := Parsed(Circuit(name, components, powerSymbols, connections));
  }

  /** A YAML component is the parse of one of the item descriptions of the
      components section. */
  lemma YamlComponentsFromItems(doc: YamlDocument, c: Component)
    requires YamlCircuit(doc).Parsed? && c in YamlCircuit(doc).circuit.components
    ensures exists desc :: desc in ItemTexts(ListItems(doc.entries[0].1.value.components)) && ComponentItem(desc) == Some(c)
  {
    var texts := ItemTexts(ListItems(doc.entries[0].1.value.components));
    KeptFromTexts(texts, ComponentItem, c);
    var i :| 0 <= i < |texts| && ComponentItem(texts[i]) == Some(c);
    assert texts[i] in texts;
  }

  // ---------------------------------------------------------------------
  // The validation summary of `create_circuit_from_text`

  /** One warning per empty list, in the order components, power symbols,
      connections. */
  function Warnings(c: Circuit): (r: seq<string>)
    ensures |r| == (if c.components == [] then 1 else 0) + (if c.powerSymbols == [] then 1 else 0)
                   + (if c.connections == [] then 1 else 0)
    ensures "No components defined" in r <==> c.components == []
    ensures "No power symbols defined" in r <==> c.powerSymbols == []
    ensures "No connections defined" in r <==> c.connections == []
  {
    (if c.components == [] then ["No components defined"] else [])
    + (if c.powerSymbols == [] then ["No power symbols defined"] else [])
    + (if c.connections == [] then ["No connections defined"] else [])
  }

  datatype Report =
    | Validated(circuitName: string, componentCount: nat, powerSymbolCount: nat, connectionCount: nat,
                connections: seq<string>, warnings: seq<string>)
    | Invalid(error: string)

  /** The circuit parsed in the requested format: "yaml" in any letter case
      reads the loaded document, anything else the line format, where a
      failed line is Python's IndexError. */
  function CircuitOutcome(formatType: string, description: string, loaded: YamlDocument): (r: Outcome)
    ensures Lower(formatType) == "yaml" ==> r == YamlCircuit(loaded)
    ensures Lower(formatType) != "yaml" ==> (r.Parsed? <==> ParsedText(description).Some?)
  {
    if Lower(formatType) == "yaml" then YamlCircuit(loaded)
    else
      match ParsedText(description)
      case None => Failed("list index out of range")
      case Some(c) => Parsed(c)
  }

  /** The summary of a parse: counts, "start -> end" per connection and the
      warnings, or the error. */
  function ValidationReport(o: Outcome): (r: Report)
    ensures r.Invalid? <==> o.Failed?
    ensures o.Parsed? ==> r.componentCount == |o.circuit.components| && r.connectionCount == |o.circuit.connections|
    ensures o.Parsed? ==> r.warnings == Warnings(o.circuit) && |r.connections| == |o.circuit.connections|
    ensures o.Parsed? ==> (r.warnings == [] <==> (o.circuit.components != [] && o.circuit.powerSymbols != []
                                                   && o.circuit.connections != []))
  {
    match o
    case Failed(message) => Invalid(message)
    case Parsed(c) =>
      Validated(c.name, |c.components|, |c.powerSymbols|, |c.connections|,
                seq(|c.connections|, i requires 0 <= i < |c.connections| =>
                  c.connections[i].startComponent + " -> " + c.connections[i].endComponent),
                Warnings(c))
  }
}
