/** The fixed symbol table, footprint suggestions for a symbol name, and the
    square grid that places a list of symbols. */
module SymbolUtils {
  import opened Common
  import ComponentLayout

  /** One entry of the common-symbol table. */
  datatype SymbolInfo = SymbolInfo(library: string, symbol: string, defaultValue: string, description: string)

  /** `get_common_symbols`: symbol kind to its library placement. */
  function CommonSymbols(): (t: Dict<string, SymbolInfo>)
    ensures |t| == 12
  {
    [ ("resistor", SymbolInfo("Device", "R", "10k", "Basic resistor")),
      ("capacitor", SymbolInfo("Device", "C", "100nF", "Basic capacitor")),
      ("inductor", SymbolInfo("Device", "L", "10uH", "Basic inductor")),
      ("vcc", SymbolInfo("power", "VCC", "VCC", "VCC power rail")),
      ("gnd", SymbolInfo("power", "GND", "GND", "Ground symbol")),
      ("+5v", SymbolInfo("power", "+5V", "+5V", "+5V power rail")),
      ("+3v3", SymbolInfo("power", "+3V3", "+3V3", "+3.3V power rail")),
      ("led", SymbolInfo("Device", "LED", "LED", "Light emitting diode")),
      ("diode", SymbolInfo("Device", "D", "1N4007", "Basic diode")),
      ("opamp", SymbolInfo("Amplifier_Operational", "LM358", "LM358", "Dual operational amplifier")),
      ("conn_2pin", SymbolInfo("Connector", "Conn_01x02_Male", "Conn_2Pin", "2-pin connector")),
      ("conn_header", SymbolInfo("Connector_Generic", "Conn_01x04", "Header_4Pin", "4-pin header")) ]
  }

  predicate Filled(info: SymbolInfo) {
    info.library != [] && info.symbol != [] && info.defaultValue != [] && info.description != []
  }

  /** Every common symbol carries a library, a symbol name, a default value
      and a description, none of them empty. */
  lemma CommonSymbolsFilled()
    ensures forall k :: 0 <= k < |CommonSymbols()| ==> Filled(CommonSymbols()[k].1)
  {
    var t := CommonSymbols();
    forall k | 0 <= k < |t|
      ensures Filled(t[k].1)
    {
      assert t[k].1.library != [] by { assert |t[k].1.library| > 0; }
    }
  }

  // ---------------------------------------------------------------------------
  // Footprint suggestions

  /** The symbol-name to footprint table of `suggest_footprint_for_symbol`. */
  function FootprintMappings(): (m: Dict<string, seq<string>>)
    ensures Keys(m) == ["R", "C", "L", "LED", "D"]
  {
    [ ("R", ["Resistor_SMD:R_0805_2012Metric",
             "Resistor_SMD:R_0603_1608Metric",
             "Resistor_THT:R_Axial_DIN0207_L6.3mm_D2.5mm_P10.16mm_Horizontal"]),
      ("C", ["Capacitor_SMD:C_0805_2012Metric",
             "Capacitor_SMD:C_0603_1608Metric",
             "Capacitor_THT:C_Disc_D5.0mm_W2.5mm_P5.00mm"]),
      ("L", ["Inductor_SMD:L_0805_2012Metric",
             "Inductor_THT:L_Axial_L5.3mm_D2.2mm_P10.16mm_Horizontal"]),
      ("LED", ["LED_SMD:LED_0805_2012Metric", "LED_THT:LED_D5.0mm"]),
      ("D", ["Diode_SMD:D_SOD-123", "Diode_THT:D_DO-35_SOD27_P7.62mm_Horizontal"]) ]
  }

  /** The mapping entry for a symbol name, or nothing when it is unmapped. */
  function MappedFootprints(name: string): seq<string> {
    match Lookup(FootprintMappings(), name)
    case Some(fs) => fs
    case None => []
  }

  /** A suggestion matches a lower-cased hint when its lower-cased text contains it. */
  predicate MatchesHint(suggestion: string, hintLower: string) {
    Contains(Lower(suggestion), hintLower)
  }

  /** The suggestions that match the hint, in their original order. */
  function HintFilter(xs: seq<string>, hintLower: string): (r: seq<string>)
    ensures |r| <= |xs|
  {
    if xs == [] then []
    else
      var last := xs[|xs| - 1];
      HintFilter(xs[..|xs| - 1], hintLower) + (if MatchesHint(last, hintLower) then [last] else [])
  }

  /** What `suggest_footprint_for_symbol` returns; the library is not consulted. */
  function Suggestions(library: string, name: string, hint: string): seq<string> {
    var base := MappedFootprints(name);
    if hint == [] then base
    else
      var filtered := HintFilter(base, Lower(hint));
      if filtered != [] then filtered else base
  }

  /** `suggest_footprint_for_symbol`: the mapping entry, narrowed to the
      entries that mention the hint when at least one does. */
  method SuggestFootprintForSymbol(library: string, name: string, hint: string) returns (suggestions: seq<string>)
    ensures suggestions == Suggestions(library, name, hint)
  {
    suggestions := MappedFootprints(name);
    if hint != [] {
      var filtered := FilterByHint(suggestions, Lower(hint));
      if filtered != [] {
        suggestions := filtered;
      }
    }
  }

  /** The loop of `suggest_footprint_for_symbol` that collects the entries
      mentioning the lower-cased hint. */
  method FilterByHint(suggestions: seq<string>, hintLower: string) returns (filtered: seq<string>)
    ensures filtered == HintFilter(suggestions, hintLower)
  {
    filtered := [];
    var i := 0;
    while i < |suggestions|
      invariant 0 <= i <= |suggestions|
      invariant filtered == HintFilter(suggestions[..i], hintLower)
    {
      assert suggestions[..i + 1][..i] == suggestions[..i];
      if MatchesHint(suggestions[i], hintLower) {
        filtered := filtered + [suggestions[i]];
      }
      i := i + 1;
    }
    assert suggestions[..|suggestions|] == suggestions;
  }

  /** `a` is `b` with some entries dropped and the rest kept in order. */
  predicate SubSequence(a: seq<string>, b: seq<string>)
    decreases |b|
  {
    if a == [] then true
    else if b == [] then false
    else
      (a[|a| - 1] == b[|b| - 1] && SubSequence(a[..|a| - 1], b[..|b| - 1]))
      || SubSequence(a, b[..|b| - 1])
  }

  lemma {:induction false} SubSequenceRefl(a: seq<string>)
    ensures SubSequence(a, a)
    decreases |a|
  {
    if a != [] {
      SubSequenceRefl(a[..|a| - 1]);
    }
  }

  /** The filter keeps an order-preserving selection of its input. */
  lemma {:induction false} HintFilterIsSubSequence(xs: seq<string>, hintLower: string)
    ensures SubSequence(HintFilter(xs, hintLower), xs)
    decreases |xs|
  {
    if xs != [] {
      var init := xs[..|xs| - 1];
      var last := xs[|xs| - 1];
      HintFilterIsSubSequence(init, hintLower);
      var r := HintFilter(xs, hintLower);
      if MatchesHint(last, hintLower) {
        assert r[..|r| - 1] == HintFilter(init, hintLower);
        assert r[|r| - 1] == last;
      } else {
        assert r == HintFilter(init, hintLower);
      }
    }
  }

  /** An entry survives the filter exactly when it is an input entry matching the hint. */
  lemma {:induction false} HintFilterMembers(xs: seq<string>, hintLower: string, s: string)
    ensures s in HintFilter(xs, hintLower) <==> s in xs && MatchesHint(s, hintLower)
    decreases |xs|
  {
    if xs != [] {
      var init := xs[..|xs| - 1];
      HintFilterMembers(init, hintLower, s);
      assert xs == init + [xs[|xs| - 1]];
    }
  }

  /** The filter is empty exactly when no entry matches. */
  lemma HintFilterEmpty(xs: seq<string>, hintLower: string)
    ensures HintFilter(xs, hintLower) == [] <==> forall s :: s in xs ==> !MatchesHint(s, hintLower)
  {
    forall s | s in xs
      ensures s in HintFilter(xs, hintLower) <==> MatchesHint(s, hintLower)
    {
      HintFilterMembers(xs, hintLower, s);
    }
    if HintFilter(xs, hintLower) != [] {
      var s := HintFilter(xs, hintLower)[0];
      HintFilterMembers(xs, hintLower, s);
    }
  }

  /** An unmapped symbol name gets no suggestions, whatever the library and hint. */
  lemma UnmappedGetsNothing(library: string, name: string, hint: string)
    requires name !in Keys(FootprintMappings())
    ensures Suggestions(library, name, hint) == []
  {
  }

  /** The suggestions are always an order-preserving selection of the mapping
      entry; with a hint that some entry matches they are exactly the matching
      entries, and otherwise they are the whole entry. */
  lemma SuggestionsShape(library: string, name: string, hint: string)
    ensures SubSequence(Suggestions(library, name, hint), MappedFootprints(name))
    ensures hint != [] && (exists s :: s in MappedFootprints(name) && MatchesHint(s, Lower(hint))) ==>
      forall s :: s in Suggestions(library, name, hint) <==> s in MappedFootprints(name) && MatchesHint(s, Lower(hint))
    ensures hint == [] || (forall s :: s in MappedFootprints(name) ==> !MatchesHint(s, Lower(hint))) ==>
      Suggestions(library, name, hint) == MappedFootprints(name)
  {
    var base := MappedFootprints(name);
    SubSequenceRefl(base);
    if hint != [] {
      var h := Lower(hint);
      HintFilterIsSubSequence(base, h);
      HintFilterEmpty(base, h);
      forall s
        ensures s in HintFilter(base, h) <==> s in base && MatchesHint(s, h)
      {
        HintFilterMembers(base, h, s);
      }
    }
  }

  // ---------------------------------------------------------------------------
  // Placement grid

  /** The i-th grid position: column i mod g, row i div g, `spacing` apart. */
  function GridPosition(startX: real, startY: real, spacing: real, g: nat, i: nat): (real, real)
    requires g > 0
  {
    (startX + (i % g) as real * spacing, startY + (i / g) as real * spacing)
  }

  /** `create_symbol_placement_grid`: one position per component on a square
      grid with ceil(sqrt(n)) columns. */
  method CreateSymbolPlacementGrid(startX: real, startY: real, spacing: real, components: seq<string>)
    returns (positions: seq<(real, real)>)
    ensures |positions| == |components|
    ensures components != [] ==> ComponentLayout.CeilSqrt(|components|) > 0
    ensures forall i :: 0 <= i < |positions| ==>
      positions[i] == GridPosition(startX, startY, spacing, ComponentLayout.CeilSqrt(|components|), i)
  {
    positions := [];
    var gridSize := ComponentLayout.CeilSqrt(|components|);
    var i := 0;
    while i < |components|
      invariant 0 <= i <= |components|
      invariant |positions| == i
      invariant forall k :: 0 <= k < i ==> positions[k] == GridPosition(startX, startY, spacing, gridSize, k)
    {
      var row := i / gridSize;
      var col := i % gridSize;
      assert gridSize > 0;
      assert GridPosition(startX, startY, spacing, gridSize, i).0 == startX + (col as real) * spacing;
      assert GridPosition(startX, startY, spacing, gridSize, i).1 == startY + (row as real) * spacing;
      positions := positions + [(startX + (col as real) * spacing, startY + (row as real) * spacing)];
      i := i + 1;
    }
  }

  /** With g = ceil(sqrt(n)) every one of the n positions lies inside the
      g-by-g square: its column and its row are both below g. */
  lemma GridFitsSquare(n: nat, i: nat)
    requires i < n
    ensures ComponentLayout.CeilSqrt(n) > 0
    ensures i % ComponentLayout.CeilSqrt(n) < ComponentLayout.CeilSqrt(n)
    ensures i / ComponentLayout.CeilSqrt(n) < ComponentLayout.CeilSqrt(n)
  {
    var g := ComponentLayout.CeilSqrt(n);
    ComponentLayout.CeilSqrtIsCeiling(n);
    assert g * (i / g) <= i;
    QuotientBelow(g, i / g, i);
  }

  lemma QuotientBelow(g: nat, q: nat, i: nat)
    requires g * q <= i < g * g
    ensures q < g
  {
  }

  /** With nonzero spacing no two components share a position. */
  lemma GridPositionsDistinct(startX: real, startY: real, spacing: real, g: nat, i: nat, j: nat)
    requires g > 0 && spacing != 0.0 && i != j
    ensures GridPosition(startX, startY, spacing, g, i) != GridPosition(startX, startY, spacing, g, j)
  {
    if i % g != j % g {
      ScaleInjective((i % g) as real, (j % g) as real, spacing);
    } else {
      assert i / g != j / g by {
        assert i == g * (i / g) + i % g;
        assert j == g * (j / g) + j % g;
      }
      ScaleInjective((i / g) as real, (j / g) as real, spacing);
    }
  }

  lemma ScaleInjective(a: real, b: real, s: real)
    requires s != 0.0 && a != b
    ensures a * s != b * s
  {
    assert a * s - b * s == (a - b) * s;
  }
}
