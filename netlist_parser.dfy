/** Netlist extraction: the parenthesis-depth scan that cuts an
    S-expression out of schematic text, the nets `SchematicParser` builds
    from global labels and power symbols, the netlist of a JSON schematic,
    and the counting analysis of a netlist. The regular expressions that
    find match starts and read components, wires and labels are not part
    of this model: their results are parameters. */
module NetlistParsing {
  import opened Common

  // ---------------------------------------------------------------------
  // Parenthesis depth

  function Delta(c: char): int {
    if c == '(' then 1 else if c == ')' then -1 else 0
  }

  /** Opening minus closing parentheses; quoted ones count like any other. */
  function Depth(s: string): int {
    if s == [] then 0 else Depth(s[..|s| - 1]) + Delta(s[|s| - 1])
  }

  lemma DepthSnoc(content: string, pos: nat, k: nat)
    requires pos <= k < |content|
    ensures Depth(content[pos..k + 1]) == Depth(content[pos..k]) + Delta(content[k])
  {
    assert content[pos..k + 1][..k - pos] == content[pos..k];
  }

  /** The text from `pos` up to index `j` ends in a ")" that brings the
      depth back to 0. */
  predicate CloseAt(content: string, pos: nat, j: nat) {
    pos < j <= |content| && content[j - 1] == ')' && Depth(content[pos..j]) == 0
  }

  /** The scan of `_extract_s_expressions` from index k with the depth so far. */
  function ScanEnd(content: string, pos: nat, k: nat, depth: int): nat
    requires pos <= k <= |content|
    decreases |content| - k
  {
    if k == |content| then k
    else
      var d := depth + Delta(content[k]);
      if content[k] == ')' && d == 0 then k + 1 else ScanEnd(content, pos, k + 1, d)
  }

  lemma {:induction false} ScanEndCloses(content: string, pos: nat, k: nat, depth: int)
    requires pos <= k <= |content| && depth == Depth(content[pos..k])
    requires forall j :: pos < j <= k ==> !CloseAt(content, pos, j)
    ensures k <= ScanEnd(content, pos, k, depth) <= |content|
    ensures ScanEnd(content, pos, k, depth) == |content| || CloseAt(content, pos, ScanEnd(content, pos, k, depth))
    ensures forall j :: pos < j < ScanEnd(content, pos, k, depth) ==> !CloseAt(content, pos, j)
    decreases |content| - k
  {
    if k < |content| {
      DepthSnoc(content, pos, k);
      var d := depth + Delta(content[k]);
      if !(content[k] == ')' && d == 0) {
        ScanEndCloses(content, pos, k + 1, d);
      }
    }
  }

  /** Where the S-expression starting at `pos` ends: just after the first
      ")" that returns the depth to 0, or the end of the text. */
  function SExprEnd(content: string, pos: nat): (e: nat)
    requires pos <= |content|
    ensures pos <= e <= |content|
    ensures e == |content| || CloseAt(content, pos, e)
    ensures forall j :: pos < j < e ==> !CloseAt(content, pos, j)
  {
    ScanEndCloses(content, pos, pos, 0);
    ScanEnd(content, pos, pos, 0)
  }

  /** The string cut out at a match start; nothing past the end. */
  function SExprAt(content: string, pos: nat): (r: string)
    ensures pos <= |content| ==> r == content[pos..SExprEnd(content, pos)]
    ensures pos > |content| ==> r == []
  {
    if pos > |content| then [] else content[pos..SExprEnd(content, pos)]
  }

  /** From an opening parenthesis every proper prefix of the cut is still
      open, and a closed cut ends in ")" with equal counts. */
  lemma {:induction false} OpenUntilEnd(content: string, pos: nat)
    requires pos < |content| && content[pos] == '('
    ensures forall j :: pos < j < SExprEnd(content, pos) ==> Depth(content[pos..j]) > 0
    ensures SExprEnd(content, pos) < |content| ==> Depth(SExprAt(content, pos)) == 0
  {
    var e := SExprEnd(content, pos);
    assert content[pos..pos + 1] == [content[pos]];
    assert Depth(content[pos..pos + 1]) == 1;
    var j := pos + 1;
    while j + 1 < e
      invariant pos + 1 <= j && (j < e || j == pos + 1)
      invariant forall i :: pos < i <= j && i < e ==> Depth(content[pos..i]) > 0
    {
      DepthSnoc(content, pos, j);
      assert !CloseAt(content, pos, j + 1);
      j := j + 1;
    }
  }

  /** Parentheses inside a quoted string close the cut all the same. */
  lemma QuotedParenthesisCounts()
    ensures SExprAt("(a \")\" b)", 0) == "(a \")"
  {
    var s := "(a \")\" b)";
    assert s[0..0] == [];
    DepthSnoc(s, 0, 0);
    DepthSnoc(s, 0, 1);
    DepthSnoc(s, 0, 2);
    DepthSnoc(s, 0, 3);
    DepthSnoc(s, 0, 4);
    assert Depth(s[0..5]) == 0;
    assert CloseAt(s, 0, 5);
    forall j | 0 < j < 5
      ensures !CloseAt(s, 0, j)
    {
      assert s[j - 1] != ')';
    }
  }

  // ---------------------------------------------------------------------
  // Netlists

  /** One pin on a net. */
  datatype NetPin = NetPin(component: string, pin: string, uuid: string)

  type Nets = Dict<string, seq<NetPin>>

  datatype NetComponent = NetComponent(libId: string, reference: string, value: string, uuid: string,
                                       position: (real, real, real), properties: Dict<string, string>)

  /** The result dictionary: components by key, nets by name, wire uuids,
      power-symbol types, the two counts, and the error of a failed
      extraction. */
  datatype NetlistResult = NetlistResult(components: Dict<string, NetComponent>, nets: Nets, wires: seq<string>,
                                         powerSymbols: seq<string>, componentCount: nat, netCount: nat,
                                         error: Option<string>)

  /** Sum of `f` over the values of a dictionary. */
  function SumBy<K, V>(d: Dict<K, V>, f: V -> nat): nat {
    if d == [] then 0 else SumBy(d[..|d| - 1], f) + f(d[|d| - 1].1)
  }

  function Size(pins: seq<NetPin>): nat { |pins| }

  lemma {:induction false} SumByPut<K, V>(d: Dict<K, V>, k: K, v: V, f: V -> nat)
    ensures SumBy(Put(d, k, v), f) + (match Lookup(d, k) case Some(prev) => f(prev) case None => 0) == SumBy(d, f) + f(v)
  {
    if d == [] {
      assert Put(d, k, v)[..0] == [];
    } else if d[0].0 == k {
      SumByFront(d, f);
      SumByFront(Put(d, k, v), f);
      assert Put(d, k, v)[1..] == d[1..];
    } else {
      SumByPut(d[1..], k, v, f);
      SumByFront(d, f);
      SumByFront(Put(d, k, v), f);
      assert Put(d, k, v)[1..] == Put(d[1..], k, v);
    }
  }

  lemma {:induction false} SumByFront<K, V>(d: Dict<K, V>, f: V -> nat)
    requires d != []
    ensures SumBy(d, f) == f(d[0].1) + SumBy(d[1..], f)
    decreases |d|
  {
    if |d| > 1 {
      SumByFront(d[..|d| - 1], f);
      assert d[..|d| - 1][1..] == d[1..][..|d| - 2];
    } else {
      assert d[..0] == [] && d[1..] == [];
    }
  }

  // ---------------------------------------------------------------------
  // `_build_netlist`

  /** Every global label becomes a net, reset to empty. */
  function LabelNets(nets: Nets, labels: seq<string>): Nets {
    if labels == [] then nets else Put(LabelNets(nets, labels[..|labels| - 1]), labels[|labels| - 1], [])
  }

  /** Every power type becomes an empty net unless the net exists. */
  function PowerTypeNets(nets: Nets, types: seq<string>): Nets {
    if types == [] then nets
    else
      var before := PowerTypeNets(nets, types[..|types| - 1]);
      if types[|types| - 1] in Keys(before) then before else Put(before, types[|types| - 1], [])
  }

  lemma {:induction false} LabelNetsSpec(nets: Nets, labels: seq<string>)
    ensures forall l :: l in labels ==> Lookup(LabelNets(nets, labels), l) == Some([])
    ensures forall k :: k !in labels ==> Lookup(LabelNets(nets, labels), k) == Lookup(nets, k)
    ensures Distinct(Keys(nets)) ==> Distinct(Keys(LabelNets(nets, labels)))
  {
    if labels != [] {
      var init := labels[..|labels| - 1];
      var l := labels[|labels| - 1];
      LabelNetsSpec(nets, init);
      forall k
        ensures Lookup(LabelNets(nets, labels), k) == if k == l then Some([]) else Lookup(LabelNets(nets, init), k)
      {
        LookupPut(LabelNets(nets, init), l, [], k);
      }
      assert labels == init + [l];
      if Distinct(Keys(nets)) {
        PutKeepsDistinctKeys(LabelNets(nets, init), l, []);
      }
    }
  }

  lemma {:induction false} PowerTypeNetsSpec(nets: Nets, types: seq<string>)
    ensures forall t :: t in types ==> t in Keys(PowerTypeNets(nets, types))
    ensures forall k :: k in Keys(nets) ==> Lookup(PowerTypeNets(nets, types), k) == Lookup(nets, k)
    ensures forall k :: k !in types ==> Lookup(PowerTypeNets(nets, types), k) == Lookup(nets, k)
    ensures forall k :: k in types && k !in Keys(nets) ==> Lookup(PowerTypeNets(nets, types), k) == Some([])
    ensures Distinct(Keys(nets)) ==> Distinct(Keys(PowerTypeNets(nets, types)))
  {
    if types != [] {
      var init := types[..|types| - 1];
      var t := types[|types| - 1];
      var before := PowerTypeNets(nets, init);
      PowerTypeNetsSpec(nets, init);
      assert types == init + [t];
      if t !in Keys(before) {
        forall k
          ensures Lookup(PowerTypeNets(nets, types), k) == if k == t then Some([]) else Lookup(before, k)
        {
          LookupPut(before, t, [], k);
        }
        if Distinct(Keys(nets)) {
          PutKeepsDistinctKeys(before, t, []);
        }
      }
    }
  }

  /** The regular-expression extractors' findings: each component read from
      a symbol expression with its Reference property when it has one, wire
      uuids, global-label texts and power types. */
  datatype Extracted = Extracted(components: seq<(Option<string>, NetComponent)>, wires: seq<string>,
                                 globalLabels: seq<string>, powerTypes: seq<string>)

  /** The key of a component read from text: its reference, or "Unknown". */
  function InfoKey(c: (Option<string>, NetComponent)): (k: string)
    ensures c.0.None? ==> k == "Unknown"
    ensures c.0.Some? ==> k == c.0.value
  {
    OrElse(c.0, "Unknown")
  }

  /** `component_info[ref] = component` over the extracted components. */
  function ComponentInfo(components: seq<(Option<string>, NetComponent)>): (r: Dict<string, NetComponent>)
    ensures Distinct(Keys(r)) && |r| <= |components|
  {
    if components == [] then []
    else
      var before := ComponentInfo(components[..|components| - 1]);
      var c := components[|components| - 1];
      PutKeepsDistinctKeys(before, InfoKey(c), c.1);
      Put(before, InfoKey(c), c.1)
  }

  function InfoKeys(components: seq<(Option<string>, NetComponent)>): (r: seq<string>)
    ensures |r| == |components| && forall i :: 0 <= i < |components| ==> r[i] == InfoKey(components[i])
  {
    seq(|components|, i requires 0 <= i < |components| => InfoKey(components[i]))
  }

  /** The component dictionary has one key per distinct reference. */
  lemma {:induction false} ComponentInfoKeys(components: seq<(Option<string>, NetComponent)>)
    ensures forall k :: k in Keys(ComponentInfo(components)) <==> k in InfoKeys(components)
  {
    if components != [] {
      var init := components[..|components| - 1];
      ComponentInfoKeys(init);
      assert InfoKeys(components) == InfoKeys(init) + [InfoKey(components[|components| - 1])];
    }
  }

  /** A later component with the same key replaces an earlier one: each key
      maps to the last component that has it. */
  lemma {:induction false} ComponentInfoLast(components: seq<(Option<string>, NetComponent)>, i: nat)
    requires i < |components|
    requires forall j :: i < j < |components| ==> InfoKey(components[j]) != InfoKey(components[i])
    ensures Lookup(ComponentInfo(components), InfoKey(components[i])) == Some(components[i].1)
  {
    var init := components[..|components| - 1];
    var c := components[|components| - 1];
    LookupPut(ComponentInfo(init), InfoKey(c), c.1, InfoKey(components[i]));
    if i < |components| - 1 {
      assert components[i] == init[i];
      ComponentInfoLast(init, i);
    }
  }

  /** The result of `SchematicParser.parse` for what the extractors found. */
  function SexprResult(x: Extracted): (r: NetlistResult)
    ensures r.componentCount == |r.components| && r.netCount == |r.nets| && r.error.None?
  {
    var info := ComponentInfo(x.components);
    var nets := PowerTypeNets(LabelNets([], x.globalLabels), x.powerTypes);
    NetlistResult(info, nets, x.wires, x.powerTypes, |info|, |nets|, None)
  }

  /** A schematic parsed from text has a net per global label and power
      type, none with a pin, and no net name twice. */
  lemma SexprNets(x: Extracted)
    ensures forall n :: n in x.globalLabels || n in x.powerTypes ==> Lookup(SexprResult(x).nets, n) == Some([])
    ensures forall n :: n in Keys(SexprResult(x).nets) ==> n in x.globalLabels || n in x.powerTypes
    ensures Distinct(Keys(SexprResult(x).nets))
  {
    var labelled := LabelNets([], x.globalLabels);
    LabelNetsSpec([], x.globalLabels);
    PowerTypeNetsSpec(labelled, x.powerTypes);
    forall n | n !in x.globalLabels && n !in x.powerTypes
      ensures n !in Keys(SexprResult(x).nets)
    {
      assert Lookup(SexprResult(x).nets, n) == Lookup(labelled, n) == Lookup([], n);
    }
    forall n | n in x.globalLabels || n in x.powerTypes
      ensures Lookup(SexprResult(x).nets, n) == Some([])
    {
      if n in x.globalLabels {
        assert Lookup(labelled, n) == Some([]);
      } else {
        assert Lookup(labelled, n) == None;
      }
    }
  }

  class SchematicParser {
    var content: string
    var componentInfo: Dict<string, NetComponent>
    var wires: seq<string>
    var globalLabels: seq<string>
    var powerTypes: seq<string>
    var nets: Nets

    ghost predicate Valid()
      reads this
    {
      Distinct(Keys(nets)) && Distinct(Keys(componentInfo))
    }

    /** The file content is a parameter: reading it is not modelled. */
    constructor (text: string)
      ensures content == text && componentInfo == [] && wires == [] && globalLabels == [] && powerTypes == []
      ensures nets == []
      ensures Valid()
    {
      content := text;
      componentInfo := [];
      wires := [];
      globalLabels := [];
      powerTypes := [];
      nets := [];
    }

    /** `_extract_s_expressions`: one string per match start, cut where the
        depth first returns to 0. */
    method ExtractSExpressions(starts: seq<nat>) returns (matches: seq<string>)
      ensures |matches| == |starts|
      ensures forall i :: 0 <= i < |starts| ==> matches[i] == SExprAt(content, starts[i])
    {
      matches := [];
      for i := 0 to |starts|
        invariant |matches| == i
        invariant forall k :: 0 <= k < i ==> matches[k] == SExprAt(content, starts[k])
      {
        var e := Cut(starts[i]);
        matches := matches + [e];
      }
    }

    /** The inner loop of `_extract_s_expressions` from one match start. */
    method Cut(pos: nat) returns (sExp: string)
      ensures sExp == SExprAt(content, pos)
    {
      sExp := [];
      if pos > |content| {
        return;
      }
      var current := pos;
      var depth := 0;
      var closed := false;
      while current < |content| && !closed
        invariant pos <= current <= |content|
        invariant !closed ==> sExp == content[pos..current] && depth == Depth(sExp)
        invariant !closed ==> forall j :: pos < j <= current ==> !CloseAt(content, pos, j)
        invariant closed ==> current < |content| && sExp == content[pos..current + 1] && CloseAt(content, pos, current + 1)
        invariant closed ==> forall j :: pos < j <= current ==> !CloseAt(content, pos, j)
        decreases |content| - current, if closed then 0 else 1
      {
        var c := content[current];
        DepthSnoc(content, pos, current);
        sExp := sExp + [c];
        assert sExp == content[pos..current + 1];
        if c == '(' {
          depth := depth + 1;
        } else if c == ')' {
          depth := depth - 1;
          if depth == 0 {
            closed := true;
          }
        }
        if !closed {
          current := current + 1;
        }
      }
    }

    /** `_build_netlist`: a net per global label, reset to empty, then a net
        per power type that has none yet. */
    method BuildNetlist()
      requires Valid()
      modifies this
      ensures Valid()
      ensures nets == PowerTypeNets(LabelNets(old(nets), globalLabels), powerTypes)
      ensures content == old(content) && componentInfo == old(componentInfo) && wires == old(wires)
      ensures globalLabels == old(globalLabels) && powerTypes == old(powerTypes)
    {
      ghost var start := nets;
      var labels, types, current := globalLabels, powerTypes, nets;
      for i := 0 to |labels|
        invariant current == LabelNets(start, labels[..i])
      {
        assert labels[..i + 1][..i] == labels[..i];
        current := Put(current, labels[i], []);
      }
      assert labels[..|labels|] == labels;
      ghost var labelled := current;
      for i := 0 to |types|
        invariant current == PowerTypeNets(labelled, types[..i])
      {
        assert types[..i + 1][..i] == types[..i];
        if types[i] !in Keys(current) {
          current := Put(current, types[i], []);
        }
      }
      assert types[..|types|] == types;
      nets := current;
      LabelNetsSpec(start, globalLabels);
      PowerTypeNetsSpec(labelled, powerTypes);
    }

    /** `parse` on a freshly loaded file, with the extractors' findings
        given: the component dictionary, then the nets. */
    method Parse(x: Extracted) returns (result: NetlistResult)
      requires Valid() && nets == []
      modifies this
      ensures Valid()
      ensures result == SexprResult(x)
    {
      var info := [];
      for i := 0 to |x.components|
        invariant info == ComponentInfo(x.components[..i])
      {
        assert x.components[..i + 1][..i] == x.components[..i];
        var c := x.components[i];
        info := Put(info, InfoKey(c), c.1);
      }
      assert x.components[..|x.components|] == x.components;
      componentInfo := info;
      wires := x.wires;
      globalLabels := x.globalLabels;
      powerTypes := x.powerTypes;
      BuildNetlist();
      result := NetlistResult(componentInfo, nets, wires, powerTypes, |componentInfo|, |nets|, None);
    }
  }

  // ---------------------------------------------------------------------
  // `parse_json_schematic`

  /** A position given as a mapping or as a list. */
  datatype PosData = PosDict(x: Option<real>, y: Option<real>, angle: Option<real>) | PosList(coords: seq<real>)

  /** One entry of an old-format `property` array. */
  datatype JsonProperty = JsonProperty(name: Option<string>, value: Option<string>)

  /** A symbol of a JSON schematic; absent keys are `None`. */
  datatype JsonSymbol = JsonSymbol(libId: Option<string>, uuid: Option<string>, position: Option<PosData>,
                                   at: Option<PosData>, properties: Option<Dict<string, string>>,
                                   reference: Option<string>, value: Option<string>,
                                   property: seq<JsonProperty>)

  /** A wire: its uuid if it has one and the number of its points. */
  datatype JsonWire = JsonWire(uuid: Option<string>, points: nat)

  /** The keys of a JSON schematic that the parser reads; an absent `wire`
      key is an empty list. */
  datatype JsonSchematic = JsonSchematic(components: Option<seq<JsonSymbol>>, symbol: Option<seq<JsonSymbol>>,
                                         wire: seq<JsonWire>)

  /** `components`, else `symbol`, else nothing. */
  function Symbols(data: JsonSchematic): (r: seq<JsonSymbol>)
    ensures data.components.Some? ==> r == data.components.value
    ensures data.components.None? && data.symbol.None? ==> r == []
  {
    match data.components
    case Some(cs) => cs
    case None => OrElse(data.symbol, [])
  }

  function Nth(coords: seq<real>, i: nat): real {
    if i < |coords| then coords[i] else 0.0
  }

  /** `position`, else `at`, else the origin, as (x, y, angle). */
  function Coordinates(s: JsonSymbol): (r: (real, real, real))
    ensures s.position.None? && s.at.None? ==> r == (0.0, 0.0, 0.0)
  {
    var data := if s.position.Some? then s.position.value else if s.at.Some? then s.at.value else PosList([0.0, 0.0, 0.0]);
    match data
    case PosDict(x, y, angle) => (OrElse(x, 0.0), OrElse(y, 0.0), OrElse(angle, 0.0))
    case PosList(coords) => (Nth(coords, 0), Nth(coords, 1), Nth(coords, 2))
  }

  /** Reference, value and property dictionary of a symbol as the property
      array is read. */
  datatype Props = Props(reference: string, value: string, properties: Dict<string, string>)

  function NameOf(p: JsonProperty): string { OrElse(p.name, "") }
  function ValueOf(p: JsonProperty): string { OrElse(p.value, "") }

  /** The top-level fields, before the property array. */
  function InitialProps(s: JsonSymbol): Props {
    Props(OrElse(s.reference, "Unknown"), OrElse(s.value, ""), OrElse(s.properties, []))
  }

  function ApplyProperty(acc: Props, p: JsonProperty): Props {
    var name, v := NameOf(p), ValueOf(p);
    if name == "Reference" then acc.(reference := v)
    else if name == "Value" then acc.(value := v)
    else if name == "Footprint" then acc.(properties := Put(acc.properties, "footprint", v))
    else if name == "Datasheet" then acc.(properties := Put(acc.properties, "datasheet", v))
    else acc.(properties := Put(acc.properties, name, v))
  }

  function ApplyProperties(acc: Props, props: seq<JsonProperty>): Props {
    if props == [] then acc else ApplyProperty(ApplyProperties(acc, props[..|props| - 1]), props[|props| - 1])
  }

  /** The reference or the value, as `field` names. */
  function Field(r: Props, field: string): string {
    if field == "Reference" then r.reference else r.value
  }

  /** The last `Reference` entry of the property array overrides the
      top-level reference, and the last `Value` entry the value; without
      such an entry the top-level field stays. */
  lemma {:induction false} LastPropertyWins(acc: Props, props: seq<JsonProperty>, field: string)
    requires field == "Reference" || field == "Value"
    ensures (forall i :: 0 <= i < |props| ==> NameOf(props[i]) != field) ==>
              Field(ApplyProperties(acc, props), field) == Field(acc, field)
    ensures forall i :: 0 <= i < |props| && NameOf(props[i]) == field && (forall j :: i < j < |props| ==> NameOf(props[j]) != field)
              ==> Field(ApplyProperties(acc, props), field) == ValueOf(props[i])
  {
    if forall i :: 0 <= i < |props| ==> NameOf(props[i]) != field {
      AbsentFieldKept(acc, props, field);
    }
    forall i | 0 <= i < |props| && NameOf(props[i]) == field && (forall j :: i < j < |props| ==> NameOf(props[j]) != field)
      ensures Field(ApplyProperties(acc, props), field) == ValueOf(props[i])
    {
      LastOccurrenceWins(acc, props, field, i);
    }
  }

  lemma {:induction false} AbsentFieldKept(acc: Props, props: seq<JsonProperty>, field: string)
    requires field == "Reference" || field == "Value"
    requires forall i :: 0 <= i < |props| ==> NameOf(props[i]) != field
    ensures Field(ApplyProperties(acc, props), field) == Field(acc, field)
  {
    if props != [] {
      var init := props[..|props| - 1];
      var before: Props := ApplyProperties(acc, init);
      assert forall i :: 0 <= i < |init| ==> init[i] == props[i];
      AbsentFieldKept(acc, init, field);
      FieldStep(before, props[|props| - 1], field);
    }
  }

  lemma {:induction false} LastOccurrenceWins(acc: Props, props: seq<JsonProperty>, field: string, i: nat)
    requires field == "Reference" || field == "Value"
    requires i < |props| && NameOf(props[i]) == field
    requires forall j :: i < j < |props| ==> NameOf(props[j]) != field
    ensures Field(ApplyProperties(acc, props), field) == ValueOf(props[i])
  {
    var init := props[..|props| - 1];
    var before: Props := ApplyProperties(acc, init);
    FieldStep(before, props[|props| - 1], field);
    if i < |props| - 1 {
      assert init[i] == props[i];
      assert forall j :: i < j < |init| ==> init[j] == props[j];
      LastOccurrenceWins(acc, init, field, i);
    }
  }

  /** One property entry sets the field it names and no other. */
  lemma FieldStep(acc: Props, p: JsonProperty, field: string)
    requires field == "Reference" || field == "Value"
    ensures Field(ApplyProperty(acc, p), field) == if NameOf(p) == field then ValueOf(p) else Field(acc, field)
  {
  }

  /** The loop over the old-format property array. */
  method ReadProperties(s: JsonSymbol) returns (p: Props)
    ensures p == ApplyProperties(InitialProps(s), s.property)
  {
    p := InitialProps(s);
    for i := 0 to |s.property|
      invariant p == ApplyProperties(InitialProps(s), s.property[..i])
    {
      assert s.property[..i + 1][..i] == s.property[..i];
      var name, v := NameOf(s.property[i]), ValueOf(s.property[i]);
      if name == "Reference" {
        p := p.(reference := v);
      } else if name == "Value" {
        p := p.(value := v);
      } else if name == "Footprint" {
        p := p.(properties := Put(p.properties, "footprint", v));
      } else if name == "Datasheet" {
        p := p.(properties := Put(p.properties, "datasheet", v));
      } else {
        p := p.(properties := Put(p.properties, name, v));
      }
    }
    assert s.property[..|s.property|] == s.property;
  }

  /** `uuid[:8]`. */
  function Prefix8(u: string): (r: string)
    ensures |r| <= 8 && r <= u
    ensures |u| >= 8 ==> |r| == 8
  {
    if |u| <= 8 then u else u[..8]
  }

  /** A reference already in use gets the first eight uuid characters. */
  function ComponentKey(components: Dict<string, NetComponent>, reference: string, uuid: string): (k: string)
    ensures reference !in Keys(components) <==> k == reference
  {
    if reference in Keys(components) then reference + "_" + Prefix8(uuid) else reference
  }

  const PowerPrefix := "power:"

  /** `lib_id.split(":", 1)[1]` for a `power:` lib_id. */
  function PowerType(libId: string): (t: string)
    requires StartsWith(libId, PowerPrefix)
    ensures libId == PowerPrefix + t
  {
    libId[|PowerPrefix|..]
  }

  /** `nets[name].append(pin)` on a default-list dictionary. */
  function AddPin(nets: Nets, name: string, pin: NetPin): (r: Nets)
    ensures Lookup(r, name) == Some(OrElse(Lookup(nets, name), []) + [pin])
  {
    LookupPut(nets, name, OrElse(Lookup(nets, name), []) + [pin], name);
    Put(nets, name, OrElse(Lookup(nets, name), []) + [pin])
  }

  datatype JsonState = JsonState(components: Dict<string, NetComponent>, nets: Nets)

  function SymbolComponent(s: JsonSymbol, p: Props): NetComponent {
    NetComponent(OrElse(s.libId, ""), p.reference, p.value, OrElse(s.uuid, ""), Coordinates(s), p.properties)
  }

  /** One symbol: its component under its key, and a pin on its power net
      when it is a power symbol. */
  function SymbolStep(st: JsonState, s: JsonSymbol): JsonState {
    var c := SymbolComponent(s, ApplyProperties(InitialProps(s), s.property));
    var key := ComponentKey(st.components, c.reference, c.uuid);
    var components := Put(st.components, key, c);
    if StartsWith(c.libId, PowerPrefix) then JsonState(components, AddPin(st.nets, PowerType(c.libId), NetPin(key, "1", c.uuid)))
    else JsonState(components, st.nets)
  }

  function SymbolsFold(symbols: seq<JsonSymbol>): JsonState {
    if symbols == [] then JsonState([], []) else SymbolStep(SymbolsFold(symbols[..|symbols| - 1]), symbols[|symbols| - 1])
  }

  /** `Net-` and the first eight characters of the uuid, or of `wire_<i>`. */
  function WireNetName(w: JsonWire, i: nat): string {
    "Net-" + Prefix8(OrElse(w.uuid, "wire_" + NatToString(i)))
  }

  /** A wire with at least two points sets its net to empty. */
  function WiresFold(nets: Nets, wires: seq<JsonWire>): Nets {
    if wires == [] then nets
    else
      var before := WiresFold(nets, wires[..|wires| - 1]);
      var i := |wires| - 1;
      if wires[i].points >= 2 then Put(before, WireNetName(wires[i], i), []) else before
  }

  /** The power-symbol types, one per power component. */
  function PowerTypes(components: seq<NetComponent>): (r: seq<string>)
    ensures |r| <= |components|
  {
    if components == [] then []
    else
      var c := components[|components| - 1];
      PowerTypes(components[..|components| - 1]) + (if StartsWith(c.libId, PowerPrefix) then [PowerType(c.libId)] else [])
  }

  function WireUuids(wires: seq<JsonWire>): (r: seq<string>)
    ensures |r| == |wires| && forall i :: 0 <= i < |wires| ==> r[i] == OrElse(wires[i].uuid, "")
  {
    seq(|wires|, i requires 0 <= i < |wires| => OrElse(wires[i].uuid, ""))
  }

  /** The whole result of `parse_json_schematic`. */
  function JsonNetlist(data: JsonSchematic): (r: NetlistResult)
    ensures r.componentCount == |r.components| && r.netCount == |r.nets| && r.error.None?
    ensures |r.wires| == |data.wire|
  {
    var st := SymbolsFold(Symbols(data));
    var nets := WiresFold(st.nets, data.wire);
    NetlistResult(st.components, nets, WireUuids(data.wire), PowerTypes(Values(st.components)),
                  |st.components|, |nets|, None)
  }

  /** The symbol loop. */
  method CollectSymbols(symbols: seq<JsonSymbol>) returns (st: JsonState)
    ensures st == SymbolsFold(symbols)
  {
    var components: Dict<string, NetComponent> := [];
    var nets: Nets := [];
    for i := 0 to |symbols|
      invariant JsonState(components, nets) == SymbolsFold(symbols[..i])
    {
      assert symbols[..i + 1][..i] == symbols[..i];
      var s := symbols[i];
      var p := ReadProperties(s);
      var c := SymbolComponent(s, p);
      var key := c.reference;
      if key in Keys(components) {
        key := c.reference + "_" + Prefix8(c.uuid);
      }
      components := Put(components, key, c);
      if StartsWith(c.libId, PowerPrefix) {
        var powerType := c.libId[|PowerPrefix|..];
        nets := Put(nets, powerType, OrElse(Lookup(nets, powerType), []) + [NetPin(key, "1", c.uuid)]);
      }
    }
    assert symbols[..|symbols|] == symbols;
    st := JsonState(components, nets);
  }

  /** The wire loop. */
  method CollectWireNets(start: Nets, wires: seq<JsonWire>) returns (nets: Nets)
    ensures nets == WiresFold(start, wires)
  {
    nets := start;
    for i := 0 to |wires|
      invariant nets == WiresFold(start, wires[..i])
    {
      assert wires[..i + 1][..i] == wires[..i];
      if wires[i].points >= 2 {
        var uuid := if wires[i].uuid.Some? then wires[i].uuid.value else "wire_" + NatToString(i);
        nets := Put(nets, "Net-" + Prefix8(uuid), []);
      }
    }
    assert wires[..|wires|] == wires;
  }

  method ParseJsonSchematic(data: JsonSchematic) returns (result: NetlistResult)
    ensures result == JsonNetlist(data)
  {
    var symbols := if data.components.Some? then data.components.value
                   else if data.symbol.Some? then data.symbol.value else [];
    var st := CollectSymbols(symbols);
    var nets := CollectWireNets(st.nets, data.wire);
    var uuids := WireUuids(data.wire);
    result := NetlistResult(st.components, nets, uuids, PowerTypes(Values(st.components)),
                            |st.components|, |nets|, None);
  }

  /** The final reference of a symbol. */
  function ReferenceOf(s: JsonSymbol): string {
    ApplyProperties(InitialProps(s), s.property).reference
  }

  /** The component keys are distinct and there is at most one per symbol. */
  lemma {:induction false} JsonKeysDistinct(symbols: seq<JsonSymbol>)
    ensures Distinct(Keys(SymbolsFold(symbols).components))
    ensures |SymbolsFold(symbols).components| <= |symbols|
    ensures symbols != [] ==> |SymbolsFold(symbols).components| >= 1
  {
    if symbols != [] {
      var st := SymbolsFold(symbols[..|symbols| - 1]);
      var s := symbols[|symbols| - 1];
      var c := SymbolComponent(s, ApplyProperties(InitialProps(s), s.property));
      JsonKeysDistinct(symbols[..|symbols| - 1]);
      PutKeepsDistinctKeys(st.components, ComponentKey(st.components, c.reference, c.uuid), c);
    }
  }

  /** Two symbols with the same reference are both kept: the second under
      the reference followed by "_" and the first eight uuid characters. */
  lemma DuplicateReferenceRenamed(a: JsonSymbol, b: JsonSymbol)
    requires ReferenceOf(a) == ReferenceOf(b)
    ensures var r := ReferenceOf(a);
            Keys(SymbolsFold([a, b]).components) == [r, r + "_" + Prefix8(OrElse(b.uuid, ""))]
  {
    var r := ReferenceOf(a);
    assert [a, b][..1] == [a];
    assert [a][..0] == [];
    assert Keys(SymbolsFold([a]).components) == [r];
    assert r + "_" + Prefix8(OrElse(b.uuid, "")) != r by {
      assert |r + "_" + Prefix8(OrElse(b.uuid, ""))| > |r|;
    }
  }

  /** A third symbol with the same reference whose uuid starts with the same
      eight characters as the second's (two symbols without a uuid, say)
      takes the second's key and replaces it. */
  lemma ThirdDuplicateReplaces(a: JsonSymbol, b: JsonSymbol, c: JsonSymbol)
    requires ReferenceOf(a) == ReferenceOf(b) == ReferenceOf(c)
    requires Prefix8(OrElse(b.uuid, "")) == Prefix8(OrElse(c.uuid, ""))
    ensures Keys(SymbolsFold([a, b, c]).components) == Keys(SymbolsFold([a, b]).components)
    ensures Lookup(SymbolsFold([a, b, c]).components, ReferenceOf(a) + "_" + Prefix8(OrElse(b.uuid, "")))
            == Some(SymbolComponent(c, ApplyProperties(InitialProps(c), c.property)))
  {
    assert [a, b, c][..2] == [a, b];
    DuplicateReferenceRenamed(a, b);
    var ab := SymbolsFold([a, b]).components;
    var key := ReferenceOf(a) + "_" + Prefix8(OrElse(c.uuid, ""));
    assert ab[0].0 != key by {
      assert |key| > |ReferenceOf(a)|;
    }
    assert key in Keys(ab);
    LookupPut(ab, key, SymbolComponent(c, ApplyProperties(InitialProps(c), c.property)), key);
  }

  /** The number of symbols in the list whose lib_id starts with `power:`. */
  function PowerCount(symbols: seq<JsonSymbol>): nat {
    if symbols == [] then 0
    else PowerCount(symbols[..|symbols| - 1]) + (if StartsWith(OrElse(symbols[|symbols| - 1].libId, ""), PowerPrefix) then 1 else 0)
  }

  /** After the symbol loop every power symbol has put exactly one pin on
      a net: the pins add up to the number of power symbols. */
  lemma {:induction false} PowerPinsCounted(symbols: seq<JsonSymbol>)
    ensures SumBy(SymbolsFold(symbols).nets, Size) == PowerCount(symbols)
  {
    if symbols != [] {
      var st := SymbolsFold(symbols[..|symbols| - 1]);
      var s := symbols[|symbols| - 1];
      var c := SymbolComponent(s, ApplyProperties(InitialProps(s), s.property));
      PowerPinsCounted(symbols[..|symbols| - 1]);
      if StartsWith(c.libId, PowerPrefix) {
        var name := PowerType(c.libId);
        var pins := OrElse(Lookup(st.nets, name), []);
        SumByPut(st.nets, name, pins + [NetPin(ComponentKey(st.components, c.reference, c.uuid), "1", c.uuid)], Size);
      }
    }
  }

  /** Every wire with at least two points leaves an empty net under its
      name. */
  lemma {:induction false} WireNetsEmpty(nets: Nets, wires: seq<JsonWire>)
    ensures forall i :: 0 <= i < |wires| && wires[i].points >= 2 ==> Lookup(WiresFold(nets, wires), WireNetName(wires[i], i)) == Some([])
  {
    if wires != [] {
      var init := wires[..|wires| - 1];
      var last := |wires| - 1;
      WireNetsEmpty(nets, init);
      forall i | 0 <= i < |wires| && wires[i].points >= 2
        ensures Lookup(WiresFold(nets, wires), WireNetName(wires[i], i)) == Some([])
      {
        if i < last {
          assert wires[i] == init[i];
        }
        WireNetEmpty(nets, wires, i);
      }
    }
  }

  lemma WireNetEmpty(nets: Nets, wires: seq<JsonWire>, i: nat)
    requires i < |wires| && wires[i].points >= 2
    requires i < |wires| - 1 ==> Lookup(WiresFold(nets, wires[..|wires| - 1]), WireNetName(wires[i], i)) == Some([])
    ensures Lookup(WiresFold(nets, wires), WireNetName(wires[i], i)) == Some([])
  {
    var last := |wires| - 1;
    var before: Nets := WiresFold(nets, wires[..last]);
    var n := WireNetName(wires[i], i);
    var empty: seq<NetPin> := [];
    if wires[last].points >= 2 {
      var k := WireNetName(wires[last], last);
      WiresFoldStep(nets, wires, before, k, empty);
      LookupPut<string, seq<NetPin>>(before, k, empty, n);
    }
  }

  lemma WiresFoldStep(nets: Nets, wires: seq<JsonWire>, before: Nets, k: string, empty: seq<NetPin>)
    requires wires != [] && wires[|wires| - 1].points >= 2
    requires before == WiresFold(nets, wires[..|wires| - 1])
    requires k == WireNetName(wires[|wires| - 1], |wires| - 1) && empty == []
    ensures WiresFold(nets, wires) == Put<string, seq<NetPin>>(before, k, empty)
  {
  }

  /** Wires never add pins. */
  lemma {:induction false} WiresAddNoPins(nets: Nets, wires: seq<JsonWire>)
    ensures SumBy(WiresFold(nets, wires), Size) <= SumBy(nets, Size)
  {
    if wires != [] {
      var last := |wires| - 1;
      WiresAddNoPins(nets, wires[..last]);
      if wires[last].points >= 2 {
        SumByPut(WiresFold(nets, wires[..last]), WireNetName(wires[last], last), [], Size);
      }
    }
  }

  /** A JSON schematic has no more pins on its nets than it has power
      symbols, and exactly as many when no wire has two points. */
  lemma JsonPins(data: JsonSchematic)
    ensures SumBy(JsonNetlist(data).nets, Size) <= PowerCount(Symbols(data))
    ensures (forall w :: w in data.wire ==> w.points < 2) ==> SumBy(JsonNetlist(data).nets, Size) == PowerCount(Symbols(data))
  {
    var st := SymbolsFold(Symbols(data));
    PowerPinsCounted(Symbols(data));
    WiresAddNoPins(st.nets, data.wire);
    if forall w :: w in data.wire ==> w.points < 2 {
      ShortWiresKeepNets(st.nets, data.wire);
    }
  }

  lemma {:induction false} ShortWiresKeepNets(nets: Nets, wires: seq<JsonWire>)
    requires forall w :: w in wires ==> w.points < 2
    ensures WiresFold(nets, wires) == nets
  {
    if wires != [] {
      ShortWiresKeepNets(nets, wires[..|wires| - 1]);
    }
  }

  /** Data with neither a `components` nor a `symbol` key parses to no
      components and only the wire nets. */
  lemma NoSymbolKeys(wires: seq<JsonWire>)
    ensures var r := JsonNetlist(JsonSchematic(None, None, wires));
            r.components == [] && r.componentCount == 0 && r.powerSymbols == [] && r.nets == WiresFold([], wires)
  {
  }

  // ---------------------------------------------------------------------
  // `extract_netlist`

  /** The result for an error: no components, no nets, zero counts. */
  function ErrorResult(message: string): NetlistResult {
    NetlistResult([], [], [], [], 0, 0, Some(message))
  }

  /** Reading the file: its text, or the error message. */
  datatype FileRead = Contents(text: string) | ReadFailure(message: string)

  /** What `json.loads` made of the text: not JSON; an object with its keys
      and the parts the JSON parser reads; a number, boolean or null, with
      its Python type name; or a list or string, with its type name and
      which strings the membership test finds in it (the list's elements,
      the string's substrings). */
  datatype JsonLoad =
    | NotJson
    | JsonObject(keys: set<string>, data: JsonSchematic)
    | JsonScalar(typeName: string)
    | JsonSequence(typeName: string, found: set<string>)

  /** The JSON-format test: a `components` or `symbol` key, or a `version`
      key when the stripped text does not start with "(". */
  predicate JsonDetected(keys: set<string>, text: string) {
    "components" in keys || "symbol" in keys || ("version" in keys && !StartsWith(Strip(text), "("))
  }

  /** The TypeError of `"components" in value` on a number, boolean or null. */
  function NotIterable(typeName: string): string {
    "argument of type '" + typeName + "' is not iterable"
  }

  /** The AttributeError of `json_data.get` on a list or string. */
  function NoGet(typeName: string): string {
    "'" + typeName + "' object has no attribute 'get'"
  }

  /** The JSON reading raises inside the format test or the JSON parser:
      a scalar fails the membership test, and a detected list or string has
      no `get`. */
  predicate JsonRaises(json: JsonLoad, text: string) {
    json.JsonScalar? || (json.JsonSequence? && JsonDetected(json.found, text))
  }

  /** Whether the text is read by the JSON parser. */
  predicate ReadAsJson(json: JsonLoad, text: string) {
    json.JsonObject? && JsonDetected(json.keys, text)
  }

  /** `extract_netlist`, with the file's text, its JSON reading and the
      extractors' findings given. */
  method ExtractNetlist(file: FileRead, json: JsonLoad, x: Extracted) returns (r: NetlistResult)
    ensures file.ReadFailure? ==> r.error == Some(file.message) && r.components == [] && r.nets == []
                                  && r.componentCount == 0 && r.netCount == 0
    ensures file.Contents? && ReadAsJson(json, file.text) ==> r == JsonNetlist(json.data)
    ensures file.Contents? && json.JsonScalar? ==> r == ErrorResult(NotIterable(json.typeName))
    ensures file.Contents? && json.JsonSequence? && JsonDetected(json.found, file.text) ==> r == ErrorResult(NoGet(json.typeName))
    ensures file.Contents? && !ReadAsJson(json, file.text) && !JsonRaises(json, file.text) ==> r == SexprResult(x)
    ensures file.Contents? ==> (r.error.None? <==> !JsonRaises(json, file.text))
  {
    match file
    case ReadFailure(message) =>
      r := ErrorResult(message);
    case Contents(text) =>
      match json
      case JsonScalar(typeName) =>
        r := ErrorResult(NotIterable(typeName));
      case JsonSequence(typeName, found) =>
        if JsonDetected(found, text) {
          r := ErrorResult(NoGet(typeName));
        } else {
          r := ParseSexprFile(text, x);
        }
      case JsonObject(keys, data) =>
        if JsonDetected(keys, text) {
          r := ParseJsonSchematic(data);
        } else {
          r := ParseSexprFile(text, x);
        }
      case NotJson =>
        r := ParseSexprFile(text, x);
  }

  /** The S-expression fallback: a parser over the text. */
  method ParseSexprFile(text: string, x: Extracted) returns (r: NetlistResult)
    ensures r == SexprResult(x)
  {
    var parser := new SchematicParser(text);
    r := parser.Parse(x);
  }

  // ---------------------------------------------------------------------
  // `analyze_netlist`

  /** The analysis; `component_summary` repeats the two counts. */
  datatype Analysis = Analysis(componentCount: nat, netCount: nat, componentTypes: Dict<string, nat>,
                               netConnectivity: Nets, powerNets: seq<string>, totalPinConnections: nat)

  const PowerNetPrefixes := ["VCC", "VDD", "GND", "+5V", "+3V3", "+12V"]

  predicate PowerNetName(name: string) {
    exists p :: p in PowerNetPrefixes && StartsWith(name, p)
  }

  /** `component_types[lib_id] += 1` for every component with a lib_id. */
  function TypeCounts(components: Dict<string, NetComponent>): Dict<string, nat> {
    if components == [] then []
    else
      var before := TypeCounts(components[..|components| - 1]);
      var libId := components[|components| - 1].1.libId;
      if libId == "" then before else Put<string, nat>(before, libId, OrElse(Lookup(before, libId), 0) + 1)
  }

  /** The number of components with a lib_id. */
  function Typed(components: Dict<string, NetComponent>): nat {
    if components == [] then 0
    else Typed(components[..|components| - 1]) + (if components[|components| - 1].1.libId == "" then 0 else 1)
  }

  function Self(n: nat): nat { n }

  /** The type counts add up to the number of components with a lib_id. */
  lemma {:induction false} TypeCountsSum(components: Dict<string, NetComponent>)
    ensures SumBy(TypeCounts(components), Self) == Typed(components)
  {
    if components != [] {
      var init := components[..|components| - 1];
      var before: Dict<string, nat> := TypeCounts(init);
      var libId := components[|components| - 1].1.libId;
      TypeCountsSum(init);
      if libId != "" {
        var n: nat := OrElse(Lookup(before, libId), 0) + 1;
        assert TypeCounts(components) == Put<string, nat>(before, libId, n);
        Increment(before, libId, n);
      } else {
        assert TypeCounts(components) == before;
      }
    }
  }

  /** `counts[key] += 1` on a default-zero dictionary adds one to the total. */
  lemma Increment(counts: Dict<string, nat>, key: string, n: nat)
    requires n == OrElse(Lookup(counts, key), 0) + 1
    ensures SumBy(Put<string, nat>(counts, key, n), Self) == SumBy(counts, Self) + 1
  {
    SumByPut<string, nat>(counts, key, n, Self);
    match Lookup(counts, key) {
      case Some(p) => assert Self(p) == n - 1;
      case None => assert n == 1;
    }
  }

  /** No type is empty and none appears twice. */
  lemma {:induction false} TypeCountsKeys(components: Dict<string, NetComponent>)
    ensures "" !in Keys(TypeCounts(components))
    ensures Distinct(Keys(TypeCounts(components)))
  {
    if components != [] {
      var init := components[..|components| - 1];
      var before: Dict<string, nat> := TypeCounts(init);
      var libId := components[|components| - 1].1.libId;
      TypeCountsKeys(init);
      if libId != "" {
        var n: nat := OrElse(Lookup(before, libId), 0) + 1;
        var after: Dict<string, nat> := Put<string, nat>(before, libId, n);
        assert TypeCounts(components) == after;
        PutKeepsDistinctKeys<string, nat>(before, libId, n);
        assert Keys(after) == Keys(before) || Keys(after) == Keys(before) + [libId];
      } else {
        assert TypeCounts(components) == before;
      }
    }
  }

  /** The number of components with the given lib_id. */
  function WithLibId(components: Dict<string, NetComponent>, libId: string): nat {
    if components == [] then 0
    else WithLibId(components[..|components| - 1], libId) + (if components[|components| - 1].1.libId == libId then 1 else 0)
  }

  /** The type count of a lib_id is the number of components that have it. */
  lemma {:induction false} TypeCountOf(components: Dict<string, NetComponent>, libId: string)
    requires libId != ""
    ensures OrElse(Lookup(TypeCounts(components), libId), 0) == WithLibId(components, libId)
  {
    if components != [] {
      var init := components[..|components| - 1];
      TypeCountOf(init, libId);
      TypeCountStep(components, libId);
    }
  }

  /** One more component adds one to its own lib_id's count only. */
  lemma TypeCountStep(components: Dict<string, NetComponent>, libId: string)
    requires components != [] && libId != ""
    ensures OrElse(Lookup(TypeCounts(components), libId), 0) ==
              OrElse(Lookup(TypeCounts(components[..|components| - 1]), libId), 0)
              + (if components[|components| - 1].1.libId == libId then 1 else 0)
  {
    var before: Dict<string, nat> := TypeCounts(components[..|components| - 1]);
    var last := components[|components| - 1].1.libId;
    if last != "" {
      var n: nat := OrElse(Lookup(before, last), 0) + 1;
      TypeCountsLast(components, before, last, n);
      CountAfterPut(before, last, n, TypeCounts(components), libId);
    } else {
      assert TypeCounts(components) == before;
    }
  }

  lemma TypeCountsLast(components: Dict<string, NetComponent>, before: Dict<string, nat>, last: string, n: nat)
    requires components != [] && before == TypeCounts(components[..|components| - 1])
    requires last == components[|components| - 1].1.libId && last != ""
    requires n == OrElse(Lookup(before, last), 0) + 1
    ensures TypeCounts(components) == Put<string, nat>(before, last, n)
  {
  }

  lemma CountAfterPut(counts: Dict<string, nat>, key: string, n: nat, after: Dict<string, nat>, k: string)
    requires n == OrElse(Lookup(counts, key), 0) + 1 && after == Put<string, nat>(counts, key, n)
    ensures OrElse(Lookup(after, k), 0) == OrElse(Lookup(counts, k), 0) + (if k == key then 1 else 0)
  {
    LookupPut<string, nat>(counts, key, n, k);
  }

  /** The net names with a power prefix, in order. */
  function PowerNetNames(names: seq<string>): (r: seq<string>)
    ensures forall n :: n in r <==> n in names && PowerNetName(n)
    ensures |r| <= |names|
  {
    if names == [] then []
    else
      var n := names[|names| - 1];
      assert forall m :: m in names <==> m in names[..|names| - 1] || m == n;
      PowerNetNames(names[..|names| - 1]) + (if PowerNetName(n) then [n] else [])
  }

  /** `net_connectivity[name] = connections` over the nets. */
  function CopyNets(nets: Nets): Nets {
    if nets == [] then [] else Put(CopyNets(nets[..|nets| - 1]), nets[|nets| - 1].0, nets[|nets| - 1].1)
  }

  /** Dropping the last entry of a dictionary with distinct keys leaves
      distinct keys, none of them the dropped one. */
  lemma DistinctKeysInit<K, V>(d: Dict<K, V>)
    requires d != [] && Distinct(Keys(d))
    ensures Distinct(Keys(d[..|d| - 1])) && d[|d| - 1].0 !in Keys(d[..|d| - 1])
  {
    var last := |d| - 1;
    var init := d[..last];
    var ks := Keys(d);
    var ki := Keys(init);
    forall i, j | 0 <= i < j < |ki|
      ensures ki[i] != ki[j]
    {
      assert ki[i] == init[i].0 == ks[i];
      assert ki[j] == init[j].0 == ks[j];
    }
    forall i | 0 <= i < |ki|
      ensures ki[i] != d[last].0
    {
      assert ki[i] == init[i].0 == ks[i];
      assert ks[last] == d[last].0;
    }
  }

  lemma {:induction false} CopyNetsSame(nets: Nets)
    requires Distinct(Keys(nets))
    ensures CopyNets(nets) == nets
  {
    if nets != [] {
      var last := |nets| - 1;
      var init := nets[..last];
      DistinctKeysInit(nets);
      CopyNetsSame(init);
      CopyNetsStep(nets);
    }
  }

  lemma CopyNetsStep(nets: Nets)
    requires nets != []
    requires CopyNets(nets[..|nets| - 1]) == nets[..|nets| - 1]
    requires nets[|nets| - 1].0 !in Keys(nets[..|nets| - 1])
    ensures CopyNets(nets) == nets
  {
    var init := nets[..|nets| - 1];
    var k := nets[|nets| - 1].0;
    var v := nets[|nets| - 1].1;
    assert CopyNets(nets) == Put(init, k, v);
    PutNewKeyAppends(init, k, v);
    assert init + [(k, v)] == nets;
  }

  function AnalysisOf(data: NetlistResult): Analysis {
    Analysis(data.componentCount, data.netCount, TypeCounts(data.components), CopyNets(data.nets),
             PowerNetNames(Keys(data.nets)), SumBy(data.nets, Size))
  }

  method AnalyzeNetlist(data: NetlistResult) returns (a: Analysis)
    ensures a == AnalysisOf(data)
    ensures SumBy(a.componentTypes, Self) == Typed(data.components)
    ensures forall n :: n in a.powerNets <==> n in Keys(data.nets) && PowerNetName(n)
    ensures Distinct(Keys(data.nets)) ==> a.netConnectivity == data.nets
  {
    var types := CountTypes(data.components);
    var connectivity := CopyConnectivity(data.nets);
    var powerNets := FindPowerNets(Keys(data.nets));
    var total := CountPins(data.nets);
    a := Analysis(data.componentCount, data.netCount, types, connectivity, powerNets, total);
    TypeCountsSum(data.components);
    if Distinct(Keys(data.nets)) {
      CopyNetsSame(data.nets);
    }
  }

  /** The loop counting components per lib_id. */
  method CountTypes(components: Dict<string, NetComponent>) returns (types: Dict<string, nat>)
    ensures types == TypeCounts(components)
  {
    types := [];
    for i := 0 to |components|
      invariant types == TypeCounts(components[..i])
    {
      assert components[..i + 1][..i] == components[..i];
      var libId := components[i].1.libId;
      if libId != "" {
        var n: nat := OrElse(Lookup(types, libId), 0) + 1;
        types := Put(types, libId, n);
      }
    }
    assert components[..|components|] == components;
  }

  /** The loop copying each net's connections under its name. */
  method CopyConnectivity(nets: Nets) returns (connectivity: Nets)
    ensures connectivity == CopyNets(nets)
  {
    connectivity := [];
    for i := 0 to |nets|
      invariant connectivity == CopyNets(nets[..i])
    {
      assert nets[..i + 1][..i] == nets[..i];
      connectivity := Put(connectivity, nets[i].0, nets[i].1);
    }
    assert nets[..|nets|] == nets;
  }

  /** The loop keeping the net names with a power prefix, in order. */
  method FindPowerNets(names: seq<string>) returns (powerNets: seq<string>)
    ensures powerNets == PowerNetNames(names)
  {
    powerNets := [];
    for i := 0 to |names|
      invariant powerNets == PowerNetNames(names[..i])
    {
      assert names[..i + 1][..i] == names[..i];
      if exists p :: p in PowerNetPrefixes && StartsWith(names[i], p) {
        powerNets := powerNets + [names[i]];
      }
    }
    assert names[..|names|] == names;
  }

  /** The sum of the nets' pin counts. */
  method CountPins(nets: Nets) returns (total: nat)
    ensures total == SumBy(nets, Size)
  {
    total := 0;
    for i := 0 to |nets|
      invariant total == SumBy(nets[..i], Size)
    {
      assert nets[..i + 1][..i] == nets[..i];
      total := total + |nets[i].1|;
    }
    assert nets[..|nets|] == nets;
  }


  /** An error result analyses to nothing at all. */
  lemma ErrorAnalysis(message: string)
    ensures AnalysisOf(ErrorResult(message)) == Analysis(0, 0, [], [], [], 0)
  {
  }

  /** `Put` of an empty list never adds pins. */
  lemma PutEmptyNoPins(nets: Nets, name: string)
    ensures SumBy(Put(nets, name, []), Size) <= SumBy(nets, Size)
  {
    SumByPut(nets, name, [], Size);
  }

  lemma {:induction false} LabelNetsNoPins(nets: Nets, labels: seq<string>)
    ensures SumBy(LabelNets(nets, labels), Size) <= SumBy(nets, Size)
  {
    if labels != [] {
      LabelNetsNoPins(nets, labels[..|labels| - 1]);
      PutEmptyNoPins(LabelNets(nets, labels[..|labels| - 1]), labels[|labels| - 1]);
    }
  }

  lemma {:induction false} PowerTypeNetsNoPins(nets: Nets, types: seq<string>)
    ensures SumBy(PowerTypeNets(nets, types), Size) <= SumBy(nets, Size)
  {
    if types != [] {
      PowerTypeNetsNoPins(nets, types[..|types| - 1]);
      PutEmptyNoPins(PowerTypeNets(nets, types[..|types| - 1]), types[|types| - 1]);
    }
  }

  /** A schematic parsed from text has no pin connections: its nets are
      only named, never traced. */
  lemma SexprNoPins(x: Extracted)
    ensures AnalysisOf(SexprResult(x)).totalPinConnections == 0
  {
    LabelNetsNoPins([], x.globalLabels);
    PowerTypeNetsNoPins(LabelNets([], x.globalLabels), x.powerTypes);
  }

  /** A JSON schematic's pin connections are its power symbols, less those
      whose net a wire reset. */
  lemma JsonAnalysisPins(data: JsonSchematic)
    ensures AnalysisOf(JsonNetlist(data)).totalPinConnections <= PowerCount(Symbols(data))
  {
    JsonPins(data);
  }
}
