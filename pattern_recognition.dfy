// Model of kicad_mcp/utils/pattern_recognition.py: the circuit detectors
// that work by substring tests on references, values and lib_ids and by
// which components share a net. Each `identify_*` walks the components (and
// the nets) in order and appends what it finds; here each is a method with
// its loops, proved equal to a function that collects the entries item by
// item. The part-number regular expressions are parameters.
module PatternRecognition {
  import opened Common

  /** A component of the netlist: its "value" and "lib_id", None when the
      key is missing (`get` then gives ""). */
  datatype Part = Part(value: Option<string>, libId: Option<string>)

  /** A pin of a net: the reference of its "component", None when missing. */
  datatype Pin = Pin(component: Option<string>)

  /** Python dictionaries, in insertion order; their keys are distinct. */
  type Components = Dict<string, Part>

  type Nets = Dict<string, seq<Pin>>

  /** No reference names two components, as in a dictionary. */
  predicate UniqueRefs(cs: Components) {
    forall i, j :: 0 <= i < j < |cs| ==> cs[i].0 != cs[j].0
  }

  function Value(p: Part): string {
    OrElse(p.value, "")
  }

  function ValueUpper(p: Part): string {
    Upper(Value(p))
  }

  function LibUpper(p: Part): string {
    Upper(OrElse(p.libId, ""))
  }

  // ---------------------------------------------------------------------
  // Collecting entries item by item

  /** What each item contributes, concatenated in item order. */
  function Collect<T, U>(xs: seq<T>, f: T -> seq<U>): seq<U> {
    if xs == [] then [] else Collect(xs[..|xs| - 1], f) + f(xs[|xs| - 1])
  }

  lemma CollectStep<T, U>(xs: seq<T>, f: T -> seq<U>, i: nat)
    requires i < |xs|
    ensures Collect(xs[..i + 1], f) == Collect(xs[..i], f) + f(xs[i])
  {
    assert xs[..i + 1][..i] == xs[..i];
  }

  /** An entry is collected exactly when some item contributes it. */
  lemma {:induction false} CollectMember<T, U>(xs: seq<T>, f: T -> seq<U>, u: U)
    ensures u in Collect(xs, f) <==> exists i :: 0 <= i < |xs| && u in f(xs[i])
  {
    if xs != [] {
      var init := xs[..|xs| - 1];
      CollectMember(init, f, u);
      if exists i :: 0 <= i < |init| && u in f(init[i]) {
        var i :| 0 <= i < |init| && u in f(init[i]);
        assert xs[i] == init[i];
      }
      if exists i :: 0 <= i < |xs| && u in f(xs[i]) {
        var i :| 0 <= i < |xs| && u in f(xs[i]);
        if i < |init| {
          assert init[i] == xs[i];
        }
      }
    }
  }

  /** When every component contributes at most one entry, and only one
      about itself, no component is reported twice. */
  lemma {:induction false} CollectOnePerComponent<U>(cs: Components, f: ((string, Part)) -> seq<U>, owner: U -> string)
    requires UniqueRefs(cs)
    requires forall c :: |f(c)| <= 1
    requires forall c, u :: u in f(c) ==> owner(u) == c.0
    ensures |Collect(cs, f)| <= |cs|
    ensures forall a, b :: 0 <= a < b < |Collect(cs, f)| ==> owner(Collect(cs, f)[a]) != owner(Collect(cs, f)[b])
  {
    if cs != [] {
      var last := |cs| - 1;
      var init := cs[..last];
      CollectOnePerComponent(init, f, owner);
      var before := Collect(init, f);
      var r := Collect(cs, f);
      assert r == before + f(cs[last]);
      forall a, b | 0 <= a < b < |r|
        ensures owner(r[a]) != owner(r[b])
      {
        if b >= |before| {
          assert r[b] in f(cs[last]);
          assert r[a] in before;
          CollectMember(init, f, r[a]);
          var i :| 0 <= i < |init| && r[a] in f(init[i]);
          assert init[i] == cs[i];
        }
      }
    }
  }

  // ---------------------------------------------------------------------
  // Net membership

  /** `any(pin.get('component') == ref for pin in pins)`. */
  predicate Touches(pins: seq<Pin>, ref: string) {
    exists k :: 0 <= k < |pins| && pins[k].component == Some(ref)
  }

  /** `any(pin.get('component', '').startswith(prefix) for pin in pins)`. */
  predicate HasPinWithPrefix(pins: seq<Pin>, prefix: string) {
    exists k :: 0 <= k < |pins| && StartsWith(OrElse(pins[k].component, ""), prefix)
  }

  /** Some net touching `ref` also has a pin of a component whose reference
      starts with `prefix`. */
  predicate SharesNetWith(nets: Nets, ref: string, prefix: string) {
    exists i :: 0 <= i < |nets| && Touches(nets[i].1, ref) && HasPinWithPrefix(nets[i].1, prefix)
  }

  /** The search over the nets that stops at the first net touching `ref`
      with a pin starting with `prefix`. */
  method FindSharedNet(nets: Nets, ref: string, prefix: string) returns (found: bool)
    ensures found == SharesNetWith(nets, ref, prefix)
  {
    found := false;
    var i := 0;
    while i < |nets|
      invariant 0 <= i <= |nets|
      invariant !found ==> forall k :: 0 <= k < i ==> !(Touches(nets[k].1, ref) && HasPinWithPrefix(nets[k].1, prefix))
      invariant found ==> SharesNetWith(nets, ref, prefix)
    {
      if Touches(nets[i].1, ref) && HasPinWithPrefix(nets[i].1, prefix) {
        found := true;
        break;
      }
      i := i + 1;
    }
  }

  // ---------------------------------------------------------------------
  // Transistor amplifiers (`identify_amplifiers`)

  datatype Amplifier = TransistorAmplifier(subtype: string, component: string, value: string)

  predicate IsBjt(p: Part) {
    Contains(LibUpper(p), "BJT") || Contains(LibUpper(p), "NPN") || Contains(LibUpper(p), "PNP")
  }

  predicate IsFet(p: Part) {
    Contains(LibUpper(p), "FET") || Contains(LibUpper(p), "MOSFET") || Contains(LibUpper(p), "JFET")
  }

  function AmplifierOf(nets: Nets, c: (string, Part)): seq<Amplifier> {
    if StartsWith(c.0, "Q") && (IsBjt(c.1) || IsFet(c.1)) && SharesNetWith(nets, c.0, "R") then
      [TransistorAmplifier(if IsBjt(c.1) then "BJT" else "FET", c.0, Value(c.1))]
    else []
  }

  function AmplifiersOf(nets: Nets): ((string, Part)) -> seq<Amplifier> {
    c => AmplifierOf(nets, c)
  }

  function TransistorAmplifiers(cs: Components, nets: Nets): seq<Amplifier> {
    Collect(cs, AmplifiersOf(nets))
  }

  /** The transistor part of `identify_amplifiers`. */
  method IdentifyTransistorAmplifiers(cs: Components, nets: Nets) returns (amplifiers: seq<Amplifier>)
    ensures amplifiers == TransistorAmplifiers(cs, nets)
  {
    amplifiers := [];
    var i := 0;
    while i < |cs|
      invariant 0 <= i <= |cs|
      invariant amplifiers == Collect(cs[..i], AmplifiersOf(nets))
    {
      assert cs[..i + 1][..i] == cs[..i];
      var ref, part := cs[i].0, cs[i].1;
      if StartsWith(ref, "Q") {
        if IsBjt(part) {
          var biased := FindSharedNet(nets, ref, "R");
          if biased {
            amplifiers := amplifiers + [TransistorAmplifier("BJT", ref, Value(part))];
          }
        } else if IsFet(part) {
          var biased := FindSharedNet(nets, ref, "R");
          if biased {
            amplifiers := amplifiers + [TransistorAmplifier("FET", ref, Value(part))];
          }
        }
      }
      i := i + 1;
    }
    assert cs[..i] == cs;
  }

  /** A Q-prefixed BJT/NPN/PNP (or else FET) part is reported exactly when
      some net joins it to an R-prefixed component. */
  lemma TransistorAmplifierIff(cs: Components, nets: Nets, a: Amplifier)
    ensures a in TransistorAmplifiers(cs, nets) <==>
              exists i :: 0 <= i < |cs| && a.component == cs[i].0 && StartsWith(cs[i].0, "Q") &&
                          SharesNetWith(nets, cs[i].0, "R") && a.value == Value(cs[i].1) &&
                          ((IsBjt(cs[i].1) && a.subtype == "BJT") || (!IsBjt(cs[i].1) && IsFet(cs[i].1) && a.subtype == "FET"))
  {
    CollectMember(cs, AmplifiersOf(nets), a);
  }

  /** Each transistor is reported at most once. */
  lemma OneAmplifierPerTransistor(cs: Components, nets: Nets)
    requires UniqueRefs(cs)
    ensures var r := TransistorAmplifiers(cs, nets);
            forall a, b :: 0 <= a < b < |r| ==> r[a].component != r[b].component
  {
    CollectOnePerComponent(cs, AmplifiersOf(nets), (x: Amplifier) => x.component);
  }

  // ---------------------------------------------------------------------
  // Filters (`identify_filters`)

  datatype Filter =
    | RcLowPass(resistor: string, capacitor: string)
    | ActiveFilter(component: string, value: string)
    | CrystalFilter(component: string, value: string)
    | CeramicFilter(component: string, value: string)

  const GroundNets: seq<string> := ["GND", "AGND", "DGND", "VSS"]

  /** The component has a pin on one of the ground nets. */
  predicate Grounded(nets: Nets, ref: string) {
    exists g :: 0 <= g < |GroundNets| && Lookup(nets, GroundNets[g]).Some? && Touches(Lookup(nets, GroundNets[g]).value, ref)
  }

  function RcAtPin(nets: Nets, r: string, pin: Pin): seq<Filter> {
    if pin.component.Some? && StartsWith(pin.component.value, "C") && Grounded(nets, pin.component.value)
    then [RcLowPass(r, pin.component.value)]
    else []
  }

  function RcAtPins(nets: Nets, r: string): Pin -> seq<Filter> {
    pin => RcAtPin(nets, r, pin)
  }

  function RcOnNet(nets: Nets, r: string, net: (string, seq<Pin>)): seq<Filter> {
    if Touches(net.1, r) then Collect(net.1, RcAtPins(nets, r)) else []
  }

  function RcOnNets(nets: Nets, r: string): ((string, seq<Pin>)) -> seq<Filter> {
    net => RcOnNet(nets, r, net)
  }

  function RcOfComponent(nets: Nets, c: (string, Part)): seq<Filter> {
    if StartsWith(c.0, "R") then Collect(nets, RcOnNets(nets, c.0)) else []
  }

  function RcOfComponents(nets: Nets): ((string, Part)) -> seq<Filter> {
    c => RcOfComponent(nets, c)
  }

  function RcFilters(cs: Components, nets: Nets): seq<Filter> {
    Collect(cs, RcOfComponents(nets))
  }

  /** The ground test, stopping at the first ground net holding the part. */
  method IsGrounded(nets: Nets, ref: string) returns (grounded: bool)
    ensures grounded == Grounded(nets, ref)
  {
    grounded := false;
    var g := 0;
    while g < |GroundNets|
      invariant 0 <= g <= |GroundNets|
      invariant !grounded ==> forall k :: 0 <= k < g ==>
                  !(Lookup(nets, GroundNets[k]).Some? && Touches(Lookup(nets, GroundNets[k]).value, ref))
      invariant grounded ==> Grounded(nets, ref)
    {
      var pins := OrElse(Lookup(nets, GroundNets[g]), []);
      var j := 0;
      while j < |pins|
        invariant 0 <= j <= |pins|
        invariant !grounded ==> forall k :: 0 <= k < j ==> pins[k].component != Some(ref)
        invariant grounded ==> Grounded(nets, ref)
      {
        if pins[j].component == Some(ref) {
          grounded := true;
          break;
        }
        j := j + 1;
      }
      if grounded {
        break;
      }
      g := g + 1;
    }
  }

  /** The RC low-pass part: for each resistor, each net touching it, and
      each capacitor pin on that net whose capacitor is grounded. */
  method IdentifyRcFilters(cs: Components, nets: Nets) returns (filters: seq<Filter>)
    ensures filters == RcFilters(cs, nets)
  {
    filters := [];
    var i := 0;
    while i < |cs|
      invariant 0 <= i <= |cs|
      invariant filters == Collect(cs[..i], RcOfComponents(nets))
    {
      CollectStep(cs, RcOfComponents(nets), i);
      var r := cs[i].0;
      if StartsWith(r, "R") {
        var found := RcOfResistor(nets, r);
        filters := filters + found;
      }
      i := i + 1;
    }
    assert cs[..i] == cs;
  }

  /** The filters found through one resistor, net by net. */
  method RcOfResistor(nets: Nets, r: string) returns (found: seq<Filter>)
    ensures found == Collect(nets, RcOnNets(nets, r))
  {
    found := [];
    var j := 0;
    while j < |nets|
      invariant 0 <= j <= |nets|
      invariant found == Collect(nets[..j], RcOnNets(nets, r))
    {
      CollectStep(nets, RcOnNets(nets, r), j);
      var pins := nets[j].1;
      if Touches(pins, r) {
        var more := RcAtNetPins(nets, r, pins);
        found := found + more;
      }
      j := j + 1;
    }
    assert nets[..j] == nets;
  }

  /** The filters found at the pins of one net touching resistor `r`. */
  method RcAtNetPins(nets: Nets, r: string, pins: seq<Pin>) returns (found: seq<Filter>)
    ensures found == Collect(pins, RcAtPins(nets, r))
  {
    found := [];
    var k := 0;
    while k < |pins|
      invariant 0 <= k <= |pins|
      invariant found == Collect(pins[..k], RcAtPins(nets, r))
    {
      CollectStep(pins, RcAtPins(nets, r), k);
      var comp := pins[k].component;
      if comp.Some? && StartsWith(comp.value, "C") {
        var grounded := IsGrounded(nets, comp.value);
        if grounded {
          found := found + [RcLowPass(r, comp.value)];
        }
      }
      k := k + 1;
    }
    assert pins[..k] == pins;
  }

  /** (R, C) is reported exactly when R is an R-prefixed component, C a
      C-prefixed reference with a pin on a ground net, and some net holds
      both. */
  lemma RcFilterIff(cs: Components, nets: Nets, r: string, c: string)
    ensures RcLowPass(r, c) in RcFilters(cs, nets) <==>
              (exists i :: 0 <= i < |cs| && cs[i].0 == r) && StartsWith(r, "R") &&
              StartsWith(c, "C") && Grounded(nets, c) &&
              exists j :: 0 <= j < |nets| && Touches(nets[j].1, r) && Touches(nets[j].1, c)
  {
    var e := RcLowPass(r, c);
    CollectMember(cs, RcOfComponents(nets), e);
    CollectMember(nets, RcOnNets(nets, r), e);
    forall j | 0 <= j < |nets|
      ensures e in RcOnNet(nets, r, nets[j]) <==>
                Touches(nets[j].1, r) && StartsWith(c, "C") && Grounded(nets, c) && Touches(nets[j].1, c)
    {
      CollectMember(nets[j].1, RcAtPins(nets, r), e);
    }
    if e in RcFilters(cs, nets) {
      var i :| 0 <= i < |cs| && e in RcOfComponent(nets, cs[i]);
      CollectMember(nets, RcOnNets(nets, cs[i].0), e);
      var j :| 0 <= j < |nets| && e in RcOnNet(nets, cs[i].0, nets[j]);
      CollectMember(nets[j].1, RcAtPins(nets, cs[i].0), e);
    }
  }

  predicate IsOpAmp(p: Part, opAmpValue: string -> bool) {
    opAmpValue(ValueUpper(p)) || Contains(LibUpper(p), "OP_AMP")
  }

  function ActiveOf(nets: Nets, opAmpValue: string -> bool, c: (string, Part)): seq<Filter> {
    if IsOpAmp(c.1, opAmpValue) && SharesNetWith(nets, c.0, "R") && SharesNetWith(nets, c.0, "C")
    then [ActiveFilter(c.0, Value(c.1))]
    else []
  }

  function ActivesOf(nets: Nets, opAmpValue: string -> bool): ((string, Part)) -> seq<Filter> {
    c => ActiveOf(nets, opAmpValue, c)
  }

  /** The active-filter part: an op-amp (by the value pattern `opAmpValue`
      or an OP_AMP lib_id) with a resistor on some net it touches and a
      capacitor on some, possibly different, net it touches. */
  method IdentifyActiveFilters(cs: Components, nets: Nets, opAmpValue: string -> bool) returns (filters: seq<Filter>)
    ensures filters == Collect(cs, ActivesOf(nets, opAmpValue))
  {
    filters := [];
    var i := 0;
    while i < |cs|
      invariant 0 <= i <= |cs|
      invariant filters == Collect(cs[..i], ActivesOf(nets, opAmpValue))
    {
      assert cs[..i + 1][..i] == cs[..i];
      var ref, part := cs[i].0, cs[i].1;
      if IsOpAmp(part, opAmpValue) {
        var hasR, hasC := false, false;
        var j := 0;
        while j < |nets|
          invariant 0 <= j <= |nets|
          invariant hasR <==> exists k :: 0 <= k < j && Touches(nets[k].1, ref) && HasPinWithPrefix(nets[k].1, "R")
          invariant hasC <==> exists k :: 0 <= k < j && Touches(nets[k].1, ref) && HasPinWithPrefix(nets[k].1, "C")
        {
          if Touches(nets[j].1, ref) {
            if HasPinWithPrefix(nets[j].1, "R") {
              hasR := true;
            }
            if HasPinWithPrefix(nets[j].1, "C") {
              hasC := true;
            }
          }
          j := j + 1;
        }
        if hasR && hasC {
          filters := filters + [ActiveFilter(ref, Value(part))];
        }
      }
      i := i + 1;
    }
    assert cs[..i] == cs;
  }

  /** The resistor and the capacitor need not share a net: an op-amp on one
      net with a resistor and on another with a capacitor is an active
      filter. */
  lemma ActiveFilterAcrossNets(opAmp: string, r: string, c: string, part: Part, opAmpValue: string -> bool, nets: Nets)
    requires IsOpAmp(part, opAmpValue) && StartsWith(r, "R") && StartsWith(c, "C")
    requires |nets| == 2 && nets[0].1 == [Pin(Some(opAmp)), Pin(Some(r))] && nets[1].1 == [Pin(Some(opAmp)), Pin(Some(c))]
    ensures Collect([(opAmp, part)], ActivesOf(nets, opAmpValue)) == [ActiveFilter(opAmp, Value(part))]
  {
    var a, b := nets[0].1, nets[1].1;
    assert a[0].component == Some(opAmp) && OrElse(a[1].component, "") == r;
    assert b[0].component == Some(opAmp) && OrElse(b[1].component, "") == c;
    assert SharesNetWith(nets, opAmp, "R") && SharesNetWith(nets, opAmp, "C");
    assert [(opAmp, part)][..0] == [];
  }

  /** Y/X references and CRYSTAL/XTAL lib_ids are crystals. */
  predicate IsCrystal(c: (string, Part)) {
    StartsWith(c.0, "Y") || StartsWith(c.0, "X") || Contains(LibUpper(c.1), "CRYSTAL") || Contains(LibUpper(c.1), "XTAL")
  }

  predicate IsCeramicFilter(p: Part) {
    Contains(LibUpper(p), "FILTER") || Contains(LibUpper(p), "MURATA") || Contains(LibUpper(p), "CERAMIC_FILTER")
  }

  function PackagedFilterOf(c: (string, Part)): seq<Filter> {
    (if IsCrystal(c) then [CrystalFilter(c.0, ValueUpper(c.1))] else [])
    + (if IsCeramicFilter(c.1) then [CeramicFilter(c.0, ValueUpper(c.1))] else [])
  }

  /** `identify_filters`: the RC low-pass filters, then the active filters,
      then the crystal and ceramic filters. */
  function Filters(cs: Components, nets: Nets, opAmpValue: string -> bool): seq<Filter> {
    RcFilters(cs, nets) + Collect(cs, ActivesOf(nets, opAmpValue)) + Collect(cs, PackagedFilterOf)
  }

  method IdentifyFilters(cs: Components, nets: Nets, opAmpValue: string -> bool) returns (filters: seq<Filter>)
    ensures filters == Filters(cs, nets, opAmpValue)
  {
    var rc := IdentifyRcFilters(cs, nets);
    var active := IdentifyActiveFilters(cs, nets, opAmpValue);
    filters := AppendPackagedFilters(cs, rc + active);
  }

  /** The crystal and ceramic loop of `identify_filters`, appending to `start`. */
  method AppendPackagedFilters(cs: Components, start: seq<Filter>) returns (filters: seq<Filter>)
    ensures filters == start + Collect(cs, PackagedFilterOf)
  {
    filters := start;
    var i := 0;
    while i < |cs|
      invariant 0 <= i <= |cs|
      invariant filters == start + Collect(cs[..i], PackagedFilterOf)
    {
      CollectStep(cs, PackagedFilterOf, i);
      var ref, part := cs[i].0, cs[i].1;
      ghost var before := filters;
      if IsCrystal(cs[i]) {
        filters := filters + [CrystalFilter(ref, ValueUpper(part))];
      }
      if IsCeramicFilter(part) {
        filters := filters + [CeramicFilter(ref, ValueUpper(part))];
      }
      assert filters == before + PackagedFilterOf(cs[i]);
      i := i + 1;
    }
    assert cs[..i] == cs;
  }

  // ---------------------------------------------------------------------
  // Crystal oscillators (`identify_oscillators`)

  datatype Oscillator = CrystalOscillator(component: string, value: string, frequency: string, hasLoadCapacitors: bool)

  function OscillatorOf(nets: Nets, frequencyOf: string -> string, c: (string, Part)): seq<Oscillator> {
    if IsCrystal(c)
    then [CrystalOscillator(c.0, ValueUpper(c.1), frequencyOf(ValueUpper(c.1)), SharesNetWith(nets, c.0, "C"))]
    else []
  }

  function OscillatorsOf(nets: Nets, frequencyOf: string -> string): ((string, Part)) -> seq<Oscillator> {
    c => OscillatorOf(nets, frequencyOf, c)
  }

  /** The crystal part of `identify_oscillators`; `frequencyOf` stands for
      `extract_frequency_from_value`. */
  method IdentifyCrystalOscillators(cs: Components, nets: Nets, frequencyOf: string -> string)
    returns (oscillators: seq<Oscillator>)
    ensures oscillators == Collect(cs, OscillatorsOf(nets, frequencyOf))
  {
    oscillators := [];
    var i := 0;
    while i < |cs|
      invariant 0 <= i <= |cs|
      invariant oscillators == Collect(cs[..i], OscillatorsOf(nets, frequencyOf))
    {
      assert cs[..i + 1][..i] == cs[..i];
      if IsCrystal(cs[i]) {
        var loadCaps := FindSharedNet(nets, cs[i].0, "C");
        var value := ValueUpper(cs[i].1);
        oscillators := oscillators + [CrystalOscillator(cs[i].0, value, frequencyOf(value), loadCaps)];
      }
      i := i + 1;
    }
    assert cs[..i] == cs;
  }

  /** Each crystal yields exactly one entry, flagged with load capacitors
      exactly when a net it touches has a C-prefixed pin; nothing else
      yields one. */
  lemma CrystalOscillatorIff(cs: Components, nets: Nets, frequencyOf: string -> string, o: Oscillator)
    ensures o in Collect(cs, OscillatorsOf(nets, frequencyOf)) <==>
              exists i :: 0 <= i < |cs| && IsCrystal(cs[i]) && o.component == cs[i].0 &&
                          o.value == ValueUpper(cs[i].1) && o.frequency == frequencyOf(o.value) &&
                          (o.hasLoadCapacitors <==> SharesNetWith(nets, cs[i].0, "C"))
  {
    CollectMember(cs, OscillatorsOf(nets, frequencyOf), o);
  }

  lemma OneOscillatorPerCrystal(cs: Components, nets: Nets, frequencyOf: string -> string)
    requires UniqueRefs(cs)
    ensures var r := Collect(cs, OscillatorsOf(nets, frequencyOf));
            forall a, b :: 0 <= a < b < |r| ==> r[a].component != r[b].component
  {
    CollectOnePerComponent(cs, OscillatorsOf(nets, frequencyOf), (x: Oscillator) => x.component);
  }

  // ---------------------------------------------------------------------
  // Digital interfaces (`identify_digital_interfaces`)

  /** The interface kinds, in the order their entries are emitted. */
  datatype InterfaceKind = I2c | Spi | Uart | Usb | Ethernet

  /** The "type" of an interface entry. */
  function KindName(k: InterfaceKind): string {
    match k
    case I2c => "i2c_interface"
    case Spi => "spi_interface"
    case Uart => "uart_interface"
    case Usb => "usb_interface"
    case Ethernet => "ethernet_interface"
  }

  function KindRank(k: InterfaceKind): nat {
    match k
    case I2c => 0
    case Spi => 1
    case Uart => 2
    case Usb => 3
    case Ethernet => 4
  }

  function KindAt(n: nat): (k: InterfaceKind)
    requires n < 5
    ensures KindRank(k) == n
  {
    [I2c, Spi, Uart, Usb, Ethernet][n]
  }

  datatype Interface = Interface(kind: InterfaceKind, signalsFound: seq<string>)

  /** The net-name fragments each kind looks for. */
  function Signals(k: InterfaceKind): seq<string> {
    match k
    case I2c => ["SCL", "SDA", "I2C_SCL", "I2C_SDA"]
    case Spi => ["MOSI", "MISO", "SCK", "SS", "SPI_MOSI", "SPI_MISO", "SPI_SCK", "SPI_CS"]
    case Uart => ["TX", "RX", "TXD", "RXD", "UART_TX", "UART_RX"]
    case Usb => ["USB_D+", "USB_D-", "USB_DP", "USB_DM", "D+", "D-", "DP", "DM", "VBUS"]
    case Ethernet => ["TX+", "TX-", "RX+", "RX-", "MDI", "MDIO", "ETH"]
  }

  /** The upper-cased net name contains one of the signals. */
  predicate Mentions(net: string, signals: seq<string>) {
    exists k :: 0 <= k < |signals| && Contains(Upper(net), signals[k])
  }

  predicate AnyMentions(names: seq<string>, signals: seq<string>) {
    exists i :: 0 <= i < |names| && Mentions(names[i], signals)
  }

  /** `[net for net in nets.keys() if any(signal in net.upper() ...)]`. */
  function SignalNets(names: seq<string>, signals: seq<string>): seq<string> {
    if names == [] then []
    else SignalNets(names[..|names| - 1], signals)
         + (if Mentions(names[|names| - 1], signals) then [names[|names| - 1]] else [])
  }

  /** Some component's upper-cased value matches the IC pattern `ic`. */
  predicate AnyPart(cs: Components, ic: string -> bool) {
    exists i :: 0 <= i < |cs| && ic(ValueUpper(cs[i].1))
  }

  /** A kind is present when a net name mentions one of its signals; USB
      and Ethernet are also present when a component's value matches the
      USB bridge (`usbIc`) or Ethernet PHY (`phyIc`) part-number pattern. */
  predicate Present(cs: Components, nets: Nets, usbIc: string -> bool, phyIc: string -> bool, k: InterfaceKind) {
    AnyMentions(Keys(nets), Signals(k))
    || (k == Usb && AnyPart(cs, usbIc))
    || (k == Ethernet && AnyPart(cs, phyIc))
  }

  function Found(cs: Components, nets: Nets, usbIc: string -> bool, phyIc: string -> bool, k: InterfaceKind)
    : seq<Interface>
  {
    if Present(cs, nets, usbIc, phyIc, k) then [Interface(k, SignalNets(Keys(nets), Signals(k)))] else []
  }

  function FoundOf(cs: Components, nets: Nets, usbIc: string -> bool, phyIc: string -> bool)
    : InterfaceKind -> seq<Interface>
  {
    k => Found(cs, nets, usbIc, phyIc, k)
  }

  /** The entries of the first n kinds, in kind order. */
  function Through(found: InterfaceKind -> seq<Interface>, n: nat): seq<Interface>
    requires n <= 5
  {
    if n == 0 then [] else Through(found, n - 1) + found(KindAt(n - 1))
  }

  /** `identify_digital_interfaces`. */
  function DigitalInterfaces(cs: Components, nets: Nets, usbIc: string -> bool, phyIc: string -> bool): seq<Interface> {
    Through(FoundOf(cs, nets, usbIc, phyIc), 5)
  }

  /** The search for a net naming one of the signals, stopping at the first. */
  method FindSignalNet(names: seq<string>, signals: seq<string>) returns (found: bool)
    ensures found == AnyMentions(names, signals)
  {
    found := false;
    var i := 0;
    while i < |names|
      invariant 0 <= i <= |names|
      invariant !found ==> forall k :: 0 <= k < i ==> !Mentions(names[k], signals)
      invariant found ==> AnyMentions(names, signals)
    {
      if Mentions(names[i], signals) {
        found := true;
        break;
      }
      i := i + 1;
    }
  }

  /** The search for a component matching an IC pattern, stopping at the first. */
  method FindPart(cs: Components, ic: string -> bool) returns (found: bool)
    ensures found == AnyPart(cs, ic)
  {
    found := false;
    var i := 0;
    while i < |cs|
      invariant 0 <= i <= |cs|
      invariant !found ==> forall k :: 0 <= k < i ==> !ic(ValueUpper(cs[k].1))
      invariant found ==> AnyPart(cs, ic)
    {
      if ic(ValueUpper(cs[i].1)) {
        found := true;
        break;
      }
      i := i + 1;
    }
  }

  /** One block of `identify_digital_interfaces`: the search over the net
      names, then for USB and Ethernet the search over the components. */
  method DetectInterface(cs: Components, nets: Nets, usbIc: string -> bool, phyIc: string -> bool, k: InterfaceKind)
    returns (entry: seq<Interface>)
    ensures entry == Found(cs, nets, usbIc, phyIc, k)
  {
    var names := Keys(nets);
    var present := FindSignalNet(names, Signals(k));
    if !present && k == Usb {
      present := FindPart(cs, usbIc);
    } else if !present && k == Ethernet {
      present := FindPart(cs, phyIc);
    }
    entry := if present then [Interface(k, SignalNets(names, Signals(k)))] else [];
  }

  method IdentifyDigitalInterfaces(cs: Components, nets: Nets, usbIc: string -> bool, phyIc: string -> bool)
    returns (interfaces: seq<Interface>)
    ensures interfaces == DigitalInterfaces(cs, nets, usbIc, phyIc)
  {
    var i2c := DetectInterface(cs, nets, usbIc, phyIc, I2c);
    var spi := DetectInterface(cs, nets, usbIc, phyIc, Spi);
    var uart := DetectInterface(cs, nets, usbIc, phyIc, Uart);
    var usb := DetectInterface(cs, nets, usbIc, phyIc, Usb);
    var ethernet := DetectInterface(cs, nets, usbIc, phyIc, Ethernet);
    interfaces := i2c + spi + uart + usb + ethernet;
    ThroughAll(FoundOf(cs, nets, usbIc, phyIc));
  }

  lemma ThroughAll(found: InterfaceKind -> seq<Interface>)
    ensures Through(found, 5) == found(I2c) + found(Spi) + found(Uart) + found(Usb) + found(Ethernet)
  {
  }

  /** When each kind contributes at most one entry, of that kind, an entry
      of the first n kinds is exactly one contributed by a kind among them,
      and the kinds strictly increase. */
  lemma {:induction false} ThroughSpec(found: InterfaceKind -> seq<Interface>, n: nat, x: Interface)
    requires n <= 5
    requires forall k :: |found(k)| <= 1
    requires forall k, y :: y in found(k) ==> y.kind == k
    ensures x in Through(found, n) <==> KindRank(x.kind) < n && x in found(x.kind)
    ensures var r := Through(found, n);
            |r| <= n && forall i, j :: 0 <= i < j < |r| ==> KindRank(r[i].kind) < KindRank(r[j].kind)
  {
    if n > 0 {
      ThroughSpec(found, n - 1, x);
      var prev := Through(found, n - 1);
      var r := Through(found, n);
      assert r == prev + found(KindAt(n - 1));
      forall i, j | 0 <= i < j < |r|
        ensures KindRank(r[i].kind) < KindRank(r[j].kind)
      {
        if j >= |prev| {
          assert r[j] in found(KindAt(n - 1));
          if i < |prev| {
            ThroughSpec(found, n - 1, r[i]);
          }
        }
      }
    }
  }

  /** A kind contributes its one entry exactly when present. */
  lemma FoundSpec(cs: Components, nets: Nets, usbIc: string -> bool, phyIc: string -> bool, k: InterfaceKind, y: Interface)
    ensures |Found(cs, nets, usbIc, phyIc, k)| <= 1
    ensures y in Found(cs, nets, usbIc, phyIc, k) <==>
              Present(cs, nets, usbIc, phyIc, k) && y == Interface(k, SignalNets(Keys(nets), Signals(k)))
  {
  }

  /** Each kind appears at most once, in the order i2c, spi, uart, usb,
      ethernet; it appears exactly when present, and its entry lists the
      net names mentioning its signals. */
  lemma InterfaceIff(cs: Components, nets: Nets, usbIc: string -> bool, phyIc: string -> bool, x: Interface)
    ensures var r := DigitalInterfaces(cs, nets, usbIc, phyIc);
            |r| <= 5 && forall i, j :: 0 <= i < j < |r| ==> KindRank(r[i].kind) < KindRank(r[j].kind)
    ensures x in DigitalInterfaces(cs, nets, usbIc, phyIc) <==>
              Present(cs, nets, usbIc, phyIc, x.kind) && x.signalsFound == SignalNets(Keys(nets), Signals(x.kind))
  {
    var found := FoundOf(cs, nets, usbIc, phyIc);
    var r := DigitalInterfaces(cs, nets, usbIc, phyIc);
    assert r == Through(found, 5);
    FoundShape(cs, nets, usbIc, phyIc, found);
    ThroughSpec(found, 5, x);
    assert x in r <==> KindRank(x.kind) < 5 && x in found(x.kind);
    assert found(x.kind) == Found(cs, nets, usbIc, phyIc, x.kind);
    FoundSpec(cs, nets, usbIc, phyIc, x.kind, x);
  }

  /** Each kind contributes at most one entry, of its own kind. */
  lemma FoundShape(cs: Components, nets: Nets, usbIc: string -> bool, phyIc: string -> bool,
                   found: InterfaceKind -> seq<Interface>)
    requires found == FoundOf(cs, nets, usbIc, phyIc)
    ensures forall k :: |found(k)| <= 1
    ensures forall k, y :: y in found(k) ==> y.kind == k
  {
    forall k
      ensures |found(k)| <= 1 && forall y :: y in found(k) ==> y.kind == k
    {
      assert found(k) == Found(cs, nets, usbIc, phyIc, k);
      forall y
        ensures y in found(k) ==> y.kind == k
      {
        FoundSpec(cs, nets, usbIc, phyIc, k, y);
      }
    }
  }


  /** The signal nets are exactly the net names mentioning a signal, in
      net order. */
  lemma {:induction false} SignalNetsIff(names: seq<string>, signals: seq<string>, n: string)
    ensures n in SignalNets(names, signals) <==> n in names && Mentions(n, signals)
    ensures |SignalNets(names, signals)| <= |names|
  {
    if names != [] {
      var init := names[..|names| - 1];
      SignalNetsIff(init, signals, n);
      assert names == init + [names[|names| - 1]];
    }
  }

  /** "SS" is an SPI signal and "VSS" contains it: a schematic whose only
      net is VSS is reported as having an SPI interface. */
  lemma GroundNetReadsAsSpi(cs: Components, nets: Nets, usbIc: string -> bool, phyIc: string -> bool, name: string)
    requires name == "VSS" && |nets| == 1 && nets[0].0 == name
    ensures Interface(Spi, [name]) in DigitalInterfaces(cs, nets, usbIc, phyIc)
  {
    assert Upper(name) == "VSS";
    assert Signals(Spi)[3] == "SS";
    assert OccursAt(Upper(name), Signals(Spi)[3], 1);
    var names := Keys(nets);
    assert names == [name];
    assert Mentions(names[0], Signals(Spi));
    assert names[..0] == [];
    assert SignalNets(names, Signals(Spi)) == [name];
    InterfaceIff(cs, nets, usbIc, phyIc, Interface(Spi, [name]));
  }

  // ---------------------------------------------------------------------
  // Sensors (`identify_sensor_interfaces`)

  /** The analog sensors recognised by reference prefix. */
  datatype PrefixKind = Thermistor | Photosensor | Potentiometer

  datatype Sensor =
    | IcSensor(kind: string, model: string, component: string)
    | AnalogSensor(prefixKind: PrefixKind, component: string, value: string)

  predicate HasKindPrefix(ref: string, k: PrefixKind) {
    match k
    case Thermistor => StartsWith(ref, "RT") || StartsWith(ref, "TH")
    case Photosensor => StartsWith(ref, "PD") || StartsWith(ref, "LDR")
    case Potentiometer => StartsWith(ref, "RV") || StartsWith(ref, "POT")
  }

  /** The "type" of an analog sensor entry. */
  function SensorType(k: PrefixKind): string {
    match k
    case Thermistor => "temperature_sensor"
    case Photosensor => "optical_sensor"
    case Potentiometer => "position_sensor"
  }

  function AnalogSensorOf(k: PrefixKind, c: (string, Part)): seq<Sensor> {
    if HasKindPrefix(c.0, k) then [AnalogSensor(k, c.0, Value(c.1))] else []
  }

  function AnalogSensorsOf(k: PrefixKind): ((string, Part)) -> seq<Sensor> {
    c => AnalogSensorOf(k, c)
  }

  /** The sensors found by the IC patterns (`icSensors`), then the
      thermistors, the photosensors and the potentiometers. */
  function SensorInterfaces(icSensors: seq<Sensor>, cs: Components): seq<Sensor> {
    icSensors + Collect(cs, AnalogSensorsOf(Thermistor)) + Collect(cs, AnalogSensorsOf(Photosensor))
    + Collect(cs, AnalogSensorsOf(Potentiometer))
  }

  method IdentifySensorInterfaces(icSensors: seq<Sensor>, cs: Components) returns (sensors: seq<Sensor>)
    ensures sensors == SensorInterfaces(icSensors, cs)
  {
    sensors := icSensors;
    var kinds := [Thermistor, Photosensor, Potentiometer];
    var n := 0;
    while n < 3
      invariant 0 <= n <= 3
      invariant n == 0 ==> sensors == icSensors
      invariant n == 1 ==> sensors == icSensors + Collect(cs, AnalogSensorsOf(Thermistor))
      invariant n == 2 ==> sensors == icSensors + Collect(cs, AnalogSensorsOf(Thermistor))
                                      + Collect(cs, AnalogSensorsOf(Photosensor))
      invariant n == 3 ==> sensors == SensorInterfaces(icSensors, cs)
    {
      var k := kinds[n];
      var before := sensors;
      var i := 0;
      while i < |cs|
        invariant 0 <= i <= |cs|
        invariant sensors == before + Collect(cs[..i], AnalogSensorsOf(k))
      {
        assert cs[..i + 1][..i] == cs[..i];
        if HasKindPrefix(cs[i].0, k) {
          sensors := sensors + [AnalogSensor(k, cs[i].0, Value(cs[i].1))];
        }
        i := i + 1;
      }
      assert cs[..i] == cs;
      n := n + 1;
    }
  }

  /** The prefix rules never overlap: a reference is at most one kind of
      analog sensor. */
  lemma PrefixKindsDisjoint(ref: string, a: PrefixKind, b: PrefixKind)
    requires HasKindPrefix(ref, a)
    ensures HasKindPrefix(ref, b) <==> b == a
  {
    PrefixHead(ref, a);
    if HasKindPrefix(ref, b) {
      PrefixHead(ref, b);
    }
  }

  /** The first two characters each prefix rule admits. */
  lemma PrefixHead(ref: string, k: PrefixKind)
    requires HasKindPrefix(ref, k)
    ensures |ref| >= 2
    ensures k == Thermistor ==> (ref[0] == 'R' && ref[1] == 'T') || (ref[0] == 'T' && ref[1] == 'H')
    ensures k == Photosensor ==> (ref[0] == 'P' && ref[1] == 'D') || (ref[0] == 'L' && ref[1] == 'D')
    ensures k == Potentiometer ==> (ref[0] == 'R' && ref[1] == 'V') || (ref[0] == 'P' && ref[1] == 'O')
  {
    assert ref[..2][0] == ref[0] && ref[..2][1] == ref[1];
    if |ref| >= 3 {
      assert ref[..3][0] == ref[0] && ref[..3][1] == ref[1];
    }
  }

  /** Every entry collected for kind k is an analog sensor of that kind. */
  lemma AnalogSensorsOfKind(cs: Components, k: PrefixKind)
    ensures forall x :: x in Collect(cs, AnalogSensorsOf(k)) ==> x.AnalogSensor? && x.prefixKind == k
  {
    forall x | x in Collect(cs, AnalogSensorsOf(k))
      ensures x.AnalogSensor? && x.prefixKind == k
    {
      CollectMember(cs, AnalogSensorsOf(k), x);
    }
  }

  /** The IC-pattern sensors come first, unchanged; after them an analog
      sensor of kind k for a component appears exactly when its reference
      has one of k's prefixes. */
  lemma AnalogSensorsAfterIcSensors(icSensors: seq<Sensor>, cs: Components, k: PrefixKind, ref: string, value: string)
    ensures var r := SensorInterfaces(icSensors, cs);
            r[..|icSensors|] == icSensors &&
            (AnalogSensor(k, ref, value) in r[|icSensors|..] <==>
               exists i :: 0 <= i < |cs| && cs[i].0 == ref && HasKindPrefix(ref, k) && Value(cs[i].1) == value)
  {
    var t := Collect(cs, AnalogSensorsOf(Thermistor));
    var p := Collect(cs, AnalogSensorsOf(Photosensor));
    var q := Collect(cs, AnalogSensorsOf(Potentiometer));
    var r := SensorInterfaces(icSensors, cs);
    assert r == icSensors + (t + p + q);
    assert r[|icSensors|..] == t + p + q;
    var e := AnalogSensor(k, ref, value);
    AnalogSensorsOfKind(cs, Thermistor);
    AnalogSensorsOfKind(cs, Photosensor);
    AnalogSensorsOfKind(cs, Potentiometer);
    CollectMember(cs, AnalogSensorsOf(k), e);
  }

  /** After the IC-pattern sensors come the thermistors, then the
      photosensors, then the potentiometers. */
  lemma AnalogSensorsInKindOrder(icSensors: seq<Sensor>, cs: Components)
    ensures var r := SensorInterfaces(icSensors, cs)[|icSensors|..];
            (forall i :: 0 <= i < |r| ==> r[i].AnalogSensor?) &&
            forall i, j :: 0 <= i < j < |r| && r[i].AnalogSensor? && r[j].AnalogSensor? ==>
              KindOrder(r[i].prefixKind) <= KindOrder(r[j].prefixKind)
  {
    var t := Collect(cs, AnalogSensorsOf(Thermistor));
    var p := Collect(cs, AnalogSensorsOf(Photosensor));
    var q := Collect(cs, AnalogSensorsOf(Potentiometer));
    assert SensorInterfaces(icSensors, cs)[|icSensors|..] == t + p + q;
    AnalogSensorsOfKind(cs, Thermistor);
    AnalogSensorsOfKind(cs, Photosensor);
    AnalogSensorsOfKind(cs, Potentiometer);
    var s := t + p + q;
    forall i | 0 <= i < |s|
      ensures s[i].AnalogSensor? && KindOrder(s[i].prefixKind) == if i < |t| then 0 else if i < |t| + |p| then 1 else 2
    {
      if i < |t| {
        assert s[i] in t;
      } else if i < |t| + |p| {
        assert s[i] == p[i - |t|];
      } else {
        assert s[i] == q[i - |t| - |p|];
      }
    }
  }

  function KindOrder(k: PrefixKind): nat {
    match k
    case Thermistor => 0
    case Photosensor => 1
    case Potentiometer => 2
  }

  // ---------------------------------------------------------------------
  // Microcontrollers (`identify_microcontrollers`)

  const McuFamilies: seq<string> :=
    ["AVR", "STM32", "PIC", "ESP", "Arduino", "MSP430", "RP2040", "NXP", "SAM", "ARM Cortex", "8051"]

  const BoardTypes: seq<string> :=
    ["Arduino", "ESP32 Dev Board", "ESP8266 Dev Board", "STM32 Dev Board", "Raspberry Pi"]

  datatype Microcontroller =
    | IdentifiedMcu(component: string, family: string, model: string)
    | FamilyMcu(component: string, family: string, value: string)
    | DevelopmentBoard(component: string, boardType: string, value: string)

  predicate MatchesPart(name: string, matches: (string, string) -> bool, p: Part) {
    matches(name, ValueUpper(p)) || matches(name, LibUpper(p))
  }

  /** The first name, in table order, whose pattern (`matches`) finds the
      value or the lib_id. */
  function FirstMatch(names: seq<string>, matches: (string, string) -> bool, p: Part): (r: Option<string>)
    ensures r.Some? ==> r.value in names && MatchesPart(r.value, matches, p)
  {
    if names == [] then None
    else if MatchesPart(names[0], matches, p) then Some(names[0])
    else FirstMatch(names[1..], matches, p)
  }

  /** The name found is the first that matches, and none is found only
      when none matches. */
  lemma {:induction false} FirstMatchIsFirst(names: seq<string>, matches: (string, string) -> bool, p: Part)
    ensures var r := FirstMatch(names, matches, p);
            r.Some? ==> exists k :: 0 <= k < |names| && names[k] == r.value &&
                          forall m :: 0 <= m < k ==> !MatchesPart(names[m], matches, p)
    ensures FirstMatch(names, matches, p).None? <==> forall k :: 0 <= k < |names| ==> !MatchesPart(names[k], matches, p)
  {
    if names != [] && !MatchesPart(names[0], matches, p) {
      FirstMatchIsFirst(names[1..], matches, p);
      var r := FirstMatch(names, matches, p);
      if r.Some? {
        var k :| 0 <= k < |names[1..]| && names[1..][k] == r.value &&
                 forall m :: 0 <= m < k ==> !MatchesPart(names[1..][m], matches, p);
        assert names[k + 1] == r.value;
        forall m | 0 <= m < k + 1
          ensures !MatchesPart(names[m], matches, p)
        {
          if m > 0 {
            assert names[m] == names[1..][m - 1];
          }
        }
      }
      if forall k :: 0 <= k < |names[1..]| ==> !MatchesPart(names[1..][k], matches, p) {
        forall k | 0 <= k < |names|
          ensures !MatchesPart(names[k], matches, p)
        {
          if k > 0 {
            assert names[k] == names[1..][k - 1];
          }
        }
      }
    }
  }

  /** The family loop with its `break`. */
  method FindFirstMatch(names: seq<string>, matches: (string, string) -> bool, p: Part) returns (r: Option<string>)
    ensures r == FirstMatch(names, matches, p)
  {
    r := None;
    var k := 0;
    while k < |names|
      invariant 0 <= k <= |names|
      invariant FirstMatch(names, matches, p) == FirstMatch(names[k..], matches, p)
    {
      if MatchesPart(names[k], matches, p) {
        r := Some(names[k]);
        break;
      }
      assert names[k..][1..] == names[k + 1..];
      k := k + 1;
    }
  }

  /** A microcontroller entry: the specific model when `identify` (the
      model patterns on the value) names one, the matched family otherwise. */
  function McuOf(matches: (string, string) -> bool, identify: string -> Option<(string, string)>, c: (string, Part))
    : seq<Microcontroller>
  {
    match FirstMatch(McuFamilies, matches, c.1)
    case None => []
    case Some(family) =>
      match identify(ValueUpper(c.1))
      case Some(model) => [IdentifiedMcu(c.0, model.0, model.1)]
      case None => [FamilyMcu(c.0, family, ValueUpper(c.1))]
  }

  function McusOf(matches: (string, string) -> bool, identify: string -> Option<(string, string)>)
    : ((string, Part)) -> seq<Microcontroller>
  {
    c => McuOf(matches, identify, c)
  }

  function BoardOf(boardMatches: (string, string) -> bool, c: (string, Part)): seq<Microcontroller> {
    match FirstMatch(BoardTypes, boardMatches, c.1)
    case None => []
    case Some(board) => [DevelopmentBoard(c.0, board, ValueUpper(c.1))]
  }

  function BoardsOf(boardMatches: (string, string) -> bool): ((string, Part)) -> seq<Microcontroller> {
    c => BoardOf(boardMatches, c)
  }

  /** `identify_microcontrollers`: the microcontrollers, then the
      development boards. */
  function Microcontrollers(cs: Components, matches: (string, string) -> bool,
                            identify: string -> Option<(string, string)>, boardMatches: (string, string) -> bool)
    : seq<Microcontroller>
  {
    Collect(cs, McusOf(matches, identify)) + Collect(cs, BoardsOf(boardMatches))
  }

  /** The microcontroller loop: per component, the first family whose
      pattern finds it, then the specific model if one is identified. */
  method IdentifyMcus(cs: Components, matches: (string, string) -> bool, identify: string -> Option<(string, string)>)
    returns (found: seq<Microcontroller>)
    ensures found == Collect(cs, McusOf(matches, identify))
  {
    found := [];
    var i := 0;
    while i < |cs|
      invariant 0 <= i <= |cs|
      invariant found == Collect(cs[..i], McusOf(matches, identify))
    {
      assert cs[..i + 1][..i] == cs[..i];
      var ref, part := cs[i].0, cs[i].1;
      var family := FindFirstMatch(McuFamilies, matches, part);
      if family.Some? {
        var model := identify(ValueUpper(part));
        if model.Some? {
          found := found + [IdentifiedMcu(ref, model.value.0, model.value.1)];
        } else {
          found := found + [FamilyMcu(ref, family.value, ValueUpper(part))];
        }
      }
      i := i + 1;
    }
    assert cs[..i] == cs;
  }

  /** The development-board loop: per component, the first board type
      whose pattern finds it. */
  method IdentifyBoards(cs: Components, boardMatches: (string, string) -> bool) returns (found: seq<Microcontroller>)
    ensures found == Collect(cs, BoardsOf(boardMatches))
  {
    found := [];
    var i := 0;
    while i < |cs|
      invariant 0 <= i <= |cs|
      invariant found == Collect(cs[..i], BoardsOf(boardMatches))
    {
      assert cs[..i + 1][..i] == cs[..i];
      var board := FindFirstMatch(BoardTypes, boardMatches, cs[i].1);
      if board.Some? {
        found := found + [DevelopmentBoard(cs[i].0, board.value, ValueUpper(cs[i].1))];
      }
      i := i + 1;
    }
    assert cs[..i] == cs;
  }

  method IdentifyMicrocontrollers(cs: Components, matches: (string, string) -> bool,
                                  identify: string -> Option<(string, string)>, boardMatches: (string, string) -> bool)
    returns (found: seq<Microcontroller>)
    ensures found == Microcontrollers(cs, matches, identify, boardMatches)
  {
    var mcus := IdentifyMcus(cs, matches, identify);
    var boards := IdentifyBoards(cs, boardMatches);
    found := mcus + boards;
  }

  /** Each component contributes at most one microcontroller entry, about
      itself, and one exactly when some family pattern finds it. */
  lemma McuOfSpec(matches: (string, string) -> bool, identify: string -> Option<(string, string)>, c: (string, Part))
    ensures |McuOf(matches, identify, c)| <= 1
    ensures forall m :: m in McuOf(matches, identify, c) ==> m.component == c.0
    ensures |McuOf(matches, identify, c)| == 1 <==> FirstMatch(McuFamilies, matches, c.1).Some?
  {
  }

  /** The family loop stops at the first match, so no component is
      reported twice. */
  lemma OneMicrocontrollerPerComponent(cs: Components, matches: (string, string) -> bool,
                                       identify: string -> Option<(string, string)>)
    requires UniqueRefs(cs)
    ensures var r := Collect(cs, McusOf(matches, identify));
            |r| <= |cs| && forall a, b :: 0 <= a < b < |r| ==> r[a].component != r[b].component
  {
    var f := McusOf(matches, identify);
    forall c
      ensures |f(c)| <= 1 && forall m :: m in f(c) ==> m.component == c.0
    {
      McuOfSpec(matches, identify, c);
    }
    CollectOnePerComponent(cs, f, (x: Microcontroller) => x.component);
  }

  /** The microcontroller entries about a component are exactly those its
      own family match produces: one when some family pattern finds it
      (`McuOfSpec`), none otherwise. */
  lemma MicrocontrollerEntries(cs: Components, matches: (string, string) -> bool,
                               identify: string -> Option<(string, string)>, i: nat, m: Microcontroller)
    requires UniqueRefs(cs) && i < |cs| && m.component == cs[i].0
    ensures m in Collect(cs, McusOf(matches, identify)) <==> m in McuOf(matches, identify, cs[i])
  {
    var f := McusOf(matches, identify);
    CollectMember(cs, f, m);
    if m in Collect(cs, f) {
      var j :| 0 <= j < |cs| && m in f(cs[j]);
      assert m in McuOf(matches, identify, cs[j]);
      McuOfSpec(matches, identify, cs[j]);
      assert cs[j].0 == cs[i].0;
      assert j == i;
    }
  }
}
