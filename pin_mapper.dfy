/** Pin-level bookkeeping for schematic wiring: pin tables per component
    type, connection points of rotated pins, the electrical compatibility
    rules, the symmetric pin-adjacency map, and simple L-shaped and bus
    routes between connection points.

    Angles are whole quarter turns (1 = 90 degrees counter-clockwise), the
    only angles for which cosine and sine are exact. */
module PinMapper {
  import opened Common

  type Point = (real, real)

  datatype PinDirection =
    | Input | Output | Bidirectional | Passive | PowerIn | PowerOut
    | OpenCollector | OpenEmitter | NoConnect

  datatype PinType = Electrical | Power | Ground | Signal

  /** A pin of a symbol: offset from the symbol centre, length, and the
      direction it points in, in quarter turns. */
  datatype PinInfo = PinInfo(
    number: string, name: string, direction: PinDirection, pinType: PinType,
    position: Point, length: real, turns: int)

  /** A pin placed on a particular component instance. */
  datatype ComponentPin = ComponentPin(componentRef: string, info: PinInfo, componentPosition: Point, componentTurns: int)

  // ---------------------------------------------------------------------------
  // Quarter-turn trigonometry and connection points

  function Cos(turns: int): (r: real)
    ensures r == 1.0 || r == 0.0 || r == -1.0
  {
    var m := turns % 4;
    if m == 0 then 1.0 else if m == 2 then -1.0 else 0.0
  }

  function Sin(turns: int): (r: real)
    ensures r == 1.0 || r == 0.0 || r == -1.0
  {
    var m := turns % 4;
    if m == 1 then 1.0 else if m == 3 then -1.0 else 0.0
  }

  /** At a quarter turn exactly one of cosine and sine is nonzero, and
      cos^2 + sin^2 = 1. */
  lemma QuarterTurnIsUnit(turns: int)
    ensures (Cos(turns) == 0.0) != (Sin(turns) == 0.0)
    ensures Cos(turns) * Cos(turns) + Sin(turns) * Sin(turns) == 1.0
  {
  }

  function Rotate(p: Point, turns: int): Point {
    (p.0 * Cos(turns) - p.1 * Sin(turns), p.0 * Sin(turns) + p.1 * Cos(turns))
  }

  /** Rotation keeps the squared distance from the symbol centre. */
  lemma RotatePreservesNorm(p: Point, turns: int)
    ensures var q := Rotate(p, turns); q.0 * q.0 + q.1 * q.1 == p.0 * p.0 + p.1 * p.1
  {
    var c, s := Cos(turns), Sin(turns);
    QuarterTurnIsUnit(turns);
    assert (p.0 * c - p.1 * s) * (p.0 * c - p.1 * s) + (p.0 * s + p.1 * c) * (p.0 * s + p.1 * c)
      == (p.0 * p.0 + p.1 * p.1) * (c * c + s * s);
  }

  /** `PinInfo.get_connection_point`: the pin's base is its offset rotated
      with the component; the wire attaches at the tip, `length` further
      along the pin's own direction plus the component's rotation. */
  function ConnectionPoint(pin: PinInfo, componentX: real, componentY: real, componentTurns: int): (r: Point)
    ensures var base := Rotate(pin.position, componentTurns);
      var a := pin.turns + componentTurns;
      (r.0 - componentX - base.0 == pin.length * Cos(a) && r.1 == componentY + base.1)
      || (r.1 - componentY - base.1 == pin.length * Sin(a) && r.0 == componentX + base.0)
  {
    var base := Rotate(pin.position, componentTurns);
    var a := pin.turns + componentTurns;
    QuarterTurnIsUnit(a);
    (componentX + base.0 + pin.length * Cos(a), componentY + base.1 + pin.length * Sin(a))
  }

  /** Whole rotations of the component do not move the connection point. */
  lemma ConnectionPointPeriodic(pin: PinInfo, componentX: real, componentY: real, componentTurns: int)
    ensures ConnectionPoint(pin, componentX, componentY, componentTurns + 4)
         == ConnectionPoint(pin, componentX, componentY, componentTurns)
  {
    var t := componentTurns;
    var a := pin.turns + t;
    TurnPeriodic(a);
    assert pin.turns + (t + 4) == a + 4;
    RotatePeriodic(pin.position, t);
  }

  lemma RotatePeriodic(p: Point, t: int)
    ensures Rotate(p, t + 4) == Rotate(p, t)
  {
    var u := t + 4;
    TurnPeriodic(t);
    assert Cos(u) == Cos(t) && Sin(u) == Sin(t);
    assert Rotate(p, u).0 == p.0 * Cos(u) - p.1 * Sin(u);
    assert Rotate(p, u).0 == Rotate(p, t).0;
    assert Rotate(p, u).1 == Rotate(p, t).1;
  }

  lemma TurnPeriodic(t: int)
    ensures Cos(t + 4) == Cos(t) && Sin(t + 4) == Sin(t)
  {
    assert (t + 4) % 4 == t % 4;
  }

  /** An unrotated, right-pointing pin attaches `length` to the right of its offset. */
  lemma ConnectionPointUnrotated(pin: PinInfo, componentX: real, componentY: real)
    requires pin.turns == 0
    ensures ConnectionPoint(pin, componentX, componentY, 0)
         == (componentX + pin.position.0 + pin.length, componentY + pin.position.1)
  {
    assert Cos(0) == 1.0 && Sin(0) == 0.0;
    assert Rotate(pin.position, 0) == pin.position;
  }

  /** Turning the component a quarter turn maps offset (x, y) to (-y, x) and
      turns a right-pointing pin upwards. */
  lemma ConnectionPointQuarterTurn(pin: PinInfo, componentX: real, componentY: real)
    requires pin.turns == 0
    ensures ConnectionPoint(pin, componentX, componentY, 1)
         == (componentX - pin.position.1, componentY + pin.position.0 + pin.length)
  {
    assert Cos(1) == 0.0 && Sin(1) == 1.0;
    assert Rotate(pin.position, 1) == (-pin.position.1, pin.position.0);
    assert pin.turns + 1 == 1;
  }

  function PinPoint(pin: ComponentPin): Point {
    ConnectionPoint(pin.info, pin.componentPosition.0, pin.componentPosition.1, pin.componentTurns)
  }

  // ---------------------------------------------------------------------------
  // Standard pin layouts

  function TwoPin(name1: string, name2: string): seq<PinInfo> {
    [ PinInfo("1", name1, Passive, Electrical, (-2.54, 0.0), 2.54, 2),
      PinInfo("2", name2, Passive, Electrical, (2.54, 0.0), 2.54, 0) ]
  }

  function Transistor(): seq<PinInfo> {
    [ PinInfo("1", "B", Input, Signal, (-5.08, 0.0), 2.54, 2),
      PinInfo("2", "C", Passive, Electrical, (0.0, 2.54), 2.54, 1),
      PinInfo("3", "E", Passive, Electrical, (0.0, -2.54), 2.54, 3) ]
  }

  function GenericIc(): seq<PinInfo> {
    [ PinInfo("1", "Pin1", Bidirectional, Signal, (-7.62, -2.54), 2.54, 2),
      PinInfo("2", "Pin2", Bidirectional, Signal, (-7.62, 2.54), 2.54, 2),
      PinInfo("3", "VCC", PowerIn, Power, (7.62, 2.54), 2.54, 0),
      PinInfo("4", "GND", PowerIn, Ground, (7.62, -2.54), 2.54, 0) ]
  }

  /** `STANDARD_PIN_LAYOUTS`. */
  function StandardPinLayouts(): (t: Dict<string, seq<PinInfo>>)
    ensures Keys(t) == ["resistor", "capacitor", "inductor", "led", "diode",
                        "transistor_npn", "transistor_pnp", "power", "ic"]
  {
    [ ("resistor", TwoPin("~", "~")),
      ("capacitor", TwoPin("~", "~")),
      ("inductor", TwoPin("1", "2")),
      ("led", TwoPin("K", "A")),
      ("diode", TwoPin("K", "A")),
      ("transistor_npn", Transistor()),
      ("transistor_pnp", Transistor()),
      ("power", [PinInfo("1", "1", PowerIn, Power, (0.0, 0.0), 0.0, 0)]),
      ("ic", GenericIc()) ]
  }

  /** An empty custom layout counts as none, as Python's `or` treats it. */
  function PinLayout(componentType: string, customPins: seq<PinInfo>): seq<PinInfo> {
    if customPins != [] then customPins
    else match Lookup(StandardPinLayouts(), componentType)
      case Some(layout) => layout
      case None => []
  }

  /** The pin numbers of every standard layout are "1", "2", ... in order, so
      each pin of a standard part can be found by its number. */
  lemma StandardLayoutsNumbered(k: nat)
    requires k < |StandardPinLayouts()|
    ensures var layout := StandardPinLayouts()[k].1;
      layout != [] && forall i :: 0 <= i < |layout| ==> layout[i].number == NatToString(i + 1)
  {
    var t := StandardPinLayouts();
    var layout := t[k].1;
    if k < 5 {
      assert layout == TwoPin(layout[0].name, layout[1].name);
      NumberedUpTo(layout, 2);
    } else if k < 7 {
      assert layout == Transistor();
      NumberedUpTo(layout, 3);
    } else if k == 7 {
      NumberedUpTo(layout, 1);
    } else {
      assert layout == GenericIc();
      NumberedUpTo(layout, 4);
    }
  }

  /** A layout of n <= 4 pins numbered "1" .. "n" in order. */
  lemma NumberedUpTo(layout: seq<PinInfo>, n: nat)
    requires 1 <= n <= 4 && |layout| == n
    requires layout[0].number == "1"
    requires n >= 2 ==> layout[1].number == "2"
    requires n >= 3 ==> layout[2].number == "3"
    requires n >= 4 ==> layout[3].number == "4"
    ensures forall i :: 0 <= i < |layout| ==> layout[i].number == NatToString(i + 1)
  {
    assert NatToString(1) == "1" && NatToString(2) == "2";
    assert NatToString(3) == "3" && NatToString(4) == "4";
  }

  /** The pins of component `ref`: one per layout entry, carrying the
      component's position and rotation. */
  function PlacePins(ref: string, layout: seq<PinInfo>, position: Point, turns: int): (r: seq<ComponentPin>)
    ensures |r| == |layout|
    ensures forall i :: 0 <= i < |layout| ==> r[i] == ComponentPin(ref, layout[i], position, turns)
  {
    if layout == [] then []
    else
      PlacePins(ref, layout[..|layout| - 1], position, turns)
      + [ComponentPin(ref, layout[|layout| - 1], position, turns)]
  }

  /** The first pin with the given number. */
  function FindPin(pins: seq<ComponentPin>, number: string): (r: Option<ComponentPin>)
    ensures r.None? <==> forall i :: 0 <= i < |pins| ==> pins[i].info.number != number
    ensures r.Some? ==> exists i :: (0 <= i < |pins| && pins[i] == r.value && r.value.info.number == number
      && forall j :: 0 <= j < i ==> pins[j].info.number != number)
  {
    if pins == [] then None
    else if pins[0].info.number == number then Some(pins[0])
    else
      var r := FindPin(pins[1..], number);
      if r.Some? then
        ghost var i :| 0 <= i < |pins[1..]| && pins[1..][i] == r.value && r.value.info.number == number
          && forall j :: 0 <= j < i ==> pins[1..][j].info.number != number;
        assert pins[i + 1] == r.value;
        r
      else r
  }

  // ---------------------------------------------------------------------------
  // Compatibility

  predicate CompatibleWithPower(d: PinDirection) { d == PowerIn || d == Passive }

  predicate AcceptsOutput(d: PinDirection) { d == Input || d == Bidirectional || d == Passive }

  /** `can_connect_pins`: the rules are tried in order and the first that
      applies decides. */
  predicate CanConnect(a: PinInfo, b: PinInfo) {
    if a.pinType == Power then CompatibleWithPower(b.direction)
    else if b.pinType == Power then CompatibleWithPower(a.direction)
    else if a.pinType == Ground || b.pinType == Ground then true
    else if a.direction == Output then AcceptsOutput(b.direction)
    else if b.direction == Output then AcceptsOutput(a.direction)
    else if a.direction == Passive || b.direction == Passive then true
    else a.direction == Bidirectional || b.direction == Bidirectional
  }

  predicate CanConnectPins(pin1: ComponentPin, pin2: ComponentPin) {
    CanConnect(pin1.info, pin2.info)
  }

  /** Without a power-type pin the rules do not depend on the order of the pins. */
  lemma CanConnectSymmetricWithoutPower(a: PinInfo, b: PinInfo)
    requires a.pinType != Power && b.pinType != Power
    ensures CanConnect(a, b) == CanConnect(b, a)
  {
  }

  /** With two power-type pins only the second pin's direction is looked at,
      so the order matters: a power output feeding a power input passes one
      way and fails the other. */
  lemma PowerRuleIsOneSided()
    ensures var out := PinInfo("1", "OUT", PowerOut, Power, (0.0, 0.0), 0.0, 0);
      var inp := PinInfo("1", "IN", PowerIn, Power, (0.0, 0.0), 0.0, 0);
      CanConnect(out, inp) && !CanConnect(inp, out)
  {
  }

  /** The decisive rules, stated as the outcomes they give. */
  lemma CanConnectOutcomes(a: PinInfo, b: PinInfo)
    ensures a.pinType != Power && b.pinType != Power && (a.pinType == Ground || b.pinType == Ground)
      ==> CanConnect(a, b)
    ensures (a.pinType !in {Power, Ground} && b.pinType !in {Power, Ground}
      && a.direction == Output && b.direction == Output) ==> !CanConnect(a, b)
    ensures (a.pinType !in {Power, Ground} && b.pinType !in {Power, Ground}
      && a.direction == Input && b.direction == Input) ==> !CanConnect(a, b)
    ensures a.pinType !in {Power, Ground} && b.pinType !in {Power, Ground}
      && a.direction != Output && b.direction != Output
      ==> (CanConnect(a, b) <==> a.direction in {Passive, Bidirectional} || b.direction in {Passive, Bidirectional})
  {
  }

  // ---------------------------------------------------------------------------
  // Adjacency

  /** The id under which a pin's connections are recorded: "ref.pin". */
  function PinId(ref: string, number: string): string {
    ref + "." + number
  }

  function Neighbours(conn: Dict<string, set<string>>, id: string): set<string> {
    match Lookup(conn, id)
    case Some(s) => s
    case None => {}
  }

  /** The adjacency map records every connection in both directions. */
  ghost predicate Symmetric(conn: Dict<string, set<string>>) {
    forall a, b :: b in Neighbours(conn, a) <==> a in Neighbours(conn, b)
  }

  /** Recording a connection between `a` and `b`: each id gets an entry if it
      had none, then each is added to the other's set. */
  function Connect(conn: Dict<string, set<string>>, a: string, b: string): Dict<string, set<string>> {
    var c1 := Put(conn, a, Neighbours(conn, a) + {b});
    Put(c1, b, Neighbours(c1, b) + {a})
  }

  lemma NeighboursPut(conn: Dict<string, set<string>>, k: string, v: set<string>, id: string)
    ensures Neighbours(Put(conn, k, v), id) == if id == k then v else Neighbours(conn, id)
  {
    LookupPut(conn, k, v, id);
  }

  /** After a connection, `b` is a neighbour of `a` and `a` of `b`; every
      other neighbour set is as before. */
  lemma ConnectNeighbours(conn: Dict<string, set<string>>, a: string, b: string, id: string)
    ensures Neighbours(Connect(conn, a, b), id)
         == Neighbours(conn, id) + (if id == a then {b} else {}) + (if id == b then {a} else {})
  {
    var c1 := Put(conn, a, Neighbours(conn, a) + {b});
    NeighboursPut(conn, a, Neighbours(conn, a) + {b}, id);
    NeighboursPut(conn, a, Neighbours(conn, a) + {b}, b);
    NeighboursPut(c1, b, Neighbours(c1, b) + {a}, id);
  }

  /** Recording a connection keeps the adjacency symmetric. */
  lemma ConnectKeepsSymmetric(conn: Dict<string, set<string>>, a: string, b: string)
    requires Symmetric(conn)
    ensures Symmetric(Connect(conn, a, b))
  {
    var c := Connect(conn, a, b);
    forall x, y
      ensures y in Neighbours(c, x) ==> x in Neighbours(c, y)
    {
      ConnectNeighbours(conn, a, b, x);
      ConnectNeighbours(conn, a, b, y);
    }
  }

  /** Both ids have an entry afterwards, and the keys stay distinct. */
  lemma ConnectRegistersBoth(conn: Dict<string, set<string>>, a: string, b: string)
    requires Distinct(Keys(conn))
    ensures a in Keys(Connect(conn, a, b)) && b in Keys(Connect(conn, a, b))
    ensures Distinct(Keys(Connect(conn, a, b)))
  {
    var c1 := Put(conn, a, Neighbours(conn, a) + {b});
    PutKeepsDistinctKeys(conn, a, Neighbours(conn, a) + {b});
    PutKeepsDistinctKeys(c1, b, Neighbours(c1, b) + {a});
  }

  // ---------------------------------------------------------------------------
  // Routes between connection points

  /** `_route_horizontal_then_vertical`. */
  function HorizontalThenVertical(s: Point, e: Point): seq<Point> {
    [s, (e.0, s.1), e]
  }

  /** `_route_vertical_then_horizontal`. */
  function VerticalThenHorizontal(s: Point, e: Point): seq<Point> {
    [s, (s.0, e.1), e]
  }

  /** Quarter-turn pin directions pointing along the x axis (0 or 180 degrees). */
  predicate PointsHorizontally(turns: int) { turns % 4 == 0 || turns % 4 == 2 }

  /** `_should_route_horizontally_first`. */
  predicate HorizontalFirst(startTurns: int, endTurns: int, s: Point, e: Point) {
    if PointsHorizontally(startTurns) then true
    else if PointsHorizontally(endTurns) then false
    else Abs(s.0 - e.0) > Abs(s.1 - e.1)
  }

  /** `calculate_wire_route`: a straight wire when the points are within 1 mm
      in x or in y, otherwise an L chosen from the pin directions. */
  function WireRoute(startPin: ComponentPin, endPin: ComponentPin): seq<Point> {
    var s, e := PinPoint(startPin), PinPoint(endPin);
    if Abs(s.0 - e.0) < 1.0 || Abs(s.1 - e.1) < 1.0 then [s, e]
    else
      var st := startPin.info.turns + startPin.componentTurns;
      var et := endPin.info.turns + endPin.componentTurns;
      if HorizontalFirst(st % 4, et % 4, s, e) then HorizontalThenVertical(s, e)
      else VerticalThenHorizontal(s, e)
  }

  /** Consecutive points differ in one coordinate only. */
  predicate AxisAligned(route: seq<Point>) {
    forall i :: 0 < i < |route| ==> route[i - 1].0 == route[i].0 || route[i - 1].1 == route[i].1
  }

  /** A wire route runs from the start pin's tip to the end pin's tip; it is
      either a single nearly aligned segment or an axis-aligned L. */
  lemma WireRouteShape(startPin: ComponentPin, endPin: ComponentPin)
    ensures var r := WireRoute(startPin, endPin);
      var s, e := PinPoint(startPin), PinPoint(endPin);
      2 <= |r| <= 3 && r[0] == s && r[|r| - 1] == e
      && (|r| == 2 <==> Abs(s.0 - e.0) < 1.0 || Abs(s.1 - e.1) < 1.0)
      && (|r| == 3 ==> AxisAligned(r))
  {
  }

  // ---------------------------------------------------------------------------
  // Bus routes

  function Sum(xs: seq<real>): real {
    if xs == [] then 0.0 else Sum(xs[..|xs| - 1]) + xs[|xs| - 1]
  }

  function Max(xs: seq<real>): (r: real)
    requires xs != []
    ensures r in xs && forall i :: 0 <= i < |xs| ==> xs[i] <= r
  {
    if |xs| == 1 then xs[0] else MaxReal(Max(xs[..|xs| - 1]), xs[|xs| - 1])
  }

  function Min(xs: seq<real>): (r: real)
    requires xs != []
    ensures r in xs && forall i :: 0 <= i < |xs| ==> r <= xs[i]
  {
    if |xs| == 1 then xs[0] else MinReal(Min(xs[..|xs| - 1]), xs[|xs| - 1])
  }

  /** The mean of values that all lie in [lo, hi] lies there too. */
  lemma MeanBetween(xs: seq<real>, lo: real, hi: real)
    requires xs != []
    requires forall i :: 0 <= i < |xs| ==> lo <= xs[i] <= hi
    ensures lo <= Sum(xs) / |xs| as real <= hi
  {
    SumBounds(xs, lo, hi);
    MeanOfBounded(Sum(xs), |xs| as real, lo, hi);
  }

  lemma MeanOfBounded(s: real, n: real, lo: real, hi: real)
    requires n > 0.0 && lo * n <= s <= hi * n
    ensures lo <= s / n <= hi
  {
    var m := s / n;
    assert m * n == s;
    assert (m - lo) * n == s - lo * n;
    assert (hi - m) * n == hi * n - s;
    NonNegativeFactor(m - lo, n);
    NonNegativeFactor(hi - m, n);
  }

  lemma NonNegativeFactor(a: real, n: real)
    requires n > 0.0 && a * n >= 0.0
    ensures a >= 0.0
  {
    if a < 0.0 {
      assert false;
    }
  }

  lemma {:induction false} SumBounds(xs: seq<real>, lo: real, hi: real)
    requires forall i :: 0 <= i < |xs| ==> lo <= xs[i] <= hi
    ensures lo * |xs| as real <= Sum(xs) <= hi * |xs| as real
    decreases |xs|
  {
    if xs != [] {
      SumBounds(xs[..|xs| - 1], lo, hi);
    }
  }

  function Xs(points: seq<Point>): (r: seq<real>)
    ensures |r| == |points| && forall i :: 0 <= i < |points| ==> r[i] == points[i].0
  {
    if points == [] then [] else Xs(points[..|points| - 1]) + [points[|points| - 1].0]
  }

  function Ys(points: seq<Point>): (r: seq<real>)
    ensures |r| == |points| && forall i :: 0 <= i < |points| ==> r[i] == points[i].1
  {
    if points == [] then [] else Ys(points[..|points| - 1]) + [points[|points| - 1].1]
  }

  function PinPoints(pins: seq<ComponentPin>): (r: seq<Point>)
    ensures |r| == |pins|
  {
    if pins == [] then [] else PinPoints(pins[..|pins| - 1]) + [PinPoint(pins[|pins| - 1])]
  }

  /** The i-th bus point source is the i-th pin's connection point. */
  lemma {:induction false} PinPointsAt(pins: seq<ComponentPin>, i: nat)
    requires i < |pins|
    ensures PinPoints(pins)[i] == PinPoint(pins[i])
  {
    if i < |pins| - 1 {
      PinPointsAt(pins[..|pins| - 1], i);
    }
  }

  /** The bus is horizontal when the pins spread further in x than in y. */
  predicate BusHorizontal(points: seq<Point>)
    requires points != []
  {
    Max(Xs(points)) - Min(Xs(points)) > Max(Ys(points)) - Min(Ys(points))
  }

  /** `calculate_bus_route`: for two or more pins, one two-point wire per pin
      from its tip to a bus through the pins' mean point — a horizontal bus
      at the mean y when the pins spread further in x, else a vertical bus
      at the mean x. */
  method CalculateBusRoute(pins: seq<ComponentPin>) returns (routes: seq<seq<Point>>)
    ensures routes == BusRoutes(pins)
  {
    if |pins| < 2 {
      return [];
    }
    var points := PinPoints(pins);
    var horizontal := BusHorizontal(points);
    var bus := BusLevel(points, horizontal);
    routes := BusWires(points, horizontal, bus);
  }

  /** The routes `calculate_bus_route` returns, as a value: every route is a
      single two-point wire. */
  function BusRoutes(pins: seq<ComponentPin>): (r: seq<seq<Point>>)
    ensures |pins| < 2 ==> r == []
    ensures |pins| >= 2 ==> |r| == |pins|
    ensures forall i :: 0 <= i < |r| ==> |r[i]| == 2 && r[i][0] == PinPoints(pins)[i]
    ensures |pins| >= 2 && BusHorizontal(PinPoints(pins)) ==> forall i :: 0 <= i < |r| ==>
      r[i][1] == (PinPoints(pins)[i].0, Sum(Ys(PinPoints(pins))) / |pins| as real)
    ensures |pins| >= 2 && !BusHorizontal(PinPoints(pins)) ==> forall i :: 0 <= i < |r| ==>
      r[i][1] == (Sum(Xs(PinPoints(pins))) / |pins| as real, PinPoints(pins)[i].1)
  {
    if |pins| < 2 then []
    else
      var points := PinPoints(pins);
      var horizontal := BusHorizontal(points);
      LevelWires(points, horizontal, BusLevel(points, horizontal))
  }

  /** Where the bus runs: the mean y of a horizontal bus, the mean x of a
      vertical one. */
  function BusLevel(points: seq<Point>, horizontal: bool): real
    requires points != []
  {
    if horizontal then Sum(Ys(points)) / |points| as real else Sum(Xs(points)) / |points| as real
  }

  function LevelWires(points: seq<Point>, horizontal: bool, bus: real): (r: seq<seq<Point>>)
    ensures |r| == |points|
    ensures forall i :: 0 <= i < |points| ==>
      r[i] == [points[i], if horizontal then (points[i].0, bus) else (bus, points[i].1)]
  {
    seq(|points|, i requires 0 <= i < |points| =>
      [points[i], if horizontal then (points[i].0, bus) else (bus, points[i].1)])
  }

  /** The wires of a bus at the given level: from each point straight to the
      bus line, keeping x on a horizontal bus and y on a vertical one. */
  method BusWires(points: seq<Point>, horizontal: bool, bus: real) returns (routes: seq<seq<Point>>)
    ensures |routes| == |points|
    ensures forall i :: 0 <= i < |points| ==>
      routes[i] == [points[i], if horizontal then (points[i].0, bus) else (bus, points[i].1)]
  {
    routes := [];
    var i := 0;
    while i < |points|
      invariant 0 <= i <= |points| && |routes| == i
      invariant forall k :: 0 <= k < i ==>
        routes[k] == [points[k], if horizontal then (points[k].0, bus) else (bus, points[k].1)]
    {
      var p := points[i];
      if horizontal {
        routes := routes + [[p, (p.0, bus)]];
      } else {
        routes := routes + [[p, (bus, p.1)]];
      }
      i := i + 1;
    }
  }

  /** The bus line lies within the spread of the pins it collects. */
  lemma BusWithinPins(ps: seq<Point>)
    requires |ps| >= 2
    ensures Min(Xs(ps)) <= Sum(Xs(ps)) / |ps| as real <= Max(Xs(ps))
    ensures Min(Ys(ps)) <= Sum(Ys(ps)) / |ps| as real <= Max(Ys(ps))
  {
    MeanBetweenExtremes(Xs(ps));
    MeanBetweenExtremes(Ys(ps));
  }

  lemma MeanBetweenExtremes(xs: seq<real>)
    requires xs != []
    ensures Min(xs) <= Sum(xs) / |xs| as real <= Max(xs)
  {
    var lo, hi := Min(xs), Max(xs);
    assert forall i :: 0 <= i < |xs| ==> lo <= xs[i] <= hi;
    MeanBetween(xs, lo, hi);
  }

  // ---------------------------------------------------------------------------
  // Statistics

  datatype Statistics = Statistics(totalComponents: nat, totalPins: nat, totalConnections: nat)

  /** Sum of the pin counts of all components. */
  function PinCount(d: Dict<string, seq<ComponentPin>>): nat {
    if d == [] then 0 else |d[0].1| + PinCount(d[1..])
  }

  function PinsOf(d: Dict<string, seq<ComponentPin>>, ref: string): seq<ComponentPin> {
    match Lookup(d, ref)
    case Some(pins) => pins
    case None => []
  }

  /** Replacing a component's pins changes the total by the difference of
      the two pin counts; a new component adds its own count. */
  lemma {:induction false} PinCountPut(d: Dict<string, seq<ComponentPin>>, ref: string, pins: seq<ComponentPin>)
    requires Distinct(Keys(d))
    ensures PinCount(Put(d, ref, pins)) + |PinsOf(d, ref)| == PinCount(d) + |pins|
  {
    if d != [] && d[0].0 != ref {
      assert Keys(d[1..]) == Keys(d)[1..];
      PinCountPut(d[1..], ref, pins);
    } else if d != [] {
      assert Put(d, ref, pins)[1..] == d[1..];
    }
  }

  // ---------------------------------------------------------------------------
  // The mapper

  class ComponentPinMapper {
    var componentPins: Dict<string, seq<ComponentPin>>
    var pinConnections: Dict<string, set<string>>

    /** Each reference and each pin id has one entry, and adjacency is symmetric. */
    ghost predicate Valid()
      reads this
    {
      Distinct(Keys(componentPins)) && Distinct(Keys(pinConnections)) && Symmetric(pinConnections)
    }

    constructor ()
      ensures componentPins == [] && pinConnections == []
      ensures Valid()
    {
      componentPins := [];
      pinConnections := [];
    }

    /** `add_component`: the custom pins, or the standard layout of the type
        (none for an unknown type), placed on the component; an earlier entry
        for the same reference is replaced. */
    method AddComponent(ref: string, componentType: string, position: Point, turns: int, customPins: seq<PinInfo>)
      returns (pins: seq<ComponentPin>)
      requires Valid()
      modifies this
      ensures Valid()
      ensures pins == PlacePins(ref, PinLayout(componentType, customPins), position, turns)
      ensures componentPins == Put(old(componentPins), ref, pins)
      ensures pinConnections == old(pinConnections)
    {
      var layout := PinLayout(componentType, customPins);
      pins := [];
      var i := 0;
      while i < |layout|
        invariant 0 <= i <= |layout|
        invariant pins == PlacePins(ref, layout[..i], position, turns)
      {
        assert layout[..i + 1][..i] == layout[..i];
        pins := pins + [ComponentPin(ref, layout[i], position, turns)];
        i := i + 1;
      }
      assert layout[..|layout|] == layout;
      PutKeepsDistinctKeys(componentPins, ref, pins);
      componentPins := Put(componentPins, ref, pins);
    }

    /** `get_component_pins`. */
    function GetComponentPins(ref: string): (r: seq<ComponentPin>)
      reads this
      ensures ref !in Keys(componentPins) ==> r == []
    {
      PinsOf(componentPins, ref)
    }

    /** `get_pin`: the first pin of the component with that number. */
    function GetPin(ref: string, number: string): (r: Option<ComponentPin>)
      reads this
      ensures ref !in Keys(componentPins) ==> r.None?
      ensures r.Some? ==> r.value in GetComponentPins(ref) && r.value.info.number == number
    {
      FindPin(GetComponentPins(ref), number)
    }

    /** `get_pin_connection_point`. */
    function GetPinConnectionPoint(ref: string, number: string): (r: Option<Point>)
      reads this
      ensures r.Some? <==> GetPin(ref, number).Some?
      ensures r.Some? ==> r.value == PinPoint(GetPin(ref, number).value)
    {
      match GetPin(ref, number)
      case Some(p) => Some(PinPoint(p))
      case None => None
    }

    /** The pins `add_connection` would join exist and are compatible. */
    predicate Connectable(ref1: string, number1: string, ref2: string, number2: string)
      reads this
    {
      GetPin(ref1, number1).Some? && GetPin(ref2, number2).Some?
      && CanConnectPins(GetPin(ref1, number1).value, GetPin(ref2, number2).value)
    }

    /** `add_connection`: refused, changing nothing, when a pin is missing or
        the pair is incompatible; otherwise each pin id joins the other's
        neighbour set. */
    method AddConnection(ref1: string, number1: string, ref2: string, number2: string) returns (ok: bool)
      requires Valid()
      modifies this
      ensures Valid()
      ensures ok == old(Connectable(ref1, number1, ref2, number2))
      ensures componentPins == old(componentPins)
      ensures pinConnections == if ok then Connect(old(pinConnections), PinId(ref1, number1), PinId(ref2, number2))
        else old(pinConnections)
    {
      var pin1 := GetPin(ref1, number1);
      var pin2 := GetPin(ref2, number2);
      if pin1.None? || pin2.None? {
        return false;
      }
      if !CanConnectPins(pin1.value, pin2.value) {
        return false;
      }
      var id1 := PinId(ref1, number1);
      var id2 := PinId(ref2, number2);
      ConnectKeepsSymmetric(pinConnections, id1, id2);
      ConnectRegistersBoth(pinConnections, id1, id2);
      pinConnections := Connect(pinConnections, id1, id2);
      ok := true;
    }

    /** `get_connected_pins`: the neighbour set of "ref.pin", empty when it has none. */
    function GetConnectedPins(ref: string, number: string): (r: set<string>)
      reads this
      ensures PinId(ref, number) !in Keys(pinConnections) ==> r == {}
    {
      Neighbours(pinConnections, PinId(ref, number))
    }

    /** `get_component_statistics`. */
    function GetStatistics(): (s: Statistics)
      reads this
      ensures componentPins == [] && pinConnections == [] ==> s == Statistics(0, 0, 0)
    {
      Statistics(|componentPins|, PinCount(componentPins), |pinConnections|)
    }

    /** `clear_mappings`. */
    method ClearMappings()
      modifies this
      ensures componentPins == [] && pinConnections == []
      ensures Valid()
    {
      componentPins := [];
      pinConnections := [];
    }
  }

  /** A successful connection makes each pin a neighbour of the other, in
      whichever order the two were named. */
  lemma ConnectionIsMutual(conn: Dict<string, set<string>>, a: string, b: string)
    ensures b in Neighbours(Connect(conn, a, b), a)
    ensures a in Neighbours(Connect(conn, a, b), b)
  {
    ConnectNeighbours(conn, a, b, a);
    ConnectNeighbours(conn, a, b, b);
  }

  /** Adding a two-pin resistor and a two-pin LED to an empty mapper gives
      four pins in total. */
  lemma TwoTwoPinPartsGiveFourPins(p1: Point, p2: Point)
    ensures var d1 := Put([], "R1", PlacePins("R1", PinLayout("resistor", []), p1, 0));
      PinCount(Put(d1, "LED1", PlacePins("LED1", PinLayout("led", []), p2, 0))) == 4
  {
    var r := PlacePins("R1", PinLayout("resistor", []), p1, 0);
    var l := PlacePins("LED1", PinLayout("led", []), p2, 0);
    ResistorLayoutSize();
    LedLayoutSize();
    var d1: Dict<string, seq<ComponentPin>> := Put([], "R1", r);
    assert d1 == [("R1", r)];
    PinCountPut(d1, "LED1", l);
    assert PinsOf(d1, "LED1") == [];
  }

  lemma ResistorLayoutSize()
    ensures |PinLayout("resistor", [])| == 2
  {
    assert StandardPinLayouts()[0].0 == "resistor";
  }

  lemma LedLayoutSize()
    ensures |PinLayout("led", [])| == 2
  {
    var t := StandardPinLayouts();
    var key := "led";
    assert t[0].0[0] != key[0] && t[1].0[0] != key[0] && t[2].0[0] != key[0];
    assert Lookup(t, key) == Lookup(t[1..], key);
    assert Lookup(t[1..], key) == Lookup(t[2..], key) by { assert t[1..][1..] == t[2..]; }
    assert Lookup(t[2..], key) == Lookup(t[3..], key) by { assert t[2..][1..] == t[3..]; }
    assert t[3..][0] == ("led", TwoPin("K", "A"));
  }
}
