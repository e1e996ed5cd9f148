/** Component value parsing and reference-designator classification.
    Regular expressions of the original are written out as scanners over the
    string; digits and letters are ASCII. */
module ComponentUtils {
  import opened Common

  // ---------------------------------------------------------------------
  // Reference designators (component_utils.py lines 336-353)

  /** A character of `[A-Za-z_]`. */
  predicate IsPrefixChar(c: char) {
    IsAlpha(c) || c == '_'
  }

  /** Length of the leading run of prefix characters. */
  function PrefixLength(s: string): (n: nat)
    ensures n <= |s|
    ensures forall k :: 0 <= k < n ==> IsPrefixChar(s[k])
    ensures n < |s| ==> !IsPrefixChar(s[n])
  {
    if s == [] || !IsPrefixChar(s[0]) then 0 else 1 + PrefixLength(s[1..])
  }

  /** `get_component_type_from_reference`. */
  function ComponentTypeFromReference(reference: string): (r: string)
  {
    Upper(reference[..PrefixLength(reference)])
  }

  /** The type is the upper-cased maximal leading run of letters and
      underscores: any run that cannot be extended gives the type. */
  lemma {:induction false} PrefixLengthIsRun(s: string, n: nat)
    requires n <= |s|
    requires forall k :: 0 <= k < n ==> IsPrefixChar(s[k])
    requires n == |s| || !IsPrefixChar(s[n])
    ensures PrefixLength(s) == n
  {
    if n > 0 {
      PrefixLengthIsRun(s[1..], n - 1);
    }
  }

  lemma ReferenceTypeIsMaximalRun(reference: string, n: nat)
    requires n <= |reference|
    requires forall k :: 0 <= k < n ==> IsPrefixChar(reference[k])
    requires n == |reference| || !IsPrefixChar(reference[n])
    ensures ComponentTypeFromReference(reference) == Upper(reference[..n])
    ensures forall k :: 0 <= k < |ComponentTypeFromReference(reference)|
              ==> IsUpperAscii(ComponentTypeFromReference(reference)[k]) || ComponentTypeFromReference(reference)[k] == '_'
  {
    PrefixLengthIsRun(reference, n);
    var r := ComponentTypeFromReference(reference);
    forall k | 0 <= k < |r| ensures IsUpperAscii(r[k]) || r[k] == '_' {
      assert r[k] == UpperChar(reference[k]);
    }
  }

  lemma ReferenceTypeExamples()
    ensures ComponentTypeFromReference("R101") == "R"
    ensures ComponentTypeFromReference("SW_SPDT2") == "SW_SPDT"
    ensures ComponentTypeFromReference("12") == ""
  {
    ReferenceTypeIsMaximalRun("R101", 1);
    ReferenceTypeIsMaximalRun("SW_SPDT2", 7);
    ReferenceTypeIsMaximalRun("12", 0);
  }

  // ---------------------------------------------------------------------
  // Decimal numbers as parsed from text

  /** Digits before and after the decimal point, as they appear. */
  datatype Decimal = Decimal(whole: string, frac: string)

  predicate AllDigits(s: string) {
    forall k :: 0 <= k < |s| ==> IsDigit(s[k])
  }

  predicate WellFormed(d: Decimal) {
    AllDigits(d.whole) && AllDigits(d.frac)
  }

  function Pow10(n: nat): (p: nat)
    ensures p >= 1
  {
    if n == 0 then 1 else 10 * Pow10(n - 1)
  }

  function Value(d: Decimal): real
    requires WellFormed(d)
  {
    DigitsValue(d.whole) as real + DigitsValue(d.frac) as real / Pow10(|d.frac|) as real
  }

  predicate AllZeros(s: string) {
    forall k :: 0 <= k < |s| ==> s[k] == '0'
  }

  lemma {:induction false} DigitsValueBound(s: string)
    requires AllDigits(s)
    ensures DigitsValue(s) < Pow10(|s|)
    ensures DigitsValue(s) == 0 <==> AllZeros(s)
  {
    if s != [] {
      var init := s[..|s| - 1];
      DigitsValueBound(init);
      if AllZeros(init) && s[|s| - 1] == '0' {
        assert AllZeros(s);
      }
      if AllZeros(s) {
        assert AllZeros(init);
      }
    }
  }

  /** A number is integral exactly when its fraction digits are all zero,
      which is the test `value.is_integer()` makes. */
  lemma IntegralIffZeroFraction(d: Decimal)
    requires WellFormed(d)
    ensures AllZeros(d.frac) <==> Value(d) == DigitsValue(d.whole) as real
    ensures 0.0 <= Value(d) - DigitsValue(d.whole) as real < 1.0
  {
    DigitsValueBound(d.frac);
    ProperFraction(DigitsValue(d.frac), Pow10(|d.frac|));
  }

  lemma ProperFraction(f: nat, p: nat)
    requires f < p
    ensures 0.0 <= f as real / p as real < 1.0
    ensures f as real / p as real == 0.0 <==> f == 0
  {
    var q := f as real / p as real;
    assert q * p as real == f as real;
  }

  function TrimTrailingZeros(s: string): (r: string)
    ensures StartsWith(s, r)
    ensures r == [] || r[|r| - 1] != '0'
    ensures AllZeros(s[|r|..])
    ensures r == [] <==> AllZeros(s)
  {
    if s != [] && s[|s| - 1] == '0' then TrimTrailingZeros(s[..|s| - 1]) else s
  }

  /** The digits of `n` read back as `n`. */
  lemma {:induction false} NatToStringValue(n: nat)
    ensures DigitsValue(NatToString(n)) == n
  {
    if n >= 10 {
      NatToStringValue(n / 10);
      var s := NatToString(n);
      assert s[..|s| - 1] == NatToString(n / 10);
    }
  }

  lemma ScaleFraction(a: nat, b: nat)
    requires b >= 1
    ensures (a * 10) as real / (b * 10) as real == a as real / b as real
  {
    var x := a as real;
    var y := b as real;
    assert (a * 10) as real == x * 10.0 && (b * 10) as real == y * 10.0;
  }

  /** Appending zero digits to a fraction keeps its value. */
  lemma {:induction false} TrailingZerosKeepFraction(s: string, t: string)
    requires AllDigits(s) && AllZeros(t)
    ensures AllDigits(s + t)
    ensures DigitsValue(s + t) as real / Pow10(|s + t|) as real == DigitsValue(s) as real / Pow10(|s|) as real
  {
    if t != [] {
      var init := t[..|t| - 1];
      TrailingZerosKeepFraction(s, init);
      var u := s + t;
      assert u[..|u| - 1] == s + init;
      assert DigitsValue(u) == DigitsValue(s + init) * 10;
      assert Pow10(|u|) == Pow10(|s + init|) * 10;
      ScaleFraction(DigitsValue(s + init), Pow10(|s + init|));
    } else {
      assert s + t == s;
    }
  }

  /** The digits Python's `str(float)` prints for a parsed number: the
      integer part without leading zeros, the fraction without trailing zeros. */
  function Canonical(d: Decimal): (c: Decimal)
    requires WellFormed(d)
    ensures WellFormed(c)
  {
    Decimal(NatToString(DigitsValue(d.whole)), TrimTrailingZeros(d.frac))
  }

  lemma CanonicalKeepsValue(d: Decimal)
    requires WellFormed(d)
    ensures Value(Canonical(d)) == Value(d)
  {
    var f := TrimTrailingZeros(d.frac);
    NatToStringValue(DigitsValue(d.whole));
    assert d.frac == f + d.frac[|f|..];
    TrailingZerosKeepFraction(f, d.frac[|f|..]);
  }

  /** `format_value`: an integral value is printed without a fraction, any
      other in plain decimal digits with its trailing zeros dropped. */
  function FormatValue(d: Decimal, unit: string): (r: string)
    requires WellFormed(d)
  {
    var c := Canonical(d);
    if AllZeros(d.frac) then c.whole + unit else c.whole + "." + c.frac + unit
  }

  /** The printed digits denote the value: integral values are printed as
      their integer without a point, others with the shortest fraction. */
  lemma FormatValueDenotes(d: Decimal, unit: string)
    requires WellFormed(d)
    ensures AllZeros(d.frac) ==> FormatValue(d, unit) == NatToString(Value(d).Floor) + unit
    ensures !AllZeros(d.frac) ==>
      FormatValue(d, unit) == Canonical(d).whole + "." + Canonical(d).frac + unit
      && Canonical(d).frac != [] && Canonical(d).frac[|Canonical(d).frac| - 1] != '0'
      && Value(Canonical(d)) == Value(d)
  {
    IntegralIffZeroFraction(d);
    CanonicalKeepsValue(d);
    if AllZeros(d.frac) {
      assert Value(d) == DigitsValue(d.whole) as real;
      assert Value(d).Floor == DigitsValue(d.whole);
    }
  }

  // ---------------------------------------------------------------------
  // Scanning digit runs

  /** The end of the run of digits starting at `i`. */
  function DigitRunEnd(s: string, i: nat): (j: nat)
    requires i <= |s|
    ensures i <= j <= |s|
    ensures forall k :: i <= k < j ==> IsDigit(s[k])
    ensures j < |s| ==> !IsDigit(s[j])
    decreases |s| - i
  {
    if i < |s| && IsDigit(s[i]) then DigitRunEnd(s, i + 1) else i
  }

  lemma RunIsDigits(s: string, i: nat, j: nat)
    requires i <= j <= |s| && forall k :: i <= k < j ==> IsDigit(s[k])
    ensures AllDigits(s[i..j])
  {
    forall k | 0 <= k < j - i ensures IsDigit(s[i..j][k]) {
      assert s[i..j][k] == s[i + k];
    }
  }

  // ---------------------------------------------------------------------
  // Resistance (component_utils.py lines 143-186)

  predicate IsInlineUnit(c: char) {
    c in "kKmMrR"
  }

  /** Unit of a resistor multiplier letter (upper-cased). */
  function ResistanceUnit(c: char): string {
    if c == 'K' then "kΩ" else if c == 'M' then "MΩ" else "Ω"
  }

  /** `(\d+)([kKmMrR])(\d+)` matches at `i`: greedy digits, a unit letter, digits. */
  predicate InlineAt(s: string, i: nat) {
    i < |s| && IsDigit(s[i])
    && var j := DigitRunEnd(s, i);
       j + 1 < |s| && IsInlineUnit(s[j]) && IsDigit(s[j + 1])
  }

  /** Leftmost position at or after `from` where the inline form matches. */
  function FirstInline(s: string, from: nat): (r: Option<nat>)
    requires from <= |s|
    ensures r.Some? ==> from <= r.value < |s| && InlineAt(s, r.value)
    ensures r.Some? ==> forall k :: from <= k < r.value ==> !InlineAt(s, k)
    ensures r.None? ==> forall k :: from <= k < |s| ==> !InlineAt(s, k)
    decreases |s| - from
  {
    if from == |s| then None
    else if InlineAt(s, from) then Some(from)
    else FirstInline(s, from + 1)
  }

  /** The inline "4k7" form: digits, unit letter, digits read as whole.frac. */
  function InlineResistance(s: string): (r: Option<(Decimal, string)>)
    ensures r.Some? ==> WellFormed(r.value.0)
  {
    match FirstInline(s, 0)
    case None => None
    case Some(i) =>
      var j := DigitRunEnd(s, i);
      var k := DigitRunEnd(s, j + 1);
      RunIsDigits(s, i, j);
      RunIsDigits(s, j + 1, k);
      Some((Decimal(s[i..j], s[j + 1..k]), ResistanceUnit(UpperChar(s[j]))))
  }

  predicate IsStandardUnit(c: char) {
    c in "kKmMrRΩω"
  }

  /** The first digit of `s` at or after `from`. */
  function FirstDigit(s: string, from: nat): (r: Option<nat>)
    requires from <= |s|
    ensures r.Some? ==> from <= r.value < |s| && IsDigit(s[r.value])
    ensures r.Some? ==> forall k :: from <= k < r.value ==> !IsDigit(s[k])
    ensures r.None? <==> forall k :: from <= k < |s| ==> !IsDigit(s[k])
    decreases |s| - from
  {
    if from == |s| then None
    else if IsDigit(s[from]) then Some(from)
    else FirstDigit(s, from + 1)
  }

  function SpaceRunEnd(s: string, i: nat): (j: nat)
    requires i <= |s|
    ensures i <= j <= |s|
    ensures j < |s| ==> !IsSpace(s[j])
    decreases |s| - i
  {
    if i < |s| && IsSpace(s[i]) then SpaceRunEnd(s, i + 1) else i
  }

  /** The standard form `(\d+\.?\d*)\s*([kKmMrRΩ]?)` at the first digit;
      ignoring case lets 'ω' stand for 'Ω'. */
  function StandardResistance(s: string): (r: Option<(Decimal, string)>)
    ensures r.Some? ==> WellFormed(r.value.0)
    ensures r.None? <==> forall k :: 0 <= k < |s| ==> !IsDigit(s[k])
  {
    match FirstDigit(s, 0)
    case None => None
    case Some(i) =>
      var j := DigitRunEnd(s, i);
      RunIsDigits(s, i, j);
      var (frac, numEnd) :=
        if j < |s| && s[j] == '.' then
          var k := DigitRunEnd(s, j + 1);
          RunIsDigits(s, j + 1, k);
          (s[j + 1..k], k)
        else ([], j);
      var w := SpaceRunEnd(s, numEnd);
      var unit := if w < |s| && IsStandardUnit(s[w]) then
                    (if UpperChar(s[w]) == 'K' then "kΩ" else if UpperChar(s[w]) == 'M' then "MΩ" else "Ω")
                  else "Ω";
      Some((Decimal(s[i..j], frac), unit))
  }

  /** `extract_resistance_value`: the inline form first, then the standard form. */
  function ExtractResistance(s: string): (r: Option<(Decimal, string)>)
    ensures r.Some? ==> WellFormed(r.value.0)
  {
    if InlineResistance(s).Some? then InlineResistance(s) else StandardResistance(s)
  }

  predicate IsResistanceUnit(u: string) {
    u == "Ω" || u == "kΩ" || u == "MΩ"
  }

  /** Parsing fails exactly for a string without a digit. */
  lemma ResistanceNoneIffNoDigit(s: string)
    ensures ExtractResistance(s).None? <==> forall k :: 0 <= k < |s| ==> !IsDigit(s[k])
  {
    if FirstInline(s, 0).Some? {
      assert IsDigit(s[FirstInline(s, 0).value]);
    }
  }

  /** Every parse yields one of the three resistance units; the inline form,
      when present, wins, and its letter picks the unit. */
  lemma ResistanceUnits(s: string)
    ensures ExtractResistance(s).Some? ==> IsResistanceUnit(ExtractResistance(s).value.1)
    ensures FirstInline(s, 0).Some? ==>
      var j := DigitRunEnd(s, FirstInline(s, 0).value);
      ExtractResistance(s) == InlineResistance(s)
      && ((s[j] == 'k' || s[j] == 'K') ==> ExtractResistance(s).value.1 == "kΩ")
      && ((s[j] == 'm' || s[j] == 'M') ==> ExtractResistance(s).value.1 == "MΩ")
      && ((s[j] == 'r' || s[j] == 'R') ==> ExtractResistance(s).value.1 == "Ω")
  {
  }

  lemma InlineResistanceExample()
    ensures ExtractResistance("4R7") == Some((Decimal("4", "7"), "Ω"))
    ensures Value(Decimal("4", "7")) == 4.7
  {
    var s := "4R7";
    assert DigitRunEnd(s, 2) == 3;
    assert DigitRunEnd(s, 0) == 1;
    assert InlineAt(s, 0);
    assert FirstInline(s, 0) == Some(0);
    assert s[0..1] == "4" && s[2..3] == "7";
  }

  // ---------------------------------------------------------------------
  // Regulator voltage (component_utils.py lines 16-88)

  /** `78(\d{2})|79(\d{2})` matches at `i`. */
  predicate SeriesAt(s: string, i: nat) {
    i + 4 <= |s| && s[i] == '7' && (s[i + 1] == '8' || s[i + 1] == '9') && IsDigit(s[i + 2]) && IsDigit(s[i + 3])
  }

  function FirstSeries(s: string, from: nat): (r: Option<nat>)
    requires from <= |s|
    ensures r.Some? ==> from <= r.value && SeriesAt(s, r.value)
    ensures r.Some? ==> forall k :: from <= k < r.value ==> !SeriesAt(s, k)
    ensures r.None? ==> forall k :: from <= k ==> !SeriesAt(s, k)
    decreases |s| - from
  {
    if from == |s| then None
    else if SeriesAt(s, from) then Some(from)
    else FirstSeries(s, from + 1)
  }

  /** Strategy 1: the two digits after the first 78/79, when below 50. */
  function SeriesVoltage(s: string): (r: Option<nat>)
    ensures r.Some? ==> r.value < 50
  {
    match FirstSeries(s, 0)
    case None => None
    case Some(i) =>
      var n := DigitValue(s[i + 2]) * 10 + DigitValue(s[i + 3]);
      if n < 50 then Some(n) else None
  }

  /** Strategy 3: part numbers taken as case-insensitive substrings, in order. */
  function KnownRegulators(): seq<(string, string)> {
    [("LM7805", "5V"), ("LM7809", "9V"), ("LM7812", "12V"),
     ("LM7905", "-5V"), ("LM7912", "-12V"),
     ("LM1117-3.3", "3.3V"), ("LM1117-5", "5V"),
     ("LM317", "Adjustable"), ("LM337", "Adjustable (Negative)"),
     ("AMS1117-3.3", "3.3V"), ("L7805", "5V"), ("MCP1700-3.3", "3.3V")]
  }

  function FirstKnown(s: string, table: seq<(string, string)>): (r: Option<string>)
    ensures r.Some? ==> exists k :: 0 <= k < |table| && r.value == table[k].1 && Contains(Lower(s), Lower(table[k].0))
    ensures r.None? <==> forall k :: 0 <= k < |table| ==> !Contains(Lower(s), Lower(table[k].0))
  {
    if table == [] then None
    else if Contains(Lower(s), Lower(table[0].0)) then Some(table[0].1)
    else
      var r := FirstKnown(s, table[1..]);
      assert forall k :: 1 <= k < |table| ==> table[k] == table[1..][k - 1];
      r
  }

  lemma KnownVoltagesAreNotUnknown()
    ensures forall k :: 0 <= k < |KnownRegulators()| ==> KnownRegulators()[k].1 != "unknown"
  {
    var t := KnownRegulators();
    forall k | 0 <= k < |t| ensures t[k].1 != "unknown" {
      assert t[k].1[0] != 'u';
    }
  }

  /** `extract_voltage_from_regulator`; `explicitVoltage` is the result of the
      second strategy (the "3.3V"/"-5V"/"-3.3" regular-expression family). */
  function RegulatorVoltage(s: string, explicitVoltage: Option<string>): (r: string)
  {
    match SeriesVoltage(s)
    case Some(n) => NatToString(n) + "V"
    case None =>
      if explicitVoltage.Some? then explicitVoltage.value
      else match FirstKnown(s, KnownRegulators())
        case Some(v) => v
        case None => "unknown"
  }

  /** The 78xx/79xx form wins over every other strategy, without a sign. */
  lemma SeriesVoltageFirst(s: string, explicitVoltage: Option<string>)
    requires FirstSeries(s, 0).Some?
    requires var i := FirstSeries(s, 0).value; DigitValue(s[i + 2]) * 10 + DigitValue(s[i + 3]) < 50
    ensures var i := FirstSeries(s, 0).value;
            RegulatorVoltage(s, explicitVoltage) == NatToString(DigitValue(s[i + 2]) * 10 + DigitValue(s[i + 3])) + "V"
  {
  }

  lemma SeriesExample7805()
    ensures RegulatorVoltage("LM7805CT", None) == "5V"
  {
    assert !SeriesAt("LM7805CT", 0) && !SeriesAt("LM7805CT", 1) && SeriesAt("LM7805CT", 2);
    assert FirstSeries("LM7805CT", 0) == Some(2);
  }

  lemma SeriesExample7912()
    ensures RegulatorVoltage("7912", None) == "12V"
  {
    assert SeriesAt("7912", 0);
    assert NatToString(12) == "12";
  }

  /** "unknown" exactly when no strategy applies (the second strategy never
      yields that text). */
  lemma UnknownIffNoStrategy(s: string, explicitVoltage: Option<string>)
    requires explicitVoltage != Some("unknown")
    ensures RegulatorVoltage(s, explicitVoltage) == "unknown"
        <==> SeriesVoltage(s).None? && explicitVoltage.None? && FirstKnown(s, KnownRegulators()).None?
  {
    match SeriesVoltage(s)
    case Some(n) =>
      var t := NatToString(n) + "V";
      assert t[|t| - 1] == 'V';
    case None =>
      if explicitVoltage.None? {
        match FirstKnown(s, KnownRegulators())
        case Some(v) =>
          KnownVoltagesAreNotUnknown();
        case None =>
      }
  }

  // ---------------------------------------------------------------------
  // normalize_component_value (component_utils.py lines 303-333)

  /** `capacitance` and `inductance` are the results of the capacitor and
      inductor parsers, which work like the resistance one. */
  function NormalizeComponentValue(value: string, componentType: string,
                                   capacitance: Option<(Decimal, string)>, inductance: Option<(Decimal, string)>,
                                   explicitVoltage: Option<string>): (r: string)
    requires capacitance.Some? ==> WellFormed(capacitance.value.0)
    requires inductance.Some? ==> WellFormed(inductance.value.0)
  {
    var parsed := if componentType == "R" then ExtractResistance(value)
                  else if componentType == "C" then capacitance
                  else if componentType == "L" then inductance
                  else None;
    if parsed.Some? then FormatValue(parsed.value.0, parsed.value.1)
    else if StartsWith(componentType, "U") && RegulatorVoltage(value, explicitVoltage) != "unknown" then
      RegulatorVoltage(value, explicitVoltage)
    else value
  }

  /** The value is returned unchanged unless an R/C/L parse succeeds (then
      it is formatted) or a U-type part yields a known voltage. */
  lemma NormalizeKeepsUnparsed(value: string, componentType: string,
                               capacitance: Option<(Decimal, string)>, inductance: Option<(Decimal, string)>,
                               explicitVoltage: Option<string>)
    requires capacitance.Some? ==> WellFormed(capacitance.value.0)
    requires inductance.Some? ==> WellFormed(inductance.value.0)
    ensures var r := NormalizeComponentValue(value, componentType, capacitance, inductance, explicitVoltage);
            r != value ==>
              (componentType == "R" && ExtractResistance(value).Some?)
              || (componentType == "C" && capacitance.Some?)
              || (componentType == "L" && inductance.Some?)
              || (StartsWith(componentType, "U") && RegulatorVoltage(value, explicitVoltage) != "unknown")
    ensures componentType == "R" && ExtractResistance(value).Some? ==>
              NormalizeComponentValue(value, componentType, capacitance, inductance, explicitVoltage)
              == FormatValue(ExtractResistance(value).value.0, ExtractResistance(value).value.1)
    ensures componentType == "C" && capacitance.Some? ==>
              NormalizeComponentValue(value, componentType, capacitance, inductance, explicitVoltage)
              == FormatValue(capacitance.value.0, capacitance.value.1)
    ensures componentType == "L" && inductance.Some? ==>
              NormalizeComponentValue(value, componentType, capacitance, inductance, explicitVoltage)
              == FormatValue(inductance.value.0, inductance.value.1)
  {
  }

  /** A resistor value without any digit is returned as given. */
  lemma NormalizeResistorWithoutDigits(value: string, explicitVoltage: Option<string>)
    requires forall k :: 0 <= k < |value| ==> !IsDigit(value[k])
    ensures NormalizeComponentValue(value, "R", None, None, explicitVoltage) == value
  {
    ResistanceNoneIffNoDigit(value);
    assert !StartsWith("R", "U") by { assert "R"[..1][0] != 'U'; }
  }

  // ---------------------------------------------------------------------
  // is_power_component (component_utils.py lines 356-388)

  function PowerPrefixes(): seq<string> { ["VR", "PS", "REG", "V"] }

  function PowerTerms(): seq<string> { ["VCC", "VDD", "GND", "POWER", "PWR", "SUPPLY", "REGULATOR", "LDO"] }

  predicate StartsWithAny(s: string, prefixes: seq<string>) {
    exists k :: 0 <= k < |prefixes| && StartsWith(s, prefixes[k])
  }

  predicate DigitsAt(s: string, i: nat, n: nat) {
    i + n <= |s| && forall k :: i <= k < i + n ==> IsDigit(s[k])
  }

  /** `re.search(prefix + r"\d{n}", s)`. */
  predicate PrefixThenDigits(s: string, prefix: string, n: nat) {
    exists i :: 0 <= i <= |s| && OccursAt(s, prefix, i) && DigitsAt(s, i + |prefix|, n)
  }

  /** The part-number patterns 78dd, 79dd, LMddd[d], AMSdddd, MCPdddd. */
  predicate RegulatorPartNumber(s: string) {
    PrefixThenDigits(s, "78", 2) || PrefixThenDigits(s, "79", 2) || PrefixThenDigits(s, "LM", 3)
    || PrefixThenDigits(s, "AMS", 4) || PrefixThenDigits(s, "MCP", 4)
  }

  /** `is_power_component`; a missing key reads as "". */
  predicate IsPowerComponent(reference: string, value: string, libId: string) {
    StartsWithAny(Upper(reference), PowerPrefixes())
    || (exists k :: 0 <= k < |PowerTerms()| && (Contains(Upper(value), PowerTerms()[k]) || Contains(Upper(libId), PowerTerms()[k])))
    || RegulatorPartNumber(Upper(value))
  }

  /** The prefix heuristic is exactly "starts with V, PS or REG" ("VR" is
      subsumed by "V"), and it alone makes a component power-related. */
  lemma PowerPrefixRule(reference: string, value: string, libId: string)
    ensures StartsWithAny(Upper(reference), PowerPrefixes())
        <==> StartsWith(Upper(reference), "V") || StartsWith(Upper(reference), "PS") || StartsWith(Upper(reference), "REG")
    ensures StartsWith(Upper(reference), "V") || StartsWith(Upper(reference), "PS") || StartsWith(Upper(reference), "REG")
        ==> IsPowerComponent(reference, value, libId)
  {
    var u := Upper(reference);
    if StartsWith(u, "VR") {
      assert u[..1] == u[..2][..1];
      assert StartsWith(u, "V");
    }
    if StartsWith(u, "V") {
      assert StartsWith(u, PowerPrefixes()[3]);
    }
    if StartsWith(u, "PS") {
      assert StartsWith(u, PowerPrefixes()[1]);
    }
    if StartsWith(u, "REG") {
      assert StartsWith(u, PowerPrefixes()[2]);
    }
  }
}
