/** File validators of the HTTP system tests: the balanced-parenthesis
    S-expression check, format dispatch, the component count, and the runner
    that dispatches a list of validation requests. File contents, JSON
    parsing and the KiCad CLI are inputs. */
module Validators {
  import opened Common

  datatype ValidationResult = ValidationResult(success: bool, message: string)

  /** `__bool__`. */
  predicate Truthy(r: ValidationResult) {
    r.success
  }

  /** What reading a path gives. */
  datatype FileState = Missing | Unreadable | Content(text: string)

  // ---------------------------------------------------------------------
  // Parenthesis depth

  function Delta(c: char): int {
    if c == '(' then 1 else if c == ')' then -1 else 0
  }

  /** Opening minus closing parentheses in `s`. */
  function Depth(s: string): int
    decreases |s|
  {
    if s == [] then 0 else Depth(s[..|s| - 1]) + Delta(s[|s| - 1])
  }

  function Newlines(s: string): nat
    decreases |s|
  {
    if s == [] then 0 else Newlines(s[..|s| - 1]) + (if s[|s| - 1] == '\n' then 1 else 0)
  }

  lemma PrefixStep(s: string, i: nat)
    requires i < |s|
    ensures Depth(s[..i + 1]) == Depth(s[..i]) + Delta(s[i])
    ensures Newlines(s[..i + 1]) == Newlines(s[..i]) + (if s[i] == '\n' then 1 else 0)
  {
    assert s[..i + 1][..i] == s[..i];
  }

  /** The count just after position k. */
  function DepthThrough(s: string, k: nat): int
    requires k < |s|
  {
    Depth(s[..k + 1])
  }

  /** The first position from `from` on whose prefix has gone negative. */
  function FirstUnderflow(s: string, from: nat): (r: Option<nat>)
    requires from <= |s|
    ensures r.Some? ==> from <= r.value < |s| && DepthThrough(s, r.value) < 0
    ensures r.Some? ==> forall k :: from <= k < r.value ==> DepthThrough(s, k) >= 0
    ensures r.None? ==> forall k :: from <= k < |s| ==> DepthThrough(s, k) >= 0
    decreases |s| - from
  {
    if from == |s| then None
    else if DepthThrough(s, from) < 0 then Some(from)
    else FirstUnderflow(s, from + 1)
  }

  datatype SexprVerdict =
    | UnmatchedClose(line: nat)
    | Unbalanced(open: int)
    | NoOpeningParen
    | WellFormed

  /** The verdict of `_validate_sexpr`: the first ')' that drives the count
      negative, with its 1-based line; otherwise the final count when it is
      not 0; otherwise whether the stripped text starts with '('. */
  function Verdict(s: string): SexprVerdict {
    match FirstUnderflow(s, 0)
    case Some(k) => UnmatchedClose(1 + Newlines(s[..k]))
    case None =>
      if Depth(s) != 0 then Unbalanced(Depth(s))
      else if StartsWith(Strip(s), "(") then WellFormed
      else NoOpeningParen
  }

  /** The character where the count first goes negative is a ')'. */
  lemma UnderflowAtClose(s: string)
    requires FirstUnderflow(s, 0).Some?
    ensures s[FirstUnderflow(s, 0).value] == ')'
  {
    var k := FirstUnderflow(s, 0).value;
    PrefixStep(s, k);
    if k > 0 {
      assert DepthThrough(s, k - 1) >= 0;
      assert s[..(k - 1) + 1] == s[..k];
    }
  }

  /** Without an underflow the final count is never negative, so an
      unbalanced text is always missing closing parentheses. */
  lemma UnbalancedMeansMissingClose(s: string)
    requires Verdict(s).Unbalanced?
    ensures Verdict(s).open > 0
  {
    if |s| > 0 {
      assert DepthThrough(s, |s| - 1) >= 0;
      assert s[..(|s| - 1) + 1] == s;
    }
  }

  function VerdictResult(v: SexprVerdict, path: string): (r: ValidationResult)
    ensures r.success <==> v.WellFormed?
  {
    match v
    case UnmatchedClose(line) => ValidationResult(false, "Unmatched closing parenthesis in " + path + " at line " + NatToString(line))
    case Unbalanced(n) => ValidationResult(false, "Unbalanced parentheses in " + path + " (missing " + IntToString(n) + " closing)")
    case NoOpeningParen => ValidationResult(false, "S-expression must start with '(' in " + path)
    case WellFormed => ValidationResult(true, "Valid S-expression format: " + path)
  }

  /** `FormatValidator._validate_sexpr`. */
  method ValidateSexpr(content: string, path: string) returns (r: ValidationResult)
    ensures r == VerdictResult(Verdict(content), path)
  {
    var parenCount := 0;
    var lineNum := 1;
    var i := 0;
    while i < |content|
      invariant 0 <= i <= |content|
      invariant parenCount == Depth(content[..i]) && parenCount >= 0
      invariant lineNum == 1 + Newlines(content[..i])
      invariant forall k :: 0 <= k < i ==> DepthThrough(content, k) >= 0
    {
      PrefixStep(content, i);
      var c := content[i];
      if c == '(' {
        parenCount := parenCount + 1;
      } else if c == ')' {
        parenCount := parenCount - 1;
        if parenCount < 0 {
          FirstUnderflowAt(content, 0, i);
          return ValidationResult(false, "Unmatched closing parenthesis in " + path + " at line " + NatToString(lineNum));
        }
      } else if c == '\n' {
        lineNum := lineNum + 1;
      }
      i := i + 1;
    }
    assert content[..i] == content;
    NoUnderflow(content, 0);
    if parenCount != 0 {
      return ValidationResult(false, "Unbalanced parentheses in " + path + " (missing " + IntToString(parenCount) + " closing)");
    }
    if !StartsWith(Strip(content), "(") {
      return ValidationResult(false, "S-expression must start with '(' in " + path);
    }
    return ValidationResult(true, "Valid S-expression format: " + path);
  }

  lemma {:induction false} FirstUnderflowAt(s: string, from: nat, i: nat)
    requires from <= i < |s| && DepthThrough(s, i) < 0
    requires forall k :: from <= k < i ==> DepthThrough(s, k) >= 0
    ensures FirstUnderflow(s, from) == Some(i)
    decreases i - from
  {
    if from < i {
      assert DepthThrough(s, from) >= 0;
      FirstUnderflowAt(s, from + 1, i);
    }
  }

  lemma {:induction false} NoUnderflow(s: string, from: nat)
    requires from <= |s|
    requires forall k :: from <= k < |s| ==> DepthThrough(s, k) >= 0
    ensures FirstUnderflow(s, from).None?
    decreases |s| - from
  {
    if from < |s| {
      assert DepthThrough(s, from) >= 0;
      NoUnderflow(s, from + 1);
    }
  }

  // ---------------------------------------------------------------------
  // Format dispatch

  /** What `FormatValidator.validate` promises: a missing file is reported
      as such, an unreadable one fails with "Could not read file <path>"
      (the error text that follows is not modelled), "json" succeeds iff the text parses
      (`isJson` stands for `json.loads` succeeding), "sexpr" and
      "s-expression" give the S-expression verdict, any other format fails. */
  predicate FormatOutcome(path: string, file: FileState, format: string, isJson: string -> bool, r: ValidationResult) {
    (file.Missing? ==> r == ValidationResult(false, "File not found: " + path))
    && (file.Unreadable? ==> !r.success && StartsWith(r.message, "Could not read file " + path))
    && (file.Content? && Lower(format) == "json" ==> (r.success <==> isJson(file.text)))
    && (file.Content? && (Lower(format) == "sexpr" || Lower(format) == "s-expression") ==>
          r == VerdictResult(Verdict(file.text), path))
    && (file.Content? && Lower(format) !in {"json", "sexpr", "s-expression"} ==>
          r == ValidationResult(false, "Unknown format: " + format))
  }

  /** `FormatValidator.validate`. */
  method ValidateFormat(path: string, file: FileState, format: string, isJson: string -> bool) returns (r: ValidationResult)
    ensures FormatOutcome(path, file, format, isJson, r)
  {
    match file
    case Missing => r := ValidationResult(false, "File not found: " + path);
    case Unreadable => r := ValidationResult(false, "Could not read file " + path);
    case Content(text) =>
      var f := Lower(format);
      if f == "json" {
        r := if isJson(text) then ValidationResult(true, "Valid JSON format: " + path)
             else ValidationResult(false, "Invalid JSON in " + path);
      } else if f == "sexpr" || f == "s-expression" {
        r := ValidateSexpr(text, path);
      } else {
        r := ValidationResult(false, "Unknown format: " + format);
      }
  }

  // ---------------------------------------------------------------------
  // Component count

  /** Python's `\s`, restricted to ASCII. */
  predicate SymbolAt(s: string, i: nat) {
    OccursAt(s, "(symbol", i) && i + 7 < |s| && IsSpace(s[i + 7])
  }

  /** Matches of the regular expression `\(symbol\s+` from `from` on. Two
      matches cannot overlap, since each starts with '(' followed by letters. */
  function SymbolCountFrom(s: string, from: nat): (n: nat)
    requires from <= |s|
    ensures n <= |s| - from
    decreases |s| - from
  {
    if from == |s| then 0
    else (if SymbolAt(s, from) then 1 else 0) + SymbolCountFrom(s, from + 1)
  }

  /** `ComponentCountValidator.validate`. */
  function ValidateComponentCount(path: string, file: FileState, expected: int): (r: ValidationResult)
    ensures r.success <==> file.Content? && SymbolCountFrom(file.text, 0) == expected
  {
    match file
    case Missing => ValidationResult(false, "File not found: " + path)
    case Unreadable => ValidationResult(false, "Could not read file " + path)
    case Content(text) =>
      var n := SymbolCountFrom(text, 0);
      if n == expected then ValidationResult(true, "Component count correct: " + NatToString(n) + " (expected " + IntToString(expected) + ")")
      else ValidationResult(false, "Component count mismatch: " + NatToString(n) + " (expected " + IntToString(expected) + ")")
  }

  // ---------------------------------------------------------------------
  // Runner

  /** One validation request; `kind` and `path` are absent or empty when the
      configuration leaves them out. */
  datatype Request = Request(kind: Option<string>, path: Option<string>, format: Option<string>, expected: Option<int>)

  /** The world a validation depends on: file contents, JSON parsing, and
      the outcome of the CLI and power-symbol validators. */
  datatype World = World(
    files: string -> FileState,
    isJson: string -> bool,
    cli: string -> ValidationResult,
    powerCount: (string, int) -> ValidationResult)

  const KnownKinds: set<string> := {"file_exists", "file_format", "kicad_cli_validate", "component_count", "power_symbol_count"}

  /** What `run_validation` returns for `kind` on `path`, or None where
      Python raises (a counting validator called without `expected`). */
  predicate ValidationOutcome(kind: string, path: string, q: Request, w: World, r: Option<ValidationResult>) {
    (r.None? <==> kind in {"component_count", "power_symbol_count"} && q.expected.None?)
    && (kind !in KnownKinds ==> r == Some(ValidationResult(false, "Unknown validation type: " + kind)))
    && (kind == "file_exists" ==>
          r == Some(if w.files(path).Missing? then ValidationResult(false, "File not found: " + path)
                    else ValidationResult(true, "File exists: " + path)))
    && (kind == "file_format" ==> r.Some? && FormatOutcome(path, w.files(path), OrElse(q.format, "json"), w.isJson, r.value))
    && (kind == "kicad_cli_validate" ==> r == Some(w.cli(path)))
    && (kind == "component_count" && q.expected.Some? ==>
          r == Some(ValidateComponentCount(path, w.files(path), q.expected.value)))
    && (kind == "power_symbol_count" && q.expected.Some? ==> r == Some(w.powerCount(path, q.expected.value)))
  }

  /** `run_validation`. */
  method RunValidation(kind: string, path: string, q: Request, w: World) returns (r: Option<ValidationResult>)
    ensures ValidationOutcome(kind, path, q, w, r)
  {
    if kind !in KnownKinds {
      return Some(ValidationResult(false, "Unknown validation type: " + kind));
    }
    if kind == "file_exists" {
      r := if w.files(path).Missing? then Some(ValidationResult(false, "File not found: " + path))
           else Some(ValidationResult(true, "File exists: " + path));
    } else if kind == "file_format" {
      var v := ValidateFormat(path, w.files(path), OrElse(q.format, "json"), w.isJson);
      r := Some(v);
    } else if kind == "kicad_cli_validate" {
      r := Some(w.cli(path));
    } else if q.expected.None? {
      r := None;
    } else if kind == "component_count" {
      r := Some(ValidateComponentCount(path, w.files(path), q.expected.value));
    } else {
      r := Some(w.powerCount(path, q.expected.value));
    }
  }

  predicate Incomplete(q: Request) {
    q.kind.None? || q.kind.value == [] || q.path.None? || q.path.value == []
  }

  /** A counting validator called without `expected` raises `TypeError`. */
  predicate Raises(q: Request) {
    !Incomplete(q) && q.kind.value in {"component_count", "power_symbol_count"} && q.expected.None?
  }

  const IncompleteRequest: ValidationResult := ValidationResult(false, "Invalid validation configuration: missing type or path")

  /** What `run_all_validations` records for one request: the configuration
      error when type or path is missing, else what `run_validation` returns. */
  predicate RequestOutcome(q: Request, w: World, r: ValidationResult) {
    if Incomplete(q) then r == IncompleteRequest else ValidationOutcome(q.kind.value, q.path.value, q, w, Some(r))
  }

  /** `run_all_validations`: one result per request, in order; None where a
      validator raises, which aborts the run. */
  method RunAllValidations(qs: seq<Request>, w: World) returns (r: Option<seq<ValidationResult>>)
    ensures r.None? <==> exists i :: 0 <= i < |qs| && Raises(qs[i])
    ensures r.Some? ==> |r.value| == |qs| && forall i :: 0 <= i < |qs| ==> RequestOutcome(qs[i], w, r.value[i])
    ensures r.Some? ==> forall i :: 0 <= i < |qs| && Incomplete(qs[i]) ==> r.value[i] == IncompleteRequest
    ensures r.Some? ==> forall i :: 0 <= i < |qs| && !Incomplete(qs[i]) && qs[i].kind.value !in KnownKinds ==>
      !r.value[i].success
  {
    var results: seq<ValidationResult> := [];
    var i := 0;
    while i < |qs|
      invariant 0 <= i <= |qs| && |results| == i
      invariant forall k :: 0 <= k < i ==> !Raises(qs[k]) && RequestOutcome(qs[k], w, results[k])
    {
      var q := qs[i];
      if Incomplete(q) {
        results := results + [IncompleteRequest];
      } else {
        var one := RunValidation(q.kind.value, q.path.value, q, w);
        if one.None? {
          return None;
        }
        results := results + [one.value];
      }
      i := i + 1;
    }
    return Some(results);
  }
}
