/** Test configurations of the HTTP system tests: their defaults, the lint
    rules `validate_config` applies, and the loader's registry of loaded
    configurations by test name. */
module TestConfig {
  import opened Common
  import TempManager

  datatype McpCall = McpCall(tool: string, params: Dict<string, TempManager.Json>)

  datatype ValidationConfig = ValidationConfig(kind: string, path: string, expected: Option<TempManager.Json>, format: Option<string>)

  datatype Config = Config(
    testName: string,
    description: string,
    mcpCalls: seq<McpCall>,
    validations: seq<ValidationConfig>,
    timeout: int,
    skipCleanup: bool)

  /** A configuration with only the required fields given. */
  function NewConfig(testName: string, description: string): (c: Config)
    ensures c.testName == testName && c.description == description
    ensures c.timeout == 60 && !c.skipCleanup && c.mcpCalls == [] && c.validations == []
  {
    Config(testName, description, [], [], 60, false)
  }

  const DuplicateCalls: string := "Duplicate tool calls detected"
  const NoValidations: string := "No validations specified"
  const TimeoutTooShort: string := "Timeout may be too short (< 5 seconds)"
  const TimeoutTooLong: string := "Timeout may be too long (> 5 minutes)"

  function PathIssue(path: string): string {
    "Validation path '" + path + "' should use {temp_dir} template"
  }

  function ToolNames(calls: seq<McpCall>): (r: seq<string>)
    ensures |r| == |calls| && forall i :: 0 <= i < |calls| ==> r[i] == calls[i].tool
  {
    if calls == [] then [] else [calls[0].tool] + ToolNames(calls[1..])
  }

  /** `len(tool_names) != len(set(tool_names))`. */
  function DuplicateIssues(calls: seq<McpCall>): (r: seq<string>)
    ensures r == (if Distinct(ToolNames(calls)) then [] else [DuplicateCalls])
  {
    DistinctIffSetSize(ToolNames(calls));
    if |Elements(ToolNames(calls))| != |ToolNames(calls)| then [DuplicateCalls] else []
  }

  function PathIssues(vs: seq<ValidationConfig>): (r: seq<string>)
    ensures |r| <= |vs|
  {
    if vs == [] then []
    else (if Contains(vs[0].path, TempManager.Template) then [] else [PathIssue(vs[0].path)]) + PathIssues(vs[1..])
  }

  function MissingTemplate(vs: seq<ValidationConfig>): (n: nat) {
    Count(vs, (v: ValidationConfig) => !Contains(v.path, TempManager.Template))
  }

  /** One issue per validation path without "{temp_dir}", in order. */
  lemma {:induction false} PathIssuesCount(vs: seq<ValidationConfig>)
    ensures |PathIssues(vs)| == MissingTemplate(vs)
  {
    if vs != [] {
      PathIssuesCount(vs[1..]);
    }
  }

  function TimeoutIssues(timeout: int): (r: seq<string>)
    ensures |r| <= 1
    ensures r == [] <==> 5 <= timeout <= 300
  {
    if timeout < 5 then [TimeoutTooShort] else if timeout > 300 then [TimeoutTooLong] else []
  }

  /** Every issue `validate_config` reports, in the order it reports them. */
  function ConfigIssues(c: Config): seq<string> {
    DuplicateIssues(c.mcpCalls)
      + (if c.validations == [] then [NoValidations] else [])
      + PathIssues(c.validations)
      + TimeoutIssues(c.timeout)
  }

  /** The issue count is the number of rules a configuration breaks, counting
      each path without the template once. */
  lemma ConfigIssuesCount(c: Config)
    ensures |ConfigIssues(c)| ==
      (if Distinct(ToolNames(c.mcpCalls)) then 0 else 1)
      + (if c.validations == [] then 1 else 0)
      + MissingTemplate(c.validations)
      + (if 5 <= c.timeout <= 300 then 0 else 1)
  {
    PathIssuesCount(c.validations);
  }

  /** A configuration that follows every rule gets no issues. */
  lemma CleanConfigHasNoIssues(c: Config)
    ensures ConfigIssues(c) == [] <==>
      Distinct(ToolNames(c.mcpCalls)) && c.validations != [] && MissingTemplate(c.validations) == 0 && 5 <= c.timeout <= 300
  {
    ConfigIssuesCount(c);
  }

  class TestConfigLoader {
    /** Loaded configurations by test name, in first-load order. */
    var loadedConfigs: Dict<string, Config>

    constructor()
      ensures loadedConfigs == []
    {
      loadedConfigs := [];
    }

    /** `validate_config`. */
    method ValidateConfig(c: Config) returns (issues: seq<string>)
      ensures issues == ConfigIssues(c)
    {
      issues := [];
      var toolNames := ToolNames(c.mcpCalls);
      DistinctIffSetSize(toolNames);
      if |Elements(toolNames)| != |toolNames| {
        issues := issues + [DuplicateCalls];
      }
      if c.validations == [] {
        issues := issues + [NoValidations];
      }
      assert issues == DuplicateIssues(c.mcpCalls) + (if c.validations == [] then [NoValidations] else []);
      ghost var before := issues;
      var i := 0;
      while i < |c.validations|
        invariant 0 <= i <= |c.validations|
        invariant issues + PathIssues(c.validations[i..]) == before + PathIssues(c.validations)
      {
        var v := c.validations[i];
        assert c.validations[i..][1..] == c.validations[i + 1..];
        if !Contains(v.path, TempManager.Template) {
          issues := issues + [PathIssue(v.path)];
        }
        i := i + 1;
      }
      assert c.validations[i..] == [];
      assert issues == DuplicateIssues(c.mcpCalls) + (if c.validations == [] then [NoValidations] else []) + PathIssues(c.validations);
      if c.timeout < 5 {
        issues := issues + [TimeoutTooShort];
      } else if c.timeout > 300 {
        issues := issues + [TimeoutTooLong];
      }
    }

    /** The registration step of `load_config_file`, once the JSON is parsed. */
    method RecordLoaded(c: Config)
      modifies this
      ensures loadedConfigs == Put(old(loadedConfigs), c.testName, c)
    {
      loadedConfigs := Put(loadedConfigs, c.testName, c);
    }

    /** `get_config`. */
    method GetConfig(testName: string) returns (r: Option<Config>)
      ensures r == Lookup(loadedConfigs, testName)
    {
      r := Lookup(loadedConfigs, testName);
    }

    /** `list_loaded_configs`. */
    method ListLoadedConfigs() returns (names: seq<string>)
      ensures names == Keys(loadedConfigs)
    {
      names := Keys(loadedConfigs);
    }
  }

  /** The last configuration loaded under a name is the one returned for it. */
  lemma LoadedConfigIsReturned(d: Dict<string, Config>, c: Config, name: string)
    ensures Lookup(Put(d, c.testName, c), name) == if name == c.testName then Some(c) else Lookup(d, name)
  {
    LookupPut(d, c.testName, c, name);
  }
}
