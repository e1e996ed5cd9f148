/** Template substitution in test configurations: every "{temp_dir}" in a
    string, and in every string leaf of a JSON-like value, is replaced by a
    test's temporary directory. */
module TempManager {
  import opened Common

  const Template: string := "{temp_dir}"

  /** A JSON-like configuration value; dictionaries are key/value lists in
      insertion order, and numbers, booleans and null are opaque tokens. */
  datatype Json =
    | JStr(s: string)
    | JList(items: seq<Json>)
    | JDict(entries: seq<(string, Json)>)
    | JOther(token: int)

  /** `substitute_templates`: `text.replace("{temp_dir}", temp_dir)`. */
  function SubstituteTemplates(text: string, tempDir: string): string {
    Replace(text, Template, tempDir)
  }

  /** Python's `replace` cuts the text at every occurrence of the target and
      joins the pieces with the replacement. */
  lemma {:induction false} ReplaceIsSplitJoin(s: string, target: string, repl: string)
    requires target != []
    ensures Replace(s, target, repl) == Join(Split(s, target), repl)
    decreases |s|
  {
    match Find(s, target)
    case None =>
    case Some(i) =>
      var rest := s[i + |target|..];
      ReplaceIsSplitJoin(rest, target, repl);
      var parts := Split(s, target);
      assert parts == [s[..i]] + Split(rest, target);
      assert |parts| > 1 && parts[0] == s[..i] && parts[1..] == Split(rest, target);
  }

  /** No piece between two cuts contains the target. */
  lemma {:induction false} SplitPiecesLackTarget(s: string, target: string)
    requires target != []
    ensures forall k :: 0 <= k < |Split(s, target)| ==> !Contains(Split(s, target)[k], target)
    decreases |s|
  {
    match Find(s, target)
    case None =>
    case Some(i) =>
      var rest := s[i + |target|..];
      SplitPiecesLackTarget(rest, target);
      NothingBeforeFirst(s, target, i);
      var parts := Split(s, target);
      assert parts == [s[..i]] + Split(rest, target);
      forall k | 0 <= k < |parts|
        ensures !Contains(parts[k], target)
      {
        if k > 0 {
          assert parts[k] == Split(rest, target)[k - 1];
        }
      }
  }

  /** Text without the template is returned unchanged. */
  lemma ReplaceWithoutTarget(s: string, target: string, repl: string)
    requires target != [] && !Contains(s, target)
    ensures Replace(s, target, repl) == s
  {
  }

  /** Substitution is not idempotent in general: a directory name can join
      the text after it into a fresh "{temp_dir}". */
  lemma SubstitutionCanCreateTemplate()
    ensures SubstituteTemplates("{temp_dir}_dir}", "{temp") == "{temp_dir}"
  {
    assert Find("{temp_dir}_dir}", Template) == Some(0);
    assert Find("_dir}", Template) == None by {
      assert |"_dir}"| < |Template|;
    }
  }

  /** `substitute_dict_templates`: strings are substituted, lists and
      dictionaries recursively (keys untouched), anything else returned as is. */
  function SubstituteDictTemplates(data: Json, tempDir: string): (r: Json)
    decreases data, 2
  {
    match data
    case JStr(s) => JStr(SubstituteTemplates(s, tempDir))
    case JList(items) => JList(SubstituteItems(items, tempDir))
    case JDict(entries) => JDict(SubstituteEntries(entries, tempDir))
    case JOther(_) => data
  }

  function SubstituteItems(items: seq<Json>, tempDir: string): (r: seq<Json>)
    decreases items, 1
  {
    if items == [] then []
    else [SubstituteDictTemplates(items[0], tempDir)] + SubstituteItems(items[1..], tempDir)
  }

  function SubstituteEntries(entries: seq<(string, Json)>, tempDir: string): (r: seq<(string, Json)>)
    decreases entries, 1
  {
    if entries == [] then []
    else
      assert entries[0].1 < entries[0];
      [(entries[0].0, SubstituteDictTemplates(entries[0].1, tempDir))] + SubstituteEntries(entries[1..], tempDir)
  }

  /** `b` has the shape of `a`: same kinds, same list lengths, same keys in
      the same order, equal non-string leaves. */
  predicate SameShape(a: Json, b: Json)
    decreases a
  {
    match a
    case JStr(_) => b.JStr?
    case JOther(_) => b == a
    case JList(items) =>
      b.JList? && |b.items| == |items| && forall i :: 0 <= i < |items| ==> SameShape(items[i], b.items[i])
    case JDict(entries) =>
      b.JDict? && |b.entries| == |entries| &&
      forall i :: 0 <= i < |entries| ==> b.entries[i].0 == entries[i].0 && SameShape(entries[i].1, b.entries[i].1)
  }

  lemma {:induction false} SubstitutionKeepsShape(data: Json, tempDir: string)
    ensures SameShape(data, SubstituteDictTemplates(data, tempDir))
    decreases data, 2
  {
    match data
    case JStr(_) =>
    case JOther(_) =>
    case JList(items) => ItemsKeepShape(items, tempDir);
    case JDict(entries) => EntriesKeepShape(entries, tempDir);
  }

  lemma {:induction false} ItemsKeepShape(items: seq<Json>, tempDir: string)
    ensures |SubstituteItems(items, tempDir)| == |items|
    ensures forall i :: 0 <= i < |items| ==> SameShape(items[i], SubstituteItems(items, tempDir)[i])
    decreases items, 1
  {
    if items != [] {
      SubstitutionKeepsShape(items[0], tempDir);
      ItemsKeepShape(items[1..], tempDir);
      forall i | 0 <= i < |items|
        ensures SameShape(items[i], SubstituteItems(items, tempDir)[i])
      {
        if i > 0 {
          assert items[i] == items[1..][i - 1];
        }
      }
    }
  }

  lemma {:induction false} EntriesKeepShape(entries: seq<(string, Json)>, tempDir: string)
    ensures |SubstituteEntries(entries, tempDir)| == |entries|
    ensures forall i :: 0 <= i < |entries| ==>
      SubstituteEntries(entries, tempDir)[i].0 == entries[i].0 && SameShape(entries[i].1, SubstituteEntries(entries, tempDir)[i].1)
    decreases entries, 1
  {
    if entries != [] {
      assert entries[0].1 < entries[0];
      SubstitutionKeepsShape(entries[0].1, tempDir);
      EntriesKeepShape(entries[1..], tempDir);
      forall i | 0 <= i < |entries|
        ensures SubstituteEntries(entries, tempDir)[i].0 == entries[i].0 && SameShape(entries[i].1, SubstituteEntries(entries, tempDir)[i].1)
      {
        if i > 0 {
          assert entries[i] == entries[1..][i - 1];
        }
      }
    }
  }

  /** `b` is `a` with every string leaf substituted. */
  predicate Substituted(a: Json, b: Json, tempDir: string)
    decreases a
  {
    match a
    case JStr(s) => b == JStr(SubstituteTemplates(s, tempDir))
    case JOther(_) => b == a
    case JList(items) =>
      b.JList? && |b.items| == |items| && forall i :: 0 <= i < |items| ==> Substituted(items[i], b.items[i], tempDir)
    case JDict(entries) =>
      b.JDict? && |b.entries| == |entries| &&
      forall i :: 0 <= i < |entries| ==> b.entries[i].0 == entries[i].0 && Substituted(entries[i].1, b.entries[i].1, tempDir)
  }

  lemma {:induction false} EveryStringLeafSubstituted(data: Json, tempDir: string)
    ensures Substituted(data, SubstituteDictTemplates(data, tempDir), tempDir)
    decreases data, 2
  {
    match data
    case JStr(_) =>
    case JOther(_) =>
    case JList(items) => ItemsSubstituted(items, tempDir);
    case JDict(entries) => EntriesSubstituted(entries, tempDir);
  }

  lemma {:induction false} ItemsSubstituted(items: seq<Json>, tempDir: string)
    ensures |SubstituteItems(items, tempDir)| == |items|
    ensures forall i :: 0 <= i < |items| ==> Substituted(items[i], SubstituteItems(items, tempDir)[i], tempDir)
    decreases items, 1
  {
    if items != [] {
      EveryStringLeafSubstituted(items[0], tempDir);
      ItemsSubstituted(items[1..], tempDir);
      forall i | 0 <= i < |items|
        ensures Substituted(items[i], SubstituteItems(items, tempDir)[i], tempDir)
      {
        if i > 0 {
          assert items[i] == items[1..][i - 1];
        }
      }
    }
  }

  lemma {:induction false} EntriesSubstituted(entries: seq<(string, Json)>, tempDir: string)
    ensures |SubstituteEntries(entries, tempDir)| == |entries|
    ensures forall i :: 0 <= i < |entries| ==>
      SubstituteEntries(entries, tempDir)[i].0 == entries[i].0 && Substituted(entries[i].1, SubstituteEntries(entries, tempDir)[i].1, tempDir)
    decreases entries, 1
  {
    if entries != [] {
      assert entries[0].1 < entries[0];
      EveryStringLeafSubstituted(entries[0].1, tempDir);
      EntriesSubstituted(entries[1..], tempDir);
      forall i | 0 <= i < |entries|
        ensures SubstituteEntries(entries, tempDir)[i].0 == entries[i].0 && Substituted(entries[i].1, SubstituteEntries(entries, tempDir)[i].1, tempDir)
      {
        if i > 0 {
          assert entries[i] == entries[1..][i - 1];
        }
      }
    }
  }
}
