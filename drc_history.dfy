/** DRC history: each saved DRC result becomes a history entry, the history
    keeps the ten newest entries, and a new result is compared with the most
    recent entry category by category. The history file is a field holding
    its entries (None while the file is missing or unreadable); clock values
    are parameters. */
module DrcHistory {
  import opened Common

  const MaxEntries: nat := 10

  datatype Entry = Entry(timestamp: Option<real>, datetime: Option<string>, totalViolations: int, categories: map<string, int>)

  /** A DRC result as passed in; missing keys are None. */
  datatype DrcResult = DrcResult(totalViolations: Option<int>, categories: Option<map<string, int>>)

  /** The entry `save_drc_result` records: missing counts default to 0 and
      missing categories to {}. */
  function NewEntry(r: DrcResult, timestamp: real, formatted: string): (e: Entry)
    ensures e.timestamp == Some(timestamp) && e.datetime == Some(formatted)
    ensures e.totalViolations == (if r.totalViolations.Some? then r.totalViolations.value else 0)
    ensures e.categories == (if r.categories.Some? then r.categories.value else map[])
  {
    Entry(Some(timestamp),
          Some(formatted),
          if r.totalViolations.Some? then r.totalViolations.value else 0,
          if r.categories.Some? then r.categories.value else map[])
  }

  /** `x.get("timestamp", 0)`. */
  function Stamp(e: Entry): real {
    if e.timestamp.Some? then e.timestamp.value else 0.0
  }

  predicate SortedDesc(s: seq<Entry>) {
    forall i, j :: 0 <= i < j < |s| ==> Stamp(s[i]) >= Stamp(s[j])
  }

  /** `e` placed after every entry not older than it (a stable insertion). */
  function InsertDesc(e: Entry, s: seq<Entry>): (r: seq<Entry>)
    ensures multiset(r) == multiset(s) + multiset{e}
    ensures |r| == |s| + 1
  {
    if s == [] then [e]
    else if Stamp(s[0]) >= Stamp(e) then
      assert s == [s[0]] + s[1..];
      [s[0]] + InsertDesc(e, s[1..])
    else [e] + s
  }

  lemma {:induction false} InsertDescSorted(e: Entry, s: seq<Entry>)
    requires SortedDesc(s)
    ensures SortedDesc(InsertDesc(e, s))
  {
    if s != [] && Stamp(s[0]) >= Stamp(e) {
      InsertDescSorted(e, s[1..]);
      var r := InsertDesc(e, s);
      InsertDescMembers(e, s[1..]);
      forall i, j | 0 <= i < j < |r|
        ensures Stamp(r[i]) >= Stamp(r[j])
      {
        if i == 0 {
          assert r[j] in multiset(InsertDesc(e, s[1..]));
        }
      }
    }
  }

  lemma InsertDescMembers(e: Entry, s: seq<Entry>)
    ensures forall x :: x in multiset(InsertDesc(e, s)) ==> x == e || x in s
  {
    forall x | x in multiset(InsertDesc(e, s))
      ensures x == e || x in s
    {
      assert x in multiset(s) + multiset{e};
    }
  }

  /** `sorted(entries, key=timestamp, reverse=True)`, newest first. */
  function SortDesc(s: seq<Entry>): (r: seq<Entry>)
    ensures multiset(r) == multiset(s)
    ensures |r| == |s|
  {
    if s == [] then []
    else
      assert s == s[..|s| - 1] + [s[|s| - 1]];
      InsertDesc(s[|s| - 1], SortDesc(s[..|s| - 1]))
  }

  lemma {:induction false} SortDescSorted(s: seq<Entry>)
    ensures SortedDesc(SortDesc(s))
  {
    if s != [] {
      SortDescSorted(s[..|s| - 1]);
      InsertDescSorted(s[|s| - 1], SortDesc(s[..|s| - 1]));
    }
    assert s == [] ==> s[..0] == [];
  }

  /** The entries left after appending when the history overflows. */
  function Trimmed(entries: seq<Entry>): (r: seq<Entry>)
    ensures |r| <= MaxEntries || r == entries
  {
    if |entries| > MaxEntries then SortDesc(entries)[..MaxEntries] else entries
  }

  /** After saving, at most ten entries remain; on overflow they are the ten
      newest, newest first, and every dropped entry is no newer than any kept one. */
  lemma TrimmedKeepsNewest(entries: seq<Entry>)
    requires |entries| > MaxEntries
    ensures |Trimmed(entries)| == MaxEntries && SortedDesc(Trimmed(entries))
    ensures multiset(Trimmed(entries)) <= multiset(entries)
    ensures forall i, j :: 0 <= i < MaxEntries <= j < |entries| ==> Stamp(Trimmed(entries)[i]) >= Stamp(SortDesc(entries)[j])
  {
    var sorted := SortDesc(entries);
    SortDescSorted(entries);
    assert sorted == sorted[..MaxEntries] + sorted[MaxEntries..];
    assert multiset(sorted) == multiset(sorted[..MaxEntries]) + multiset(sorted[MaxEntries..]);
  }

  /** The stored history of one project. */
  class HistoryFile {
    var stored: Option<seq<Entry>>

    constructor(stored: Option<seq<Entry>>)
      ensures this.stored == stored
    {
      this.stored := stored;
    }

    /** `save_drc_result`. Returns false, leaving the file as it was, when the
        overflow sort meets an entry without a timestamp (Python's KeyError). */
    method SaveDrcResult(r: DrcResult, timestamp: real, formatted: string) returns (saved: bool)
      modifies this
      ensures var appended := (if old(stored).Some? then old(stored).value else []) + [NewEntry(r, timestamp, formatted)];
        saved <==> |appended| <= MaxEntries || forall i :: 0 <= i < |appended| ==> appended[i].timestamp.Some?
      ensures var appended := (if old(stored).Some? then old(stored).value else []) + [NewEntry(r, timestamp, formatted)];
        saved ==> stored == Some(Trimmed(appended))
      ensures !saved ==> stored == old(stored)
    {
      var entries := if stored.Some? then stored.value else [];
      entries := entries + [NewEntry(r, timestamp, formatted)];
      if |entries| > MaxEntries {
        if exists i :: 0 <= i < |entries| && entries[i].timestamp.None? {
          return false;
        }
        entries := SortDesc(entries)[..MaxEntries];
      }
      stored := Some(entries);
      return true;
    }

    /** `get_drc_history`: newest first; [] without a readable history. */
    method GetDrcHistory() returns (h: seq<Entry>)
      ensures stored.None? ==> h == []
      ensures stored.Some? ==> h == SortDesc(stored.value)
    {
      h := if stored.None? then [] else SortDesc(stored.value);
    }
  }

  lemma HistoryIsNewestFirst(stored: seq<Entry>)
    ensures SortedDesc(SortDesc(stored)) && multiset(SortDesc(stored)) == multiset(stored)
  {
    SortDescSorted(stored);
  }

  // ---------------------------------------------------------------------
  // Comparison with the previous entry

  datatype Change = Change(current: int, previous: int, change: int)

  datatype Comparison = Comparison(
    currentViolations: int,
    previousViolations: int,
    change: int,
    previousDatetime: string,
    newCategories: map<string, int>,
    resolvedCategories: map<string, int>,
    changedCategories: map<string, Change>)

  function NewCategories(cur: map<string, int>, prev: map<string, int>): map<string, int> {
    map k | k in cur && k !in prev :: cur[k]
  }

  function ResolvedCategories(cur: map<string, int>, prev: map<string, int>): map<string, int> {
    map k | k in prev && k !in cur :: prev[k]
  }

  function ChangedCategories(cur: map<string, int>, prev: map<string, int>): map<string, Change> {
    map k | k in cur && k in prev && cur[k] != prev[k] :: Change(cur[k], prev[k], cur[k] - prev[k])
  }

  /** New, resolved and changed categories are disjoint; together with the
      unchanged ones the new and changed categories are exactly the current
      ones; a change is always current minus previous. */
  lemma CategoryDiffPartition(cur: map<string, int>, prev: map<string, int>)
    ensures NewCategories(cur, prev).Keys !! ResolvedCategories(cur, prev).Keys
    ensures NewCategories(cur, prev).Keys !! ChangedCategories(cur, prev).Keys
    ensures ResolvedCategories(cur, prev).Keys !! ChangedCategories(cur, prev).Keys
    ensures cur.Keys == NewCategories(cur, prev).Keys + ChangedCategories(cur, prev).Keys
                        + (set k | k in cur && k in prev && cur[k] == prev[k])
    ensures prev.Keys == ResolvedCategories(cur, prev).Keys + (cur.Keys * prev.Keys)
    ensures forall k :: k in ChangedCategories(cur, prev) ==>
      ChangedCategories(cur, prev)[k].change == cur[k] - prev[k] != 0
  {
  }

  /** The categories present now and not before, key by key. */
  method FindNewCategories(cur: map<string, int>, prev: map<string, int>) returns (newCats: map<string, int>)
    ensures newCats == NewCategories(cur, prev)
  {
    newCats := map[];
    var todo := cur.Keys;
    while todo != {}
      invariant todo <= cur.Keys
      invariant newCats == map k | k in cur.Keys - todo && k !in prev :: cur[k]
      decreases todo
    {
      var k :| k in todo;
      if k !in prev {
        newCats := newCats[k := cur[k]];
      }
      todo := todo - {k};
    }
  }

  /** The categories present before and not now. */
  method FindResolvedCategories(cur: map<string, int>, prev: map<string, int>) returns (resolved: map<string, int>)
    ensures resolved == ResolvedCategories(cur, prev)
  {
    resolved := map[];
    var todo := prev.Keys;
    while todo != {}
      invariant todo <= prev.Keys
      invariant resolved == map k | k in prev.Keys - todo && k !in cur :: prev[k]
      decreases todo
    {
      var k :| k in todo;
      if k !in cur {
        resolved := resolved[k := prev[k]];
      }
      todo := todo - {k};
    }
  }

  /** The categories present in both whose count differs. */
  method FindChangedCategories(cur: map<string, int>, prev: map<string, int>) returns (changed: map<string, Change>)
    ensures changed == ChangedCategories(cur, prev)
  {
    changed := map[];
    var todo := cur.Keys;
    while todo != {}
      invariant todo <= cur.Keys
      invariant changed == map k | k in cur.Keys - todo && k in prev && cur[k] != prev[k] :: Change(cur[k], prev[k], cur[k] - prev[k])
      decreases todo
    {
      var k :| k in todo;
      if k in prev && cur[k] != prev[k] {
        changed := changed[k := Change(cur[k], prev[k], cur[k] - prev[k])];
      }
      todo := todo - {k};
    }
  }

  /** `compare_with_previous`: None with fewer than two history entries,
      otherwise a comparison against `history[0]`. */
  method CompareWithPrevious(history: seq<Entry>, current: DrcResult) returns (r: Option<Comparison>)
    ensures |history| < 2 <==> r.None?
    ensures r.Some? ==> r.value.change == r.value.currentViolations - r.value.previousViolations
    ensures r.Some? ==> r.value.previousViolations == history[0].totalViolations
    ensures r.Some? ==> r.value.previousDatetime == (if history[0].datetime.Some? then history[0].datetime.value else "unknown")
    ensures r.Some? ==> r.value.currentViolations == (if current.totalViolations.Some? then current.totalViolations.value else 0)
    ensures r.Some? ==> var cur := (if current.categories.Some? then current.categories.value else map[]);
      r.value.newCategories == NewCategories(cur, history[0].categories)
      && r.value.resolvedCategories == ResolvedCategories(cur, history[0].categories)
      && r.value.changedCategories == ChangedCategories(cur, history[0].categories)
  {
    if |history| < 2 {
      return None;
    }
    var previous := history[0];
    var currentViolations := if current.totalViolations.Some? then current.totalViolations.value else 0;
    var cur := if current.categories.Some? then current.categories.value else map[];
    var prev := previous.categories;

    var newCats := FindNewCategories(cur, prev);
    var resolved := FindResolvedCategories(cur, prev);
    var changed := FindChangedCategories(cur, prev);

    var datetime := if previous.datetime.Some? then previous.datetime.value else "unknown";
    r := Some(Comparison(currentViolations, previous.totalViolations, currentViolations - previous.totalViolations,
                         datetime, newCats, resolved, changed));
  }
}
