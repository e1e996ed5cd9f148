/** `.env` loading and comma-separated list variables. The process
    environment is a map passed in and returned; the file is given as its
    lines (None when no `.env` file was found). */
module Env {
  import opened Common

  type Environment = map<string, string>

  /** One pair of matching surrounding double or single quotes removed;
      Python's `value[1:-1]` on the one-character value `"` is empty. */
  function Unquote(v: string): (r: string)
    ensures |r| <= |v|
  {
    if |v| >= 1 && ((v[0] == '"' && v[|v| - 1] == '"') || (v[0] == '\'' && v[|v| - 1] == '\'')) then
      if |v| >= 2 then v[1..|v| - 1] else []
    else v
  }

  lemma UnquoteExamples()
    ensures Unquote("\"abc\"") == "abc" && Unquote("'abc'") == "abc"
    ensures Unquote("\"abc'") == "\"abc'" && Unquote("\"") == ""
  {
  }

  /** One line of the file: None for blank, comment and `=`-less lines;
      otherwise the stripped key and the stripped, unquoted value, with
      `expand` (the home-directory expansion) applied when it holds a `~`. */
  function ParseEnvLine(line: string, expand: string -> string): Option<(string, string)> {
    var l := Strip(line);
    if l == [] || l[0] == '#' then None
    else match SplitOnce(l, "=")
      case None => None
      case Some((k, v)) =>
        var value := Unquote(Strip(v));
        Some((Strip(k), if Contains(value, "~") then expand(value) else value))
  }

  /** Blank lines, comments and lines without `=` are skipped; any other
      line is split at its first `=`. */
  lemma ParseEnvLineSkips(line: string, expand: string -> string)
    ensures ParseEnvLine(line, expand).None? <==>
      Strip(line) == [] || Strip(line)[0] == '#' || !Contains(Strip(line), "=")
    ensures ParseEnvLine(line, expand).Some? ==>
      var (before, after) := SplitOnce(Strip(line), "=").value;
      ParseEnvLine(line, expand).value.0 == Strip(before) && !Contains(before, "=")
    ensures ParseEnvLine(line, expand).Some? ==>
      var (before, after) := SplitOnce(Strip(line), "=").value;
      var u := Unquote(Strip(after));
      ParseEnvLine(line, expand).value.1 == (if Contains(u, "~") then expand(u) else u)
  {
  }

  /** Python's `os.environ[key] = value` rejects an empty key, a key with
      `=` or a NUL character in either (`ValueError`). */
  predicate AcceptedByEnviron(key: string, value: string) {
    key != [] && '=' !in key && 0 as char !in key && 0 as char !in value
  }

  /** `m` after the parsed lines in order; a rejected assignment raises,
      which ends the loading loop. */
  function Applied(m: Environment, ps: seq<Option<(string, string)>>): (r: Environment)
    decreases |ps|
  {
    if ps == [] then m
    else match ps[0]
      case None => Applied(m, ps[1..])
      case Some((k, v)) =>
        if AcceptedByEnviron(k, v) then Applied(m[k := v], ps[1..]) else m
  }

  predicate AllAccepted(ps: seq<Option<(string, string)>>) {
    forall i :: 0 <= i < |ps| ==> ps[i].None? || AcceptedByEnviron(ps[i].value.0, ps[i].value.1)
  }

  /** Later lines override earlier ones. */
  lemma {:induction false} AppliedAppend(m: Environment, ps: seq<Option<(string, string)>>, p: Option<(string, string)>)
    requires AllAccepted(ps)
    ensures Applied(m, ps + [p]) ==
      match p
      case None => Applied(m, ps)
      case Some((k, v)) => if AcceptedByEnviron(k, v) then Applied(m, ps)[k := v] else Applied(m, ps)
    decreases |ps|
  {
    if ps == [] {
      assert [] + [p] == [p];
    } else {
      assert (ps + [p])[1..] == ps[1..] + [p];
      assert ps[0].None? || AcceptedByEnviron(ps[0].value.0, ps[0].value.1);
      assert AllAccepted(ps[1..]) by {
        forall i | 0 <= i < |ps[1..]| ensures ps[1..][i].None? || AcceptedByEnviron(ps[1..][i].value.0, ps[1..][i].value.1) {
          assert ps[1..][i] == ps[i + 1];
        }
      }
      match ps[0]
      case None => AppliedAppend(m, ps[1..], p);
      case Some((k, v)) => AppliedAppend(m[k := v], ps[1..], p);
    }
  }

  /** Every loaded key is already in `m` or is the key of some parsed line. */
  lemma {:induction false} AppliedKeys(m: Environment, ps: seq<Option<(string, string)>>, k: string)
    requires k in Applied(m, ps)
    ensures k in m || exists i :: 0 <= i < |ps| && ps[i].Some? && ps[i].value.0 == k
    decreases |ps|
  {
    if ps != [] {
      match ps[0]
      case None =>
        AppliedKeys(m, ps[1..], k);
        if !(k in m) {
          var i :| 0 <= i < |ps[1..]| && ps[1..][i].Some? && ps[1..][i].value.0 == k;
          assert ps[1..][i] == ps[i + 1];
        }
      case Some((k', v)) =>
        if AcceptedByEnviron(k', v) {
          AppliedKeys(m[k' := v], ps[1..], k);
          if !(k in m) && k != k' {
            var i :| 0 <= i < |ps[1..]| && ps[1..][i].Some? && ps[1..][i].value.0 == k;
            assert ps[1..][i] == ps[i + 1];
          }
        }
    }
  }

  function ParsedLines(lines: seq<string>, expand: string -> string): (r: seq<Option<(string, string)>>)
    ensures |r| == |lines|
    ensures forall i :: 0 <= i < |lines| ==> r[i] == ParseEnvLine(lines[i], expand)
  {
    if lines == [] then [] else [ParseEnvLine(lines[0], expand)] + ParsedLines(lines[1..], expand)
  }

  /** `load_dotenv`: returns the new environment and the pairs it loaded. */
  method LoadDotenv(file: Option<seq<string>>, env: Environment, expand: string -> string)
    returns (newEnv: Environment, loaded: Environment)
    ensures file.None? ==> newEnv == env && loaded == map[]
    ensures file.Some? ==> newEnv == Applied(env, ParsedLines(file.value, expand))
    ensures file.Some? ==> loaded == Applied(map[], ParsedLines(file.value, expand))
  {
    newEnv, loaded := env, map[];
    if file.None? {
      return;
    }
    var lines := file.value;
    ghost var ps := ParsedLines(lines, expand);
    var i := 0;
    while i < |lines|
      invariant 0 <= i <= |lines|
      invariant Applied(newEnv, ps[i..]) == Applied(env, ps)
      invariant Applied(loaded, ps[i..]) == Applied(map[], ps)
    {
      assert ps[i..][1..] == ps[i + 1..];
      var parsed := ParseEnvLine(lines[i], expand);
      if parsed.Some? {
        var (key, value) := parsed.value;
        if !AcceptedByEnviron(key, value) {
          // os.environ raises; the exception handler ends the loading.
          return;
        }
        newEnv := newEnv[key := value];
        loaded := loaded[key := value];
      }
      i := i + 1;
    }
  }

  /** The stripped, non-empty pieces, in order. */
  function NonEmptyStripped(pieces: seq<string>): (r: seq<string>)
    ensures |r| <= |pieces|
    ensures forall i :: 0 <= i < |r| ==> r[i] != [] && !IsSpace(r[i][0]) && !IsSpace(r[i][|r[i]| - 1])
  {
    if pieces == [] then []
    else
      var item := Strip(pieces[0]);
      (if item != [] then [item] else []) + NonEmptyStripped(pieces[1..])
  }

  /** Every piece stripped, in order. */
  function StrippedAll(pieces: seq<string>): (r: seq<string>)
    ensures |r| == |pieces|
    ensures forall i :: 0 <= i < |pieces| ==> r[i] == Strip(pieces[i])
  {
    seq(|pieces|, i requires 0 <= i < |pieces| => Strip(pieces[i]))
  }

  predicate NonBlank(piece: string) {
    Strip(piece) != []
  }

  /** `a` is `b` with some entries dropped and the rest kept in order. */
  predicate Selection(a: seq<string>, b: seq<string>)
    decreases |b|
  {
    if a == [] then true
    else if b == [] then false
    else (a[0] == b[0] && Selection(a[1..], b[1..])) || Selection(a, b[1..])
  }

  /** The items are an order-preserving selection of the stripped pieces. */
  lemma {:induction false} NonEmptyStrippedIsSelection(pieces: seq<string>)
    ensures Selection(NonEmptyStripped(pieces), StrippedAll(pieces))
    decreases |pieces|
  {
    if pieces != [] {
      NonEmptyStrippedIsSelection(pieces[1..]);
      var all := StrippedAll(pieces);
      assert all[1..] == StrippedAll(pieces[1..]);
      var r := NonEmptyStripped(pieces);
      if Strip(pieces[0]) != [] {
        assert r[0] == all[0] && r[1..] == NonEmptyStripped(pieces[1..]);
      } else {
        assert r == NonEmptyStripped(pieces[1..]);
      }
    }
  }

  /** Every item is some piece, stripped. */
  lemma {:induction false} ItemSource(pieces: seq<string>, i: nat) returns (j: nat)
    requires i < |NonEmptyStripped(pieces)|
    ensures j < |pieces| && NonEmptyStripped(pieces)[i] == Strip(pieces[j])
    decreases |pieces|
  {
    var first := Strip(pieces[0]);
    var rest := NonEmptyStripped(pieces[1..]);
    var k: nat := i;
    if first != [] {
      assert NonEmptyStripped(pieces) == [first] + rest;
      if i == 0 {
        return 0;
      }
      k := i - 1;
    } else {
      assert NonEmptyStripped(pieces) == rest;
    }
    assert NonEmptyStripped(pieces)[i] == rest[k];
    var m := ItemSource(pieces[1..], k);
    var piece := pieces[1..][m];
    assert piece == pieces[m + 1];
    assert rest[k] == Strip(piece);
    j := m + 1;
  }

  /** A piece that does not strip to nothing is kept, stripped. */
  lemma {:induction false} StrippedPieceKept(pieces: seq<string>, j: nat)
    requires j < |pieces| && Strip(pieces[j]) != []
    ensures Strip(pieces[j]) in NonEmptyStripped(pieces)
    decreases |pieces|
  {
    var head := if Strip(pieces[0]) != [] then [Strip(pieces[0])] else [];
    var rest := NonEmptyStripped(pieces[1..]);
    assert NonEmptyStripped(pieces) == head + rest;
    if j > 0 {
      StrippedPieceKept(pieces[1..], j - 1);
      assert pieces[1..][j - 1] == pieces[j];
    }
  }

  /** An item is exactly a non-empty stripped piece. */
  lemma NonEmptyStrippedMembers(pieces: seq<string>, x: string)
    ensures x in NonEmptyStripped(pieces) <==>
      exists j :: 0 <= j < |pieces| && x == Strip(pieces[j]) && x != []
  {
    var r := NonEmptyStripped(pieces);
    if x in r {
      var i :| 0 <= i < |r| && r[i] == x;
      var j := ItemSource(pieces, i);
    }
    if exists j :: 0 <= j < |pieces| && x == Strip(pieces[j]) && x != [] {
      var j :| 0 <= j < |pieces| && x == Strip(pieces[j]) && x != [];
      StrippedPieceKept(pieces, j);
    }
  }

  /** One item per non-blank piece. */
  lemma {:induction false} NonEmptyStrippedCount(pieces: seq<string>)
    ensures |NonEmptyStripped(pieces)| == Count(pieces, NonBlank)
    decreases |pieces|
  {
    if pieces != [] {
      NonEmptyStrippedCount(pieces[1..]);
    }
  }

  /** `get_env_list` on any variable: the comma-separated pieces of its
      value (or of the default) are stripped, blank ones are dropped, and
      the rest are kept in order, one item per non-blank piece. */
  lemma GetEnvListPieces(env: Environment, name: string, default: string, x: string)
    ensures var pieces := Split(if name in env then env[name] else default, ",");
      Selection(GetEnvList(env, name, default), StrippedAll(pieces))
      && (x in GetEnvList(env, name, default) <==> exists j :: 0 <= j < |pieces| && x == Strip(pieces[j]) && x != [])
      && |GetEnvList(env, name, default)| == Count(pieces, NonBlank)
  {
    var value := if name in env then env[name] else default;
    var pieces := Split(value, ",");
    if value == [] {
      assert pieces == [[]];
      assert Strip(pieces[0]) == [];
    }
    assert GetEnvList(env, name, default) == NonEmptyStripped(pieces);
    NonEmptyStrippedIsSelection(pieces);
    NonEmptyStrippedMembers(pieces, x);
    NonEmptyStrippedCount(pieces);
  }

  /** `get_env_list`: [] for an unset or empty variable, otherwise the
      comma-separated items, stripped, with empty ones dropped. */
  function GetEnvList(env: Environment, name: string, default: string): (r: seq<string>)
    ensures (if name in env then env[name] else default) == [] ==> r == []
    ensures forall i :: 0 <= i < |r| ==> r[i] != [] && !IsSpace(r[i][0]) && !IsSpace(r[i][|r[i]| - 1])
  {
    var value := if name in env then env[name] else default;
    if value == [] then [] else NonEmptyStripped(Split(value, ","))
  }
}
