/** Path templates with `{{name}}` placeholders (client.py:423-446, 471).

    The placeholder pattern is the regular expression `\{\{([^}]+)\}\}`,
    applied left to right without overlaps, as `re.findall` and `re.sub` do.
    At a position holding `{{`, the greedy `[^}]+` takes every character up to
    the next `}` (or the end); the match succeeds exactly when that run is
    non-empty and is followed by `}}`. Otherwise the scan moves on by one
    character. `Tokenize` performs this scan once, and both the placeholder
    list and the substitution are read off its result. */
module PathTemplate {
  import opened Wrappers
  import opened Models

  /** A piece of a path: one literal character or one placeholder. */
  datatype Token = Lit(c: char) | Var(name: string)

  /** What `([^}]+)` can capture: non-empty, without `}`. */
  predicate ValidName(n: string) {
    |n| > 0 && '}' !in n
  }

  /** The end of the run of non-`}` characters starting at `j`. */
  function RunEnd(s: string, j: nat): (e: nat)
    requires j <= |s|
    ensures j <= e <= |s|
    ensures forall k :: j <= k < e ==> s[k] != '}'
    ensures e < |s| ==> s[e] == '}'
    decreases |s| - j
  {
    if j == |s| || s[j] == '}' then j else RunEnd(s, j + 1)
  }

  /** The placeholder name matched at the start of `s`, if any. */
  function MatchAtStart(s: string): (r: Option<string>)
    ensures r.Some? ==> ValidName(r.value) && |r.value| + 4 <= |s|
    ensures r.Some? ==> s[..|r.value| + 4] == "{{" + r.value + "}}"
  {
    if |s| >= 2 && s[0] == '{' && s[1] == '{' then
      var e := RunEnd(s, 2);
      if e > 2 && e + 2 <= |s| && s[e + 1] == '}' then
        var name := s[2..e];
        assert forall k :: 0 <= k < |name| ==> name[k] == s[2 + k];
        assert s[..e + 2] == "{{" + name + "}}";
        Some(name)
      else None
    else None
  }

  /** One left-to-right, non-overlapping scan for placeholders. */
  function Tokenize(s: string): (ts: seq<Token>)
    ensures forall k :: 0 <= k < |ts| && ts[k].Var? ==> ValidName(ts[k].name)
    decreases |s|
  {
    if |s| == 0 then []
    else match MatchAtStart(s)
      case Some(name) => [Var(name)] + Tokenize(s[|name| + 4..])
      case None => [Lit(s[0])] + Tokenize(s[1..])
  }

  /** The text a token sequence stands for. */
  function Render(ts: seq<Token>): string {
    if ts == [] then ""
    else match ts[0]
      case Lit(c) => [c] + Render(ts[1..])
      case Var(n) => "{{" + n + "}}" + Render(ts[1..])
  }

  /** Tokenizing loses nothing: the tokens spell the original path. */
  lemma {:induction false} TokenizeRoundTrip(s: string)
    ensures Render(Tokenize(s)) == s
    decreases |s|
  {
    if |s| > 0 {
      match MatchAtStart(s)
      case Some(name) =>
        TokenizeRoundTrip(s[|name| + 4..]);
        assert s == s[..|name| + 4] + s[|name| + 4..];
      case None =>
        TokenizeRoundTrip(s[1..]);
        assert s == [s[0]] + s[1..];
    }
  }

  function VarNames(ts: seq<Token>): (names: seq<string>)
    ensures |names| <= |ts|
  {
    if ts == [] then []
    else match ts[0]
      case Lit(_) => VarNames(ts[1..])
      case Var(n) => [n] + VarNames(ts[1..])
  }

  lemma {:induction false} VarNamesValid(ts: seq<Token>)
    requires forall k :: 0 <= k < |ts| && ts[k].Var? ==> ValidName(ts[k].name)
    ensures forall n :: n in VarNames(ts) ==> ValidName(n)
  {
    if ts != [] {
      VarNamesValid(ts[1..]);
    }
  }

  /** `re.findall(r'\{\{([^}]+)\}\}', path)`: the placeholder names in order,
      repeats included; each is non-empty and free of `}`. */
  function Placeholders(path: string): (names: seq<string>)
    ensures forall n :: n in names ==> ValidName(n)
  {
    var ts := Tokenize(path);
    VarNamesValid(ts);
    VarNames(ts)
  }

  /** Substitution over tokens; the first placeholder without a value stops it. */
  function Fill(ts: seq<Token>, vars: map<string, Value>): Result<string> {
    if ts == [] then Ok("")
    else
      var rest := Fill(ts[1..], vars);
      match ts[0]
      case Lit(c) => if rest.Err? then rest else Ok([c] + rest.value)
      case Var(n) =>
        if n !in vars then Err("Missing value for path variable: " + n)
        else if rest.Err? then rest
        else Ok(PyStr(vars[n]) + rest.value)
  }

  /** The first placeholder name (in path order) that has no value. */
  function FirstMissing(names: seq<string>, vars: map<string, Value>): Option<string> {
    if names == [] then None
    else if names[0] !in vars then Some(names[0])
    else FirstMissing(names[1..], vars)
  }

  /** `_replace_path_variables(path, variables)`: every `{{name}}` replaced by
      `str(variables[name])` in one pass; the first placeholder without a
      value raises, naming it. */
  function Substitute(path: string, vars: map<string, Value>): (r: Result<string>)
    ensures r.Ok? <==> FirstMissing(Placeholders(path), vars).None?
    ensures r.Err? ==> r.error == "Missing value for path variable: " + FirstMissing(Placeholders(path), vars).value
  {
    FillOutcome(Tokenize(path), vars);
    Fill(Tokenize(path), vars)
  }

  lemma {:induction false} FillOutcome(ts: seq<Token>, vars: map<string, Value>)
    ensures Fill(ts, vars).Ok? <==> FirstMissing(VarNames(ts), vars).None?
    ensures Fill(ts, vars).Err? ==>
              Fill(ts, vars).error == "Missing value for path variable: " + FirstMissing(VarNames(ts), vars).value
  {
    if ts != [] {
      FillOutcome(ts[1..], vars);
    }
  }

  lemma {:induction false} FirstMissingSpec(names: seq<string>, vars: map<string, Value>)
    ensures FirstMissing(names, vars).None? <==> (forall n :: n in names ==> n in vars)
    ensures FirstMissing(names, vars).Some? ==>
              exists i :: 0 <= i < |names| && names[i] == FirstMissing(names, vars).value
                          && names[i] !in vars && forall k :: 0 <= k < i ==> names[k] in vars
  {
    if names != [] {
      FirstMissingSpec(names[1..], vars);
      if names[0] in vars {
        assert forall n :: n in names ==> n == names[0] || n in names[1..];
        if FirstMissing(names, vars).Some? {
          var i :| 0 <= i < |names[1..]| && names[1..][i] == FirstMissing(names[1..], vars).value
                   && names[1..][i] !in vars && forall k :: 0 <= k < i ==> names[1..][k] in vars;
          assert forall k :: 0 <= k < i + 1 ==> names[k] in vars by {
            forall k | 0 <= k < i + 1 ensures names[k] in vars {
              if k > 0 { assert names[k] == names[1..][k - 1]; }
            }
          }
          assert names[i + 1] == names[1..][i];
        }
      } else {
        assert names[0] == FirstMissing(names, vars).value;
      }
    }
  }

  /** Substitution succeeds exactly when every placeholder has a value; when
      one is missing, the error names the first placeholder, in path order,
      that has none. */
  lemma SubstituteOutcome(path: string, vars: map<string, Value>)
    ensures Substitute(path, vars).Ok? <==> (forall n :: n in Placeholders(path) ==> n in vars)
    ensures Substitute(path, vars).Err? ==>
              var ps := Placeholders(path);
              exists i :: 0 <= i < |ps| && ps[i] !in vars && (forall k :: 0 <= k < i ==> ps[k] in vars)
                          && Substitute(path, vars).error == "Missing value for path variable: " + ps[i]
  {
    FirstMissingSpec(Placeholders(path), vars);
  }

  lemma {:induction false} FillWithoutVars(ts: seq<Token>, vars: map<string, Value>)
    requires VarNames(ts) == []
    ensures Fill(ts, vars) == Ok(Render(ts))
  {
    if ts != [] {
      FillWithoutVars(ts[1..], vars);
    }
  }

  /** A path with no placeholders is returned unchanged, whatever the values. */
  lemma NoPlaceholdersUnchanged(path: string, vars: map<string, Value>)
    requires Placeholders(path) == []
    ensures Substitute(path, vars) == Ok(path)
  {
    FillWithoutVars(Tokenize(path), vars);
    TokenizeRoundTrip(path);
  }

  lemma {:induction false} FillIdentity(ts: seq<Token>, vars: map<string, Value>)
    requires forall n :: n in VarNames(ts) ==> n in vars && vars[n] == VStr("{{" + n + "}}")
    ensures Fill(ts, vars) == Ok(Render(ts))
  {
    if ts != [] {
      FillIdentity(ts[1..], vars);
    }
  }

  /** Substituted text is not scanned again: giving every placeholder its own
      `{{name}}` spelling as its value reproduces the path, although the values
      themselves contain placeholders. */
  lemma SubstitutionIsSinglePass(path: string, vars: map<string, Value>)
    requires forall n :: n in Placeholders(path) ==> n in vars && vars[n] == VStr("{{" + n + "}}")
    ensures Substitute(path, vars) == Ok(path)
  {
    FillIdentity(Tokenize(path), vars);
    TokenizeRoundTrip(path);
  }

  /** Characters before the first `{` are copied through unchanged. */
  lemma {:induction false} SubstituteLiteralPrefix(lit: string, rest: string, vars: map<string, Value>)
    requires '{' !in lit
    ensures Substitute(lit + rest, vars) ==
              (if Substitute(rest, vars).Ok? then Ok(lit + Substitute(rest, vars).value)
               else Substitute(rest, vars))
  {
    if lit != [] {
      var s := lit + rest;
      assert s[0] == lit[0];
      assert MatchAtStart(s).None?;
      assert s[1..] == lit[1..] + rest;
      SubstituteLiteralPrefix(lit[1..], rest, vars);
      if Substitute(rest, vars).Ok? {
        var v := Substitute(rest, vars).value;
        assert [lit[0]] + (lit[1..] + v) == lit + v;
      }
    } else {
      assert lit + rest == rest;
      if Substitute(rest, vars).Ok? {
        assert lit + Substitute(rest, vars).value == Substitute(rest, vars).value;
      }
    }
  }

  /** A placeholder at the front is replaced by `str` of its value, or fails
      naming it when it has none. */
  lemma SubstituteLeadingPlaceholder(name: string, rest: string, vars: map<string, Value>)
    requires ValidName(name)
    ensures Substitute("{{" + name + "}}" + rest, vars) ==
              if name !in vars then Err("Missing value for path variable: " + name)
              else if Substitute(rest, vars).Ok? then Ok(PyStr(vars[name]) + Substitute(rest, vars).value)
              else Substitute(rest, vars)
  {
    var s := "{{" + name + "}}" + rest;
    assert forall k :: 2 <= k < 2 + |name| ==> s[k] == name[k - 2];
    assert s[2 + |name|] == '}' && s[3 + |name|] == '}';
    assert RunEnd(s, 2) == 2 + |name|;
    assert s[2..2 + |name|] == name;
    assert MatchAtStart(s) == Some(name);
    assert s[|name| + 4..] == rest;
  }

  /** Characters before the first `{` hold no placeholder. */
  lemma {:induction false} PlaceholdersLiteralPrefix(lit: string, rest: string)
    requires '{' !in lit
    ensures Placeholders(lit + rest) == Placeholders(rest)
  {
    if lit != [] {
      var s := lit + rest;
      assert s[0] == lit[0];
      assert MatchAtStart(s).None?;
      assert s[1..] == lit[1..] + rest;
      PlaceholdersLiteralPrefix(lit[1..], rest);
      var ts := Tokenize(s[1..]);
      assert ([Lit(s[0])] + ts)[1..] == ts;
    } else {
      assert lit + rest == rest;
    }
  }

  /** A placeholder at the front is the first name found. */
  lemma PlaceholdersLeading(name: string, rest: string)
    requires ValidName(name)
    ensures Placeholders("{{" + name + "}}" + rest) == [name] + Placeholders(rest)
  {
    var s := "{{" + name + "}}" + rest;
    assert forall k :: 2 <= k < 2 + |name| ==> s[k] == name[k - 2];
    assert s[2 + |name|] == '}' && s[3 + |name|] == '}';
    assert RunEnd(s, 2) == 2 + |name|;
    assert s[2..2 + |name|] == name;
    assert MatchAtStart(s) == Some(name);
    assert s[|name| + 4..] == rest;
    var ts := Tokenize(rest);
    assert ([Var(name)] + ts)[1..] == ts;
  }

  /** The spelling `{{name}}` of a placeholder. */
  function Placeholder(name: string): string {
    "{{" + name + "}}"
  }

  /** A literal part followed by one placeholder. */
  lemma TailPlaceholder(b: string, y: string, vars: map<string, Value>)
    requires '{' !in b && ValidName(y)
    ensures y in vars ==> Substitute(b + Placeholder(y), vars) == Ok(b + PyStr(vars[y]))
    ensures y !in vars ==> Substitute(b + Placeholder(y), vars) == Err("Missing value for path variable: " + y)
  {
    var t := Placeholder(y);
    assert t + "" == t;
    assert Substitute("", vars) == Ok("");
    SubstituteLeadingPlaceholder(y, "", vars);
    SubstituteLiteralPrefix(b, t, vars);
    if y in vars {
      assert PyStr(vars[y]) + "" == PyStr(vars[y]);
    }
  }

  /** A path of the shape `a{{x}}b{{y}}` with literal parts free of `{`. */
  lemma TwoPlaceholders(a: string, x: string, b: string, y: string, vars: map<string, Value>)
    requires '{' !in a && '{' !in b && ValidName(x) && ValidName(y)
    ensures x in vars && y in vars ==>
              Substitute(a + Placeholder(x) + b + Placeholder(y), vars)
              == Ok(a + PyStr(vars[x]) + b + PyStr(vars[y]))
    ensures x in vars && y !in vars ==>
              Substitute(a + Placeholder(x) + b + Placeholder(y), vars)
              == Err("Missing value for path variable: " + y)
  {
    var tail := b + Placeholder(y);
    var t := Placeholder(x) + tail;
    assert a + Placeholder(x) + b + Placeholder(y) == a + t;
    if x in vars {
      TailPlaceholder(b, y, vars);
      SubstituteLeadingPlaceholder(x, tail, vars);
      SubstituteLiteralPrefix(a, t, vars);
      if y in vars {
        var vx, vy := PyStr(vars[x]), PyStr(vars[y]);
        assert Substitute(tail, vars) == Ok(b + vy);
        assert Substitute(t, vars) == Ok(vx + (b + vy));
        assert a + (vx + (b + vy)) == a + vx + b + vy;
      } else {
        assert Substitute(tail, vars).Err?;
        assert Substitute(t, vars) == Substitute(tail, vars);
      }
    }
  }

  /** A two-placeholder path: with both values, then with one missing. */
  lemma UsersReposExample(path: string, full: map<string, Value>, part: map<string, Value>)
    requires path == "/users/{{id}}/repos/{{owner}}"
    requires full == map["id" := VStr("42"), "owner" := VStr("acme")]
    requires part == map["id" := VStr("42")]
    ensures Substitute(path, full) == Ok("/users/42/repos/acme")
    ensures Substitute(path, part) == Err("Missing value for path variable: owner")
  {
    var a, b := "/users/", "/repos/";
    var px, py := Placeholder("id"), Placeholder("owner");
    assert px == "{{id}}" && py == "{{owner}}";
    assert a + px == "/users/{{id}}";
    assert a + px + b == "/users/{{id}}/repos/";
    assert a + px + b + py == path;
    TwoPlaceholders(a, "id", b, "owner", full);
    assert PyStr(full["id"]) == "42" && PyStr(full["owner"]) == "acme";
    assert a + "42" + b + "acme" == "/users/42/repos/acme";
    TwoPlaceholders(a, "id", b, "owner", part);
  }
}
