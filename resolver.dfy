/**
 * Request resolution: from the user's method, path, `--key value` options
 * and body text to a concrete request (method, interpolated path, query
 * parameters, headers, body), or to a `ResolutionError` with code
 * `NO_MATCH` or `MISSING_PARAM`.
 *
 * `Resolve` is proved equal to `ResolveSpec`; the lemmas below state what
 * `ResolveSpec` promises.  JSON decoding of the body text is the parameter
 * `parse`, standing for `json.loads` (`None` when the text is not JSON).
 */
module Resolver {
  import opened Wrappers
  import opened Strings
  import opened OrderedDict
  import opened JsonValue
  import opened PathTemplate
  import opened SpecModel
  import opened Matcher

  datatype ResolutionError = ResolutionError(code: string, message: string)

  datatype ResolvedRequest = ResolvedRequest(
    httpMethod: string,
    path: string,
    queryParams: Dict<string>,
    headers: Dict<string>,
    body: Json,
    operation: OperationSpec)

  // ---------------------------------------------------------------------------
  // NO_MATCH
  // ---------------------------------------------------------------------------

  const NoMatchPrefix := "No endpoint matches '"

  /** The `NO_MATCH` message; the hint is there only when there are suggestions. */
  function NoMatchMessage(httpMethod: string, path: string, suggestions: seq<string>): (msg: string)
    ensures StartsWith(msg, NoMatchPrefix)
    ensures msg[|msg| - 1] == '?' <==> |suggestions| > 0
  {
    var hint := if |suggestions| > 0 then " Did you mean: " + Join(suggestions, ", ") + "?" else "";
    NoMatchPrefix + Upper(httpMethod) + " " + path + "'." + hint
  }

  // ---------------------------------------------------------------------------
  // Classification of the CLI parameters
  // ---------------------------------------------------------------------------

  /** `spec_params[key_lower]`: the last declared parameter whose lower-cased name is `keyLower`. */
  function DeclaredParam(params: seq<ParamSpec>, keyLower: string): (r: Option<ParamSpec>)
    ensures r.None? <==> forall i :: 0 <= i < |params| ==> Lower(params[i].name) != keyLower
    ensures r.Some? ==> r.value in params && Lower(r.value.name) == keyLower
  {
    if |params| == 0 then None
    else
      var last := params[|params| - 1];
      if Lower(last.name) == keyLower then Some(last)
      else
        var r := DeclaredParam(params[..|params| - 1], keyLower);
        assert forall i :: 0 <= i < |params| - 1 ==> params[..|params| - 1][i] == params[i];
        r
  }

  /** A later declaration of the same name (ignoring case) shadows an earlier one: the last one is found. */
  lemma {:induction false} DeclaredParamLast(params: seq<ParamSpec>, keyLower: string, j: nat)
    requires j < |params| && Lower(params[j].name) == keyLower
    requires forall k :: j < k < |params| ==> Lower(params[k].name) != keyLower
    ensures DeclaredParam(params, keyLower) == Some(params[j])
  {
    var n := |params| - 1;
    if j < n {
      assert params[..n][j] == params[j];
      assert forall k :: j < k < n ==> params[..n][k] == params[k];
      DeclaredParamLast(params[..n], keyLower, j);
    }
  }

  datatype Location = PathLoc | QueryLoc | HeaderLoc

  /** `path_param_names`: the template's placeholder names, lower-cased. */
  function PlaceholderSet(op: OperationSpec): set<string> {
    var names := ExtractParamNames(op.path);
    set i | 0 <= i < |names| :: Lower(names[i])
  }

  /**
   * Where a CLI key goes, and under which name: a declared parameter
   * (matched ignoring case) by its declared location and under its declared
   * name; otherwise the path under the user's key when the key names a
   * placeholder ignoring case, else the query under the user's key.
   */
  function Route(op: OperationSpec, key: string): (Location, string) {
    match DeclaredParam(op.parameters, Lower(key))
    case Some(p) =>
      (if p.location == "path" then PathLoc else if p.location == "header" then HeaderLoc else QueryLoc, p.name)
    case None =>
      if Lower(key) in PlaceholderSet(op) then (PathLoc, key) else (QueryLoc, key)
  }

  datatype Buckets = Buckets(path: Dict<string>, query: Dict<string>, headers: Dict<string>)

  function BucketAt(b: Buckets, loc: Location): Dict<string> {
    match loc
    case PathLoc => b.path
    case QueryLoc => b.query
    case HeaderLoc => b.headers
  }

  /** `bucket[name] = value` for the bucket at `loc`; the other two are untouched. */
  function Place(b: Buckets, loc: Location, name: string, v: string): Buckets {
    match loc
    case PathLoc => b.(path := Put(b.path, name, v))
    case QueryLoc => b.(query := Put(b.query, name, v))
    case HeaderLoc => b.(headers := Put(b.headers, name, v))
  }

  /** Placing a value changes the bucket at `loc` only. */
  lemma PlaceAt(b: Buckets, loc: Location, name: string, v: string, l: Location)
    ensures BucketAt(Place(b, loc, name, v), l) == if l == loc then Put(BucketAt(b, loc), name, v) else BucketAt(b, l)
  {
  }

  /** The buckets after the classification loop has seen every entry of `cli`, in order. */
  function ClassifyAll(op: OperationSpec, seed: Buckets, cli: Dict<string>): Buckets {
    if |cli| == 0 then seed
    else
      var (key, v) := cli[|cli| - 1];
      var (loc, name) := Route(op, key);
      Place(ClassifyAll(op, seed, cli[..|cli| - 1]), loc, name, v)
  }

  /** The value of the last CLI entry routed to `loc` under `name`, if any. */
  function Routed(op: OperationSpec, cli: Dict<string>, loc: Location, name: string): Option<string> {
    if |cli| == 0 then None
    else if Route(op, cli[|cli| - 1].0) == (loc, name) then Some(cli[|cli| - 1].1)
    else Routed(op, cli[..|cli| - 1], loc, name)
  }

  /**
   * What each bucket holds after classification: under every name, the
   * value of the last CLI entry routed there, or else what the seed held
   * (the positionally extracted values for the path bucket, nothing for the
   * others).
   */
  lemma {:induction false} ClassifyGet(op: OperationSpec, seed: Buckets, cli: Dict<string>, loc: Location, name: string)
    ensures Get(BucketAt(ClassifyAll(op, seed, cli), loc), name)
         == if Routed(op, cli, loc, name).Some? then Routed(op, cli, loc, name) else Get(BucketAt(seed, loc), name)
  {
    if |cli| > 0 {
      var (key, v) := cli[|cli| - 1];
      ClassifyGet(op, seed, cli[..|cli| - 1], loc, name);
      PlaceAt(ClassifyAll(op, seed, cli[..|cli| - 1]), Route(op, key).0, Route(op, key).1, v, loc);
    }
  }

  /** Every CLI entry is routed somewhere: its route names a value that the classification keeps. */
  lemma {:induction false} RoutedSome(op: OperationSpec, cli: Dict<string>, i: nat)
    requires i < |cli|
    ensures Routed(op, cli, Route(op, cli[i].0).0, Route(op, cli[i].0).1).Some?
  {
    var n := |cli| - 1;
    if i < n && Route(op, cli[n].0) != Route(op, cli[i].0) {
      assert cli[..n][i] == cli[i];
      RoutedSome(op, cli[..n], i);
    }
  }

  /** Each CLI key lands in the bucket its route names, under the name its route names. */
  lemma ClassifyLands(op: OperationSpec, seed: Buckets, cli: Dict<string>, i: nat)
    requires i < |cli|
    ensures Route(op, cli[i].0).1 in Keys(BucketAt(ClassifyAll(op, seed, cli), Route(op, cli[i].0).0))
  {
    RoutedSome(op, cli, i);
    ClassifyGet(op, seed, cli, Route(op, cli[i].0).0, Route(op, cli[i].0).1);
  }

  /** The value routed to a slot is that of the last CLI entry routed there. */
  lemma {:induction false} RoutedAt(op: OperationSpec, cli: Dict<string>, loc: Location, name: string, i: nat)
    requires i < |cli| && Route(op, cli[i].0) == (loc, name)
    requires forall k :: i < k < |cli| ==> Route(op, cli[k].0) != (loc, name)
    ensures Routed(op, cli, loc, name) == Some(cli[i].1)
  {
    var n := |cli| - 1;
    if i < n {
      var prefix := cli[..n];
      assert Routed(op, cli, loc, name) == Routed(op, prefix, loc, name) by {
        assert Route(op, cli[n].0) != (loc, name);
      }
      assert prefix[i] == cli[i];
      assert forall k :: i < k < n ==> prefix[k] == cli[k];
      RoutedAt(op, prefix, loc, name, i);
    }
  }

  /**
   * A declared parameter with location "path" overrides what was extracted
   * positionally under its declared name: the CLI entry `cli[i]` naming it
   * (ignoring case) wins unless a later entry is routed to the same name.
   */
  lemma DeclaredPathOverrides(op: OperationSpec, seed: Buckets, cli: Dict<string>, i: nat)
    requires i < |cli|
    requires DeclaredParam(op.parameters, Lower(cli[i].0)).Some?
    requires DeclaredParam(op.parameters, Lower(cli[i].0)).value.location == "path"
    requires forall k :: i < k < |cli| ==>
               Route(op, cli[k].0) != (PathLoc, DeclaredParam(op.parameters, Lower(cli[i].0)).value.name)
    ensures Get(ClassifyAll(op, seed, cli).path, DeclaredParam(op.parameters, Lower(cli[i].0)).value.name)
            == Some(cli[i].1)
  {
    var name := DeclaredParam(op.parameters, Lower(cli[i].0)).value.name;
    RoutedAt(op, cli, PathLoc, name, i);
    ClassifyGet(op, seed, cli, PathLoc, name);
  }

  lemma ClassifySnoc(op: OperationSpec, seed: Buckets, cli: Dict<string>, i: nat)
    requires i < |cli|
    ensures ClassifyAll(op, seed, cli[..i + 1])
         == Place(ClassifyAll(op, seed, cli[..i]), Route(op, cli[i].0).0, Route(op, cli[i].0).1, cli[i].1)
  {
    assert cli[..i + 1][..i] == cli[..i];
  }

  /** One iteration of the classification loop of `resolve`. */
  method ClassifyOne(op: OperationSpec, pathNames: set<string>, b: Buckets, key: string, value: string)
    returns (r: Buckets)
    requires pathNames == PlaceholderSet(op)
    ensures r == Place(b, Route(op, key).0, Route(op, key).1, value)
  {
    var keyLower := Lower(key);
    var declared := DeclaredParam(op.parameters, keyLower);
    if declared.Some? {
      var p := declared.value;
      if p.location == "path" {
        r := b.(path := Put(b.path, p.name, value));
      } else if p.location == "header" {
        r := b.(headers := Put(b.headers, p.name, value));
      } else {
        r := b.(query := Put(b.query, p.name, value));
      }
    } else if keyLower in pathNames {
      r := b.(path := Put(b.path, key, value));
    } else {
      r := b.(query := Put(b.query, key, value));
    }
  }

  /** The classification loop of `resolve`. */
  method ClassifyParams(op: OperationSpec, seed: Buckets, cli: Dict<string>) returns (b: Buckets)
    ensures b == ClassifyAll(op, seed, cli)
  {
    var pathNames := PlaceholderSet(op);
    b := seed;
    for i := 0 to |cli|
      invariant b == ClassifyAll(op, seed, cli[..i])
    {
      var (key, value) := cli[i];
      b := ClassifyOne(op, pathNames, b, key, value);
      ClassifySnoc(op, seed, cli, i);
    }
    assert cli[..|cli|] == cli;
  }

  // ---------------------------------------------------------------------------
  // Case-insensitive lookup, validation and interpolation
  // ---------------------------------------------------------------------------

  /** The value of the first key, in insertion order, equal to `name` ignoring case. */
  function FindCI(d: Dict<string>, name: string): (r: Option<string>)
    ensures r.None? <==> forall i :: 0 <= i < |d| ==> Lower(d[i].0) != Lower(name)
    ensures r.Some? ==> exists i :: 0 <= i < |d| && Lower(d[i].0) == Lower(name) && d[i].1 == r.value
  {
    if |d| == 0 then None
    else if Lower(d[0].0) == Lower(name) then Some(d[0].1)
    else
      var r := FindCI(d[1..], name);
      assert forall i :: 1 <= i < |d| ==> d[1..][i - 1] == d[i];
      assert r.Some? ==> exists i :: 0 <= i < |d| && Lower(d[i].0) == Lower(name) && d[i].1 == r.value by {
        if r.Some? {
          var i :| 0 <= i < |d[1..]| && Lower(d[1..][i].0) == Lower(name) && d[1..][i].1 == r.value;
          assert d[i + 1] == d[1..][i];
        }
      }
      r
  }

  /** The inner search loop of `resolve`: `for k, v in path_params.items(): if k.lower() == name.lower(): …; break`. */
  method FindCaseInsensitive(d: Dict<string>, name: string) returns (r: Option<string>)
    ensures r == FindCI(d, name)
  {
    var nameLower := Lower(name);
    for i := 0 to |d|
      invariant FindCI(d[i..], name) == FindCI(d, name)
    {
      var (k, v) := d[i];
      if Lower(k) == nameLower {
        return Some(v);
      }
      assert d[i..][1..] == d[i + 1..];
    }
    return None;
  }

  /** The first placeholder name, in template order, with no key equal to it ignoring case. */
  function FirstMissing(names: seq<string>, d: Dict<string>): (r: Option<string>)
    ensures r.None? <==> forall i :: 0 <= i < |names| ==> FindCI(d, names[i]).Some?
    ensures r.Some? ==> r.value in names && FindCI(d, r.value).None?
  {
    if |names| == 0 then None
    else if FindCI(d, names[0]).None? then Some(names[0])
    else
      assert forall i :: 1 <= i < |names| ==> names[1..][i - 1] == names[i];
      FirstMissing(names[1..], d)
  }

  /** `FirstMissing` names the first missing placeholder: every earlier one is present. */
  lemma {:induction false} FirstMissingIsFirst(names: seq<string>, d: Dict<string>, i: nat)
    requires FirstMissing(names, d).Some? && i < |names| && names[i] == FirstMissing(names, d).value
    requires forall j :: 0 <= j < i ==> names[j] != names[i]
    ensures forall j :: 0 <= j < i ==> FindCI(d, names[j]).Some?
  {
    if i > 0 && FindCI(d, names[0]).Some? {
      FirstMissingIsFirst(names[1..], d, i - 1);
      assert forall j :: 1 <= j < i ==> names[1..][j - 1] == names[j];
    }
  }

  /** The validation loop of `resolve`. */
  method CheckRequired(names: seq<string>, d: Dict<string>) returns (missing: Option<string>)
    ensures missing == FirstMissing(names, d)
  {
    for i := 0 to |names|
      invariant FirstMissing(names[i..], d) == FirstMissing(names, d)
    {
      var matched := FindCaseInsensitive(d, names[i]);
      if matched.None? {
        return Some(names[i]);
      }
      assert names[i..][1..] == names[i + 1..];
    }
    return None;
  }

  /** `"{" + name + "}"`, the text a placeholder is replaced at. */
  function Braced(name: string): (r: string)
    ensures |r| == |name| + 2 && r[0] == '{'
  {
    "{" + name + "}"
  }

  /** The interpolation loop: for each name in turn, replace `{name}` by the first case-insensitive match. */
  function Interpolate(p: string, names: seq<string>, d: Dict<string>): string
    decreases |names|
  {
    if |names| == 0 then p
    else
      var next := match FindCI(d, names[0])
        case Some(v) => ReplaceAll(p, Braced(names[0]), v)
        case None => p;
      Interpolate(next, names[1..], d)
  }

  /** The interpolation loop of `resolve`. */
  method InterpolatePath(template: string, names: seq<string>, d: Dict<string>) returns (resolved: string)
    ensures resolved == Interpolate(template, names, d)
  {
    resolved := template;
    for i := 0 to |names|
      invariant Interpolate(resolved, names[i..], d) == Interpolate(template, names, d)
    {
      var found := FindCaseInsensitive(d, names[i]);
      if found.Some? {
        resolved := ReplaceAll(resolved, Braced(names[i]), found.value);
      }
      assert names[i..][1..] == names[i + 1..];
    }
  }

  /**
   * A single placeholder surrounded by text with no `{` is replaced by the
   * value of the first key equal to its name ignoring case.
   */
  lemma InterpolateSingle(a: string, name: string, b: string, d: Dict<string>, v: string)
    requires forall i :: 0 <= i < |a| ==> a[i] != '{'
    requires forall i :: 0 <= i < |b| ==> b[i] != '{'
    requires FindCI(d, name) == Some(v)
    ensures Interpolate(a + Braced(name) + b, [name], d) == a + v + b
  {
    ReplaceAllConcat(a, Braced(name), v, b);
    ReplaceAllAbsent(b, Braced(name), v);
  }

  /** `s` holds no `{`, so no placeholder can start in it. */
  predicate NoOpenBrace(s: string) {
    forall i :: 0 <= i < |s| ==> s[i] != '{'
  }

  /** A placeholder name holds neither brace (every word does). */
  predicate NoBraces(s: string) {
    forall i :: 0 <= i < |s| ==> s[i] != '{' && s[i] != '}'
  }

  /** `texts[0] + fills[0] + texts[1] + … + fills[k-1] + texts[k]`. */
  function Splice(texts: seq<string>, fills: seq<string>): string
    requires |texts| == |fills| + 1
    decreases |fills|
  {
    if |fills| == 0 then texts[0] else texts[0] + fills[0] + Splice(texts[1..], fills[1..])
  }

  /** The placeholders `{n1}`, …, `{nk}` of a template. */
  function BracedAll(names: seq<string>): (r: seq<string>)
    ensures |r| == |names|
    ensures forall i :: 0 <= i < |names| ==> r[i] == Braced(names[i])
  {
    if |names| == 0 then [] else [Braced(names[0])] + BracedAll(names[1..])
  }

  /** The value found for each name (`""` where none is found). */
  function FoundValues(d: Dict<string>, names: seq<string>): (r: seq<string>)
    ensures |r| == |names|
    ensures forall i :: 0 <= i < |names| && FindCI(d, names[i]).Some? ==> r[i] == FindCI(d, names[i]).value
  {
    if |names| == 0 then []
    else [if FindCI(d, names[0]).Some? then FindCI(d, names[0]).value else ""] + FoundValues(d, names[1..])
  }

  /** The fills part way through interpolation: names in `done` are replaced by their values. */
  function Fills(names: seq<string>, values: seq<string>, done: seq<string>): (r: seq<string>)
    requires |names| == |values|
    ensures |r| == |names|
  {
    if |names| == 0 then [] else [Fill(names[0], values[0], done)] + Fills(names[1..], values[1..], done)
  }

  /** One fill: the value once its name is done, the placeholder before. */
  function Fill(name: string, value: string, done: seq<string>): string
  {
    if name in done then value else Braced(name)
  }

  /** Replacing `{n}` by `v` turns one fill into the next one and leaves what follows to be replaced. */
  lemma FillStep(name: string, value: string, done: seq<string>, n: string, v: string, rest: string)
    requires NoBraces(name) && NoOpenBrace(value) && NoBraces(n)
    requires name == n ==> value == v
    ensures ReplaceAll(Fill(name, value, done) + rest, Braced(n), v)
            == Fill(name, value, done + [n]) + ReplaceAll(rest, Braced(n), v)
  {
    var pat := Braced(n);
    if name in done {
      ReplaceAllPrefixFree(value, rest, pat, v);
    } else if name == n {
      ReplaceAllConcat("", pat, v, rest);
      assert "" + pat + rest == pat + rest;
    } else {
      BracedNoMatch(name, n, rest, v);
    }
  }

  lemma {:induction false} FillsNone(names: seq<string>, values: seq<string>)
    requires |names| == |values|
    ensures Fills(names, values, []) == BracedAll(names)
  {
    if |names| > 0 {
      FillsNone(names[1..], values[1..]);
    }
  }

  lemma {:induction false} FillsAll(names: seq<string>, values: seq<string>, done: seq<string>)
    requires |names| == |values|
    requires forall i :: 0 <= i < |names| ==> names[i] in done
    ensures Fills(names, values, done) == values
  {
    if |names| > 0 {
      assert forall i :: 0 <= i < |names| - 1 ==> names[1..][i] == names[i + 1];
      FillsAll(names[1..], values[1..], done);
      assert values == [values[0]] + values[1..];
    }
  }

  /** `{m}` followed by anything does not start with `{n}` for a different brace-free name. */
  lemma BracedPrefixDiffers(m: string, n: string, s: string)
    requires NoBraces(m) && NoBraces(n) && m != n
    requires |s| >= |n| + 2 && |s| >= |m| + 2 && s[..|m| + 2] == Braced(m)
    ensures s[..|n| + 2] != Braced(n)
  {
    var pat := Braced(n);
    if |m| < |n| {
      assert s[|m| + 1] == '}' && pat[|m| + 1] == n[|m|];
    } else if |m| > |n| {
      assert pat[|n| + 1] == '}' && s[|n| + 1] == m[|n|];
    } else {
      var k :| 0 <= k < |m| && m[k] != n[k];
      assert s[k + 1] == m[k] && pat[k + 1] == n[k];
    }
  }

  /** `{m}` is not an occurrence of `{n}` for a different brace-free name. */
  lemma BracedNoMatch(m: string, n: string, rest: string, v: string)
    requires NoBraces(m) && NoBraces(n) && m != n
    ensures ReplaceAll(Braced(m) + rest, Braced(n), v) == Braced(m) + ReplaceAll(rest, Braced(n), v)
  {
    var s := Braced(m) + rest;
    var pat := Braced(n);
    if |s| < |pat| {
      assert |rest| < |pat|;
    } else {
      assert s[..|m| + 2] == Braced(m);
      BracedPrefixDiffers(m, n, s);
      assert s[1..] == (m + "}") + rest;
      calc {
        ReplaceAll(s, pat, v);
        [s[0]] + ReplaceAll(s[1..], pat, v);
        { ReplaceAllPrefixFree(m + "}", rest, pat, v); }
        "{" + ((m + "}") + ReplaceAll(rest, pat, v));
        Braced(m) + ReplaceAll(rest, pat, v);
      }
    }
  }

  /** One replacement step: every `{n}` among the fills becomes `v`, and nothing else changes. */
  lemma {:induction false} ReplaceStep(texts: seq<string>, names: seq<string>, values: seq<string>,
                                       done: seq<string>, n: string, v: string)
    requires |texts| == |names| + 1 && |values| == |names|
    requires forall i :: 0 <= i < |texts| ==> NoOpenBrace(texts[i])
    requires forall i :: 0 <= i < |names| ==> NoBraces(names[i]) && NoOpenBrace(values[i])
    requires NoBraces(n)
    requires forall i :: 0 <= i < |names| && names[i] == n ==> values[i] == v
    ensures ReplaceAll(Splice(texts, Fills(names, values, done)), Braced(n), v)
            == Splice(texts, Fills(names, values, done + [n]))
    decreases |names|
  {
    var pat := Braced(n);
    var fills := Fills(names, values, done);
    if |names| == 0 {
      ReplaceAllAbsent(texts[0], pat, v);
    } else {
      var rest := Splice(texts[1..], fills[1..]);
      assert Splice(texts, fills) == texts[0] + (fills[0] + rest);
      ReplaceAllPrefixFree(texts[0], fills[0] + rest, pat, v);
      FillStep(names[0], values[0], done, n, v, rest);
      ReplaceStep(texts[1..], names[1..], values[1..], done, n, v);
    }
  }

  /** One step of `Interpolate`, with the strings before and after the step left abstract. */
  lemma InterpolateCons(before: string, after: string, rest: seq<string>, d: Dict<string>, target: string)
    requires |rest| > 0 && FindCI(d, rest[0]).Some?
    requires ReplaceAll(before, Braced(rest[0]), FindCI(d, rest[0]).value) == after
    requires Interpolate(after, rest[1..], d) == target
    ensures Interpolate(before, rest, d) == target
  {
  }

  /** Each name is brace-free and has the value at the same position as its first case-insensitive match. */
  predicate Lookups(names: seq<string>, values: seq<string>, d: Dict<string>)
  {
    |values| == |names| &&
    forall i :: 0 <= i < |names| ==> NoBraces(names[i]) && NoOpenBrace(values[i]) && FindCI(d, names[i]) == Some(values[i])
  }

  /** Each name is brace-free and has a case-insensitive match. */
  predicate AllFound(rest: seq<string>, d: Dict<string>)
  {
    forall j :: 0 <= j < |rest| ==> NoBraces(rest[j]) && FindCI(d, rest[j]).Some?
  }

  lemma AllFoundTail(rest: seq<string>, d: Dict<string>)
    requires |rest| > 0 && AllFound(rest, d)
    ensures NoBraces(rest[0]) && FindCI(d, rest[0]).Some? && AllFound(rest[1..], d)
  {
    assert forall j :: 0 <= j < |rest| - 1 ==> rest[1..][j] == rest[j + 1];
  }

  lemma LookupsConsistent(names: seq<string>, values: seq<string>, d: Dict<string>, n: string)
    requires Lookups(names, values, d) && FindCI(d, n).Some?
    ensures forall i :: 0 <= i < |names| ==> NoBraces(names[i]) && NoOpenBrace(values[i])
    ensures forall i :: 0 <= i < |names| && names[i] == n ==> values[i] == FindCI(d, n).value
  {
  }

  /** Interpolating the names `rest` in turn replaces each of their placeholders by its value. */
  lemma {:induction false} InterpolateFills(texts: seq<string>, names: seq<string>, values: seq<string>,
                                            d: Dict<string>, done: seq<string>, rest: seq<string>)
    requires |texts| == |names| + 1
    requires forall i :: 0 <= i < |texts| ==> NoOpenBrace(texts[i])
    requires Lookups(names, values, d) && AllFound(rest, d)
    ensures Interpolate(Splice(texts, Fills(names, values, done)), rest, d)
            == Splice(texts, Fills(names, values, done + rest))
    decreases |rest|
  {
    if |rest| == 0 {
      assert done + rest == done;
    } else {
      AllFoundTail(rest, d);
      var n := rest[0];
      var v := FindCI(d, n).value;
      LookupsConsistent(names, values, d, n);
      ReplaceStep(texts, names, values, done, n, v);
      InterpolateFills(texts, names, values, d, done + [n], rest[1..]);
      assert done + [n] + rest[1..] == done + rest;
      InterpolateCons(Splice(texts, Fills(names, values, done)), Splice(texts, Fills(names, values, done + [n])),
                      rest, d, Splice(texts, Fills(names, values, done + rest)));
    }
  }

  /**
   * A template `a0{n1}a1…{nk}ak` whose texts hold no `{` interpolates to
   * `a0 v1 a1 … vk ak`, each `vi` the value of the first key equal to `ni`
   * ignoring case, when no value holds a `{`.
   */
  lemma InterpolateTemplate(texts: seq<string>, names: seq<string>, d: Dict<string>)
    requires |texts| == |names| + 1
    requires forall i :: 0 <= i < |texts| ==> NoOpenBrace(texts[i])
    requires forall i :: 0 <= i < |names| ==> NoBraces(names[i]) && FindCI(d, names[i]).Some?
    requires forall i :: 0 <= i < |names| ==> NoOpenBrace(FindCI(d, names[i]).value)
    ensures Interpolate(Splice(texts, BracedAll(names)), names, d) == Splice(texts, FoundValues(d, names))
  {
    var values := FoundValues(d, names);
    assert Lookups(names, values, d);
    assert AllFound(names, d);
    FillsNone(names, values);
    InterpolateFills(texts, names, values, d, [], names);
    assert [] + names == names;
    FillsAll(names, values, names);
  }

  /** Every word is brace-free. */
  lemma WordsHaveNoBraces(names: seq<string>)
    requires forall i :: 0 <= i < |names| ==> IsWord(names[i])
    ensures forall i :: 0 <= i < |names| ==> NoBraces(names[i])
  {
  }

  // ---------------------------------------------------------------------------
  // Body
  // ---------------------------------------------------------------------------

  /** No text (or empty text) gives no body; JSON text its value; other text itself. */
  function BodyOf(bodyStr: Option<string>, parse: string -> Option<Json>): (r: Json)
    ensures bodyStr.None? || bodyStr == Some("") ==> r == Null
    ensures bodyStr.Some? && bodyStr.value != "" && parse(bodyStr.value).Some? ==> r == parse(bodyStr.value).value
    ensures bodyStr.Some? && bodyStr.value != "" && parse(bodyStr.value).None? ==> r == Str(bodyStr.value)
  {
    match bodyStr
    case None => Null
    case Some(s) =>
      if s == "" then Null
      else match parse(s)
        case Some(j) => j
        case None => Str(s)
  }

  // ---------------------------------------------------------------------------
  // resolve
  // ---------------------------------------------------------------------------

  function MissingMessage(name: string): string {
    "Required path parameter '" + name + "' is missing. Pass it with --" + name + " <value>"
  }

  /** The path bucket starts as the positionally extracted values; query and headers start empty. */
  function Seed(res: MatchResult): Buckets {
    Buckets(if res.extractedPathParams.Some? then res.extractedPathParams.value else [], [], [])
  }

  /** What `resolve` returns, or the error it raises. */
  function ResolveSpec(httpMethod: string, path: string, cli: Dict<string>, bodyStr: Option<string>,
                       spec: ApiSpec, parse: string -> Option<Json>): Result<ResolvedRequest, ResolutionError>
  {
    var res := MatchSpec(httpMethod, path, spec.operations);
    match res.operation
    case None =>
      var suggestions := if res.suggestions.Some? then res.suggestions.value else [];
      Err(ResolutionError("NO_MATCH", NoMatchMessage(httpMethod, path, suggestions)))
    case Some(op) =>
      var b := ClassifyAll(op, Seed(res), cli);
      var names := ExtractParamNames(op.path);
      match FirstMissing(names, b.path)
      case Some(name) => Err(ResolutionError("MISSING_PARAM", MissingMessage(name)))
      case None =>
        Ok(ResolvedRequest(op.httpMethod, Interpolate(op.path, names, b.path), b.query, b.headers,
                           BodyOf(bodyStr, parse), op))
  }

  /** `resolve`. */
  method Resolve(httpMethod: string, path: string, cli: Dict<string>, bodyStr: Option<string>,
                 spec: ApiSpec, parse: string -> Option<Json>) returns (r: Result<ResolvedRequest, ResolutionError>)
    ensures r == ResolveSpec(httpMethod, path, cli, bodyStr, spec, parse)
  {
    var result := MatchRoute(httpMethod, path, spec);
    if result.operation.None? {
      var suggestions := if result.suggestions.Some? then result.suggestions.value else [];
      var hint := "";
      if |suggestions| > 0 {
        hint := " Did you mean: " + Join(suggestions, ", ") + "?";
      }
      return Err(ResolutionError("NO_MATCH", NoMatchPrefix + Upper(httpMethod) + " " + path + "'." + hint));
    }
    var op := result.operation.value;
    var pathParams := if result.extractedPathParams.Some? then result.extractedPathParams.value else [];
    var b := ClassifyParams(op, Buckets(pathParams, [], []), cli);
    var names := ExtractParamNames(op.path);
    var missing := CheckRequired(names, b.path);
    if missing.Some? {
      return Err(ResolutionError("MISSING_PARAM", MissingMessage(missing.value)));
    }
    var resolvedPath := InterpolatePath(op.path, names, b.path);
    var body := BodyOf(bodyStr, parse);
    return Ok(ResolvedRequest(op.httpMethod, resolvedPath, b.query, b.headers, body, op));
  }

  /** No matching operation: `NO_MATCH`, with the hint ending in `?` exactly when there are suggestions. */
  lemma ResolveNoMatch(httpMethod: string, path: string, cli: Dict<string>, bodyStr: Option<string>,
                       spec: ApiSpec, parse: string -> Option<Json>)
    requires MatchSpec(httpMethod, path, spec.operations).operation.None?
    ensures var r := ResolveSpec(httpMethod, path, cli, bodyStr, spec, parse);
            var s := MatchSpec(httpMethod, path, spec.operations).suggestions.value;
            r.Err? && r.error.code == "NO_MATCH" && StartsWith(r.error.message, NoMatchPrefix)
            && (r.error.message[|r.error.message| - 1] == '?' <==> |s| > 0)
  {
    MatchShape(httpMethod, path, spec.operations);
  }

  /** On success the request carries the matched operation and its method (not the text typed), and the body rule's value. */
  lemma ResolveOkRequest(httpMethod: string, path: string, cli: Dict<string>, bodyStr: Option<string>,
                         spec: ApiSpec, parse: string -> Option<Json>)
    requires ResolveSpec(httpMethod, path, cli, bodyStr, spec, parse).Ok?
    ensures var req := ResolveSpec(httpMethod, path, cli, bodyStr, spec, parse).value;
            MatchSpec(httpMethod, path, spec.operations).operation == Some(req.operation)
            && req.httpMethod == req.operation.httpMethod == Upper(httpMethod)
            && req.operation in spec.operations
            && req.body == BodyOf(bodyStr, parse)
  {
    MatchShape(httpMethod, path, spec.operations);
  }

  /** On success every placeholder of the template has a key equal to it ignoring case in the path bucket. */
  lemma ResolveOkPlaceholders(httpMethod: string, path: string, cli: Dict<string>, bodyStr: Option<string>,
                              spec: ApiSpec, parse: string -> Option<Json>)
    requires ResolveSpec(httpMethod, path, cli, bodyStr, spec, parse).Ok?
    ensures var res := MatchSpec(httpMethod, path, spec.operations);
            var op := ResolveSpec(httpMethod, path, cli, bodyStr, spec, parse).value.operation;
            forall n :: n in ExtractParamNames(op.path) ==>
              exists k :: k in Keys(ClassifyAll(op, Seed(res), cli).path) && Lower(k) == Lower(n)
  {
    var res := MatchSpec(httpMethod, path, spec.operations);
    var op := res.operation.value;
    var b := ClassifyAll(op, Seed(res), cli);
    assert FirstMissing(ExtractParamNames(op.path), b.path).None?;
    forall n | n in ExtractParamNames(op.path)
      ensures exists k :: k in Keys(b.path) && Lower(k) == Lower(n)
    {
      assert FindCI(b.path, n).Some?;
      var i :| 0 <= i < |b.path| && Lower(b.path[i].0) == Lower(n);
      assert Keys(b.path)[i] == b.path[i].0;
    }
  }

  /** On success query and headers hold exactly what classification routed there. */
  lemma ResolveOkBuckets(httpMethod: string, path: string, cli: Dict<string>, bodyStr: Option<string>,
                         spec: ApiSpec, parse: string -> Option<Json>)
    requires ResolveSpec(httpMethod, path, cli, bodyStr, spec, parse).Ok?
    ensures var req := ResolveSpec(httpMethod, path, cli, bodyStr, spec, parse).value;
            forall name :: Get(req.queryParams, name) == Routed(req.operation, cli, QueryLoc, name)
                           && Get(req.headers, name) == Routed(req.operation, cli, HeaderLoc, name)
  {
    var res := MatchSpec(httpMethod, path, spec.operations);
    var op := res.operation.value;
    forall name
      ensures Get(ClassifyAll(op, Seed(res), cli).query, name) == Routed(op, cli, QueryLoc, name)
      ensures Get(ClassifyAll(op, Seed(res), cli).headers, name) == Routed(op, cli, HeaderLoc, name)
    {
      ClassifyGet(op, Seed(res), cli, QueryLoc, name);
      ClassifyGet(op, Seed(res), cli, HeaderLoc, name);
    }
  }

  /**
   * On success the URL path is the matched template `a0{n1}a1…{nk}ak` with
   * each placeholder replaced by the value classification routed to the path
   * under that name (matched ignoring case), provided no text between
   * placeholders and no such value holds a `{`.
   */
  lemma ResolveOkPath(httpMethod: string, path: string, cli: Dict<string>, bodyStr: Option<string>,
                      spec: ApiSpec, parse: string -> Option<Json>, texts: seq<string>)
    requires ResolveSpec(httpMethod, path, cli, bodyStr, spec, parse).Ok?
    requires var op := ResolveSpec(httpMethod, path, cli, bodyStr, spec, parse).value.operation;
             var names := ExtractParamNames(op.path);
             |texts| == |names| + 1 && op.path == Splice(texts, BracedAll(names))
             && forall i :: 0 <= i < |texts| ==> NoOpenBrace(texts[i])
    requires var res := MatchSpec(httpMethod, path, spec.operations);
             var op := ResolveSpec(httpMethod, path, cli, bodyStr, spec, parse).value.operation;
             var d := ClassifyAll(op, Seed(res), cli).path;
             forall n :: n in ExtractParamNames(op.path) && FindCI(d, n).Some? ==> NoOpenBrace(FindCI(d, n).value)
    ensures var res := MatchSpec(httpMethod, path, spec.operations);
            var req := ResolveSpec(httpMethod, path, cli, bodyStr, spec, parse).value;
            req.path == Splice(texts, FoundValues(ClassifyAll(req.operation, Seed(res), cli).path,
                                                  ExtractParamNames(req.operation.path)))
  {
    var res := MatchSpec(httpMethod, path, spec.operations);
    var req := ResolveSpec(httpMethod, path, cli, bodyStr, spec, parse).value;
    var d := ClassifyAll(req.operation, Seed(res), cli).path;
    var names := ExtractParamNames(req.operation.path);
    ResolveOkInterpolated(httpMethod, path, cli, bodyStr, spec, parse);
    assert forall i :: 0 <= i < |names| ==> NoBraces(names[i]) && FindCI(d, names[i]).Some?
                                             && NoOpenBrace(FindCI(d, names[i]).value) by {
      WordsHaveNoBraces(names);
    }
    InterpolateTemplate(texts, names, d);
  }

  /** On success the path is the template interpolated from the path bucket, which holds every placeholder. */
  lemma ResolveOkInterpolated(httpMethod: string, path: string, cli: Dict<string>, bodyStr: Option<string>,
                              spec: ApiSpec, parse: string -> Option<Json>)
    requires ResolveSpec(httpMethod, path, cli, bodyStr, spec, parse).Ok?
    ensures var res := MatchSpec(httpMethod, path, spec.operations);
            var req := ResolveSpec(httpMethod, path, cli, bodyStr, spec, parse).value;
            var d := ClassifyAll(req.operation, Seed(res), cli).path;
            var names := ExtractParamNames(req.operation.path);
            req.path == Interpolate(req.operation.path, names, d)
            && forall i :: 0 <= i < |names| ==> FindCI(d, names[i]).Some?
  {
  }

  /** A missing placeholder: `MISSING_PARAM`, naming the first missing placeholder in template order. */
  lemma ResolveMissing(httpMethod: string, path: string, cli: Dict<string>, bodyStr: Option<string>,
                       spec: ApiSpec, parse: string -> Option<Json>, i: nat)
    requires MatchSpec(httpMethod, path, spec.operations).operation.Some?
    requires var res := MatchSpec(httpMethod, path, spec.operations);
             var b := ClassifyAll(res.operation.value, Seed(res), cli);
             var names := ExtractParamNames(res.operation.value.path);
             i < |names| && FindCI(b.path, names[i]).None?
             && forall j :: 0 <= j < i ==> FindCI(b.path, names[j]).Some?
    ensures var names := ExtractParamNames(MatchSpec(httpMethod, path, spec.operations).operation.value.path);
            ResolveSpec(httpMethod, path, cli, bodyStr, spec, parse)
              == Err(ResolutionError("MISSING_PARAM", MissingMessage(names[i])))
  {
    var res := MatchSpec(httpMethod, path, spec.operations);
    var op := res.operation.value;
    FirstMissingAt(ExtractParamNames(op.path), ClassifyAll(op, Seed(res), cli).path, i);
  }

  lemma {:induction false} FirstMissingAt(names: seq<string>, d: Dict<string>, i: nat)
    requires i < |names| && FindCI(d, names[i]).None?
    requires forall j :: 0 <= j < i ==> FindCI(d, names[j]).Some?
    ensures FirstMissing(names, d) == Some(names[i])
  {
    if i > 0 {
      assert forall j :: 0 <= j < i - 1 ==> names[1..][j] == names[j + 1];
      FirstMissingAt(names[1..], d, i - 1);
    }
  }

  lemma PetIdIsWord()
    ensures IsWord("petId")
  {
    assert forall i :: 0 <= i < 5 ==> IsWordChar("petId"[i]);
  }

  lemma PetTemplate()
    ensures "/pets/{petId}" == "/pets" + "/" + Placeholder(Braces, "petId") + ""
    ensures "/pets/{petId}" == "/pets/" + Braced("petId") + ""
  {
  }

  /** The template `/pets/{petId}` has the single placeholder `petId`. */
  lemma PetNames()
    ensures ExtractParamNames("/pets/{petId}") == ["petId"]
  {
    PetIdIsWord();
    PetTemplate();
    NoPlaceholderNames("/pets");
    NoPlaceholderNames("");
    ExtractNamesOfSegment("/pets", Braces, "petId", "");
  }

  lemma PetFind()
    ensures FindCI([("petid", "5")], "petId") == Some("5")
  {
    assert Lower("petid") == Lower("petId");
  }

  lemma PetInterpolate()
    ensures Interpolate("/pets/{petId}", ["petId"], [("petid", "5")]) == "/pets/5"
  {
    PetFind();
    PetTemplate();
    InterpolateSingle("/pets/", "petId", "", [("petid", "5")], "5");
  }

  /** The interpolation promised for `/pets/{petId}`: the key `petid` fills it, giving `/pets/5`. */
  lemma PetExample()
    ensures ExtractParamNames("/pets/{petId}") == ["petId"]
    ensures FirstMissing(["petId"], [("petid", "5")]).None?
    ensures Interpolate("/pets/{petId}", ["petId"], [("petid", "5")]) == "/pets/5"
  {
    PetNames();
    PetFind();
    PetInterpolate();
  }
}
