/**
 * Response formatting: the process exit code a response status maps to, and
 * the TOON text encoding of a response (a compact, indentation-based,
 * line-oriented rendering of the status, the content type and the body).
 *
 * Each piece of the encoder is specified by a function producing the lines
 * it emits (`FieldLines`, `ObjectLines`, `ListLines`, `TabularLines`,
 * `ToonLines`); the methods `ToonObject`, `ListItems`, `ToonTabular` and
 * `EncodeToon` append the lines one at a time, as the source does, and are
 * proved to produce exactly the joined lines.
 */
module Output {
  import opened Wrappers
  import opened Strings
  import opened OrderedDict
  import opened JsonValue

  // ---------------------------------------------------------------------
  // Exit codes
  // ---------------------------------------------------------------------

  const ExitSuccess: nat := 0
  const ExitCliError: nat := 1
  const ExitAuthError: nat := 2
  const Exit4xx: nat := 3
  const Exit5xx: nat := 4
  const ExitNetwork: nat := 5

  /**
   * The exit code for a response status; no status at all means the request
   * never got a response.  The status classes are those of section 15 of
   * RFC 9110 (a status `s` belongs to class `s / 100`).
   */
  function ExitCodeForStatus(status: Option<int>): (r: nat)
    ensures r == ExitNetwork <==> status.None?
    ensures status.Some? && status.value >= 0 ==>
      (r == Exit4xx <==> status.value / 100 == 4) &&
      (r == Exit5xx <==> status.value / 100 == 5) &&
      (r == ExitSuccess <==> status.value / 100 !in {4, 5})
    ensures status.Some? && status.value < 0 ==> r == ExitSuccess
    ensures r != ExitCliError && r != ExitAuthError
  {
    match status
    case None => ExitNetwork
    case Some(s) =>
      if 200 <= s < 300 then ExitSuccess
      else if 400 <= s < 500 then Exit4xx
      else if 500 <= s < 600 then Exit5xx
      else ExitSuccess
  }

  // ---------------------------------------------------------------------
  // Scalars
  // ---------------------------------------------------------------------

  /** `n` spaces: the prefix of a line at indentation level `n`. */
  function Spaces(n: nat): (r: string)
    ensures |r| == n
    ensures forall i :: 0 <= i < n ==> r[i] == ' '
  {
    seq(n, _ => ' ')
  }

  /** Python's `str()` of a list or dict value: its `repr`, items separated by `, `. */
  function Repr(j: Json): string
    decreases j
  {
    match j
    case Null => "None"
    case Bool(b) => if b then "True" else "False"
    case Int(i) => IntToString(i)
    case Str(s) => "'" + s + "'"
    case Arr(items) =>
      "[" + Join(seq(|items|, k requires 0 <= k < |items| => Repr(items[k])), ", ") + "]"
    case Obj(fields) =>
      "{" + Join(seq(|fields|, k requires 0 <= k < |fields| => "'" + fields[k].0 + "': " + Repr(fields[k].1)), ", ") + "}"
  }

  /** The text of a single value: `null`, `true`/`false`, or `str(value)`. */
  function ToonValue(j: Json): (r: string)
    ensures j.Null? ==> r == "null"
    ensures j.Bool? ==> r == if j.b then "true" else "false"
    ensures j.Int? ==> IsNumeral(r) && (j.i < 0 <==> r[0] == '-')
    ensures j.Str? ==> r == j.s
  {
    if j.Int? then
      var t := IntToString(j.i);
      assert j.i < 0 ==> t[1..] == NatToString(-j.i);
      t
    else
    match j
    case Null => "null"
    case Bool(b) => if b then "true" else "false"
    case Int(i) => IntToString(i)
    case Str(s) => s
    case _ => Repr(j)
  }

  predicate AllDigits(t: string) {
    forall i :: 0 <= i < |t| ==> IsDigit(t[i])
  }

  /** A decimal numeral, possibly negative: the text `str()` gives an integer. */
  predicate IsNumeral(t: string) {
    (|t| > 0 && AllDigits(t)) || (|t| > 1 && t[0] == '-' && AllDigits(t[1..]))
  }

  /**
   * How a reader of TOON takes a scalar back: the keywords, then numerals,
   * and any other text as a string.
   */
  function ParseScalar(t: string): Json {
    if t == "null" then Null
    else if t == "true" then Bool(true)
    else if t == "false" then Bool(false)
    else if |t| > 0 && AllDigits(t) then Int(DigitsValue(t))
    else if |t| > 1 && t[0] == '-' && AllDigits(t[1..]) then Int(-(DigitsValue(t[1..]) as int))
    else Str(t)
  }

  /** A value written on a line of its own and not a list or dict. */
  predicate IsScalar(j: Json) {
    !j.Arr? && !j.Obj?
  }

  /** Integers survive the text encoding: `str(i)` reads back as `i`. */
  lemma IntRoundTrip(i: int)
    ensures ParseScalar(IntToString(i)) == Int(i)
  {
    var t := IntToString(i);
    if i >= 0 {
      NatToStringRoundTrip(i);
      assert t[0] != 'n' && t[0] != 't' && t[0] != 'f';
    } else {
      assert t[1..] == NatToString(-i);
      NatToStringRoundTrip(-i);
      assert !AllDigits(t) by {
        assert !IsDigit(t[0]);
      }
      assert t[0] != 'n' && t[0] != 't' && t[0] != 'f';
    }
  }

  /**
   * Scalars survive the text encoding: reading `ToonValue(v)` back gives `v`,
   * except for a string that spells a keyword or a numeral.
   */
  lemma ScalarRoundTrip(v: Json)
    requires IsScalar(v)
    requires v.Str? ==> v.s !in {"null", "true", "false"} && !IsNumeral(v.s)
    ensures ParseScalar(ToonValue(v)) == v
  {
    if v.Int? {
      IntRoundTrip(v.i);
    }
  }

  // ---------------------------------------------------------------------
  // Tabular lists
  // ---------------------------------------------------------------------

  /** A non-empty list of dicts that all have the same key set: written as a table. */
  predicate IsUniformListOfDicts(j: Json)
    ensures !j.Arr? || |j.items| == 0 ==> !IsUniformListOfDicts(j)
    ensures IsUniformListOfDicts(j) ==>
              forall k, c :: 0 <= k < |j.items| ==>
                j.items[k].Obj? && (c in Keys(Fields(j.items[k])) <==> c in Keys(Fields(j.items[0])))
  {
    && j.Arr?
    && |j.items| > 0
    && (forall k :: 0 <= k < |j.items| ==> j.items[k].Obj?)
    && (forall k :: 0 <= k < |j.items| ==> KeySet(Fields(j.items[k])) == KeySet(Fields(j.items[0])))
  }

  lemma SameKeysSameKeySet(a: seq<(string, Json)>, b: seq<(string, Json)>)
    requires forall c :: c in Keys(a) <==> c in Keys(b)
    ensures KeySet(a) == KeySet(b)
  {
    assert forall c :: c in KeySet(a) ==> c in KeySet(b);
    assert forall c :: c in KeySet(b) ==> c in KeySet(a);
  }

  /** A non-empty list of dicts whose rows all have the first row's keys is written as a table. */
  lemma UniformFromKeys(j: Json)
    requires j.Arr? && |j.items| > 0
    requires forall k :: 0 <= k < |j.items| ==> j.items[k].Obj?
    requires forall k, c :: 0 <= k < |j.items| ==> (c in Keys(Fields(j.items[k])) <==> c in Keys(Fields(j.items[0])))
    ensures IsUniformListOfDicts(j)
  {
    forall k | 0 <= k < |j.items|
      ensures KeySet(Fields(j.items[k])) == KeySet(Fields(j.items[0]))
    {
      SameKeysSameKeySet(Fields(j.items[k]), Fields(j.items[0]));
    }
  }

  /** The columns of a table: the keys of its first row, in order. */
  function Columns(rows: seq<Json>): seq<string>
    requires |rows| > 0
  {
    Keys(Fields(rows[0]))
  }

  /** A uniform list has every column in every row, so no cell falls back to `null` for a missing key. */
  lemma UniformRowsHaveColumns(j: Json, k: nat, c: string)
    requires IsUniformListOfDicts(j)
    requires k < |j.items| && c in Columns(j.items)
    ensures HasKey(j.items[k], c)
  {
    assert c in KeySet(Fields(j.items[0]));
    assert c in KeySet(Fields(j.items[k]));
  }

  /** `key[n]{c1,c2,...}:`, the first line of a table of `n` rows. */
  function HeaderLine(key: string, rows: seq<Json>): string
    requires |rows| > 0
  {
    key + "[" + NatToString(|rows|) + "]{" + Join(Columns(rows), ",") + "}:"
  }

  /** The cells of a row: the row's value under each column, `null` when it has none. */
  function Cells(cols: seq<string>, row: Json): (r: seq<string>)
    ensures |r| == |cols|
  {
    seq(|cols|, c requires 0 <= c < |cols| => ToonValue(MemberOr(row, cols[c], Null)))
  }

  function RowLine(cols: seq<string>, row: Json): string {
    " " + Join(Cells(cols, row), ",")
  }

  /** One line per row, in row order. */
  function RowLines(cols: seq<string>, rows: seq<Json>): (r: seq<string>)
    ensures |r| == |rows|
  {
    if |rows| == 0 then [] else RowLines(cols, rows[..|rows| - 1]) + [RowLine(cols, rows[|rows| - 1])]
  }

  lemma {:induction false} RowLinesAt(cols: seq<string>, rows: seq<Json>, k: nat)
    requires k < |rows|
    ensures RowLines(cols, rows)[k] == RowLine(cols, rows[k])
    decreases |rows|
  {
    if k < |rows| - 1 {
      RowLinesAt(cols, rows[..|rows| - 1], k);
    }
  }

  /** The lines of a non-empty table: the header, then one line per row, in order. */
  function TabularLines(key: string, rows: seq<Json>): (r: seq<string>)
    requires |rows| > 0
  {
    [HeaderLine(key, rows)] + RowLines(Columns(rows), rows)
  }

  /** A list of dicts as a table; an empty list is written as `key[0]:` and a line break. */
  function Tabular(key: string, rows: seq<Json>): string {
    if |rows| == 0 then key + "[0]:\n" else Join(TabularLines(key, rows), "\n")
  }

  /** `_toon_tabular`. */
  method ToonTabular(key: string, rows: seq<Json>) returns (text: string)
    ensures text == Tabular(key, rows)
  {
    if |rows| == 0 {
      return key + "[0]:\n";
    }
    var cols := Columns(rows);
    var header := key + "[" + NatToString(|rows|) + "]{" + Join(cols, ",") + "}:";
    var lines := [header];
    assert header == HeaderLine(key, rows);
    for i := 0 to |rows|
      invariant lines == [header] + RowLines(cols, rows[..i])
    {
      var vals := Cells(cols, rows[i]);
      assert rows[..i + 1][..i] == rows[..i];
      assert RowLines(cols, rows[..i + 1]) == RowLines(cols, rows[..i]) + [RowLine(cols, rows[i])];
      lines := lines + [" " + Join(vals, ",")];
    }
    assert rows[..|rows|] == rows;
    assert lines == TabularLines(key, rows);
    text := Join(lines, "\n");
  }

  /** A line holds no line break. */
  predicate OneLine(s: string) {
    '\n' !in s
  }

  lemma NumeralOneLine(n: nat)
    ensures OneLine(NatToString(n))
  {
    var s := NatToString(n);
    assert forall i :: 0 <= i < |s| ==> IsDigit(s[i]);
  }

  /** A row's line holds no line break when none of its cells does. */
  lemma RowLineOneLine(cols: seq<string>, row: Json)
    requires forall c :: 0 <= c < |cols| ==> OneLine(ToonValue(MemberOr(row, cols[c], Null)))
    ensures OneLine(RowLine(cols, row))
  {
    JoinAvoids(Cells(cols, row), ",", '\n');
  }

  lemma HeaderLineOneLine(key: string, rows: seq<Json>)
    requires |rows| > 0 && OneLine(key)
    requires forall c :: 0 <= c < |Columns(rows)| ==> OneLine(Columns(rows)[c])
    ensures OneLine(HeaderLine(key, rows))
  {
    NumeralOneLine(|rows|);
    JoinAvoids(Columns(rows), ",", '\n');
  }

  /**
   * A table of `n` rows reads back as `n + 1` lines, the header first and then
   * each row's cells in column order, when no key, column name or cell text
   * holds a line break.
   */
  lemma TabularLayout(key: string, rows: seq<Json>)
    requires |rows| > 0
    requires OneLine(key)
    requires forall c :: 0 <= c < |Columns(rows)| ==> OneLine(Columns(rows)[c])
    requires forall k, c :: 0 <= k < |rows| && 0 <= c < |Columns(rows)| ==>
      OneLine(ToonValue(MemberOr(rows[k], Columns(rows)[c], Null)))
    ensures SplitOn(Tabular(key, rows), '\n') == TabularLines(key, rows)
    ensures |SplitOn(Tabular(key, rows), '\n')| == |rows| + 1
    ensures forall k :: 0 <= k < |rows| ==>
      SplitOn(Tabular(key, rows), '\n')[k + 1] == " " + Join(Cells(Columns(rows), rows[k]), ",")
  {
    forall k | 0 <= k < |rows|
      ensures TabularLines(key, rows)[k + 1] == RowLine(Columns(rows), rows[k])
    {
      RowLinesAt(Columns(rows), rows, k);
    }
    var cols := Columns(rows);
    var lines := TabularLines(key, rows);
    HeaderLineOneLine(key, rows);
    forall i | 0 <= i < |lines|
      ensures '\n' !in lines[i]
    {
      if i > 0 {
        RowLinesAt(cols, rows, i - 1);
        RowLineOneLine(cols, rows[i - 1]);
      }
    }
    SplitJoin(lines, '\n');
  }

  // ---------------------------------------------------------------------
  // Objects and lists
  // ---------------------------------------------------------------------

  /** The lines one member `key: value` of a dict at indentation `indent` is written as. */
  function FieldLines(key: string, value: Json, indent: nat): seq<string>
    decreases value, |Fields(value)| + |Items(value)| + 2
  {
    var p := Spaces(indent);
    if value.Obj? then [p + key + ":", ObjectText(value, indent + 1)]
    else if IsUniformListOfDicts(value) then [p + Tabular(key, value.items)]
    else if value.Arr? then [p + key + "[" + NatToString(|value.items|) + "]:"] + ListLines(value, indent, 0)
    else [p + key + ": " + ToonValue(value)]
  }

  /** The lines of the members of dict `j` from the `i`-th on. */
  function ObjectLines(j: Json, indent: nat, i: nat): seq<string>
    requires j.Obj? && i <= |j.fields|
    decreases j, |j.fields| - i
  {
    if i == |j.fields| then []
    else FieldLines(j.fields[i].0, j.fields[i].1, indent) + ObjectLines(j, indent, i + 1)
  }

  /** A dict written at indentation `indent`: its members' lines, joined. */
  function ObjectText(j: Json, indent: nat): string
    requires j.Obj?
    decreases j, |j.fields| + 1
  {
    Join(ObjectLines(j, indent, 0), "\n")
  }

  /**
   * The item lines of list `v` under a member at indentation `indent`, from
   * the `m`-th item on: a dict item is a ` -` line followed by the dict two
   * levels deeper, any other item its value after one space.
   */
  function ListLines(v: Json, indent: nat, m: nat): seq<string>
    requires v.Arr? && m <= |v.items|
    decreases v, |v.items| - m
  {
    if m == |v.items| then []
    else
      var p := Spaces(indent);
      var item := v.items[m];
      (if item.Obj? then [p + " -", ObjectText(item, indent + 2)] else [p + " " + ToonValue(item)])
      + ListLines(v, indent, m + 1)
  }

  /** `_toon_object`. */
  method ToonObject(j: Json, indent: nat) returns (text: string)
    requires j.Obj?
    ensures text == ObjectText(j, indent)
    decreases j, 1
  {
    var prefix := Spaces(indent);
    var lines: seq<string> := [];
    var i := 0;
    while i < |j.fields|
      invariant i <= |j.fields|
      invariant lines + ObjectLines(j, indent, i) == ObjectLines(j, indent, 0)
    {
      var (key, value) := j.fields[i];
      var more: seq<string>;
      if value.Obj? {
        var inner := ToonObject(value, indent + 1);
        more := [prefix + key + ":", inner];
      } else if IsUniformListOfDicts(value) {
        var table := ToonTabular(key, value.items);
        more := [prefix + table];
      } else if value.Arr? {
        var items := ListItems(value, indent);
        more := [prefix + key + "[" + NatToString(|value.items|) + "]:"] + items;
      } else {
        more := [prefix + key + ": " + ToonValue(value)];
      }
      assert more == FieldLines(key, value, indent);
      ConcatAssoc(lines, more, ObjectLines(j, indent, i + 1));
      lines := lines + more;
      i := i + 1;
    }
    assert lines == lines + [];
    text := Join(lines, "\n");
  }

  /** The item loop of `_toon_object` (and of `encode_toon` at indentation 0). */
  method ListItems(v: Json, indent: nat) returns (lines: seq<string>)
    requires v.Arr?
    ensures lines == ListLines(v, indent, 0)
    decreases v, 0
  {
    var prefix := Spaces(indent);
    lines := [];
    var m := 0;
    while m < |v.items|
      invariant m <= |v.items|
      invariant lines + ListLines(v, indent, m) == ListLines(v, indent, 0)
    {
      var item := v.items[m];
      var more: seq<string>;
      if item.Obj? {
        var inner := ToonObject(item, indent + 2);
        more := [prefix + " -", inner];
      } else {
        more := [prefix + " " + ToonValue(item)];
      }
      assert ListLines(v, indent, m) == more + ListLines(v, indent, m + 1);
      ConcatAssoc(lines, more, ListLines(v, indent, m + 1));
      lines := lines + more;
      m := m + 1;
    }
    assert lines == lines + [];
  }

  /** The line of a member whose value is a single value. */
  function FieldLine(f: (string, Json), indent: nat): string {
    Spaces(indent) + f.0 + ": " + ToonValue(f.1)
  }

  /** A dict whose values are all single values, each printable on one line. */
  predicate Flat(j: Json) {
    j.Obj? &&
    forall i :: 0 <= i < |j.fields| ==>
      IsScalar(j.fields[i].1) && OneLine(j.fields[i].0) && OneLine(ToonValue(j.fields[i].1))
  }

  /** A member whose value is a single value takes one line, `key: value`. */
  lemma ScalarFieldLines(key: string, v: Json, indent: nat)
    requires IsScalar(v)
    ensures FieldLines(key, v, indent) == [Spaces(indent) + key + ": " + ToonValue(v)]
  {
  }

  lemma {:induction false} FlatObjectLines(j: Json, indent: nat, i: nat)
    requires Flat(j) && i <= |j.fields|
    ensures |ObjectLines(j, indent, i)| == |j.fields| - i
    ensures forall k :: 0 <= k < |j.fields| - i ==> ObjectLines(j, indent, i)[k] == FieldLine(j.fields[i + k], indent)
    decreases |j.fields| - i
  {
    if i < |j.fields| {
      FlatObjectLines(j, indent, i + 1);
      var f := j.fields[i];
      ScalarFieldLines(f.0, f.1, indent);
      var later := ObjectLines(j, indent, i + 1);
      assert ObjectLines(j, indent, i) == [FieldLine(f, indent)] + later;
      forall k | 0 <= k < |j.fields| - i
        ensures ObjectLines(j, indent, i)[k] == FieldLine(j.fields[i + k], indent)
      {
        if k > 0 {
          assert ObjectLines(j, indent, i)[k] == later[k - 1];
          assert i + 1 + (k - 1) == i + k;
        }
      }
    }
  }

  /**
   * A flat dict reads back as one line per member, in member order, each
   * `key: value` behind the indentation.
   */
  lemma FlatObjectLayout(j: Json, indent: nat)
    requires Flat(j) && |j.fields| > 0
    ensures |SplitOn(ObjectText(j, indent), '\n')| == |j.fields|
    ensures forall i :: 0 <= i < |j.fields| ==>
      SplitOn(ObjectText(j, indent), '\n')[i] == Spaces(indent) + j.fields[i].0 + ": " + ToonValue(j.fields[i].1)
  {
    FlatObjectLines(j, indent, 0);
    var lines := ObjectLines(j, indent, 0);
    forall i | 0 <= i < |lines|
      ensures '\n' !in lines[i]
    {
      var f := j.fields[i];
      assert OneLine(f.0) && OneLine(ToonValue(f.1));
      assert lines[i] == Spaces(indent) + f.0 + ": " + ToonValue(f.1);
    }
    SplitJoin(lines, '\n');
  }

  // ---------------------------------------------------------------------
  // Whole responses
  // ---------------------------------------------------------------------

  /** A response as the client returns it; a missing body is `Null`. */
  datatype ApiResponse = ApiResponse(status: int, headers: Dict<string>, body: Json, elapsedMs: int)

  /** The content type, when the response has a non-empty one. */
  function ContentType(headers: Dict<string>): Option<string> {
    match Get(headers, "content-type")
    case Some(ct) => if ct != "" then Some(ct) else None
    case None => None
  }

  /** The header block: shown only for a non-empty content type. */
  function HeaderBlock(headers: Dict<string>): seq<string> {
    match ContentType(headers)
    case Some(ct) => ["headers:", " content-type: " + ct]
    case None => []
  }

  /** The body block: a dict, a table, a list, a single value, or nothing for no body. */
  function BodyLines(body: Json): seq<string> {
    if body.Obj? then ["body:", ObjectText(body, 1)]
    else if IsUniformListOfDicts(body) then [Tabular("body", body.items)]
    else if body.Arr? then ["body[" + NatToString(|body.items|) + "]:"] + ListLines(body, 0, 0)
    else if body.Null? then []
    else ["body: " + ToonValue(body)]
  }

  function StatusLine(resp: ApiResponse): string {
    "status: " + IntToString(resp.status)
  }

  function ElapsedLine(resp: ApiResponse): string {
    "elapsed_ms: " + IntToString(resp.elapsedMs)
  }

  /** Every line of the TOON text of a response. */
  function ToonLines(resp: ApiResponse): seq<string> {
    [StatusLine(resp), ElapsedLine(resp)] + HeaderBlock(resp.headers) + BodyLines(resp.body)
  }

  /** `encode_toon`. */
  method EncodeToon(resp: ApiResponse) returns (text: string)
    ensures text == Join(ToonLines(resp), "\n")
  {
    var lines := [StatusLine(resp), ElapsedLine(resp)];
    var ct := Get(resp.headers, "content-type");
    var shown: seq<string> := [];
    if ct.Some? && ct.value != "" {
      shown := ["headers:", " content-type: " + ct.value];
    }
    assert shown == HeaderBlock(resp.headers);
    lines := lines + shown;
    var body := resp.body;
    var more: seq<string> := [];
    if body.Obj? {
      var inner := ToonObject(body, 1);
      more := ["body:", inner];
    } else if IsUniformListOfDicts(body) {
      var table := ToonTabular("body", body.items);
      more := [table];
    } else if body.Arr? {
      var items := ListItems(body, 0);
      more := ["body[" + NatToString(|body.items|) + "]:"] + items;
    } else if !body.Null? {
      more := ["body: " + ToonValue(body)];
    }
    assert more == BodyLines(body);
    lines := lines + more;
    text := Join(lines, "\n");
  }

  /** The body is written as a top-level member named `body`, unless there is none. */
  lemma BodyIsField(body: Json)
    requires !body.Null?
    ensures BodyLines(body) == FieldLines("body", body, 0)
  {
    var p := Spaces(0);
    assert p == "";
    if body.Obj? {
      assert p + "body" + ":" == "body:";
    } else if IsUniformListOfDicts(body) {
      assert p + Tabular("body", body.items) == Tabular("body", body.items);
    } else if body.Arr? {
      assert p + "body" + "[" + NatToString(|body.items|) + "]:" == "body[" + NatToString(|body.items|) + "]:";
    } else {
      assert p + "body" + ": " + ToonValue(body) == "body: " + ToonValue(body);
    }
  }

  /** The text always opens with the status line and the elapsed-time line. */
  lemma EncodeToonPreamble(resp: ApiResponse)
    ensures StartsWith(Join(ToonLines(resp), "\n"), StatusLine(resp) + "\n" + ElapsedLine(resp))
  {
    var rest := HeaderBlock(resp.headers) + BodyLines(resp.body);
    assert ToonLines(resp) == [StatusLine(resp), ElapsedLine(resp)] + rest;
    JoinTwoHead(StatusLine(resp), ElapsedLine(resp), rest, "\n");
  }

  /** The third line is `headers:` exactly when the response has a non-empty content type, and the fourth then names it. */
  lemma HeadersShownIff(resp: ApiResponse)
    ensures (|ToonLines(resp)| > 2 && ToonLines(resp)[2] == "headers:") <==> ContentType(resp.headers).Some?
    ensures ContentType(resp.headers).Some? ==>
      ToonLines(resp)[3] == " content-type: " + ContentType(resp.headers).value
  {
    var lines := ToonLines(resp);
    var body := BodyLines(resp.body);
    if ContentType(resp.headers).None? && |lines| > 2 {
      assert lines[2] == body[0];
      var first := body[0];
      if IsUniformListOfDicts(resp.body) && !resp.body.Obj? {
        var t := TabularLines("body", resp.body.items);
        JoinHead(t, "\n");
        assert t[0][0] == 'b';
        assert first[0] == 'b';
      } else {
        assert first[0] == 'b';
      }
      assert "headers:"[0] == 'h';
    }
  }
}
