/**
 * Path templates: the three placeholder syntaxes `{x}`, `:x` and `<x>`
 * (OpenAPI 3.0 "Path Templating" writes `{x}`), normalisation of a path for
 * structural comparison, extraction of placeholder names, and splitting
 * into segments.
 *
 * The placeholder pattern `\{(\w+)\}|:(\w+)|<(\w+)>` is scanned by hand:
 * `Tokenize` cuts a path into literal characters and placeholders the way
 * the regular-expression engine does, left to right, without overlaps.
 * `\w` is restricted to ASCII letters, digits and `_`.
 */
module PathTemplate {
  import opened Wrappers
  import opened Strings

  predicate IsWordChar(c: char) {
    'a' <= c <= 'z' || 'A' <= c <= 'Z' || '0' <= c <= '9' || c == '_'
  }

  predicate IsWord(s: string) {
    |s| > 0 && forall i :: 0 <= i < |s| ==> IsWordChar(s[i])
  }

  /** Length of the longest run of word characters of `s` from index `i`. */
  function WordRun(s: string, i: nat): (k: nat)
    requires i <= |s|
    ensures i + k <= |s|
    ensures forall j :: i <= j < i + k ==> IsWordChar(s[j])
    ensures i + k < |s| ==> !IsWordChar(s[i + k])
    decreases |s| - i
  {
    if i < |s| && IsWordChar(s[i]) then 1 + WordRun(s, i + 1) else 0
  }

  /** A piece of a tokenized path: a literal character or a placeholder. */
  datatype Piece = Lit(c: char) | Param(name: string)

  /**
   * The placeholder that the pattern matches at the start of `s`, if any,
   * with the number of characters the match covers.
   */
  function MatchAt(s: string): (r: Option<(string, nat)>)
    ensures r.Some? ==> 2 <= r.value.1 <= |s| && IsWord(r.value.0)
  {
    if |s| == 0 then None
    else
      var k := WordRun(s, 1);
      if k == 0 then None
      else if s[0] == '{' && 1 + k < |s| && s[1 + k] == '}' then Some((s[1..1 + k], k + 2))
      else if s[0] == ':' then Some((s[1..1 + k], k + 1))
      else if s[0] == '<' && 1 + k < |s| && s[1 + k] == '>' then Some((s[1..1 + k], k + 2))
      else None
  }

  /** The scan of `_PARAM_RE.sub` / `_PARAM_RE.finditer` over a path. */
  function Tokenize(s: string): seq<Piece>
    decreases |s|
  {
    if |s| == 0 then []
    else match MatchAt(s)
      case Some((name, len)) => [Param(name)] + Tokenize(s[len..])
      case None => [Lit(s[0])] + Tokenize(s[1..])
  }

  /** The text of a tokenized path after every placeholder is written `{lower-cased name}`. */
  function Render(ps: seq<Piece>): string
  {
    if |ps| == 0 then ""
    else
      var head := match ps[0]
        case Lit(c) => [c]
        case Param(n) => "{" + Lower(n) + "}";
      head + Render(ps[1..])
  }

  /** The placeholder names of a tokenized path, in order. */
  function Names(ps: seq<Piece>): seq<string>
  {
    if |ps| == 0 then []
    else match ps[0]
      case Lit(_) => Names(ps[1..])
      case Param(n) => [n] + Names(ps[1..])
  }

  /** `_normalize_path`: placeholders as `{name}`, the whole lower-cased, trailing `/` removed. */
  function NormalizePath(path: string): (r: string)
    ensures forall i :: 0 <= i < |r| ==> !IsUpper(r[i])
    ensures r == [] || r[|r| - 1] != '/'
  {
    TrimRight(Lower(Render(Tokenize(path))), '/')
  }

  /** `_extract_param_names`: placeholder names, in order and in their original case. */
  function ExtractParamNames(path: string): (r: seq<string>)
    ensures forall i :: 0 <= i < |r| ==> IsWord(r[i])
  {
    TokenNamesAreWords(path);
    Names(Tokenize(path))
  }

  lemma {:induction false} TokenNamesAreWords(s: string)
    ensures forall i :: 0 <= i < |Names(Tokenize(s))| ==> IsWord(Names(Tokenize(s))[i])
    decreases |s|
  {
    if |s| > 0 {
      match MatchAt(s)
      case Some((name, len)) =>
        TokenNamesAreWords(s[len..]);
        assert Names(Tokenize(s)) == [name] + Names(Tokenize(s[len..]));
      case None =>
        TokenNamesAreWords(s[1..]);
        assert Names(Tokenize(s)) == Names(Tokenize(s[1..]));
    }
  }

  /** A path with none of `{`, `:` and `<` holds no placeholder. */
  lemma {:induction false} NoPlaceholderNames(s: string)
    requires forall i :: 0 <= i < |s| ==> s[i] != '{' && s[i] != ':' && s[i] != '<'
    ensures ExtractParamNames(s) == []
    decreases |s|
  {
    if |s| > 0 {
      assert MatchAt(s).None?;
      NoPlaceholderNames(s[1..]);
      assert Names(Tokenize(s)) == Names(Tokenize(s[1..]));
    }
  }

  /** `_segments`: the non-empty pieces of the path split on `/`. */
  function Segments(path: string): (r: seq<string>)
    ensures forall i :: 0 <= i < |r| ==> r[i] != "" && '/' !in r[i]
  {
    NonEmpty(SplitOn(Trim(path, '/'), '/'))
  }

  function NonEmpty(parts: seq<string>): (r: seq<string>)
    ensures forall i :: 0 <= i < |r| ==> r[i] != "" && r[i] in parts
  {
    if |parts| == 0 then []
    else if parts[0] == "" then NonEmpty(parts[1..])
    else [parts[0]] + NonEmpty(parts[1..])
  }

  // ---------------------------------------------------------------------------
  // Tokenizing stops at `/`: a placeholder never spans a slash
  // ---------------------------------------------------------------------------

  lemma {:induction false} WordRunBeforeSlash(p: string, q: string, i: nat)
    requires i <= |p|
    ensures WordRun(p + "/" + q, i) == WordRun(p, i)
    decreases |p| - i
  {
    var s := p + "/" + q;
    if i < |p| {
      assert s[i] == p[i];
      WordRunBeforeSlash(p, q, i + 1);
    } else {
      assert s[i] == '/';
    }
  }

  lemma MatchAtBeforeSlash(p: string, q: string)
    requires |p| > 0
    ensures MatchAt(p + "/" + q) == MatchAt(p)
    ensures MatchAt(p).Some? ==> MatchAt(p).value.1 <= |p|
  {
    var s := p + "/" + q;
    WordRunBeforeSlash(p, q, 1);
    var k := WordRun(p, 1);
    assert s[0] == p[0];
    assert 1 + k < |p| ==> s[1 + k] == p[1 + k];
    assert 1 + k == |p| ==> s[1 + k] == '/';
    assert s[1..1 + k] == p[1..1 + k];
  }

  /** A `/` never starts a placeholder. */
  lemma TokenizeSlashFirst(q: string)
    ensures Tokenize("/" + q) == [Lit('/')] + Tokenize(q)
  {
    var s := "/" + q;
    assert s[0] == '/';
    assert MatchAt(s) == None;
    assert s[1..] == q;
  }

  lemma TokenizeUnfold(s: string)
    requires |s| > 0
    ensures MatchAt(s).Some? ==> Tokenize(s) == [Param(MatchAt(s).value.0)] + Tokenize(s[MatchAt(s).value.1..])
    ensures MatchAt(s).None? ==> Tokenize(s) == [Lit(s[0])] + Tokenize(s[1..])
  {
  }

  lemma SliceOfSlashConcat(p: string, q: string, k: nat)
    requires k <= |p|
    ensures (p + "/" + q)[k..] == p[k..] + "/" + q
  {
  }

  /** The first token of `p` is the first token of `p + "/" + q`, and it covers the same characters. */
  lemma FirstTokenBeforeSlash(p: string, q: string) returns (h: Piece, len: nat)
    requires |p| > 0
    ensures 1 <= len <= |p|
    ensures Tokenize(p) == [h] + Tokenize(p[len..])
    ensures Tokenize(p + "/" + q) == [h] + Tokenize(p[len..] + "/" + q)
  {
    var s := p + "/" + q;
    MatchAtBeforeSlash(p, q);
    TokenizeUnfold(s);
    TokenizeUnfold(p);
    var m := MatchAt(p);
    if m.Some? {
      h, len := Param(m.value.0), m.value.1;
    } else {
      h, len := Lit(p[0]), 1;
    }
    SliceOfSlashConcat(p, q, len);
  }

  /** A path tokenizes as the tokens of its parts with the `/` between them. */
  lemma {:induction false} TokenizeAtSlash(p: string, q: string)
    ensures Tokenize(p + "/" + q) == Tokenize(p) + [Lit('/')] + Tokenize(q)
    decreases |p|
  {
    if |p| == 0 {
      assert p + "/" + q == "/" + q;
      TokenizeSlashFirst(q);
    } else {
      var h, len := FirstTokenBeforeSlash(p, q);
      TokenizeAtSlash(p[len..], q);
      var a, c := Tokenize(p[len..]), Tokenize(q);
      assert [h] + (a + [Lit('/')] + c) == ([h] + a) + [Lit('/')] + c;
    }
  }

  lemma {:induction false} RenderAppend(a: seq<Piece>, b: seq<Piece>)
    ensures Render(a + b) == Render(a) + Render(b)
  {
    if |a| > 0 {
      assert (a + b)[1..] == a[1..] + b;
      RenderAppend(a[1..], b);
    } else {
      assert a + b == b;
    }
  }

  lemma {:induction false} NamesAppend(a: seq<Piece>, b: seq<Piece>)
    ensures Names(a + b) == Names(a) + Names(b)
  {
    if |a| > 0 {
      assert (a + b)[1..] == a[1..] + b;
      NamesAppend(a[1..], b);
    } else {
      assert a + b == b;
    }
  }

  // ---------------------------------------------------------------------------
  // The three placeholder syntaxes
  // ---------------------------------------------------------------------------

  datatype Syntax = Braces | Colon | Angles

  /** A placeholder named `n` written in one of the three syntaxes. */
  function Placeholder(syntax: Syntax, n: string): string {
    match syntax
    case Braces => "{" + n + "}"
    case Colon => ":" + n
    case Angles => "<" + n + ">"
  }

  lemma {:induction false} WordRunOverWord(pre: string, n: string, post: string)
    requires IsWord(n)
    requires post == [] || !IsWordChar(post[0])
    ensures WordRun(pre + n + post, |pre|) == |n|
    decreases |n|
  {
    var s := pre + n + post;
    assert s[|pre|] == n[0];
    if |n| == 1 {
      assert |pre| + 1 < |s| ==> s[|pre| + 1] == post[0];
    } else {
      assert pre + n + post == (pre + [n[0]]) + n[1..] + post;
      WordRunOverWord(pre + [n[0]], n[1..], post);
    }
  }

  /** Each of the three syntaxes is one placeholder carrying the name as written. */
  lemma TokenizePlaceholder(syntax: Syntax, n: string)
    requires IsWord(n)
    ensures Tokenize(Placeholder(syntax, n)) == [Param(n)]
  {
    var s := Placeholder(syntax, n);
    match syntax
    case Braces =>
      WordRunOverWord("{", n, "}");
      assert s[1..1 + |n|] == n && s[1 + |n|] == '}';
      assert s[|n| + 2..] == [];
    case Colon =>
      WordRunOverWord(":", n, "");
      assert s == ":" + n + "";
      assert s[1..1 + |n|] == n;
      assert s[|n| + 1..] == [];
    case Angles =>
      WordRunOverWord("<", n, ">");
      assert s[1..1 + |n|] == n && s[1 + |n|] == '>';
      assert s[|n| + 2..] == [];
  }

  /** A single token followed by nothing or by a `/` stays a single token. */
  lemma TokenThenRest(h: string, t: Piece, rest: string)
    requires Tokenize(h) == [t]
    requires rest == "" || rest[0] == '/'
    ensures Tokenize(h + rest) == [t] + Tokenize(rest)
  {
    if rest == "" {
      assert h + rest == h;
    } else {
      var r := rest[1..];
      assert rest == "/" + r;
      assert h + rest == h + "/" + r;
      TokenizeAtSlash(h, r);
      TokenizeSlashFirst(r);
    }
  }

  /** A single-token segment between `p` and the rest of the path. */
  lemma TokenSegment(p: string, h: string, t: Piece, rest: string)
    requires Tokenize(h) == [t]
    requires rest == "" || rest[0] == '/'
    ensures Tokenize(p + "/" + h + rest) == Tokenize(p) + [Lit('/'), t] + Tokenize(rest)
  {
    var m := h + rest;
    var a, c := Tokenize(p), Tokenize(rest);
    TokenThenRest(h, t, rest);
    SlashThen(p, m, [t] + c);
    ConcatAssoc(p + "/", h, rest);
    SlashTokenAssoc(a, t, c);
  }

  lemma SlashTokenAssoc(a: seq<Piece>, t: Piece, c: seq<Piece>)
    ensures a + [Lit('/')] + ([t] + c) == a + [Lit('/'), t] + c
  {
  }

  lemma SlashThen(p: string, m: string, ts: seq<Piece>)
    requires Tokenize(m) == ts
    ensures Tokenize(p + "/" + m) == Tokenize(p) + [Lit('/')] + ts
  {
    TokenizeAtSlash(p, m);
  }

  /** A placeholder as a whole segment, between `p` and the rest of the path. */
  lemma TokenizePlaceholderSegment(p: string, syntax: Syntax, n: string, rest: string)
    requires IsWord(n)
    requires rest == "" || rest[0] == '/'
    ensures Tokenize(p + "/" + Placeholder(syntax, n) + rest)
         == Tokenize(p) + [Lit('/'), Param(n)] + Tokenize(rest)
  {
    TokenizePlaceholder(syntax, n);
    TokenSegment(p, Placeholder(syntax, n), Param(n), rest);
  }

  lemma RenderSlashParam(n: string)
    ensures Render([Lit('/'), Param(n)]) == "/{" + Lower(n) + "}"
  {
    var seg := [Lit('/'), Param(n)];
    assert seg[1..] == [Param(n)] && [Param(n)][1..] == [];
    assert Render([Param(n)]) == "{" + Lower(n) + "}";
    assert Render(seg) == "/" + ("{" + Lower(n) + "}");
  }

  lemma RenderSegment(a: seq<Piece>, n: string, b: seq<Piece>)
    ensures Render(a + [Lit('/'), Param(n)] + b) == Render(a) + ("/{" + Lower(n) + "}") + Render(b)
  {
    RenderAppend(a + [Lit('/'), Param(n)], b);
    RenderAppend(a, [Lit('/'), Param(n)]);
    RenderSlashParam(n);
  }

  lemma NamesSegment(a: seq<Piece>, n: string, b: seq<Piece>)
    ensures Names(a + [Lit('/'), Param(n)] + b) == Names(a) + [n] + Names(b)
  {
    NamesAppend(a + [Lit('/'), Param(n)], b);
    NamesAppend(a, [Lit('/'), Param(n)]);
    var seg := [Lit('/'), Param(n)];
    assert seg[1..] == [Param(n)] && [Param(n)][1..] == [];
    assert Names([Param(n)]) == [n];
    assert Names(seg) == [n];
  }

  lemma NormalizeByRender(x1: string, x2: string)
    requires Render(Tokenize(x1)) == Render(Tokenize(x2))
    ensures NormalizePath(x1) == NormalizePath(x2)
  {
  }

  /**
   * Placeholder-syntax equivalence: writing a placeholder segment as `{x}`,
   * `:x` or `<x>`, in any letter case, normalizes to the same path.
   */
  lemma PlaceholderSyntaxEquivalence(p: string, s1: Syntax, n1: string, s2: Syntax, n2: string, rest: string)
    requires IsWord(n1) && IsWord(n2) && Lower(n1) == Lower(n2)
    requires rest == "" || rest[0] == '/'
    ensures NormalizePath(p + "/" + Placeholder(s1, n1) + rest)
         == NormalizePath(p + "/" + Placeholder(s2, n2) + rest)
  {
    var x1 := p + "/" + Placeholder(s1, n1) + rest;
    var x2 := p + "/" + Placeholder(s2, n2) + rest;
    var a, b := Tokenize(p), Tokenize(rest);
    assert Render(Tokenize(x1)) == Render(a) + ("/{" + Lower(n1) + "}") + Render(b) by {
      TokenizePlaceholderSegment(p, s1, n1, rest);
      RenderSegment(a, n1, b);
    }
    assert Render(Tokenize(x2)) == Render(a) + ("/{" + Lower(n2) + "}") + Render(b) by {
      TokenizePlaceholderSegment(p, s2, n2, rest);
      RenderSegment(a, n2, b);
    }
    NormalizeByRender(x1, x2);
  }

  /** Placeholder names come out left to right whatever syntax each one uses. */
  lemma ExtractNamesOfSegment(p: string, syntax: Syntax, n: string, rest: string)
    requires IsWord(n)
    requires rest == "" || rest[0] == '/'
    ensures ExtractParamNames(p + "/" + Placeholder(syntax, n) + rest)
         == ExtractParamNames(p) + [n] + ExtractParamNames(rest)
  {
    var x := p + "/" + Placeholder(syntax, n) + rest;
    var a, b := Tokenize(p), Tokenize(rest);
    assert Names(Tokenize(x)) == Names(a) + [n] + Names(b) by {
      TokenizePlaceholderSegment(p, syntax, n, rest);
      NamesSegment(a, n, b);
    }
  }

  /** A placeholder written in any of the three syntaxes normalizes to `{name}` in lower case. */
  lemma NormalizePlaceholder(syntax: Syntax, n: string)
    requires IsWord(n)
    ensures NormalizePath(Placeholder(syntax, n)) == "{" + Lower(n) + "}"
  {
    TokenizePlaceholder(syntax, n);
    NormalizeOfTokens(Placeholder(syntax, n), [Param(n)]);
    NormalizedParam(n);
  }

  lemma NormalizeOfTokens(x: string, ts: seq<Piece>)
    requires Tokenize(x) == ts
    ensures NormalizePath(x) == TrimRight(Lower(Render(ts)), '/')
  {
  }

  lemma NormalizedParam(n: string)
    ensures TrimRight(Lower(Render([Param(n)])), '/') == "{" + Lower(n) + "}"
  {
    var r := "{" + Lower(n) + "}";
    assert Render([Param(n)]) == r by {
      assert [Param(n)][1..] == [];
    }
    LowerOfLower(r);
    assert r[|r| - 1] == '}';
  }

  // ---------------------------------------------------------------------------
  // Segments
  // ---------------------------------------------------------------------------

  lemma {:induction false} JoinFirstChar(parts: seq<string>, sep: string)
    requires |parts| >= 1 && parts[0] != ""
    ensures Join(parts, sep) != "" && Join(parts, sep)[0] == parts[0][0]
  {
  }

  lemma {:induction false} JoinLastChar(parts: seq<string>, sep: string)
    requires |parts| >= 1 && parts[|parts| - 1] != ""
    ensures Join(parts, sep) != ""
    ensures Join(parts, sep)[|Join(parts, sep)| - 1] == parts[|parts| - 1][|parts[|parts| - 1]| - 1]
    decreases |parts|
  {
    if |parts| > 1 {
      JoinLastChar(parts[1..], sep);
    }
  }

  lemma {:induction false} NonEmptyKeepsAll(parts: seq<string>)
    requires forall i :: 0 <= i < |parts| ==> parts[i] != ""
    ensures NonEmpty(parts) == parts
  {
    if |parts| > 0 {
      NonEmptyKeepsAll(parts[1..]);
    }
  }

  /** Stripping the slashes of `"/" + j` gives `j` back when `j` neither starts nor ends with one. */
  lemma TrimLeadingSlash(j: string)
    requires j != "" && j[0] != '/' && j[|j| - 1] != '/'
    ensures Trim("/" + j, '/') == j
  {
    assert ("/" + j)[1..] == j;
    assert TrimLeft("/" + j, '/') == TrimLeft(j, '/');
    assert TrimLeft(j, '/') == j;
    assert TrimRight(j, '/') == j;
  }

  lemma SegmentsOf(path: string, core: string, parts: seq<string>)
    requires Trim(path, '/') == core && SplitOn(core, '/') == parts && NonEmpty(parts) == parts
    ensures Segments(path) == parts
  {
  }

  /** Segments of the canonical path built from segments are those segments. */
  lemma SegmentsRoundTrip(segs: seq<string>)
    requires forall i :: 0 <= i < |segs| ==> segs[i] != "" && '/' !in segs[i]
    ensures Segments("/" + Join(segs, "/")) == segs
  {
    var j := Join(segs, "/");
    if |segs| == 0 {
      assert Trim("/" + j, '/') == "";
      assert NonEmpty(SplitOn("", '/')) == [];
    } else {
      JoinFirstChar(segs, "/");
      JoinLastChar(segs, "/");
      TrimLeadingSlash(j);
      SplitJoin(segs, '/');
      NonEmptyKeepsAll(segs);
      SegmentsOf("/" + j, j, segs);
    }
  }
}
