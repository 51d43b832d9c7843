/**
 * The route-matching cascade: a method and a path typed by a person are
 * matched against the operations of a spec by five stages tried in order,
 * exact, normalized, positional, fuzzy, and, when all of them fail,
 * ranked suggestions.
 *
 * Each of the first four stages is a scan with first-hit semantics; a
 * stage is specified by the predicate `Hits` and the function `FirstHit`,
 * and implemented by a method proved to return what `FirstHit` picks.
 */
module Matcher {
  import opened Wrappers
  import opened Strings
  import OrderedDict
  import opened PathTemplate
  import opened Distance
  import opened SpecModel

  /** At most one of `operation` and `suggestions` is set; `extractedPathParams` only with an operation. */
  datatype MatchResult = MatchResult(
    operation: Option<OperationSpec>,
    extractedPathParams: Option<OrderedDict.Dict<string>>,
    suggestions: Option<seq<string>>)

  function LowerAll(segs: seq<string>): (r: seq<string>)
    ensures |r| == |segs|
    ensures forall i :: 0 <= i < |segs| ==> r[i] == Lower(segs[i])
  {
    seq(|segs|, i requires 0 <= i < |segs| => Lower(segs[i]))
  }

  // ---------------------------------------------------------------------------
  // Fuzzy segment equality
  // ---------------------------------------------------------------------------

  /** Two aligned segments are alike for the fuzzy stage. */
  predicate SegmentsAlike(sa: string, sb: string) {
    StartsWith(sa, "{") || StartsWith(sb, "{") || sa == sb
    || Singularize(sa) == Singularize(sb) || EditDistance(sa, sb) <= 1
  }

  /** Same number of segments, and every aligned pair alike. */
  predicate FuzzyEqual(aSegs: seq<string>, bSegs: seq<string>) {
    |aSegs| == |bSegs| && forall i :: 0 <= i < |aSegs| ==> SegmentsAlike(aSegs[i], bSegs[i])
  }

  /** The checks `_fuzzy_path_equal` makes on one aligned pair, cheapest first. */
  method AlikeCheck(sa: string, sb: string) returns (r: bool)
    ensures r <==> SegmentsAlike(sa, sb)
  {
    if StartsWith(sa, "{") || StartsWith(sb, "{") || sa == sb || Singularize(sa) == Singularize(sb) {
      return true;
    }
    var d := Levenshtein(sa, sb);
    return d <= 1;
  }

  /** `_fuzzy_path_equal`. */
  method FuzzyPathEqual(aSegs: seq<string>, bSegs: seq<string>) returns (r: bool)
    ensures r <==> FuzzyEqual(aSegs, bSegs)
  {
    if |aSegs| != |bSegs| {
      return false;
    }
    for i := 0 to |aSegs|
      invariant forall k :: 0 <= k < i ==> SegmentsAlike(aSegs[k], bSegs[k])
    {
      var alike := AlikeCheck(aSegs[i], bSegs[i]);
      if !alike {
        return false;
      }
    }
    return true;
  }

  // ---------------------------------------------------------------------------
  // Positional capture
  // ---------------------------------------------------------------------------

  /** The first placeholder name in a template segment, if it has one. */
  function SegmentName(seg: string): (r: Option<string>)
    ensures r.Some? <==> |ExtractParamNames(seg)| > 0
    ensures r.Some? ==> r.value == ExtractParamNames(seg)[0] && IsWord(r.value)
  {
    var names := ExtractParamNames(seg);
    if |names| > 0 then Some(names[0]) else None
  }

  /** The first placeholder name of each template segment that has one, in order. */
  function PlaceholderNames(os: seq<string>): seq<string> {
    if |os| == 0 then []
    else
      var n := |os| - 1;
      PlaceholderNames(os[..n]) + (match SegmentName(os[n]) case Some(name) => [name] case None => [])
  }

  /**
   * The loop of `_positional_match` over aligned segments: a template
   * segment holding a placeholder captures the user's segment under the
   * placeholder's name; any other segment must equal the user's ignoring
   * case, or nothing is captured.
   */
  function CaptureSegs(us: seq<string>, os: seq<string>): Option<OrderedDict.Dict<string>>
    requires |us| == |os|
  {
    if |us| == 0 then Some([])
    else
      var n := |us| - 1;
      match CaptureSegs(us[..n], os[..n])
      case None => None
      case Some(d) =>
        match SegmentName(os[n])
        case Some(name) => Some(OrderedDict.Put(d, name, us[n]))
        case None => if Lower(us[n]) != Lower(os[n]) then None else Some(d)
  }

  /** What the positional stage captures from `op`, if `op` is a positional hit. */
  function Capture(m: string, path: string, op: OperationSpec): Option<OrderedDict.Dict<string>> {
    var us, os := Segments(path), Segments(op.path);
    if op.httpMethod != m || |us| != |os| then None
    else match CaptureSegs(us, os)
      case Some(d) => if |d| > 0 then Some(d) else None
      case None => None
  }

  lemma PrefixOfPrefix<T>(xs: seq<T>, j: nat)
    requires j < |xs|
    ensures xs[..j + 1][..j] == xs[..j] && xs[..j + 1][j] == xs[j]
  {
  }

  lemma {:induction false} CaptureSegsFails(us: seq<string>, os: seq<string>, j: nat)
    requires |us| == |os| && j <= |us|
    requires CaptureSegs(us[..j], os[..j]).None?
    ensures CaptureSegs(us, os).None?
    decreases |us| - j
  {
    if j < |us| {
      PrefixOfPrefix(us, j);
      PrefixOfPrefix(os, j);
      CaptureSegsFails(us, os, j + 1);
    } else {
      assert us[..j] == us && os[..j] == os;
    }
  }

  lemma CaptureSegsSnoc(us: seq<string>, os: seq<string>, j: nat)
    requires |us| == |os| && j < |us|
    ensures CaptureSegs(us[..j + 1], os[..j + 1])
         == match CaptureSegs(us[..j], os[..j])
            case None => None
            case Some(d) =>
              match SegmentName(os[j])
              case Some(name) => Some(OrderedDict.Put(d, name, us[j]))
              case None => if Lower(us[j]) != Lower(os[j]) then None else Some(d)
  {
    PrefixOfPrefix(us, j);
    PrefixOfPrefix(os, j);
  }

  /** The inner loop of `_positional_match`. */
  method CaptureParams(us: seq<string>, os: seq<string>) returns (params: OrderedDict.Dict<string>, matched: bool)
    requires |us| == |os|
    ensures matched <==> CaptureSegs(us, os).Some?
    ensures matched ==> params == CaptureSegs(us, os).value
  {
    params := [];
    matched := true;
    for j := 0 to |us|
      invariant CaptureSegs(us[..j], os[..j]) == Some(params)
    {
      CaptureSegsSnoc(us, os, j);
      var names := ExtractParamNames(os[j]);
      if |names| > 0 {
        params := OrderedDict.Put(params, names[0], us[j]);
      } else if Lower(us[j]) != Lower(os[j]) {
        matched := false;
        CaptureSegsFails(us, os, j + 1);
        return;
      }
    }
    assert us[..|us|] == us && os[..|os|] == os;
  }

  /** The keys captured are exactly the template's placeholder names. */
  lemma {:induction false} CaptureKeys(us: seq<string>, os: seq<string>)
    requires |us| == |os| && CaptureSegs(us, os).Some?
    ensures forall k :: k in OrderedDict.Keys(CaptureSegs(us, os).value) <==> k in PlaceholderNames(os)
  {
    if |us| > 0 {
      var n := |us| - 1;
      CaptureKeys(us[..n], os[..n]);
      var d := CaptureSegs(us[..n], os[..n]).value;
      match SegmentName(os[n])
      case Some(name) => OrderedDict.PutKeys(d, name, us[n]);
      case None =>
    }
  }

  /** A capture of all segments is a capture of all but the last, whose literal matched. */
  lemma CaptureSegsStep(us: seq<string>, os: seq<string>)
    requires |us| == |os| > 0 && CaptureSegs(us, os).Some?
    ensures CaptureSegs(us[..|us| - 1], os[..|os| - 1]).Some?
    ensures SegmentName(os[|os| - 1]).None? ==> Lower(us[|us| - 1]) == Lower(os[|os| - 1])
  {
  }

  /** Every template segment without a placeholder equals the user's segment ignoring case. */
  lemma {:induction false} CaptureLiterals(us: seq<string>, os: seq<string>)
    requires |us| == |os| && CaptureSegs(us, os).Some?
    ensures forall i :: 0 <= i < |os| && SegmentName(os[i]).None? ==> Lower(us[i]) == Lower(os[i])
  {
    if |us| > 0 {
      var n := |us| - 1;
      CaptureSegsStep(us, os);
      var us', os' := us[..n], os[..n];
      CaptureLiterals(us', os');
      assert forall i :: 0 <= i < n ==> us'[i] == us[i] && os'[i] == os[i];
    }
  }

  /**
   * A positional capture: the op has the requested method and as many
   * segments as the path, the map is non-empty, its keys are exactly the
   * op's placeholder names, and every segment without a placeholder equals
   * the user's ignoring case.
   */
  lemma CaptureSound(m: string, path: string, op: OperationSpec)
    requires Capture(m, path, op).Some?
    ensures op.httpMethod == m && |Segments(path)| == |Segments(op.path)|
    ensures |Capture(m, path, op).value| > 0
    ensures forall k :: k in OrderedDict.Keys(Capture(m, path, op).value) <==> k in PlaceholderNames(Segments(op.path))
    ensures forall i :: 0 <= i < |Segments(op.path)| && SegmentName(Segments(op.path)[i]).None? ==>
              Lower(Segments(path)[i]) == Lower(Segments(op.path)[i])
  {
    CaptureKeys(Segments(path), Segments(op.path));
    CaptureLiterals(Segments(path), Segments(op.path));
  }

  // ---------------------------------------------------------------------------
  // The four scanning stages
  // ---------------------------------------------------------------------------

  datatype Stage = Exact | Normalized | Positional | Fuzzy

  predicate ExactHit(m: string, path: string, op: OperationSpec) {
    op.httpMethod == m && op.path == path
  }

  predicate NormalizedHit(m: string, path: string, op: OperationSpec) {
    op.httpMethod == m && NormalizePath(op.path) == NormalizePath(path)
  }

  predicate PositionalHit(m: string, path: string, op: OperationSpec) {
    Capture(m, path, op).Some?
  }

  /** The user's segments are only lower-cased; the template's are normalized first. */
  predicate FuzzyHit(m: string, path: string, op: OperationSpec) {
    op.httpMethod == m && FuzzyEqual(LowerAll(Segments(path)), LowerAll(Segments(NormalizePath(op.path))))
  }

  /** Whether `op` is a hit for `stage`, for the (upper-cased) method `m` and the user's path. */
  predicate Hits(stage: Stage, m: string, path: string, op: OperationSpec) {
    match stage
    case Exact => ExactHit(m, path, op)
    case Normalized => NormalizedHit(m, path, op)
    case Positional => PositionalHit(m, path, op)
    case Fuzzy => FuzzyHit(m, path, op)
  }

  /** The index of the first element at or after `k` satisfying `p`. */
  function FirstIndexFrom<T>(p: T -> bool, xs: seq<T>, k: nat): (r: Option<nat>)
    requires k <= |xs|
    ensures r.Some? ==> k <= r.value < |xs| && p(xs[r.value]) && forall j :: k <= j < r.value ==> !p(xs[j])
    ensures r.None? ==> forall j :: k <= j < |xs| ==> !p(xs[j])
    decreases |xs| - k
  {
    if k == |xs| then None
    else if p(xs[k]) then Some(k)
    else FirstIndexFrom(p, xs, k + 1)
  }

  /** No element before index `i` satisfies `p`. */
  ghost predicate NoneBefore<T>(p: T -> bool, xs: seq<T>, i: nat)
    requires i <= |xs|
  {
    i == 0 || (NoneBefore(p, xs, i - 1) && !p(xs[i - 1]))
  }

  lemma {:induction false} NoneBeforeAll<T>(p: T -> bool, xs: seq<T>, i: nat)
    requires i <= |xs| && NoneBefore(p, xs, i)
    ensures forall j :: 0 <= j < i ==> !p(xs[j])
  {
    if i > 0 {
      NoneBeforeAll(p, xs, i - 1);
    }
  }

  /** The first index is the only one satisfying `p` with none before it. */
  lemma FirstIndexIs<T>(p: T -> bool, xs: seq<T>, i: nat)
    requires i < |xs| && p(xs[i]) && NoneBefore(p, xs, i)
    ensures FirstIndexFrom(p, xs, 0) == Some(i)
  {
    NoneBeforeAll(p, xs, i);
  }

  lemma FirstIndexNone<T>(p: T -> bool, xs: seq<T>)
    requires NoneBefore(p, xs, |xs|)
    ensures FirstIndexFrom(p, xs, 0).None?
  {
    NoneBeforeAll(p, xs, |xs|);
  }

  /** `stage` as a test on operations. */
  function HitOf(stage: Stage, m: string, path: string): OperationSpec -> bool {
    op => Hits(stage, m, path, op)
  }

  /** The index of the first operation, in list order, that `stage` accepts. */
  function FirstHit(stage: Stage, m: string, path: string, ops: seq<OperationSpec>): Option<nat> {
    FirstIndexFrom(HitOf(stage, m, path), ops, 0)
  }

  function Picked(ops: seq<OperationSpec>, idx: Option<nat>): Option<OperationSpec> {
    match idx
    case Some(i) => if i < |ops| then Some(ops[i]) else None
    case None => None
  }

  /** `_exact_match`. */
  method ExactMatch(m: string, path: string, ops: seq<OperationSpec>) returns (r: Option<OperationSpec>)
    ensures r == Picked(ops, FirstHit(Exact, m, path, ops))
  {
    for i := 0 to |ops|
      invariant NoneBefore(HitOf(Exact, m, path), ops, i)
    {
      if ops[i].httpMethod == m && ops[i].path == path {
        FirstIndexIs(HitOf(Exact, m, path), ops, i);
        return Some(ops[i]);
      }
    }
    FirstIndexNone(HitOf(Exact, m, path), ops);
    return None;
  }

  /** `_normalized_match`. */
  method NormalizedMatch(m: string, path: string, ops: seq<OperationSpec>) returns (r: Option<OperationSpec>)
    ensures r == Picked(ops, FirstHit(Normalized, m, path, ops))
  {
    var norm := NormalizePath(path);
    for i := 0 to |ops|
      invariant NoneBefore(HitOf(Normalized, m, path), ops, i)
    {
      if ops[i].httpMethod == m && NormalizePath(ops[i].path) == norm {
        FirstIndexIs(HitOf(Normalized, m, path), ops, i);
        return Some(ops[i]);
      }
    }
    FirstIndexNone(HitOf(Normalized, m, path), ops);
    return None;
  }

  /** One iteration of `_positional_match`: what `op` captures from the user's segments. */
  method TryCapture(m: string, path: string, userSegs: seq<string>, op: OperationSpec)
    returns (r: Option<OrderedDict.Dict<string>>)
    requires userSegs == Segments(path)
    ensures r == Capture(m, path, op)
  {
    if op.httpMethod != m {
      return None;
    }
    var opSegs := Segments(op.path);
    if |userSegs| != |opSegs| {
      return None;
    }
    var params, matched := CaptureParams(userSegs, opSegs);
    if matched && |params| > 0 {
      return Some(params);
    }
    return None;
  }

  /** `_positional_match`: the first positional hit and what it captures. */
  method PositionalMatch(m: string, path: string, ops: seq<OperationSpec>)
    returns (r: Option<(OperationSpec, OrderedDict.Dict<string>)>)
    ensures FirstHit(Positional, m, path, ops).None? ==> r.None?
    ensures FirstHit(Positional, m, path, ops).Some? ==>
              var i := FirstHit(Positional, m, path, ops).value;
              r == Some((ops[i], Capture(m, path, ops[i]).value))
  {
    var userSegs := Segments(path);
    for i := 0 to |ops|
      invariant NoneBefore(HitOf(Positional, m, path), ops, i)
    {
      var params := TryCapture(m, path, userSegs, ops[i]);
      if params.Some? {
        FirstIndexIs(HitOf(Positional, m, path), ops, i);
        return Some((ops[i], params.value));
      }
    }
    FirstIndexNone(HitOf(Positional, m, path), ops);
    return None;
  }

  /** `_fuzzy_match`. */
  method FuzzyMatch(m: string, path: string, ops: seq<OperationSpec>) returns (r: Option<OperationSpec>)
    ensures r == Picked(ops, FirstHit(Fuzzy, m, path, ops))
  {
    var userSegs := LowerAll(Segments(path));
    for i := 0 to |ops|
      invariant NoneBefore(HitOf(Fuzzy, m, path), ops, i)
    {
      if ops[i].httpMethod != m {
        continue;
      }
      var opSegs := LowerAll(Segments(NormalizePath(ops[i].path)));
      var equal := FuzzyPathEqual(userSegs, opSegs);
      if equal {
        FirstIndexIs(HitOf(Fuzzy, m, path), ops, i);
        return Some(ops[i]);
      }
    }
    FirstIndexNone(HitOf(Fuzzy, m, path), ops);
    return None;
  }

  // ---------------------------------------------------------------------------
  // Ranked suggestions
  // ---------------------------------------------------------------------------

  datatype Scored = Scored(score: nat, desc: string)

  /** Distance between the normalized paths, plus 3 when the method differs. */
  function Score(m: string, path: string, op: OperationSpec): nat {
    EditDistance(NormalizePath(path), NormalizePath(op.path)) + (if op.httpMethod != m then 3 else 0)
  }

  /** `f"{op.method} {op.path}"`. */
  function Describe(op: OperationSpec): string {
    op.httpMethod + " " + op.path
  }

  /** The list `scored` before sorting: one entry per operation, in list order. */
  function ScoresOf(m: string, path: string, ops: seq<OperationSpec>): (r: seq<Scored>)
    ensures |r| == |ops|
  {
    if |ops| == 0 then []
    else
      var op := ops[|ops| - 1];
      ScoresOf(m, path, ops[..|ops| - 1]) + [Scored(Score(m, path, op), Describe(op))]
  }

  predicate SortedByScore(xs: seq<Scored>) {
    forall i, j :: 0 <= i < j < |xs| ==> xs[i].score <= xs[j].score
  }

  /** The entries scoring `s`, in order. */
  function WithScore(xs: seq<Scored>, s: nat): seq<Scored> {
    if |xs| == 0 then []
    else WithScore(xs[..|xs| - 1], s) + (if xs[|xs| - 1].score == s then [xs[|xs| - 1]] else [])
  }

  /** Insert `x` after every entry scoring at most `x.score`. */
  function Insert(x: Scored, sorted: seq<Scored>): (r: seq<Scored>)
    ensures |r| == |sorted| + 1
    ensures multiset(r) == multiset(sorted) + multiset{x}
  {
    if |sorted| == 0 then [x]
    else if x.score < sorted[0].score then [x] + sorted
    else
      assert sorted == [sorted[0]] + sorted[1..];
      [sorted[0]] + Insert(x, sorted[1..])
  }

  /** `list.sort(key=score)`: the stable sort by score, here as insertion sort. */
  function StableSort(xs: seq<Scored>): (r: seq<Scored>)
    ensures |r| == |xs|
    ensures multiset(r) == multiset(xs)
  {
    if |xs| == 0 then []
    else
      assert xs == xs[..|xs| - 1] + [xs[|xs| - 1]];
      Insert(xs[|xs| - 1], StableSort(xs[..|xs| - 1]))
  }

  lemma {:induction false} InsertSorted(x: Scored, sorted: seq<Scored>)
    requires SortedByScore(sorted)
    ensures SortedByScore(Insert(x, sorted))
  {
    if |sorted| > 0 && x.score >= sorted[0].score {
      InsertSorted(x, sorted[1..]);
      var rest := Insert(x, sorted[1..]);
      assert multiset(rest) == multiset(sorted[1..]) + multiset{x};
      forall k | 0 <= k < |rest|
        ensures sorted[0].score <= rest[k].score
      {
        assert rest[k] in multiset(rest);
        if rest[k] != x {
          assert rest[k] in multiset(sorted[1..]);
          var q :| 0 <= q < |sorted[1..]| && sorted[1..][q] == rest[k];
          assert sorted[q + 1] == rest[k];
        }
      }
    }
  }

  lemma {:induction false} WithScoreAppend(a: seq<Scored>, b: seq<Scored>, s: nat)
    ensures WithScore(a + b, s) == WithScore(a, s) + WithScore(b, s)
    decreases |b|
  {
    if |b| == 0 {
      assert a + b == a;
    } else {
      var b', last := b[..|b| - 1], b[|b| - 1];
      DropLastOfConcat(a, b);
      WithScoreAppend(a, b', s);
      var t := if last.score == s then [last] else [];
      ConcatAssoc(WithScore(a, s), WithScore(b', s), t);
    }
  }

  lemma WithScoreOne(x: Scored, s: nat)
    ensures WithScore([x], s) == if x.score == s then [x] else []
  {
    assert [x][..0] == [];
  }

  /** Inserting `x` into a sorted list keeps the order among entries of each score, with `x` last in its group. */
  lemma {:induction false} InsertWithScore(x: Scored, sorted: seq<Scored>, s: nat)
    requires SortedByScore(sorted)
    ensures WithScore(Insert(x, sorted), s) == WithScore(sorted, s) + (if x.score == s then [x] else [])
  {
    WithScoreOne(x, s);
    if |sorted| == 0 {
    } else if x.score < sorted[0].score {
      InsertFrontWithScore(x, sorted, s);
    } else {
      var head, tail := sorted[0], sorted[1..];
      assert sorted == [head] + tail;
      InsertWithScore(x, tail, s);
      InsertLaterWithScore(x, head, tail, s);
    }
  }

  lemma InsertFrontWithScore(x: Scored, sorted: seq<Scored>, s: nat)
    requires SortedByScore(sorted) && |sorted| > 0 && x.score < sorted[0].score
    ensures WithScore([x] + sorted, s) == WithScore(sorted, s) + (if x.score == s then [x] else [])
  {
    WithScoreOne(x, s);
    WithScoreAppend([x], sorted, s);
    if x.score == s {
      NoneWithScore(sorted, s);
    }
  }

  lemma InsertLaterWithScore(x: Scored, head: Scored, tail: seq<Scored>, s: nat)
    requires WithScore(Insert(x, tail), s) == WithScore(tail, s) + (if x.score == s then [x] else [])
    ensures WithScore([head] + Insert(x, tail), s) == WithScore([head] + tail, s) + (if x.score == s then [x] else [])
  {
    WithScoreAppend([head], Insert(x, tail), s);
    WithScoreAppend([head], tail, s);
    ConcatAssoc(WithScore([head], s), WithScore(tail, s), if x.score == s then [x] else []);
  }

  /** No entry of a sorted list starting above `s` scores `s`. */
  lemma {:induction false} NoneWithScore(sorted: seq<Scored>, s: nat)
    requires SortedByScore(sorted) && |sorted| > 0 && s < sorted[0].score
    ensures WithScore(sorted, s) == []
    decreases |sorted|
  {
    if |sorted| > 1 {
      var init := sorted[..|sorted| - 1];
      assert init[0] == sorted[0];
      NoneWithScore(init, s);
    } else {
      assert sorted[..0] == [];
    }
  }

  /**
   * The sort is stable: the entries of each score come out sorted in the
   * order they went in (and the whole is sorted and a permutation).
   */
  lemma {:induction false} StableSortCorrect(xs: seq<Scored>)
    ensures SortedByScore(StableSort(xs))
    ensures forall s :: WithScore(StableSort(xs), s) == WithScore(xs, s)
  {
    if |xs| > 0 {
      var init, last := xs[..|xs| - 1], xs[|xs| - 1];
      StableSortCorrect(init);
      InsertSorted(last, StableSort(init));
      forall s
        ensures WithScore(StableSort(xs), s) == WithScore(xs, s)
      {
        InsertWithScore(last, StableSort(init), s);
      }
    }
  }

  /** The descriptions of a scored list, in order. */
  function Descs(xs: seq<Scored>): seq<string> {
    seq(|xs|, i requires 0 <= i < |xs| => xs[i].desc)
  }

  /** The ranked list the suggestions are read from. */
  function Ranked(m: string, path: string, ops: seq<OperationSpec>): seq<Scored> {
    StableSort(ScoresOf(m, path, ops))
  }

  /** The descriptions of the first `n` ranked entries. */
  function SuggestionsOf(m: string, path: string, ops: seq<OperationSpec>, n: nat): (r: seq<string>)
    ensures |r| == if n < |ops| then n else |ops|
  {
    var ranked := Ranked(m, path, ops);
    Descs(ranked[..if n < |ranked| then n else |ranked|])
  }

  lemma ScoresOfSnoc(m: string, path: string, ops: seq<OperationSpec>, i: nat)
    requires i < |ops|
    ensures ScoresOf(m, path, ops[..i + 1]) == ScoresOf(m, path, ops[..i]) + [Scored(Score(m, path, ops[i]), Describe(ops[i]))]
  {
    PrefixOfPrefix(ops, i);
  }

  /** One iteration of `_closest_suggestions`: the score of `op`. */
  method ScoreOp(m: string, path: string, norm: string, op: OperationSpec) returns (dist: nat)
    requires norm == NormalizePath(path)
    ensures dist == Score(m, path, op)
  {
    var opNorm := NormalizePath(op.path);
    dist := Levenshtein(norm, opNorm);
    if op.httpMethod != m {
      dist := dist + 3;
    }
  }

  /** The scoring loop of `_closest_suggestions`. */
  method ScoreAll(m: string, path: string, ops: seq<OperationSpec>) returns (scored: seq<Scored>)
    ensures scored == ScoresOf(m, path, ops)
  {
    var norm := NormalizePath(path);
    scored := [];
    for i := 0 to |ops|
      invariant scored == ScoresOf(m, path, ops[..i])
    {
      var op := ops[i];
      var dist := ScoreOp(m, path, norm, op);
      ScoresOfSnoc(m, path, ops, i);
      scored := scored + [Scored(dist, Describe(op))];
    }
    assert ops[..|ops|] == ops;
  }

  /** `_closest_suggestions`: score, sort stably by score, keep the first `n` descriptions. */
  method ClosestSuggestions(m: string, path: string, ops: seq<OperationSpec>, n: nat) returns (r: seq<string>)
    ensures r == SuggestionsOf(m, path, ops, n)
  {
    var scored := ScoreAll(m, path, ops);
    scored := StableSort(scored);
    r := Descs(scored[..if n < |scored| then n else |scored|]);
  }

  /**
   * The suggestions are the descriptions of the operations ranked by score
   * (ties in list order), the first `min(n, |ops|)` of them.
   */
  lemma SuggestionsRanked(m: string, path: string, ops: seq<OperationSpec>, n: nat)
    ensures |SuggestionsOf(m, path, ops, n)| == if n < |ops| then n else |ops|
    ensures SortedByScore(Ranked(m, path, ops))
    ensures forall s :: WithScore(Ranked(m, path, ops), s) == WithScore(ScoresOf(m, path, ops), s)
    ensures forall i :: 0 <= i < |SuggestionsOf(m, path, ops, n)| ==>
              SuggestionsOf(m, path, ops, n)[i] == Ranked(m, path, ops)[i].desc
  {
    StableSortCorrect(ScoresOf(m, path, ops));
  }

  // ---------------------------------------------------------------------------
  // The cascade
  // ---------------------------------------------------------------------------

  /** What `match_route` returns. */
  function MatchSpec(httpMethod: string, path: string, ops: seq<OperationSpec>): MatchResult {
    var m := Upper(httpMethod);
    match FirstHit(Exact, m, path, ops)
    case Some(i) => MatchResult(Some(ops[i]), None, None)
    case None =>
      match FirstHit(Normalized, m, path, ops)
      case Some(i) => MatchResult(Some(ops[i]), None, None)
      case None =>
        match FirstHit(Positional, m, path, ops)
        case Some(i) => MatchResult(Some(ops[i]), Some(Capture(m, path, ops[i]).value), None)
        case None =>
          match FirstHit(Fuzzy, m, path, ops)
          case Some(i) => MatchResult(Some(ops[i]), None, None)
          case None => MatchResult(None, None, Some(SuggestionsOf(m, path, ops, 3)))
  }

  /** `match_route`. */
  method MatchRoute(httpMethod: string, path: string, spec: ApiSpec) returns (r: MatchResult)
    ensures r == MatchSpec(httpMethod, path, spec.operations)
  {
    var m := Upper(httpMethod);
    var ops := spec.operations;
    var op := ExactMatch(m, path, ops);
    if op.Some? {
      return MatchResult(op, None, None);
    }
    op := NormalizedMatch(m, path, ops);
    if op.Some? {
      return MatchResult(op, None, None);
    }
    var pos := PositionalMatch(m, path, ops);
    if pos.Some? {
      return MatchResult(Some(pos.value.0), Some(pos.value.1), None);
    }
    op := FuzzyMatch(m, path, ops);
    if op.Some? {
      return MatchResult(op, None, None);
    }
    var suggestions := ClosestSuggestions(m, path, ops, 3);
    return MatchResult(None, None, Some(suggestions));
  }

  /**
   * The result carries an operation or suggestions, never both; captured
   * parameters come only with a positional hit; a returned operation is
   * one of the spec's, with the upper-cased method.
   */
  lemma MatchShape(httpMethod: string, path: string, ops: seq<OperationSpec>)
    ensures MatchSpec(httpMethod, path, ops).operation.Some? <==> MatchSpec(httpMethod, path, ops).suggestions.None?
    ensures MatchSpec(httpMethod, path, ops).extractedPathParams.Some? ==>
              var i := FirstHit(Positional, Upper(httpMethod), path, ops);
              i.Some? && MatchSpec(httpMethod, path, ops).operation == Some(ops[i.value])
              && MatchSpec(httpMethod, path, ops).extractedPathParams == Capture(Upper(httpMethod), path, ops[i.value])
    ensures MatchSpec(httpMethod, path, ops).operation.Some? ==>
              MatchSpec(httpMethod, path, ops).operation.value in ops
              && MatchSpec(httpMethod, path, ops).operation.value.httpMethod == Upper(httpMethod)
    ensures MatchSpec(httpMethod, path, ops).suggestions.Some? ==>
              |MatchSpec(httpMethod, path, ops).suggestions.value| == if |ops| < 3 then |ops| else 3
  {
  }

  /** An operation with the same upper-cased method and the identical path wins: the first such one. */
  lemma ExactWins(httpMethod: string, path: string, ops: seq<OperationSpec>, i: nat)
    requires i < |ops| && ops[i].httpMethod == Upper(httpMethod) && ops[i].path == path
    requires forall j :: 0 <= j < i ==> !(ops[j].httpMethod == Upper(httpMethod) && ops[j].path == path)
    ensures MatchSpec(httpMethod, path, ops) == MatchResult(Some(ops[i]), None, None)
  {
  }

  /** Each stage runs only when every earlier stage found nothing; a positional hit carries what it captured. */
  lemma EarliestStageWins(httpMethod: string, path: string, ops: seq<OperationSpec>)
    ensures var m := Upper(httpMethod);
            var r := MatchSpec(httpMethod, path, ops);
            (FirstHit(Exact, m, path, ops).None? && FirstHit(Normalized, m, path, ops).Some? ==>
               r.operation == Some(ops[FirstHit(Normalized, m, path, ops).value]) && r.extractedPathParams.None?)
            && (FirstHit(Exact, m, path, ops).None? && FirstHit(Normalized, m, path, ops).None?
                && FirstHit(Positional, m, path, ops).Some? ==>
                  var i := FirstHit(Positional, m, path, ops).value;
                  r == MatchResult(Some(ops[i]), Capture(m, path, ops[i]), None))
            && (FirstHit(Exact, m, path, ops).None? && FirstHit(Normalized, m, path, ops).None?
                && FirstHit(Positional, m, path, ops).None? && FirstHit(Fuzzy, m, path, ops).Some? ==>
                  r.operation == Some(ops[FirstHit(Fuzzy, m, path, ops).value]) && r.extractedPathParams.None?)
            && (r.suggestions.Some? ==>
                  forall op :: op in ops ==> !Hits(Exact, m, path, op) && !Hits(Normalized, m, path, op)
                                             && !Hits(Positional, m, path, op) && !Hits(Fuzzy, m, path, op))
  {
  }
}
