/**
 * Edit distance and the rule-based singulariser used by fuzzy route
 * matching.
 *
 * `EditDistance` is the Levenshtein distance defined by its recurrence on
 * prefixes; `Levenshtein` is the two-row Wagner-Fischer program that
 * computes it, proved equal to the recurrence.
 */
module Distance {
  import opened Strings

  function Min3(x: nat, y: nat, z: nat): (m: nat)
    ensures m <= x && m <= y && m <= z
    ensures m == x || m == y || m == z
  {
    if x <= y && x <= z then x else if y <= z then y else z
  }

  /** The substitution cost of the last characters: 0 when they are equal, else 1. */
  function Cost(ca: char, cb: char): nat {
    if ca == cb then 0 else 1
  }

  /**
   * The Levenshtein distance: the fewest single-character insertions,
   * deletions and substitutions turning `a` into `b`.
   */
  function EditDistance(a: string, b: string): nat
    decreases |a| + |b|
  {
    if |a| == 0 then |b|
    else if |b| == 0 then |a|
    else
      Min3(EditDistance(a, b[..|b| - 1]) + 1,
           EditDistance(a[..|a| - 1], b) + 1,
           EditDistance(a[..|a| - 1], b[..|b| - 1]) + Cost(a[|a| - 1], b[|b| - 1]))
  }

  /** Distance is symmetric. */
  lemma {:induction false} EditDistanceSymmetric(a: string, b: string)
    ensures EditDistance(a, b) == EditDistance(b, a)
    decreases |a| + |b|
  {
    if |a| > 0 && |b| > 0 {
      var a', b' := a[..|a| - 1], b[..|b| - 1];
      EditDistanceSymmetric(a, b');
      EditDistanceSymmetric(a', b);
      EditDistanceSymmetric(a', b');
    }
  }

  /** A string is at distance 0 from itself. */
  lemma {:induction false} EditDistanceSelf(a: string)
    ensures EditDistance(a, a) == 0
    decreases |a|
  {
    if |a| > 0 {
      EditDistanceSelf(a[..|a| - 1]);
    }
  }

  /** Distance 0 only between equal strings. */
  lemma {:induction false} EditDistanceZero(a: string, b: string)
    requires EditDistance(a, b) == 0
    ensures a == b
    decreases |a| + |b|
  {
    if |a| > 0 && |b| > 0 {
      var a', b' := a[..|a| - 1], b[..|b| - 1];
      assert EditDistance(a', b') + Cost(a[|a| - 1], b[|b| - 1]) == 0;
      EditDistanceZero(a', b');
      assert a == a' + [a[|a| - 1]];
      assert b == b' + [b[|b| - 1]];
    }
  }

  /** Distance is 0 exactly when the strings are equal. */
  lemma EditDistanceZeroIff(a: string, b: string)
    ensures EditDistance(a, b) == 0 <==> a == b
  {
    if a == b {
      EditDistanceSelf(a);
    }
    if EditDistance(a, b) == 0 {
      EditDistanceZero(a, b);
    }
  }

  /** Distance never exceeds the longer length. */
  lemma {:induction false} EditDistanceBound(a: string, b: string)
    ensures EditDistance(a, b) <= if |a| >= |b| then |a| else |b|
    decreases |a| + |b|
  {
    if |a| > 0 && |b| > 0 {
      EditDistanceBound(a[..|a| - 1], b[..|b| - 1]);
    }
  }

  /** Distance is at least the difference of the lengths. */
  lemma {:induction false} EditDistanceLengthGap(a: string, b: string)
    ensures |a| <= |b| + EditDistance(a, b) && |b| <= |a| + EditDistance(a, b)
    decreases |a| + |b|
  {
    if |a| > 0 && |b| > 0 {
      EditDistanceLengthGap(a, b[..|b| - 1]);
      EditDistanceLengthGap(a[..|a| - 1], b);
      EditDistanceLengthGap(a[..|a| - 1], b[..|b| - 1]);
    }
  }

  /** The recurrence at cell (i + 1, j + 1) of the table for `a` and `b`. */
  lemma EditDistanceStep(a: string, b: string, i: nat, j: nat)
    requires i < |a| && j < |b|
    ensures EditDistance(a[..i + 1], b[..j + 1])
         == Min3(EditDistance(a[..i + 1], b[..j]) + 1,
                 EditDistance(a[..i], b[..j + 1]) + 1,
                 EditDistance(a[..i], b[..j]) + Cost(a[i], b[j]))
  {
    var x, y := a[..i + 1], b[..j + 1];
    assert x[..|x| - 1] == a[..i] && x[|x| - 1] == a[i];
    assert y[..|y| - 1] == b[..j] && y[|y| - 1] == b[j];
  }

  /** Row 0 and column 0 of the table. */
  lemma EditDistanceEdges(a: string, b: string, i: nat, j: nat)
    requires i <= |a| && j <= |b|
    ensures EditDistance(a[..0], b[..j]) == j
    ensures EditDistance(a[..i], b[..0]) == i
  {
  }

  /**
   * `_levenshtein`: keeps the previous row `prev` of the distance table
   * (prev[j] is the distance from the first i characters of `a` to the
   * first j of `b`) and builds each next row from it.
   */
  method Levenshtein(a: string, b: string) returns (d: nat)
    ensures d == EditDistance(a, b)
    ensures |b| == 0 ==> d == |a|
    decreases if |a| < |b| then 1 else 0
  {
    if |a| < |b| {
      d := Levenshtein(b, a);
      EditDistanceSymmetric(b, a);
      return;
    }
    if |b| == 0 {
      return |a|;
    }
    var prev := FirstRow(a, b);
    for i := 0 to |a|
      invariant IsRow(a, b, i, prev)
    {
      prev := NextRow(a, b, i, prev);
    }
    assert a[..|a|] == a && b[..|b|] == b;
    d := prev[|b|];
  }

  /** `row` is row `i` of the distance table for `a` and `b`. */
  ghost predicate IsRow(a: string, b: string, i: nat, row: seq<nat>)
    requires i <= |a|
  {
    |row| == |b| + 1 && forall j :: 0 <= j <= |b| ==> row[j] == EditDistance(a[..i], b[..j])
  }

  /** `list(range(len(b) + 1))`: row 0 of the table. */
  method FirstRow(a: string, b: string) returns (row: seq<nat>)
    ensures IsRow(a, b, 0, row)
  {
    row := seq(|b| + 1, j requires 0 <= j <= |b| => j);
    forall j | 0 <= j <= |b|
      ensures row[j] == EditDistance(a[..0], b[..j])
    {
      EditDistanceEdges(a, b, 0, j);
    }
  }

  /** The inner loop of `_levenshtein`: row `i + 1` from row `i`. */
  method NextRow(a: string, b: string, i: nat, prev: seq<nat>) returns (curr: seq<nat>)
    requires i < |a| && IsRow(a, b, i, prev)
    ensures IsRow(a, b, i + 1, curr)
  {
    curr := [i + 1];
    EditDistanceEdges(a, b, i + 1, 0);
    for j := 0 to |b|
      invariant |curr| == j + 1
      invariant forall k :: 0 <= k <= j ==> curr[k] == EditDistance(a[..i + 1], b[..k])
    {
      var cost := if a[i] == b[j] then 0 else 1;
      var v := Min3(curr[j] + 1, prev[j + 1] + 1, prev[j] + cost);
      assert v == EditDistance(a[..i + 1], b[..j + 1]) by {
        assert prev[j] == EditDistance(a[..i], b[..j]);
        assert prev[j + 1] == EditDistance(a[..i], b[..j + 1]);
        EditDistanceStep(a, b, i, j);
      }
      curr := curr + [v];
    }
  }

  // ---------------------------------------------------------------------------
  // Singularisation
  // ---------------------------------------------------------------------------

  /** The letter before a final `s` tells the plural endings apart. */
  lemma SuffixLetters(w: string)
    ensures EndsWith(w, "ss") ==> w[|w| - 2] == 's'
    ensures EndsWith(w, "ies") || EndsWith(w, "ses") || EndsWith(w, "xes") || EndsWith(w, "zes") ==> w[|w| - 2] == 'e'
  {
    if EndsWith(w, "ss") {
      assert w[|w| - 2..][0] == 's';
    }
    if EndsWith(w, "ies") || EndsWith(w, "ses") || EndsWith(w, "xes") || EndsWith(w, "zes") {
      assert w[|w| - 3..][1] == 'e';
    }
  }

  /** `_singularize`: undo the common English plural endings. */
  function Singularize(w: string): (r: string)
    ensures |r| <= |w|
    ensures !EndsWith(w, "s") || EndsWith(w, "ss") ==> r == w
  {
    SuffixLetters(w);
    if EndsWith(w, "ies") then w[..|w| - 3] + "y"
    else if EndsWith(w, "ses") || EndsWith(w, "xes") || EndsWith(w, "zes") then w[..|w| - 2]
    else if EndsWith(w, "s") && !EndsWith(w, "ss") then w[..|w| - 1]
    else w
  }

  /** Which suffixes `s + t` has, in terms of the suffixes of `s` and of `t`. */
  lemma EndsWithConcat(s: string, t: string, u: string)
    ensures |u| <= |t| ==> (EndsWith(s + t, u) <==> EndsWith(t, u))
    ensures |t| < |u| ==> (EndsWith(s + t, u) <==> t == u[|u| - |t|..] && EndsWith(s, u[..|u| - |t|]))
  {
    var w := s + t;
    if |u| <= |t| {
      assert w[|w| - |u|..] == t[|t| - |u|..];
    } else if |u| <= |w| {
      assert w[|w| - |u|..] == s[|s| - (|u| - |t|)..] + t;
      if EndsWith(w, u) {
        assert u[..|u| - |t|] == w[|w| - |u|..][..|u| - |t|];
        assert u[|u| - |t|..] == w[|w| - |u|..][|u| - |t|..];
      }
    }
  }

  /** `…ies` becomes `…y`. */
  lemma SingularOfIes(stem: string)
    ensures Singularize(stem + "ies") == stem + "y"
  {
    var w := stem + "ies";
    EndsWithConcat(stem, "ies", "ies");
    assert w[..|w| - 3] == stem;
  }

  /** A stem ending in `s`, `x` or `z` takes `es` in the plural, which is dropped again. */
  lemma SingularOfEs(stem: string)
    requires EndsWith(stem, "s") || EndsWith(stem, "x") || EndsWith(stem, "z")
    ensures Singularize(stem + "es") == stem
  {
    var w := stem + "es";
    EndsWithConcat(stem, "es", "ies");
    EndsWithConcat(stem, "es", "ses");
    EndsWithConcat(stem, "es", "xes");
    EndsWithConcat(stem, "es", "zes");
    assert "ies"[1..] == "es" && "ies"[..1] == "i";
    assert "ses"[1..] == "es" && "ses"[..1] == "s";
    assert "xes"[1..] == "es" && "xes"[..1] == "x";
    assert "zes"[1..] == "es" && "zes"[..1] == "z";
    assert !EndsWith(stem, "i");
    assert w[..|w| - 2] == stem;
  }

  /**
   * A plain `s` is dropped again, unless the stem's own ending turns the
   * word into one of the longer patterns (`…ies`, `…ses`, `…xes`, `…zes`)
   * or into `…ss`.
   */
  lemma SingularOfS(stem: string)
    requires !EndsWith(stem, "s") && !EndsWith(stem, "ie") && !EndsWith(stem, "se")
    requires !EndsWith(stem, "xe") && !EndsWith(stem, "ze")
    ensures Singularize(stem + "s") == stem
  {
    var w := stem + "s";
    EndsWithConcat(stem, "s", "ies");
    EndsWithConcat(stem, "s", "ses");
    EndsWithConcat(stem, "s", "xes");
    EndsWithConcat(stem, "s", "zes");
    EndsWithConcat(stem, "s", "ss");
    EndsWithConcat(stem, "s", "s");
    assert "ies"[2..] == "s" && "ies"[..2] == "ie";
    assert "ses"[2..] == "s" && "ses"[..2] == "se";
    assert "xes"[2..] == "s" && "xes"[..2] == "xe";
    assert "zes"[2..] == "s" && "zes"[..2] == "ze";
    assert "ss"[1..] == "s" && "ss"[..1] == "s";
    assert w[..|w| - 1] == stem;
  }
}
