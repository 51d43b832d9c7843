/**
 * The parser for the `--key value` options that follow the method and the
 * path on the command line (`_parse_extra_params`).
 *
 * `Bindings` reads the tokens into the (key, value) pairs the loop meets,
 * in order; `ParamsOf` and `BodyIn` are what the loop builds from them.
 * `ParseExtraParams` is the loop itself, proved to build exactly that.
 */
module CliArgs {
  import opened Wrappers
  import opened Strings
  import opened OrderedDict

  /** The (key, value) pairs the tokens spell, left to right. */
  function Bindings(args: seq<string>): seq<(string, string)>
    decreases |args|
  {
    if |args| == 0 then []
    else if StartsWith(args[0], "--") then
      var key := TrimLeft(args[0], '-');
      if 1 < |args| && !StartsWith(args[1], "--") then [(key, args[1])] + Bindings(args[2..])
      else [(key, "true")] + Bindings(args[1..])
    else Bindings(args[1..])
  }

  /** The `params` dict after the pairs `bs`: every key but `body`, a later value overwriting an earlier one. */
  function ParamsOf(bs: seq<(string, string)>): (r: Dict<string>)
    ensures "body" !in Keys(r)
    ensures NoDupKeys(r)
  {
    if |bs| == 0 then []
    else
      var p := ParamsOf(bs[..|bs| - 1]);
      var (k, v) := bs[|bs| - 1];
      if k == "body" then p
      else
        PutKeys(p, k, v);
        PutNoDupKeys(p, k, v);
        Put(p, k, v)
  }

  /** The `body` variable after the pairs `bs`: the last value given for `body`. */
  function BodyIn(bs: seq<(string, string)>): (r: Option<string>)
    ensures r.None? <==> forall i :: 0 <= i < |bs| ==> bs[i].0 != "body"
  {
    if |bs| == 0 then None
    else if bs[|bs| - 1].0 == "body" then Some(bs[|bs| - 1].1)
    else
      assert forall i :: 0 <= i < |bs| - 1 ==> bs[..|bs| - 1][i] == bs[i];
      BodyIn(bs[..|bs| - 1])
  }

  /** The value of the last pair with key `k`. */
  function LastValue(bs: seq<(string, string)>, k: string): Option<string> {
    if |bs| == 0 then None
    else if bs[|bs| - 1].0 == k then Some(bs[|bs| - 1].1)
    else LastValue(bs[..|bs| - 1], k)
  }

  /** Every key but `body` maps to the value it was last given; `body` never appears. */
  lemma {:induction false} ParamsLastWins(bs: seq<(string, string)>, k: string)
    ensures Get(ParamsOf(bs), k) == if k == "body" then None else LastValue(bs, k)
  {
    if |bs| > 0 {
      ParamsLastWins(bs[..|bs| - 1], k);
    }
  }

  lemma ParamsBodySnoc(done: seq<(string, string)>, b: (string, string))
    ensures ParamsOf(done + [b]) == if b.0 == "body" then ParamsOf(done) else Put(ParamsOf(done), b.0, b.1)
    ensures BodyIn(done + [b]) == if b.0 == "body" then Some(b.1) else BodyIn(done)
  {
    assert (done + [b])[..|done|] == done;
  }

  /** `_parse_extra_params`. */
  method ParseExtraParams(args: seq<string>) returns (params: Dict<string>, body: Option<string>)
    ensures params == ParamsOf(Bindings(args))
    ensures body == BodyIn(Bindings(args))
  {
    params := [];
    body := None;
    ghost var done: seq<(string, string)> := [];
    var i := 0;
    while i < |args|
      invariant i <= |args|
      invariant Bindings(args) == done + Bindings(args[i..])
      invariant params == ParamsOf(done) && body == BodyIn(done)
      decreases |args| - i
    {
      var arg := args[i];
      if StartsWith(arg, "--") {
        var key := TrimLeft(arg, '-');
        var value;
        if i + 1 < |args| && !StartsWith(args[i + 1], "--") {
          value := args[i + 1];
          assert args[i..][2..] == args[i + 2..];
          i := i + 2;
        } else {
          value := "true";
          assert args[i..][1..] == args[i + 1..];
          i := i + 1;
        }
        ParamsBodySnoc(done, (key, value));
        ConcatAssoc(done, [(key, value)], Bindings(args[i..]));
        done := done + [(key, value)];
        if key == "body" {
          body := Some(value);
        } else {
          params := Put(params, key, value);
        }
      } else {
        assert args[i..][1..] == args[i + 1..];
        i := i + 1;
      }
    }
    assert done + [] == done;
  }

  /** The command line a list of options is written as: `--key value` per pair. */
  function Encode(pairs: seq<(string, string)>): seq<string> {
    if |pairs| == 0 then [] else ["--" + pairs[0].0, pairs[0].1] + Encode(pairs[1..])
  }

  /** A key written behind `--` reads back unchanged when it does not itself start with `-`. */
  lemma TrimDashes(k: string)
    requires k == [] || k[0] != '-'
    ensures TrimLeft("--" + k, '-') == k
  {
    var s := "--" + k;
    assert s[1..] == "-" + k;
    assert ("-" + k)[1..] == k;
  }

  /**
   * Encoding options and parsing them back gives the same pairs, when no
   * key starts with `-` and no value starts with `--`.
   */
  lemma {:induction false} ParseEncodeRoundTrip(pairs: seq<(string, string)>)
    requires forall i :: 0 <= i < |pairs| ==> (pairs[i].0 == [] || pairs[i].0[0] != '-') && !StartsWith(pairs[i].1, "--")
    ensures Bindings(Encode(pairs)) == pairs
  {
    if |pairs| > 0 {
      var (k, v) := pairs[0];
      var rest := Encode(pairs[1..]);
      var args := ["--" + k, v] + rest;
      assert args[0] == "--" + k && args[1] == v && args[2..] == rest;
      assert StartsWith(args[0], "--") by {
        assert args[0][..2] == "--";
      }
      TrimDashes(k);
      ParseEncodeRoundTrip(pairs[1..]);
      assert pairs == [pairs[0]] + pairs[1..];
    }
  }

  /** A final `--flag`, or one followed by another option, is given the value `"true"`. */
  lemma FlagIsTrue(flag: string, rest: seq<string>)
    requires StartsWith(flag, "--")
    requires |rest| == 0 || StartsWith(rest[0], "--")
    ensures Bindings([flag] + rest) == [(TrimLeft(flag, '-'), "true")] + Bindings(rest)
  {
    assert ([flag] + rest)[1..] == rest;
  }

  /** A token that is neither an option nor an option's value is skipped. */
  lemma StrayTokenSkipped(token: string, rest: seq<string>)
    requires !StartsWith(token, "--")
    ensures Bindings([token] + rest) == Bindings(rest)
  {
    assert ([token] + rest)[1..] == rest;
  }
}
