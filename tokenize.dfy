/** `str::split(" ")` as the line parser uses it: the text is cut at every
    single space, so two adjacent spaces give an empty token between them and
    there is always at least one token. */
module Tokenize {

  /** The position of the first space, or the length when there is none. */
  function FirstSpace(s: string): (i: nat)
    ensures i <= |s|
    ensures i < |s| ==> s[i] == ' '
    ensures ' ' !in s[..i]
  {
    if s == [] then 0
    else if s[0] == ' ' then 0
    else
      var j := FirstSpace(s[1..]);
      assert s[..j + 1] == [s[0]] + s[1..][..j];
      j + 1
  }

  /** Puts tokens back together with a single space between neighbours. */
  function Join(tokens: seq<string>): string
    requires |tokens| >= 1
  {
    if |tokens| == 1 then tokens[0] else tokens[0] + " " + Join(tokens[1..])
  }

  /** True when no token holds a space. */
  predicate Spaceless(tokens: seq<string>)
  {
    forall k :: 0 <= k < |tokens| ==> ' ' !in tokens[k]
  }

  /** The tokens of `s`, in order. Joining them gives `s` back and none
      holds a space, which fixes the result (see SplitJoin). */
  function Split(s: string): (tokens: seq<string>)
    ensures |tokens| >= 1
    ensures Spaceless(tokens)
    ensures Join(tokens) == s
    decreases |s|
  {
    var i := FirstSpace(s);
    if i == |s| then
      assert s[..i] == s;
      [s]
    else
      var rest := Split(s[i + 1..]);
      assert s == s[..i] + " " + s[i + 1..];
      [s[..i]] + rest
  }

  /** Splitting text that starts with a spaceless token and a space gives
      that token followed by the tokens of the rest. */
  lemma SplitCons(t: string, rest: string)
    requires ' ' !in t
    ensures Split(t + " " + rest) == [t] + Split(rest)
  {
    var s := t + " " + rest;
    FirstSpaceOf(t, rest);
    assert s[..|t|] == t;
    assert s[|t| + 1..] == rest;
  }

  /** Text without a space is one token. */
  lemma SplitSpaceless(s: string)
    requires ' ' !in s
    ensures Split(s) == [s]
  {
  }

  /** The first space after a spaceless token is the one that ends it. */
  lemma FirstSpaceOf(t: string, rest: string)
    requires ' ' !in t
    ensures FirstSpace(t + " " + rest) == |t|
  {
    var s := t + " " + rest;
    var i := FirstSpace(s);
    assert s[|t|] == ' ';
    assert s[..|t|] == t;
  }

  /** Split undoes Join on spaceless tokens: the tokens of a line are
      exactly the spaceless pieces that join to it. */
  lemma {:induction false} SplitJoin(tokens: seq<string>)
    requires |tokens| >= 1 && Spaceless(tokens)
    ensures Split(Join(tokens)) == tokens
    decreases |tokens|
  {
    if |tokens| == 1 {
      assert ' ' !in tokens[0];
      SplitSpaceless(tokens[0]);
    } else {
      assert ' ' !in tokens[0];
      SplitJoin(tokens[1..]);
      SplitCons(tokens[0], Join(tokens[1..]));
    }
  }
}
