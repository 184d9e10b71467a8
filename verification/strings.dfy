/** Substrings and concatenation of strings, used to state what the rendered
    messages and helper markup contain. */
module Strings {

  /** `p` occurs in `s` starting at index `k`. */
  predicate OccursAt(s: string, p: string, k: int)
  {
    0 <= k && k + |p| <= |s| && s[k..k + |p|] == p
  }

  predicate Contains(s: string, p: string)
  {
    exists k :: 0 <= k <= |s| && OccursAt(s, p, k)
  }

  lemma ContainsAtEnd(s: string, p: string)
    ensures Contains(s + p, p)
  {
    assert OccursAt(s + p, p, |s|);
  }

  lemma ContainsAtStart(p: string, t: string)
    ensures Contains(p + t, p)
  {
    assert OccursAt(p + t, p, 0);
  }

  /** The pieces written one after the other. */
  function Concat(pieces: seq<string>): string
  {
    if pieces == [] then "" else pieces[0] + Concat(pieces[1..])
  }

  /** Each piece occurs in the concatenation. */
  lemma {:induction false} ConcatContainsPiece(pieces: seq<string>, i: nat)
    requires i < |pieces|
    ensures Contains(Concat(pieces), pieces[i])
    decreases |pieces|
  {
    if i == 0 {
      ContainsAtStart(pieces[0], Concat(pieces[1..]));
    } else {
      ConcatContainsPiece(pieces[1..], i - 1);
      ContainsInRight(pieces[0], Concat(pieces[1..]), pieces[i]);
    }
  }

  lemma StartsWith(p: string, t: string)
    ensures OccursAt(p + t, p, 0)
  {
    assert (p + t)[..|p|] == p;
  }

  /** `x` between two quotes `q`, after a prefix `p` and before an ending `e`: the
      text starts with `p` and contains both `x` and `x` quoted. */
  lemma QuotedBetween(p: string, q: string, x: string, e: string)
    ensures OccursAt(p + q + x + q + e, p, 0)
    ensures Contains(p + q + x + q + e, x)
    ensures Contains(p + q + x + q + e, q + x + q)
  {
    var m := p + q + x + q + e;
    assert m == p + (q + x + q + e);
    StartsWith(p, q + x + q + e);
    assert m == (p + q) + x + (q + e);
    ContainsMiddle(p + q, x, q + e);
    assert m == p + (q + x + q) + e;
    ContainsMiddle(p, q + x + q, e);
  }

  /** Text after a common prefix determines the whole. */
  lemma PrefixCancels(p: string, x: string, y: string)
    requires p + x == p + y
    ensures x == y
  {
    assert x == (p + x)[|p|..];
    assert y == (p + y)[|p|..];
  }

  /** Text between a common prefix `p + q` and a common ending `q + e` determines the
      whole. */
  lemma QuotedCancels(p: string, q: string, x: string, y: string, e: string)
    requires p + q + x + q + e == p + q + y + q + e
    ensures x == y
  {
    var m := p + q + x + q + e;
    assert |x| == |y|;
    assert x == m[|p| + |q| .. |p| + |q| + |x|];
    assert y == (p + q + y + q + e)[|p| + |q| .. |p| + |q| + |y|];
  }

  lemma ContainsMiddle(s: string, p: string, t: string)
    ensures Contains(s + p + t, p)
  {
    assert (s + p + t)[|s|..|s| + |p|] == p;
    assert OccursAt(s + p + t, p, |s|);
  }

  lemma ContainsInLeft(s: string, t: string, p: string)
    requires Contains(s, p)
    ensures Contains(s + t, p)
  {
    var k :| 0 <= k <= |s| && OccursAt(s, p, k);
    assert k + |p| <= |s|;
    assert (s + t)[k..k + |p|] == s[k..k + |p|];
    assert OccursAt(s + t, p, k);
  }

  lemma ContainsInRight(s: string, t: string, p: string)
    requires Contains(t, p)
    ensures Contains(s + t, p)
  {
    var k :| 0 <= k <= |t| && OccursAt(t, p, k);
    assert k + |p| <= |t|;
    assert (s + t)[|s| + k..|s| + k + |p|] == t[k..k + |p|];
    assert OccursAt(s + t, p, |s| + k);
  }
}
