/** Reading text back out of rendered XML: literal prefixes and suffixes, and
    runs of characters up to a delimiter. These are the tools of the parsers
    that show what the renderers put where. */
module Scan {
  import opened Values

  predicate StartsWith(s: string, lit: string) {
    |lit| <= |s| && s[..|lit|] == lit
  }

  predicate EndsWith(s: string, lit: string) {
    |lit| <= |s| && s[|s| - |lit|..] == lit
  }

  /** What follows the literal `lit` at the start of `s`, if `s` starts with it. */
  function Skip(s: string, lit: string): (r: Option<string>)
    ensures r.Some? <==> StartsWith(s, lit)
    ensures r.Some? ==> s == lit + r.value
  {
    if StartsWith(s, lit) then
      var rest := s[|lit|..];
      assert s == s[..|lit|] + rest;
      Some(rest)
    else None
  }

  lemma SkipLiteral(lit: string, rest: string)
    ensures Skip(lit + rest, lit) == Some(rest)
  {
    assert (lit + rest)[..|lit|] == lit;
  }

  /** The length of the longest prefix of `s` without `c`. */
  function Until(s: string, c: char): (n: nat)
    ensures n <= |s|
    ensures c !in s[..n]
    ensures n < |s| ==> s[n] == c
  {
    if s == [] || s[0] == c then 0
    else
      var n := 1 + Until(s[1..], c);
      assert s[..n] == [s[0]] + s[1..][..n - 1];
      n
  }

  /** The length of the longest suffix of `s` without `c`. */
  function Trailing(s: string, c: char): (n: nat)
    ensures n <= |s|
    ensures c !in s[|s| - n..]
    ensures n < |s| ==> s[|s| - n - 1] == c
  {
    if s == [] || s[|s| - 1] == c then 0
    else
      var init := s[..|s| - 1];
      var n := 1 + Trailing(init, c);
      assert s[|s| - n..] == init[|init| - (n - 1)..] + [s[|s| - 1]];
      n
  }

  /** Concatenation regrouped to the right. */
  lemma Regroup(a: string, b: string, c: string, d: string)
    ensures a + b + c + d == a + (b + (c + d))
  {
  }

  /** `"".join(parts)` */
  function Concat(parts: seq<string>): string {
    if parts == [] then "" else parts[0] + Concat(parts[1..])
  }

  lemma {:induction false} ConcatSnoc(parts: seq<string>, x: string)
    ensures Concat(parts + [x]) == Concat(parts) + x
  {
    if parts != [] {
      assert (parts + [x])[1..] == parts[1..] + [x];
      ConcatSnoc(parts[1..], x);
    }
  }

  /** Reading up to `c` stops exactly where a `c`-free text ends and a text
      that starts with `c` begins. */
  lemma {:induction false} UntilAt(x: string, y: string, c: char)
    requires c !in x && |y| > 0 && y[0] == c
    ensures Until(x + y, c) == |x|
  {
    if x == [] {
      assert x + y == y;
    } else {
      assert (x + y)[0] == x[0];
      assert (x + y)[1..] == x[1..] + y;
      UntilAt(x[1..], y, c);
    }
  }

  /** Reading backwards up to `c` stops exactly where a `c`-free text starts
      and a text that ends with `c` ends. */
  lemma {:induction false} TrailingAt(y: string, x: string, c: char)
    requires c !in x && |y| > 0 && y[|y| - 1] == c
    ensures Trailing(y + x, c) == |x|
  {
    if x == [] {
      assert y + x == y;
    } else {
      var s := y + x;
      assert s[|s| - 1] == x[|x| - 1];
      assert s[..|s| - 1] == y + x[..|x| - 1];
      TrailingAt(y, x[..|x| - 1], c);
    }
  }
}
