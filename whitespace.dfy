/** Tokenising a command line the way Rust's `str::split_whitespace`
    does: maximal runs of non-whitespace characters, in order, with every
    whitespace character (Unicode White_Space) acting as a separator and
    no empty tokens produced. */
module Whitespace {

  /** Rust's `char::is_whitespace`: the characters with the Unicode
      White_Space property. */
  predicate IsWhitespace(c: char) {
    || ('\t' <= c <= '\r')
    || c == ' '
    || c == '\U{85}'
    || c == '\U{A0}'
    || c == '\U{1680}'
    || ('\U{2000}' <= c <= '\U{200A}')
    || c == '\U{2028}'
    || c == '\U{2029}'
    || c == '\U{202F}'
    || c == '\U{205F}'
    || c == '\U{3000}'
  }

  predicate AllWhitespace(s: string) {
    forall i :: 0 <= i < |s| ==> IsWhitespace(s[i])
  }

  /** A token is a non-empty string with no whitespace in it. */
  predicate IsToken(t: string) {
    t != [] && forall i :: 0 <= i < |t| ==> !IsWhitespace(t[i])
  }

  predicate AllTokens(ts: seq<string>) {
    forall i :: 0 <= i < |ts| ==> IsToken(ts[i])
  }

  /** Length of the longest all-whitespace prefix of `s`. */
  function LeadingWhitespace(s: string): (n: nat)
    ensures n <= |s|
    ensures AllWhitespace(s[..n])
    ensures n < |s| ==> !IsWhitespace(s[n])
  {
    if s == [] || !IsWhitespace(s[0]) then 0
    else
      var k := LeadingWhitespace(s[1..]);
      assert s[..1 + k] == [s[0]] + s[1..][..k];
      1 + k
  }

  /** Length of the longest whitespace-free prefix of `s`. */
  function TokenEnd(s: string): (n: nat)
    ensures n <= |s|
    ensures forall i :: 0 <= i < n ==> !IsWhitespace(s[i])
    ensures n < |s| ==> IsWhitespace(s[n])
  {
    if s == [] || IsWhitespace(s[0]) then 0 else 1 + TokenEnd(s[1..])
  }

  /** `s.split_whitespace().collect()`: skip leading whitespace, take the
      next maximal run of non-whitespace characters, repeat. */
  function Split(s: string): (tokens: seq<string>)
    ensures AllTokens(tokens)
    decreases |s|
  {
    var rest := s[LeadingWhitespace(s)..];
    if rest == [] then []
    else
      var n := TokenEnd(rest);
      assert n > 0;
      [rest[..n]] + Split(rest[n..])
  }

  /** The tokens written back out, separated by single spaces. */
  function Join(tokens: seq<string>): string {
    if tokens == [] then ""
    else if |tokens| == 1 then tokens[0]
    else tokens[0] + " " + Join(tokens[1..])
  }

  /** The non-whitespace characters of `s`, in order. */
  function Strip(s: string): string {
    if s == [] then ""
    else (if IsWhitespace(s[0]) then "" else [s[0]]) + Strip(s[1..])
  }

  function Concat(tokens: seq<string>): string {
    if tokens == [] then "" else tokens[0] + Concat(tokens[1..])
  }

  /** A blank (empty or all-whitespace) string has no tokens, and only a
      blank string has none. */
  lemma SplitEmptyIffBlank(s: string)
    ensures Split(s) == [] <==> AllWhitespace(s)
  {
    var k := LeadingWhitespace(s);
    if k == |s| {
      assert s[..k] == s;
    }
  }

  /** Whitespace in front of a string never changes its tokens. */
  lemma SplitSkipsLeadingWhitespace(c: char, s: string)
    requires IsWhitespace(c)
    ensures Split([c] + s) == Split(s)
  {
  }

  lemma {:induction false} TokenEndOfToken(t: string, tail: string)
    requires IsToken(t)
    requires tail == [] || IsWhitespace(tail[0])
    ensures TokenEnd(t + tail) == |t|
    decreases |t|
  {
    var s := t + tail;
    assert s[1..] == t[1..] + tail;
    if |t| > 1 {
      TokenEndOfToken(t[1..], tail);
    } else {
      assert t[1..] == [];
    }
  }

  /** A token followed by a separator (or nothing) is split off first,
      whole: tokens are maximal runs of non-whitespace characters. */
  lemma SplitFirstToken(t: string, tail: string)
    requires IsToken(t)
    requires tail == [] || IsWhitespace(tail[0])
    ensures Split(t + tail) == [t] + Split(tail)
  {
    var s := t + tail;
    assert LeadingWhitespace(s) == 0;
    assert s[0..] == s;
    TokenEndOfToken(t, tail);
    assert s[..|t|] == t;
    assert s[|t|..] == tail;
  }

  /** The inductive step of `SplitJoin`: a token in front of a
      space-joined tail whose round trip holds. */
  lemma SplitJoinStep(tokens: seq<string>)
    requires |tokens| > 1 && IsToken(tokens[0])
    requires Split(Join(tokens[1..])) == tokens[1..]
    ensures Split(Join(tokens)) == tokens
  {
    var rest := Join(tokens[1..]);
    assert Join(tokens) == tokens[0] + ([' '] + rest);
    SplitFirstToken(tokens[0], [' '] + rest);
    SplitSkipsLeadingWhitespace(' ', rest);
    assert tokens == [tokens[0]] + tokens[1..];
  }

  /** Round trip: joining well-formed tokens with spaces and splitting the
      result gives back exactly those tokens, in order. */
  lemma {:induction false} SplitJoin(tokens: seq<string>)
    requires AllTokens(tokens)
    ensures Split(Join(tokens)) == tokens
    decreases |tokens|
  {
    if |tokens| == 1 {
      SplitFirstToken(tokens[0], "");
      assert tokens[0] + "" == tokens[0];
    } else if |tokens| > 1 {
      SplitJoin(tokens[1..]);
      SplitJoinStep(tokens);
    }
  }

  /** Re-spacing a command line with single spaces keeps its tokens. */
  lemma SplitNormalizes(s: string)
    ensures Split(Join(Split(s))) == Split(s)
  {
    SplitJoin(Split(s));
  }

  lemma {:induction false} StripAppend(a: string, b: string)
    ensures Strip(a + b) == Strip(a) + Strip(b)
    decreases |a|
  {
    if a != [] {
      var head := if IsWhitespace(a[0]) then "" else [a[0]];
      assert (a + b)[0] == a[0];
      assert (a + b)[1..] == a[1..] + b;
      StripAppend(a[1..], b);
      assert Strip(a + b) == head + (Strip(a[1..]) + Strip(b));
      assert Strip(a) == head + Strip(a[1..]);
    } else {
      assert a + b == b;
    }
  }

  lemma {:induction false} StripBlank(s: string)
    requires AllWhitespace(s)
    ensures Strip(s) == ""
    decreases |s|
  {
    if s != [] {
      StripBlank(s[1..]);
    }
  }

  lemma {:induction false} StripToken(t: string)
    requires forall i :: 0 <= i < |t| ==> !IsWhitespace(t[i])
    ensures Strip(t) == t
    decreases |t|
  {
    if t != [] {
      StripToken(t[1..]);
      assert t == [t[0]] + t[1..];
    }
  }

  /** The step of `SplitKeepsText` for a string that starts with a token. */
  lemma SplitKeepsTextStep(s: string, n: nat)
    requires s != [] && !IsWhitespace(s[0]) && n == TokenEnd(s)
    requires Concat(Split(s[n..])) == Strip(s[n..])
    ensures Concat(Split(s)) == Strip(s)
  {
    assert s == s[..n] + s[n..];
    SplitFirstToken(s[..n], s[n..]);
    StripAppend(s[..n], s[n..]);
    StripToken(s[..n]);
  }

  /** Tokenising loses no non-whitespace character and reorders none:
      the tokens, concatenated, are the input with its whitespace removed. */
  lemma {:induction false} SplitKeepsText(s: string)
    ensures Concat(Split(s)) == Strip(s)
    decreases |s|
  {
    if s == [] {
    } else if IsWhitespace(s[0]) {
      SplitKeepsText(s[1..]);
      SplitSkipsLeadingWhitespace(s[0], s[1..]);
      assert s == [s[0]] + s[1..];
      assert Strip(s) == "" + Strip(s[1..]);
    } else {
      var n := TokenEnd(s);
      SplitKeepsText(s[n..]);
      SplitKeepsTextStep(s, n);
    }
  }
}
