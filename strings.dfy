/**
 * The few .NET string operations the bot's dispatcher relies on, stated over
 * `seq<char>`: `Char.IsWhiteSpace`, `String.IsNullOrWhiteSpace`, `String.Trim`,
 * `String.StartsWith` and `String.Contains` (ordinal, case-sensitive).
 */
module Strings {

  /** The characters `Char.IsWhiteSpace` accepts (Unicode separators and the
      control characters U+0009..U+000D, U+0085). */
  predicate IsWhiteSpace(c: char)
    ensures IsWhiteSpace(c) ==> c <= '\U{3000}'
  {
    ('\t' <= c <= '\r') || c == ' ' || c == '\U{0085}' || c == '\U{00A0}' || c == '\U{1680}'
    || ('\U{2000}' <= c <= '\U{200A}') || c == '\U{2028}' || c == '\U{2029}'
    || c == '\U{202F}' || c == '\U{205F}' || c == '\U{3000}'
  }

  /** `String.IsNullOrWhiteSpace` for a non-null string: every character is white space. */
  predicate IsNullOrWhiteSpace(s: string)
    ensures s == [] ==> IsNullOrWhiteSpace(s)
  {
    forall i :: 0 <= i < |s| ==> IsWhiteSpace(s[i])
  }

  /** `String.StartsWith(prefix)`, taken as an ordinal prefix test. */
  predicate StartsWith(s: string, prefix: string)
    ensures StartsWith(s, prefix) ==> |prefix| <= |s| && s[..|prefix|] == prefix
  {
    prefix <= s
  }

  /** Length of the longest all-white-space prefix of `s`. */
  function LeadingWhiteSpace(s: string): (n: nat)
    ensures n <= |s|
    ensures IsNullOrWhiteSpace(s[..n])
    ensures n == |s| || !IsWhiteSpace(s[n])
  {
    if |s| > 0 && IsWhiteSpace(s[0]) then
      var n' := LeadingWhiteSpace(s[1..]);
      assert s[..1 + n'] == [s[0]] + s[1..][..n'];
      1 + n'
    else 0
  }

  /** Length of the longest all-white-space suffix of `s`. */
  function TrailingWhiteSpace(s: string): (n: nat)
    ensures n <= |s|
    ensures IsNullOrWhiteSpace(s[|s| - n..])
    ensures n == |s| || !IsWhiteSpace(s[|s| - n - 1])
  {
    if |s| > 0 && IsWhiteSpace(s[|s| - 1]) then
      var init := s[..|s| - 1];
      var n' := TrailingWhiteSpace(init);
      assert s[|s| - (1 + n')..] == init[|init| - n'..] + [s[|s| - 1]];
      1 + n'
    else 0
  }

  /** `String.Trim()`: drop the white space at both ends. */
  function Trim(s: string): (r: string)
    ensures |r| <= |s|
  {
    var rest := s[LeadingWhiteSpace(s)..];
    rest[..|rest| - TrailingWhiteSpace(rest)]
  }

  /** Trim keeps the middle of `s` and removes only white space. */
  lemma TrimKeepsMiddle(s: string)
    ensures var k, r := LeadingWhiteSpace(s), Trim(s);
      k + |r| <= |s| && s == s[..k] + r + s[k + |r|..]
      && IsNullOrWhiteSpace(s[..k]) && IsNullOrWhiteSpace(s[k + |r|..])
  {
    var k := LeadingWhiteSpace(s);
    var rest := s[k..];
    var m := |rest| - TrailingWhiteSpace(rest);
    var t := TrailingWhiteSpace(rest);
    assert m == |rest| - t;
    assert Trim(s) == s[k..k + m];
    assert s[k + m..] == rest[|rest| - t..];
    SplitInThree(s, k, k + m);
  }

  lemma SplitInThree(s: string, i: nat, j: nat)
    requires i <= j <= |s|
    ensures s == s[..i] + s[i..j] + s[j..]
  {
    assert s[..j] == s[..i] + s[i..j];
  }

  /** Trim leaves no white space at either end. */
  lemma TrimEnds(s: string)
    ensures Trim(s) != [] ==> !IsWhiteSpace(Trim(s)[0]) && !IsWhiteSpace(Trim(s)[|Trim(s)| - 1])
  {
    var k := LeadingWhiteSpace(s);
    var rest := s[k..];
    var t := TrailingWhiteSpace(rest);
    var r := Trim(s);
    if r != [] {
      assert r[0] == s[k];
      assert r[|r| - 1] == rest[|rest| - t - 1];
    }
  }

  /** Trim gives the empty string exactly for the blank strings. */
  lemma TrimEmptyIffBlank(s: string)
    ensures Trim(s) == [] <==> IsNullOrWhiteSpace(s)
  {
    var k := LeadingWhiteSpace(s);
    var rest := s[k..];
    var t := TrailingWhiteSpace(rest);
    if Trim(s) == [] {
      assert t == |rest| && rest[|rest| - t..] == rest;
      assert s[..k] == s;
    }
    if IsNullOrWhiteSpace(s) {
      assert k == |s|;
    }
  }

  lemma TrimSpec(s: string)
    ensures var k, r := LeadingWhiteSpace(s), Trim(s);
      k + |r| <= |s| && s == s[..k] + r + s[k + |r|..]
      && IsNullOrWhiteSpace(s[..k]) && IsNullOrWhiteSpace(s[k + |r|..])
    ensures Trim(s) != [] ==> !IsWhiteSpace(Trim(s)[0]) && !IsWhiteSpace(Trim(s)[|Trim(s)| - 1])
    ensures Trim(s) == [] <==> IsNullOrWhiteSpace(s)
  {
    TrimKeepsMiddle(s);
    TrimEnds(s);
    TrimEmptyIffBlank(s);
  }

  /** Trimming twice is trimming once, so a stored trimmed name is a fixed point. */
  lemma TrimIdempotent(s: string)
    ensures Trim(Trim(s)) == Trim(s)
  {
    var r := Trim(s);
    TrimEnds(s);
    if r != [] {
      assert LeadingWhiteSpace(r) == 0;
      assert TrailingWhiteSpace(r) == 0;
      assert r[0..] == r;
    }
  }

  /** `String.Contains(sub)`: ordinal, case-sensitive substring search. */
  function Contains(s: string, sub: string): bool
    ensures Contains(s, sub) ==> |sub| <= |s|
  {
    StartsWith(s, sub) || (|s| > 0 && Contains(s[1..], sub))
  }

  /** Independent statement of "sub occurs in s at some position". */
  ghost predicate Occurs(s: string, sub: string) {
    exists i :: 0 <= i <= |s| && sub <= s[i..]
  }

  lemma {:induction false} ContainsIffOccurs(s: string, sub: string)
    ensures Contains(s, sub) <==> Occurs(s, sub)
  {
    if sub <= s {
      assert s[0..] == s;
    } else if |s| > 0 {
      ContainsIffOccurs(s[1..], sub);
      if Contains(s[1..], sub) {
        var i :| 0 <= i <= |s[1..]| && sub <= s[1..][i..];
        assert s[1..][i..] == s[i + 1..];
      }
      if Occurs(s, sub) {
        var i :| 0 <= i <= |s| && sub <= s[i..];
        assert i != 0 by { assert s[0..] == s; }
        assert s[1..][i - 1..] == s[i..];
      }
    } else {
      assert forall i | 0 <= i <= |s| :: s[i..] == s;
    }
  }

  /** A pattern with a character the text lacks is not contained in it. */
  lemma MissingCharNotContained(s: string, sub: string, k: nat)
    requires k < |sub| && sub[k] !in s
    ensures !Contains(s, sub)
  {
    ContainsIffOccurs(s, sub);
    forall i | 0 <= i <= |s| ensures !(sub <= s[i..]) {
      if k < |s[i..]| {
        assert s[i..][k] == s[i + k];
      }
    }
  }
}
