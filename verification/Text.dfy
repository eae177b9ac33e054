/** Go's string helpers, on sequences of code points. */
module Text {

  /** unicode.IsSpace, code point by code point. */
  predicate IsSpace(c: char) {
    var n := c as int;
    || 9 <= n <= 13 || n == 0x20 || n == 0x85 || n == 0xA0 || n == 0x1680
    || 0x2000 <= n <= 0x200A || n == 0x2028 || n == 0x2029
    || n == 0x202F || n == 0x205F || n == 0x3000
  }

  predicate NoSpace(s: string) {
    forall i :: 0 <= i < |s| ==> !IsSpace(s[i])
  }

  predicate IsLineEnd(c: char) { c == '\r' || c == '\n' }

  function TrimLeft(s: string, cut: char -> bool): (r: string)
    ensures |r| <= |s| && r == s[|s| - |r|..]
    ensures r != [] ==> !cut(r[0])
    ensures s == [] || !cut(s[0]) ==> r == s
  {
    if s != [] && cut(s[0]) then TrimLeft(s[1..], cut) else s
  }

  function TrimRight(s: string, cut: char -> bool): (r: string)
    ensures |r| <= |s| && r == s[..|r|]
    ensures r != [] ==> !cut(r[|r| - 1])
    ensures s == [] || !cut(s[|s| - 1]) ==> r == s
    ensures forall i :: |r| <= i < |s| ==> cut(s[i])
  {
    if s != [] && cut(s[|s| - 1]) then TrimRight(s[..|s| - 1], cut) else s
  }

  function Trim(s: string, cut: char -> bool): string {
    TrimRight(TrimLeft(s, cut), cut)
  }

  function TrimSpace(s: string): string { Trim(s, IsSpace) }

  predicate Trimmed(s: string, cut: char -> bool) {
    s == [] || (!cut(s[0]) && !cut(s[|s| - 1]))
  }

  /** What Trim leaves has nothing to cut at either end, and such a string is left alone. */
  lemma TrimIsTrimmed(s: string, cut: char -> bool)
    ensures Trimmed(Trim(s, cut), cut)
    ensures Trimmed(s, cut) ==> Trim(s, cut) == s
  {
    var l := TrimLeft(s, cut);
    var r := TrimRight(l, cut);
    if r != [] { assert r[0] == l[0]; }
  }

  ghost predicate AllCut(s: string, cut: char -> bool) { forall i :: 0 <= i < |s| ==> cut(s[i]) }

  lemma {:induction false} TrimLeftStrips(x: string, s: string, cut: char -> bool)
    requires AllCut(x, cut)
    ensures TrimLeft(x + s, cut) == TrimLeft(s, cut)
  {
    if x == "" {
      assert x + s == s;
    } else {
      assert (x + s)[1..] == x[1..] + s;
      TrimLeftStrips(x[1..], s, cut);
    }
  }

  lemma {:induction false} TrimRightStrips(s: string, y: string, cut: char -> bool)
    requires AllCut(y, cut)
    ensures TrimRight(s + y, cut) == TrimRight(s, cut)
  {
    if y == "" {
      assert s + y == s;
    } else {
      assert (s + y)[..|s + y| - 1] == s + y[..|y| - 1];
      TrimRightStrips(s, y[..|y| - 1], cut);
    }
  }

  /** Trimming takes exactly what is to be cut from around a part that does not begin or end with it. */
  lemma TrimStrips(x: string, m: string, y: string, cut: char -> bool)
    requires AllCut(x, cut) && AllCut(y, cut) && m != "" && Trimmed(m, cut)
    ensures Trim(x + m + y, cut) == m
  {
    var rest := m + y;
    assert x + m + y == x + rest && rest[0] == m[0];
    TrimLeftStrips(x, rest, cut);
    assert TrimLeft(rest, cut) == rest;
    TrimRightStrips(m, y, cut);
    assert TrimRight(m, cut) == m;
  }

  lemma {:induction false} TrimLeftCuts(s: string, cut: char -> bool, i: nat)
    requires i < |s| - |TrimLeft(s, cut)|
    ensures cut(s[i])
  {
    if i > 0 {
      assert s[1..][i - 1] == s[i];
      TrimLeftCuts(s[1..], cut, i - 1);
    }
  }

  lemma Parted(s: string, l: string, m: string, cut: char -> bool) returns (x: string, y: string)
    requires |m| <= |l| <= |s| && l == s[|s| - |l|..] && m == l[..|m|]
    requires forall i :: 0 <= i < |s| - |l| ==> cut(s[i])
    requires forall i :: |m| <= i < |l| ==> cut(l[i])
    ensures AllCut(x, cut) && AllCut(y, cut) && s == x + m + y
  {
    x, y := s[..|s| - |l|], l[|m|..];
    assert l == m + y;
    forall i | 0 <= i < |y| ensures cut(y[i]) { assert y[i] == l[|m| + i]; }
  }

  /** Whatever is trimmed away is to be cut. */
  lemma TrimSplits(s: string, cut: char -> bool) returns (x: string, y: string)
    ensures AllCut(x, cut) && AllCut(y, cut) && s == x + Trim(s, cut) + y
  {
    var l := TrimLeft(s, cut);
    forall i | 0 <= i < |s| - |l| ensures cut(s[i]) { TrimLeftCuts(s, cut, i); }
    x, y := Parted(s, l, Trim(s, cut), cut);
  }

  function TrimPrefix(s: string, p: string): string {
    if p <= s then s[|p|..] else s
  }

  /** A per-rune case mapping, applied as strings.ToLower applies unicode.ToLower. */
  function Map(f: char -> char, s: string): (r: string)
    ensures |r| == |s| && forall i :: 0 <= i < |s| ==> r[i] == f(s[i])
  {
    seq(|s|, i requires 0 <= i < |s| => f(s[i]))
  }

  /** ASCII lower case, enough for the fixed English phrases the client recognises. */
  function AsciiLower(c: char): char {
    if 'A' <= c <= 'Z' then c - 'A' + 'a' else c
  }

  predicate Contains(s: string, t: string) {
    exists i :: 0 <= i <= |s| && t <= s[i..]
  }
}
