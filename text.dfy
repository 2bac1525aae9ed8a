/**
 * The .NET string operations the planning service relies on:
 * `char.IsWhiteSpace`, `string.IsNullOrWhiteSpace`, `Trim` and `ToUpperInvariant`.
 */
module Text {
  import opened Common

  /** `char.IsWhiteSpace`: U+0009..U+000D, the space separators (Zs), U+0085, U+2028 and U+2029. */
  predicate IsWhiteSpace(c: char) {
    || '\t' <= c <= '\r'
    || c == ' '
    || c == '\U{85}'
    || c == '\U{A0}'
    || c == '\U{1680}'
    || '\U{2000}' <= c <= '\U{200A}'
    || c == '\U{2028}'
    || c == '\U{2029}'
    || c == '\U{202F}'
    || c == '\U{205F}'
    || c == '\U{3000}'
  }

  /** Every character of `s` is white space (vacuously so for ""). */
  predicate IsBlank(s: string) {
    forall i :: 0 <= i < |s| ==> IsWhiteSpace(s[i])
  }

  /** `string.IsNullOrWhiteSpace`. */
  predicate IsNullOrWhiteSpace(s: Option<string>) {
    s.None? || IsBlank(s.value)
  }

  /** `TrimStart()`: drops the leading white space and nothing else. */
  function TrimStart(s: string): (r: string)
    ensures |r| <= |s| && r == s[|s| - |r|..]
    ensures forall i :: 0 <= i < |s| - |r| ==> IsWhiteSpace(s[i])
    ensures r == [] || !IsWhiteSpace(r[0])
  {
    if s == [] || !IsWhiteSpace(s[0]) then s else TrimStart(s[1..])
  }

  /** `TrimEnd()`: drops the trailing white space and nothing else. */
  function TrimEnd(s: string): (r: string)
    ensures |r| <= |s| && r == s[..|r|]
    ensures forall i :: |r| <= i < |s| ==> IsWhiteSpace(s[i])
    ensures r == [] || !IsWhiteSpace(r[|r| - 1])
  {
    if s == [] || !IsWhiteSpace(s[|s| - 1]) then s else TrimEnd(s[..|s| - 1])
  }

  /**
   * `Trim()`: the infix of `s` left once white space is removed from both ends.
   * It is empty exactly when `s` is blank, and otherwise starts and ends with
   * a character that is not white space.
   */
  function Trim(s: string): (r: string)
    ensures |r| <= |s|
    ensures r == [] <==> IsBlank(s)
    ensures r != [] ==> !IsWhiteSpace(r[0]) && !IsWhiteSpace(r[|r| - 1])
  {
    var t := TrimStart(s);
    var r := TrimEnd(t);
    assert t != [] ==> t[0] == s[|s| - |t|];
    assert r != [] ==> r[0] == t[0];
    r
  }

  /** `Trim` keeps exactly the infix of `s` between a blank prefix and a blank suffix. */
  lemma TrimKeepsInfix(s: string)
    ensures exists a, b :: 0 <= a <= b <= |s| && Trim(s) == s[a..b] && IsBlank(s[..a]) && IsBlank(s[b..])
  {
    var t := TrimStart(s);
    var r := TrimEnd(t);
    InfixBetweenBlanks(s, t, r);
    var a := |s| - |t|;
    assert Trim(s) == s[a..a + |r|] && IsBlank(s[..a]) && IsBlank(s[a + |r|..]);
  }

  /**
   * A suffix `t` of `s` after white space, and a prefix `r` of `t` before white space:
   * `r` is the infix of `s` between a blank prefix and a blank suffix.
   */
  lemma InfixBetweenBlanks(s: string, t: string, r: string)
    requires |t| <= |s| && t == s[|s| - |t|..] && forall i :: 0 <= i < |s| - |t| ==> IsWhiteSpace(s[i])
    requires |r| <= |t| && r == t[..|r|] && forall i :: |r| <= i < |t| ==> IsWhiteSpace(t[i])
    ensures var a := |s| - |t|;
      r == s[a..a + |r|] && IsBlank(s[..a]) && IsBlank(s[a + |r|..])
  {
    var a := |s| - |t|;
    var b := a + |r|;
    assert s[a..][..|r|] == s[a..b];
    var prefix, suffix := s[..a], s[b..];
    forall i | 0 <= i < |prefix|
      ensures IsWhiteSpace(prefix[i])
    {
      assert prefix[i] == s[i];
    }
    forall i | 0 <= i < |suffix|
      ensures IsWhiteSpace(suffix[i])
    {
      assert suffix[i] == t[|r| + i];
    }
  }

  /** The ASCII letters a..z map to A..Z; every other character is kept. */
  function UpperChar(c: char): (u: char)
    ensures 'a' <= c <= 'z' ==> 'A' <= u <= 'Z' && u as int == c as int - 32
    ensures !('a' <= c <= 'z') ==> u == c
    ensures !('a' <= u <= 'z')
    ensures IsWhiteSpace(u) <==> IsWhiteSpace(c)
  {
    if 'a' <= c <= 'z' then (c as int - 'a' as int + 'A' as int) as char else c
  }

  /** `ToUpperInvariant()`, restricted to ASCII letters (see README). */
  function ToUpperInvariant(s: string): (r: string)
    ensures |r| == |s|
    ensures forall i :: 0 <= i < |s| ==> r[i] == UpperChar(s[i])
  {
    if s == [] then [] else [UpperChar(s[0])] + ToUpperInvariant(s[1..])
  }

  /** `s?.Trim() ?? string.Empty`. */
  function TrimOrEmpty(s: Option<string>): (r: string)
    ensures s.None? ==> r == ""
    ensures s.Some? ==> r == Trim(s.value)
    ensures r != [] ==> !IsWhiteSpace(r[0]) && !IsWhiteSpace(r[|r| - 1])
  {
    match s
    case None => ""
    case Some(v) => Trim(v)
  }

  /** `string.IsNullOrWhiteSpace(s) ? fallback : s.Trim()`. */
  function TrimOrDefault(s: Option<string>, fallback: string): (r: string)
    ensures IsNullOrWhiteSpace(s) ==> r == fallback
    ensures !IsNullOrWhiteSpace(s) ==> r == Trim(s.value) && r != []
    ensures !IsNullOrWhiteSpace(s) ==> !IsWhiteSpace(r[0]) && !IsWhiteSpace(r[|r| - 1])
  {
    if s.None? || IsBlank(s.value) then fallback
    else
      var t := Trim(s.value);
      assert t != [];
      t
  }

  /** A string that neither starts nor ends with white space is its own trim. */
  lemma TrimOfTrimmed(s: string)
    requires s != [] && !IsWhiteSpace(s[0]) && !IsWhiteSpace(s[|s| - 1])
    ensures Trim(s) == s
  {
    assert TrimStart(s) == s;
    assert TrimEnd(s) == s;
  }

  /** The empty string is its own trim. */
  lemma TrimOfEmpty()
    ensures Trim([]) == []
  {
  }

  /** Trimming twice trims nothing more. */
  lemma {:induction false} TrimIdempotent(s: string)
    ensures Trim(Trim(s)) == Trim(s)
  {
    var t := Trim(s);
    if t == [] {
      TrimOfEmpty();
    } else {
      TrimOfTrimmed(t);
    }
  }
}
