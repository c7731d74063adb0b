/** String helpers with the meaning the pages rely on: `toLowerCase`, `includes`,
    `trim() === ""`, decimal rendering of a non-negative integer and `padStart(2, '0')`.
    Strings are sequences of UTF-16 code units, as in JavaScript. */
module Text {

  /** `toLowerCase` on one code unit; only the ASCII letters A-Z are mapped. */
  function LowerChar(c: char): (d: char)
    ensures 'A' <= c <= 'Z' ==> 'a' <= d <= 'z' && d as int == c as int + 32
    ensures !('A' <= c <= 'Z') ==> d == c
  {
    if 'A' <= c <= 'Z' then (c as int + 32) as char else c
  }

  function ToLower(s: string): (r: string)
    ensures |r| == |s|
    ensures forall i :: 0 <= i < |s| ==> r[i] == LowerChar(s[i])
  {
    if s == [] then [] else [LowerChar(s[0])] + ToLower(s[1..])
  }

  /** Lower-casing twice is lower-casing once. */
  lemma ToLowerIdempotent(s: string)
    ensures ToLower(ToLower(s)) == ToLower(s)
  {
    var r := ToLower(s);
    assert forall i :: 0 <= i < |r| ==> LowerChar(r[i]) == r[i];
  }

  /** `p` occurs in `s` at position `i`, compared from offset `k` of `p` onwards. */
  function MatchesAt(s: string, p: string, i: nat, k: nat): bool
    requires i + |p| <= |s| && k <= |p|
    decreases |p| - k
  {
    if k == |p| then true
    else if s[i + k] != p[k] then false
    else MatchesAt(s, p, i, k + 1)
  }

  /** `p` occurs in `s` at some position `i` or later. */
  function ContainsFrom(s: string, p: string, i: nat): bool
    decreases |s| - i
  {
    if i + |p| > |s| then false
    else if MatchesAt(s, p, i, 0) then true
    else ContainsFrom(s, p, i + 1)
  }

  /** JavaScript's `s.includes(p)`. */
  function Contains(s: string, p: string): bool
  {
    ContainsFrom(s, p, 0)
  }

  /** `p` sits in `s` at position `j`, read as a slice. */
  ghost predicate SliceAt(s: string, p: string, j: nat)
  {
    j + |p| <= |s| && s[j..j + |p|] == p
  }

  /** The independent, slice-based reading of `includes`: some slice of `s` equals `p`. */
  ghost predicate OccursIn(p: string, s: string)
  {
    exists j: nat :: SliceAt(s, p, j)
  }

  lemma {:induction false} MatchesAtIsSlice(s: string, p: string, i: nat, k: nat)
    requires i + |p| <= |s| && k <= |p|
    ensures MatchesAt(s, p, i, k) <==> s[i + k..i + |p|] == p[k..]
    decreases |p| - k
  {
    if k < |p| {
      MatchesAtIsSlice(s, p, i, k + 1);
      assert s[i + k..i + |p|] == [s[i + k]] + s[i + k + 1..i + |p|];
      assert p[k..] == [p[k]] + p[k + 1..];
    }
  }

  lemma {:induction false} ContainsFromIsSearch(s: string, p: string, i: nat)
    ensures ContainsFrom(s, p, i) <==> exists j: nat :: i <= j && SliceAt(s, p, j)
    decreases |s| - i
  {
    if i + |p| <= |s| {
      MatchesAtIsSlice(s, p, i, 0);
      ContainsFromIsSearch(s, p, i + 1);
      if MatchesAt(s, p, i, 0) {
        assert SliceAt(s, p, i);
      }
      if exists j: nat :: i <= j && SliceAt(s, p, j) {
        var j: nat :| i <= j && SliceAt(s, p, j);
        if j != i {
          assert ContainsFrom(s, p, i + 1);
        }
      }
    }
  }

  /** `Contains` agrees with the slice-based definition. */
  lemma ContainsIsOccurrence(s: string, p: string)
    ensures Contains(s, p) <==> OccursIn(p, s)
  {
    ContainsFromIsSearch(s, p, 0);
  }

  /** The empty string is contained in every string. */
  lemma {:induction false} EmptyIsContained(s: string)
    ensures Contains(s, "")
  {
  }

  /** A string contains itself. */
  lemma ContainsSelf(s: string)
    ensures Contains(s, s)
  {
    MatchesAtIsSlice(s, s, 0, 0);
  }

  /** The code units JavaScript's `trim` removes: WhiteSpace and LineTerminator of ECMA-262. */
  predicate IsWhitespace(c: char)
  {
    c == '\t' || c == '\n' || c == '\U{000B}' || c == '\U{000C}' || c == '\r' || c == ' ' ||
    c == '\U{00A0}' || c == '\U{1680}' || ('\U{2000}' <= c <= '\U{200A}') ||
    c == '\U{2028}' || c == '\U{2029}' || c == '\U{202F}' || c == '\U{205F}' ||
    c == '\U{3000}' || c == '\U{FEFF}'
  }

  /** `s.trim() === ""`. */
  predicate IsBlank(s: string)
  {
    forall i :: 0 <= i < |s| ==> IsWhitespace(s[i])
  }

  /** The decimal digit for 0 <= d < 10. */
  function Digit(d: nat): (c: char)
    requires d < 10
    ensures '0' <= c <= '9' && c as int - '0' as int == d
  {
    ('0' as int + d) as char
  }

  /** `String(n)` for a non-negative integer: decimal digits, no leading zeros. */
  function NatToString(n: nat): (s: string)
    ensures |s| >= 1
    ensures forall i :: 0 <= i < |s| ==> '0' <= s[i] <= '9'
    ensures |s| > 1 ==> s[0] != '0'
    decreases n
  {
    if n < 10 then [Digit(n)] else NatToString(n / 10) + [Digit(n % 10)]
  }

  /** The value of a string of decimal digits. */
  function DigitsValue(s: string): nat
    requires forall i :: 0 <= i < |s| ==> '0' <= s[i] <= '9'
  {
    if s == [] then 0
    else DigitsValue(s[..|s| - 1]) * 10 + (s[|s| - 1] as int - '0' as int)
  }

  /** Reading back the digits of `NatToString(n)` yields `n`. */
  lemma {:induction false} NatToStringRoundTrip(n: nat)
    ensures DigitsValue(NatToString(n)) == n
    decreases n
  {
    if n >= 10 {
      NatToStringRoundTrip(n / 10);
      var s := NatToString(n);
      assert s[..|s| - 1] == NatToString(n / 10);
    }
  }

  /** `s.padStart(2, '0')`. */
  function PadStart2(s: string): (r: string)
    ensures |s| < 2 ==> |r| == 2 && r[2 - |s|..] == s
    ensures |s| < 2 ==> forall i :: 0 <= i < 2 - |s| ==> r[i] == '0'
    ensures |s| >= 2 ==> r == s
  {
    if |s| == 0 then "00" else if |s| == 1 then ['0'] + s else s
  }
}
