/** The string operations of JavaScript that the pages rely on: case mapping
    (for the ASCII letters), `includes`, `trim`, and printing an integer in
    decimal. */
module Text {

  function LowerChar(c: char): char {
    if 'A' <= c <= 'Z' then (c as int + 32) as char else c
  }

  function UpperChar(c: char): char {
    if 'a' <= c <= 'z' then (c as int - 32) as char else c
  }

  /** `toLowerCase`, on the ASCII letters. */
  function Lower(s: string): (r: string)
    ensures |r| == |s|
    ensures forall i :: 0 <= i < |s| ==> r[i] == LowerChar(s[i])
  {
    if s == [] then [] else [LowerChar(s[0])] + Lower(s[1..])
  }

  /** `toUpperCase`, on the ASCII letters. */
  function Upper(s: string): (r: string)
    ensures |r| == |s|
    ensures forall i :: 0 <= i < |s| ==> r[i] == UpperChar(s[i])
  {
    if s == [] then [] else [UpperChar(s[0])] + Upper(s[1..])
  }

  /** `s.includes(t)`: `t` occurs in `s` as a contiguous block. */
  predicate Contains(s: string, t: string)
    decreases |s|
  {
    t <= s || (s != [] && Contains(s[1..], t))
  }

  /** The reference meaning of `includes`: some position of `s` starts a copy of `t`. */
  ghost predicate OccursAt(s: string, t: string, k: nat) {
    k + |t| <= |s| && s[k..k + |t|] == t
  }

  lemma {:induction false} ContainsThenOccurs(s: string, t: string)
    requires Contains(s, t)
    ensures exists k: nat :: OccursAt(s, t, k)
    decreases |s|
  {
    if t <= s {
      assert OccursAt(s, t, 0);
    } else {
      ContainsThenOccurs(s[1..], t);
      var k: nat :| OccursAt(s[1..], t, k);
      assert s[1..][k..k + |t|] == s[k + 1..k + 1 + |t|];
      assert OccursAt(s, t, k + 1);
    }
  }

  lemma {:induction false} OccursThenContains(s: string, t: string, k: nat)
    requires OccursAt(s, t, k)
    ensures Contains(s, t)
    decreases k
  {
    if k == 0 {
      assert s[..|t|] == s[0..|t|];
    } else {
      assert s[1..][k - 1..k - 1 + |t|] == s[k..k + |t|];
      OccursThenContains(s[1..], t, k - 1);
    }
  }

  lemma ContainsMeansOccurs(s: string, t: string)
    ensures Contains(s, t) <==> exists k: nat :: OccursAt(s, t, k)
  {
    if Contains(s, t) {
      ContainsThenOccurs(s, t);
    }
    if exists k: nat :: OccursAt(s, t, k) {
      var k: nat :| OccursAt(s, t, k);
      OccursThenContains(s, t, k);
    }
  }

  /** Every string includes the empty string. */
  lemma ContainsEmpty(s: string)
    ensures Contains(s, "")
  {
  }

  /** The characters `trim` removes: the white space and line terminators of
      ECMAScript (section 12.2 and 12.3 of ECMA-262), that is TAB, VT, FF,
      SP, NBSP, ZWNBSP, the Unicode space separators, LF, CR, LS and PS. */
  predicate IsSpace(c: char) {
    c == '\t' || c == '\n' || c == '\U{000B}' || c == '\U{000C}' || c == '\r' || c == ' '
    || c == '\U{00A0}' || c == '\U{1680}' || ('\U{2000}' <= c <= '\U{200A}')
    || c == '\U{2028}' || c == '\U{2029}' || c == '\U{202F}' || c == '\U{205F}'
    || c == '\U{3000}' || c == '\U{FEFF}'
  }

  /** `trimStart`: drops the leading white space. */
  function TrimStart(s: string): (r: string)
    ensures r != [] ==> !IsSpace(r[0])
  {
    if s != [] && IsSpace(s[0]) then TrimStart(s[1..]) else s
  }

  /** `trimEnd`: drops the trailing white space. */
  function TrimEnd(s: string): (r: string)
    ensures r != [] ==> !IsSpace(r[|r| - 1])
  {
    if s != [] && IsSpace(s[|s| - 1]) then TrimEnd(s[..|s| - 1]) else s
  }

  lemma AllSpaceCons(c: char, u: string)
    requires IsSpace(c) && AllSpace(u)
    ensures AllSpace([c] + u)
  {
    var w := [c] + u;
    forall i | 0 <= i < |w| ensures IsSpace(w[i]) {
      if i > 0 { assert w[i] == u[i - 1]; }
    }
  }

  lemma AllSpaceSnoc(u: string, c: char)
    requires AllSpace(u) && IsSpace(c)
    ensures AllSpace(u + [c])
  {
    var w := u + [c];
    forall i | 0 <= i < |w| ensures IsSpace(w[i]) {
      if i < |u| { assert w[i] == u[i]; }
    }
  }

  /** What `TrimStart` keeps is a suffix of `s`, and what it drops is all
      white space. */
  lemma {:induction false} TrimStartSplits(s: string)
    ensures var r := TrimStart(s);
      |r| <= |s| && r == s[|s| - |r|..] && AllSpace(s[..|s| - |r|])
  {
    if s != [] && IsSpace(s[0]) {
      var t := s[1..];
      TrimStartSplits(t);
      var r := TrimStart(t);
      assert TrimStart(s) == r;
      var k := |t| - |r|;
      assert s[k + 1..] == t[k..];
      assert s[..k + 1] == [s[0]] + t[..k];
      AllSpaceCons(s[0], t[..k]);
    } else {
      assert s[..0] == [];
    }
  }

  /** What `TrimEnd` keeps is a prefix of `s`, and what it drops is all
      white space. */
  lemma {:induction false} TrimEndSplits(s: string)
    ensures var r := TrimEnd(s);
      |r| <= |s| && r == s[..|r|] && AllSpace(s[|r|..])
  {
    if s != [] && IsSpace(s[|s| - 1]) {
      var p := s[..|s| - 1];
      TrimEndSplits(p);
      var r := TrimEnd(p);
      assert TrimEnd(s) == r;
      assert s[..|r|] == p[..|r|];
      assert s[|r|..] == p[|r|..] + [s[|s| - 1]];
      AllSpaceSnoc(p[|r|..], s[|s| - 1]);
    } else {
      assert s[|s|..] == [];
    }
  }

  /** `s.trim()`: the text without white space at either end. */
  function Trim(s: string): (r: string)
    ensures |r| <= |s|
    ensures r != [] ==> !IsSpace(r[0]) && !IsSpace(r[|r| - 1])
  {
    var t := TrimStart(s);
    TrimStartSplits(s);
    TrimEndSplits(t);
    TrimEnd(t)
  }

  ghost predicate AllSpace(s: string) {
    forall i :: 0 <= i < |s| ==> IsSpace(s[i])
  }

  lemma {:induction false} TrimStartEmpty(s: string)
    ensures TrimStart(s) == [] <==> AllSpace(s)
  {
    if s != [] && IsSpace(s[0]) {
      TrimStartEmpty(s[1..]);
      assert AllSpace(s) <==> AllSpace(s[1..]) by {
        if AllSpace(s[1..]) {
          forall i | 0 <= i < |s| ensures IsSpace(s[i]) { if i > 0 { assert s[i] == s[1..][i - 1]; } }
        }
      }
    }
  }

  lemma {:induction false} TrimEndEmpty(s: string)
    ensures TrimEnd(s) == [] <==> AllSpace(s)
  {
    if s != [] && IsSpace(s[|s| - 1]) {
      var p := s[..|s| - 1];
      TrimEndEmpty(p);
      assert AllSpace(s) <==> AllSpace(p) by {
        if AllSpace(p) {
          forall i | 0 <= i < |s| ensures IsSpace(s[i]) { if i < |s| - 1 { assert s[i] == p[i]; } }
        }
      }
    }
  }

  /** A string trims to "" exactly when every one of its characters is white
      space; this is the test behind "the title must not be empty". */
  lemma TrimEmptyIffBlank(s: string)
    ensures Trim(s) == "" <==> AllSpace(s)
  {
    TrimStartEmpty(s);
    var t := TrimStart(s);
    TrimEndEmpty(t);
    if t != [] {
      assert !IsSpace(t[0]);
    }
  }

  function Digit(d: nat): char
    requires d < 10
  {
    ('0' as int + d) as char
  }

  predicate IsDigit(c: char) {
    '0' <= c <= '9'
  }

  /** The number a string of decimal digits denotes, most significant digit
      first. */
  function NumeralValue(s: string): nat
    requires forall i :: 0 <= i < |s| ==> IsDigit(s[i])
  {
    if s == [] then 0
    else
      assert IsDigit(s[|s| - 1]);
      NumeralValue(s[..|s| - 1]) * 10 + (s[|s| - 1] as int - '0' as int)
  }

  /** The decimal numeral of a natural number, without leading zeros: its
      digits denote `n`. */
  function NatToString(n: nat): (r: string)
    ensures |r| >= 1
    ensures forall i :: 0 <= i < |r| ==> IsDigit(r[i])
    ensures |r| > 1 ==> r[0] != '0'
    ensures NumeralValue(r) == n
    decreases n
  {
    if n < 10 then [Digit(n)]
    else
      var p := NatToString(n / 10);
      var r := p + [Digit(n % 10)];
      assert r[..|r| - 1] == p;
      r
  }

  /** Two numbers have the same numeral only when they are equal. */
  lemma NatToStringInjective(m: nat, n: nat)
    ensures NatToString(m) == NatToString(n) <==> m == n
  {
  }

  /** What a rendering of an integer denotes: a leading minus sign negates
      the digits after it. */
  function SignedValue(s: string): int
    requires s != []
    requires s[0] == '-' ==> forall i :: 1 <= i < |s| ==> IsDigit(s[i])
    requires s[0] != '-' ==> forall i :: 0 <= i < |s| ==> IsDigit(s[i])
  {
    if s[0] == '-' then -(NumeralValue(s[1..]) as int) else NumeralValue(s)
  }

  /** `${i}` for an integer: a minus sign for negatives, then the digits. It
      denotes `i`. */
  function IntToString(i: int): (r: string)
    ensures r != []
    ensures r[0] == '-' <==> i < 0
    ensures r[0] == '-' ==> forall k :: 1 <= k < |r| ==> IsDigit(r[k])
    ensures r[0] != '-' ==> forall k :: 0 <= k < |r| ==> IsDigit(r[k])
    ensures SignedValue(r) == i
  {
    if i < 0 then
      var d := NatToString(-i);
      var r := "-" + d;
      assert r[1..] == d;
      r
    else NatToString(i)
  }
}
