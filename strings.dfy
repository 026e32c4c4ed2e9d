/** Small string helpers shared by the pages: ASCII character classes, case
    mapping, whitespace trimming, substring search, decimal rendering of
    naturals and comma joining. Strings are sequences of characters. */
module Strings {

  predicate IsDigit(c: char) {
    '0' <= c <= '9'
  }

  predicate IsLower(c: char) {
    'a' <= c <= 'z'
  }

  predicate IsUpper(c: char) {
    'A' <= c <= 'Z'
  }

  /** The regular expression `^[a-zA-Z]+$`: non-empty and ASCII letters only. */
  predicate IsAsciiWord(s: string) {
    |s| > 0 && forall i :: 0 <= i < |s| ==> IsLower(s[i]) || IsUpper(s[i])
  }

  function UpperChar(c: char): (u: char)
    ensures IsLower(c) ==> IsUpper(u) && u as int == c as int - 32
    ensures !IsLower(c) ==> u == c
  {
    if IsLower(c) then (c as int - 32) as char else c
  }

  function LowerChar(c: char): (l: char)
    ensures IsUpper(c) ==> IsLower(l) && l as int == c as int + 32
    ensures !IsUpper(c) ==> l == c
  {
    if IsUpper(c) then (c as int + 32) as char else c
  }

  /** Upper-casing, for ASCII letters (the only letters the symbol filter lets through). */
  function ToUpper(s: string): (r: string)
    ensures |r| == |s|
    ensures forall i :: 0 <= i < |s| ==> r[i] == UpperChar(s[i])
  {
    seq(|s|, i requires 0 <= i < |s| => UpperChar(s[i]))
  }

  /** Lower-casing, for ASCII letters; every other character is kept. */
  function ToLower(s: string): (r: string)
    ensures |r| == |s|
    ensures forall i :: 0 <= i < |s| ==> r[i] == LowerChar(s[i])
  {
    seq(|s|, i requires 0 <= i < |s| => LowerChar(s[i]))
  }

  /** The whitespace characters removed by trimming (ASCII white space,
      the no-break space and the byte-order mark). */
  predicate IsSpace(c: char) {
    c == ' ' || c == '\t' || c == '\n' || c == '\r' || c == '\U{B}' || c == '\U{C}'
    || c == '\U{A0}' || c == '\U{FEFF}'
  }

  function TrimStart(s: string): (r: string)
    ensures |r| <= |s| && r == s[|s| - |r|..]
    ensures r == [] || !IsSpace(r[0])
    ensures forall i :: 0 <= i < |s| - |r| ==> IsSpace(s[i])
  {
    if |s| > 0 && IsSpace(s[0]) then TrimStart(s[1..]) else s
  }

  function TrimEnd(s: string): (r: string)
    ensures |r| <= |s| && r == s[..|r|]
    ensures r == [] || !IsSpace(r[|r| - 1])
    ensures forall i :: |r| <= i < |s| ==> IsSpace(s[i])
  {
    if |s| > 0 && IsSpace(s[|s| - 1]) then TrimEnd(s[..|s| - 1]) else s
  }

  /** `r` is the slice `s[i..j]` and everything of `s` outside it is white space. */
  predicate SliceBetweenSpaces(s: string, r: string, i: nat, j: nat) {
    && i <= j <= |s|
    && r == s[i..j]
    && (forall k :: 0 <= k < i ==> IsSpace(s[k]))
    && (forall k :: j <= k < |s| ==> IsSpace(s[k]))
  }

  /** `trim`: white space is removed from both ends, and only from the ends. */
  function Trim(s: string): (r: string)
    ensures |r| <= |s|
    ensures exists i: nat, j: nat :: SliceBetweenSpaces(s, r, i, j)
    ensures r == [] || (!IsSpace(r[0]) && !IsSpace(r[|r| - 1]))
    ensures (forall i :: 0 <= i < |s| ==> !IsSpace(s[i])) ==> r == s
  {
    var t := TrimStart(s);
    var r := TrimEnd(t);
    var i := |s| - |t|;
    assert forall k :: i + |r| <= k < |s| ==> s[k] == t[k - i];
    assert SliceBetweenSpaces(s, r, i, i + |r|);
    r
  }

  /** A string is empty after trimming exactly when it is all white space. */
  lemma TrimEmptyIffBlank(s: string)
    ensures Trim(s) == [] <==> forall i :: 0 <= i < |s| ==> IsSpace(s[i])
  {
    var t := TrimStart(s);
    if |t| > 0 {
      TrimEndKeepsFirst(t);
    }
  }

  /** Trimming the end cannot consume a string that starts with a non-space. */
  lemma TrimEndKeepsFirst(t: string)
    requires |t| > 0 && !IsSpace(t[0])
    ensures TrimEnd(t) != []
  {
  }

  /** A non-empty run of lower-case letters is left alone by trimming and lower-casing. */
  lemma LowerWordFixed(q: string)
    requires |q| > 0 && forall i :: 0 <= i < |q| ==> IsLower(q[i])
    ensures Trim(q) == q && ToLower(q) == q
  {
    assert !IsSpace(q[0]);
    assert TrimStart(q) == q;
    assert !IsSpace(q[|q| - 1]);
    assert TrimEnd(q) == q;
  }

  /** q occurs in s starting at index i. */
  predicate OccursAt(s: string, q: string, i: nat)
    requires i <= |s|
  {
    q <= s[i..]
  }

  /** `s.includes(q)`: q occurs in s at some position. */
  predicate Contains(s: string, q: string)
    decreases |s|
  {
    q <= s || (|s| > 0 && Contains(s[1..], q))
  }

  /** The recursive search agrees with "q occurs at some index of s". */
  lemma {:induction false} ContainsAt(s: string, q: string)
    ensures Contains(s, q) <==> exists i: nat :: i <= |s| && OccursAt(s, q, i)
    decreases |s|
  {
    if q <= s {
      assert OccursAt(s, q, 0);
    } else if |s| > 0 {
      ContainsAt(s[1..], q);
      if Contains(s[1..], q) {
        var i: nat :| i <= |s| - 1 && OccursAt(s[1..], q, i);
        assert s[1..][i..] == s[i + 1..];
        assert OccursAt(s, q, i + 1);
      }
      if exists i: nat :: i <= |s| && OccursAt(s, q, i) {
        var i: nat :| i <= |s| && OccursAt(s, q, i);
        assert i != 0;
        assert s[1..][i - 1..] == s[i..];
        assert OccursAt(s[1..], q, i - 1);
      }
    }
  }

  function DigitChar(d: nat): (c: char)
    requires d < 10
    ensures IsDigit(c)
    ensures c as int - '0' as int == d
  {
    ('0' as int + d) as char
  }

  /** Decimal rendering of a natural number, as a template literal prints it. */
  function NatText(n: nat): (s: string)
    ensures |s| > 0
    ensures forall i :: 0 <= i < |s| ==> IsDigit(s[i])
    ensures s[0] == '0' ==> n == 0
  {
    if n < 10 then [DigitChar(n)] else NatText(n / 10) + [DigitChar(n % 10)]
  }

  /** The number a string of decimal digits denotes, read from the left. */
  function DigitsValue(s: string): int {
    if |s| == 0 then 0 else 10 * DigitsValue(s[..|s| - 1]) + (s[|s| - 1] as int - '0' as int)
  }

  /** The text `NatText` prints reads back as the number it was printed from. */
  lemma {:induction false} NatTextValue(n: nat)
    ensures DigitsValue(NatText(n)) == n
  {
    if n >= 10 {
      NatTextValue(n / 10);
      assert NatText(n)[..|NatText(n)| - 1] == NatText(n / 10);
    }
  }

  /** Distinct numbers print differently. */
  lemma {:induction false} NatTextInjective(m: nat, n: nat)
    requires NatText(m) == NatText(n)
    ensures m == n
  {
    if m >= 10 && n >= 10 {
      var a, b := NatText(m / 10), NatText(n / 10);
      assert a + [DigitChar(m % 10)] == b + [DigitChar(n % 10)];
      assert |a| == |b|;
      assert a == (a + [DigitChar(m % 10)])[..|a|];
      assert b == (b + [DigitChar(n % 10)])[..|b|];
      assert DigitChar(m % 10) == NatText(m)[|a|] == NatText(n)[|b|] == DigitChar(n % 10);
      NatTextInjective(m / 10, n / 10);
    }
  }

  /** `ids.join(sep)`. */
  function Join(ids: seq<string>, sep: string): (r: string)
  {
    if |ids| == 0 then "" else if |ids| == 1 then ids[0] else ids[0] + sep + Join(ids[1..], sep)
  }

  /** Joining non-empty entries gives the empty string only for the empty list. */
  lemma {:induction false} JoinEmptyIff(ids: seq<string>, sep: string)
    requires forall i :: 0 <= i < |ids| ==> ids[i] != ""
    ensures Join(ids, sep) == "" <==> ids == []
  {
    if |ids| > 1 {
      assert |Join(ids, sep)| >= |ids[0]| > 0;
    }
  }
}
