/**
 * The few Python string operations the system uses, on ASCII text:
 * `str.lower`, `str.replace` of one character, `str.title`, decimal
 * rendering of integers, and quoting of names in an error message.
 */
module Text {

  predicate IsDigit(c: char) { '0' <= c <= '9' }

  predicate IsUpper(c: char) { 'A' <= c <= 'Z' }

  predicate IsLower(c: char) { 'a' <= c <= 'z' }

  /** Python's notion of a cased character, restricted to ASCII letters. */
  predicate IsCased(c: char) { IsUpper(c) || IsLower(c) }

  predicate AllDigits(s: string) { forall i :: 0 <= i < |s| ==> IsDigit(s[i]) }

  function DigitChar(d: nat): (c: char)
    requires d < 10
    ensures IsDigit(c) && c as int - '0' as int == d
  {
    ('0' as int + d) as char
  }

  function Pow10(n: nat): (p: nat)
    ensures p >= 1
  {
    if n == 0 then 1 else 10 * Pow10(n - 1)
  }

  /** The value of a string of decimal digits, most significant first. */
  function DigitsValue(s: string): nat
    requires AllDigits(s)
  {
    if s == [] then 0
    else DigitsValue(s[..|s| - 1]) * 10 + (s[|s| - 1] as int - '0' as int)
  }

  /** `n` written with exactly `width` digits, zero-padded on the left (`%0*d`). */
  function PaddedDigits(n: nat, width: nat): (s: string)
    requires n < Pow10(width)
    ensures |s| == width && AllDigits(s)
    decreases width
  {
    if width == 0 then ""
    else PaddedDigits(n / 10, width - 1) + [DigitChar(n % 10)]
  }

  /** Padding is lossless: reading the digits back gives the number. */
  lemma {:induction false} PaddedDigitsRoundTrip(n: nat, width: nat)
    requires n < Pow10(width)
    ensures DigitsValue(PaddedDigits(n, width)) == n
    decreases width
  {
    if width > 0 {
      var s := PaddedDigits(n, width);
      PaddedDigitsRoundTrip(n / 10, width - 1);
      assert s[..|s| - 1] == PaddedDigits(n / 10, width - 1);
    }
  }

  /** `str(n)` for a natural number: no leading zeros. */
  function NatToString(n: nat): (s: string)
    ensures 1 <= |s| && AllDigits(s)
    ensures |s| > 1 ==> s[0] != '0'
  {
    if n < 10 then [DigitChar(n)] else NatToString(n / 10) + [DigitChar(n % 10)]
  }

  /** `int(s)` inverts `str(n)`. */
  lemma {:induction false} NatToStringRoundTrip(n: nat)
    ensures DigitsValue(NatToString(n)) == n
  {
    var s := NatToString(n);
    if n >= 10 {
      NatToStringRoundTrip(n / 10);
      assert s[..|s| - 1] == NatToString(n / 10);
    } else {
      assert s[..0] == [];
    }
  }

  function LowerChar(c: char): (d: char)
    ensures !IsUpper(d)
    ensures IsUpper(c) ==> d as int == c as int + 32
    ensures !IsUpper(c) ==> d == c
  {
    if IsUpper(c) then (c as int + 32) as char else c
  }

  function UpperChar(c: char): (d: char)
    ensures !IsLower(d)
    ensures IsLower(c) ==> d as int == c as int - 32
    ensures !IsLower(c) ==> d == c
  {
    if IsLower(c) then (c as int - 32) as char else c
  }

  /** `s.lower()`: every ASCII capital becomes its small letter; nothing else changes. */
  function Lower(s: string): (r: string)
    ensures |r| == |s|
    ensures forall i :: 0 <= i < |s| ==> r[i] == LowerChar(s[i])
    ensures forall i :: 0 <= i < |r| ==> !IsUpper(r[i])
  {
    if s == [] then [] else [LowerChar(s[0])] + Lower(s[1..])
  }

  /** `s.replace(a, b)` for one-character `a` and `b`. */
  function ReplaceChar(s: string, a: char, b: char): (r: string)
    ensures |r| == |s|
    ensures forall i :: 0 <= i < |s| ==> r[i] == if s[i] == a then b else s[i]
    ensures a != b ==> forall i :: 0 <= i < |r| ==> r[i] != a
  {
    if s == [] then [] else [if s[0] == a then b else s[0]] + ReplaceChar(s[1..], a, b)
  }

  /**
   * Whether the character before position `i` of `s` is cased; before the
   * first character that is `afterCased`.
   */
  predicate CasedBefore(s: string, i: nat, afterCased: bool)
    requires i < |s|
  {
    if i == 0 then afterCased else IsCased(s[i - 1])
  }

  /**
   * `s.title()`: a cased character is upper-cased when the character before
   * it is not cased, and lower-cased otherwise.
   */
  function Title(s: string): (r: string)
    ensures |r| == |s|
    ensures forall i :: 0 <= i < |s| && IsCased(s[i]) && (i == 0 || !IsCased(s[i - 1])) ==> r[i] == UpperChar(s[i])
    ensures forall i :: 0 <= i < |s| && IsCased(s[i]) && i > 0 && IsCased(s[i - 1]) ==> r[i] == LowerChar(s[i])
    ensures forall i :: 0 <= i < |s| && !IsCased(s[i]) ==> r[i] == s[i]
  {
    TitleAfter(s, false)
  }

  /** One character of `title()`, given whether a cased character comes right before it. */
  function TitleChar(c: char, afterCased: bool): (d: char)
    ensures IsCased(c) && !afterCased ==> d == UpperChar(c)
    ensures IsCased(c) && afterCased ==> d == LowerChar(c)
    ensures !IsCased(c) ==> d == c
  {
    if !IsCased(c) then c else if afterCased then LowerChar(c) else UpperChar(c)
  }

  /** `title()` of the rest of a string, `afterCased` saying whether a cased character precedes it. */
  function TitleAfter(s: string, afterCased: bool): (r: string)
    ensures |r| == |s|
    ensures forall i :: 0 <= i < |s| ==> r[i] == TitleChar(s[i], CasedBefore(s, i, afterCased))
  {
    if s == [] then []
    else
      var rest := TitleAfter(s[1..], IsCased(s[0]));
      assert forall i :: 1 <= i < |s| ==> CasedBefore(s[1..], i - 1, IsCased(s[0])) == CasedBefore(s, i, afterCased);
      [TitleChar(s[0], afterCased)] + rest
  }

  /** A character keeps its casedness under upper- and lower-casing. */
  lemma CaseKeepsCased(c: char)
    ensures IsCased(UpperChar(c)) == IsCased(c) && IsCased(LowerChar(c)) == IsCased(c)
    ensures UpperChar(UpperChar(c)) == UpperChar(c) && UpperChar(LowerChar(c)) == UpperChar(c)
    ensures LowerChar(UpperChar(c)) == LowerChar(c) && LowerChar(LowerChar(c)) == LowerChar(c)
  {
  }

  /** A title-cased string is its own title: `s.title().title() == s.title()`. */
  lemma TitleIdempotent(s: string)
    ensures Title(Title(s)) == Title(s)
  {
    var r := Title(s);
    var rr := Title(r);
    forall i | 0 <= i < |s|
      ensures IsCased(r[i]) == IsCased(s[i])
    {
      CaseKeepsCased(s[i]);
    }
    forall i | 0 <= i < |s|
      ensures rr[i] == r[i]
    {
      CaseKeepsCased(s[i]);
    }
  }

  /** `t` occurs in `s` as a contiguous piece. */
  ghost predicate Contains(s: string, t: string) {
    exists i :: OccursAt(s, t, i)
  }

  predicate OccursAt(s: string, t: string, i: int) {
    0 <= i <= |s| - |t| && s[i..i + |t|] == t
  }

  lemma ContainsConcat(a: string, t: string, b: string)
    ensures Contains(a + t + b, t)
  {
    var s := a + t + b;
    assert s[|a|..|a| + |t|] == t;
    assert OccursAt(s, t, |a|);
  }

  lemma ContainsPrefixed(a: string, s: string, t: string)
    requires Contains(s, t)
    ensures Contains(a + s, t) && Contains(s + a, t)
  {
    var i :| OccursAt(s, t, i);
    assert (a + s)[|a| + i..|a| + i + |t|] == t;
    assert OccursAt(a + s, t, |a| + i);
    assert (s + a)[i..i + |t|] == t;
    assert OccursAt(s + a, t, i);
  }
}
