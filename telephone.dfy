/** The telephone pattern of the add/edit form (src/components/AddEditContact.tsx):
    `/^[+]*[(]{0,1}[0-9]{1,4}[)]{0,1}[-\s\./0-9]*$/`. `Matches` recognizes it by one left-to-right
    scan; `FitsPattern` states the pattern directly as a split of the string into its five
    parts, and `MatchesIffFitsPattern` proves the two agree on every string. */
module Telephone {

  import opened TextRules

  predicate IsPlus(c: char) {
    c == '+'
  }

  /** The closing class `[-\s\./0-9]`. */
  predicate IsTailChar(c: char) {
    c == '-' || IsWhitespace(c) || c == '.' || c == '/' || IsDigit(c)
  }

  /** Where the run of characters satisfying `p` that starts at `i` ends. */
  function RunEnd(s: string, i: nat, p: char -> bool): (e: nat)
    requires i <= |s|
    ensures i <= e <= |s|
    ensures forall j :: i <= j < e ==> p(s[j])
    ensures e == |s| || !p(s[e])
    decreases |s| - i
  {
    if i < |s| && p(s[i]) then RunEnd(s, i + 1, p) else i
  }

  predicate AllFrom(s: string, i: nat, p: char -> bool)
    requires i <= |s|
  {
    forall j :: i <= j < |s| ==> p(s[j])
  }

  /** `telephoneRegex.test(s)`: skip the plus signs and an opening parenthesis, take up to four
      digits (at least one), an optional closing parenthesis, and require the rest to be
      drawn from the closing class. */
  function Matches(s: string): (ok: bool)
    ensures ok ==> exists i :: 0 <= i < |s| && IsDigit(s[i])
  {
    var (a, b, d, c, e) := Cuts(s);
    assert b < d ==> IsDigit(s[b]);
    b < d && AllFrom(s, e, IsTailChar)
  }

  /** `s` splits at `i0 <= i1 <= i2 <= i3` into plus signs, an optional `(`, one to four
      digits, an optional `)` and a tail from the closing class. */
  ghost predicate IsSplit(s: string, i0: nat, i1: nat, i2: nat, i3: nat) {
    && i0 <= i1 <= i2 <= i3 <= |s|
    && (forall j :: 0 <= j < i0 ==> IsPlus(s[j]))
    && (i1 == i0 || (i1 == i0 + 1 && s[i0] == '('))
    && 1 <= i2 - i1 <= 4
    && (forall j :: i1 <= j < i2 ==> IsDigit(s[j]))
    && (i3 == i2 || (i3 == i2 + 1 && s[i2] == ')'))
    && (forall j :: i3 <= j < |s| ==> IsTailChar(s[j]))
  }

  /** The whole string matches the pattern. */
  ghost predicate FitsPattern(s: string) {
    exists i0: nat, i1: nat, i2: nat, i3: nat :: IsSplit(s, i0, i1, i2, i3)
  }

  /** The positions at which `Matches` cuts `s`. */
  function Cuts(s: string): (r: (nat, nat, nat, nat, nat))
    ensures r.0 <= r.1 <= r.2 <= |s| && r.1 <= r.3 <= r.4 <= |s|
  {
    var a := RunEnd(s, 0, IsPlus);
    var b := if a < |s| && s[a] == '(' then a + 1 else a;
    var d := RunEnd(s, b, IsDigit);
    var c := if d - b <= 4 then d else b + 4;
    var e := if c < |s| && s[c] == ')' then c + 1 else c;
    (a, b, d, c, e)
  }

  lemma MatchesGivesSplit(s: string)
    requires Matches(s)
    ensures FitsPattern(s)
  {
    var (a, b, d, c, e) := Cuts(s);
    assert IsSplit(s, a, b, c, e);
  }

  lemma SplitGivesMatches(s: string, i0: nat, i1: nat, i2: nat, i3: nat)
    requires IsSplit(s, i0, i1, i2, i3)
    ensures Matches(s)
  {
    var (a, b, d, c, e) := Cuts(s);
    // The first character after the plus signs is `(` or a digit, so the scan stops there.
    assert !IsPlus(s[i0]);
    assert a == i0;
    assert b == i1;
    assert d >= i2;
    if c == i2 {
      assert e == i3;
    } else {
      assert IsDigit(s[i2]) && i3 == i2;
      assert e == c;
    }
    assert AllFrom(s, e, IsTailChar);
  }

  lemma MatchesIffFitsPattern(s: string)
    ensures Matches(s) <==> FitsPattern(s)
  {
    if Matches(s) {
      MatchesGivesSplit(s);
    }
    if FitsPattern(s) {
      var i0: nat, i1: nat, i2: nat, i3: nat :| IsSplit(s, i0, i1, i2, i3);
      SplitGivesMatches(s, i0, i1, i2, i3);
    }
  }

  /** The empty string is not a telephone number. */
  lemma EmptyIsRejected()
    ensures !Matches("")
  {
  }
}
