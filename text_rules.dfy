/** Character rules of the add/edit form (src/components/AddEditContact.tsx): the required-field
    check built on `String.prototype.trim`, and the name filter `replace(/[^a-zA-Z\s]/g, '')`. */
module TextRules {

  import Seqs

  /** JavaScript's white space and line terminators: the characters `\s` matches and `trim`
      removes. */
  predicate IsWhitespace(c: char) {
    c == ' ' || c == '\t' || c == '\n' || c == '\r' || c == '\U{000B}' || c == '\U{000C}'
    || c == '\U{00A0}' || c == '\U{1680}' || ('\U{2000}' <= c <= '\U{200A}')
    || c == '\U{2028}' || c == '\U{2029}' || c == '\U{202F}' || c == '\U{205F}'
    || c == '\U{3000}' || c == '\U{FEFF}'
  }

  predicate IsAsciiLetter(c: char) {
    ('a' <= c <= 'z') || ('A' <= c <= 'Z')
  }

  predicate IsDigit(c: char) {
    '0' <= c <= '9'
  }

  /** `s` with its leading white space removed. */
  function TrimStart(s: string): (r: string)
    ensures |r| <= |s| && r == s[|s| - |r|..]
    ensures forall i :: 0 <= i < |s| - |r| ==> IsWhitespace(s[i])
    ensures r != [] ==> !IsWhitespace(r[0])
  {
    if s != [] && IsWhitespace(s[0]) then TrimStart(s[1..]) else s
  }

  /** `s` with its trailing white space removed. */
  function TrimEnd(s: string): (r: string)
    ensures |r| <= |s| && r == s[..|r|]
    ensures forall i :: |r| <= i < |s| ==> IsWhitespace(s[i])
    ensures r != [] ==> !IsWhitespace(r[|r| - 1])
  {
    if s != [] && IsWhitespace(s[|s| - 1]) then TrimEnd(s[..|s| - 1]) else s
  }

  /** `String.prototype.trim`, i.e. `TrimStart` followed by `TrimEnd`: the result neither
      starts nor ends with white space, and is empty exactly when the input is all white space. */
  function Trim(s: string): (r: string)
    ensures |r| <= |s|
    ensures r != [] ==> !IsWhitespace(r[0]) && !IsWhitespace(r[|r| - 1])
    ensures r == [] <==> forall i :: 0 <= i < |s| ==> IsWhitespace(s[i])
  {
    var t := TrimStart(s);
    assert t != [] ==> !IsWhitespace(s[|s| - |t|]);
    assert t != [] ==> TrimEnd(t) != [];
    TrimEnd(t)
  }

  /** `validateRequired`: the trimmed value is not empty, which is the case exactly when the
      value holds a character that is not white space. */
  function ValidateRequired(value: string): (ok: bool)
    ensures ok <==> exists i :: 0 <= i < |value| && !IsWhitespace(value[i])
  {
    Trim(value) != ""
  }

  /** The characters the name filter keeps: ASCII letters and white space. */
  predicate IsNameChar(c: char) {
    IsAsciiLetter(c) || IsWhitespace(c)
  }

  /** `value.replace(/[^a-zA-Z\s]/g, '')`: every other character is deleted. */
  function FilterName(value: string): (r: string)
    ensures forall i :: 0 <= i < |r| ==> IsNameChar(r[i])
    ensures Seqs.IsSubsequence(r, value)
    ensures forall i :: 0 <= i < |value| ==>
      multiset(r)[value[i]] == if IsNameChar(value[i]) then multiset(value)[value[i]] else 0
  {
    Seqs.FilterCounts(value, IsNameChar);
    Seqs.Filter(value, IsNameChar)
  }

  /** A name made only of letters and white space passes the filter unchanged. */
  lemma FilterNameKeepsNames(value: string)
    requires forall i :: 0 <= i < |value| ==> IsNameChar(value[i])
    ensures FilterName(value) == value
  {
    Seqs.FilterKeepsAll(value, IsNameChar);
  }

  /** Filtering an already filtered name changes nothing. */
  lemma FilterNameIdempotent(value: string)
    ensures FilterName(FilterName(value)) == FilterName(value)
  {
    Seqs.FilterIdempotent(value, IsNameChar);
  }
}
