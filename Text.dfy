/** Character classes and string operations that the JavaScript code relies on:
    `String.prototype.trim`, the regular-expression classes `\s`, `\d`, `[0-9a-fA-F]`,
    and the truthiness of an optional string field. */
module Text {
  import opened Wrappers

  /** `!v` for a string field: absent (undefined or null) or empty. */
  predicate Falsy(v: Option<string>) {
    v.None? || v.value == ""
  }

  /** JavaScript's WhiteSpace and LineTerminator characters: the set that both `\s`
      and `trim()` use. */
  predicate IsSpace(c: char) {
    || ('\t' <= c <= '\r')                 // tab, line feed, vertical tab, form feed, carriage return
    || c == ' '
    || c == '\U{A0}' || c == '\U{1680}'
    || ('\U{2000}' <= c <= '\U{200A}')
    || c == '\U{2028}' || c == '\U{2029}'
    || c == '\U{202F}' || c == '\U{205F}'
    || c == '\U{3000}' || c == '\U{FEFF}'
  }

  /** `\d` and `[0-9]` (no Unicode flag: ASCII digits only). */
  predicate IsDigit(c: char) {
    '0' <= c <= '9'
  }

  /** `[0-9a-fA-F]`. */
  predicate IsHexDigit(c: char) {
    IsDigit(c) || 'a' <= c <= 'f' || 'A' <= c <= 'F'
  }

  predicate AllDigits(s: string) {
    forall i :: 0 <= i < |s| ==> IsDigit(s[i])
  }

  predicate NoSpace(s: string) {
    forall i :: 0 <= i < |s| ==> !IsSpace(s[i])
  }

  predicate AllSpace(s: string) {
    forall i :: 0 <= i < |s| ==> IsSpace(s[i])
  }

  lemma DigitsHaveNoSpace(s: string)
    requires AllDigits(s)
    ensures NoSpace(s)
  {
  }

  /** Drops the leading whitespace: the result is the longest suffix of `s` that does
      not start with whitespace, and everything dropped is whitespace. */
  function TrimStart(s: string): (r: string)
    ensures |r| <= |s| && r == s[|s| - |r|..]
    ensures r != [] ==> !IsSpace(r[0])
    ensures forall i :: 0 <= i < |s| - |r| ==> IsSpace(s[i])
  {
    if s != [] && IsSpace(s[0]) then TrimStart(s[1..]) else s
  }

  /** Drops the trailing whitespace: the result is the longest prefix of `s` that does
      not end with whitespace, and everything dropped is whitespace. */
  function TrimEnd(s: string): (r: string)
    ensures |r| <= |s| && r == s[..|r|]
    ensures r != [] ==> !IsSpace(r[|r| - 1])
    ensures forall i :: |r| <= i < |s| ==> IsSpace(s[i])
  {
    if s != [] && IsSpace(s[|s| - 1]) then TrimEnd(s[..|s| - 1]) else s
  }

  /** `s.trim()`. */
  function Trim(s: string): (r: string)
    ensures r == [] || (!IsSpace(r[0]) && !IsSpace(r[|r| - 1]))
  {
    TrimEnd(TrimStart(s))
  }

  /** `!s.trim()` holds exactly for the strings made only of whitespace (the empty
      string included). */
  lemma TrimEmptyIffAllSpace(s: string)
    ensures Trim(s) == [] <==> AllSpace(s)
  {
    var t := TrimStart(s);
    if t != [] {
      assert !IsSpace(t[0]) && t[0] == s[|s| - |t|];
    }
  }

  /** Trimming a string without whitespace changes nothing. */
  lemma TrimNoSpace(s: string)
    requires NoSpace(s)
    ensures Trim(s) == s
  {
    if s != [] {
      assert TrimStart(s) == s;
      assert TrimEnd(s) == s;
    }
  }

  /** Trimming twice is trimming once. */
  lemma TrimIdempotent(s: string)
    ensures Trim(Trim(s)) == Trim(s)
  {
    var t := Trim(s);
    if t != [] {
      assert TrimStart(t) == t;
      assert TrimEnd(t) == t;
    }
  }
}
