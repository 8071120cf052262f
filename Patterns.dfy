/** The anchored regular expressions the handlers test input against. Each one is a
    fixed-length sequence of atoms between `^` and `$`, so a pattern is a sequence of
    atoms and a string matches when it has one character per atom, each accepted by its
    atom (JavaScript's `$` without the multiline flag matches only at the end of input). */
module Patterns {
  import opened Text

  datatype Atom =
    | Literal(c: char)   // a literal character, such as the `9` of `^9\d{8}$`
    | Digit              // `\d`
    | HexDigit           // `[0-9a-fA-F]`

  predicate Accepts(a: Atom, c: char) {
    match a
    case Literal(d) => c == d
    case Digit => IsDigit(c)
    case HexDigit => IsHexDigit(c)
  }

  /** `a{n}`. */
  function Repeat(a: Atom, n: nat): (r: seq<Atom>)
    ensures |r| == n
    ensures forall i :: 0 <= i < n ==> r[i] == a
  {
    if n == 0 then [] else [a] + Repeat(a, n - 1)
  }

  /** `/^p$/.test(s)`, consuming the pattern one atom at a time. */
  predicate Matches(p: seq<Atom>, s: string) {
    if p == [] then s == []
    else s != [] && Accepts(p[0], s[0]) && Matches(p[1..], s[1..])
  }

  /** `^\d{8}$`: the client DNI format. */
  function DniPattern(): seq<Atom> {
    Repeat(Digit, 8)
  }

  /** `^9\d{8}$`: the phone format. */
  function PhonePattern(): seq<Atom> {
    [Literal('9')] + Repeat(Digit, 8)
  }

  /** `^[0-9a-fA-F]{24}$`: the shape of a MongoDB ObjectId. */
  function ObjectIdPattern(): seq<Atom> {
    Repeat(HexDigit, 24)
  }

  /** A string matches an anchored fixed-length pattern exactly when it has the
      pattern's length and every position is accepted by the atom at that position. */
  lemma {:induction false} MatchesPositionwise(p: seq<Atom>, s: string)
    ensures Matches(p, s) <==> |s| == |p| && forall i :: 0 <= i < |p| ==> Accepts(p[i], s[i])
  {
    if p != [] && s != [] {
      MatchesPositionwise(p[1..], s[1..]);
      if |s| == |p| && forall i :: 0 <= i < |p| ==> Accepts(p[i], s[i]) {
        assert forall i :: 0 <= i < |p| - 1 ==> Accepts(p[1..][i], s[1..][i]) by {
          forall i | 0 <= i < |p| - 1 ensures Accepts(p[1..][i], s[1..][i]) {
            assert Accepts(p[i + 1], s[i + 1]);
          }
        }
      }
    }
  }

  /** The DNI regex accepts exactly the strings of eight ASCII digits. */
  lemma DniPatternIff(s: string)
    ensures Matches(DniPattern(), s) <==> |s| == 8 && AllDigits(s)
  {
    MatchesPositionwise(DniPattern(), s);
  }

  /** The phone regex accepts exactly the nine-digit strings whose first digit is 9. */
  lemma PhonePatternIff(s: string)
    ensures Matches(PhonePattern(), s) <==> |s| == 9 && s[0] == '9' && AllDigits(s)
  {
    MatchesPositionwise(PhonePattern(), s);
    if |s| == 9 && s[0] == '9' && AllDigits(s) {
      forall i | 0 <= i < 9 ensures Accepts(PhonePattern()[i], s[i]) {
        if i > 0 {
          assert PhonePattern()[i] == Digit;
        }
      }
    }
    if Matches(PhonePattern(), s) {
      forall i | 0 <= i < 9 ensures IsDigit(s[i]) {
        assert Accepts(PhonePattern()[i], s[i]);
        if i > 0 {
          assert PhonePattern()[i] == Digit;
        }
      }
    }
  }

  /** The ObjectId regex accepts exactly the 24-character hexadecimal strings. */
  lemma ObjectIdPatternIff(s: string)
    ensures Matches(ObjectIdPattern(), s) <==> |s| == 24 && forall i :: 0 <= i < |s| ==> IsHexDigit(s[i])
  {
    MatchesPositionwise(ObjectIdPattern(), s);
  }
}
