/**
 Character-level helpers of the Brazilian tax-ID validator: which characters
 count as digits, their numeric values, and the sanitising filter that keeps
 only the ASCII decimal digits of an input string.
 */
module Digits {

  /** Rust's `char::is_ascii_digit`: exactly the characters '0' through '9'. */
  predicate IsAsciiDigit(c: char) {
    '0' <= c <= '9'
  }

  predicate AllDigits(s: string) {
    forall i :: 0 <= i < |s| ==> IsAsciiDigit(s[i])
  }

  predicate NoDigits(s: string) {
    forall i :: 0 <= i < |s| ==> !IsAsciiDigit(s[i])
  }

  /** `c.to_digit(10)` on a character known to be a decimal digit. */
  function DigitValue(c: char): (d: nat)
    requires IsAsciiDigit(c)
    ensures d <= 9
  {
    c as int - '0' as int
  }

  /** The one-character decimal rendering `format!("{}", d)` of a single digit. */
  function DigitChar(d: nat): (c: char)
    requires d <= 9
    ensures IsAsciiDigit(c)
    ensures DigitValue(c) == d
  {
    ('0' as int + d) as char
  }

  /** Reading a digit and rendering it again gives back the same character. */
  lemma DigitCharOfValue(c: char)
    requires IsAsciiDigit(c)
    ensures DigitChar(DigitValue(c)) == c
  {
  }

  /** `value.chars().filter(char::is_ascii_digit).collect()`: the ASCII digits of
      `s`, in their original order. */
  function Sanitize(s: string): (r: string)
    ensures AllDigits(r)
    ensures |r| <= |s|
  {
    if |s| == 0 then []
    else if IsAsciiDigit(s[0]) then [s[0]] + Sanitize(s[1..])
    else Sanitize(s[1..])
  }

  /** Sanitising distributes over concatenation: digits keep their relative order
      and every part of the input contributes its own digits, and nothing else. */
  lemma {:induction false} SanitizeAppend(a: string, b: string)
    ensures Sanitize(a + b) == Sanitize(a) + Sanitize(b)
  {
    if |a| == 0 {
      assert a + b == b;
    } else {
      assert (a + b)[0] == a[0];
      assert (a + b)[1..] == a[1..] + b;
      SanitizeAppend(a[1..], b);
    }
  }

  /** A single character sanitises to itself when it is a digit and to nothing
      otherwise; with SanitizeAppend this determines Sanitize on every string. */
  lemma SanitizeSingle(c: char)
    ensures Sanitize([c]) == if IsAsciiDigit(c) then [c] else []
  {
    assert [c][1..] == [];
  }

  /** A character occurs in the sanitised string as often as in the input when it
      is a digit, and not at all otherwise. */
  lemma {:induction false} SanitizeCount(s: string, c: char)
    ensures multiset(Sanitize(s))[c] == if IsAsciiDigit(c) then multiset(s)[c] else 0
  {
    if |s| > 0 {
      SanitizeCount(s[1..], c);
      assert s == [s[0]] + s[1..];
      assert multiset(s)[c] == multiset([s[0]])[c] + multiset(s[1..])[c];
      if IsAsciiDigit(s[0]) {
        assert multiset(Sanitize(s))[c] == multiset([s[0]])[c] + multiset(Sanitize(s[1..]))[c];
      }
    }
  }

  /** Sanitising keeps every digit with its multiplicity and drops everything else. */
  lemma SanitizeCounts(s: string)
    ensures forall c :: multiset(Sanitize(s))[c] == if IsAsciiDigit(c) then multiset(s)[c] else 0
  {
    forall c
      ensures multiset(Sanitize(s))[c] == if IsAsciiDigit(c) then multiset(s)[c] else 0
    {
      SanitizeCount(s, c);
    }
  }

  /** A string made only of digits is a fixed point of sanitising. */
  lemma {:induction false} SanitizeFixesDigits(s: string)
    requires AllDigits(s)
    ensures Sanitize(s) == s
  {
    if |s| > 0 {
      SanitizeFixesDigits(s[1..]);
      assert s == [s[0]] + s[1..];
    }
  }

  /** Sanitising an already-sanitised string changes nothing. */
  lemma SanitizeIdempotent(s: string)
    ensures Sanitize(Sanitize(s)) == Sanitize(s)
  {
    SanitizeFixesDigits(Sanitize(s));
  }

  /** A character occurs in the sanitised string exactly when it is a digit that
      occurs in the input. */
  lemma {:induction false} SanitizeMembers(s: string)
    ensures forall c :: c in Sanitize(s) <==> c in s && IsAsciiDigit(c)
  {
    if |s| > 0 {
      SanitizeMembers(s[1..]);
      assert s == [s[0]] + s[1..];
    }
  }

  /** The sanitised string is empty exactly when the input holds no ASCII digit. */
  lemma SanitizeEmptyIff(s: string)
    ensures Sanitize(s) == [] <==> NoDigits(s)
  {
    SanitizeMembers(s);
    if Sanitize(s) != [] {
      var c := Sanitize(s)[0];
      assert c in Sanitize(s);
      var i :| 0 <= i < |s| && s[i] == c;
    } else {
      forall i | 0 <= i < |s|
        ensures !IsAsciiDigit(s[i])
      {
        assert s[i] in s;
      }
    }
  }

  /** Non-digit characters inserted anywhere in the input do not change the
      sanitised string. */
  lemma SanitizeIgnoresNonDigits(prefix: string, separators: string, suffix: string)
    requires NoDigits(separators)
    ensures Sanitize(prefix + separators + suffix) == Sanitize(prefix + suffix)
  {
    SanitizeEmptyIff(separators);
    SanitizeAppend(prefix, separators);
    SanitizeAppend(prefix + separators, suffix);
    SanitizeAppend(prefix, suffix);
  }

  /** The parts joined together in order. */
  function Concat(parts: seq<string>): string {
    if |parts| == 0 then [] else parts[0] + Concat(parts[1..])
  }

  /** A number as written: its digit groups in order, consecutive groups
      separated by the corresponding separator run. */
  function Interleave(groups: seq<string>, seps: seq<string>): string
    requires |groups| == |seps| + 1
  {
    if |seps| == 0 then groups[0] else groups[0] + seps[0] + Interleave(groups[1..], seps[1..])
  }

  predicate AllDigitGroups(groups: seq<string>) {
    forall i :: 0 <= i < |groups| ==> AllDigits(groups[i])
  }

  predicate AllSeparators(seps: seq<string>) {
    forall i :: 0 <= i < |seps| ==> NoDigits(seps[i])
  }

  /** A formatted number, digit groups separated by runs of non-digits, sanitises
      to its digit groups joined together. */
  lemma {:induction false} SanitizeFormatted(groups: seq<string>, seps: seq<string>)
    requires |groups| == |seps| + 1
    requires AllDigitGroups(groups) && AllSeparators(seps)
    ensures Sanitize(Interleave(groups, seps)) == Concat(groups)
  {
    SanitizeFixesDigits(groups[0]);
    if |seps| == 0 {
      assert Concat(groups) == groups[0] + [];
    } else {
      var rest := Interleave(groups[1..], seps[1..]);
      SanitizeFormatted(groups[1..], seps[1..]);
      SanitizeEmptyIff(seps[0]);
      SanitizeAppend(groups[0], seps[0]);
      SanitizeAppend(groups[0] + seps[0], rest);
    }
  }
}
