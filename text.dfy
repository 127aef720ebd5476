/**
 * The string operations the admin pages use, on `seq<char>`.
 * Case mapping covers the ASCII letters only; every other character maps to itself.
 */
module Text {

  predicate IsAsciiUpper(c: char) { 'A' <= c <= 'Z' }

  predicate IsAsciiLower(c: char) { 'a' <= c <= 'z' }

  /** `toLowerCase` on one character: an upper-case letter becomes the same letter in lower case. */
  function LowerChar(c: char): (r: char)
    ensures !IsAsciiUpper(r)
    ensures !IsAsciiUpper(c) ==> r == c
    ensures IsAsciiUpper(c) ==> IsAsciiLower(r) && r as int - 'a' as int == c as int - 'A' as int
  {
    if IsAsciiUpper(c) then (c as int - 'A' as int + 'a' as int) as char else c
  }

  /** `toUpperCase` on one character: a lower-case letter becomes the same letter in upper case. */
  function UpperChar(c: char): (r: char)
    ensures !IsAsciiLower(r)
    ensures !IsAsciiLower(c) ==> r == c
    ensures IsAsciiLower(c) ==> IsAsciiUpper(r) && r as int - 'A' as int == c as int - 'a' as int
  {
    if IsAsciiLower(c) then (c as int - 'a' as int + 'A' as int) as char else c
  }

  function Lower(s: string): (r: string)
    ensures |r| == |s|
    ensures forall i :: 0 <= i < |s| ==> r[i] == LowerChar(s[i])
  {
    seq(|s|, i requires 0 <= i < |s| => LowerChar(s[i]))
  }

  function Upper(s: string): (r: string)
    ensures |r| == |s|
    ensures forall i :: 0 <= i < |s| ==> r[i] == UpperChar(s[i])
  {
    seq(|s|, i requires 0 <= i < |s| => UpperChar(s[i]))
  }

  /** Lowering twice is lowering once. */
  lemma LowerIdempotent(s: string)
    ensures Lower(Lower(s)) == Lower(s)
  {
    assert forall i :: 0 <= i < |s| ==> Lower(Lower(s))[i] == Lower(s)[i];
  }

  /** Two strings that differ only in letter case lower to the same string. */
  lemma LowerOfUpper(s: string)
    ensures Lower(Upper(s)) == Lower(s)
  {
    forall i | 0 <= i < |s|
      ensures Lower(Upper(s))[i] == Lower(s)[i]
    {
      var c := s[i];
      if IsAsciiLower(c) {
        assert LowerChar(UpperChar(c)) as int == c as int;
      }
    }
  }

  predicate StartsWith(s: string, prefix: string)
  {
    |prefix| <= |s| && s[..|prefix|] == prefix
  }

  /** `q` appears in `s` starting at index `i`. */
  ghost predicate OccursAt(s: string, q: string, i: int)
  {
    0 <= i && i + |q| <= |s| && s[i..i + |q|] == q
  }

  /** `s.includes(q)`: scans `s` for a position where `q` starts. */
  function Includes(s: string, q: string): bool
    decreases |s|
  {
    if StartsWith(s, q) then true
    else if s == [] then false
    else Includes(s[1..], q)
  }

  /** `Includes` holds exactly when `q` occurs somewhere in `s`; in particular the empty string is in every string. */
  lemma {:induction false} IncludesIffOccurs(s: string, q: string)
    ensures Includes(s, q) <==> exists i :: OccursAt(s, q, i)
    decreases |s|
  {
    if StartsWith(s, q) {
      assert OccursAt(s, q, 0);
    } else if s == [] {
      assert forall i :: !OccursAt(s, q, i);
    } else {
      IncludesIffOccurs(s[1..], q);
      var t := s[1..];
      forall i | OccursAt(t, q, i)
        ensures OccursAt(s, q, i + 1)
      {
        assert s[i + 1..i + 1 + |q|] == t[i..i + |q|];
      }
      forall i | OccursAt(s, q, i)
        ensures i > 0 && OccursAt(t, q, i - 1)
      {
        assert i != 0;
        assert t[i - 1..i - 1 + |q|] == s[i..i + |q|];
      }
    }
  }

  /** The index of the first `c` in `s`, or `|s|` when there is none. */
  function FirstIndex(s: string, c: char): (k: nat)
    ensures k <= |s|
    ensures forall j :: 0 <= j < k ==> s[j] != c
    ensures k < |s| ==> s[k] == c
    ensures k == |s| <==> c !in s
  {
    if s == [] then 0
    else if s[0] == c then 0
    else 1 + FirstIndex(s[1..], c)
  }

  /** `s.replace(from, to)` with a one-character pattern: only the first occurrence is replaced. */
  function ReplaceFirst(s: string, from: char, to: char): string
  {
    if s == [] then []
    else if s[0] == from then [to] + s[1..]
    else [s[0]] + ReplaceFirst(s[1..], from, to)
  }

  /** The replacement happens at the first occurrence and nowhere else. */
  lemma {:induction false} ReplaceFirstAtFirstIndex(s: string, from: char, to: char)
    ensures var k := FirstIndex(s, from);
      ReplaceFirst(s, from, to) == if k == |s| then s else s[..k] + [to] + s[k + 1..]
  {
    if s != [] && s[0] != from {
      ReplaceFirstAtFirstIndex(s[1..], from, to);
      var k := FirstIndex(s[1..], from);
      if k < |s[1..]| {
        assert [s[0]] + (s[1..][..k] + [to] + s[1..][k + 1..]) == s[..k + 1] + [to] + s[k + 2..];
      } else {
        assert [s[0]] + s[1..] == s;
      }
    }
  }

  /** `iso.split('T')[0]`: the part of an ISO date-time before the first `T`. */
  function DatePart(iso: string): (d: string)
    ensures 'T' !in d
    ensures d <= iso
    ensures |d| < |iso| ==> iso[|d|] == 'T'
    ensures 'T' !in iso ==> d == iso
  {
    iso[..FirstIndex(iso, 'T')]
  }
}
