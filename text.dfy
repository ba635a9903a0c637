/** Lowercasing of request strings, restricted to ASCII letters. */
module Text {

  predicate IsAsciiUpper(c: char) {
    'A' <= c <= 'Z'
  }

  /** Lowercases one character; characters other than 'A'..'Z' are left alone. */
  function AsciiLower(c: char): (d: char)
    ensures !IsAsciiUpper(d)
    ensures d == c || IsAsciiUpper(c)
    ensures IsAsciiUpper(c) ==> 'a' <= d <= 'z' && d as int - 'a' as int == c as int - 'A' as int
  {
    if IsAsciiUpper(c) then (c as int + ('a' as int - 'A' as int)) as char else c
  }

  /** The lowercase form of a string (Python's str.lower, on ASCII letters). */
  function Lower(s: string): (t: string)
    ensures |t| == |s|
    ensures forall i :: 0 <= i < |s| ==> t[i] == AsciiLower(s[i])
  {
    if s == [] then [] else [AsciiLower(s[0])] + Lower(s[1..])
  }

  /** One character is an ASCII capital and the other is the same letter in lower case. */
  predicate CasePair(x: char, y: char) {
    (IsAsciiUpper(x) && y as int == x as int + 32) || (IsAsciiUpper(y) && x as int == y as int + 32)
  }

  /** Two strings that differ at most in the letter case of their characters:
      position by position, the characters are equal or a capital and its lower case. */
  predicate EqualIgnoringCase(a: string, b: string) {
    |a| == |b| && forall i :: 0 <= i < |a| ==> a[i] == b[i] || CasePair(a[i], b[i])
  }

  /** Two characters lowercase alike exactly when they are equal or a case pair. */
  lemma AsciiLowerEqualIff(x: char, y: char)
    ensures AsciiLower(x) == AsciiLower(y) <==> x == y || CasePair(x, y)
  {
  }

  /** Two strings have the same lowercase form exactly when they differ only in case. */
  lemma LowerEqualIff(a: string, b: string)
    ensures Lower(a) == Lower(b) <==> EqualIgnoringCase(a, b)
  {
    if |a| == |b| {
      forall i | 0 <= i < |a|
        ensures Lower(a)[i] == Lower(b)[i] <==> a[i] == b[i] || CasePair(a[i], b[i])
      {
        AsciiLowerEqualIff(a[i], b[i]);
      }
      if EqualIgnoringCase(a, b) {
        assert forall i :: 0 <= i < |a| ==> Lower(a)[i] == Lower(b)[i];
      }
    }
  }
}
