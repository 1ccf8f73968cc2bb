/**
 * String helpers the weather tools rely on: Python's `str.lower()` as far as a
 * comparison against an ASCII literal can observe it, and substring containment.
 */
module Text {

  /** U+212A KELVIN SIGN, the one non-ASCII character that Python lower-cases to an ASCII letter. */
  const KelvinSign: char := '\U{212A}'

  /**
   * Lower-cases one character. `A`..`Z` become `a`..`z` and the Kelvin sign becomes `k`;
   * every other character is left as it is. Python lower-cases further non-ASCII
   * letters, but never to an ASCII character, so a comparison against an ASCII
   * literal gives the same answer.
   */
  function LowerChar(c: char): char
  {
    if 'A' <= c <= 'Z' then (c as int + 32) as char
    else if c == KelvinSign then 'k'
    else c
  }

  /** `s.lower()`: lower-cases `s` character by character. */
  function Lower(s: string): (r: string)
    ensures |r| == |s|
    ensures forall i :: 0 <= i < |s| ==> r[i] == LowerChar(s[i])
  {
    if s == [] then [] else [LowerChar(s[0])] + Lower(s[1..])
  }

  /** A word made only of lower-case ASCII letters and spaces, such as "new york" or "tomorrow". */
  predicate IsLowerWord(t: string)
  {
    forall i :: 0 <= i < |t| ==> 'a' <= t[i] <= 'z' || t[i] == ' '
  }

  /** The spellings of one character of a lower-case word: itself, its capital, and for `k` the Kelvin sign. */
  function Spellings(c: char): set<char>
  {
    if 'a' <= c <= 'z' then
      {c, (c as int - 32) as char} + (if c == 'k' then {KelvinSign} else {})
    else {c}
  }

  /** `s` spells the lower-case word `w` character by character, in any mixture of cases. */
  predicate SpellsWord(s: string, w: string)
  {
    |s| == |w| && forall i :: 0 <= i < |s| ==> s[i] in Spellings(w[i])
  }

  /** The characters that lower-case to a letter or a space are exactly its spellings. */
  lemma LowerCharSpellings(x: char, c: char)
    requires 'a' <= c <= 'z' || c == ' '
    ensures LowerChar(x) == c <==> x in Spellings(c)
  {
  }

  /**
   * `s.lower() == t`, for a lower-case word `t`, holds exactly when `s` spells `t`
   * character by character in any mixture of cases.
   */
  lemma LowerMatches(s: string, t: string)
    requires IsLowerWord(t)
    ensures Lower(s) == t <==> SpellsWord(s, t)
  {
    if |s| == |t| {
      forall i | 0 <= i < |s| {
        LowerCharSpellings(s[i], t[i]);
      }
      if forall i :: 0 <= i < |s| ==> s[i] in Spellings(t[i]) {
        assert forall i :: 0 <= i < |s| ==> Lower(s)[i] == t[i];
      }
    }
  }

  /** `part` occurs in `s` starting at position `i`. */
  predicate OccursAt(s: string, part: string, i: int)
  {
    0 <= i <= |s| - |part| && s[i..i + |part|] == part
  }

  /** `part in s`: `part` occurs in `s` as a contiguous substring. */
  predicate Contains(s: string, part: string)
  {
    exists i :: 0 <= i <= |s| && OccursAt(s, part, i)
  }

  /** A string built around `part` contains it. */
  lemma ContainsMiddle(prefix: string, part: string, suffix: string)
    ensures Contains(prefix + part + suffix, part)
  {
    var s := prefix + part + suffix;
    assert OccursAt(s, part, |prefix|);
  }
}
