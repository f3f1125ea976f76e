/** The two string operations the description needs: upper-casing the first
    letter of a word, and splitting a line into its space-separated words. */
module Text {
  predicate IsLower(c: char) {
    'a' <= c <= 'z'
  }

  predicate IsUpper(c: char) {
    'A' <= c <= 'Z'
  }

  /** `toUpperCase` on one character, for the ASCII letters the workout type
      names are made of; every other character is left as it is. */
  function ToUpper(c: char): (u: char)
    ensures IsLower(c) ==> IsUpper(u) && u as int == c as int - 32
    ensures !IsLower(c) ==> u == c
  {
    if IsLower(c) then (c as int - 32) as char else c
  }

  /** `s[0].toUpperCase() + s.slice(1)`. */
  function Capitalize(s: string): (r: string)
    requires |s| > 0
    ensures |r| == |s| && r[0] == ToUpper(s[0]) && r[1..] == s[1..]
    ensures IsLower(s[0]) ==> IsUpper(r[0])
    ensures ' ' !in s ==> ' ' !in r
  {
    [ToUpper(s[0])] + s[1..]
  }

  /** The index of the first space in `s`, or `|s|` when there is none. */
  function FirstSpace(s: string): (k: nat)
    ensures k <= |s|
    ensures forall i :: 0 <= i < k ==> s[i] != ' '
    ensures k < |s| ==> s[k] == ' '
  {
    if s == [] then 0
    else if s[0] == ' ' then 0
    else 1 + FirstSpace(s[1..])
  }

  /** The words of `s` between single spaces (`s.split(' ')`): always at
      least one, possibly empty, word. */
  function Words(s: string): (w: seq<string>)
    ensures |w| >= 1
    decreases |s|
  {
    var k := FirstSpace(s);
    if k == |s| then [s] else [s[..k]] + Words(s[k + 1..])
  }

  /** Splitting a word that holds no space, followed by a space and more
      text, yields that word and then the words of the rest. */
  lemma WordsOfJoin(a: string, b: string)
    requires ' ' !in a
    ensures Words(a + " " + b) == [a] + Words(b)
  {
    var s := a + " " + b;
    assert s[|a|] == ' ';
    assert FirstSpace(s) == |a|;
    assert s[..|a|] == a;
    assert s[|a| + 1..] == b;
  }

  /** A word without a space splits into itself. */
  lemma WordsOfWord(a: string)
    requires ' ' !in a
    ensures Words(a) == [a]
  {
  }
}
