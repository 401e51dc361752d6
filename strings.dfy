/** Character and word helpers the cogs rely on: `str.lower()` on ASCII letters,
    `" ".join(words)` and its inverse `str.split(" ")`. */
module Strings {

  /** `c.lower()` for ASCII letters; every other character is left alone. */
  function LowerChar(c: char): char
  {
    if 'A' <= c <= 'Z' then (c as int + 32) as char else c
  }

  /** `s.lower()`, character by character. */
  function Lower(s: string): (r: string)
    ensures |r| == |s|
    ensures forall i :: 0 <= i < |r| ==> !('A' <= r[i] <= 'Z')
    ensures forall i :: 0 <= i < |s| && !('A' <= s[i] <= 'Z') ==> r[i] == s[i]
    ensures forall i :: 0 <= i < |s| && 'A' <= s[i] <= 'Z' ==>
      'a' <= r[i] <= 'z' && r[i] as int - 'a' as int == s[i] as int - 'A' as int
  {
    seq(|s|, i requires 0 <= i < |s| => LowerChar(s[i]))
  }

  /** `" ".join(words)`: the words separated by single spaces; it starts with the first word
      and ends with the last. */
  function Join(words: seq<string>): (r: string)
    ensures |words| == 0 ==> r == ""
    ensures |words| > 0 ==> words[0] <= r
    ensures |words| > 0 ==> EndsWith(r, words[|words| - 1])
    decreases |words|
  {
    if |words| == 0 then ""
    else if |words| == 1 then words[0]
    else
      var front, last := Join(words[..|words| - 1]), words[|words| - 1];
      assert (front + " " + last)[..|front|] == front;
      assert (front + " " + last)[|front| + 1..] == last;
      front + " " + last
  }

  /** `s.endswith(suffix)`, character by character. */
  predicate EndsWith(s: string, suffix: string)
  {
    |suffix| <= |s| && forall i :: 0 <= i < |suffix| ==> s[|s| - |suffix| + i] == suffix[i]
  }

  /** Position of the last occurrence of `c` in `s`. */
  function LastIndexOf(s: string, c: char): (i: nat)
    requires c in s
    ensures i < |s| && s[i] == c && c !in s[i + 1..]
    decreases |s|
  {
    if s[|s| - 1] == c then |s| - 1
    else
      assert s == s[..|s| - 1] + [s[|s| - 1]];
      LastIndexOf(s[..|s| - 1], c)
  }

  /** `s.split(" ")`: the pieces between single spaces, empty pieces included. */
  function Split(s: string): (pieces: seq<string>)
    ensures |pieces| > 0
    decreases |s|
  {
    if ' ' !in s then [s]
    else
      var i := LastIndexOf(s, ' ');
      Split(s[..i]) + [s[i + 1..]]
  }

  /** The separator put in front of a word without spaces is the last space of the joined text. */
  lemma LastSpaceBeforeWord(front: string, word: string)
    requires ' ' !in word
    ensures ' ' in front + " " + word
    ensures LastIndexOf(front + " " + word, ' ') == |front|
  {
    var s := front + " " + word;
    assert s[|front|] == ' ';
    assert s[|front| + 1..] == word;
  }

  /** Splitting a text followed by a space and a word without spaces splits off that word. */
  lemma SplitLastWord(front: string, word: string)
    requires ' ' !in word
    ensures Split(front + " " + word) == Split(front) + [word]
  {
    var s := front + " " + word;
    LastSpaceBeforeWord(front, word);
    assert s[..|front|] == front;
    assert s[|front| + 1..] == word;
  }

  /** Splitting the joined reason at single spaces gives back the words, when no word holds a space. */
  lemma {:induction false} SplitJoin(words: seq<string>)
    requires |words| > 0
    requires forall i :: 0 <= i < |words| ==> ' ' !in words[i]
    ensures Split(Join(words)) == words
  {
    if |words| > 1 {
      var front, word := words[..|words| - 1], words[|words| - 1];
      assert words == front + [word];
      assert Join(words) == Join(front) + " " + word;
      SplitLastWord(Join(front), word);
      SplitJoin(front);
    }
  }
}
