/** String helpers the app borrows from the JavaScript runtime. */
module Text {

  /** `s.split(sep)[0]`: the text before the first `sep`, or all of `s` when `sep` does not occur. */
  function TextBefore(s: string, sep: char): (r: string)
    ensures r <= s
    ensures sep !in r
    ensures |r| < |s| ==> s[|r|] == sep
  {
    if s == [] || s[0] == sep then [] else [s[0]] + TextBefore(s[1..], sep)
  }

  /** The three properties of TextBefore pin its result down: any prefix of `s` that avoids `sep`
      and stops at a `sep` (or at the end) is that result. */
  lemma TextBeforeUnique(s: string, sep: char, p: string)
    requires p <= s && sep !in p
    requires |p| < |s| ==> s[|p|] == sep
    ensures p == TextBefore(s, sep)
  {
  }

  /** Without a separator the whole string is kept; with one, the separator starts the rest. */
  lemma TextBeforeSplits(s: string, sep: char)
    ensures sep !in s <==> TextBefore(s, sep) == s
    ensures sep in s ==> s == TextBefore(s, sep) + [sep] + s[|TextBefore(s, sep)| + 1..]
  {
  }
}
