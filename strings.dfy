/** Facts about string concatenation shared by the renderers. */
module Strings {

  lemma ConcatAssoc(a: string, b: string, c: string)
    ensures (a + b) + c == a + (b + c)
  {
  }

  /** Fixed keyword `p` followed by a payload `x`: both are recovered from the text. */
  lemma SplitAfter(p: string, x: string)
    ensures (p + x)[..|p|] == p && (p + x)[|p|..] == x
  {
  }
}
