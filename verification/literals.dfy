/** Reading a fixed literal at the front of a text. */
module Literals {
  import opened Wrappers

  /** The text after the literal `lit` at the front of `s`; `None` when `s` does not start with it. */
  function Expect(lit: string, s: string): Option<string> {
    if lit <= s then Some(s[|lit|..]) else None
  }

  lemma ExpectLiteral(lit: string, rest: string)
    ensures Expect(lit, lit + rest) == Some(rest)
  {
  }
}
