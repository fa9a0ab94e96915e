/** Character classes of the Rust standard library. */
module Characters {
  /** `char::is_whitespace`: the Unicode White_Space property. */
  predicate IsWhitespace(c: char) {
    || '\U{0009}' <= c <= '\U{000D}' || c == '\U{0020}' || c == '\U{0085}' || c == '\U{00A0}' || c == '\U{1680}'
    || '\U{2000}' <= c <= '\U{200A}' || c == '\U{2028}' || c == '\U{2029}' || c == '\U{202F}' || c == '\U{205F}'
    || c == '\U{3000}'
  }

  predicate Blank(s: string) {
    forall i | 0 <= i < |s| :: IsWhitespace(s[i])
  }

  /** The code points of that property, by number. */
  lemma WhitespaceExactly(c: char)
    ensures IsWhitespace(c)
            <==> 9 <= c as int <= 13 || 8192 <= c as int <= 8202
                 || c as int in {32, 133, 160, 5760, 8232, 8233, 8239, 8287, 12288}
  {
  }
}
