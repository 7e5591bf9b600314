/** Texts as the source's languages hold them. */
module Texts {

  /** Texts are sequences of UTF-16 code units. */
  type CodeUnit = u: int | 0 <= u < 0x1_0000
  type Text = seq<CodeUnit>
}
