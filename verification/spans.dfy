/** Where a piece of text sits inside a longer text. */
module Spans {

  /** `piece` occurs in `text` starting at offset `o`. */
  predicate PlacedAt(text: string, o: int, piece: string) {
    0 <= o && o + |piece| <= |text| && text[o..o + |piece|] == piece
  }

  /** `text` holds a blank line, two newlines, at offset `o`. */
  predicate BlankLineAt(text: string, o: int) {
    0 <= o && o + 2 <= |text| && text[o] == '\n' && text[o + 1] == '\n'
  }
}
