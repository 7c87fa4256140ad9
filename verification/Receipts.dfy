/** Read receipts: the tree of "<subject>/<consumer>" keys. */
module Receipts {
  /** bjm_cursor_set: a receipt only ever moves forward. */
  function CursorSet(receipts: map<string, nat>, key: string, index: nat): map<string, nat> {
    if key in receipts && index <= receipts[key] then receipts else receipts[key := index]
  }
}
