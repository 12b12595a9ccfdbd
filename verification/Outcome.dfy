/** Outcomes of the decoder's fallible operations: every exception it raises is one `Fault`. */
module Outcome {
  datatype Fault =
    | BadRangeStart          // a range stream shorter than five bytes, or not starting with zero
    | RangeExhausted         // the range stream ends inside a symbol
    | RawExhausted           // the raw-bit stream ends inside a field
    | TokenOutOfRange        // a hybrid-uint token wider than 20 bits
    | RunOutsideBlock        // an AC run leaves its block
    | RangeLeftover          // the range stream is not used up
    | RawLeftover            // the raw stream is not used up
    | NotFrcI                // too short, or the wrong magic
    | WrongVersion           // not bitstream v7
    | NotLossy               // a lossless or palette file
    | HasMetadata            // metadata is not supported
    | TruncatedTable         // the tile length table is cut short
    | TileOverrun            // a tile passes the end of the file
    | SectionHeaderCut       // a tile ends inside a section header
    | SectionOverrun         // a section passes the end of its tile
    | SectionTrailing        // bytes after the last section of a tile without alpha
    | FileTrailing           // bytes after the last tile

  datatype Result<+T> = Ok(value: T) | Err(fault: Fault) {
    predicate IsFailure() {
      Err?
    }

    function PropagateFailure<U>(): Result<U>
      requires Err?
    {
      Err(fault)
    }

    function Extract(): T
      requires Ok?
    {
      value
    }
  }

  datatype Option<+T> = None | Some(value: T)
}
