/** The machine words of the Prolog stacks (pl-data.h), with the two bits the garbage
    collector keeps on every cell. */
module Words {

  /** The three low bits of a word that is a pointer.  The trail reuses the first two codes:
      an entry that records an address carries code 0 and one that records a saved value
      carries code 1. */
  datatype Tag =
    | Address      // 0: TAG_VAR, TAG_TRAILADDR: a stack top or a reset address
    | Float        // 1: TAG_FLOAT, TAG_TRAILVAL
    | Integer      // 2: an integer that does not fit in a word
    | String       // 4
    | Compound     // 6
    | Reference    // 7

  const TRAILVAL := Float

  datatype Word =
    | Var
    | Atomic(id: int)                           // atoms and small integers
    | Functor(name: int, arity: nat)            // first word of a compound term
    | Ptr(tag: Tag, addr: nat)
    | Header(kind: Tag, size: nat, pad: nat)    // first and last word of an indirect

  /** One word of a stack. `mark` and `first` are the bits MARK_MASK and FIRST_MASK. */
  datatype Cell = Cell(word: Word, mark: bool, first: bool)

  type Memory = seq<Cell>

  /** Number of words of the object that starts with `w`: an indirect is framed by two
      equal headers, anything else is one word. */
  function Size(w: Word): nat {
    if w.Header? then w.size + 2 else 1
  }

  /** The distance from the last word of an object to its first (pl-gc.c, offset_cell()). */
  function OffsetCell(w: Word): nat {
    Size(w) - 1
  }

  function SetWord(c: Cell, w: Word): Cell { c.(word := w) }
}
