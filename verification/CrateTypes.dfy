/** What the crate programs over POSIX and over System V semaphores share. */
module CrateTypes {
  import opened Processes
  import opened Numerals

  const CELL_SIZE: nat := 20

  /** The bytes of one slot. */
  type Cell = c: seq<char> | |c| == CELL_SIZE witness seq(CELL_SIZE, (_: nat) => '\0')

  const ITEM_NAMES: seq<string> :=
    ["one", "two", "three", "four", "five", "six", "seven", "eight", "nine"]

  /** Who put an item into the crate, and the table index of its name. */
  datatype Tag = Tag(pid: Pid, index: nat)

  function TagText(tag: Tag): string
    requires tag.index < |ITEM_NAMES|
  {
    "(" + Decimal(tag.pid) + ") " + ITEM_NAMES[tag.index]
  }

  function CopyLength(written: nat): nat {
    if written < CELL_SIZE then written else CELL_SIZE
  }

  /** Copying a text into a slot leaves the slot's old bytes behind its end. */
  function Deposit(cell: Cell, text: string): Cell {
    var n := CopyLength(|text|);
    text[..n] + cell[n..]
  }

  /** Byte by byte: the text as far as it goes and the slot, and otherwise what was there. */
  lemma DepositIs(cell: Cell, text: string, x: nat)
    requires x < 20
    ensures |cell| == 20 && Deposit(cell, text)[x] == if x < |text| then text[x] else cell[x]
  {
  }

  /** The slot starts with the tag's text, cut at the size of a slot. */
  predicate Carries(cell: Cell, tag: Tag) {
    && tag.index < |ITEM_NAMES|
    && TagText(tag)[..CopyLength(|TagText(tag)|)] <= cell
  }

  lemma DepositCarries(cell: Cell, tag: Tag)
    requires tag.index < |ITEM_NAMES|
    ensures Carries(Deposit(cell, TagText(tag)), tag)
  {
  }
}
