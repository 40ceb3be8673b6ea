/**
 * Page blocks, kept abstract: a block is the ordered list of content-stream
 * operations drawn on one page. Merging a following block into a block
 * appends the following block's operations.
 */
module Blocks {

  /** One content-stream operation, kept as its text. */
  type Op = string

  datatype Block = Block(ops: seq<Op>)

  /** The receiver absorbs the content of the block that follows it on the same page. */
  function MergeBlocks(b: Block, next: Block): Block {
    Block(b.ops + next.ops)
  }

  /** All operations of a block sequence, in page order. */
  function Flatten(bs: seq<Block>): seq<Op>
    decreases |bs|
  {
    if bs == [] then [] else bs[0].ops + Flatten(bs[1..])
  }

  lemma {:induction false} FlattenAppend(a: seq<Block>, b: seq<Block>)
    ensures Flatten(a + b) == Flatten(a) + Flatten(b)
    decreases |a|
  {
    if a == [] {
      assert a + b == b;
    } else {
      assert (a + b)[1..] == a[1..] + b;
      FlattenAppend(a[1..], b);
    }
  }
}
