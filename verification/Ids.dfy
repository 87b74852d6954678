/** Block identifiers and block graphs: blockmania/blockmania.go. */
module Ids {
  import opened Bytes

  type Hash = seq<byte>

  datatype BlockID = BlockID(hash: Hash, node: nat, round: nat) {
    /** The zero BlockID, which stands for "no previous block", is the one with an empty hash. */
    predicate Valid() {
      hash != []
    }
  }

  /** A direct dependency of a block, with its own links. */
  datatype Dep = Dep(block: BlockID, deps: seq<BlockID>, prev: BlockID)

  /** A block that a node made, with its dependencies. */
  datatype BlockGraph = BlockGraph(block: BlockID, deps: seq<Dep>, prev: BlockID)
}
