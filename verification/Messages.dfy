/** The values the protocol exchanges: blocks, digests, the eight consensus
    messages, and the envelope that says who a message is sent to. */
module Messages {

  datatype Option<+T> = None | Some(value: T)

  /** A consensus block. A payload is the digest of a micro-block, kept abstract. */
  datatype Block = Block(proposer: int, payloads: seq<nat>, epoch: int)

  /** A block digest. Hashing is a constructor, so digests are injective and the
      zero digest is the digest of no block. */
  datatype Digest = Zero | HashOf(block: Block)

  const NONE := -1

  const ONE_PHASE := 0
  const TWO_PHASE := 1

  const VOTE_YES := 0
  const VOTE_NO := 1

  datatype Msg =
    | Proposal(author: int, b: Block, epoch: int, round: int, phase: int)
    | SpbVote(author: int, proposer: int, hash: Digest, epoch: int, round: int, phase: int)
    | Finish(author: int, hash: Digest, epoch: int, round: int)
    | Done(author: int, epoch: int, round: int)
    | ElectShare(author: int, epoch: int, round: int)
    | Prevote(author: int, leader: int, epoch: int, round: int, flag: int, hash: Digest)
    | FinVote(author: int, leader: int, epoch: int, round: int, flag: int, hash: Digest)
    | Halt(author: int, epoch: int, round: int, leader: int, hash: Digest)

  /** A message and its addressee; NONE means everybody, the sender included. */
  datatype Envelope = Env(to: int, msg: Msg)

  /** An (epoch, round) pair. */
  datatype Slot = Slot(e: int, r: int)

  /** The name of one SPB instance: its epoch, round and proposer. */
  datatype Inst = Inst(e: int, r: int, p: int)

  function SlotOf(m: Msg): Slot {
    Slot(m.epoch, m.round)
  }

  /** The instance that handles a proposal or a vote. */
  function InstOf(m: Msg): Inst
    requires m.Proposal? || m.SpbVote?
  {
    Inst(m.epoch, m.round, if m.Proposal? then m.author else m.proposer)
  }

  /** The three bytes of a combined threshold signature that elect a leader. */
  type Byte = x: int | 0 <= x < 256
  datatype Coin = Coin(b0: Byte, b1: Byte, b2: Byte)
}
