/** The values the batcher works on, and the outside world it works with. */
module BatcherTypes {
  import opened Options
  import opened Words

  /** The zero `common.Hash`: "no block seen yet". */
  const ZERO_HASH: nat := 0

  /** An L2 block: its hash, its parent's hash, its number and the L1 origin its batch carries. */
  datatype Block = Block(hash: nat, parent: nat, number: nat, epoch: U64)

  /** A transaction is identified by the one frame it carries. */
  datatype FrameID = FrameID(chID: nat, number: nat)

  datatype Frame = Frame(id: FrameID, data: seq<bv8>)

  /** Why a channel is full. */
  datatype Reason =
    | NoReason
    | TooManyRLPBytes
    | CompressorFull
    | MaxDurationReached
    | ChannelTimeoutClose
    | SeqWindowClose
    | Terminated

  datatype Config = Config(
    seqWindowSize: U64,
    channelTimeout: U64,
    maxChannelDuration: U64,
    subSafetyMargin: U64)

  /** What the channel output does with one more batch. `Broken` stands for a block that does
      not convert into a batch. */
  datatype AddOutcome = Taken(fullAfter: Option<Reason>) | Rejected(reason: Reason) | Broken

  /** The behaviour of `derive.ChannelOut`, as a function of the channel's id and of what it was
      fed: the verdict on a batch, how many further frames are ready, how many frames beyond the
      closing one remain when it is closed, and the bytes of each frame. */
  datatype Codec = Codec(
    accept: (nat, seq<Block>, Block) -> AddOutcome,
    ready: (nat, seq<Block>, nat) -> nat,
    rest: (nat, seq<Block>, nat) -> nat,
    data: (nat, nat) -> seq<bv8>)

  datatype Env = Env(cfg: Config, codec: Codec) {
    /** Frame number `n` of channel `c`. */
    function FrameOf(c: nat, n: nat): Frame {
      Frame(FrameID(c, n), codec.data(c, n))
    }

    /** The next `k` frames of channel `c` when `from` were output before. */
    function Emit(c: nat, from: nat, k: nat): (frames: seq<Frame>)
      ensures |frames| == k && forall i | 0 <= i < k :: frames[i] == FrameOf(c, from + i)
    {
      seq(k, i requires 0 <= i => FrameOf(c, from + i))
    }
  }

  /** The three deadlines, in uint64 arithmetic. */
  function DurationDeadline(cfg: Config, l1Block: U64): U64 {
    Wrap(l1Block + cfg.maxChannelDuration)
  }

  function PublishedDeadline(cfg: Config, l1Block: U64): U64 {
    Wrap(l1Block + cfg.channelTimeout - cfg.subSafetyMargin)
  }

  function WindowDeadline(cfg: Config, block: Block): U64 {
    Wrap(block.epoch + cfg.seqWindowSize - cfg.subSafetyMargin)
  }
}
