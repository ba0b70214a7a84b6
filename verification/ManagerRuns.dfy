/** Whole runs of the channel manager: any interleaving of its public calls. */
module ManagerRuns {
  import opened Options
  import opened BatcherTypes
  import opened Words
  import opened ChannelBuilders
  import opened Channels
  import opened CloseSweep
  import opened ManagerSpec

  datatype Op =
    | AddL2Block(block: Block)
    | TxData(l1Head: U64)
    | TxFailed(id: FrameID)
    | TxConfirmed(id: FrameID, l1Block: U64)
    | Close
    | Clear

  /** One public call. */
  ghost function Step(env: Env, s: Manager, op: Op): Manager
    requires s.Linked()
  {
    match op
    case AddL2Block(block) => s.AddL2Block(block).0
    case TxData(l1Head) => s.TxData(env, l1Head).0
    case TxFailed(id) => s.TxFailed(id)
    case TxConfirmed(id, l1Block) => s.TxConfirmed(env, id, l1Block)
    case Close => s.Close(env).0
    case Clear => s.Clear()
  }

  /** The structure of the manager survives every call. */
  lemma StepInv(env: Env, s: Manager, op: Op)
    requires Inv(env, s)
    ensures s.Linked() && Inv(env, Step(env, s, op))
  {
    QueueLinked(env, s);
    match op
    case AddL2Block(block) => AddL2BlockInv(env, s, block);
    case TxData(l1Head) => TxDataInv(env, s, l1Head);
    case TxFailed(id) => TxFailedInv(env, s, id);
    case TxConfirmed(id, l1Block) => TxConfirmedInv(env, s, id, l1Block);
    case Close => CloseInv(env, s);
    case Clear => ClearInv(env, s);
  }

  /** The state after a run of public calls. */
  ghost function Run(env: Env, ops: seq<Op>): (s: Manager)
    ensures Inv(env, s) && s.Linked()
  {
    if ops == [] then
      NewManager()
    else
      var s := Run(env, ops[..|ops| - 1]);
      StepInv(env, s, ops[|ops| - 1]);
      QueueLinked(env, Step(env, s, ops[|ops| - 1]));
      Step(env, s, ops[|ops| - 1])
  }

  lemma RunSnoc(env: Env, a: seq<Op>, op: Op)
    ensures Run(env, a + [op]) == Step(env, Run(env, a), op)
  {
    assert (a + [op])[..|a|] == a;
  }

  /** What every further call keeps holds after all of them. */
  lemma {:induction false} Along(run: seq<Op> -> Manager, good: Manager -> bool, ops: seq<Op>, more: seq<Op>)
    requires good(run(ops))
    requires forall before, op | op in more && good(run(before)) :: good(run(before + [op]))
    ensures good(run(ops + more))
    decreases |more|
  {
    if more == [] {
      assert ops + more == ops;
    } else {
      var init, op := more[..|more| - 1], more[|more| - 1];
      Along(run, good, ops, init);
      assert ops + more == ops + init + [op];
    }
  }

  /** The blocks the manager said yes to since the last `Clear`, in order. */
  ghost function Accepted(env: Env, ops: seq<Op>): seq<Block> {
    if ops == [] then []
    else
      var before, op := ops[..|ops| - 1], ops[|ops| - 1];
      match op
      case AddL2Block(block) =>
        if Run(env, before).AddL2Block(block).1 then Accepted(env, before) + [block] else Accepted(env, before)
      case Clear => []
      case _ => Accepted(env, before)
  }

  /** What one call does to the blocks: `Same` leaves every block where it is, `Moved` moves the
      first `k` pending blocks to the newest channel, or copies them there when a broken block
      cut the move short. */
  ghost predicate Same(s: Manager, s': Manager) {
    && s'.blocks == s.blocks && s'.epoch == s.epoch && |s'.chans| == |s.chans|
    && (forall c | 0 <= c < |s.chans| :: SameChan(s.chans[c], s'.chans[c]))
  }

  predicate SameChan(ch: Chan, ch': Chan) {
    ch'.builder.blocks == ch.builder.blocks && ch'.confirmed == ch.confirmed
  }

  ghost predicate Moved(s: Manager, s': Manager, k: nat, failed: bool) {
    && s'.epoch == s.epoch && k <= |s.blocks| && s'.chans != []
    && s'.blocks == (if failed then s.blocks else s.blocks[k..])
    && var c := |s'.chans| - 1;
    && s.epoch <= c && |s.chans| - 1 <= c <= |s.chans|
    && c in s'.queue
    && (forall d | 0 <= d < c :: SameChan(s.chans[d], s'.chans[d]))
    && var old' := if c < |s.chans| then s.chans[c] else NewChan(c);
    && s'.chans[c].builder.blocks == old'.builder.blocks + s.blocks[..k]
    && s'.chans[c].confirmed == old'.confirmed
  }

  lemma TxFailedSame(env: Env, s: Manager, id: FrameID)
    requires s.Linked()
    ensures Same(s, s.TxFailed(id))
  {
    if id in s.txChannels {
      RequeueSame(s, id);
    }
  }

  lemma RequeueSame(s: Manager, id: FrameID)
    requires s.Linked() && id in s.txChannels
    ensures Same(s, s.Requeue(id))
  {
  }

  lemma CloseSame(env: Env, s: Manager)
    requires s.Linked()
    ensures Same(s, s.Close(env).0)
  {
  }

  lemma NextTxDataSame(s: Manager, c: Option<nat>)
    requires c.Some? ==> c.value < |s.chans|
    ensures Same(s, s.NextTxData(c).0) && s.NextTxData(c).0.queue == s.queue
  {
  }

  lemma MovedThenSame(s: Manager, s1: Manager, s2: Manager, k: nat, failed: bool)
    requires Moved(s, s1, k, failed) && Same(s1, s2) && s2.queue == s1.queue
    ensures Moved(s, s2, k, failed)
  {
  }

  /** How many blocks a call of `TxData` feeds to the channel, and whether it met a broken one. */
  ghost function Feeds(env: Env, s: Manager): (nat, bool)
    requires s.Linked()
  {
    if FirstWithFrame(s.chans, s.queue).Some? || s.closed || s.blocks == [] then (0, false)
    else
      var s1 := s.EnsureChannelWithSpace();
      var p := Process(env, s1.chans[s1.current.value].builder, s.blocks);
      (p.added, p.failed)
  }

  lemma CutKeepsBlocks(env: Env, b: Builder, l1Head: U64)
    ensures b.RegisterL1Block(env, l1Head).OutputFrames(env).0.blocks == b.blocks
  {
  }

  lemma FillMoved(env: Env, s: Manager, l1Head: U64)
    requires s.Linked() && s.current.Some? && s.current.value in s.queue && s.epoch <= s.current.value == |s.chans| - 1
    ensures var p := Process(env, s.chans[s.current.value].builder, s.blocks);
      Moved(s, s.FillCurrent(env, l1Head).0, p.added, p.failed) &&
      |s.FillCurrent(env, l1Head).0.chans| == |s.chans|
  {
    CutKeepsBlocks(env, Process(env, s.chans[s.current.value].builder, s.blocks).builder, l1Head);
  }

  lemma EnsureThenMoved(s: Manager, s': Manager, k: nat, failed: bool)
    requires s.Linked() && Moved(s.EnsureChannelWithSpace(), s', k, failed)
    requires |s'.chans| == |s.EnsureChannelWithSpace().chans|
    ensures Moved(s, s', k, failed)
  {
  }

  lemma TxDataMoves(env: Env, s: Manager, l1Head: U64)
    requires Inv(env, s) && s.Linked()
    ensures var s' := s.TxData(env, l1Head).0;
      var (k, failed) := Feeds(env, s);
      Moved(s, s', k, failed) || (Same(s, s') && k == 0)
  {
    if FirstWithFrame(s.chans, s.queue).Some? || s.closed {
      NextTxDataSame(s, FirstWithFrame(s.chans, s.queue));
    } else if s.blocks != [] {
      RefillMoves(env, s, l1Head);
    }
  }

  lemma RefillMoves(env: Env, s: Manager, l1Head: U64)
    requires Inv(env, s) && s.Linked() && Fills(s)
    ensures Moved(s, s.TxData(env, l1Head).0, Feeds(env, s).0, Feeds(env, s).1)
  {
    FillSteps(env, s, l1Head);
    var s1 := s.EnsureChannelWithSpace();
    var (s2, ok) := s1.FillCurrent(env, l1Head);
    assert Moved(s, s2, Feeds(env, s).0, Feeds(env, s).1) by {
      EnsureInv(env, s);
      FillMoved(env, s1, l1Head);
      EnsureThenMoved(s, s2, Feeds(env, s).0, Feeds(env, s).1);
    }
    if ok {
      NextTxDataSame(s2, s2.current);
      MovedThenSame(s, s2, s2.NextTxData(s2.current).0, Feeds(env, s).0, Feeds(env, s).1);
    }
  }

  /** No block is lost. */

  /** A block the manager still answers for: pending, or in a channel that is queued or left the
      queue as fully submitted. */
  ghost predicate Held(env: Env, s: Manager, block: Block) {
    block in s.blocks || exists c: nat :: HeldBy(env, s, block, c)
  }

  ghost predicate HeldBy(env: Env, s: Manager, block: Block, c: nat) {
    && s.epoch <= c < |s.chans| && block in s.chans[c].builder.blocks
    && (c in s.queue || (s.chans[c].FullySubmitted() && !s.chans[c].TimedOut(env.cfg)))
  }

  /** A block that is pending or in a channel since `Clear` that has not timed out. */
  ghost predicate Kept(env: Env, s: Manager, block: Block) {
    block in s.blocks || exists c: nat :: KeptBy(env, s, block, c)
  }

  ghost predicate KeptBy(env: Env, s: Manager, block: Block, c: nat) {
    s.epoch <= c < |s.chans| && block in s.chans[c].builder.blocks && !s.chans[c].TimedOut(env.cfg)
  }

  lemma SameKeeps(env: Env, s: Manager, s': Manager, block: Block)
    requires Same(s, s') && Kept(env, s, block)
    ensures Kept(env, s', block)
  {
    if block !in s.blocks {
      var c: nat :| KeptBy(env, s, block, c);
      assert SameChan(s.chans[c], s'.chans[c]);
      assert KeptBy(env, s', block, c);
    }
  }

  lemma MovedKeeps(env: Env, s: Manager, s': Manager, k: nat, failed: bool, block: Block)
    requires Moved(s, s', k, failed) && Kept(env, s, block)
    requires !s'.chans[|s'.chans| - 1].TimedOut(env.cfg)
    ensures Kept(env, s', block)
  {
    var last := |s'.chans| - 1;
    if block in s.blocks {
      assert s.blocks == s.blocks[..k] + s.blocks[k..];
      if block in s.blocks[..k] {
        assert KeptBy(env, s', block, last);
      }
    } else {
      var c: nat :| KeptBy(env, s, block, c);
      assert c < last ==> SameChan(s.chans[c], s'.chans[c]);
      assert KeptBy(env, s', block, c);
    }
  }

  /** What a confirmation does to the blocks: those of a timed-out channel come back in front. */
  lemma ConfirmEffect(env: Env, s: Manager, id: FrameID, l1Block: U64)
    requires TxChannelsOk(s) && s.Linked() && id in s.txChannels
    ensures var s', ch := s.TxConfirmed(env, id, l1Block), s.chans[id.chID].Confirm(env, id, l1Block);
      && s'.chans == s.chans[id.chID := ch] && s'.epoch == s.epoch
      && s'.blocks == (if ch.TimedOut(env.cfg) then ch.builder.blocks else []) + s.blocks
      && ch.builder.blocks == s.chans[id.chID].builder.blocks
  {
  }

  lemma ConfirmKeeps(env: Env, s: Manager, id: FrameID, l1Block: U64, block: Block)
    requires TxChannelsOk(s) && s.Linked() && Kept(env, s, block)
    ensures Kept(env, s.TxConfirmed(env, id, l1Block), block)
  {
    if id in s.txChannels {
      ConfirmEffect(env, s, id, l1Block);
      var s' := s.TxConfirmed(env, id, l1Block);
      if block !in s.blocks {
        var d: nat :| KeptBy(env, s, block, d);
        assert d == id.chID || s'.chans[d] == s.chans[d];
        assert block in s'.blocks || KeptBy(env, s', block, d);
      }
    }
  }

  lemma AddKeeps(env: Env, s: Manager, b: Block, block: Block)
    requires Kept(env, s, block)
    ensures Kept(env, s.AddL2Block(b).0, block)
  {
    if block !in s.blocks {
      var c: nat :| KeptBy(env, s, block, c);
      assert KeptBy(env, s.AddL2Block(b).0, block, c);
    }
  }

  lemma MovedInTime(env: Env, s: Manager, s': Manager, k: nat, failed: bool)
    requires Moved(s, s', k, failed) && QueueOk(env, s')
    ensures !s'.chans[|s'.chans| - 1].TimedOut(env.cfg)
  {
  }

  lemma TxDataKeeps(env: Env, s: Manager, l1Head: U64, block: Block)
    requires Inv(env, s) && s.Linked() && Kept(env, s, block)
    ensures Kept(env, s.TxData(env, l1Head).0, block)
  {
    var s' := s.TxData(env, l1Head).0;
    var (k, failed) := Feeds(env, s);
    TxDataMoves(env, s, l1Head);
    if Moved(s, s', k, failed) {
      assert QueueOk(env, s') by { TxDataInv(env, s, l1Head); }
      MovedInTime(env, s, s', k, failed);
      MovedKeeps(env, s, s', k, failed, block);
    } else {
      SameKeeps(env, s, s', block);
    }
  }

  lemma StepKeeps(env: Env, s: Manager, op: Op, block: Block)
    requires Inv(env, s) && s.Linked() && Kept(env, s, block) && op != Clear
    ensures Kept(env, Step(env, s, op), block)
  {
    match op
    case AddL2Block(b) => AddKeeps(env, s, b, block);
    case TxData(l1Head) => TxDataKeeps(env, s, l1Head, block);
    case TxFailed(id) =>
      TxFailedSame(env, s, id);
      SameKeeps(env, s, s.TxFailed(id), block);
    case TxConfirmed(id, l1Block) =>
      ConfirmKeeps(env, s, id, l1Block, block);
    case Close =>
      CloseSame(env, s);
      SameKeeps(env, s, s.Close(env).0, block);
  }

  lemma {:induction false} AcceptedKept(env: Env, ops: seq<Op>, block: Block)
    requires block in Accepted(env, ops)
    ensures Kept(env, Run(env, ops), block)
  {
    var before, op := ops[..|ops| - 1], ops[|ops| - 1];
    if block in Accepted(env, before) {
      AcceptedKept(env, before, block);
      StepKeeps(env, Run(env, before), op, block);
    }
  }

  /** On every run of the public calls, however they interleave and whatever times out: as long
      as the manager is not closed, every block accepted since `Clear` is pending, in a queued
      channel, or in a channel that was completely submitted in time. */
  lemma NoBlockIsLost(env: Env, ops: seq<Op>)
    requires !Run(env, ops).closed
    ensures forall block | block in Accepted(env, ops) :: Held(env, Run(env, ops), block)
  {
    var s := Run(env, ops);
    forall block | block in Accepted(env, ops) ensures Held(env, s, block) {
      AcceptedKept(env, ops, block);
      if block !in s.blocks {
        var c: nat :| KeptBy(env, s, block, c);
        assert HeldBy(env, s, block, c);
      }
    }
  }

  /** Every block that is pending or in a channel since `Clear` is a good one. */
  ghost predicate Only(s: Manager, good: Block -> bool) {
    && (forall b | b in s.blocks :: good(b))
    && (forall c, b | s.epoch <= c < |s.chans| && b in s.chans[c].builder.blocks :: good(b))
  }

  lemma StepOnly(env: Env, s: Manager, op: Op, good: Block -> bool)
    requires Inv(env, s) && s.Linked() && Only(s, good)
    requires op.AddL2Block? && s.AddL2Block(op.block).1 ==> good(op.block)
    ensures Only(Step(env, s, op), good)
  {
    var s' := Step(env, s, op);
    match op
    case AddL2Block(b) =>
    case TxData(l1Head) =>
      TxDataMoves(env, s, l1Head);
      if Moved(s, s', Feeds(env, s).0, Feeds(env, s).1) {
        MovedOnly(s, s', Feeds(env, s).0, Feeds(env, s).1, good);
      } else {
        SameOnly(s, s', good);
      }
    case TxFailed(id) =>
      TxFailedSame(env, s, id);
      SameOnly(s, s', good);
    case TxConfirmed(id, l1Block) =>
      ConfirmOnly(env, s, id, l1Block, good);
    case Close =>
      CloseSame(env, s);
      SameOnly(s, s', good);
    case Clear =>
  }

  lemma ConfirmOnly(env: Env, s: Manager, id: FrameID, l1Block: U64, good: Block -> bool)
    requires TxChannelsOk(s) && s.Linked() && Only(s, good)
    ensures Only(s.TxConfirmed(env, id, l1Block), good)
  {
    if id in s.txChannels {
      ConfirmEffect(env, s, id, l1Block);
    }
  }

  lemma SameOnly(s: Manager, s': Manager, good: Block -> bool)
    requires Same(s, s') && Only(s, good)
    ensures Only(s', good)
  {
  }

  lemma MovedOnly(s: Manager, s': Manager, k: nat, failed: bool, good: Block -> bool)
    requires Moved(s, s', k, failed) && Only(s, good)
    ensures Only(s', good)
  {
  }

  /** Nothing but the given blocks is pending or in a channel since `Clear`. */
  ghost predicate OnlyFrom(s: Manager, blocks: seq<Block>) {
    && (forall b | b in s.blocks :: b in blocks)
    && (forall c, b | s.epoch <= c < |s.chans| && b in s.chans[c].builder.blocks :: b in blocks)
  }

  /** On every run the manager works on accepted blocks only. */
  lemma {:induction false} NothingIsInvented(env: Env, ops: seq<Op>)
    ensures OnlyFrom(Run(env, ops), Accepted(env, ops))
  {
    if ops != [] {
      var before, op := ops[..|ops| - 1], ops[|ops| - 1];
      NothingIsInvented(env, before);
      if op != Clear {
        assert forall b | b in Accepted(env, before) :: b in Accepted(env, ops);
        StepOnlyFrom(env, Run(env, before), op, Accepted(env, before), Accepted(env, ops));
      }
    }
  }

  lemma StepOnlyFrom(env: Env, s: Manager, op: Op, before: seq<Block>, after: seq<Block>)
    requires Inv(env, s) && s.Linked() && OnlyFrom(s, before) && forall b | b in before :: b in after
    requires op.AddL2Block? && s.AddL2Block(op.block).1 ==> op.block in after
    ensures OnlyFrom(Step(env, s, op), after)
  {
    var good: Block -> bool := b => b in after;
    OnlyGood(s, before, good);
    StepOnly(env, s, op, good);
    OnlyIn(Step(env, s, op), good, after);
  }

  lemma OnlyGood(s: Manager, blocks: seq<Block>, good: Block -> bool)
    requires OnlyFrom(s, blocks) && forall b | b in blocks :: good(b)
    ensures Only(s, good)
  {
  }

  lemma OnlyIn(s: Manager, good: Block -> bool, blocks: seq<Block>)
    requires Only(s, good) && forall b :: good(b) ==> b in blocks
    ensures OnlyFrom(s, blocks)
  {
  }
}
