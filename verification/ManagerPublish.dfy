/** The publish loop: asking for transaction data until there is none. */
module ManagerPublish {
  import opened Options
  import opened BatcherTypes
  import opened Words
  import opened ChannelBuilders
  import opened Channels
  import opened CloseSweep
  import opened ManagerSpec
  import opened ManagerRuns

  /** No channel that holds nothing yet turns the block down. */
  ghost predicate Fits(env: Env, block: Block) {
    forall id :: !env.codec.accept(id, [], block).Rejected?
  }

  /** Every channel turns the block down, whatever it holds. */
  ghost predicate Oversized(env: Env, block: Block) {
    forall id, held :: env.codec.accept(id, held, block).Rejected?
  }

  /** The block always converts into a batch. */
  ghost predicate Whole(env: Env, block: Block) {
    forall id, held :: !env.codec.accept(id, held, block).Broken?
  }

  ghost predicate AllFit(env: Env, blocks: seq<Block>) {
    forall b | b in blocks :: Fits(env, b)
  }

  ghost predicate AllWhole(env: Env, blocks: seq<Block>) {
    forall b | b in blocks :: Whole(env, b)
  }

  /** How many frames wait in the channels of `queue`. */
  function Waiting(chans: seq<Chan>, queue: seq<nat>): nat
    requires forall i | 0 <= i < |queue| :: queue[i] < |chans|
  {
    if queue == [] then 0 else |chans[queue[0]].builder.frames| + Waiting(chans, queue[1..])
  }

  function OpenCurrent(s: Manager): nat
    requires s.current.Some? ==> s.current.value < |s.chans|
  {
    if s.current.Some? && !s.chans[s.current.value].builder.IsFull() then 1 else 0
  }

  /** Blocks left, then whether the current channel is open, then frames waiting. */
  ghost predicate Progress(s: Manager, s': Manager)
    requires s.Linked() && s'.Linked()
  {
    || |s'.blocks| < |s.blocks|
    || (|s'.blocks| == |s.blocks| && OpenCurrent(s') < OpenCurrent(s))
    || (|s'.blocks| == |s.blocks| && OpenCurrent(s') == OpenCurrent(s) &&
        Waiting(s'.chans, s'.queue) < Waiting(s.chans, s.queue))
  }

  lemma {:induction false} WaitingUntouched(chans: seq<Chan>, chans': seq<Chan>, queue: seq<nat>)
    requires |chans| <= |chans'| && forall i | 0 <= i < |queue| :: queue[i] < |chans|
    requires forall i | 0 <= i < |queue| :: chans'[queue[i]].builder.frames == chans[queue[i]].builder.frames
    ensures Waiting(chans', queue) == Waiting(chans, queue)
  {
    if queue != [] {
      WaitingUntouched(chans, chans', queue[1..]);
    }
  }

  /** One frame fewer in a channel of the queue is one frame fewer waiting. */
  lemma {:induction false} OneFewer(chans: seq<Chan>, queue: seq<nat>, c: nat, ch: Chan)
    requires Increasing(queue) && c in queue
    requires forall i | 0 <= i < |queue| :: queue[i] < |chans|
    requires |ch.builder.frames| + 1 == |chans[c].builder.frames|
    ensures Waiting(chans[c := ch], queue) + 1 == Waiting(chans, queue)
  {
    if queue[0] == c {
      WaitingUntouched(chans, chans[c := ch], queue[1..]);
    } else {
      OneFewer(chans, queue[1..], c, ch);
    }
  }

  lemma PopProgress(env: Env, s: Manager, c: nat)
    requires QueueOk(env, s) && TxChannelsOk(s) && s.Linked()
    requires c in s.queue && s.chans[c].builder.frames != []
    ensures var s' := s.NextTxData(Some(c)).0;
      && s'.blocks == s.blocks && s'.queue == s.queue && |s'.chans| == |s.chans| && s'.current == s.current
      && OpenCurrent(s') == OpenCurrent(s)
      && Waiting(s'.chans, s'.queue) + 1 == Waiting(s.chans, s.queue)
  {
    OneFewer(s.chans, s.queue, c, s.chans[c].NextTxData().0);
  }

  /** Filling takes blocks off the pile or closes the channel that was open. */
  lemma FillProgress(env: Env, s: Manager, l1Head: U64)
    requires s.Linked() && s.blocks != [] && Fits(env, s.blocks[0])
    ensures var s1 := s.EnsureChannelWithSpace();
      s1.Linked() && s1.current.Some? && s1.current.value < |s1.chans|
    ensures var s1 := s.EnsureChannelWithSpace();
      var c, (s2, ok) := s1.current.value, s1.FillCurrent(env, l1Head);
      ok ==> FilledOrClosed(s, s2, c)
  {
  }

  predicate FilledOrClosed(s: Manager, s2: Manager, c: nat)
    requires s.Linked()
  {
    || |s2.blocks| < |s.blocks|
    || (s2.blocks == s.blocks && OpenCurrent(s) == 1 &&
        c < |s2.chans| && s2.current == Some(c) && s2.chans[c].builder.IsFull())
  }

  /** Every call that hands out a transaction makes progress, if the first pending block fits into
      a fresh channel or the manager is closed. */
  lemma TxDataProgress(env: Env, s: Manager, l1Head: U64)
    requires Inv(env, s) && s.Linked() && (s.closed || s.blocks == [] || Fits(env, s.blocks[0]))
    ensures var (s', r) := s.TxData(env, l1Head); s'.Linked() && (r.Tx? ==> Progress(s, s'))
  {
    TxDataInv(env, s, l1Head);
    if Fills(s) {
      FillPhase(env, s, l1Head);
      FillProgress(env, s, l1Head);
      PopAfterFill(env, s, l1Head);
    } else if FirstWithFrame(s.chans, s.queue).Some? {
      PopProgress(env, s, FirstWithFrame(s.chans, s.queue).value);
    }
  }

  lemma PopAfterFill(env: Env, s: Manager, l1Head: U64)
    requires Inv(env, s) && s.Linked() && Fills(s)
    ensures var (s', r) := s.TxData(env, l1Head);
      var s1 := s.EnsureChannelWithSpace();
      && s1.Linked() && s1.current.Some?
      && var s2 := s1.FillCurrent(env, l1Head).0;
      && s2.Linked() && s'.Linked()
      && (r.Tx? ==> s'.blocks == s2.blocks && s'.current == s2.current && s'.closed == s2.closed &&
                    OpenCurrent(s') == OpenCurrent(s2))
  {
    FillPhase(env, s, l1Head);
    TxDataInv(env, s, l1Head);
    var (s2, ok) := s.EnsureChannelWithSpace().FillCurrent(env, l1Head);
    if ok && s2.chans[s2.current.value].builder.frames != [] {
      PopProgress(env, s2, s2.current.value);
    }
  }

  /** The pending blocks after a call are a rest of those before it, and `closed` stays. */
  lemma TxDataLeavesRest(env: Env, s: Manager, l1Head: U64)
    requires Inv(env, s) && s.Linked()
    ensures var s' := s.TxData(env, l1Head).0;
      && s'.closed == s.closed && (forall b | b in s'.blocks :: b in s.blocks)
      && (s.closed ==> s'.blocks == s.blocks)
  {
    if Fills(s) {
      FillSteps(env, s, l1Head);
      FillLeavesRest(env, s, l1Head);
    }
  }

  lemma FillLeavesRest(env: Env, s: Manager, l1Head: U64)
    requires s.Linked()
    ensures var s1 := s.EnsureChannelWithSpace();
      && s1.Linked() && s1.current.Some?
      && var s2 := s1.FillCurrent(env, l1Head).0;
      s2.closed == s.closed && forall b | b in s2.blocks :: b in s.blocks
  {
  }

  /** Calling `TxData` with the given L1 heads until it hands out nothing more. */
  ghost function Drain(env: Env, s: Manager, heads: nat -> U64, i: nat): (d: (Manager, TxResult))
    requires Inv(env, s) && s.Linked() && (s.closed || AllFit(env, s.blocks))
    ensures Inv(env, d.0) && !d.1.Tx?
    decreases |s.blocks|, OpenCurrent(s), Waiting(s.chans, s.queue)
  {
    TxDataInv(env, s, heads(i));
    TxDataProgress(env, s, heads(i));
    TxDataLeavesRest(env, s, heads(i));
    var (s', r) := s.TxData(env, heads(i));
    if r.Tx? then Drain(env, s', heads, i + 1) else (s', r)
  }

  /** Nothing that could be sent is left: no frame waits in a queued channel and, unless the
      manager is closed, no block is pending. */
  ghost predicate Drained(s: Manager)
    requires s.Linked()
  {
    && (forall i | 0 <= i < |s.queue| :: s.chans[s.queue[i]].builder.frames == [])
    && (s.closed || s.blocks == [])
  }

  lemma FillLeavesOthers(env: Env, s: Manager, l1Head: U64)
    requires s.Linked() && FirstWithFrame(s.chans, s.queue).None?
    ensures var s1 := s.EnsureChannelWithSpace();
      && s1.Linked() && s1.current.Some?
      && var s2 := s1.FillCurrent(env, l1Head).0;
      && |s2.chans| == |s1.chans| && s2.queue == s1.queue && s2.closed == s.closed
      && forall i | 0 <= i < |s1.queue| && s1.queue[i] != s1.current.value :: s2.chans[s1.queue[i]].builder.frames == []
  {
  }

  /** A filled channel without a frame to send has swallowed every pending block. */
  lemma FillWithoutFrames(env: Env, s1: Manager, l1Head: U64)
    requires AllSound(env, s1.chans) && s1.Linked() && s1.current.Some?
    requires !s1.chans[s1.current.value].builder.IsFull()
    ensures var (s2, ok) := s1.FillCurrent(env, l1Head);
      ok && s1.current.value < |s2.chans| && s2.chans[s1.current.value].builder.frames == [] ==> s2.blocks == []
  {
  }

  lemma FillDrains(env: Env, s: Manager, l1Head: U64)
    requires Inv(env, s) && s.Linked() && Fills(s)
    ensures var s1 := s.EnsureChannelWithSpace();
      && s1.Linked() && s1.current.Some?
      && var (s2, ok) := s1.FillCurrent(env, l1Head);
      && s2.Linked() && s2.current.Some?
      && (ok && s2.chans[s2.current.value].builder.frames == [] ==> Drained(s2))
  {
    FillSteps(env, s, l1Head);
    var s1 := s.EnsureChannelWithSpace();
    var (s2, ok) := s1.FillCurrent(env, l1Head);
    if ok && s2.chans[s2.current.value].builder.frames == [] {
      assert s2.blocks == [] by {
        FillPhase(env, s, l1Head);
        FillWithoutFrames(env, s1, l1Head);
      }
      FillLeavesOthers(env, s, l1Head);
    }
  }

  lemma EOFMeansDrained(env: Env, s: Manager, l1Head: U64)
    requires Inv(env, s) && s.Linked()
    ensures var (s', r) := s.TxData(env, l1Head); s'.Linked() && (r.EOF? ==> Drained(s'))
  {
    TxDataInv(env, s, l1Head);
    if Fills(s) {
      FillSteps(env, s, l1Head);
      FillDrains(env, s, l1Head);
    } else {
      EOFWithoutFill(s, env, l1Head);
    }
  }

  lemma EOFWithoutFill(s: Manager, env: Env, l1Head: U64)
    requires s.Linked() && !Fills(s)
    ensures var (s', r) := s.TxData(env, l1Head); r.EOF? ==> s'.Linked() && Drained(s')
  {
  }

  lemma OnlyBrokenFails(env: Env, s: Manager, l1Head: U64)
    requires Inv(env, s) && s.Linked() && AllWhole(env, s.blocks)
    ensures !s.TxData(env, l1Head).1.Failed?
  {
    if Fills(s) {
      FillPhase(env, s, l1Head);
      var s1 := s.EnsureChannelWithSpace();
      NeverBroken(env, s1.chans[s1.current.value].builder, s.blocks);
    }
  }

  lemma FailureFills(env: Env, s: Manager, l1Head: U64)
    requires s.Linked() && s.TxData(env, l1Head).1.Failed?
    ensures Fills(s)
  {
  }

  lemma FailedFillLeaves(env: Env, s: Manager, l1Head: U64)
    requires s.Linked() && s.current.Some? && Process(env, s.chans[s.current.value].builder, s.blocks).failed
    ensures s.FillCurrent(env, l1Head).0.blocks == s.blocks
  {
  }

  lemma FailedFill(env: Env, s: Manager, l1Head: U64) returns (s1: Manager)
    requires Inv(env, s) && s.Linked() && Fills(s) && s.TxData(env, l1Head).1.Failed?
    ensures s1.Linked() && s1.current.Some? && s1.blocks == s.blocks
    ensures Process(env, s1.chans[s1.current.value].builder, s1.blocks).failed
    ensures s.TxData(env, l1Head).0 == s1.FillCurrent(env, l1Head).0
  {
    var s2, ok;
    s1, s2, ok := FillParts(env, s, l1Head);
    NeverFails(s2);
  }

  /** The two steps of filling, and what the request then comes to. */
  lemma FillParts(env: Env, s: Manager, l1Head: U64) returns (s1: Manager, s2: Manager, ok: bool)
    requires Inv(env, s) && s.Linked() && Fills(s)
    ensures s1.Linked() && s1.current.Some? && s1.blocks == s.blocks && s1.current.value < |s1.chans|
    ensures (s2, ok) == s1.FillCurrent(env, l1Head) && s2.Linked()
    ensures ok <==> !Process(env, s1.chans[s1.current.value].builder, s1.blocks).failed
    ensures s.TxData(env, l1Head) == if ok then s2.NextTxData(s2.current) else (s2, Failed)
  {
    FillPhase(env, s, l1Head);
    s1 := s.EnsureChannelWithSpace();
    s2, ok := s1.FillCurrent(env, l1Head).0, s1.FillCurrent(env, l1Head).1;
  }

  lemma NeverFails(s: Manager)
    requires s.Linked()
    ensures !s.NextTxData(s.current).1.Failed?
  {
  }

  lemma FailureLeaves(env: Env, s: Manager, l1Head: U64)
    requires Inv(env, s) && s.Linked() && s.TxData(env, l1Head).1.Failed?
    ensures s.TxData(env, l1Head).0.blocks == s.blocks
  {
    FailureFills(env, s, l1Head);
    var s1 := FailedFill(env, s, l1Head);
    FailedFillLeaves(env, s1, l1Head);
  }

  /** A failed request leaves the broken block pending. */
  lemma FailureIsBroken(env: Env, s: Manager, l1Head: U64)
    requires Inv(env, s) && s.Linked()
    ensures var (s', r) := s.TxData(env, l1Head); r.Failed? ==> !AllWhole(env, s'.blocks)
  {
    if s.TxData(env, l1Head).1.Failed? {
      FailureLeaves(env, s, l1Head);
      if AllWhole(env, s.blocks) { OnlyBrokenFails(env, s, l1Head); }
    }
  }

  lemma {:induction false} NeverBroken(env: Env, b: Builder, blocks: seq<Block>)
    requires AllWhole(env, blocks)
    ensures !Process(env, b, blocks).failed
    decreases blocks
  {
    if blocks != [] {
      assert Whole(env, blocks[0]);
      NeverBroken(env, b.AddBlock(env, blocks[0]).0, blocks[1..]);
    }
  }

  /** The publish loop ends when the manager is closed or all pending blocks fit into fresh
      channels, whatever L1 heads it sees. When no pending block is broken it ends with io.EOF, and
      then everything that could be sent has been handed out. */
  lemma {:induction false} PublishLoopEnds(env: Env, s: Manager, heads: nat -> U64, i: nat)
    requires Inv(env, s) && s.Linked() && (s.closed || AllFit(env, s.blocks))
    ensures var d := Drain(env, s, heads, i);
      && d.0.Linked()
      && (d.1.EOF? ==> Drained(d.0))
      && (s.closed || AllWhole(env, s.blocks) ==> d.1.EOF?)
    decreases |s.blocks|, OpenCurrent(s), Waiting(s.chans, s.queue)
  {
    var (s', r) := s.TxData(env, heads(i));
    TxDataInv(env, s, heads(i));
    TxDataProgress(env, s, heads(i));
    TxDataLeavesRest(env, s, heads(i));
    EOFMeansDrained(env, s, heads(i));
    if AllWhole(env, s.blocks) { OnlyBrokenFails(env, s, heads(i)); }
    if r.Tx? {
      PublishLoopEnds(env, s', heads, i + 1);
    }
  }

  /** What a request in state `s` comes to, with the L1 head of round `i`. */
  ghost function Asks(env: Env, heads: nat -> U64): (Manager, nat) -> (Manager, TxResult) {
    (s: Manager, i: nat) => if s.Linked() then s.TxData(env, heads(i)) else (s, Failed)
  }

  /** The loop ends with io.EOF after `n` transactions. */
  ghost predicate EndsAfter(ask: (Manager, nat) -> (Manager, TxResult), s: Manager, i: nat, n: nat)
    decreases n
  {
    var (s', r) := ask(s, i);
    if n == 0 then r.EOF? else r.Tx? && EndsAfter(ask, s', i + 1, n - 1)
  }

  /** The publish loop ends with io.EOF. */
  ghost predicate Ends(env: Env, s: Manager, heads: nat -> U64) {
    exists n: nat :: EndsAfter(Asks(env, heads), s, 0, n)
  }

  /** A state from which every request hands out a transaction and leads to such a state again
      never sees the end. */
  lemma {:induction false} NeverEnds(ask: (Manager, nat) -> (Manager, TxResult), jam: Manager -> bool, s: Manager, i: nat, n: nat)
    requires jam(s) && forall t, k :: jam(t) ==> ask(t, k).1.Tx? && jam(ask(t, k).0)
    ensures !EndsAfter(ask, s, i, n)
    decreases n
  {
    if n > 0 {
      NeverEnds(ask, jam, ask(s, i).0, i + 1, n - 1);
    }
  }

  /** Nothing fails, and fitting whole blocks stay so. */
  ghost predicate Draining(env: Env, s: Manager) {
    s.closed || (AllFit(env, s.blocks) && AllWhole(env, s.blocks))
  }

  lemma DrainStep(env: Env, s: Manager, l1Head: U64) returns (s': Manager, r: TxResult)
    requires Inv(env, s) && s.Linked() && Draining(env, s)
    ensures (s', r) == s.TxData(env, l1Head) && Inv(env, s') && s'.Linked() && Draining(env, s')
    ensures r.EOF? || (r.Tx? && Progress(s, s'))
  {
    s', r := s.TxData(env, l1Head).0, s.TxData(env, l1Head).1;
    TxDataInv(env, s, l1Head);
    assert r.Tx? ==> Progress(s, s') by { TxDataProgress(env, s, l1Head); }
    TxDataLeavesRest(env, s, l1Head);
    assert !r.Failed? by {
      if !s.closed { OnlyBrokenFails(env, s, l1Head); }
    }
  }

  lemma {:induction false} DrainEnds(env: Env, s: Manager, heads: nat -> U64, i: nat) returns (n: nat)
    requires Inv(env, s) && s.Linked() && Draining(env, s)
    ensures EndsAfter(Asks(env, heads), s, i, n)
    decreases |s.blocks|, OpenCurrent(s), Waiting(s.chans, s.queue)
  {
    var s', r := DrainStep(env, s, heads(i));
    if r.Tx? {
      n := DrainEnds(env, s', heads, i + 1);
      n := n + 1;
    } else {
      n := 0;
    }
  }

  /** Feeding never gets past a block that no channel takes. */
  lemma {:induction false} StopsAtOversized(env: Env, b: Builder, blocks: seq<Block>, block: Block)
    requires block in blocks && Oversized(env, block)
    ensures block in blocks[Process(env, b, blocks).added..]
    decreases blocks
  {
    if blocks[0] != block && b.AddBlock(env, blocks[0]).1 == Added && !b.AddBlock(env, blocks[0]).0.IsFull() {
      StopsAtOversized(env, b.AddBlock(env, blocks[0]).0, blocks[1..], block);
      assert blocks[Process(env, b, blocks).added..] ==
        blocks[1..][Process(env, b.AddBlock(env, blocks[0]).0, blocks[1..]).added..];
    }
  }

  /** While an oversized block is pending, and none is broken, an open manager always hands out
      another transaction, and the block stays pending. */
  lemma OversizedHandsOut(env: Env, s: Manager, block: Block, l1Head: U64)
    requires Inv(env, s) && s.Linked() && !s.closed && AllWhole(env, s.blocks)
    requires block in s.blocks && Oversized(env, block)
    ensures var (s', r) := s.TxData(env, l1Head); r.Tx? && block in s'.blocks
  {
    OnlyBrokenFails(env, s, l1Head);
    EOFMeansDrained(env, s, l1Head);
    TxDataLeavesRest(env, s, l1Head);
    OversizedStays(env, s, block, l1Head);
  }

  lemma OversizedStays(env: Env, s: Manager, block: Block, l1Head: U64)
    requires Inv(env, s) && s.Linked() && block in s.blocks && Oversized(env, block)
    ensures block in s.TxData(env, l1Head).0.blocks
  {
    if Fills(s) {
      var s1, s2, ok := FillParts(env, s, l1Head);
      StopsAtOversized(env, s1.chans[s1.current.value].builder, s1.blocks, block);
    }
  }

  /** An open manager with an oversized block and no broken one. */
  ghost predicate Jammed(env: Env, s: Manager, block: Block) {
    Inv(env, s) && s.Linked() && !s.closed && AllWhole(env, s.blocks) && block in s.blocks && Oversized(env, block)
  }

  lemma StaysJammed(env: Env, s: Manager, block: Block, l1Head: U64)
    requires Jammed(env, s, block)
    ensures var (s', r) := s.TxData(env, l1Head); r.Tx? && Jammed(env, s', block)
  {
    OversizedHandsOut(env, s, block, l1Head);
    TxDataInv(env, s, l1Head);
    TxDataLeavesRest(env, s, l1Head);
  }

  lemma JammedNeverEnds(env: Env, s: Manager, block: Block, heads: nat -> U64)
    requires Jammed(env, s, block)
    ensures !Ends(env, s, heads)
  {
    var jam: Manager -> bool := t => Jammed(env, t, block);
    forall t, k: nat | jam(t) ensures Asks(env, heads)(t, k).1.Tx? && jam(Asks(env, heads)(t, k).0) {
      StaysJammed(env, t, block, heads(k));
    }
    forall n: nat ensures !EndsAfter(Asks(env, heads), s, 0, n) {
      NeverEnds(Asks(env, heads), jam, s, 0, n);
    }
  }

  /** When what one fresh channel turns down every channel turns down, as the source's channel
      output does by size, and no pending block is broken, the publish loop ends with io.EOF if and
      only if the manager is closed or no pending block is oversized. */
  lemma PublishLoopEndsIff(env: Env, s: Manager, heads: nat -> U64)
    requires Inv(env, s) && s.Linked()
    requires forall b | b in s.blocks :: Whole(env, b) && (Fits(env, b) || Oversized(env, b))
    ensures Ends(env, s, heads) <==> (s.closed || forall b | b in s.blocks :: !Oversized(env, b))
  {
    if s.closed || forall b | b in s.blocks :: !Oversized(env, b) {
      FittingEnds(env, s, heads);
    } else {
      var b :| b in s.blocks && Oversized(env, b);
      JammedNeverEnds(env, s, b, heads);
    }
  }

  lemma FittingEnds(env: Env, s: Manager, heads: nat -> U64)
    requires Inv(env, s) && s.Linked() && (s.closed || (AllFit(env, s.blocks) && AllWhole(env, s.blocks)))
    ensures Ends(env, s, heads)
  {
    var n := DrainEnds(env, s, heads, 0);
  }

  /** After `Close` a call of `TxData` creates no channel and moves no block. It takes one frame
      from the queue, or there was none. */
  lemma ClosedTxData(env: Env, s: Manager, l1Head: U64)
    requires Inv(env, s) && s.Linked() && s.closed
    ensures var (s', r) := s.TxData(env, l1Head);
      && |s'.chans| == |s.chans| && s'.blocks == s.blocks && s'.queue == s.queue && s'.closed && s'.Linked()
      && (if r.Tx? then Waiting(s'.chans, s'.queue) + 1 == Waiting(s.chans, s.queue)
          else s' == s && r == EOF && Waiting(s.chans, s.queue) == 0)
  {
    TxDataInv(env, s, l1Head);
    var first := FirstWithFrame(s.chans, s.queue);
    if first.Some? {
      PopProgress(env, s, first.value);
    } else {
      NoneWaiting(s.chans, s.queue);
    }
  }

  lemma {:induction false} NoneWaiting(chans: seq<Chan>, queue: seq<nat>)
    requires forall i | 0 <= i < |queue| :: queue[i] < |chans| && chans[queue[i]].builder.frames == []
    ensures Waiting(chans, queue) == 0
  {
    if queue != [] {
      NoneWaiting(chans, queue[1..]);
    }
  }

  /** The condition on fresh channels is needed: with a pending block that every fresh channel
      turns down the manager opens channel after channel and never comes to an end. */
  ghost predicate Stuck(env: Env, s: Manager, block: Block) {
    && s.Linked() && !s.closed && s.blocks != [] && s.blocks[0] == block && OpenCurrent(s) == 0
    && forall id :: env.codec.accept(id, [], block).Rejected?
  }

  lemma StuckStays(env: Env, s: Manager, block: Block, l1Head: U64)
    requires Inv(env, s) && Stuck(env, s, block)
    ensures var (s', r) := s.TxData(env, l1Head); r.Tx? && Inv(env, s') && Stuck(env, s', block)
  {
    TxDataInv(env, s, l1Head);
    if Fills(s) {
      FillPhase(env, s, l1Head);
      RejectedFill(env, s, block, l1Head);
      PopAfterFill(env, s, l1Head);
    } else {
      PopProgress(env, s, FirstWithFrame(s.chans, s.queue).value);
    }
  }

  lemma RejectedFill(env: Env, s: Manager, block: Block, l1Head: U64)
    requires Stuck(env, s, block) && s.EnsureChannelWithSpace().Linked()
    ensures var s1 := s.EnsureChannelWithSpace();
      var (s2, ok) := s1.FillCurrent(env, l1Head);
      && ok && s2.blocks == s.blocks && !s2.closed && s2.current == s1.current == Some(|s.chans|)
      && |s2.chans| == |s.chans| + 1 && s2.chans[|s.chans|].builder.IsFull()
      && s2.chans[|s.chans|].builder.frames != []
  {
  }

  /** `n` calls in a row all hand out a transaction. */
  ghost predicate HandsOut(env: Env, s: Manager, l1Head: U64, n: nat)
    requires s.Linked()
    decreases n
  {
    n > 0 ==>
      var (s', r) := s.TxData(env, l1Head);
      r.Tx? && s'.Linked() && HandsOut(env, s', l1Head, n - 1)
  }

  lemma {:induction false} EndlessWhenRejected(env: Env, s: Manager, block: Block, l1Head: U64, n: nat)
    requires Inv(env, s) && Stuck(env, s, block)
    ensures HandsOut(env, s, l1Head, n)
    decreases n
  {
    if n > 0 {
      StuckStays(env, s, block, l1Head);
      EndlessWhenRejected(env, s.TxData(env, l1Head).0, block, l1Head, n - 1);
    }
  }

  /** Accepting such a block is enough to get there: one call into a run. */
  lemma StuckIsReached(env: Env, block: Block)
    requires forall id :: env.codec.accept(id, [], block).Rejected?
    ensures Stuck(env, Run(env, [AddL2Block(block)]), block)
  {
    var ops := [AddL2Block(block)];
    assert ops[..|ops| - 1] == [];
    assert Run(env, []) == NewManager();
    assert Run(env, ops) == NewManager().AddL2Block(block).0;
  }
}
