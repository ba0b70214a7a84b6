/** What the calls come to, told by frames, confirmations and L1 blocks alone: which channel a request
    serves, what a failure and a late confirmation do, and what is never sent again. */
module ManagerOutcomes {
  import opened Options
  import opened BatcherTypes
  import opened Words
  import opened ChannelBuilders
  import opened Channels
  import opened CloseSweep
  import opened ManagerSpec
  import opened ManagerRuns

  /** Failures. */

  /** The failed transaction was all that its channel had submitted, and the manager is closed. */
  ghost predicate LastOfClosed(s: Manager, id: FrameID)
    requires TxChannelsOk(s) && id in s.txChannels
  {
    s.closed && s.chans[id.chID].confirmed == map[] && s.chans[id.chID].pending.Keys == {id}
  }

  /** A failed transaction's frame waits again, behind the others of its channel. Only a closed
      manager drops a channel over it, exactly the one that has then submitted nothing. */
  lemma FailureEffect(env: Env, s: Manager, id: FrameID)
    requires Inv(env, s) && s.Linked() && id in s.txChannels
    ensures var s', c := s.TxFailed(id), id.chID;
      && s' == s.(queue := s'.queue, current := s'.current, txChannels := s.txChannels - {id}, chans := s'.chans)
      && |s'.chans| == |s.chans| && (forall d | 0 <= d < |s.chans| && d != c :: s'.chans[d] == s.chans[d])
      && WaitsAgain(s.chans[c], s'.chans[c], id)
  {
    FailedIsRequeued(s, s.TxFailed(id), id);
    RequeueEffect(s, s.TxFailed(id), id);
  }

  lemma RequeueEffect(s: Manager, s': Manager, id: FrameID)
    requires TxChannelsOk(s) && id in s.txChannels && s' == s.Requeue(id).(queue := s'.queue, current := s'.current)
    ensures s' == s.(queue := s'.queue, current := s'.current, txChannels := s.txChannels - {id}, chans := s'.chans)
    ensures |s'.chans| == |s.chans| && forall d | 0 <= d < |s.chans| && d != id.chID :: s'.chans[d] == s.chans[d]
    ensures WaitsAgain(s.chans[id.chID], s'.chans[id.chID], id)
  {
  }

  /** The frame of transaction `id` waits again, behind the others. */
  predicate WaitsAgain(ch: Chan, ch': Chan, id: FrameID) {
    && id in ch.pending
    && ch'.builder == ch.builder.(frames := ch.builder.frames + [ch.pending[id]])
    && ch'.pending == ch.pending - {id} && ch'.confirmed == ch.confirmed
  }

  lemma FailedIsRequeued(s: Manager, s': Manager, id: FrameID)
    requires s.Linked() && id in s.txChannels && s' == s.TxFailed(id)
    ensures s' == s.Requeue(id).(queue := s'.queue, current := s'.current)
  {
  }

  lemma FailureQueue(env: Env, s: Manager, id: FrameID)
    requires Inv(env, s) && s.Linked() && id in s.txChannels
    ensures var s' := s.TxFailed(id);
      && Increasing(s'.queue)
      && (forall d :: d in s'.queue <==> d in s.queue && !(d == id.chID && LastOfClosed(s, id)))
      && s'.current == (if s.current == Some(id.chID) && LastOfClosed(s, id) then None else s.current)
  {
    RequeueKeeps(env, s, id);
    NothingLeft(s, id);
    RequeuedQueue(env, s, s.Requeue(id), id);
  }

  lemma RequeuedQueue(env: Env, s: Manager, s1: Manager, id: FrameID)
    requires TxChannelsOk(s) && id in s.txChannels && QueueOk(env, s1) && s1.queue == s.queue && s1.current == s.current
    ensures var s' := if LastOfClosed(s, id) then s1.Remove(id.chID) else s1;
      && Increasing(s'.queue)
      && (forall d :: d in s'.queue <==> d in s.queue && !(d == id.chID && LastOfClosed(s, id)))
      && s'.current == (if s.current == Some(id.chID) && LastOfClosed(s, id) then None else s.current)
  {
    if LastOfClosed(s, id) {
      RemoveQueueOk(env, s1, id.chID);
    }
  }

  lemma NothingLeft(s: Manager, id: FrameID)
    requires TxChannelsOk(s) && s.Linked() && id in s.txChannels
    ensures s.closed && s.Requeue(id).chans[id.chID].NoneSubmitted() <==> LastOfClosed(s, id)
  {
    var ch := s.chans[id.chID];
    assert |ch.pending - {id}| == 0 <==> ch.pending.Keys == {id};
  }

  ghost predicate Gone(s: Manager, c: nat) {
    c < |s.chans| && c !in s.queue
  }

  /** A channel that left the queue never comes back. */
  lemma GoneStays(env: Env, s: Manager, s': Manager, op: Op, c: nat)
    requires Inv(env, s) && s.Linked() && Gone(s, c) && s' == Step(env, s, op)
    ensures Gone(s', c)
  {
    match op
    case AddL2Block(_) =>
    case Clear =>
    case TxData(l1Head) => TxDataQueue(env, s, l1Head);
    case TxFailed(id) => FailedQueue(env, s, id);
    case TxConfirmed(id, l1Block) => ConfirmedQueue(env, s, id, l1Block);
    case Close => ClosedQueue(env, s);
  }

  lemma FailedQueue(env: Env, s: Manager, id: FrameID)
    requires Inv(env, s) && s.Linked()
    ensures var s' := s.TxFailed(id); |s'.chans| == |s.chans| && forall d | d in s'.queue :: d in s.queue
  {
    if id in s.txChannels {
      FailureEffect(env, s, id);
      FailureQueue(env, s, id);
    }
  }

  lemma TxDataQueue(env: Env, s: Manager, l1Head: U64)
    requires Inv(env, s) && s.Linked()
    ensures var s' := s.TxData(env, l1Head).0;
      |s'.chans| >= |s.chans| && (s'.queue == s.queue || s'.queue == s.queue + [|s.chans|])
  {
    if Fills(s) {
      var s2, ok, c := FilledQueue(env, s, l1Head);
      NextTxDataSame(s2, Some(c));
    } else {
      NextTxDataSame(s, FirstWithFrame(s.chans, s.queue));
    }
  }

  lemma FilledQueue(env: Env, s: Manager, l1Head: U64) returns (s2: Manager, ok: bool, c: nat)
    requires Inv(env, s) && s.Linked() && Fills(s)
    ensures c < |s2.chans| && |s2.chans| >= |s.chans| && c in s2.queue && s2.chans[c].Sound(env, c)
    ensures s2.queue == s.queue || s2.queue == s.queue + [|s.chans|]
    ensures s.TxData(env, l1Head) == if ok then s2.NextTxData(Some(c)) else (s2, Failed)
  {
    var s1;
    s1, s2, ok, c := FillStates(env, s, l1Head);
  }

  lemma ConfirmedQueue(env: Env, s: Manager, id: FrameID, l1Block: U64)
    requires Inv(env, s) && s.Linked()
    ensures var s' := s.TxConfirmed(env, id, l1Block); |s'.chans| == |s.chans| && forall d | d in s'.queue :: d in s.queue
  {
    if id in s.txChannels {
      TxConfirmedInv(env, s, id, l1Block);
      ConfirmEffect(env, s, id, l1Block);
    }
  }

  lemma ClosedQueue(env: Env, s: Manager)
    requires Inv(env, s) && s.Linked()
    ensures var s' := s.Close(env).0; |s'.chans| == |s.chans| && forall d | d in s'.queue :: d in s.queue
  {
    if !s.closed {
      SweptIsSurvivors(env, s);
    }
  }

  lemma GoneForGood(env: Env, ops: seq<Op>, more: seq<Op>, c: nat)
    requires Gone(Run(env, ops), c)
    ensures Gone(Run(env, ops + more), c)
  {
    var run, good := (before: seq<Op>) => Run(env, before), (m: Manager) => Gone(m, c);
    forall before, op | op in more && good(run(before)) ensures good(run(before + [op])) {
      GoneNext(env, before, op, c);
    }
    Along(run, good, ops, more);
  }

  lemma GoneNext(env: Env, ops: seq<Op>, op: Op, c: nat)
    requires Gone(Run(env, ops), c)
    ensures Gone(Run(env, ops + [op]), c)
  {
    RunSnoc(env, ops, op);
    GoneStays(env, Run(env, ops), Run(env, ops + [op]), op, c);
  }

  /** Requests. */

  /** The first queued channel that has a frame waiting. */
  ghost predicate FirstReady(s: Manager, i: nat)
    requires s.Linked()
  {
    && i < |s.queue| && s.chans[s.queue[i]].builder.frames != []
    && forall j | 0 <= j < i :: s.chans[s.queue[j]].builder.frames == []
  }

  lemma {:induction false} FoundFirst(chans: seq<Chan>, queue: seq<nat>, i: nat)
    requires (forall j | 0 <= j < |queue| :: queue[j] < |chans|) && i < |queue|
    requires chans[queue[i]].builder.frames != [] && forall j | 0 <= j < i :: chans[queue[j]].builder.frames == []
    ensures FirstWithFrame(chans, queue) == Some(queue[i])
    decreases i
  {
    if i > 0 {
      forall j | 0 <= j < i - 1 ensures chans[queue[1..][j]].builder.frames == [] {
        assert queue[1..][j] == queue[j + 1];
      }
      FoundFirst(chans, queue[1..], i - 1);
    }
  }

  /** A request serves the oldest queued channel with a frame waiting, and hands out the frame that
      has waited longest there. */
  lemma ServesFirst(env: Env, s: Manager, l1Head: U64, i: nat)
    requires Inv(env, s) && s.Linked() && FirstReady(s, i)
    ensures var c := s.queue[i];
      var (s', r) := s.TxData(env, l1Head);
      var frame := s.chans[c].builder.frames[0];
      && r == Tx(frame) && frame.id.chID == c
      && s' == s.(chans := s'.chans, txChannels := s.txChannels[frame.id := c])
      && |s'.chans| == |s.chans| && (forall d | 0 <= d < |s.chans| && d != c :: s'.chans[d] == s.chans[d])
      && s'.chans[c].builder == s.chans[c].builder.(frames := s.chans[c].builder.frames[1..])
      && s'.chans[c].pending == s.chans[c].pending[frame.id := frame] && s'.chans[c].confirmed == s.chans[c].confirmed
  {
    FoundFirst(s.chans, s.queue, i);
    assert s.chans[s.queue[i]].Sound(env, s.queue[i]);
  }

  /** What is handed out is of a queued channel, or of the one created for it. */
  lemma ServesQueued(env: Env, s: Manager, l1Head: U64)
    requires Inv(env, s) && s.Linked()
    ensures var (s', r) := s.TxData(env, l1Head); r.Tx? ==> r.frame.id.chID in s'.queue
  {
    if Fills(s) {
      FillServes(env, s, l1Head);
    } else {
      var first := FirstWithFrame(s.chans, s.queue);
      if first.Some? {
        assert s.chans[first.value].Sound(env, first.value);
      }
    }
  }

  lemma FillServes(env: Env, s: Manager, l1Head: U64)
    requires Inv(env, s) && s.Linked() && Fills(s)
    ensures var (s', r) := s.TxData(env, l1Head); r.Tx? ==> r.frame.id.chID in s'.queue
  {
    var s2, ok, c := FilledQueue(env, s, l1Head);
    NextTxDataSame(s2, Some(c));
  }

  /** So no frame of a channel that left the queue is ever handed out again, whatever is called. */
  lemma NeverSentAgain(env: Env, ops: seq<Op>, more: seq<Op>, c: nat, l1Head: U64)
    requires Gone(Run(env, ops), c)
    ensures var r := Run(env, ops + more).TxData(env, l1Head).1; r.Tx? ==> r.frame.id.chID != c
  {
    GoneForGood(env, ops, more, c);
    var s := Run(env, ops + more);
    ServesQueued(env, s, l1Head);
    TxDataQueue(env, s, l1Head);
  }

  /** In particular: when, after closing, the one transaction in flight of a channel without
      confirmations fails, nothing of that channel is ever sent again. */
  lemma FailedAfterClose(env: Env, ops: seq<Op>, id: FrameID, more: seq<Op>, l1Head: U64)
    requires id in Run(env, ops).txChannels && LastOfClosed(Run(env, ops), id)
    ensures var r := Run(env, ops + [TxFailed(id)] + more).TxData(env, l1Head).1; r.Tx? ==> r.frame.id.chID != id.chID
  {
    RunSnoc(env, ops, TxFailed(id));
    FailureEffect(env, Run(env, ops), id);
    FailureQueue(env, Run(env, ops), id);
    NeverSentAgain(env, ops + [TxFailed(id)], more, id.chID, l1Head);
  }

  /** The order of frames. */

  /** The frames waiting are the latest ones put out, in their order. */
  predicate Consecutive(b: Builder) {
    && |b.frames| <= b.numFrames
    && forall i | 0 <= i < |b.frames| :: b.frames[i].id == FrameID(b.id, b.numFrames - |b.frames| + i)
  }

  predicate AllConsecutive(chans: seq<Chan>) {
    forall c | 0 <= c < |chans| :: Consecutive(chans[c].builder)
  }

  lemma AppendConsecutive(env: Env, b: Builder, k: nat)
    requires Consecutive(b)
    ensures Consecutive(b.Append(env, k))
  {
  }

  lemma OutputConsecutive(env: Env, b: Builder)
    requires Consecutive(b)
    ensures Consecutive(b.OutputFrames(env).0)
  {
    AppendConsecutive(env, b, env.codec.ready(b.id, b.blocks, b.numFrames));
    AppendConsecutive(env, b, env.codec.rest(b.id, b.blocks, b.numFrames) + 1);
  }

  lemma FillConsecutive(env: Env, s: Manager, l1Head: U64)
    requires s.Linked() && s.current.Some? && AllConsecutive(s.chans)
    ensures AllConsecutive(s.FillCurrent(env, l1Head).0.chans)
  {
    var p := Process(env, s.chans[s.current.value].builder, s.blocks);
    OutputConsecutive(env, p.builder.RegisterL1Block(env, l1Head));
  }

  lemma PopConsecutive(s: Manager, c: Option<nat>)
    requires (c.Some? ==> c.value < |s.chans|) && AllConsecutive(s.chans)
    ensures AllConsecutive(s.NextTxData(c).0.chans)
  {
  }

  lemma TxDataConsecutive(env: Env, s: Manager, l1Head: U64)
    requires Inv(env, s) && s.Linked() && AllConsecutive(s.chans)
    ensures AllConsecutive(s.TxData(env, l1Head).0.chans)
  {
    if Fills(s) {
      var s2, ok, c := FilledConsecutive(env, s, l1Head);
      PopConsecutive(s2, Some(c));
    } else {
      PopConsecutive(s, FirstWithFrame(s.chans, s.queue));
    }
  }

  lemma StepConsecutive(env: Env, s: Manager, s': Manager, op: Op)
    requires Inv(env, s) && s.Linked() && AllConsecutive(s.chans) && !op.TxFailed? && s' == Step(env, s, op)
    ensures AllConsecutive(s'.chans)
  {
    match op
    case AddL2Block(_) =>
    case Clear =>
    case TxData(l1Head) => TxDataConsecutive(env, s, l1Head);
    case TxConfirmed(id, l1Block) => ConfirmConsecutive(env, s, id, l1Block);
    case Close => CloseConsecutive(env, s);
  }

  lemma ConfirmConsecutive(env: Env, s: Manager, id: FrameID, l1Block: U64)
    requires Inv(env, s) && s.Linked() && AllConsecutive(s.chans)
    ensures AllConsecutive(s.TxConfirmed(env, id, l1Block).chans)
  {
    if id in s.txChannels {
      ConfirmEffect(env, s, id, l1Block);
      BookedConsecutive(env, s.chans, s.TxConfirmed(env, id, l1Block).chans, id, l1Block);
    }
  }

  lemma BookedConsecutive(env: Env, chans: seq<Chan>, chans': seq<Chan>, id: FrameID, l1Block: U64)
    requires id.chID < |chans| && chans' == chans[id.chID := chans[id.chID].Confirm(env, id, l1Block)] && AllConsecutive(chans)
    ensures AllConsecutive(chans')
  {
  }

  lemma CloseConsecutive(env: Env, s: Manager)
    requires s.Linked() && AllConsecutive(s.chans)
    ensures AllConsecutive(s.Close(env).0.chans)
  {
    if s.current.Some? {
      OutputConsecutive(env, s.chans[s.current.value].builder.Close());
    }
  }

  lemma {:induction false} RunConsecutive(env: Env, ops: seq<Op>)
    requires forall i | 0 <= i < |ops| :: !ops[i].TxFailed?
    ensures AllConsecutive(Run(env, ops).chans)
  {
    if ops != [] {
      RunConsecutive(env, ops[..|ops| - 1]);
      StepConsecutive(env, Run(env, ops[..|ops| - 1]), Run(env, ops), ops[|ops| - 1]);
    }
  }

  /** What is handed out next of a channel has as its number how many frames of the channel are in
      flight or confirmed. */
  predicate InOrder(chans: seq<Chan>, r: TxResult) {
    r.Tx? ==>
      var c := r.frame.id.chID;
      r.frame.id.number == if c < |chans| then |chans[c].pending| + |chans[c].confirmed| else 0
  }

  /** On every run without failures the frames of a channel are handed out in their order. */
  lemma FramesInOrder(env: Env, ops: seq<Op>, l1Head: U64)
    requires forall i | 0 <= i < |ops| :: !ops[i].TxFailed?
    ensures InOrder(Run(env, ops).chans, Run(env, ops).TxData(env, l1Head).1)
  {
    var s := Run(env, ops);
    RunConsecutive(env, ops);
    if Fills(s) {
      FillInOrder(env, s, l1Head);
    } else {
      var first := FirstWithFrame(s.chans, s.queue);
      if first.Some? {
        PoppedInOrder(env, s, first.value);
      }
    }
  }

  /** The states on the way through a request that fills a channel, and the channel it fills. */
  lemma FillStates(env: Env, s: Manager, l1Head: U64) returns (s1: Manager, s2: Manager, ok: bool, c: nat)
    requires Inv(env, s) && s.Linked() && Fills(s)
    ensures s1.Linked() && s1 == s.EnsureChannelWithSpace() && s1.current == Some(c) && c < |s1.chans|
    ensures s1.chans == (if c < |s.chans| then s.chans else s.chans + [NewChan(c)]) && s1.chans[c].builder.id == c
    ensures !s1.chans[c].builder.IsFull()
    ensures (s2, ok) == s1.FillCurrent(env, l1Head) && s2.current == Some(c) && c < |s2.chans| && s2.chans[c].Sound(env, c)
    ensures s2.chans[c].pending == s1.chans[c].pending && s2.chans[c].confirmed == s1.chans[c].confirmed
    ensures s2.queue == s1.queue && |s2.chans| == |s1.chans| && c in s2.queue
    ensures s1.queue == if c < |s.chans| then s.queue else s.queue + [|s.chans|]
    ensures s.TxData(env, l1Head) == if ok then s2.NextTxData(Some(c)) else (s2, Failed)
  {
    FillPhase(env, s, l1Head);
    EnsureInv(env, s);
    s1 := s.EnsureChannelWithSpace();
    c := s1.current.value;
    s2, ok := s1.FillCurrent(env, l1Head).0, s1.FillCurrent(env, l1Head).1;
    assert s1.chans[c].Sound(env, c);
  }

  lemma FillInOrder(env: Env, s: Manager, l1Head: U64)
    requires Inv(env, s) && s.Linked() && Fills(s) && AllConsecutive(s.chans)
    ensures InOrder(s.chans, s.TxData(env, l1Head).1)
  {
    var s2, ok, c := FilledConsecutive(env, s, l1Head);
    PoppedInOrder(env, s2, c);
    NewInOrder(s.chans, s2.chans, c, s2.NextTxData(Some(c)).1);
  }

  lemma FilledConsecutive(env: Env, s: Manager, l1Head: U64) returns (s2: Manager, ok: bool, c: nat)
    requires Inv(env, s) && s.Linked() && Fills(s) && AllConsecutive(s.chans)
    ensures c < |s2.chans| && s2.chans[c].Sound(env, c) && AllConsecutive(s2.chans)
    ensures if c < |s.chans| then s2.chans[c].pending == s.chans[c].pending && s2.chans[c].confirmed == s.chans[c].confirmed
            else s2.chans[c].pending == map[] && s2.chans[c].confirmed == map[]
    ensures s.TxData(env, l1Head) == if ok then s2.NextTxData(Some(c)) else (s2, Failed)
  {
    var s1;
    s1, s2, ok, c := FillStates(env, s, l1Head);
    StillConsecutive(s.chans, s1.chans, c);
    FillConsecutive(env, s1, l1Head);
  }

  lemma StillConsecutive(chans: seq<Chan>, chans': seq<Chan>, c: nat)
    requires AllConsecutive(chans) && chans' == if c < |chans| then chans else chans + [NewChan(c)]
    ensures AllConsecutive(chans')
  {
  }

  lemma NewInOrder(chans: seq<Chan>, chans': seq<Chan>, c: nat, r: TxResult)
    requires c < |chans'|
    requires if c < |chans| then chans'[c].pending == chans[c].pending && chans'[c].confirmed == chans[c].confirmed
             else chans'[c].pending == map[] && chans'[c].confirmed == map[]
    requires r.Tx? ==> r.frame.id == FrameID(c, |chans'[c].pending| + |chans'[c].confirmed|)
    ensures InOrder(chans, r)
  {
  }

  lemma PoppedInOrder(env: Env, s: Manager, c: nat)
    requires c < |s.chans| && s.chans[c].Sound(env, c) && Consecutive(s.chans[c].builder)
    ensures var r := s.NextTxData(Some(c)).1;
      r.Tx? ==> r.frame.id == FrameID(c, |s.chans[c].pending| + |s.chans[c].confirmed|)
  {
    FramesAddUp(env, c, s.chans[c]);
  }

  /** Confirmations. */

  /** With one more confirmation, two lie the channel timeout or more apart. */
  ghost predicate Late(env: Env, s: Manager, id: FrameID, l1Block: U64)
    requires TxChannelsOk(s) && id in s.txChannels
  {
    var confirmed := s.chans[id.chID].confirmed[id := l1Block];
    exists a, b :: a in confirmed && b in confirmed && confirmed[a] - confirmed[b] >= env.cfg.channelTimeout
  }

  /** A confirmation that comes too late after another one, or too early before it, takes the
      channel out of the queue and its blocks back. Any other one leaves the blocks, and takes the
      channel out exactly when it was closed, with nothing waiting and nothing else in flight. */
  lemma ConfirmationOutcome(env: Env, s: Manager, id: FrameID, l1Block: U64)
    requires Inv(env, s) && s.Linked() && id in s.txChannels
    ensures var s', c, ch := s.TxConfirmed(env, id, l1Block), id.chID, s.chans[id.chID];
      && s'.blocks == (if Late(env, s, id, l1Block) then ch.builder.blocks else []) + s.blocks
      && c < |s'.chans| && s'.chans[c].confirmed == ch.confirmed[id := l1Block] && s'.chans[c].pending == ch.pending - {id}
      && (forall d :: d in s'.queue <==>
            d in s.queue && !(d == c && (Late(env, s, id, l1Block) || AllSent(ch, id))))
  {
    ConfirmEffect(env, s, id, l1Block);
    TxConfirmedInv(env, s, id, l1Block);
    assert s.chans[id.chID].Sound(env, id.chID);
    SettledMeans(env, s, s.chans[id.chID], id, l1Block);
  }

  /** The channel is closed, nothing waits and only transaction `id` is in flight. */
  predicate AllSent(ch: Chan, id: FrameID) {
    ch.builder.closed && ch.builder.frames == [] && ch.pending.Keys == {id}
  }

  lemma SettledMeans(env: Env, s: Manager, ch: Chan, id: FrameID, l1Block: U64)
    requires TxChannelsOk(s) && id in s.txChannels && ch == s.chans[id.chID] && (ch.builder.IsFull() <==> ch.builder.closed)
    ensures ch.Confirm(env, id, l1Block).TimedOut(env.cfg) <==> Late(env, s, id, l1Block)
    ensures Settled(env, ch.Confirm(env, id, l1Block)) <==> Late(env, s, id, l1Block) || AllSent(ch, id)
  {
    assert |ch.pending - {id}| == 0 <==> ch.pending.Keys == {id};
  }

  /** Closing. */

  /** Closing drops no channel that has a transaction in flight or confirmed, keeps every block and
      transaction, and leaves only channels that take no more blocks. */
  lemma CloseOutcome(env: Env, s: Manager)
    requires Inv(env, s) && s.Linked()
    ensures var s' := s.Close(env).0;
      && s'.closed && s'.blocks == s.blocks && s'.txChannels == s.txChannels && s'.tip == s.tip
      && (forall c | c in s'.queue :: c in s.queue)
      && (forall c | c in s.queue && (s.chans[c].pending != map[] || s.chans[c].confirmed != map[]) :: c in s'.queue)
  {
    if !s.closed {
      CloseInv(env, s);
      SweptIsSurvivors(env, s);
    }
  }

  lemma CloseStops(env: Env, s: Manager, c: nat)
    requires Inv(env, s) && s.Linked() && !s.closed && c in s.Close(env).0.queue
    ensures var s' := s.Close(env).0;
      && c < |s.chans| == |s'.chans| && s'.chans[c].builder.IsFull()
      && (s.chans[c].builder.IsFull() ==> s'.chans[c] == s.chans[c])
      && (!s.chans[c].builder.IsFull() ==>
            var b := s.chans[c].builder;
            s'.chans[c].builder.frames == b.frames + env.Emit(c, b.numFrames, env.codec.rest(c, b.blocks, b.numFrames) + 1))
  {
    var s1 := Swept(s);
    SweptIsSurvivors(env, s);
    SweptInv(env, s);
    assert s1.chans[c].Sound(env, c);
    assert s1.current == Some(c) || s1.chans[c].builder.closed;
    if s1.current.Some? && s1.current.value != c {
      assert s.Close(env).0.chans[c] == s.chans[c];
    }
  }

  /** Closing reports an error exactly when the current channel has submitted something and was closed
      before, being full. */
  lemma CloseFailsIff(env: Env, s: Manager)
    requires Inv(env, s) && s.Linked()
    ensures !s.Close(env).1 <==>
      && !s.closed && s.current.Some?
      && var ch := s.chans[s.current.value];
      ch.builder.closed && (ch.pending != map[] || ch.confirmed != map[])
  {
    if !s.closed && s.current.Some? {
      SweptIsSurvivors(env, s);
      var c := s.current.value;
      assert s.chans[c].Sound(env, c);
      assert c in s.Idle() <==> s.chans[c].NoneSubmitted() by {
        assert s.queue[|s.queue| - 1] == c;
      }
    }
  }

  /** A request that fills a channel puts out all frames that are ready, or, if the channel is full
      by then, all that are left with the closing one. */
  lemma FillOutputs(env: Env, s: Manager, l1Head: U64) returns (s1: Manager, c: nat)
    requires Inv(env, s) && s.Linked() && Fills(s) && !s.TxData(env, l1Head).1.Failed?
    ensures s1.Linked() && s1 == s.EnsureChannelWithSpace() && s1.current == Some(c) && c < |s1.chans|
    ensures var s' := s.TxData(env, l1Head).0; c < |s'.chans| && PutsOut(env, c, s1.chans[c].builder, s'.chans[c].builder)
  {
    var s2, ok;
    s1, s2, ok, c := FilledOutputs(env, s, l1Head);
  }

  lemma FilledOutputs(env: Env, s: Manager, l1Head: U64) returns (s1: Manager, s2: Manager, ok: bool, c: nat)
    requires Inv(env, s) && s.Linked() && Fills(s)
    ensures s1.Linked() && s1 == s.EnsureChannelWithSpace() && s1.current == Some(c) && c < |s1.chans|
    ensures c < |s2.chans| && s.TxData(env, l1Head) == if ok then s2.NextTxData(Some(c)) else (s2, Failed)
    ensures ok ==> PutsOut(env, c, s1.chans[c].builder, s2.chans[c].builder)
  {
    s1, s2, ok, c := FillStates(env, s, l1Head);
    if ok {
      CutOutputs(env, s1, s2, c, l1Head);
    }
  }

  predicate PutsOut(env: Env, c: nat, b: Builder, b': Builder) {
    b'.numFrames == b.numFrames + if b'.IsFull() then env.codec.rest(c, b'.blocks, b.numFrames) + 1
                                  else env.codec.ready(c, b'.blocks, b.numFrames)
  }

  lemma CutOutputs(env: Env, s1: Manager, s2: Manager, c: nat, l1Head: U64)
    requires s1.Linked() && s1.current == Some(c) && (s2, true) == s1.FillCurrent(env, l1Head) && s1.chans[c].builder.id == c
    ensures c < |s2.chans| && PutsOut(env, c, s1.chans[c].builder, s2.chans[c].builder)
  {
  }
}
