/** Frames and channels over whole runs: nothing in flight twice, and what a channel that left
    the queue is worth. */
module ManagerFrames {
  import opened Options
  import opened BatcherTypes
  import opened Words
  import opened ChannelBuilders
  import opened Channels
  import opened CloseSweep
  import opened ManagerSpec
  import opened ManagerRuns

  /** On every run, the frames any channel ever put out are divided without overlap into those
      waiting, those in flight and those confirmed, and their numbers add up. */
  lemma FramesAreConserved(env: Env, ops: seq<Op>, c: nat)
    requires c < |Run(env, ops).chans|
    ensures var ch := Run(env, ops).chans[c];
      ch.Conserved(env) && |ch.builder.frames| + |ch.pending| + |ch.confirmed| == ch.builder.numFrames
  {
    FramesAddUp(env, c, Run(env, ops).chans[c]);
  }

  /** On every run, a transaction handed out next is in flight and confirmed nowhere, and carries
      the bytes its channel put out under that number. */
  lemma NeverHandedOutTwice(env: Env, ops: seq<Op>, l1Head: U64)
    ensures var s := Run(env, ops);
      var r := s.TxData(env, l1Head).1; r.Tx? ==>
      && r.frame.data == env.codec.data(r.frame.id.chID, r.frame.id.number)
      && r.frame.id !in s.txChannels
      && forall c | 0 <= c < |s.chans| :: r.frame.id !in s.chans[c].pending && r.frame.id !in s.chans[c].confirmed
  {
    TxDataFresh(env, Run(env, ops), l1Head);
  }

  /** On every run without a closing, a channel since `Clear` that is no longer queued has timed
      out, or it is complete and valid: closed, every frame it ever put out confirmed, and any two
      of its inclusion blocks less than the channel timeout apart. */
  lemma RetiredChannels(env: Env, ops: seq<Op>, c: nat)
    requires var s := Run(env, ops); !s.closed && s.epoch <= c < |s.chans| && c !in s.queue
    ensures var ch := Run(env, ops).chans[c];
      ch.TimedOut(env.cfg) ||
      (&& ch.builder.closed && ch.builder.frames == [] && ch.pending == map[]
       && (forall n | 0 <= n < ch.builder.numFrames :: FrameID(c, n) in ch.confirmed)
       && (forall a, b | a in ch.confirmed && b in ch.confirmed ::
             ch.confirmed[a] - ch.confirmed[b] < env.cfg.channelTimeout))
  {
    var ch := Run(env, ops).chans[c];
    if !ch.TimedOut(env.cfg) {
      RetiredIsComplete(env, c, ch);
    }
  }

  /** No call makes a timed-out channel valid again. */
  lemma TimedOutForGood(env: Env, s: Manager, op: Op, c: nat)
    requires Inv(env, s) && s.Linked() && c < |s.chans| && s.chans[c].TimedOut(env.cfg)
    ensures var s' := Step(env, s, op); c < |s'.chans| && s'.chans[c].TimedOut(env.cfg)
  {
    match op
    case AddL2Block(_) =>
    case Clear =>
    case TxData(l1Head) => TxDataKeepsConfirmed(env, s, l1Head, c);
    case TxFailed(id) => TxFailedSame(env, s, id);
    case Close => CloseSame(env, s);
    case TxConfirmed(id, l1Block) => ConfirmKeepsTimeout(env, s, id, l1Block, c);
  }

  lemma TxDataKeepsConfirmed(env: Env, s: Manager, l1Head: U64, c: nat)
    requires Inv(env, s) && s.Linked() && c < |s.chans|
    ensures SameConfirmed(s, s.TxData(env, l1Head).0, c)
  {
    TxDataMoves(env, s, l1Head);
    MoveKeepsConfirmed(s, s.TxData(env, l1Head).0, Feeds(env, s).0, Feeds(env, s).1, c);
  }

  lemma MoveKeepsConfirmed(s: Manager, s': Manager, k: nat, failed: bool, c: nat)
    requires (Moved(s, s', k, failed) || Same(s, s')) && c < |s.chans|
    ensures SameConfirmed(s, s', c)
  {
  }

  lemma ConfirmKeepsTimeout(env: Env, s: Manager, id: FrameID, l1Block: U64, c: nat)
    requires AllSound(env, s.chans) && TxChannelsOk(s) && s.Linked() && c < |s.chans| && s.chans[c].TimedOut(env.cfg)
    ensures var s' := s.TxConfirmed(env, id, l1Block); c < |s'.chans| && s'.chans[c].TimedOut(env.cfg)
  {
    if id in s.txChannels {
      ConfirmEffect(env, s, id, l1Block);
      ConfirmedChan(env, s, id, l1Block);
    }
  }

  predicate SameConfirmed(s: Manager, s': Manager, c: nat) {
    c < |s.chans| && c < |s'.chans| && s'.chans[c].confirmed == s.chans[c].confirmed
  }

  /** A completely submitted channel never changes again. */
  lemma RetiredForGood(env: Env, s: Manager, op: Op, c: nat)
    requires Inv(env, s) && s.Linked() && c < |s.chans| && c !in s.queue && s.chans[c].FullySubmitted()
    ensures var s' := Step(env, s, op); c < |s'.chans| && s'.chans[c] == s.chans[c]
  {
    match op
    case AddL2Block(_) =>
    case Clear =>
    case TxData(l1Head) => TxDataLeaves(env, s, l1Head, c);
    case TxFailed(id) => TxFailedLeaves(s, id, c);
    case Close => CloseLeaves(env, s, c);
    case TxConfirmed(id, l1Block) => TxConfirmedLeaves(env, s, id, l1Block, c);
  }

  lemma TxFailedLeaves(s: Manager, id: FrameID, c: nat)
    requires TxChannelsOk(s) && s.Linked() && c < |s.chans| && s.chans[c].FullySubmitted()
    ensures var s' := s.TxFailed(id); c < |s'.chans| && s'.chans[c] == s.chans[c]
  {
  }

  lemma TxConfirmedLeaves(env: Env, s: Manager, id: FrameID, l1Block: U64, c: nat)
    requires TxChannelsOk(s) && s.Linked() && c < |s.chans| && s.chans[c].FullySubmitted()
    ensures var s' := s.TxConfirmed(env, id, l1Block); c < |s'.chans| && s'.chans[c] == s.chans[c]
  {
  }

  lemma TxDataLeaves(env: Env, s: Manager, l1Head: U64, c: nat)
    requires QueueOk(env, s) && s.Linked() && c < |s.chans| && c !in s.queue
    ensures var s' := s.TxData(env, l1Head).0; c < |s'.chans| && s'.chans[c] == s.chans[c]
  {
    assert s.current != Some(c);
    var first := FirstWithFrame(s.chans, s.queue);
    if first.None? && !s.closed && s.blocks != [] {
      RefillLeaves(env, s, l1Head, c);
    }
  }

  lemma RefillLeaves(env: Env, s: Manager, l1Head: U64, c: nat)
    requires s.Linked() && c < |s.chans| && s.current != Some(c)
    ensures var s' := s.Refill(env, l1Head).0; c < |s'.chans| && s'.chans[c] == s.chans[c]
  {
  }

  lemma CloseLeaves(env: Env, s: Manager, c: nat)
    requires QueueOk(env, s) && s.Linked() && c < |s.chans| && c !in s.queue
    ensures var s' := s.Close(env).0; c < |s'.chans| && s'.chans[c] == s.chans[c]
  {
  }
}
