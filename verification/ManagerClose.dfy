/** `Close` and the channels that have submitted nothing: exactly when it clears them all, and a run
    after which it does not. */
module ManagerClose {
  import opened Options
  import opened BatcherTypes
  import opened Words
  import opened ChannelBuilders
  import opened Channels
  import opened CloseSweep
  import opened ManagerSpec
  import opened ManagerRuns

  /** `Close` leaves the survivors of its loop. */
  lemma CloseLeaves(env: Env, s: Manager)
    requires QueueOk(env, s) && s.Linked() && !s.closed
    ensures s.Close(env).0.queue == Survivors(s.queue, s.Idle())
  {
    SweepKeepsSurvivors(s.queue, s.current, s.Idle());
  }

  /** It clears every channel that has submitted nothing if and only if no two neighbours in the
      queue, the second of them not the last channel, have both submitted nothing. */
  lemma CloseClearsIdleIff(env: Env, s: Manager)
    requires Inv(env, s) && s.Linked() && !s.closed
    ensures (forall c | c in s.Close(env).0.queue :: c !in s.Idle()) <==> !HasIdlePair(s.queue, 0, s.Idle())
  {
    CloseLeaves(env, s);
    AllIdleCleared(s.queue, s.Idle());
  }

  /** Every channel takes one block and then puts out one frame. */
  ghost predicate OneBlockEach(env: Env) {
    && (forall id, block :: env.codec.accept(id, [], block) == Taken(Some(CompressorFull)))
    && (forall id, blocks, n :: env.codec.rest(id, blocks, n) == 0)
  }

  /** There is such a codec. */
  function OneBlockCodec(cfg: Config): (env: Env)
    ensures env.cfg == cfg && OneBlockEach(env)
  {
    Env(cfg, Codec((_, _, _) => Taken(Some(CompressorFull)), (_, _, _) => 0, (_, _, _) => 0, (_, _) => []))
  }

  function IdOf(c: nat): FrameID {
    FrameID(c, 0)
  }

  /** A channel whose one frame is in flight. */
  ghost predicate Flying(ch: Chan) {
    ch.builder.IsFull() && ch.builder.frames == [] && ch.pending.Keys == {IdOf(ch.builder.id)} && ch.confirmed == map[]
  }

  /** A channel whose one frame waits again. */
  ghost predicate Waiting(ch: Chan) {
    ch.builder.IsFull() && ch.pending == map[] && ch.confirmed == map[]
  }

  /** `n` channels, all queued: the transactions of the first `j` have failed, those of the others
      are in flight. */
  ghost predicate Sent(s: Manager, n: nat, j: nat) {
    && s.Linked() && !s.closed && s.blocks == [] && s.epoch == 0
    && |s.chans| == |s.queue| == n && (forall i | 0 <= i < n :: s.queue[i] == i && s.chans[i].builder.id == i)
    && s.current == (if n == 0 then None else Some(n - 1))
    && (forall c | 0 <= c < j && c < n :: Waiting(s.chans[c]))
    && (forall c | j <= c < n :: Flying(s.chans[c]) && IdOf(c) in s.txChannels && s.txChannels[IdOf(c)] == c)
  }

  lemma FillOne(env: Env, c: nat, block: Block)
    requires OneBlockEach(env)
    ensures var p := Process(env, NewBuilder(c), [block]);
      && p.added == 1 && !p.failed && p.builder.IsFull() && !p.builder.closed && p.builder.id == c && p.builder.frames == []
      && p.builder.numFrames == 0
  {
  }

  lemma CutOne(env: Env, b: Builder, l1Head: U64)
    requires OneBlockEach(env) && b.IsFull() && !b.closed && b.frames == [] && b.numFrames == 0
    ensures var (b', ok) := b.RegisterL1Block(env, l1Head).OutputFrames(env);
      ok && b'.IsFull() && b'.id == b.id && b'.frames == [env.FrameOf(b.id, 0)]
  {
  }

  /** Filling the new channel number `n` with the one pending block. */
  lemma FillNew(env: Env, s: Manager, n: nat, block: Block) returns (b: Builder)
    requires OneBlockEach(env) && s.Linked() && s.current == Some(n) && n < |s.chans| && s.chans[n] == NewChan(n)
    requires s.blocks == [block]
    ensures b.IsFull() && b.id == n && b.frames == [env.FrameOf(n, 0)]
    ensures s.FillCurrent(env, 0) == (s.(blocks := [], chans := s.chans[n := Chan(b, map[], map[])]), true)
  {
    var p := Process(env, NewBuilder(n), [block]);
    FillOne(env, n, block);
    CutOne(env, p.builder, 0);
    b := p.builder.RegisterL1Block(env, 0).OutputFrames(env).0;
    assert s.blocks[1..] == [];
  }

  lemma PopNew(env: Env, s: Manager, n: nat, b: Builder)
    requires s.Linked() && n < |s.chans| && s.chans[n] == Chan(b, map[], map[])
    requires b.IsFull() && b.id == n && b.frames == [env.FrameOf(n, 0)]
    ensures var s' := s.NextTxData(Some(n)).0;
      && s' == s.(chans := s'.chans, txChannels := s.txChannels[IdOf(n) := n])
      && |s'.chans| == |s.chans| && (forall c | 0 <= c < |s.chans| && c != n :: s'.chans[c] == s.chans[c])
      && Flying(s'.chans[n]) && s'.chans[n].builder.id == n
  {
  }

  lemma SentMore(s: Manager, s': Manager, n: nat)
    requires Sent(s, n, 0) && s'.Linked()
    requires s' == s.(tip := s'.tip, queue := s.queue + [n], current := Some(n), chans := s'.chans,
                      txChannels := s.txChannels[IdOf(n) := n])
    requires |s'.chans| == n + 1 && (forall c | 0 <= c < n :: s'.chans[c] == s.chans[c])
    requires Flying(s'.chans[n]) && s'.chans[n].builder.id == n
    ensures Sent(s', n + 1, 0)
  {
    assert s'.queue[n] == n;
    assert forall c | 0 <= c < n :: IdOf(c) != IdOf(n);
  }

  /** One more block brings one more channel. */
  lemma OpenOne(s: Manager, n: nat, block: Block) returns (s1: Manager, s2: Manager)
    requires Sent(s, n, 0) && s.AddL2Block(block).1
    ensures s1 == s.AddL2Block(block).0 && s1.Linked() && !s1.closed && s1.blocks == [block]
    ensures FirstWithFrame(s1.chans, s1.queue).None?
    ensures s2 == s1.EnsureChannelWithSpace() && s2.Linked() && |s.chans| == n
    ensures s2 == s.(blocks := [block], tip := block.hash, current := Some(n), queue := s.queue + [n],
                     chans := s.chans + [NewChan(n)])
  {
    s1 := s.AddL2Block(block).0;
    s2 := WithNewChannel(s1);
  }

  lemma SendNew(env: Env, s1: Manager, s2: Manager, n: nat, block: Block) returns (s': Manager)
    requires OneBlockEach(env) && s1.Linked() && !s1.closed && s1.blocks == [block]
    requires FirstWithFrame(s1.chans, s1.queue).None? && s2 == s1.EnsureChannelWithSpace()
    requires s2.Linked() && s2.current == Some(n) && n < |s2.chans| && s2.chans[n] == NewChan(n) && s2.blocks == [block]
    ensures s' == s1.TxData(env, 0).0
    ensures s' == s2.(blocks := [], chans := s'.chans, txChannels := s2.txChannels[IdOf(n) := n])
    ensures |s'.chans| == |s2.chans| && forall c | 0 <= c < |s2.chans| && c != n :: s'.chans[c] == s2.chans[c]
    ensures Flying(s'.chans[n]) && s'.chans[n].builder.id == n
  {
    var b := FillNew(env, s2, n, block);
    var s3 := s2.(blocks := [], chans := s2.chans[n := Chan(b, map[], map[])]);
    PopNew(env, s3, n, b);
    s' := s3.NextTxData(Some(n)).0;
  }

  /** One more block in one more channel, sent at once. */
  lemma SendOne(env: Env, s: Manager, n: nat, block: Block) returns (s1: Manager, s': Manager)
    requires OneBlockEach(env) && Sent(s, n, 0) && s.AddL2Block(block).1
    ensures s1 == s.AddL2Block(block).0 && s1.Linked() && s' == s1.TxData(env, 0).0
    ensures Sent(s', n + 1, 0) && s'.tip == block.hash
  {
    var s2;
    s1, s2 := OpenOne(s, n, block);
    s' := SendNew(env, s1, s2, n, block);
    SentMore(s, s', n);
  }

  lemma FailOne(s: Manager, n: nat, j: nat) returns (s': Manager)
    requires Sent(s, n, j) && j < n
    ensures s' == s.TxFailed(IdOf(j)) && Sent(s', n, j + 1)
  {
    s' := s.TxFailed(IdOf(j));
  }

  function BlockAt(n: nat): Block {
    Block(n + 1, n, n, 0)
  }

  lemma {:induction false} SendRun(env: Env, n: nat) returns (ops: seq<Op>, s: Manager)
    requires OneBlockEach(env)
    ensures s == Run(env, ops) && Sent(s, n, 0) && s.tip == n
  {
    if n == 0 {
      ops, s := [], NewManager();
    } else {
      ops, s := SendRun(env, n - 1);
      ops, s := SendNext(env, ops, s, n - 1);
    }
  }

  lemma SendNext(env: Env, before: seq<Op>, s: Manager, n: nat) returns (ops: seq<Op>, s': Manager)
    requires OneBlockEach(env) && s == Run(env, before) && Sent(s, n, 0) && s.tip == n
    ensures s' == Run(env, ops) && Sent(s', n + 1, 0) && s'.tip == n + 1
  {
    var s1;
    s1, s' := SendOne(env, s, n, BlockAt(n));
    RunSnoc(env, before, AddL2Block(BlockAt(n)));
    ops := before + [AddL2Block(BlockAt(n))];
    RunSnoc(env, ops, TxData(0));
    ops := ops + [TxData(0)];
  }

  lemma {:induction false} FailRun(env: Env, n: nat, j: nat) returns (ops: seq<Op>, s: Manager)
    requires OneBlockEach(env) && j <= n
    ensures s == Run(env, ops) && Sent(s, n, j)
  {
    if j == 0 {
      ops, s := SendRun(env, n);
    } else {
      var before, open := FailRun(env, n, j - 1);
      ops, s := FailNext(env, before, open, n, j - 1);
    }
  }

  lemma FailNext(env: Env, before: seq<Op>, open: Manager, n: nat, j: nat) returns (ops: seq<Op>, s: Manager)
    requires open == Run(env, before) && Sent(open, n, j) && j < n
    ensures s == Run(env, ops) && Sent(s, n, j + 1)
  {
    s := FailOne(open, n, j);
    ops := before + [TxFailed(IdOf(j))];
    RunSnoc(env, before, TxFailed(IdOf(j)));
  }

  /** So for every number of channels from three on there is a run after which all are idle, and
      closing leaves one of them. */
  lemma IdleSurvivesClose(env: Env, n: nat) returns (ops: seq<Op>)
    requires OneBlockEach(env) && n >= 3
    ensures var s := Run(env, ops);
      && !s.closed && |s.queue| == n && (forall c | c in s.queue :: c in s.Idle())
      && exists c :: c in s.Close(env).0.queue && c in s.Idle()
  {
    var s;
    ops, s := FailRun(env, n, n);
    AllIdle(s, n);
    assert HasIdlePair(s.queue, 0, s.Idle()) by {
      assert s.queue[0] in s.Idle() && s.queue[0 + 1] in s.Idle();
    }
    CloseClearsIdleIff(env, s);
  }

  lemma AllIdle(s: Manager, n: nat)
    requires Sent(s, n, n)
    ensures forall c | c in s.queue :: c in s.Idle()
  {
  }
}
