/** What a run of the manager does to the builder of each of its channels, and so what the deadline
    of every channel is. */
module ManagerDeadlines {
  import SentinelMin
  import opened Options
  import opened BatcherTypes
  import opened Words
  import opened ChannelBuilders
  import opened Channels
  import opened CloseSweep
  import opened ManagerSpec
  import opened ManagerRuns

  /** The blocks a channel is offered, up to the one it turns down or that fills it. */
  function AddEvents(env: Env, b: Builder, blocks: seq<Block>): seq<BuilderOp>
    decreases blocks
  {
    if blocks == [] then []
    else
      var (b', r) := b.AddBlock(env, blocks[0]);
      [BuilderOp.Add(blocks[0])] + if r == Added && !b'.IsFull() then AddEvents(env, b', blocks[1..]) else []
  }

  /** What filling does to the current channel, and the frame taken from it. */
  ghost function FillEvents(env: Env, s: Manager, l1Head: U64): seq<BuilderOp>
    requires s.Linked() && s.current.Some?
  {
    var b := s.chans[s.current.value].builder;
    var p := Process(env, b, s.blocks);
    if p.failed then AddEvents(env, b, s.blocks)
    else
      var (b', ok) := p.builder.RegisterL1Block(env, l1Head).OutputFrames(env);
      AddEvents(env, b, s.blocks) + [Register(l1Head), Output] + if ok && b'.frames != [] then [Pop] else []
  }

  /** What one call of the manager does to the builder of channel `c`. */
  ghost function EventsOf(env: Env, s: Manager, op: Op, c: nat): seq<BuilderOp>
    requires s.Linked()
  {
    match op
    case AddL2Block(_) => []
    case Clear => []
    case TxFailed(id) =>
      if id in s.txChannels && s.txChannels[id] == c && id in s.chans[c].pending then [Push(s.chans[c].pending[id])] else []
    case TxConfirmed(id, l1Block) =>
      if id in s.txChannels && s.txChannels[id] == c && id in s.chans[c].pending then [Published(l1Block)] else []
    case TxData(l1Head) =>
      if !Fills(s) then (if FirstWithFrame(s.chans, s.queue) == Some(c) then [Pop] else [])
      else if s.EnsureChannelWithSpace().current != Some(c) then []
      else FillEvents(env, s.EnsureChannelWithSpace(), l1Head)
    case Close =>
      if s.closed || SweepAll(s.queue, s.current, s.Idle()).current != Some(c) then [] else [Terminate, Output]
  }

  /** What a run of the manager does to the builder of channel `c`. */
  ghost function Events(env: Env, ops: seq<Op>, c: nat): seq<BuilderOp> {
    if ops == [] then []
    else
      var before := ops[..|ops| - 1];
      Events(env, before, c) + EventsOf(env, Run(env, before), ops[|ops| - 1], c)
  }

  /** The builder of channel `c`, a new one until the channel is created. */
  function BuilderAt(s: Manager, c: nat): Builder {
    if c < |s.chans| then s.chans[c].builder else NewBuilder(c)
  }

  function ApplyAll(env: Env, b: Builder, events: seq<BuilderOp>): Builder {
    if events == [] then b
    else ChannelBuilders.Apply(env, ApplyAll(env, b, events[..|events| - 1]), events[|events| - 1])
  }

  lemma ApplyOne(env: Env, b: Builder, e: BuilderOp)
    ensures ApplyAll(env, b, [e]) == ChannelBuilders.Apply(env, b, e)
  {
    assert [e][..0] == [];
  }

  lemma {:induction false} ApplyConcat(env: Env, b: Builder, x: seq<BuilderOp>, y: seq<BuilderOp>)
    ensures ApplyAll(env, b, x + y) == ApplyAll(env, ApplyAll(env, b, x), y)
    decreases |y|
  {
    if y == [] {
      assert x + y == x;
    } else {
      ApplyConcat(env, b, x, y[..|y| - 1]);
      assert (x + y)[..|x + y| - 1] == x + y[..|y| - 1];
    }
  }

  lemma {:induction false} RunBuilderConcat(env: Env, c: nat, x: seq<BuilderOp>, y: seq<BuilderOp>)
    ensures RunBuilder(env, c, x + y) == ApplyAll(env, RunBuilder(env, c, x), y)
    decreases |y|
  {
    if y == [] {
      assert x + y == x;
    } else {
      RunBuilderConcat(env, c, x, y[..|y| - 1]);
      assert (x + y)[..|x + y| - 1] == x + y[..|y| - 1];
    }
  }

  lemma {:induction false} AddEventsProcess(env: Env, b: Builder, blocks: seq<Block>)
    ensures ApplyAll(env, b, AddEvents(env, b, blocks)) == Process(env, b, blocks).builder
    decreases blocks
  {
    if blocks != [] {
      var (b', r) := b.AddBlock(env, blocks[0]);
      ApplyOne(env, b, BuilderOp.Add(blocks[0]));
      if r == Added && !b'.IsFull() {
        AddEventsProcess(env, b', blocks[1..]);
        ApplyConcat(env, b, [BuilderOp.Add(blocks[0])], AddEvents(env, b', blocks[1..]));
      } else {
        assert AddEvents(env, b, blocks) == [BuilderOp.Add(blocks[0])];
      }
    }
  }

  lemma ApplyCut(env: Env, b: Builder, e: BuilderOp)
    ensures ApplyAll(env, b, [e, Output]) == ChannelBuilders.Apply(env, b, e).OutputFrames(env).0
  {
    ApplyOne(env, b, e);
    ApplyOne(env, ChannelBuilders.Apply(env, b, e), Output);
    ApplyConcat(env, b, [e], [Output]);
    assert [e] + [Output] == [e, Output];
  }

  /** The builder after filling, and after the pop that follows if there is a frame. */
  ghost function Filled(env: Env, b: Builder, blocks: seq<Block>, l1Head: U64): Builder {
    var p := Process(env, b, blocks);
    if p.failed then p.builder
    else
      var (b', ok) := p.builder.RegisterL1Block(env, l1Head).OutputFrames(env);
      if ok && b'.frames != [] then b'.PopFrame().0 else b'
  }

  lemma FillEventsBuild(env: Env, s: Manager, l1Head: U64)
    requires s.Linked() && s.current.Some?
    ensures var b := s.chans[s.current.value].builder;
      ApplyAll(env, b, FillEvents(env, s, l1Head)) == Filled(env, b, s.blocks, l1Head)
  {
    var b := s.chans[s.current.value].builder;
    var p, adds := Process(env, b, s.blocks), AddEvents(env, b, s.blocks);
    AddEventsProcess(env, b, s.blocks);
    if !p.failed {
      var (b', ok) := p.builder.RegisterL1Block(env, l1Head).OutputFrames(env);
      CutAndPop(env, b, adds, p.builder, l1Head, if ok && b'.frames != [] then [Pop] else []);
    }
  }

  lemma CutAndPop(env: Env, b: Builder, adds: seq<BuilderOp>, b1: Builder, l1Head: U64, pop: seq<BuilderOp>)
    requires ApplyAll(env, b, adds) == b1 && (pop == [] || pop == [Pop])
    ensures var b2 := b1.RegisterL1Block(env, l1Head).OutputFrames(env).0;
      ApplyAll(env, b, adds + [Register(l1Head), Output] + pop) ==
      if pop == [] then b2 else ChannelBuilders.Apply(env, b2, Pop)
  {
    ApplyConcat(env, b, adds, [Register(l1Head), Output]);
    ApplyCut(env, b1, Register(l1Head));
    ApplyConcat(env, b, adds + [Register(l1Head), Output], pop);
    ApplyOne(env, b1.RegisterL1Block(env, l1Head).OutputFrames(env).0, Pop);
  }

  /** Filling and popping, as the manager does it. */
  ghost function FillAndPop(env: Env, s: Manager, l1Head: U64): Manager
    requires s.Linked() && s.current.Some?
  {
    var (s', ok) := s.FillCurrent(env, l1Head);
    if ok then s'.NextTxData(s.current).0 else s'
  }

  lemma FillBuilder(env: Env, s: Manager, l1Head: U64)
    requires s.Linked() && s.current.Some?
    ensures var c, s' := s.current.value, FillAndPop(env, s, l1Head);
      && |s'.chans| == |s.chans|
      && s'.chans[c].builder == Filled(env, s.chans[c].builder, s.blocks, l1Head)
      && forall d | 0 <= d < |s.chans| && d != c :: s'.chans[d] == s.chans[d]
  {
  }

  /** `s'` is what the events say of the builder of channel `c`. */
  ghost predicate Follows(env: Env, s: Manager, s': Manager, c: nat, events: seq<BuilderOp>) {
    BuilderAt(s', c) == ApplyAll(env, BuilderAt(s, c), events)
  }

  lemma TxDataIsFill(env: Env, s: Manager, l1Head: U64)
    requires Inv(env, s) && s.Linked() && Fills(s)
    ensures var s1 := s.EnsureChannelWithSpace();
      s1.Linked() && s1.current.Some? && s.TxData(env, l1Head).0 == FillAndPop(env, s1, l1Head)
  {
    FillSteps(env, s, l1Head);
  }

  lemma EnsureBuilders(s: Manager, c: nat)
    requires s.Linked()
    ensures BuilderAt(s.EnsureChannelWithSpace(), c) == BuilderAt(s, c)
  {
  }

  lemma TxDataFollows(env: Env, s: Manager, l1Head: U64, c: nat)
    requires Inv(env, s) && s.Linked()
    ensures Follows(env, s, s.TxData(env, l1Head).0, c, EventsOf(env, s, TxData(l1Head), c))
  {
    if Fills(s) {
      var s1 := s.EnsureChannelWithSpace();
      TxDataIsFill(env, s, l1Head);
      EnsureBuilders(s, c);
      FillFollows(env, s, s1, l1Head, c);
    } else {
      PopFollows(env, s, FirstWithFrame(s.chans, s.queue), c);
    }
  }

  lemma PopFollows(env: Env, s: Manager, first: Option<nat>, c: nat)
    requires first.Some? ==> first.value < |s.chans| && s.chans[first.value].builder.frames != []
    ensures Follows(env, s, s.NextTxData(first).0, c, if first == Some(c) then [Pop] else [])
  {
    ApplyOne(env, BuilderAt(s, c), Pop);
  }

  lemma FillFollows(env: Env, s: Manager, s1: Manager, l1Head: U64, c: nat)
    requires s1.Linked() && s1.current.Some? && BuilderAt(s1, c) == BuilderAt(s, c)
    ensures Follows(env, s, FillAndPop(env, s1, l1Head), c, if s1.current == Some(c) then FillEvents(env, s1, l1Head) else [])
  {
    FillEventsBuild(env, s1, l1Head);
    FillBuilder(env, s1, l1Head);
  }

  lemma CloseFollows(env: Env, s: Manager, c: nat)
    requires s.Linked()
    ensures Follows(env, s, s.Close(env).0, c, EventsOf(env, s, Close, c))
  {
    ApplyCut(env, BuilderAt(s, c), Terminate);
  }

  lemma TxFailedFollows(env: Env, s: Manager, id: FrameID, c: nat)
    requires s.Linked()
    ensures Follows(env, s, s.TxFailed(id), c, EventsOf(env, s, TxFailed(id), c))
  {
    if c < |s.chans| && id in s.chans[c].pending {
      ApplyOne(env, BuilderAt(s, c), Push(s.chans[c].pending[id]));
    }
  }

  lemma TxConfirmedFollows(env: Env, s: Manager, id: FrameID, l1Block: U64, c: nat)
    requires s.Linked()
    ensures Follows(env, s, s.TxConfirmed(env, id, l1Block), c, EventsOf(env, s, TxConfirmed(id, l1Block), c))
  {
    ApplyOne(env, BuilderAt(s, c), Published(l1Block));
  }

  lemma StepFollows(env: Env, s: Manager, op: Op, c: nat)
    requires Inv(env, s) && s.Linked()
    ensures Follows(env, s, Step(env, s, op), c, EventsOf(env, s, op, c))
  {
    match op
    case AddL2Block(_) =>
    case TxData(l1Head) => TxDataFollows(env, s, l1Head, c);
    case TxFailed(id) => TxFailedFollows(env, s, id, c);
    case TxConfirmed(id, l1Block) => TxConfirmedFollows(env, s, id, l1Block, c);
    case Close => CloseFollows(env, s, c);
    case Clear =>
  }

  /** On every run, the builder of every channel is where the events of the run lead. */
  lemma {:induction false} EventsBuild(env: Env, ops: seq<Op>, c: nat)
    ensures BuilderAt(Run(env, ops), c) == RunBuilder(env, c, Events(env, ops, c))
  {
    if ops != [] {
      var before, op := ops[..|ops| - 1], ops[|ops| - 1];
      EventsBuild(env, before, c);
      StepFollows(env, Run(env, before), op, c);
      RunBuilderConcat(env, c, Events(env, before, c), EventsOf(env, Run(env, before), op, c));
    }
  }

  /** What a run offers. */

  lemma {:induction false} PublishedOffered(env: Env, c: nat, events: seq<BuilderOp>, n: U64)
    requires Published(n) in events
    ensures exists o :: o in Offers(env, c, events) && o.deadline == PublishedDeadline(env.cfg, n)
  {
    var before, e := events[..|events| - 1], events[|events| - 1];
    if e == Published(n) {
      assert Offer(PublishedDeadline(env.cfg, n), ChannelTimeoutClose) in Offers(env, c, events);
    } else {
      PublishedOffered(env, c, before, n);
    }
  }

  lemma {:induction false} BlocksOffered(env: Env, c: nat, events: seq<BuilderOp>, block: Block)
    requires block in RunBuilder(env, c, events).blocks
    ensures exists o :: o in Offers(env, c, events) && o.deadline == WindowDeadline(env.cfg, block)
  {
    var before := events[..|events| - 1];
    if block in RunBuilder(env, c, before).blocks {
      BlocksOffered(env, c, before, block);
      var o :| o in Offers(env, c, before) && o.deadline == WindowDeadline(env.cfg, block);
      OffersStay(env, c, events, o);
    } else {
      NewBlockOffered(env, c, events, block);
    }
  }

  lemma OffersStay(env: Env, c: nat, events: seq<BuilderOp>, o: Offer)
    requires events != [] && o in Offers(env, c, events[..|events| - 1])
    ensures o in Offers(env, c, events)
  {
  }

  lemma NewBlockOffered(env: Env, c: nat, events: seq<BuilderOp>, block: Block)
    requires events != [] && block in RunBuilder(env, c, events).blocks
    requires block !in RunBuilder(env, c, events[..|events| - 1]).blocks
    ensures Offer(WindowDeadline(env.cfg, block), SeqWindowClose) in Offers(env, c, events)
  {
    NewBlockBrought(env, RunBuilder(env, c, events[..|events| - 1]), events[|events| - 1], block);
  }

  lemma NewBlockBrought(env: Env, b: Builder, op: BuilderOp, block: Block)
    requires block in Apply(env, b, op).blocks && block !in b.blocks
    ensures Offer(WindowDeadline(env.cfg, block), SeqWindowClose) in Brings(env, b, op)
  {
    FullWhy(env, b, op);
  }

  /** Every inclusion block of channel `c` was reported to its builder. */
  lemma {:induction false} ConfirmedPublished(env: Env, ops: seq<Op>, c: nat, id: FrameID)
    requires c < |Run(env, ops).chans| && id in Run(env, ops).chans[c].confirmed
    ensures Published(Run(env, ops).chans[c].confirmed[id]) in Events(env, ops, c)
  {
    var before, op := ops[..|ops| - 1], ops[|ops| - 1];
    var s := Run(env, before);
    ConfirmedStep(env, s, op, c, id);
    if c < |s.chans| && id in s.chans[c].confirmed && Run(env, ops).chans[c].confirmed[id] == s.chans[c].confirmed[id] {
      ConfirmedPublished(env, before, c, id);
    }
  }

  lemma ConfirmedStep(env: Env, s: Manager, op: Op, c: nat, id: FrameID)
    requires Inv(env, s) && s.Linked()
    requires var s' := Step(env, s, op); c < |s'.chans| && id in s'.chans[c].confirmed
    ensures var n := Step(env, s, op).chans[c].confirmed[id];
      || (c < |s.chans| && id in s.chans[c].confirmed && s.chans[c].confirmed[id] == n)
      || Published(n) in EventsOf(env, s, op, c)
  {
    match op
    case AddL2Block(_) =>
    case TxData(l1Head) => TxDataConfirmed(env, s, l1Head, c, id);
    case TxFailed(failed) =>
      TxFailedSame(env, s, failed);
      MoveConfirmed(s, s.TxFailed(failed), 0, false, c, id);
    case TxConfirmed(booked, l1Block) => TxConfirmedConfirmed(env, s, booked, l1Block, c, id);
    case Close =>
      CloseSame(env, s);
      MoveConfirmed(s, s.Close(env).0, 0, false, c, id);
    case Clear =>
  }

  lemma TxDataConfirmed(env: Env, s: Manager, l1Head: U64, c: nat, id: FrameID)
    requires Inv(env, s) && s.Linked()
    requires var s' := s.TxData(env, l1Head).0; c < |s'.chans| && id in s'.chans[c].confirmed
    ensures c < |s.chans| && id in s.chans[c].confirmed
    ensures s.chans[c].confirmed[id] == s.TxData(env, l1Head).0.chans[c].confirmed[id]
  {
    TxDataMoves(env, s, l1Head);
    MoveConfirmed(s, s.TxData(env, l1Head).0, Feeds(env, s).0, Feeds(env, s).1, c, id);
  }

  lemma TxConfirmedConfirmed(env: Env, s: Manager, booked: FrameID, l1Block: U64, c: nat, id: FrameID)
    requires TxChannelsOk(s) && s.Linked()
    requires var s' := s.TxConfirmed(env, booked, l1Block); c < |s'.chans| && id in s'.chans[c].confirmed
    ensures var n := s.TxConfirmed(env, booked, l1Block).chans[c].confirmed[id];
      && c < |s.chans|
      && ((id in s.chans[c].confirmed && s.chans[c].confirmed[id] == n)
          || EventsOf(env, s, TxConfirmed(booked, l1Block), c) == [Published(n)])
  {
    if booked in s.txChannels {
      ConfirmEffect(env, s, booked, l1Block);
      Booked(env, s.chans, s.TxConfirmed(env, booked, l1Block).chans, booked, l1Block, c, id);
    }
  }

  lemma Booked(env: Env, chans: seq<Chan>, chans': seq<Chan>, booked: FrameID, l1Block: U64, c: nat, id: FrameID)
    requires booked.chID < |chans| && chans' == chans[booked.chID := chans[booked.chID].Confirm(env, booked, l1Block)]
    requires c < |chans| && id in chans'[c].confirmed
    ensures (id in chans[c].confirmed && chans[c].confirmed[id] == chans'[c].confirmed[id])
      || (c == booked.chID && chans'[c].confirmed[id] == l1Block)
  {
  }

  lemma MoveConfirmed(s: Manager, s': Manager, k: nat, failed: bool, c: nat, id: FrameID)
    requires Moved(s, s', k, failed) || Same(s, s')
    requires c < |s'.chans| && id in s'.chans[c].confirmed
    ensures c < |s.chans| && id in s.chans[c].confirmed && s.chans[c].confirmed[id] == s'.chans[c].confirmed[id]
  {
    if c < |s.chans| && (Same(s, s') || c < |s'.chans| - 1) {
      assert SameChan(s.chans[c], s'.chans[c]);
    }
  }

  /** All deadlines that a run of the manager brings to channel `c`. */
  ghost function OffersTo(env: Env, ops: seq<Op>, c: nat): seq<Offer> {
    Offers(env, c, Events(env, ops, c))
  }

  /** On every run the deadline of a channel is the zero-sentinel minimum of all deadlines the run
      brings to it. With positive deadlines it is the least of them, for the reason of the first
      that attains it, and so not after the one of any of its blocks or inclusion blocks. */
  lemma ChannelDeadlines(env: Env, ops: seq<Op>, c: nat)
    requires c < |Run(env, ops).chans|
    ensures var ch, offers := Run(env, ops).chans[c], OffersTo(env, ops, c);
      && ch.builder.timeout == SentinelMin.Fold(0, Deadlines(offers))
      && (Positive(offers) ==>
            && HoldsFirstLeast(ch.builder, offers)
            && (forall id | id in ch.confirmed :: ch.builder.timeout <= PublishedDeadline(env.cfg, ch.confirmed[id]))
            && (forall b | b in ch.builder.blocks :: ch.builder.timeout <= WindowDeadline(env.cfg, b)))
  {
    var ch, events := Run(env, ops).chans[c], Events(env, ops, c);
    EventsBuild(env, ops, c);
    TimeoutIsFold(env, c, events);
    if Positive(OffersTo(env, ops, c)) {
      DeadlineIsFirstLeast(env, c, events);
      forall id | id in ch.confirmed ensures ch.builder.timeout <= PublishedDeadline(env.cfg, ch.confirmed[id]) {
        ConfirmedPublished(env, ops, c, id);
        PublishedOffered(env, c, events, ch.confirmed[id]);
        LeastOffer(ch.builder, Offers(env, c, events));
      }
      forall b | b in ch.builder.blocks ensures ch.builder.timeout <= WindowDeadline(env.cfg, b) {
        BlocksOffered(env, c, events, b);
        LeastOffer(ch.builder, Offers(env, c, events));
      }
    }
  }

  lemma LeastOffer(b: Builder, offers: seq<Offer>)
    requires HoldsFirstLeast(b, offers)
    ensures forall o | o in offers :: b.timeout <= o.deadline
  {
  }

  /** From `a` to `b` no deadline was brought and the full flag stayed. */
  ghost predicate Quiet(env: Env, c: nat, a: seq<BuilderOp>, b: seq<BuilderOp>) {
    Offers(env, c, b) == Offers(env, c, a) && RunBuilder(env, c, b).fullErr == RunBuilder(env, c, a).fullErr
  }

  /** Output and pops are quiet. */
  lemma {:induction false} QuietTail(env: Env, c: nat, events: seq<BuilderOp>, tail: seq<BuilderOp>, all: seq<BuilderOp>)
    requires (forall e | e in tail :: e.Output? || e.Pop?) && all == events + tail
    ensures Quiet(env, c, events, all)
    decreases |tail|
  {
    if tail == [] {
      assert all == events;
    } else {
      var init, before := tail[..|tail| - 1], all[..|all| - 1];
      assert before == events + init;
      QuietTail(env, c, events, init, before);
      QuietOne(env, c, before, all);
    }
  }

  lemma QuietOne(env: Env, c: nat, before: seq<BuilderOp>, all: seq<BuilderOp>)
    requires all != [] && before == all[..|all| - 1] && (all[|all| - 1].Output? || all[|all| - 1].Pop?)
    ensures Quiet(env, c, before, all)
  {
  }

  /** The last event of filling, but for output and pops, is that the L1 head is registered. */
  lemma FillRegisters(env: Env, s: Manager, l1Head: U64) returns (adds: seq<BuilderOp>, tail: seq<BuilderOp>)
    requires s.Linked() && s.current.Some?
    requires !Process(env, s.chans[s.current.value].builder, s.blocks).failed
    ensures FillEvents(env, s, l1Head) == adds + [Register(l1Head)] + tail
    ensures forall e | e in tail :: e.Output? || e.Pop?
  {
    var b := s.chans[s.current.value].builder;
    var (b', ok) := Process(env, b, s.blocks).builder.RegisterL1Block(env, l1Head).OutputFrames(env);
    adds := AddEvents(env, b, s.blocks);
    tail := [Output] + if ok && b'.frames != [] then [Pop] else [];
    assert [Register(l1Head), Output] == [Register(l1Head)] + [Output];
  }

  lemma OpenBefore(env: Env, c: nat, events: seq<BuilderOp>, l1Head: U64, tail: seq<BuilderOp>)
    requires forall e | e in tail :: e.Output? || e.Pop?
    requires !RunBuilder(env, c, events + [Register(l1Head)] + tail).IsFull()
    requires Positive(Offers(env, c, events + [Register(l1Head)] + tail))
    ensures forall o | o in Offers(env, c, events + [Register(l1Head)] + tail) :: l1Head < o.deadline
  {
    QuietTail(env, c, events + [Register(l1Head)], tail, events + [Register(l1Head)] + tail);
    OpenMeansBeforeEveryDeadline(env, c, events, l1Head);
  }

  /** A channel that is filled and still open afterwards lies, with positive deadlines, strictly
      before every deadline the run has brought to it. */
  lemma OpenAfterFilling(env: Env, ops: seq<Op>, l1Head: U64, c: nat)
    requires Fills(Run(env, ops)) && !Run(env, ops).TxData(env, l1Head).1.Failed?
    requires Run(env, ops).EnsureChannelWithSpace().current == Some(c)
    requires !BuilderAt(Run(env, ops + [TxData(l1Head)]), c).IsFull()
    requires Positive(OffersTo(env, ops + [TxData(l1Head)], c))
    ensures forall o | o in OffersTo(env, ops + [TxData(l1Head)], c) :: l1Head < o.deadline
  {
    var events, tail := EventsAfterFilling(env, ops, l1Head, c);
    EventsBuild(env, ops + [TxData(l1Head)], c);
    OpenBefore(env, c, events, l1Head, tail);
  }

  lemma EventsAfterFilling(env: Env, ops: seq<Op>, l1Head: U64, c: nat) returns (events: seq<BuilderOp>, tail: seq<BuilderOp>)
    requires Fills(Run(env, ops)) && !Run(env, ops).TxData(env, l1Head).1.Failed?
    requires Run(env, ops).EnsureChannelWithSpace().current == Some(c)
    ensures Events(env, ops + [TxData(l1Head)], c) == events + [Register(l1Head)] + tail
    ensures forall e | e in tail :: e.Output? || e.Pop?
  {
    var s := Run(env, ops);
    events, tail := EventsOfFilling(env, s, l1Head, c);
    EventsSnoc(env, ops, TxData(l1Head), c);
    Reassociate(Events(env, ops, c), events, Register(l1Head), tail);
    events := Events(env, ops, c) + events;
  }

  lemma Reassociate(a: seq<BuilderOp>, b: seq<BuilderOp>, e: BuilderOp, c: seq<BuilderOp>)
    ensures a + (b + [e] + c) == a + b + [e] + c
  {
  }

  lemma EventsOfFilling(env: Env, s: Manager, l1Head: U64, c: nat) returns (adds: seq<BuilderOp>, tail: seq<BuilderOp>)
    requires Inv(env, s) && s.Linked() && Fills(s) && !s.TxData(env, l1Head).1.Failed?
    requires s.EnsureChannelWithSpace().current == Some(c)
    ensures EventsOf(env, s, TxData(l1Head), c) == adds + [Register(l1Head)] + tail
    ensures forall e | e in tail :: e.Output? || e.Pop?
  {
    FillPhaseEvents(env, s, l1Head);
    adds, tail := FillRegisters(env, s.EnsureChannelWithSpace(), l1Head);
  }

  lemma EventsSnoc(env: Env, ops: seq<Op>, op: Op, c: nat)
    ensures Events(env, ops + [op], c) == Events(env, ops, c) + EventsOf(env, Run(env, ops), op, c)
  {
    assert (ops + [op])[..|ops|] == ops;
  }

  lemma FillPhaseEvents(env: Env, s: Manager, l1Head: U64)
    requires Inv(env, s) && s.Linked() && Fills(s) && !s.TxData(env, l1Head).1.Failed?
    ensures var s1 := s.EnsureChannelWithSpace();
      && s1.Linked() && s1.current.Some?
      && !Process(env, s1.chans[s1.current.value].builder, s1.blocks).failed
      && EventsOf(env, s, TxData(l1Head), s1.current.value) == FillEvents(env, s1, l1Head)
  {
    FillSteps(env, s, l1Head);
  }

  /** What this buys, in L1 blocks. */

  lemma {:induction false} RegisteredOffered(env: Env, c: nat, events: seq<BuilderOp>, n: U64)
    requires Register(n) in events && env.cfg.maxChannelDuration != 0
    ensures exists o :: o in Offers(env, c, events) && o.deadline == DurationDeadline(env.cfg, n)
  {
    var before, e := events[..|events| - 1], events[|events| - 1];
    if e == Register(n) {
      assert Offer(DurationDeadline(env.cfg, n), MaxDurationReached) in Offers(env, c, events);
    } else {
      RegisteredOffered(env, c, before, n);
    }
  }

  lemma {:induction false} EventsGrow(env: Env, ops: seq<Op>, some: seq<Op>, c: nat, e: BuilderOp)
    requires some <= ops && e in Events(env, some, c)
    ensures e in Events(env, ops, c)
    decreases |ops|
  {
    if |some| < |ops| {
      var before := ops[..|ops| - 1];
      EventsGrow(env, before, some, c, e);
      OneMoreCall(env, ops, before, c, e);
    } else {
      assert some == ops;
    }
  }

  lemma OneMoreCall(env: Env, ops: seq<Op>, before: seq<Op>, c: nat, e: BuilderOp)
    requires ops != [] && before == ops[..|ops| - 1] && e in Events(env, before, c)
    ensures e in Events(env, ops, c)
  {
  }

  /** Call `i` of the run filled channel `c` at L1 head `n`. */
  ghost predicate FilledAt(env: Env, ops: seq<Op>, i: nat, c: nat, n: U64) {
    && i < |ops| && ops[i] == TxData(n) && Fills(Run(env, ops[..i]))
    && !Run(env, ops[..i]).TxData(env, n).1.Failed? && Run(env, ops[..i]).EnsureChannelWithSpace().current == Some(c)
  }

  /** The L1 heads that channel `c` was filled at. */
  ghost function FilledHeads(env: Env, ops: seq<Op>, c: nat): iset<nat> {
    iset i, n: U64 | FilledAt(env, ops, i, c, n) :: n
  }

  lemma FilledRegisters(env: Env, ops: seq<Op>, i: nat, c: nat, n: U64)
    requires FilledAt(env, ops, i, c, n)
    ensures Register(n) in Events(env, ops, c)
  {
    PrefixNext(ops, i);
    RegisteredIn(env, ops, ops[..i], c, n);
  }

  lemma PrefixNext(ops: seq<Op>, i: nat)
    requires i < |ops|
    ensures ops[..i] + [ops[i]] <= ops
  {
  }

  lemma RegisteredIn(env: Env, ops: seq<Op>, before: seq<Op>, c: nat, n: U64)
    requires before + [TxData(n)] <= ops && Fills(Run(env, before)) && !Run(env, before).TxData(env, n).1.Failed?
    requires Run(env, before).EnsureChannelWithSpace().current == Some(c)
    ensures Register(n) in Events(env, ops, c)
  {
    var upto := RegistersNow(env, before, c, n);
    EventsGrow(env, ops, upto, c, Register(n));
  }

  lemma RegistersNow(env: Env, ops: seq<Op>, c: nat, n: U64) returns (ops': seq<Op>)
    requires Fills(Run(env, ops)) && !Run(env, ops).TxData(env, n).1.Failed?
    requires Run(env, ops).EnsureChannelWithSpace().current == Some(c)
    ensures ops' == ops + [TxData(n)] && Register(n) in Events(env, ops', c)
  {
    var events, tail := EventsAfterFilling(env, ops, n, c);
    ops' := ops + [TxData(n)];
    InMiddle(events, Register(n), tail);
  }

  lemma InMiddle(a: seq<BuilderOp>, e: BuilderOp, b: seq<BuilderOp>)
    ensures e in a + [e] + b
  {
    assert (a + [e] + b)[|a|] == e;
  }

  /** L1 head `n` lies before the deadlines of all blocks and confirmations of the channel, and of all
      its fillings, at the L1 heads `heads`. */
  ghost predicate BeforeDeadlines(cfg: Config, heads: iset<nat>, ch: Chan, n: U64) {
    && (forall b | b in ch.builder.blocks :: n < WindowDeadline(cfg, b))
    && (forall id | id in ch.confirmed :: n < PublishedDeadline(cfg, ch.confirmed[id]))
    && (cfg.maxChannelDuration != 0 ==> forall m: U64 | m in heads :: n < DurationDeadline(cfg, m))
  }

  lemma OpenBeforeDeadlines(env: Env, ops: seq<Op>, c: nat, n: U64)
    requires c < |Run(env, ops).chans| && forall o | o in OffersTo(env, ops, c) :: n < o.deadline
    ensures BeforeDeadlines(env.cfg, FilledHeads(env, ops, c), Run(env, ops).chans[c], n)
  {
    var ch, events := Run(env, ops).chans[c], Events(env, ops, c);
    EventsBuild(env, ops, c);
    forall b | b in ch.builder.blocks ensures n < WindowDeadline(env.cfg, b) {
      BlocksOffered(env, c, events, b);
    }
    forall id | id in ch.confirmed ensures n < PublishedDeadline(env.cfg, ch.confirmed[id]) {
      ConfirmedPublished(env, ops, c, id);
      PublishedOffered(env, c, events, ch.confirmed[id]);
    }
    if env.cfg.maxChannelDuration != 0 {
      HeadsBefore(env, ops, c, n);
    }
  }

  lemma HeadsBefore(env: Env, ops: seq<Op>, c: nat, n: U64)
    requires env.cfg.maxChannelDuration != 0 && forall o | o in OffersTo(env, ops, c) :: n < o.deadline
    ensures forall m: U64 | m in FilledHeads(env, ops, c) :: n < DurationDeadline(env.cfg, m)
  {
    forall m: U64 | m in FilledHeads(env, ops, c) ensures n < DurationDeadline(env.cfg, m) {
      var i :| FilledAt(env, ops, i, c, m);
      FilledRegisters(env, ops, i, c, m);
      RegisteredOffered(env, c, Events(env, ops, c), m);
    }
  }

  /** In time to be sent: `n` plus the safety margin lies before the end of the sequencing window of
      each block and before the timeout counted from each confirmation, and `n` before the maximal
      duration counted from each of `heads`. That is said of deadlines that fit into 64 bits. */
  ghost predicate InTime(cfg: Config, heads: iset<nat>, ch: Chan, n: U64) {
    && (forall b | b in ch.builder.blocks && cfg.subSafetyMargin <= b.epoch + cfg.seqWindowSize < TWO_64 + cfg.subSafetyMargin ::
          n + cfg.subSafetyMargin < b.epoch + cfg.seqWindowSize)
    && (forall id | id in ch.confirmed
                    && cfg.subSafetyMargin <= ch.confirmed[id] + cfg.channelTimeout < TWO_64 + cfg.subSafetyMargin ::
          n + cfg.subSafetyMargin < ch.confirmed[id] + cfg.channelTimeout)
    && (cfg.maxChannelDuration != 0 ==>
          forall m | m in heads && m + cfg.maxChannelDuration < TWO_64 :: n < m + cfg.maxChannelDuration)
  }

  lemma BeforeIsInTime(cfg: Config, heads: iset<nat>, ch: Chan, n: U64)
    requires BeforeDeadlines(cfg, heads, ch, n)
    ensures InTime(cfg, heads, ch, n)
  {
    forall b | b in ch.builder.blocks {
      BeforeWindow(cfg, b, n);
    }
    forall id | id in ch.confirmed {
      BeforeTimeout(cfg, ch.confirmed[id], n);
    }
    if cfg.maxChannelDuration != 0 {
      forall m | m in heads && m + cfg.maxChannelDuration < TWO_64 ensures n < m + cfg.maxChannelDuration {
        assert n < DurationDeadline(cfg, m);
        Unwrapped(m + cfg.maxChannelDuration);
      }
    }
  }

  lemma BeforeWindow(cfg: Config, b: Block, n: U64)
    requires n < WindowDeadline(cfg, b)
    ensures cfg.subSafetyMargin <= b.epoch + cfg.seqWindowSize < TWO_64 + cfg.subSafetyMargin ==>
      n + cfg.subSafetyMargin < b.epoch + cfg.seqWindowSize
  {
    if cfg.subSafetyMargin <= b.epoch + cfg.seqWindowSize < TWO_64 + cfg.subSafetyMargin {
      Unwrapped(b.epoch + cfg.seqWindowSize - cfg.subSafetyMargin);
    }
  }

  lemma BeforeTimeout(cfg: Config, m: U64, n: U64)
    requires n < PublishedDeadline(cfg, m)
    ensures cfg.subSafetyMargin <= m + cfg.channelTimeout < TWO_64 + cfg.subSafetyMargin ==>
      n + cfg.subSafetyMargin < m + cfg.channelTimeout
  {
    if cfg.subSafetyMargin <= m + cfg.channelTimeout < TWO_64 + cfg.subSafetyMargin {
      Unwrapped(m + cfg.channelTimeout - cfg.subSafetyMargin);
    }
  }

  lemma Unwrapped(x: int)
    requires 0 <= x < TWO_64
    ensures Wrap(x) == x
  {
  }

  /** A channel that is filled at L1 head `l1Head` and still open afterwards can be sent in time, if no
      deadline brought to it reads as 0. */
  lemma OpenInTime(env: Env, ops: seq<Op>, l1Head: U64, c: nat)
    requires Fills(Run(env, ops)) && !Run(env, ops).TxData(env, l1Head).1.Failed?
    requires Run(env, ops).EnsureChannelWithSpace().current == Some(c)
    requires !BuilderAt(Run(env, ops + [TxData(l1Head)]), c).IsFull()
    requires Positive(OffersTo(env, ops + [TxData(l1Head)], c))
    ensures var ops' := ops + [TxData(l1Head)];
      c < |Run(env, ops').chans| && InTime(env.cfg, FilledHeads(env, ops', c), Run(env, ops').chans[c], l1Head)
  {
    var ops' := ops + [TxData(l1Head)];
    FilledExists(env, ops, l1Head, c);
    OpenAfterFilling(env, ops, l1Head, c);
    OpenBeforeDeadlines(env, ops', c, l1Head);
    BeforeIsInTime(env.cfg, FilledHeads(env, ops', c), Run(env, ops').chans[c], l1Head);
  }

  lemma FilledExists(env: Env, ops: seq<Op>, l1Head: U64, c: nat)
    requires Fills(Run(env, ops)) && Run(env, ops).EnsureChannelWithSpace().current == Some(c)
    ensures c < |Run(env, ops + [TxData(l1Head)]).chans|
  {
    RunSnoc(env, ops, TxData(l1Head));
    FillSteps(env, Run(env, ops), l1Head);
  }
}
