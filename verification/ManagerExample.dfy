/** A run on which the order of the blocks is lost: an older channel times out while a newer one
    already holds a block. */
module ManagerExample {
  import opened Options
  import opened BatcherTypes
  import opened Words
  import opened ChannelBuilders
  import opened Channels
  import opened CloseSweep
  import opened ManagerSpec
  import opened ManagerRuns
  import opened ManagerOrder

  /** Every channel takes one block and puts out two frames. */
  function TwoFrames(): Env {
    Env(Config(100, 10, 0, 0),
        Codec((_, _, _) => Taken(Some(TooManyRLPBytes)), (_, _, _) => 0, (_, _, _) => 1, (_, _) => []))
  }

  const FIRST: Block := Block(1, 7, 1, 0)
  const SECOND: Block := Block(2, 1, 2, 0)

  function FrameAt(c: nat, n: nat): Frame {
    Frame(FrameID(c, n), [])
  }

  /** The channel with `block` after its two frames were put out. */
  function Cut(c: nat, block: Block, frames: seq<Frame>): Builder {
    Builder(c, 100, SeqWindowClose, Some(TooManyRLPBytes), true, [block], frames, 2)
  }

  function OneSent(c: nat, block: Block): Chan {
    Chan(Cut(c, block, [FrameAt(c, 1)]), map[FrameID(c, 0) := FrameAt(c, 0)], map[])
  }

  function BothSent(c: nat, block: Block): Chan {
    Chan(Cut(c, block, []), map[FrameID(c, 0) := FrameAt(c, 0), FrameID(c, 1) := FrameAt(c, 1)], map[])
  }

  const ID0: FrameID := FrameID(0, 0)
  const ID1: FrameID := FrameID(0, 1)
  const ID2: FrameID := FrameID(1, 0)

  function State(step: nat): Manager
    requires step <= 6
  {
    var one, both, next := OneSent(0, FIRST), BothSent(0, FIRST), OneSent(1, SECOND);
    if step == 0 then NewManager()
    else if step == 1 then Manager([FIRST], 1, None, [], map[], false, [], 0)
    else if step == 2 then Manager([], 1, Some(0), [0], map[ID0 := 0], false, [one], 0)
    else if step == 3 then Manager([], 1, Some(0), [0], map[ID0 := 0, ID1 := 0], false, [both], 0)
    else if step == 4 then Manager([SECOND], 2, Some(0), [0], map[ID0 := 0, ID1 := 0], false, [both], 0)
    else if step == 5 then Manager([], 2, Some(1), [0, 1], map[ID0 := 0, ID1 := 0, ID2 := 1], false, [both, next], 0)
    else Manager([], 2, Some(1), [0, 1], map[ID1 := 0, ID2 := 1], false, [both.Confirm(TwoFrames(), ID0, 0), next], 0)
  }

  function Call(step: nat): Op
    requires step < 7
  {
    if step == 0 then AddL2Block(FIRST)
    else if step == 1 || step == 2 then TxData(0)
    else if step == 3 then AddL2Block(SECOND)
    else if step == 4 then TxData(0)
    else if step == 5 then TxConfirmed(ID0, 0)
    else TxConfirmed(ID1, 10)
  }

  lemma ProcessOne(c: nat, block: Block)
    requires block.epoch == 0
    ensures Process(TwoFrames(), NewBuilder(c), [block]) ==
      Processed(Builder(c, 100, SeqWindowClose, Some(TooManyRLPBytes), false, [block], [], 0), 1, false)
  {
  }

  lemma Filled(c: nat, block: Block)
    requires block.epoch == 0
    ensures var p := Process(TwoFrames(), NewBuilder(c), [block]);
      p.added == 1 && !p.failed &&
      p.builder.RegisterL1Block(TwoFrames(), 0).OutputFrames(TwoFrames()) == (Cut(c, block, [FrameAt(c, 0), FrameAt(c, 1)]), true)
  {
    ProcessOne(c, block);
    var env, b := TwoFrames(), Process(TwoFrames(), NewBuilder(c), [block]).builder;
    assert b.RegisterL1Block(env, 0) == b;
    var frames := env.Emit(c, 0, 2);
    assert frames[0] == FrameAt(c, 0) && frames[1] == FrameAt(c, 1);
    assert [] + frames == [FrameAt(c, 0), FrameAt(c, 1)];
    assert b.OutputFrames(env) == (b.Append(env, 2).(closed := true), true);
  }

  function Ready(c: nat, block: Block): Chan {
    Chan(Cut(c, block, [FrameAt(c, 0), FrameAt(c, 1)]), map[], map[])
  }

  lemma PopFirst(c: nat, block: Block)
    ensures Ready(c, block).NextTxData() == (OneSent(c, block), FrameAt(c, 0))
  {
  }

  lemma PopSecond(c: nat, block: Block)
    ensures OneSent(c, block).NextTxData() == (BothSent(c, block), FrameAt(c, 1))
  {
    var ch := OneSent(c, block);
    assert ch.builder.frames[1..] == [];
    assert ch.builder.PopFrame() == (Cut(c, block, []), FrameAt(c, 1));
    assert ch.pending[FrameID(c, 1) := FrameAt(c, 1)] == BothSent(c, block).pending;
  }

  /** Filling a new channel with one block. */
  lemma FillNew(s: Manager, c: nat, block: Block)
    requires s.Linked() && s.current == Some(c) && c < |s.chans| && s.chans[c] == NewChan(c)
    requires s.blocks == [block] && block.epoch == 0
    ensures s.FillCurrent(TwoFrames(), 0) == (s.(blocks := [], chans := s.chans[c := Ready(c, block)]), true)
  {
    Filled(c, block);
    assert s.blocks[1..] == [];
  }

  lemma FirstTx()
    ensures State(1).Linked() && State(1).TxData(TwoFrames(), 0).0 == State(2)
  {
    var s := State(1).EnsureChannelWithSpace();
    assert s == Manager([FIRST], 1, Some(0), [0], map[], false, [NewChan(0)], 0);
    FillNew(s, 0, FIRST);
    PopFirst(0, FIRST);
    assert s.chans[0 := Ready(0, FIRST)] == [Ready(0, FIRST)];
    assert [Ready(0, FIRST)][0 := OneSent(0, FIRST)] == [OneSent(0, FIRST)];
  }

  lemma SecondTx()
    ensures State(2).Linked() && State(2).TxData(TwoFrames(), 0).0 == State(3)
  {
    var s := State(2);
    assert FirstWithFrame(s.chans, s.queue) == Some(0);
    PopSecond(0, FIRST);
    assert s.chans[0 := BothSent(0, FIRST)] == [BothSent(0, FIRST)];
    assert s.txChannels[ID1 := 0] == map[ID0 := 0, ID1 := 0];
  }

  lemma ThirdTx()
    ensures State(4).Linked() && State(4).TxData(TwoFrames(), 0).0 == State(5)
  {
    assert FirstWithFrame(State(4).chans, State(4).queue).None? by {
      assert State(4).queue[1..] == [];
    }
    var s := State(4).EnsureChannelWithSpace();
    assert s == Manager([SECOND], 2, Some(1), [0, 1], State(4).txChannels, false, [BothSent(0, FIRST), NewChan(1)], 0);
    FillNew(s, 1, SECOND);
    var s2 := s.FillCurrent(TwoFrames(), 0).0;
    assert s2 == Manager([], 2, Some(1), [0, 1], State(4).txChannels, false, [BothSent(0, FIRST), Ready(1, SECOND)], 0);
    ThirdPop(s2);
  }

  lemma ThirdPop(s: Manager)
    requires s == Manager([], 2, Some(1), [0, 1], State(4).txChannels, false, [BothSent(0, FIRST), Ready(1, SECOND)], 0)
    ensures s.NextTxData(Some(1)).0 == State(5)
  {
  }

  lemma FirstConfirmedChan(env: Env)
    requires env == TwoFrames()
    ensures var ch := BothSent(0, FIRST); ch.TxConfirmed(env, ID0, 0) == (ch.Confirm(env, ID0, 0), false, [])
  {
  }

  /** A confirmation after which the channel is not done. */
  lemma NotDone(env: Env, s: Manager, id: FrameID, l1Block: U64, c: nat, ch: Chan)
    requires s.Linked() && id in s.txChannels && s.txChannels[id] == c < |s.chans|
    requires s.chans[c].TxConfirmed(env, id, l1Block) == (ch, false, [])
    ensures s.TxConfirmed(env, id, l1Block) == s.(txChannels := s.txChannels - {id}, chans := s.chans[c := ch])
  {
  }

  lemma FirstConfirmation(env: Env, s: Manager)
    requires env == TwoFrames() && s == State(5)
    ensures s.Linked() && s.TxConfirmed(env, ID0, 0) == State(6)
  {
    FirstConfirmedChan(env);
    var ch' := BothSent(0, FIRST).Confirm(env, ID0, 0);
    NotDone(env, s, ID0, 0, 0, ch');
    assert s.txChannels - {ID0} == map[ID1 := 0, ID2 := 1];
    assert s.chans[0 := ch'] == [ch', OneSent(1, SECOND)];
  }

  lemma ConcatTwo(l: seq<seq<Block>>, x: seq<Block>, y: seq<Block>)
    requires l == [x, y]
    ensures Concat(l) == x + y && Concat(l[1..]) == y
  {
    assert l[..1] == [x] && l[..1][..0] == [] && l[1..] == [y] && l[1..][..0] == [];
    assert Concat(l[..1]) == Concat([]) + x;
    assert Concat(l[1..]) == Concat([]) + y;
  }

  lemma LivesBefore(env: Env, s: Manager)
    requires env == TwoFrames() && s == State(6)
    ensures s.epoch <= |s.chans|
    ensures Lives(env, s) == [[FIRST], [SECOND]] && Content(env, s) == [FIRST, SECOND]
  {
    assert !s.chans[0].TimedOut(env.cfg) && !s.chans[1].TimedOut(env.cfg);
    var l := Lives(env, s);
    assert s.chans[0].builder.blocks == [FIRST] && s.chans[1].builder.blocks == [SECOND];
    assert |l| == 2 && l[0] == Live(env, s.chans[0]) && l[1] == Live(env, s.chans[1]);
    ConcatTwo(l, [FIRST], [SECOND]);
  }

  /** A confirmation that costs the order. */
  ghost predicate BadConfirm(env: Env, s: Manager, id: FrameID, l1Block: U64) {
    TxChannelsOk(s) && s.epoch <= |s.chans| && !OrderlyConfirm(env, s, id, l1Block)
  }

  lemma LaterBlocks(env: Env, s: Manager, id: FrameID, l1Block: U64)
    requires TxChannelsOk(s) && s.epoch <= |s.chans| && id in s.txChannels
    requires s.chans[id.chID].Confirm(env, id, l1Block).TimedOut(env.cfg) && s.chans[id.chID].builder.blocks != []
    requires Concat(Lives(env, s)[id.chID + 1 - s.epoch..]) != []
    ensures BadConfirm(env, s, id, l1Block)
  {
  }

  /** The last confirmation comes ten blocks after the other one, so the first channel times out
      beside the second one. */
  lemma LastConfirmation(env: Env, s: Manager)
    requires env == TwoFrames() && s == State(6)
    ensures BadConfirm(env, s, ID1, 10)
  {
    TimesOut();
    LivesBefore(env, s);
    TxChannelsBefore();
    ConcatTwo(Lives(env, s), [FIRST], [SECOND]);
    assert s.chans[0].builder.blocks == [FIRST];
    LaterBlocks(env, s, ID1, 10);
  }

  lemma TxChannelsBefore()
    ensures TxChannelsOk(State(6)) && ID1 in State(6).txChannels
  {
  }

  lemma TimesOut()
    ensures State(6).chans[0].Confirm(TwoFrames(), ID1, 10).TimedOut(TwoFrames().cfg)
  {
    var ch' := State(6).chans[0].Confirm(TwoFrames(), ID1, 10);
    assert ch'.confirmed[ID1] == 10 && ch'.confirmed[ID0] == 0;
  }

  /** One more call on a run. */
  lemma Extend(env: Env, ops: seq<Op>, op: Op, s: Manager, s': Manager, acc: seq<Block>)
    requires Run(env, ops) == s && Accepted(env, ops) == acc && !op.Clear?
    requires s.Linked() && Step(env, s, op) == s'
    ensures Run(env, ops + [op]) == s' && Accepted(env, ops + [op]) == acc + Adds(s, op)
  {
    assert (ops + [op])[..|ops|] == ops;
    AcceptedGrows(env, ops + [op]);
  }

  /** The state and the accepted blocks after some calls. */
  ghost predicate Reached(env: Env, ops: seq<Op>, s: Manager, acc: seq<Block>) {
    Run(env, ops) == s && Accepted(env, ops) == acc
  }

  lemma SecondAdd()
    ensures State(3).AddL2Block(SECOND) == (State(4), true)
  {
    assert [] + [SECOND] == [SECOND];
  }

  lemma AfterFirstAdd(env: Env) returns (ops: seq<Op>)
    requires env == TwoFrames()
    ensures Reached(env, ops, State(1), [FIRST])
  {
    assert [] + [FIRST] == [FIRST];
    Extend(env, [], Call(0), State(0), State(1), []);
    ops := [] + [Call(0)];
  }

  lemma AfterFirstTx(env: Env) returns (ops: seq<Op>)
    requires env == TwoFrames()
    ensures Reached(env, ops, State(2), [FIRST])
  {
    var before := AfterFirstAdd(env);
    FirstTx();
    Extend(env, before, Call(1), State(1), State(2), [FIRST]);
    ops := before + [Call(1)];
  }

  lemma AfterSecondTx(env: Env) returns (ops: seq<Op>)
    requires env == TwoFrames()
    ensures Reached(env, ops, State(3), [FIRST])
  {
    var before := AfterFirstTx(env);
    SecondTx();
    Extend(env, before, Call(2), State(2), State(3), [FIRST]);
    ops := before + [Call(2)];
  }

  lemma AfterSecondAdd(env: Env) returns (ops: seq<Op>, s: Manager)
    requires env == TwoFrames()
    ensures Reached(env, ops, s, [FIRST, SECOND]) && s == State(4)
  {
    var before := AfterSecondTx(env);
    SecondAdd();
    s := State(4);
    ops := More(env, before, AddL2Block(SECOND), State(3), s, [FIRST], [FIRST, SECOND]);
  }

  lemma AfterThirdTx(env: Env) returns (ops: seq<Op>, s: Manager)
    requires env == TwoFrames()
    ensures Reached(env, ops, s, [FIRST, SECOND]) && s == State(5)
  {
    var before, s4 := AfterSecondAdd(env);
    s := SendThird(env, s4);
    ops := More(env, before, TxData(0), s4, s, [FIRST, SECOND], [FIRST, SECOND]);
  }

  lemma SendThird(env: Env, s: Manager) returns (s': Manager)
    requires env == TwoFrames() && s == State(4)
    ensures s.Linked() && s' == Step(env, s, TxData(0)) && s' == State(5)
  {
    ThirdTx();
    s' := State(5);
  }

  /** One more call on a run that is known by what it reaches. */
  lemma More(env: Env, before: seq<Op>, op: Op, s: Manager, s': Manager, acc: seq<Block>, acc': seq<Block>)
      returns (ops: seq<Op>)
    requires Reached(env, before, s, acc) && !op.Clear?
    requires s.Linked() && Step(env, s, op) == s' && acc' == acc + Adds(s, op)
    ensures ops == before + [op] && Reached(env, ops, s', acc')
  {
    Extend(env, before, op, s, s', acc);
    ops := before + [op];
  }

  lemma AfterFirstConfirmation(env: Env) returns (ops: seq<Op>, s: Manager)
    requires env == TwoFrames()
    ensures Reached(env, ops, s, [FIRST, SECOND]) && s == State(6)
  {
    var before, s5 := AfterThirdTx(env);
    s := ConfirmFirst(env, s5);
    ops := More(env, before, TxConfirmed(ID0, 0), s5, s, [FIRST, SECOND], [FIRST, SECOND]);
  }

  lemma ConfirmFirst(env: Env, s: Manager) returns (s': Manager)
    requires env == TwoFrames() && s == State(5)
    ensures s.Linked() && s' == Step(env, s, TxConfirmed(ID0, 0)) && s' == State(6)
  {
    FirstConfirmation(env, s);
    s' := State(6);
  }

  /** So there is a run with distinct blocks after which the content is no longer the accepted
      blocks in their order. */
  lemma OrderCanBeLost(env: Env) returns (ops: seq<Op>)
    requires env == TwoFrames()
    ensures ops != [] && NoRepeats(Accepted(env, ops[..|ops| - 1]))
    ensures Content(env, Run(env, ops)) != Accepted(env, ops)
  {
    var before, s := BadMoment(env);
    ops := LostBy(env, before, s, ID1, 10, [FIRST, SECOND]);
  }

  /** The content is in order, and the next confirmation costs the order. */
  ghost predicate OnTheBrink(env: Env, before: seq<Op>, s: Manager, id: FrameID, l1Block: U64, acc: seq<Block>) {
    Reached(env, before, s, acc) && BadConfirm(env, s, id, l1Block) && Content(env, s) == acc && NoRepeats(acc)
  }

  lemma BadMoment(env: Env) returns (before: seq<Op>, s: Manager)
    requires env == TwoFrames()
    ensures OnTheBrink(env, before, s, ID1, 10, [FIRST, SECOND])
  {
    before, s := AfterFirstConfirmation(env);
    LivesBefore(env, s);
    LastConfirmation(env, s);
  }

  lemma LostBy(env: Env, before: seq<Op>, s: Manager, id: FrameID, l1Block: U64, acc: seq<Block>) returns (ops: seq<Op>)
    requires OnTheBrink(env, before, s, id, l1Block, acc)
    ensures ops != [] && NoRepeats(Accepted(env, ops[..|ops| - 1]))
    ensures Content(env, Run(env, ops)) != Accepted(env, ops)
  {
    ops := before + [TxConfirmed(id, l1Block)];
    assert ops[..|ops| - 1] == before;
    LastStep(env, ops);
  }
}
