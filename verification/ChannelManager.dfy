/** The channel manager object. Every public method is proved to do to the abstract state
    exactly what `ManagerSpec` says. */
module ChannelManagers {
  import opened Options
  import opened BatcherTypes
  import opened Words
  import opened ChannelBuilders
  import opened Channels
  import opened CloseSweep
  import opened ManagerSpec

  ghost function Numbers(q: seq<Channel>): (ns: seq<nat>)
    ensures |ns| == |q| && forall i | 0 <= i < |q| :: ns[i] == q[i].builder.id
  {
    seq(|q|, i requires 0 <= i < |q| => q[i].builder.id)
  }

  ghost function NumbersOf(txs: map<FrameID, Channel>): map<FrameID, nat> {
    map id | id in txs :: txs[id].builder.id
  }

  lemma NumbersOfMore(txs: map<FrameID, Channel>, id: FrameID, channel: Channel)
    ensures NumbersOf(txs[id := channel]) == NumbersOf(txs)[id := channel.builder.id]
  {
  }

  lemma NumbersOfLess(txs: map<FrameID, Channel>, id: FrameID)
    ensures NumbersOf(txs - {id}) == NumbersOf(txs) - {id}
  {
  }

  /** Cutting out the first channel with the given number, if there is one. */
  function Cut(q: seq<Channel>, i: nat): seq<Channel>
    requires i <= |q|
  {
    if i == |q| then q else q[..i] + q[i + 1..]
  }

  lemma CutIsRemove(s: Manager, q: seq<Channel>, i: nat, n: nat)
    requires s.queue == Numbers(q) && i <= |q|
    requires (forall k | 0 <= k < i :: q[k].builder.id != n) && (i < |q| ==> q[i].builder.id == n)
    ensures s.Remove(n) == s.(queue := Numbers(Cut(q, i)), current := if s.current == Some(n) then None else s.current)
  {
  }

  /** The array left behind by a removal, in terms of numbers. */
  lemma ShiftNumbers(backing: seq<Channel>, q: seq<Channel>, q': seq<Channel>, current: Option<nat>, n: nat)
    requires |q| <= |backing| && q == backing[..|q|] && |q'| <= |q|
    requires Numbers(q') == Sweep(Numbers(q), |q|, current).Remove(n).Queue()
    ensures Sweep(Numbers(backing), |q|, current).Remove(n) ==
      Sweep(Numbers(q' + backing[|q'|..]), |q'|, Sweep(Numbers(q), |q|, current).Remove(n).current)
  {
    BackingShift(Numbers(backing), |q|, current, n);
    NumbersSplit(backing, |q|);
    NumbersSplit(backing, |q'|);
    NumbersConcat(q', backing[|q'|..]);
  }

  lemma NumbersSplit(q: seq<Channel>, k: nat)
    requires k <= |q|
    ensures Numbers(q)[..k] == Numbers(q[..k]) && Numbers(q)[k..] == Numbers(q[k..])
  {
  }

  lemma NumbersConcat(a: seq<Channel>, b: seq<Channel>)
    ensures Numbers(a + b) == Numbers(a) + Numbers(b)
  {
  }

  class ChannelManager {
    const env: Env
    var blocks: seq<Block>
    var tip: nat
    var currentChannel: Channel?
    var channelQueue: seq<Channel>
    var txChannels: map<FrameID, Channel>
    var closed: bool
    /** How many channels were created; the next channel's id. */
    var created: nat
    /** Every channel ever created, and how many of them before the last `Clear`. */
    ghost var all: seq<Channel>
    ghost var epoch: nat

    ghost predicate Member(c: Channel)
      reads this
    {
      c.builder.id < |all| && all[c.builder.id] == c
    }

    ghost predicate Valid()
      reads this, all
    {
      && created == |all| && epoch <= |all|
      && (forall i | 0 <= i < |all| ::
            all[i].builder.id == i && all[i].env == env && all[i].builder.env == env)
      && (forall i | 0 <= i < |channelQueue| :: Member(channelQueue[i]))
      && (currentChannel != null ==> Member(currentChannel))
      && (forall id | id in txChannels :: Member(txChannels[id]))
    }

    ghost function Builders(): set<ChannelBuilder>
      reads this
    {
      set c | c in all :: c.builder
    }

    /** Every channel is an old one or was created since. */
    twostate predicate Grown()
      reads this
    {
      forall c | c in all :: c in old(all) || (fresh(c) && fresh(c.builder))
    }

    ghost function Current(): Option<nat>
      reads this
    {
      if currentChannel == null then None else Some(currentChannel.builder.id)
    }

    ghost function Chans(): (cs: seq<Chan>)
      reads this, all, Builders()
      ensures |cs| == |all| && forall i | 0 <= i < |all| :: cs[i] == all[i].View()
    {
      seq(|all|, i requires 0 <= i < |all| reads this, all, Builders() => all[i].View())
    }

    ghost function View(): Manager
      reads this, all, Builders()
    {
      Manager(blocks, tip, Current(), Numbers(channelQueue),
              TxNumbers(), closed, Chans(), epoch)
    }

    ghost function TxNumbers(): map<FrameID, nat>
      reads this
    {
      NumbersOf(txChannels)
    }

    constructor (env: Env)
      ensures Valid() && View() == NewManager() && this.env == env
      ensures all == []
    {
      this.env := env;
      blocks, tip, currentChannel, channelQueue, txChannels, closed := [], ZERO_HASH, null, [], map[], false;
      created, all, epoch := 0, [], 0;
    }

    method Clear()
      requires Valid()
      modifies this
      ensures Valid() && View() == old(View()).Clear() && all == old(all)
    {
      blocks := [];
      tip := ZERO_HASH;
      closed := false;
      currentChannel := null;
      channelQueue := [];
      txChannels := map[];
      epoch := |all|;
      assert Chans() == old(Chans());
    }

    method AddL2Block(block: Block) returns (ok: bool)
      requires Valid()
      modifies this
      ensures Valid() && (View(), ok) == old(View()).AddL2Block(block) && all == old(all)
    {
      if tip != ZERO_HASH && tip != block.parent {
        return false;
      }
      blocks := blocks + [block];
      tip := block.hash;
      assert Chans() == old(Chans());
      return true;
    }

    method IndexInQueue(channel: Channel) returns (i: nat)
      ensures i <= |channelQueue| && forall k | 0 <= k < i :: channelQueue[k] != channel
      ensures i < |channelQueue| ==> channelQueue[i] == channel
    {
      i := 0;
      while i < |channelQueue| && channelQueue[i] != channel
        invariant i <= |channelQueue| && forall k | 0 <= k < i :: channelQueue[k] != channel
      {
        i := i + 1;
      }
    }

    method RemovePendingChannel(channel: Channel)
      requires Valid() && Member(channel)
      modifies this`currentChannel, this`channelQueue
      ensures Valid() && View() == old(View()).Remove(channel.builder.id)
      ensures |channelQueue| <= |old(channelQueue)|
      ensures forall k | 0 <= k < |channelQueue| :: channelQueue[k] in old(channelQueue)
    {
      var i := IndexInQueue(channel);
      FirstWithNumber(channel, i);
      CutIsRemove(View(), channelQueue, i, channel.builder.id);
      TakeOut(channel, i);
    }

    method TakeOut(channel: Channel, i: nat)
      requires Valid() && Member(channel) && i <= |channelQueue|
      modifies this`currentChannel, this`channelQueue
      ensures Valid() && channelQueue == Cut(old(channelQueue), i)
      ensures View() == old(View()).(queue := Numbers(Cut(old(channelQueue), i)),
        current := if old(Current()) == Some(channel.builder.id) then None else old(Current()))
    {
      ClearCurrent(channel);
      CutQueue(i);
    }

    /** Channels are told apart by their numbers. */
    lemma FirstWithNumber(channel: Channel, i: nat)
      requires Valid() && Member(channel) && i <= |channelQueue|
      requires (forall k | 0 <= k < i :: channelQueue[k] != channel) && (i < |channelQueue| ==> channelQueue[i] == channel)
      ensures forall k | 0 <= k < i :: channelQueue[k].builder.id != channel.builder.id
    {
    }

    method ClearCurrent(channel: Channel)
      requires Valid() && Member(channel)
      modifies this`currentChannel
      ensures Valid()
      ensures View() == old(View()).(current := if old(Current()) == Some(channel.builder.id) then None else old(Current()))
    {
      if currentChannel == channel {
        currentChannel := null;
      }
      assert Chans() == old(Chans());
    }

    method CutQueue(i: nat)
      requires Valid() && i <= |channelQueue|
      modifies this`channelQueue
      ensures Valid() && View() == old(View()).(queue := Numbers(Cut(old(channelQueue), i)))
      ensures channelQueue == Cut(old(channelQueue), i)
    {
      if i < |channelQueue| {
        channelQueue := channelQueue[..i] + channelQueue[i + 1..];
      }
      assert Chans() == old(Chans());
    }

    /** One channel changed, the others and their builders did not. */
    twostate lemma OneChanged(c: Channel)
      requires Valid() && all == old(all) && Member(c)
      requires forall d | d in all && d != c :: unchanged(d) && unchanged(d.builder)
      ensures Chans() == old(Chans())[c.builder.id := c.View()]
    {
      forall i | 0 <= i < |all| && i != c.builder.id ensures all[i].View() == old(all[i].View()) {
        assert all[i] in all && all[i] != c;
      }
    }

    /** Forget a transaction and put blocks back in front of the pending ones. */
    method Forget(id: FrameID, back: seq<Block>)
      requires Valid()
      modifies this`txChannels, this`blocks
      ensures Valid() && all == old(all)
      ensures View() == old(View()).(txChannels := old(TxNumbers()) - {id}, blocks := back + old(blocks))
    {
      NumbersOfLess(txChannels, id);
      txChannels := txChannels - {id};
      blocks := back + blocks;
      assert Chans() == old(Chans());
    }

    method FailIn(channel: Channel, id: FrameID)
      requires Valid() && Member(channel)
      requires id in channel.pending ==> channel.pending[id].id.chID == channel.builder.id
      modifies channel, channel.builder
      ensures Valid() && all == old(all)
      ensures View() == old(View()).(chans := old(Chans())[channel.builder.id := old(channel.View()).TxFailed(id)])
    {
      channel.TxFailed(id);
      OneChanged(channel);
    }

    method ConfirmIn(channel: Channel, id: FrameID, l1Block: U64) returns (done: bool, back: seq<Block>)
      requires Valid() && Member(channel)
      modifies channel, channel.builder
      ensures Valid() && all == old(all)
      ensures var (ch, d, b) := old(channel.View()).TxConfirmed(env, id, l1Block);
        d == done && b == back && View() == old(View()).(chans := old(Chans())[channel.builder.id := ch])
    {
      done, back := channel.TxConfirmed(id, l1Block);
      OneChanged(channel);
    }

    method RequeueTransaction(id: FrameID)
      requires Valid() && id in txChannels
      requires id in txChannels[id].pending ==> txChannels[id].pending[id].id.chID == txChannels[id].builder.id
      modifies this`txChannels, this`blocks, txChannels[id], txChannels[id].builder
      ensures Valid() && View() == old(View()).Requeue(id) && all == old(all)
    {
      FailIn(txChannels[id], id);
      Forget(id, []);
      assert [] + old(blocks) == old(blocks);
    }

    method FailTransaction(id: FrameID)
      requires Valid() && id in txChannels
      requires id in txChannels[id].pending ==> txChannels[id].pending[id].id.chID == txChannels[id].builder.id
      modifies this, txChannels[id], txChannels[id].builder
      ensures Valid() && View() == old(View()).TxFailed(id) && all == old(all)
    {
      var channel := txChannels[id];
      RequeueTransaction(id);
      RemoveIdle(channel);
    }

    /** On the way to shutdown a channel without submitted transactions goes. */
    method RemoveIdle(channel: Channel)
      requires Valid() && Member(channel)
      modifies this`currentChannel, this`channelQueue
      ensures Valid() && all == old(all)
      ensures var s, c := old(View()), channel.builder.id;
        View() == if s.closed && s.chans[c].NoneSubmitted() then s.Remove(c) else s
    {
      assert Chans()[channel.builder.id] == channel.View();
      if closed && |channel.confirmed| == 0 && |channel.pending| == 0 {
        RemovePendingChannel(channel);
      }
    }

    method TxFailed(id: FrameID)
      requires Valid() && Inv(env, View())
      modifies this, all, Builders()
      ensures Valid() && View() == old(View()).TxFailed(id) && all == old(all)
    {
      if id in txChannels {
        PendingOwn(env, View(), id);
        FailTransaction(id);
      }
    }

    method Book(id: FrameID, l1Block: U64) returns (done: bool)
      requires Valid() && id in txChannels
      modifies this`txChannels, this`blocks, txChannels[id], txChannels[id].builder
      ensures Valid() && View() == old(View()).Book(env, id, l1Block) && all == old(all)
      ensures done == old(txChannels[id].View()).TxConfirmed(env, id, l1Block).1
    {
      var back;
      done, back := ConfirmIn(txChannels[id], id, l1Block);
      Forget(id, back);
    }

    method TxConfirmed(id: FrameID, l1Block: U64)
      requires Valid() && View().Linked()
      modifies this, all, Builders()
      ensures Valid() && View() == old(View()).TxConfirmed(env, id, l1Block) && all == old(all)
    {
      if id in txChannels {
        var channel := txChannels[id];
        var done := Book(id, l1Block);
        if done {
          RemovePendingChannel(channel);
        }
      }
    }

    /** The first queued channel with a frame to send. */
    method FirstToSend() returns (first: Channel?)
      requires Valid() && View().Linked()
      ensures first != null ==> Member(first)
      ensures FirstWithFrame(Chans(), Numbers(channelQueue)) == if first == null then None else Some(first.builder.id)
    {
      first := null;
      var i := 0;
      while i < |channelQueue|
        invariant i <= |channelQueue|
        invariant FirstWithFrame(Chans(), Numbers(channelQueue)) == FirstWithFrame(Chans(), Numbers(channelQueue)[i..])
      {
        if channelQueue[i].builder.frames != [] {
          return channelQueue[i];
        }
        assert Numbers(channelQueue)[i..][1..] == Numbers(channelQueue)[i + 1..];
        i := i + 1;
      }
    }

    method EnsureChannelWithSpace()
      requires Valid() && View().Linked()
      modifies this`currentChannel, this`channelQueue, this`created, this`all
      ensures Valid() && View() == old(View()).EnsureChannelWithSpace() && currentChannel != null
      ensures all == old(all) || (fresh(currentChannel) && fresh(currentChannel.builder) && all == old(all) + [currentChannel])
      ensures Grown()
    {
      if currentChannel == null || currentChannel.builder.fullErr.Some? {
        OpenChannel();
      }
    }

    method OpenChannel()
      requires Valid()
      modifies this`currentChannel, this`channelQueue, this`created, this`all
      ensures Valid() && currentChannel != null && fresh(currentChannel) && fresh(currentChannel.builder)
      ensures all == old(all) + [currentChannel] && View() == WithNewChannel(old(View()))
    {
      var channel := new Channel(env, created);
      Adopt(channel);
    }

    /** Make a new channel the current one. */
    method Adopt(channel: Channel)
      requires Valid() && channel.env == channel.builder.env == env && channel.View() == NewChan(|all|)
      modifies this`currentChannel, this`channelQueue, this`created, this`all
      ensures Valid() && currentChannel == channel
      ensures all == old(all) + [channel] && View() == WithNewChannel(old(View()))
    {
      currentChannel := channel;
      channelQueue := channelQueue + [channel];
      created := created + 1;
      all := all + [channel];
      assert Chans() == old(Chans()) + [NewChan(|old(all)|)];
      assert TxNumbers() == old(TxNumbers());
    }

    /** Feed pending blocks to the channel until they run out, it is full, or a block is broken. */
    method FeedBlocks(b: ChannelBuilder) returns (added: nat, failed: bool)
      requires b.env == env
      modifies b
      ensures Processed(b.View(), added, failed) == Process(env, old(b.View()), blocks)
    {
      added := 0;
      ghost var all' := Process(env, b.View(), blocks);
      while added < |blocks|
        invariant added <= |blocks|
        invariant var p := Process(env, b.View(), blocks[added..]);
          all' == Processed(p.builder, added + p.added, p.failed)
      {
        ghost var before := b.View();
        ghost var rest := blocks[added..];
        assert rest[0] == blocks[added] && rest[1..] == blocks[added + 1..];
        var r := b.AddBlock(blocks[added]);
        if r == ChannelFull {
          return added, false;
        }
        if r == BadBlock {
          return added, true;
        }
        added := added + 1;
        if b.fullErr.Some? {
          return added, false;
        }
      }
      failed := false;
    }

    /** The source's processBlocks, registerL1Block and outputFrames in a row. */
    method FillCurrent(l1Head: U64) returns (ok: bool)
      requires Valid() && currentChannel != null && View().Linked()
      modifies this`blocks, currentChannel.builder
      ensures Valid() && (View(), ok) == old(View()).FillCurrent(env, l1Head) && all == old(all)
    {
      var b := currentChannel.builder;
      var added, failed := FeedBlocks(b);
      if failed {
        OneChanged(currentChannel);
        return false;
      }
      b.RegisterL1Block(l1Head);
      ok := b.OutputFrames();
      blocks := blocks[added..];
      OneChanged(currentChannel);
    }

    method NextTxData(channel: Channel?) returns (r: TxResult)
      requires Valid() && (channel != null ==> Member(channel))
      modifies this`txChannels, if channel == null then {} else {channel as object, channel.builder}
      ensures Valid() && all == old(all)
      ensures (View(), r) == old(View()).NextTxData(if channel == null then None else Some(channel.builder.id))
    {
      if channel == null || channel.builder.frames == [] {
        return EOF;
      }
      var frame := PopFrame(channel);
      Track(frame.id, channel);
      return Tx(frame);
    }

    method PopFrame(channel: Channel) returns (frame: Frame)
      requires Valid() && Member(channel) && channel.builder.frames != []
      modifies channel, channel.builder
      ensures Valid()
      ensures var (ch, f) := old(channel.View()).NextTxData();
        f == frame && View() == old(View()).(chans := old(Chans())[channel.builder.id := ch])
    {
      frame := channel.NextTxData();
      OneChanged(channel);
    }

    /** Remember which channel a transaction belongs to. */
    method Track(id: FrameID, channel: Channel)
      requires Valid() && Member(channel)
      modifies this`txChannels
      ensures Valid() && View() == old(View()).(txChannels := old(TxNumbers())[id := channel.builder.id])
    {
      ghost var before := txChannels;
      txChannels := txChannels[id := channel];
      NumbersOfMore(before, id, channel);
      assert Chans() == old(Chans());
    }

    method TxData(l1Head: U64) returns (r: TxResult)
      requires Valid() && View().Linked()
      modifies this, all, Builders()
      ensures Valid() && (View(), r) == old(View()).TxData(env, l1Head) && Grown()
    {
      var first := FirstToSend();
      if first != null || closed {
        r := NextTxData(first);
        assert Grown();
        return;
      }
      if blocks == [] {
        return EOF;
      }
      r := Refill(l1Head);
    }

    method Refill(l1Head: U64) returns (r: TxResult)
      requires Valid() && View().Linked()
      modifies this, all, Builders()
      ensures Valid() && (View(), r) == old(View()).Refill(env, l1Head) && Grown()
    {
      EnsureChannelWithSpace();
      ghost var grown := all;
      r := FillAndSend(l1Head);
      assert all == grown;
    }

    method FillAndSend(l1Head: U64) returns (r: TxResult)
      requires Valid() && currentChannel != null && View().Linked()
      modifies this`blocks, this`txChannels, currentChannel, currentChannel.builder
      ensures Valid() && all == old(all)
      ensures var (s, ok) := old(View()).FillCurrent(env, l1Head);
        (View(), r) == if ok then s.NextTxData(s.current) else (s, TxResult.Failed)
    {
      var ok := FillCurrent(l1Head);
      if !ok {
        return Failed;
      }
      r := NextTxData(currentChannel);
    }

    /** `gone` tells which channels of `q` have submitted nothing. */
    ghost predicate Judged(q: seq<Channel>, gone: set<nat>)
      reads this, q
    {
      forall k | 0 <= k < |q| ::
        Member(q[k]) && (q[k].builder.id in gone <==> |q[k].confirmed| == 0 && |q[k].pending| == 0)
    }

    lemma IdleJudges()
      requires Valid() && View().Linked()
      ensures Judged(channelQueue, View().Idle())
    {
    }

    /** Remove the channels that have submitted nothing. */
    method SweepQueue()
      requires Valid() && View().Linked()
      modifies this`currentChannel, this`channelQueue
      ensures Valid()
      ensures var sweep := SweepAll(Numbers(old(channelQueue)), old(Current()), old(View()).Idle());
        View() == old(View()).(queue := sweep.Queue(), current := sweep.current)
    {
      IdleJudges();
      SweepLoop(View().Idle());
    }

    /** The source's loop: it ranges over the array that its own removals shift. */
    method SweepLoop(ghost gone: set<nat>)
      requires Valid() && Judged(channelQueue, gone)
      modifies this`currentChannel, this`channelQueue
      ensures Valid()
      ensures var sweep := SweepAll(Numbers(old(channelQueue)), old(Current()), gone);
        View() == old(View()).(queue := sweep.Queue(), current := sweep.current)
    {
      var backing := channelQueue;
      var i := 0;
      while i < |backing|
        invariant Valid() && i <= |backing| && |channelQueue| <= |backing|
        invariant channelQueue == backing[..|channelQueue|] && Judged(backing, gone)
        invariant View() == old(View()).(queue := Numbers(channelQueue), current := Current())
        invariant Sweep(Numbers(backing), |channelQueue|, Current()).From(i, gone) ==
                  SweepAll(Numbers(old(channelQueue)), old(Current()), gone)
      {
        backing := VisitPlace(backing, i, gone);
        i := i + 1;
      }
      assert Numbers(backing)[..|channelQueue|] == Numbers(channelQueue);
    }

    /** One round of the loop: the channel found in place `i` goes if it has submitted nothing. */
    method VisitPlace(backing: seq<Channel>, i: nat, ghost gone: set<nat>) returns (shifted: seq<Channel>)
      requires Valid() && i < |backing| && |channelQueue| <= |backing| && Judged(backing, gone)
      requires channelQueue == backing[..|channelQueue|]
      modifies this`currentChannel, this`channelQueue
      ensures Valid() && |shifted| == |backing| && |channelQueue| <= |shifted| && Judged(shifted, gone)
      ensures channelQueue == shifted[..|channelQueue|]
      ensures View() == old(View()).(queue := Numbers(channelQueue), current := Current())
      ensures Sweep(Numbers(shifted), |channelQueue|, Current()).From(i + 1, gone) ==
              Sweep(Numbers(backing), |old(channelQueue)|, old(Current())).From(i, gone)
    {
      var ch := backing[i];
      shifted := backing;
      if |ch.confirmed| == 0 && |ch.pending| == 0 {
        shifted := RemoveAndShift(backing, ch, gone);
      }
    }

    method RemoveAndShift(backing: seq<Channel>, ch: Channel, ghost gone: set<nat>) returns (shifted: seq<Channel>)
      requires Valid() && |channelQueue| <= |backing| && Judged(backing, gone) && Member(ch)
      requires channelQueue == backing[..|channelQueue|]
      modifies this`currentChannel, this`channelQueue
      ensures Valid() && |shifted| == |backing| && |channelQueue| <= |shifted| && Judged(shifted, gone)
      ensures channelQueue == shifted[..|channelQueue|]
      ensures View() == old(View()).(queue := Numbers(channelQueue), current := Current())
      ensures Sweep(Numbers(shifted), |channelQueue|, Current()) ==
              Sweep(Numbers(backing), |old(channelQueue)|, old(Current())).Remove(ch.builder.id)
    {
      ghost var q := channelQueue;
      ghost var cur := Current();
      RemovePendingChannel(ch);
      shifted := channelQueue + backing[|channelQueue|..];
      ShiftNumbers(backing, q, channelQueue, cur, ch.builder.id);
      ShiftedJudged(backing, q, shifted, gone);
    }

    lemma ShiftedJudged(backing: seq<Channel>, q: seq<Channel>, shifted: seq<Channel>, gone: set<nat>)
      requires Judged(backing, gone) && |q| <= |backing| && q == backing[..|q|]
      requires |channelQueue| <= |q| && (forall k | 0 <= k < |channelQueue| :: channelQueue[k] in q)
      requires shifted == channelQueue + backing[|channelQueue|..]
      ensures Judged(shifted, gone)
    {
      forall k | 0 <= k < |shifted| ensures shifted[k] in backing {
        if k < |channelQueue| { assert channelQueue[k] in q; }
      }
    }

    method MarkClosed()
      requires Valid()
      modifies this`closed
      ensures Valid() && View() == old(View()).(closed := true)
    {
      closed := true;
      assert Chans() == old(Chans());
    }

    method CloseCurrent() returns (ok: bool)
      requires Valid() && currentChannel != null
      modifies currentChannel.builder
      ensures Valid() && all == old(all)
      ensures var c := currentChannel.builder.id;
        var (b, done) := old(currentChannel.builder.View()).Close().OutputFrames(env);
        ok == done && View() == old(View()).(chans := old(Chans())[c := old(currentChannel.View()).(builder := b)])
    {
      currentChannel.builder.Close();
      ok := currentChannel.builder.OutputFrames();
      OneChanged(currentChannel);
    }

    method Close() returns (ok: bool)
      requires Valid() && View().Linked()
      modifies this, all, Builders()
      ensures Valid() && (View(), ok) == old(View()).Close(env) && all == old(all)
    {
      if closed {
        return true;
      }
      SweepQueue();
      MarkClosed();
      if currentChannel == null {
        return true;
      }
      ok := CloseCurrent();
    }
  }

  /** A transaction in flight carries a frame of its own channel. */
  lemma PendingOwn(env: Env, s: Manager, id: FrameID)
    requires Inv(env, s) && id in s.txChannels
    ensures s.txChannels[id] == id.chID < |s.chans| && id in s.chans[id.chID].pending
    ensures s.chans[id.chID].pending[id].id.chID == id.chID == s.chans[id.chID].builder.id
  {
    assert s.chans[id.chID].Sound(env, id.chID);
  }
}
