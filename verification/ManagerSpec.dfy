/** What each call of the channel manager does, as a function of its state, and the structure
    every call keeps. */
module ManagerSpec {
  import opened Options
  import opened BatcherTypes
  import opened Words
  import opened ChannelBuilders
  import opened Channels
  import opened CloseSweep

  datatype TxResult = Tx(frame: Frame) | EOF | Failed

  /** The manager at one moment. Channels are known by the order of their creation, the stand-in
      for their fresh random ids. `chans` holds every channel ever created, `epoch` is the number
      of those created before the last `Clear`. */
  datatype Manager = Manager(
    blocks: seq<Block>,
    tip: nat,
    current: Option<nat>,
    queue: seq<nat>,
    txChannels: map<FrameID, nat>,
    closed: bool,
    chans: seq<Chan>,
    epoch: nat)
  {
    /** Every reference the manager holds leads to a channel. */
    ghost predicate Linked() {
      && (forall i | 0 <= i < |queue| :: queue[i] < |chans|)
      && (current.Some? ==> current.value < |chans|)
      && (forall id | id in txChannels :: txChannels[id] < |chans|)
    }

    function AddL2Block(block: Block): (Manager, bool) {
      if tip != ZERO_HASH && tip != block.parent then (this, false)
      else (this.(blocks := blocks + [block], tip := block.hash), true)
    }

    function Clear(): Manager {
      Manager([], ZERO_HASH, None, [], map[], false, chans, |chans|)
    }

    function Remove(c: nat): Manager {
      var s := Sweep(queue, |queue|, current).Remove(c);
      this.(queue := s.Queue(), current := s.current)
    }

    /** The failed transaction's frame waits in its channel again. */
    function Requeue(id: FrameID): Manager
      requires id in txChannels && txChannels[id] < |chans|
    {
      var c := txChannels[id];
      this.(txChannels := txChannels - {id}, chans := chans[c := chans[c].TxFailed(id)])
    }

    ghost function TxFailed(id: FrameID): Manager
      requires Linked()
    {
      if id !in txChannels then this
      else
        var s, c := Requeue(id), txChannels[id];
        if closed && s.chans[c].NoneSubmitted() then s.Remove(c) else s
    }

    /** The confirmed transaction is booked; blocks of a timed-out channel come back. */
    ghost function Book(env: Env, id: FrameID, l1Block: U64): Manager
      requires id in txChannels && txChannels[id] < |chans|
    {
      var c := txChannels[id];
      var (ch, done, back) := chans[c].TxConfirmed(env, id, l1Block);
      this.(txChannels := txChannels - {id}, chans := chans[c := ch], blocks := back + blocks)
    }

    ghost function TxConfirmed(env: Env, id: FrameID, l1Block: U64): Manager
      requires Linked()
    {
      if id !in txChannels then this
      else
        var s, c := Book(env, id, l1Block), txChannels[id];
        if chans[c].TxConfirmed(env, id, l1Block).1 then s.Remove(c) else s
    }

    function EnsureChannelWithSpace(): Manager
      requires Linked()
    {
      if current.Some? && !chans[current.value].builder.IsFull() then this
      else WithNewChannel(this)
    }

    /** Move blocks into the current channel, close or cut it as far as the L1 head demands. */
    ghost function FillCurrent(env: Env, l1Head: U64): (Manager, bool)
      requires Linked() && current.Some?
    {
      var c := current.value;
      var p := Process(env, chans[c].builder, blocks);
      if p.failed then (this.(chans := chans[c := chans[c].(builder := p.builder)]), false)
      else
        var (b, ok) := p.builder.RegisterL1Block(env, l1Head).OutputFrames(env);
        (this.(blocks := blocks[p.added..], chans := chans[c := chans[c].(builder := b)]), ok)
    }

    function NextTxData(c: Option<nat>): (Manager, TxResult)
      requires c.Some? ==> c.value < |chans|
    {
      if c.None? || chans[c.value].builder.frames == [] then (this, EOF)
      else
        var (ch, frame) := chans[c.value].NextTxData();
        (this.(chans := chans[c.value := ch], txChannels := txChannels[frame.id := c.value]), Tx(frame))
    }

    ghost function TxData(env: Env, l1Head: U64): (Manager, TxResult)
      requires Linked()
    {
      var first := FirstWithFrame(chans, queue);
      if first.Some? || closed then NextTxData(first)
      else if blocks == [] then (this, EOF)
      else Refill(env, l1Head)
    }

    ghost function Refill(env: Env, l1Head: U64): (Manager, TxResult)
      requires Linked()
    {
      var (s, ok) := EnsureChannelWithSpace().FillCurrent(env, l1Head);
      if ok then s.NextTxData(s.current) else (s, Failed)
    }

    /** The channels that have submitted nothing. */
    ghost function Idle(): set<nat>
      requires Linked()
    {
      set i | 0 <= i < |queue| && chans[queue[i]].NoneSubmitted() :: queue[i]
    }

    ghost function Close(env: Env): (Manager, bool)
      requires Linked()
    {
      if closed then (this, true)
      else
        var sweep := SweepAll(queue, current, Idle());
        var s := this.(closed := true, queue := sweep.Queue(), current := sweep.current);
        if s.current.None? then (s, true)
        else
          var c := s.current.value;
          var (b, ok) := chans[c].builder.Close().OutputFrames(env);
          (s.(chans := chans[c := chans[c].(builder := b)]), ok)
    }
  }

  function NewManager(): Manager {
    Manager([], ZERO_HASH, None, [], map[], false, [], 0)
  }

  function FirstWithFrame(chans: seq<Chan>, queue: seq<nat>): (c: Option<nat>)
    requires forall i | 0 <= i < |queue| :: queue[i] < |chans|
    ensures c.Some? ==> c.value in queue && c.value < |chans| && chans[c.value].builder.frames != []
    ensures c.None? ==> forall i | 0 <= i < |queue| :: chans[queue[i]].builder.frames == []
  {
    if queue == [] then None
    else if chans[queue[0]].builder.frames != [] then Some(queue[0])
    else FirstWithFrame(chans, queue[1..])
  }

  datatype Processed = Processed(builder: Builder, added: nat, failed: bool)

  lemma PrefixStep(front: seq<Block>, blocks: seq<Block>, k: nat)
    requires blocks != [] && k < |blocks|
    ensures front + [blocks[0]] + blocks[1..][..k] == front + blocks[..k + 1]
  {
  }

  /** Feed blocks to a channel until they run out, the channel is full or a block is broken. */
  function Process(env: Env, b: Builder, blocks: seq<Block>): (p: Processed)
    ensures p.added <= |blocks|
    ensures p.builder.blocks == b.blocks + blocks[..p.added]
    ensures p.builder.id == b.id && p.builder.closed == b.closed
    ensures p.builder.frames == b.frames && p.builder.numFrames == b.numFrames
    ensures p.failed ==> p.builder.IsFull() == b.IsFull()
    ensures b.IsFull() ==> p.builder.IsFull()
    ensures p.added < |blocks| && !p.failed ==> p.builder.IsFull()
    decreases blocks
  {
    if blocks == [] then Processed(b, 0, false)
    else
      var (b', r) := b.AddBlock(env, blocks[0]);
      match r
      case ChannelFull => Processed(b', 0, false)
      case BadBlock => Processed(b', 0, true)
      case Added =>
        if b'.IsFull() then Processed(b', 1, false)
        else
          var p := Process(env, b', blocks[1..]);
          PrefixStep(b.blocks, blocks, p.added);
          Processed(p.builder, p.added + 1, p.failed)
  }

  ghost predicate AllSound(env: Env, chans: seq<Chan>) {
    forall c | 0 <= c < |chans| :: chans[c].Sound(env, c)
  }

  /** A channel that needs no more work: its blocks were taken back or are all on L1. */
  ghost predicate Settled(env: Env, ch: Chan) {
    ch.TimedOut(env.cfg) || ch.FullySubmitted()
  }

  /** The queue lists channels since `Clear` in the order of their creation and without
      duplicates. The current channel is the newest and the last of the queue. All other queued
      channels are full and drained, and no queued channel is settled. */
  ghost predicate QueueOk(env: Env, s: Manager) {
    && s.epoch <= |s.chans|
    && Increasing(s.queue)
    && (forall c | c in s.queue :: s.epoch <= c < |s.chans|)
    && (s.current.Some? ==> s.queue != [] && s.current.value == s.queue[|s.queue| - 1] == |s.chans| - 1)
    && (forall c | c in s.queue :: !Settled(env, s.chans[c]))
    && (forall c | c in s.queue :: s.current == Some(c) || s.chans[c].builder.closed)
  }

  /** `txChannels` holds exactly the transactions in flight of all channels since `Clear`, each
      with its own channel. */
  ghost predicate TxChannelsOk(s: Manager) {
    && (forall id | id in s.txChannels ::
          s.epoch <= id.chID < |s.chans| && s.txChannels[id] == id.chID && id in s.chans[id.chID].pending)
    && (forall c, id | s.epoch <= c < |s.chans| && id in s.chans[c].pending :: id in s.txChannels && id.chID == c)
  }

  /** Until the manager is closed a channel leaves the queue only when it is settled. */
  ghost predicate LeftSettled(env: Env, s: Manager) {
    !s.closed ==> forall c | s.epoch <= c < |s.chans| :: c in s.queue || Settled(env, s.chans[c])
  }

  /** The structure that holds between two calls. */
  ghost predicate Inv(env: Env, s: Manager) {
    AllSound(env, s.chans) && QueueOk(env, s) && TxChannelsOk(s) && LeftSettled(env, s)
  }

  lemma QueueLinked(env: Env, s: Manager)
    requires QueueOk(env, s) && TxChannelsOk(s)
    ensures s.Linked()
  {
    assert forall i | 0 <= i < |s.queue| :: s.queue[i] in s.queue;
  }

  lemma AddL2BlockInv(env: Env, s: Manager, block: Block)
    requires Inv(env, s)
    ensures Inv(env, s.AddL2Block(block).0)
  {
    SameChannels(env, s, s.AddL2Block(block).0);
  }

  lemma SameChannels(env: Env, s: Manager, s': Manager)
    requires Inv(env, s) && s' == s.(blocks := s'.blocks, tip := s'.tip)
    ensures Inv(env, s')
  {
  }

  lemma ClearInv(env: Env, s: Manager)
    requires Inv(env, s)
    ensures Inv(env, s.Clear())
  {
  }

  lemma ReplaceSound(env: Env, chans: seq<Chan>, c: nat, ch: Chan)
    requires AllSound(env, chans) && c < |chans| && ch.Sound(env, c)
    ensures AllSound(env, chans[c := ch])
  {
  }

  /** `s'` is `s` with channel `c` replaced by `ch`, and the same channels in the queue. */
  predicate Replaced(s: Manager, s': Manager, c: nat, ch: Chan) {
    && c < |s.chans| && s'.chans == s.chans[c := ch]
    && s'.queue == s.queue && s'.current == s.current && s'.epoch == s.epoch && s'.closed == s.closed
  }

  lemma ReplaceQueueOk(env: Env, s: Manager, s': Manager, c: nat, ch: Chan)
    requires QueueOk(env, s) && Replaced(s, s', c, ch)
    requires c in s.queue ==> !Settled(env, ch) && (s.chans[c].builder.closed ==> ch.builder.closed)
    ensures QueueOk(env, s')
  {
  }

  lemma ReplaceLeftSettled(env: Env, s: Manager, s': Manager, c: nat, ch: Chan)
    requires LeftSettled(env, s) && Replaced(s, s', c, ch)
    requires Settled(env, s.chans[c]) ==> Settled(env, ch)
    ensures LeftSettled(env, s')
  {
  }

  lemma DropTransaction(s: Manager, s': Manager, id: FrameID, ch: Chan)
    requires TxChannelsOk(s) && id in s.txChannels && Replaced(s, s', id.chID, ch)
    requires ch.pending == s.chans[id.chID].pending - {id} && s'.txChannels == s.txChannels - {id}
    ensures TxChannelsOk(s')
  {
  }

  lemma AddTransaction(s: Manager, s': Manager, id: FrameID, ch: Chan)
    requires TxChannelsOk(s) && Replaced(s, s', id.chID, ch) && s.epoch <= id.chID
    requires ch.pending.Keys == s.chans[id.chID].pending.Keys + {id}
    requires s'.txChannels == s.txChannels[id := id.chID]
    ensures TxChannelsOk(s')
  {
  }

  /** Removing channel `c` mends whatever `c` alone had broken in the queue. */
  lemma RemoveQueueOk(env: Env, s: Manager, c: nat)
    requires s.epoch <= |s.chans| && Increasing(s.queue)
    requires forall d | d in s.queue :: s.epoch <= d < |s.chans|
    requires s.current.Some? ==> s.queue != [] && s.current.value == s.queue[|s.queue| - 1] == |s.chans| - 1
    requires forall d | d in s.queue && d != c :: !Settled(env, s.chans[d])
    requires forall d | d in s.queue && d != c :: s.current == Some(d) || s.chans[d].builder.closed
    ensures QueueOk(env, s.Remove(c))
    ensures forall d :: d in s.Remove(c).queue <==> d in s.queue && d != c
  {
    RemoveOne(s.queue, s.current, c);
  }

  /** A failed transaction's frame waits again, so its channel is not done. */
  lemma FailedChan(env: Env, s: Manager, id: FrameID)
    requires TxChannelsOk(s) && id in s.txChannels
    ensures var ch := s.chans[id.chID].TxFailed(id);
      && ch.confirmed == s.chans[id.chID].confirmed
      && ch.pending == s.chans[id.chID].pending - {id}
      && ch.builder.closed == s.chans[id.chID].builder.closed
      && !ch.FullySubmitted() && !s.chans[id.chID].FullySubmitted()
  {
  }

  lemma RequeueKeeps(env: Env, s: Manager, id: FrameID)
    requires QueueOk(env, s) && TxChannelsOk(s) && LeftSettled(env, s) && id in s.txChannels
    ensures var s1 := s.Requeue(id); QueueOk(env, s1) && TxChannelsOk(s1) && LeftSettled(env, s1)
  {
    var c := id.chID;
    FailedChan(env, s, id);
    ReplaceQueueOk(env, s, s.Requeue(id), c, s.chans[c].TxFailed(id));
    ReplaceLeftSettled(env, s, s.Requeue(id), c, s.chans[c].TxFailed(id));
    DropTransaction(s, s.Requeue(id), id, s.chans[c].TxFailed(id));
  }

  lemma RemoveClosed(env: Env, s: Manager, c: nat)
    requires QueueOk(env, s) && TxChannelsOk(s) && s.closed
    ensures var s' := s.Remove(c); QueueOk(env, s') && TxChannelsOk(s') && LeftSettled(env, s')
  {
    RemoveQueueOk(env, s, c);
  }

  lemma TxFailedInv(env: Env, s: Manager, id: FrameID)
    requires Inv(env, s)
    ensures s.Linked() && Inv(env, s.TxFailed(id))
  {
    QueueLinked(env, s);
    if id in s.txChannels {
      var c := id.chID;
      TxFailedSound(env, c, s.chans[c], id);
      ReplaceSound(env, s.chans, c, s.chans[c].TxFailed(id));
      RequeueKeeps(env, s, id);
      if s.closed && s.Requeue(id).chans[c].NoneSubmitted() {
        RemoveClosed(env, s.Requeue(id), c);
      }
    }
  }

  lemma ConfirmedChan(env: Env, s: Manager, id: FrameID, l1Block: U64)
    requires AllSound(env, s.chans) && TxChannelsOk(s) && id in s.txChannels
    ensures var ch := s.chans[id.chID].Confirm(env, id, l1Block);
      && ch.Sound(env, id.chID)
      && (s.chans[id.chID].TimedOut(env.cfg) ==> ch.TimedOut(env.cfg))
      && !s.chans[id.chID].FullySubmitted()
  {
    var c := id.chID;
    ConfirmSound(env, c, s.chans[c], id, l1Block);
    if s.chans[c].TimedOut(env.cfg) {
      TimedOutIsPermanent(env, c, s.chans[c], id, l1Block);
    }
  }

  lemma BookKeeps(env: Env, s: Manager, id: FrameID, l1Block: U64)
    requires AllSound(env, s.chans) && TxChannelsOk(s) && LeftSettled(env, s) && id in s.txChannels
    ensures var s1 := s.Book(env, id, l1Block);
      && AllSound(env, s1.chans) && TxChannelsOk(s1) && LeftSettled(env, s1)
      && Replaced(s, s1, id.chID, s.chans[id.chID].Confirm(env, id, l1Block))
  {
    var c, s1 := id.chID, s.Book(env, id, l1Block);
    var ch := s.chans[c].Confirm(env, id, l1Block);
    ConfirmedChan(env, s, id, l1Block);
    ReplaceSound(env, s.chans, c, ch);
    DropTransaction(s, s1, id, ch);
    ReplaceLeftSettled(env, s, s1, c, ch);
  }

  lemma TxConfirmedInv(env: Env, s: Manager, id: FrameID, l1Block: U64)
    requires Inv(env, s)
    ensures s.Linked() && Inv(env, s.TxConfirmed(env, id, l1Block))
    ensures id in s.txChannels ==>
      forall d :: d in s.TxConfirmed(env, id, l1Block).queue <==>
        d in s.queue && (d == id.chID ==> !Settled(env, s.chans[d].Confirm(env, id, l1Block)))
  {
    QueueLinked(env, s);
    if id in s.txChannels {
      BookKeeps(env, s, id, l1Block);
      BookQueue(env, s, id, l1Block);
    }
  }

  lemma BookQueue(env: Env, s: Manager, id: FrameID, l1Block: U64)
    requires QueueOk(env, s) && TxChannelsOk(s) && id in s.txChannels && s.Linked()
    requires LeftSettled(env, s.Book(env, id, l1Block)) && TxChannelsOk(s.Book(env, id, l1Block))
    ensures var s' := s.TxConfirmed(env, id, l1Block);
      && QueueOk(env, s') && LeftSettled(env, s') && TxChannelsOk(s')
      && s'.chans == s.Book(env, id, l1Block).chans
      && (forall d :: d in s'.queue <==>
            d in s.queue && (d == id.chID ==> !Settled(env, s.chans[d].Confirm(env, id, l1Block))))
  {
    var c, s1 := id.chID, s.Book(env, id, l1Block);
    var ch := s.chans[c].Confirm(env, id, l1Block);
    assert Replaced(s, s1, c, ch) && (s.chans[c].TxConfirmed(env, id, l1Block).1 <==> Settled(env, ch));
    if Settled(env, ch) {
      BookedDone(env, s, s1, c, ch);
    } else {
      ReplaceQueueOk(env, s, s1, c, ch);
    }
  }

  lemma BookedDone(env: Env, s: Manager, s1: Manager, c: nat, ch: Chan)
    requires QueueOk(env, s) && Replaced(s, s1, c, ch) && Settled(env, ch)
    requires LeftSettled(env, s1) && TxChannelsOk(s1)
    ensures var s' := s1.Remove(c);
      && QueueOk(env, s') && LeftSettled(env, s') && TxChannelsOk(s')
      && (forall d :: d in s'.queue <==> d in s.queue && d != c)
  {
    RemoveTxChannels(s1, c);
    BookedDoneQueue(env, s, s1, c, ch);
    assert LeftSettled(env, s1.Remove(c)) by { RemoveLeftSettled(env, s1, c); }
  }

  lemma RemoveTxChannels(s: Manager, c: nat)
    requires TxChannelsOk(s)
    ensures TxChannelsOk(s.Remove(c))
  {
  }

  lemma BookedDoneQueue(env: Env, s: Manager, s1: Manager, c: nat, ch: Chan)
    requires QueueOk(env, s) && Replaced(s, s1, c, ch)
    ensures QueueOk(env, s1.Remove(c)) && forall d :: d in s1.Remove(c).queue <==> d in s.queue && d != c
  {
    forall d | d in s1.queue && d != c
      ensures !Settled(env, s1.chans[d]) && (s1.current == Some(d) || s1.chans[d].builder.closed) {
      assert s1.chans[d] == s.chans[d];
    }
    RemoveQueueOk(env, s1, c);
  }

  lemma RemoveLeftSettled(env: Env, s: Manager, c: nat)
    requires LeftSettled(env, s) && c < |s.chans| && Settled(env, s.chans[c]) && Increasing(s.queue)
    ensures LeftSettled(env, s.Remove(c))
  {
    RemoveOne(s.queue, s.current, c);
  }

  /** Popping the next frame puts one transaction in flight, one that was neither in flight nor
      confirmed before. */
  lemma NextTxDataInv(env: Env, s: Manager, c: Option<nat>)
    requires Inv(env, s) && (c.Some? ==> c.value in s.queue)
    ensures Inv(env, s.NextTxData(c).0)
    ensures var r := s.NextTxData(c).1; r.Tx? ==>
      && c.Some? && r.frame == env.FrameOf(c.value, r.frame.id.number)
      && r.frame.id !in s.chans[c.value].pending && r.frame.id !in s.chans[c.value].confirmed
  {
    if c.Some? && s.chans[c.value].builder.frames != [] {
      NextTxDataSound(env, c.value, s.chans[c.value]);
      ReplaceSound(env, s.chans, c.value, s.chans[c.value].NextTxData().0);
      assert s.chans[c.value].NextTxData().1.id.chID == c.value;
      NextTxDataRest(env, s, c.value);
    }
  }

  lemma NextTxDataRest(env: Env, s: Manager, c: nat)
    requires QueueOk(env, s) && TxChannelsOk(s) && LeftSettled(env, s)
    requires c in s.queue && s.chans[c].builder.frames != [] && s.chans[c].NextTxData().1.id.chID == c
    ensures var s' := s.NextTxData(Some(c)).0; QueueOk(env, s') && TxChannelsOk(s') && LeftSettled(env, s')
  {
    var (ch, frame) := s.chans[c].NextTxData();
    var s' := s.NextTxData(Some(c)).0;
    assert frame.id in ch.pending && ch.confirmed == s.chans[c].confirmed;
    ReplaceQueueOk(env, s, s', c, ch);
    ReplaceLeftSettled(env, s, s', c, ch);
    AddTransaction(s, s', frame.id, ch);
  }

  lemma EnsureInv(env: Env, s: Manager)
    requires Inv(env, s) && s.Linked()
    ensures var s1 := s.EnsureChannelWithSpace();
      && Inv(env, s1) && s1.Linked() && s1.current.Some? && !s1.chans[s1.current.value].builder.IsFull()
      && (s1 == s || (s1.chans == s.chans + [NewChan(|s.chans|)] && s1.current == Some(|s.chans|)))
  {
    var s1 := s.EnsureChannelWithSpace();
    if s1 != s {
      var c := |s.chans|;
      NewIsSound(env, c);
      assert s.current.Some? ==> s.chans[s.current.value].Sound(env, s.current.value);
      EnsureQueueOk(env, s);
      EnsureTxChannels(s);
      EnsureLeftSettled(env, s);
      QueueLinked(env, s1);
    }
  }

  function WithNewChannel(s: Manager): Manager {
    var c := |s.chans|;
    s.(current := Some(c), queue := s.queue + [c], chans := s.chans + [NewChan(c)])
  }

  lemma EnsureQueueOk(env: Env, s: Manager)
    requires QueueOk(env, s) && (s.current.Some? ==> s.chans[s.current.value].builder.closed)
    ensures QueueOk(env, WithNewChannel(s))
  {
    var c, s1 := |s.chans|, WithNewChannel(s);
    Snoc(s.queue, c);
    assert !Settled(env, NewChan(c)) && s1.chans[c] == NewChan(c);
    forall d | d in s.queue
      ensures s1.chans[d] == s.chans[d] && !Settled(env, s1.chans[d]) && s1.chans[d].builder.closed {
    }
  }

  lemma EnsureTxChannels(s: Manager)
    requires TxChannelsOk(s)
    ensures TxChannelsOk(WithNewChannel(s))
  {
  }

  lemma EnsureLeftSettled(env: Env, s: Manager)
    requires LeftSettled(env, s)
    ensures LeftSettled(env, WithNewChannel(s))
  {
  }

  /** A builder that took blocks and deadlines but put out no frame yet. */
  predicate Fed(b: Builder, b': Builder) {
    b'.id == b.id && b'.closed == b.closed && b'.frames == b.frames && b'.numFrames == b.numFrames
  }

  /** Cutting frames from an open channel: it ends closed exactly when it is full by then, and a
      closed one has at least its closing frame waiting. */
  lemma CutSound(env: Env, c: nat, ch: Chan, b: Builder)
    requires ch.Sound(env, c) && !ch.builder.IsFull() && Fed(ch.builder, b)
    ensures var (b', ok) := b.OutputFrames(env);
      && ok && ch.(builder := b').Sound(env, c)
      && (b'.IsFull() ==> b'.frames != [])
      && b'.blocks == b.blocks
  {
    FedConserved(env, ch, b);
    var k := if b.IsFull() then env.codec.rest(b.id, b.blocks, b.numFrames) + 1
             else env.codec.ready(b.id, b.blocks, b.numFrames);
    OutputSound(env, c, ch.(builder := b), k);
    ClosedConserved(env, ch.(builder := b.Append(env, k)));
  }

  lemma FedConserved(env: Env, ch: Chan, b: Builder)
    requires ch.Conserved(env) && Fed(ch.builder, b)
    ensures ch.(builder := b).Conserved(env)
  {
  }

  lemma ClosedConserved(env: Env, ch: Chan)
    requires ch.Conserved(env)
    ensures ch.(builder := ch.builder.(closed := true)).Conserved(env)
  {
  }

  lemma SamePending(s: Manager, s': Manager, c: nat, ch: Chan)
    requires TxChannelsOk(s) && Replaced(s, s', c, ch)
    requires ch.pending == s.chans[c].pending && s'.txChannels == s.txChannels
    ensures TxChannelsOk(s')
  {
  }

  /** Filling the current channel keeps the structure, whether or not a block was broken. */
  lemma FillInv(env: Env, s: Manager, l1Head: U64)
    requires Inv(env, s) && s.Linked() && s.current.Some? && !s.chans[s.current.value].builder.IsFull()
    ensures var (s', ok) := s.FillCurrent(env, l1Head);
      && Inv(env, s') && s'.queue == s.queue && s'.current == s.current
      && (ok <==> !Process(env, s.chans[s.current.value].builder, s.blocks).failed)
  {
    var c := s.current.value;
    var p := Process(env, s.chans[c].builder, s.blocks);
    var b := p.builder.RegisterL1Block(env, l1Head);
    var s' := s.FillCurrent(env, l1Head).0;
    var ch := s'.chans[c];
    assert s.chans[c].Sound(env, c);
    if p.failed {
      FedConserved(env, s.chans[c], p.builder);
    } else {
      CutSound(env, c, s.chans[c], b);
    }
    ReplaceCurrent(env, s, s', ch);
  }

  lemma ReplaceCurrent(env: Env, s: Manager, s': Manager, ch: Chan)
    requires Inv(env, s) && s.current.Some? && Replaced(s, s', s.current.value, ch)
    requires ch.Sound(env, s.current.value) && (ch.builder.IsFull() ==> ch.builder.frames != [])
    requires ch.pending == s.chans[s.current.value].pending && ch.confirmed == s.chans[s.current.value].confirmed
    requires s'.txChannels == s.txChannels
    requires s.chans[s.current.value].builder.closed ==> ch.builder.closed
    ensures Inv(env, s')
  {
    var c := s.current.value;
    ReplaceSound(env, s.chans, c, ch);
    SamePending(s, s', c, ch);
    assert c in s.queue && !Settled(env, s.chans[c]) && !Settled(env, ch);
    ReplaceQueueOk(env, s, s', c, ch);
    ReplaceLeftSettled(env, s, s', c, ch);
  }

  /** `TxData` has no frame to send and goes on to fill a channel. */
  ghost predicate Fills(s: Manager)
    requires s.Linked()
  {
    FirstWithFrame(s.chans, s.queue).None? && !s.closed && s.blocks != []
  }

  /** The two states on the way through a filling `TxData`. */
  lemma FillPhase(env: Env, s: Manager, l1Head: U64)
    requires Inv(env, s) && s.Linked() && Fills(s)
    ensures var s1 := s.EnsureChannelWithSpace();
      && Inv(env, s1) && s1.Linked() && s1.current.Some? && !s1.chans[s1.current.value].builder.IsFull()
      && var (s2, ok) := s1.FillCurrent(env, l1Head);
      && Inv(env, s2) && s2.Linked() && s2.current == s1.current && s2.current.value in s2.queue
      && s2.current.value < |s2.chans|
      && (ok <==> !Process(env, s1.chans[s1.current.value].builder, s.blocks).failed)
      && s.TxData(env, l1Head) == if ok then s2.NextTxData(s2.current) else (s2, Failed)
  {
    EnsureInv(env, s);
    FillInv(env, s.EnsureChannelWithSpace(), l1Head);
    QueueLinked(env, s.EnsureChannelWithSpace().FillCurrent(env, l1Head).0);
  }

  lemma FillSteps(env: Env, s: Manager, l1Head: U64)
    requires Inv(env, s) && s.Linked() && Fills(s)
    ensures var s1 := s.EnsureChannelWithSpace();
      && s1.Linked() && s1.current.Some?
      && var (s2, ok) := s1.FillCurrent(env, l1Head);
      && s2.Linked() && s2.current == s1.current && s2.current.value < |s2.chans|
      && s.TxData(env, l1Head) == if ok then s2.NextTxData(s2.current) else (s2, Failed)
  {
    FillPhase(env, s, l1Head);
  }

  /** `TxData` keeps the structure. */
  lemma TxDataInv(env: Env, s: Manager, l1Head: U64)
    requires Inv(env, s)
    ensures s.Linked()
    ensures Inv(env, s.TxData(env, l1Head).0) && s.TxData(env, l1Head).0.Linked()
  {
    QueueLinked(env, s);
    if Fills(s) {
      FillPhase(env, s, l1Head);
      var (s2, ok) := s.EnsureChannelWithSpace().FillCurrent(env, l1Head);
      if ok { NextTxDataInv(env, s2, s2.current); }
    } else {
      NextTxDataInv(env, s, FirstWithFrame(s.chans, s.queue));
    }
    QueueLinked(env, s.TxData(env, l1Head).0);
  }

  /** What `TxData` hands out was neither in flight nor confirmed before, in any channel, and
      carries the bytes its channel put out under that number. */
  lemma TxDataFresh(env: Env, s: Manager, l1Head: U64)
    requires Inv(env, s) && s.Linked()
    ensures var r := s.TxData(env, l1Head).1; r.Tx? ==>
      && r.frame == env.FrameOf(r.frame.id.chID, r.frame.id.number)
      && r.frame.id !in s.txChannels
      && forall c | 0 <= c < |s.chans| :: r.frame.id !in s.chans[c].pending && r.frame.id !in s.chans[c].confirmed
  {
    if Fills(s) {
      FillFresh(env, s, l1Head);
    } else {
      var first := FirstWithFrame(s.chans, s.queue);
      if first.Some? { FreshFrame(env, s, s, first.value); }
    }
  }

  lemma FillFresh(env: Env, s: Manager, l1Head: U64)
    requires Inv(env, s) && s.Linked() && Fills(s)
    ensures var r := s.TxData(env, l1Head).1; r.Tx? ==>
      && r.frame == env.FrameOf(r.frame.id.chID, r.frame.id.number)
      && r.frame.id !in s.txChannels
      && forall c | 0 <= c < |s.chans| :: r.frame.id !in s.chans[c].pending && r.frame.id !in s.chans[c].confirmed
  {
    FillSteps(env, s, l1Head);
    var (s2, ok) := s.EnsureChannelWithSpace().FillCurrent(env, l1Head);
    if ok {
      assert AllSound(env, s2.chans) by { FillPhase(env, s, l1Head); }
      FreshFrame(env, s, s2, s2.current.value);
    }
  }

  /** A frame popped from channel `c` after filling it is in flight or confirmed nowhere. */
  lemma FreshFrame(env: Env, s: Manager, s2: Manager, c: nat)
    requires AllSound(env, s.chans) && TxChannelsOk(s) && AllSound(env, s2.chans) && c < |s2.chans|
    requires |s.chans| <= |s2.chans|
    requires c < |s.chans| ==> s2.chans[c].pending == s.chans[c].pending && s2.chans[c].confirmed == s.chans[c].confirmed
    ensures s2.chans[c].builder.frames != [] ==> var id := s2.chans[c].NextTxData().1.id;
      && s2.chans[c].NextTxData().1 == env.FrameOf(c, id.number)
      && id.chID == c && id !in s.txChannels
      && forall d | 0 <= d < |s.chans| :: id !in s.chans[d].pending && id !in s.chans[d].confirmed
  {
  }

  /** Closing keeps the structure. Every channel with a transaction submitted stays queued, and
      the current channel, unless it has submitted nothing, is closed and cut. */
  lemma CloseInv(env: Env, s: Manager)
    requires Inv(env, s)
    ensures s.Linked() && Inv(env, s.Close(env).0)
    ensures forall c | c in s.queue && !s.chans[c].NoneSubmitted() :: c in s.Close(env).0.queue
  {
    QueueLinked(env, s);
    if !s.closed {
      var s1 := Swept(s);
      SweptInv(env, s);
      if s1.current.Some? {
        var c := s1.current.value;
        var b := s1.chans[c].builder.Close();
        if !s1.chans[c].builder.IsFull() {
          CutSound(env, c, s1.chans[c], b);
        }
        var s2 := s.Close(env).0;
        assert s1.chans[c].Sound(env, c);
        if s1.chans[c].builder.IsFull() {
          assert s2 == s1.(chans := s1.chans[c := s1.chans[c]]) == s1;
        } else {
          ReplaceCurrent(env, s1, s2, s2.chans[c]);
        }
      }
    }
  }

  ghost function Swept(s: Manager): Manager
    requires s.Linked()
  {
    var sweep := SweepAll(s.queue, s.current, s.Idle());
    s.(closed := true, queue := sweep.Queue(), current := sweep.current)
  }

  lemma SweptInv(env: Env, s: Manager)
    requires Inv(env, s) && s.Linked()
    ensures Inv(env, Swept(s)) && Swept(s).queue == Survivors(s.queue, s.Idle())
    ensures forall c | c in s.queue && !s.chans[c].NoneSubmitted() :: c in Swept(s).queue
  {
    SweptIsSurvivors(env, s);
    SweptQueueOk(env, s, Swept(s));
  }

  lemma SweptIsSurvivors(env: Env, s: Manager)
    requires QueueOk(env, s) && s.Linked()
    ensures var q, gone, s1 := s.queue, s.Idle(), Swept(s);
      && s1.queue == Survivors(q, gone) && Increasing(s1.queue)
      && (forall c | c in s1.queue :: c in q) && (forall c | c in q && c !in gone :: c in s1.queue)
      && s1.current == (if s.current.Some? && s.current.value in gone then None else s.current)
      && (s.current.Some? ==> (s.current.value in gone <==> s.current.value !in s1.queue))
  {
    SweepKeepsSurvivors(s.queue, s.current, s.Idle());
    SurvivorsKeepSubmitted(s.queue, s.Idle());
  }

  lemma SweptQueueOk(env: Env, s: Manager, s1: Manager)
    requires QueueOk(env, s) && s1 == s.(closed := true, queue := s1.queue, current := s1.current)
    requires Increasing(s1.queue) && (forall c | c in s1.queue :: c in s.queue)
    requires s1.current.Some? ==> s1.current == s.current && s1.current.value in s1.queue
    requires s1.current.None? && s.current.Some? ==> s.current.value !in s1.queue
    ensures QueueOk(env, s1)
  {
    if s1.current.Some? {
      var c := s1.current.value;
      var k :| 0 <= k < |s1.queue| && s1.queue[k] == c;
      assert s1.queue[|s1.queue| - 1] in s.queue;
    }
  }
}
