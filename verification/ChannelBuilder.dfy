/** The channel builder: deadline arithmetic, the "full" flag and the frame queue. */
module ChannelBuilders {
  import opened Options
  import opened BatcherTypes
  import opened Words
  import opened SentinelMin

  datatype AddResult = Added | ChannelFull | BadBlock

  /** A channel builder at one moment. `closed` is the state of its channel output. */
  datatype Builder = Builder(
    id: nat,
    timeout: nat,
    timeoutReason: Reason,
    fullErr: Option<Reason>,
    closed: bool,
    blocks: seq<Block>,
    frames: seq<Frame>,
    numFrames: nat)
  {
    predicate IsFull() {
      fullErr.Some?
    }

    function UpdateTimeout(deadline: nat, reason: Reason): Builder {
      if timeout == 0 || timeout > deadline then this.(timeout := deadline, timeoutReason := reason) else this
    }

    function AddBlock(env: Env, block: Block): (Builder, AddResult) {
      if IsFull() then (this, ChannelFull)
      else
        match env.codec.accept(id, blocks, block)
        case Broken => (this, BadBlock)
        case Rejected(reason) => (this.(fullErr := Some(reason)), ChannelFull)
        case Taken(fullAfter) =>
          var c := this.(blocks := blocks + [block]).UpdateTimeout(WindowDeadline(env.cfg, block), SeqWindowClose);
          (if fullAfter.Some? then c.(fullErr := fullAfter) else c, Added)
    }

    predicate DeadlineReached(l1Block: U64) {
      timeout != 0 && l1Block >= timeout
    }

    function RegisterL1Block(env: Env, l1Block: U64): Builder {
      var c := if env.cfg.maxChannelDuration == 0 then this
               else UpdateTimeout(DurationDeadline(env.cfg, l1Block), MaxDurationReached);
      if !c.IsFull() && c.DeadlineReached(l1Block) then c.(fullErr := Some(c.timeoutReason)) else c
    }

    function FramePublished(env: Env, l1Block: U64): Builder {
      UpdateTimeout(PublishedDeadline(env.cfg, l1Block), ChannelTimeoutClose)
    }

    function Append(env: Env, k: nat): Builder {
      this.(frames := frames + env.Emit(id, numFrames, k), numFrames := numFrames + k)
    }

    /** Frames after more input: those that are ready while the channel is open, all of them and
        the closing one when it is full. The flag is false when the output was closed before. */
    function OutputFrames(env: Env): (Builder, bool) {
      if !IsFull() then (Append(env, env.codec.ready(id, blocks, numFrames)), true)
      else if closed then (this, false)
      else (Append(env, env.codec.rest(id, blocks, numFrames) + 1).(closed := true), true)
    }

    function Close(): Builder {
      if IsFull() then this else this.(fullErr := Some(Terminated))
    }

    function PopFrame(): (Builder, Frame)
      requires frames != []
    {
      (this.(frames := frames[1..]), frames[0])
    }

    function PushFrame(frame: Frame): Builder {
      this.(frames := frames + [frame])
    }
  }

  function NewBuilder(id: nat): Builder {
    Builder(id, 0, NoReason, None, false, [], [], 0)
  }

  /** What may happen to a builder. */
  datatype BuilderOp =
    | Add(block: Block)
    | Register(l1Block: U64)
    | Published(l1Block: U64)
    | Output
    | Terminate
    | Pop
    | Push(frame: Frame)

  function Apply(env: Env, c: Builder, op: BuilderOp): Builder {
    match op
    case Add(block) => c.AddBlock(env, block).0
    case Register(n) => c.RegisterL1Block(env, n)
    case Published(n) => c.FramePublished(env, n)
    case Output => c.OutputFrames(env).0
    case Terminate => c.Close()
    case Pop => if c.frames == [] then c else c.PopFrame().0
    case Push(frame) => c.PushFrame(frame)
  }

  function RunBuilder(env: Env, id: nat, ops: seq<BuilderOp>): Builder {
    if ops == [] then NewBuilder(id)
    else Apply(env, RunBuilder(env, id, ops[..|ops| - 1]), ops[|ops| - 1])
  }

  datatype Offer = Offer(deadline: nat, reason: Reason)

  /** The deadline one event brings, judged from outside the builder: a block that was taken in
      brings the end of its sequencing window, an L1 block the maximal duration counted from it,
      a published frame the channel timeout counted from its inclusion. */
  function Brings(env: Env, c: Builder, op: BuilderOp): seq<Offer> {
    match op
    case Add(block) =>
      if c.AddBlock(env, block).1 == Added then [Offer(WindowDeadline(env.cfg, block), SeqWindowClose)] else []
    case Register(n) =>
      if env.cfg.maxChannelDuration == 0 then [] else [Offer(DurationDeadline(env.cfg, n), MaxDurationReached)]
    case Published(n) => [Offer(PublishedDeadline(env.cfg, n), ChannelTimeoutClose)]
    case _ => []
  }

  /** Every deadline brought during a run, oldest first. */
  function Offers(env: Env, id: nat, ops: seq<BuilderOp>): seq<Offer> {
    if ops == [] then []
    else
      var before := ops[..|ops| - 1];
      Offers(env, id, before) + Brings(env, RunBuilder(env, id, before), ops[|ops| - 1])
  }

  function Deadlines(offers: seq<Offer>): (ds: seq<nat>)
    ensures |ds| == |offers| && forall i | 0 <= i < |ds| :: ds[i] == offers[i].deadline
  {
    seq(|offers|, i requires 0 <= i < |offers| => offers[i].deadline)
  }

  lemma StepTakesLower(env: Env, c: Builder, op: BuilderOp)
    ensures var c', brought := Apply(env, c, op), Brings(env, c, op);
      if brought == [] then c'.timeout == c.timeout && c'.timeoutReason == c.timeoutReason
      else
        && |brought| == 1
        && c'.timeout == Lower(c.timeout, brought[0].deadline)
        && c'.timeoutReason ==
             if c.timeout == 0 || brought[0].deadline < c.timeout then brought[0].reason else c.timeoutReason
  {
  }

  /** The deadline is the zero-sentinel minimum of everything brought, on every run. */
  lemma {:induction false} TimeoutIsFold(env: Env, id: nat, ops: seq<BuilderOp>)
    ensures RunBuilder(env, id, ops).timeout == Fold(0, Deadlines(Offers(env, id, ops)))
  {
    if ops != [] {
      var before, op := ops[..|ops| - 1], ops[|ops| - 1];
      TimeoutIsFold(env, id, before);
      StepTakesLower(env, RunBuilder(env, id, before), op);
      FoldOverBrought(Offers(env, id, before), Brings(env, RunBuilder(env, id, before), op));
    }
  }

  lemma FoldOverBrought(offers: seq<Offer>, brought: seq<Offer>)
    requires |brought| <= 1
    ensures Fold(0, Deadlines(offers + brought)) ==
      var held := Fold(0, Deadlines(offers)); if brought == [] then held else Lower(held, brought[0].deadline)
  {
    if brought == [] {
      assert offers + brought == offers;
    } else {
      FoldSnoc(0, Deadlines(offers), brought[0].deadline);
      assert Deadlines(offers + brought) == Deadlines(offers) + [brought[0].deadline];
    }
  }

  /** Every deadline brought is positive: 0 would read as "none". */
  ghost predicate Positive(offers: seq<Offer>) {
    forall i | 0 <= i < |offers| :: offers[i].deadline > 0
  }

  /** `k` is the first offer of the least deadline. */
  ghost predicate FirstLeast(offers: seq<Offer>, k: nat) {
    && k < |offers|
    && (forall i | 0 <= i < |offers| :: offers[k].deadline <= offers[i].deadline)
    && (forall i | 0 <= i < k :: offers[k].deadline < offers[i].deadline)
  }

  ghost predicate HoldsOffer(c: Builder, offers: seq<Offer>, k: nat) {
    FirstLeast(offers, k) && c.timeout == offers[k].deadline && c.timeoutReason == offers[k].reason
  }

  /** `c` holds the least deadline of `offers` with the reason of the first that attains it. */
  ghost predicate HoldsFirstLeast(c: Builder, offers: seq<Offer>) {
    if offers == [] then c.timeout == 0 else exists k: nat :: HoldsOffer(c, offers, k)
  }

  /** With positive deadlines the builder holds, on every run, the least one brought so far and
      the reason of the first event that brought it. */
  lemma {:induction false} DeadlineIsFirstLeast(env: Env, id: nat, ops: seq<BuilderOp>)
    requires Positive(Offers(env, id, ops))
    ensures HoldsFirstLeast(RunBuilder(env, id, ops), Offers(env, id, ops))
  {
    if ops != [] {
      var before, op := ops[..|ops| - 1], ops[|ops| - 1];
      var c := RunBuilder(env, id, before);
      var offers, brought := Offers(env, id, before), Brings(env, c, op);
      assert forall i | 0 <= i < |offers| :: offers[i] == (offers + brought)[i];
      DeadlineIsFirstLeast(env, id, before);
      StepTakesLower(env, c, op);
      OneMoreOffer(c, Apply(env, c, op), offers, brought);
    }
  }

  lemma OneMoreOffer(c: Builder, c': Builder, offers: seq<Offer>, brought: seq<Offer>)
    requires HoldsFirstLeast(c, offers) && Positive(offers + brought) && |brought| <= 1
    requires if brought == [] then c'.timeout == c.timeout && c'.timeoutReason == c.timeoutReason
      else if c.timeout == 0 || brought[0].deadline < c.timeout
      then c'.timeout == brought[0].deadline && c'.timeoutReason == brought[0].reason
      else c'.timeout == c.timeout && c'.timeoutReason == c.timeoutReason
    ensures HoldsFirstLeast(c', offers + brought)
  {
    if brought == [] {
      assert offers + brought == offers;
      if offers != [] {
        var k: nat :| HoldsOffer(c, offers, k);
        assert HoldsOffer(c', offers, k);
      }
    } else {
      var all := offers + brought;
      assert all[|offers|] == brought[0] && forall i | 0 <= i < |offers| :: all[i] == offers[i];
      if offers == [] {
        assert HoldsOffer(c', all, 0);
      } else {
        var k: nat :| HoldsOffer(c, offers, k);
        assert HoldsOffer(c', all, if brought[0].deadline < c.timeout then |offers| else k);
      }
    }
  }

  /** A channel that is still open right after an L1 block was registered lies strictly before
      every deadline brought since the last 0 deadline, and before all of them when none was 0. */
  lemma OpenMeansBeforeEveryDeadline(env: Env, id: nat, ops: seq<BuilderOp>, n: U64)
    requires !RunBuilder(env, id, ops + [Register(n)]).IsFull()
    ensures forall d | d in SinceLastZero(Deadlines(Offers(env, id, ops + [Register(n)]))) :: n < d
    ensures Positive(Offers(env, id, ops + [Register(n)])) ==>
      forall o | o in Offers(env, id, ops + [Register(n)]) :: n < o.deadline
  {
    var run := ops + [Register(n)];
    assert run[..|run| - 1] == ops && run[|run| - 1] == Register(n);
    var offers := Offers(env, id, run);
    TimeoutIsFold(env, id, run);
    FoldExact(Deadlines(offers));
    if Positive(offers) {
      var ds := Deadlines(offers);
      assert 0 !in ds;
      SinceLastZeroIsAll(ds);
      forall o | o in offers ensures n < o.deadline {
        var i :| 0 <= i < |offers| && offers[i] == o;
        assert ds[i] in ds;
      }
    }
  }

  /** A channel becomes full once, for the reason its output gives with a block, for the reason of
      its deadline when an L1 block reaches that, or by being closed; nothing else fills it, and a
      block is taken in exactly when it is not full and its output takes it. */
  lemma FullWhy(env: Env, b: Builder, op: BuilderOp)
    ensures var b' := Apply(env, b, op);
      && (b.fullErr.Some? ==> b'.fullErr == b.fullErr)
      && (b.fullErr.None? && b'.fullErr.Some? ==>
            var why := b'.fullErr.value;
            match op
            case Add(block) => env.codec.accept(b.id, b.blocks, block) in {Rejected(why), Taken(Some(why))}
            case Register(n) => 0 < b'.timeout <= n && why == b'.timeoutReason
            case Terminate => why == Terminated
            case _ => false)
      && (b.fullErr.None? && op.Terminate? ==> b'.fullErr == Some(Terminated))
      && (b.fullErr.None? && op.Add? && env.codec.accept(b.id, b.blocks, op.block).Rejected? ==> b'.fullErr.Some?)
      && b'.blocks == (if op.Add? && b.fullErr.None? && env.codec.accept(b.id, b.blocks, op.block).Taken?
                       then b.blocks + [op.block] else b.blocks)
  {
  }

  /** The object. Its methods change the fields the way the functions above say. */
  class ChannelBuilder {
    const env: Env
    const id: nat
    var timeout: nat
    var timeoutReason: Reason
    var fullErr: Option<Reason>
    var closed: bool
    var blocks: seq<Block>
    var frames: seq<Frame>
    var numFrames: nat

    ghost function View(): Builder
      reads this
    {
      Builder(id, timeout, timeoutReason, fullErr, closed, blocks, frames, numFrames)
    }

    constructor (env: Env, id: nat)
      ensures View() == NewBuilder(id) && this.env == env
    {
      this.env, this.id := env, id;
      timeout, timeoutReason, fullErr, closed := 0, NoReason, None, false;
      blocks, frames, numFrames := [], [], 0;
    }

    method UpdateTimeout(deadline: nat, reason: Reason)
      modifies this
      ensures View() == old(View()).UpdateTimeout(deadline, reason)
    {
      if timeout == 0 || timeout > deadline {
        timeout := deadline;
        timeoutReason := reason;
      }
    }

    method AddBlock(block: Block) returns (r: AddResult)
      modifies this
      ensures (View(), r) == old(View()).AddBlock(env, block)
    {
      if fullErr.Some? {
        return ChannelFull;
      }
      var verdict := env.codec.accept(id, blocks, block);
      match verdict {
        case Broken =>
          return BadBlock;
        case Rejected(reason) =>
          fullErr := Some(reason);
          return ChannelFull;
        case Taken(fullAfter) =>
          blocks := blocks + [block];
          UpdateTimeout(WindowDeadline(env.cfg, block), SeqWindowClose);
          if fullAfter.Some? {
            fullErr := fullAfter;
          }
          return Added;
      }
    }

    method RegisterL1Block(l1Block: U64)
      modifies this
      ensures View() == old(View()).RegisterL1Block(env, l1Block)
    {
      if env.cfg.maxChannelDuration != 0 {
        UpdateTimeout(DurationDeadline(env.cfg, l1Block), MaxDurationReached);
      }
      if fullErr.None? && timeout != 0 && l1Block >= timeout {
        fullErr := Some(timeoutReason);
      }
    }

    method FramePublished(l1Block: U64)
      modifies this
      ensures View() == old(View()).FramePublished(env, l1Block)
    {
      UpdateTimeout(PublishedDeadline(env.cfg, l1Block), ChannelTimeoutClose);
    }

    method OutputFrame()
      modifies this
      ensures View() == old(View()).Append(env, 1)
    {
      frames := frames + [env.FrameOf(id, numFrames)];
      numFrames := numFrames + 1;
      assert env.Emit(id, old(numFrames), 1) == [env.FrameOf(id, old(numFrames))];
    }

    /** The ready frames of an open channel, or with one `rest` more the frames of a closing one. */
    method OutputFrames() returns (ok: bool)
      modifies this
      ensures (View(), ok) == old(View()).OutputFrames(env)
    {
      var k: nat;
      if fullErr.Some? {
        if closed {
          return false;
        }
        k := env.codec.rest(id, blocks, numFrames) + 1;
        closed := true;
      } else {
        k := env.codec.ready(id, blocks, numFrames);
      }
      label start:
      for i := 0 to k
        invariant View() == old@start(View()).Append(env, i)
      {
        OutputFrame();
      }
      return true;
    }

    method Close()
      modifies this
      ensures View() == old(View()).Close()
    {
      if fullErr.None? {
        fullErr := Some(Terminated);
      }
    }

    method NextFrame() returns (frame: Frame)
      requires frames != []
      modifies this
      ensures (View(), frame) == old(View()).PopFrame()
    {
      frame := frames[0];
      frames := frames[1..];
    }

    method PushFrame(frame: Frame)
      requires frame.id.chID == id
      modifies this
      ensures View() == old(View()).PushFrame(frame)
    {
      frames := frames + [frame];
    }
  }
}
