/** A channel: a builder and the fate of every frame it put out. */
module Channels {
  import opened Options
  import opened BatcherTypes
  import opened Words
  import opened ChannelBuilders

  /** `k` is the id of a frame waiting in `frames`. */
  ghost predicate Waiting(frames: seq<Frame>, k: FrameID) {
    exists i :: 0 <= i < |frames| && frames[i].id == k
  }

  /** Two confirmations lie at least the channel timeout apart. */
  ghost predicate Spans(cfg: Config, confirmed: map<FrameID, U64>) {
    exists a, b :: a in confirmed && b in confirmed && confirmed[a] - confirmed[b] >= cfg.channelTimeout
  }

  datatype Chan = Chan(builder: Builder, pending: map<FrameID, Frame>, confirmed: map<FrameID, U64>) {

    predicate FullySubmitted() {
      builder.IsFull() && |pending| + |builder.frames| == 0
    }

    predicate NoneSubmitted() {
      |confirmed| == 0 && |pending| == 0
    }

    ghost predicate TimedOut(cfg: Config) {
      Spans(cfg, confirmed)
    }

    function TxFailed(id: FrameID): Chan {
      if id !in pending then this
      else this.(builder := builder.PushFrame(pending[id]), pending := pending - {id})
    }

    function Confirm(env: Env, id: FrameID, l1Block: U64): Chan {
      Chan(builder.FramePublished(env, l1Block), pending - {id}, confirmed[id := l1Block])
    }

    /** The channel afterwards, whether it is done, and the blocks to take back. */
    ghost function TxConfirmed(env: Env, id: FrameID, l1Block: U64): (Chan, bool, seq<Block>) {
      if id !in pending then (this, false, [])
      else
        var ch := Confirm(env, id, l1Block);
        if ch.TimedOut(env.cfg) then (ch, true, ch.builder.blocks)
        else (ch, ch.FullySubmitted(), [])
    }

    function NextTxData(): (Chan, Frame)
      requires builder.frames != []
    {
      var (b, frame) := builder.PopFrame();
      (this.(builder := b, pending := pending[frame.id := frame]), frame)
    }

    /** `k` is the id of a frame this channel has put out. */
    predicate PutOut(k: FrameID) {
      k.chID == builder.id && k.number < builder.numFrames
    }

    /** The frames put out so far are divided, without overlap and with the bytes they were put
        out with, into those waiting, those in flight and those confirmed. */
    ghost predicate Conserved(env: Env) {
      && (forall i, j | 0 <= i < j < |builder.frames| :: builder.frames[i].id != builder.frames[j].id)
      && (forall i | 0 <= i < |builder.frames| ::
            builder.frames[i] == env.FrameOf(builder.id, builder.frames[i].id.number))
      && (forall k | k in pending :: pending[k].id == k && pending[k] == env.FrameOf(builder.id, k.number))
      && (forall k :: PutOut(k) <==> Waiting(builder.frames, k) || k in pending || k in confirmed)
      && (forall k :: !(Waiting(builder.frames, k) && k in pending))
      && (forall k :: !(Waiting(builder.frames, k) && k in confirmed))
      && (forall k :: !(k in pending && k in confirmed))
    }

    /** What holds of channel number `c` between two calls. */
    ghost predicate Sound(env: Env, c: nat) {
      && builder.id == c
      && (builder.IsFull() <==> builder.closed)
      && Conserved(env)
    }
  }

  function NewChan(id: nat): Chan {
    Chan(NewBuilder(id), map[], map[])
  }

  lemma NewIsSound(env: Env, c: nat)
    ensures NewChan(c).Sound(env, c)
  {
  }

  lemma NextTxDataSound(env: Env, c: nat, ch: Chan)
    requires ch.Sound(env, c) && ch.builder.frames != []
    ensures ch.NextTxData().0.Sound(env, c)
    ensures var frame := ch.NextTxData().1;
      frame.id !in ch.pending && frame.id !in ch.confirmed && frame == env.FrameOf(c, frame.id.number)
  {
  }

  lemma WaitingSplit(a: seq<Frame>, b: seq<Frame>, k: FrameID)
    ensures Waiting(a + b, k) <==> Waiting(a, k) || Waiting(b, k)
  {
    if Waiting(a, k) {
      var i :| 0 <= i < |a| && a[i].id == k;
      assert (a + b)[i].id == k;
    }
    if Waiting(b, k) {
      var i :| 0 <= i < |b| && b[i].id == k;
      assert (a + b)[|a| + i].id == k;
    }
  }

  lemma TxFailedSound(env: Env, c: nat, ch: Chan, id: FrameID)
    requires ch.Sound(env, c)
    ensures ch.TxFailed(id).Sound(env, c)
  {
    if id in ch.pending {
      forall k ensures Waiting(ch.TxFailed(id).builder.frames, k) <==> Waiting(ch.builder.frames, k) || k == id {
        WaitingSplit(ch.builder.frames, [ch.pending[id]], k);
        assert [ch.pending[id]][0].id == id;
      }
      assert !Waiting(ch.builder.frames, id);
    }
  }

  lemma ConfirmSound(env: Env, c: nat, ch: Chan, id: FrameID, l1Block: U64)
    requires ch.Sound(env, c) && id in ch.pending
    ensures ch.Confirm(env, id, l1Block).Sound(env, c)
  {
  }

  /** Putting out more frames keeps the division: the new ones all wait. */
  lemma OutputSound(env: Env, c: nat, ch: Chan, k: nat)
    requires ch.Conserved(env) && ch.builder.id == c
    ensures ch.(builder := ch.builder.Append(env, k)).Conserved(env)
  {
    var b := ch.builder;
    var fresh' := env.Emit(c, b.numFrames, k);
    forall id ensures Waiting(b.frames + fresh', id) <==>
        Waiting(b.frames, id) || (id.chID == c && b.numFrames <= id.number < b.numFrames + k) {
      WaitingSplit(b.frames, fresh', id);
      if id.chID == c && b.numFrames <= id.number < b.numFrames + k {
        assert fresh'[id.number - b.numFrames].id == id;
      }
    }
    var ch' := ch.(builder := b.Append(env, k));
    forall i, j | 0 <= i < j < |ch'.builder.frames| ensures ch'.builder.frames[i].id != ch'.builder.frames[j].id {
      if i < |b.frames| {
        assert Waiting(b.frames, b.frames[i].id);
      }
    }
  }

  ghost function Ids(frames: seq<Frame>): set<FrameID> {
    set i | 0 <= i < |frames| :: frames[i].id
  }

  ghost function IdsBelow(c: nat, n: nat): set<FrameID> {
    set m | 0 <= m < n :: FrameID(c, m)
  }

  lemma PartsCover(env: Env, c: nat, ch: Chan)
    requires ch.Sound(env, c)
    ensures IdsBelow(c, ch.builder.numFrames) == Ids(ch.builder.frames) + ch.pending.Keys + ch.confirmed.Keys
  {
  }

  /** The three parts add up to the number of frames put out. */
  lemma FramesAddUp(env: Env, c: nat, ch: Chan)
    requires ch.Sound(env, c)
    ensures |ch.builder.frames| + |ch.pending| + |ch.confirmed| == ch.builder.numFrames
  {
    var waiting := Ids(ch.builder.frames);
    IdsCount(ch.builder.frames);
    IdsBelowCount(c, ch.builder.numFrames);
    PartsCover(env, c, ch);
    forall k: FrameID | k in waiting ensures k !in ch.pending && k !in ch.confirmed {
      assert Waiting(ch.builder.frames, k);
    }
    Disjoint3(IdsBelow(c, ch.builder.numFrames), waiting, ch.pending.Keys, ch.confirmed.Keys);
  }

  lemma Disjoint3<T>(all: set<T>, a: set<T>, b: set<T>, c: set<T>)
    requires all == a + b + c && a !! b && a !! c && b !! c
    ensures |all| == |a| + |b| + |c|
  {
  }

  lemma {:induction false} IdsCount(frames: seq<Frame>)
    requires forall i, j | 0 <= i < j < |frames| :: frames[i].id != frames[j].id
    ensures |Ids(frames)| == |frames|
  {
    if frames != [] {
      var init := frames[..|frames| - 1];
      IdsCount(init);
      assert Ids(frames) == Ids(init) + {frames[|init|].id};
    }
  }

  lemma {:induction false} IdsBelowCount(c: nat, n: nat)
    ensures |IdsBelow(c, n)| == n
  {
    if n > 0 {
      IdsBelowCount(c, n - 1);
      assert IdsBelow(c, n) == IdsBelow(c, n - 1) + {FrameID(c, n - 1)};
    }
  }

  /** A channel that is fully submitted and not timed out is complete and valid: closed, nothing
      waiting or in flight, every frame it ever put out confirmed, and any two of the inclusion
      blocks less than the channel timeout apart. */
  lemma RetiredIsComplete(env: Env, c: nat, ch: Chan)
    requires ch.Sound(env, c) && ch.FullySubmitted() && !ch.TimedOut(env.cfg)
    ensures ch.builder.IsFull() && ch.builder.closed && ch.builder.frames == [] && ch.pending == map[]
    ensures forall n | 0 <= n < ch.builder.numFrames :: FrameID(c, n) in ch.confirmed
    ensures forall a, b | a in ch.confirmed && b in ch.confirmed ::
      ch.confirmed[a] - ch.confirmed[b] < env.cfg.channelTimeout
  {
  }

  /** Once timed out, a channel stays timed out, whatever is confirmed later. */
  lemma TimedOutIsPermanent(env: Env, c: nat, ch: Chan, id: FrameID, l1Block: U64)
    requires ch.Sound(env, c) && id in ch.pending && ch.TimedOut(env.cfg)
    ensures ch.Confirm(env, id, l1Block).TimedOut(env.cfg)
  {
    var a, b :| a in ch.confirmed && b in ch.confirmed && ch.confirmed[a] - ch.confirmed[b] >= env.cfg.channelTimeout;
    var later := ch.Confirm(env, id, l1Block).confirmed;
    assert a in later && b in later && later[a] - later[b] >= env.cfg.channelTimeout;
  }

  class Channel {
    const env: Env
    const builder: ChannelBuilder
    var pending: map<FrameID, Frame>
    var confirmed: map<FrameID, U64>

    ghost function View(): Chan
      reads this, builder
    {
      Chan(builder.View(), pending, confirmed)
    }

    constructor (env: Env, id: nat)
      ensures View() == NewChan(id) && this.env == env && builder.env == env && fresh(builder)
    {
      this.env := env;
      builder := new ChannelBuilder(env, id);
      pending, confirmed := map[], map[];
    }

    method TxFailed(id: FrameID)
      requires id in pending ==> pending[id].id.chID == builder.id
      modifies this, builder
      ensures View() == old(View()).TxFailed(id)
    {
      if id in pending {
        builder.PushFrame(pending[id]);
        pending := pending - {id};
      }
    }

    method TxConfirmed(id: FrameID, l1Block: U64) returns (done: bool, back: seq<Block>)
      requires builder.env == env
      modifies this, builder
      ensures (View(), done, back) == old(View()).TxConfirmed(env, id, l1Block)
    {
      if id !in pending {
        return false, [];
      }
      pending := pending - {id};
      confirmed := confirmed[id := l1Block];
      builder.FramePublished(l1Block);
      var timedOut := IsTimedOut();
      if timedOut {
        return true, builder.blocks;
      }
      return builder.fullErr.Some? && |pending| + |builder.frames| == 0, [];
    }

    /** The source's single pass for the least and the greatest inclusion block decides whether
        two confirmations lie too far apart. */
    method IsTimedOut() returns (r: bool)
      ensures r <==> View().TimedOut(env.cfg)
    {
      if |confirmed| == 0 {
        return false;
      }
      var min: U64, max: U64 := TWO_64 - 1, 0;
      var left := confirmed.Keys;
      ghost var first: FrameID, last: FrameID;
      first :| first in left;
      last := first;
      while left != {}
        invariant left <= confirmed.Keys && first in confirmed && last in confirmed
        invariant forall k | k in confirmed && k !in left :: min <= confirmed[k] <= max
        invariant left != confirmed.Keys ==> confirmed[first] == min && confirmed[last] == max
        invariant left == confirmed.Keys ==> min == TWO_64 - 1 && max == 0
        decreases |left|
      {
        var k :| k in left;
        if left == confirmed.Keys || confirmed[k] < min {
          first := k;
        }
        if left == confirmed.Keys || confirmed[k] > max {
          last := k;
        }
        if confirmed[k] < min {
          min := confirmed[k];
        }
        if confirmed[k] > max {
          max := confirmed[k];
        }
        left := left - {k};
      }
      r := max - min >= env.cfg.channelTimeout;
      assert r ==> confirmed[last] - confirmed[first] >= env.cfg.channelTimeout;
    }

    method NextTxData() returns (frame: Frame)
      requires builder.frames != []
      modifies this, builder
      ensures (View(), frame) == old(View()).NextTxData()
    {
      frame := builder.NextFrame();
      pending := pending[frame.id := frame];
    }
  }
}
