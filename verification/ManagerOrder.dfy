/** Exactly once and in order: when the blocks of the channels that have not timed out, in the
    order of their creation, followed by the pending blocks are precisely the accepted blocks. */
module ManagerOrder {
  import opened Options
  import opened BatcherTypes
  import opened Words
  import opened ChannelBuilders
  import opened Channels
  import opened ManagerSpec
  import opened ManagerRuns

  ghost function Live(env: Env, ch: Chan): seq<Block> {
    if ch.TimedOut(env.cfg) then [] else ch.builder.blocks
  }

  /** The live blocks of the channels since `Clear`, channel by channel. */
  ghost function Lives(env: Env, s: Manager): seq<seq<Block>>
    requires s.epoch <= |s.chans|
  {
    seq(|s.chans| - s.epoch, i requires 0 <= i < |s.chans| - s.epoch => Live(env, s.chans[s.epoch + i]))
  }

  function Concat(xs: seq<seq<Block>>): seq<Block> {
    if xs == [] then [] else Concat(xs[..|xs| - 1]) + xs[|xs| - 1]
  }

  /** What the manager would submit if nothing more happened. */
  ghost function Content(env: Env, s: Manager): seq<Block>
    requires s.epoch <= |s.chans|
  {
    Concat(Lives(env, s)) + s.blocks
  }

  lemma {:induction false} ConcatAppend(a: seq<seq<Block>>, b: seq<seq<Block>>)
    ensures Concat(a + b) == Concat(a) + Concat(b)
    decreases |b|
  {
    if b == [] {
      assert a + b == a;
    } else {
      var init, last := b[..|b| - 1], b[|b| - 1];
      ConcatAppend(a, init);
      ConcatSnoc(a + init, last);
      assert a + b == a + init + [last];
      Associate(Concat(a), Concat(init), last);
    }
  }

  lemma Associate(x: seq<Block>, y: seq<Block>, z: seq<Block>)
    ensures x + y + z == x + (y + z)
  {
  }

  lemma ConcatSnoc(xs: seq<seq<Block>>, x: seq<Block>)
    ensures Concat(xs + [x]) == Concat(xs) + x
  {
    assert (xs + [x])[..|xs|] == xs;
  }

  lemma ConcatSplit(xs: seq<seq<Block>>, c: nat)
    requires c < |xs|
    ensures Concat(xs) == Concat(xs[..c]) + xs[c] + Concat(xs[c + 1..])
  {
    ConcatAppend(xs[..c + 1], xs[c + 1..]);
    assert xs == xs[..c + 1] + xs[c + 1..] && xs[..c + 1][..c] == xs[..c];
  }

  lemma LiveSameChan(env: Env, ch: Chan, ch': Chan)
    requires SameChan(ch, ch')
    ensures Live(env, ch') == Live(env, ch)
  {
  }

  lemma SameContent(env: Env, s: Manager, s': Manager)
    requires s.epoch <= |s.chans| && Same(s, s')
    ensures Content(env, s') == Content(env, s)
  {
    forall i | 0 <= i < |s.chans| - s.epoch ensures Lives(env, s')[i] == Lives(env, s)[i] {
      LiveSameChan(env, s.chans[s.epoch + i], s'.chans[s.epoch + i]);
    }
    assert Lives(env, s') == Lives(env, s);
  }

  /** The newest channel grows by the first `k` pending blocks, the others keep theirs. */
  lemma MovedLives(env: Env, s: Manager, s': Manager, k: nat, failed: bool)
    requires s.epoch <= |s.chans| && Moved(s, s', k, failed)
    requires !s'.chans[|s'.chans| - 1].TimedOut(env.cfg)
    ensures Grown(Lives(env, s), Lives(env, s'), s.blocks[..k])
  {
    OlderLives(env, s, s', k, failed);
    LastLive(env, s, s', k, failed);
    JoinLives(env, s, s', s.blocks[..k]);
  }

  lemma JoinLives(env: Env, s: Manager, s': Manager, more: seq<Block>)
    requires s'.chans != [] && s.epoch == s'.epoch <= |s'.chans| - 1 <= |s.chans| <= |s'.chans|
    requires var n := |s'.chans| - 1 - s.epoch; Lives(env, s')[..n] == Lives(env, s)[..n]
    requires var c := |s'.chans| - 1; Live(env, s'.chans[c]) == (if c < |s.chans| then Live(env, s.chans[c]) else []) + more
    ensures Grown(Lives(env, s), Lives(env, s'), more)
  {
  }

  /** `l'` is `l`, perhaps with an empty last element added, grown by `more` at its end. */
  ghost predicate Grown(l: seq<seq<Block>>, l': seq<seq<Block>>, more: seq<Block>) {
    && l' != [] && |l'| - 1 <= |l| <= |l'| && l'[..|l'| - 1] == l[..|l'| - 1]
    && l'[|l'| - 1] == (if |l'| == |l| then l[|l| - 1] else []) + more
  }

  lemma OlderLives(env: Env, s: Manager, s': Manager, k: nat, failed: bool)
    requires s.epoch <= |s.chans| && Moved(s, s', k, failed)
    ensures var n := |s'.chans| - 1 - s.epoch;
      0 <= n <= |Lives(env, s)| && n <= |Lives(env, s')| && Lives(env, s')[..n] == Lives(env, s)[..n]
  {
    var l, l', n := Lives(env, s), Lives(env, s'), |s'.chans| - 1 - s.epoch;
    forall i | 0 <= i < n ensures l'[i] == l[i] {
      LiveSameChan(env, s.chans[s.epoch + i], s'.chans[s.epoch + i]);
    }
  }

  lemma LastLive(env: Env, s: Manager, s': Manager, k: nat, failed: bool)
    requires s.epoch <= |s.chans| && Moved(s, s', k, failed)
    requires !s'.chans[|s'.chans| - 1].TimedOut(env.cfg)
    ensures var c := |s'.chans| - 1;
      Live(env, s'.chans[c]) == (if c < |s.chans| then Live(env, s.chans[c]) else []) + s.blocks[..k]
  {
  }

  lemma ConcatGrow(l: seq<seq<Block>>, l': seq<seq<Block>>, more: seq<Block>)
    requires Grown(l, l', more)
    ensures Concat(l') == Concat(l) + more
  {
    var n := |l'| - 1;
    ConcatSnoc(l'[..n], l'[n]);
    assert l' == l'[..n] + [l'[n]];
    if |l'| == |l| {
      ConcatSnoc(l[..n], l[n]);
      assert l == l[..n] + [l[n]];
      Associate(Concat(l[..n]), l[n], more);
    } else {
      assert l[..n] == l && [] + more == more;
    }
  }

  /** Moving blocks to the newest channel keeps their place; copying them does not. */
  lemma MovedContent(env: Env, s: Manager, s': Manager, k: nat, failed: bool)
    requires s.epoch <= |s.chans| && Moved(s, s', k, failed)
    requires !s'.chans[|s'.chans| - 1].TimedOut(env.cfg)
    ensures !failed || k == 0 ==> Content(env, s') == Content(env, s)
    ensures failed && k > 0 ==> |Content(env, s')| > |Content(env, s)|
  {
    assert Concat(Lives(env, s')) == Concat(Lives(env, s)) + s.blocks[..k] by {
      MovedLives(env, s, s', k, failed);
      ConcatGrow(Lives(env, s), Lives(env, s'), s.blocks[..k]);
    }
    PrefixMoved(Concat(Lives(env, s)), s.blocks, k);
  }

  lemma PrefixMoved(content: seq<Block>, blocks: seq<Block>, k: nat)
    requires k <= |blocks|
    ensures content + blocks[..k] + blocks[k..] == content + blocks
    ensures |content + blocks[..k] + blocks| == |content + blocks| + k
  {
  }

  /** A timeout keeps the order unless there are blocks to take back and either the channel had
      timed out before or a later channel holds blocks. */
  ghost predicate OrderlyConfirm(env: Env, s: Manager, id: FrameID, l1Block: U64)
    requires TxChannelsOk(s) && s.epoch <= |s.chans|
  {
    id in s.txChannels && s.chans[id.chID].Confirm(env, id, l1Block).TimedOut(env.cfg) ==>
      || s.chans[id.chID].builder.blocks == []
      || (!s.chans[id.chID].TimedOut(env.cfg) && Concat(Lives(env, s)[id.chID - s.epoch + 1..]) == [])
  }

  ghost predicate NoRepeats(blocks: seq<Block>) {
    forall i, j | 0 <= i < j < |blocks| :: blocks[i] != blocks[j]
  }

  lemma ReplacedLives(env: Env, s: Manager, s': Manager, c: nat, ch: Chan)
    requires s.epoch <= c < |s.chans| && s'.epoch == s.epoch && s'.chans == s.chans[c := ch]
    ensures Lives(env, s') == Lives(env, s)[c - s.epoch := Live(env, ch)]
  {
  }

  lemma ConcatReplace(l: seq<seq<Block>>, c: nat, y: seq<Block>)
    requires c < |l|
    ensures Concat(l) == Concat(l[..c]) + l[c] + Concat(l[c + 1..])
    ensures Concat(l[c := y]) == Concat(l[..c]) + y + Concat(l[c + 1..])
  {
    ConcatSplit(l, c);
    ConcatSplit(l[c := y], c);
    assert l[c := y][..c] == l[..c] && l[c := y][c + 1..] == l[c + 1..];
  }

  /** The content around channel `c`, and what it becomes with another channel in its place. */
  lemma ContentAround(env: Env, s: Manager, s': Manager, c: nat, ch: Chan)
    requires s.epoch <= c < |s.chans| && s'.epoch == s.epoch && s'.chans == s.chans[c := ch]
    ensures var p, x := Concat(Lives(env, s)[..c - s.epoch]), Concat(Lives(env, s)[c - s.epoch + 1..]);
      && Content(env, s) == p + Live(env, s.chans[c]) + x + s.blocks
      && Content(env, s') == p + Live(env, ch) + x + s'.blocks
  {
    ReplacedLives(env, s, s', c, ch);
    ConcatReplace(Lives(env, s), c - s.epoch, Live(env, ch));
  }

  /** Taking `b` out from between `p` and `x` and putting it in front of `r` changes nothing
      exactly when there is nothing to take or nothing to jump over. */
  lemma MoveBack(p: seq<Block>, b: seq<Block>, x: seq<Block>, r: seq<Block>)
    ensures b == [] || x == [] ==> p + b + x + r == p + [] + x + (b + r)
    ensures NoRepeats(p + b + x + r) && p + b + x + r == p + [] + x + (b + r) ==> b == [] || x == []
    ensures p + [] + x + r == p + [] + x + (b + r) ==> b == []
  {
    if b != [] && x != [] && NoRepeats(p + b + x + r) {
      assert (p + b + x + r)[|p|] == b[0] && (p + b + x + r)[|p| + |b|] == x[0];
      assert (p + [] + x + (b + r))[|p|] == x[0];
    }
    assert |p + [] + x + (b + r)| == |p + [] + x + r| + |b|;
    if b == [] { assert b + r == r; }
  }

  /** The same with the two timeout flags: `was` before, `now` after the confirmation. */
  lemma MoveBackIff(p: seq<Block>, b: seq<Block>, x: seq<Block>, r: seq<Block>, was: bool, now: bool)
    requires was ==> now
    ensures var before := p + (if was then [] else b) + x + r;
      var after := p + (if now then [] else b) + x + ((if now then b else []) + r);
      var orderly := now ==> b == [] || (!was && x == []);
      && (orderly ==> after == before)
      && (NoRepeats(before) && after == before ==> orderly)
  {
    MoveBack(p, b, x, r);
    assert [] + r == r;
  }

  /** `before` and `after` a confirmation of a channel with blocks `b` between `p` and `x`. */
  predicate Shaped(p: seq<Block>, b: seq<Block>, x: seq<Block>, r: seq<Block>, was: bool, now: bool,
                   before: seq<Block>, after: seq<Block>) {
    && before == p + (if was then [] else b) + x + r
    && after == p + (if now then [] else b) + x + ((if now then b else []) + r)
  }

  lemma ShapedIff(p: seq<Block>, b: seq<Block>, x: seq<Block>, r: seq<Block>, was: bool, now: bool,
                  before: seq<Block>, after: seq<Block>)
    requires Shaped(p, b, x, r, was, now, before, after) && (was ==> now)
    ensures var orderly := now ==> b == [] || (!was && x == []);
      (orderly ==> after == before) && (NoRepeats(before) && after == before ==> orderly)
  {
    MoveBackIff(p, b, x, r, was, now);
  }

  /** Channel `id.chID` holds `b`, the live channels before it `p` and after it `x`; `was` and `now`
      say whether it is timed out before and after its confirmation. */
  ghost predicate Around(env: Env, s: Manager, id: FrameID, l1Block: U64, p: seq<Block>, b: seq<Block>,
                         x: seq<Block>, was: bool, now: bool)
    requires TxChannelsOk(s) && s.epoch <= |s.chans| && id in s.txChannels
  {
    && p == Concat(Lives(env, s)[..id.chID - s.epoch])
    && x == Concat(Lives(env, s)[id.chID - s.epoch + 1..])
    && b == s.chans[id.chID].builder.blocks
    && was == s.chans[id.chID].TimedOut(env.cfg)
    && now == s.chans[id.chID].Confirm(env, id, l1Block).TimedOut(env.cfg)
  }

  lemma OrderlyMeans(env: Env, s: Manager, id: FrameID, l1Block: U64, p: seq<Block>, b: seq<Block>,
                     x: seq<Block>, was: bool, now: bool)
    requires TxChannelsOk(s) && s.epoch <= |s.chans| && id in s.txChannels
    requires Around(env, s, id, l1Block, p, b, x, was, now)
    ensures OrderlyConfirm(env, s, id, l1Block) <==> (now ==> b == [] || (!was && x == []))
  {
  }

  lemma ConfirmShapes(env: Env, s: Manager, s': Manager, id: FrameID, l1Block: U64, p: seq<Block>, b: seq<Block>,
                      x: seq<Block>, was: bool, now: bool)
    requires TxChannelsOk(s) && s.epoch <= |s.chans| && s.Linked() && id in s.txChannels
    requires Around(env, s, id, l1Block, p, b, x, was, now) && s' == s.TxConfirmed(env, id, l1Block)
    ensures s'.epoch <= |s'.chans| && Shaped(p, b, x, s.blocks, was, now, Content(env, s), Content(env, s'))
  {
    var ch := s.chans[id.chID].Confirm(env, id, l1Block);
    ConfirmEffect(env, s, id, l1Block);
    ContentAround(env, s, s', id.chID, ch);
  }

  /** Exactly when a confirmation leaves the order of the blocks as it was, provided no block
      occurs twice beforehand. */
  lemma ConfirmKeepsOrderIff(env: Env, s: Manager, id: FrameID, l1Block: U64)
    requires AllSound(env, s.chans) && TxChannelsOk(s) && s.epoch <= |s.chans| && s.Linked()
    ensures var s' := s.TxConfirmed(env, id, l1Block);
      && s'.epoch <= |s'.chans|
      && (OrderlyConfirm(env, s, id, l1Block) ==> Content(env, s') == Content(env, s))
      && (NoRepeats(Content(env, s)) && Content(env, s') == Content(env, s) ==> OrderlyConfirm(env, s, id, l1Block))
  {
    if id in s.txChannels {
      var lives := Lives(env, s);
      var p, x := Concat(lives[..id.chID - s.epoch]), Concat(lives[id.chID - s.epoch + 1..]);
      var ch, ch' := s.chans[id.chID], s.chans[id.chID].Confirm(env, id, l1Block);
      Kept(env, s, s.TxConfirmed(env, id, l1Block), id, l1Block, p, ch.builder.blocks, x,
           ch.TimedOut(env.cfg), ch'.TimedOut(env.cfg));
    }
  }

  lemma Kept(env: Env, s: Manager, s': Manager, id: FrameID, l1Block: U64, p: seq<Block>, b: seq<Block>,
             x: seq<Block>, was: bool, now: bool)
    requires AllSound(env, s.chans) && TxChannelsOk(s) && s.epoch <= |s.chans| && s.Linked() && id in s.txChannels
    requires Around(env, s, id, l1Block, p, b, x, was, now) && s' == s.TxConfirmed(env, id, l1Block)
    ensures s'.epoch <= |s'.chans|
    ensures OrderlyConfirm(env, s, id, l1Block) ==> Content(env, s') == Content(env, s)
    ensures NoRepeats(Content(env, s)) && Content(env, s') == Content(env, s) ==> OrderlyConfirm(env, s, id, l1Block)
  {
    assert was ==> now by { ConfirmedChan(env, s, id, l1Block); }
    OrderlyMeans(env, s, id, l1Block, p, b, x, was, now);
    ConfirmShapes(env, s, s', id, l1Block, p, b, x, was, now);
    ShapedIff(p, b, x, s.blocks, was, now, Content(env, s), Content(env, s'));
  }

  /** A call that leaves the order of the blocks alone. */
  ghost predicate Orderly(env: Env, s: Manager, op: Op)
    requires TxChannelsOk(s) && s.Linked() && s.epoch <= |s.chans|
  {
    match op
    case TxData(_) => !(Feeds(env, s).1 && Feeds(env, s).0 > 0)
    case TxConfirmed(id, l1Block) => OrderlyConfirm(env, s, id, l1Block)
    case _ => true
  }

  /** What one call adds to the accepted blocks. */
  function Adds(s: Manager, op: Op): seq<Block> {
    if op.AddL2Block? && s.AddL2Block(op.block).1 then [op.block] else []
  }

  lemma TxDataContent(env: Env, s: Manager, l1Head: U64)
    requires Inv(env, s) && s.Linked()
    ensures var s' := s.TxData(env, l1Head).0;
      && s'.epoch <= |s'.chans|
      && (Content(env, s') == Content(env, s) <==> Orderly(env, s, TxData(l1Head)))
  {
    var s' := s.TxData(env, l1Head).0;
    var (k, failed) := Feeds(env, s);
    TxDataMoves(env, s, l1Head);
    if Moved(s, s', k, failed) {
      assert QueueOk(env, s') by { TxDataInv(env, s, l1Head); }
      MovedInTime(env, s, s', k, failed);
      MovedContent(env, s, s', k, failed);
    } else {
      SameContent(env, s, s');
    }
  }

  /** With no repeated block, one call keeps the content in step with the accepted blocks exactly
      when it is orderly. */
  lemma StepInStepIff(env: Env, s: Manager, op: Op)
    requires Inv(env, s) && s.Linked() && op != Clear
    ensures var s' := Step(env, s, op);
      && s'.epoch <= |s'.chans|
      && (Orderly(env, s, op) ==> Content(env, s') == Content(env, s) + Adds(s, op))
      && (NoRepeats(Content(env, s)) && Content(env, s') == Content(env, s) + Adds(s, op) ==> Orderly(env, s, op))
  {
    var s' := Step(env, s, op);
    assert Content(env, s) + [] == Content(env, s);
    match op
    case AddL2Block(block) =>
      assert Lives(env, s') == Lives(env, s);
      assert Concat(Lives(env, s)) + (s.blocks + [block]) == Content(env, s) + [block];
    case TxData(l1Head) => TxDataContent(env, s, l1Head);
    case TxFailed(id) =>
      TxFailedSame(env, s, id);
      SameContent(env, s, s');
    case TxConfirmed(id, l1Block) =>
      ConfirmKeepsOrderIff(env, s, id, l1Block);
    case Close =>
      CloseSame(env, s);
      SameContent(env, s, s');
  }

  /** Every call of the run was orderly. */
  ghost predicate OrderlyRun(env: Env, ops: seq<Op>) {
    ops == [] || (OrderlyRun(env, ops[..|ops| - 1]) && Orderly(env, Run(env, ops[..|ops| - 1]), ops[|ops| - 1]))
  }

  /** At every moment of the run the content was exactly the accepted blocks. */
  ghost predicate AlwaysInOrder(env: Env, ops: seq<Op>) {
    && Content(env, Run(env, ops)) == Accepted(env, ops)
    && (ops == [] || AlwaysInOrder(env, ops[..|ops| - 1]))
  }

  lemma AcceptedGrows(env: Env, ops: seq<Op>)
    requires ops != [] && ops[|ops| - 1] != Clear
    ensures var before, op := ops[..|ops| - 1], ops[|ops| - 1];
      Accepted(env, ops) == Accepted(env, before) + Adds(Run(env, before), op)
  {
  }

  lemma ClearContent(env: Env, s: Manager)
    requires s.Linked()
    ensures var s' := Step(env, s, Clear); s'.epoch <= |s'.chans| && Content(env, s') == []
  {
  }

  lemma LastStep(env: Env, ops: seq<Op>)
    requires ops != [] && Content(env, Run(env, ops[..|ops| - 1])) == Accepted(env, ops[..|ops| - 1])
    ensures var before, op := ops[..|ops| - 1], ops[|ops| - 1];
      && (Orderly(env, Run(env, before), op) ==> Content(env, Run(env, ops)) == Accepted(env, ops))
      && (NoRepeats(Accepted(env, before)) && Content(env, Run(env, ops)) == Accepted(env, ops) ==>
            Orderly(env, Run(env, before), op))
  {
    var s, op := Run(env, ops[..|ops| - 1]), ops[|ops| - 1];
    if op == Clear {
      ClearContent(env, s);
    } else {
      AcceptedGrows(env, ops);
      StepInStepIff(env, s, op);
    }
  }

  /** Exactly once and in order, on every run of orderly calls. */
  lemma {:induction false} ExactlyOnceInOrder(env: Env, ops: seq<Op>)
    requires OrderlyRun(env, ops)
    ensures AlwaysInOrder(env, ops)
  {
    if ops != [] {
      ExactlyOnceInOrder(env, ops[..|ops| - 1]);
      LastStep(env, ops);
    }
  }

  ghost predicate NeverRepeats(env: Env, ops: seq<Op>) {
    NoRepeats(Accepted(env, ops)) && (ops == [] || NeverRepeats(env, ops[..|ops| - 1]))
  }

  /** Between distinct blocks the order is kept throughout a run exactly when every call of the
      run was orderly. */
  lemma {:induction false} InOrderIffOrderly(env: Env, ops: seq<Op>)
    requires NeverRepeats(env, ops)
    ensures AlwaysInOrder(env, ops) <==> OrderlyRun(env, ops)
  {
    if ops != [] {
      InOrderIffOrderly(env, ops[..|ops| - 1]);
      if OrderlyRun(env, ops[..|ops| - 1]) {
        LastStep(env, ops);
      }
    }
  }
}
