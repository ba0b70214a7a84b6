/** Which blocks a tick loads, by number, and what the driver may do once its manager is closed. */
module DriverLoading {
  import opened Options
  import opened BatcherTypes
  import opened Words
  import opened ChannelBuilders
  import opened Channels
  import opened ManagerSpec
  import opened ManagerRuns
  import opened DriverSpec

  /** The block after which loading goes on: the last stored one, or the safe head when there is
      none or it lags behind. */
  function LoadAfter(last: BlockID, st: SyncStatus): BlockID {
    if last == NO_BLOCK || last.number < st.safe.number then st.safe else last
  }

  /** The sequencer has told of a block beyond that one, and beyond the safe head. */
  predicate HasWork(last: BlockID, status: Option<SyncStatus>) {
    && status.Some? && status.value.headL1Known
    && status.value.safe.number < status.value.unsafe'.number
    && LoadAfter(last, status.value).number < status.value.unsafe'.number
  }

  predicate AllFetched(fetch: nat -> Option<Block>, i: nat, n: nat) {
    forall j | i <= j < i + n :: fetch(j).Some?
  }

  /** The `n` blocks numbered from `i` on. */
  function Fetched(fetch: nat -> Option<Block>, i: nat, n: nat): (blocks: seq<Block>)
    requires AllFetched(fetch, i, n)
    ensures |blocks| == n && forall k | 0 <= k < n :: blocks[k] == fetch(i + k).value
  {
    seq(n, k requires 0 <= k < n => fetch(i + k).value)
  }

  function Adding(blocks: seq<Block>): (ops: seq<Op>)
    ensures |ops| == |blocks| && forall k | 0 <= k < |blocks| :: ops[k] == AddL2Block(blocks[k])
  {
    seq(|blocks|, k requires 0 <= k < |blocks| => AddL2Block(blocks[k]))
  }

  /** The blocks follow each other, the first of them the block with the hash `tip`, if there is one. */
  predicate Follow(tip: nat, blocks: seq<Block>) {
    blocks != [] ==> (tip == ZERO_HASH || blocks[0].parent == tip) && Chain(blocks)
  }

  function TipAfter(tip: nat, blocks: seq<Block>): nat {
    if blocks == [] then tip else blocks[|blocks| - 1].hash
  }

  /** The manager took in `blocks`; then came `next`, if not all were loaded: a block, or none where one
      could not be fetched. */
  ghost predicate TookThese(d: Driver, blocks: seq<Block>, next: Option<Option<Block>>, d': Driver, res: LoadResult, ops: seq<Op>) {
    && Follow(d.manager.tip, blocks)
    && d'.manager == d.manager.(blocks := d.manager.blocks + blocks, tip := TipAfter(d.manager.tip, blocks))
    && res == (if next.None? then Loaded else if next.value.None? then LoadError else Reorg)
    && ops == Adding(blocks) + (if res == Reorg then [AddL2Block(next.value.value)] else [])
    && (res == Reorg ==> !Follow(d'.manager.tip, [next.value.value]))
    && d'.lastStored == if res == Reorg then NO_BLOCK else if blocks == [] then d.lastStored else IdOf(blocks[|blocks| - 1])
  }

  /** Loading the blocks from `i` to `end` took in the first `k` and ended with `res`. */
  ghost predicate Took(d: Driver, fetch: nat -> Option<Block>, i: nat, end: nat, k: nat, d': Driver, res: LoadResult, ops: seq<Op>) {
    && i + k <= end + 1 && AllFetched(fetch, i, k)
    && TookThese(d, Fetched(fetch, i, k), if i + k == end + 1 then None else Some(fetch(i + k)), d', res, ops)
  }

  lemma {:induction false} LoadFromTook(d: Driver, fetch: nat -> Option<Block>, i: nat, end: nat) returns (k: nat)
    requires i <= end + 1
    ensures Took(d, fetch, i, end, k, LoadFrom(d, fetch, i, end).0, LoadFrom(d, fetch, i, end).1, LoadOps(d, fetch, i, end))
    decreases end + 1 - i
  {
    k := 0;
    if i <= end {
      var (d', res) := LoadOne(d, fetch(i));
      if res == Loaded {
        k := LoadFromTook(d', fetch, i + 1, end);
        TookOneMore(d, d', fetch, i, end, k);
        k := k + 1;
      } else {
        TookNone(d, fetch, i, end);
      }
    } else {
      assert d.manager.blocks + [] == d.manager.blocks;
    }
  }

  lemma TookNone(d: Driver, fetch: nat -> Option<Block>, i: nat, end: nat)
    requires i <= end && LoadOne(d, fetch(i)).1 != Loaded
    ensures Took(d, fetch, i, end, 0, LoadFrom(d, fetch, i, end).0, LoadFrom(d, fetch, i, end).1, LoadOps(d, fetch, i, end))
  {
    var ops := LoadOps(d, fetch, i, end);
    assert ops == OneOp(fetch(i)) + [] == OneOp(fetch(i));
    assert d.manager.blocks + [] == d.manager.blocks && [] + OneOp(fetch(i)) == OneOp(fetch(i));
  }

  lemma TookOneMore(d: Driver, d1: Driver, fetch: nat -> Option<Block>, i: nat, end: nat, k: nat)
    requires i <= end && LoadOne(d, fetch(i)) == (d1, Loaded)
    requires Took(d1, fetch, i + 1, end, k, LoadFrom(d1, fetch, i + 1, end).0, LoadFrom(d1, fetch, i + 1, end).1, LoadOps(d1, fetch, i + 1, end))
    ensures Took(d, fetch, i, end, k + 1, LoadFrom(d, fetch, i, end).0, LoadFrom(d, fetch, i, end).1, LoadOps(d, fetch, i, end))
  {
    TookCons(d, d1, fetch, i, end, k, LoadFrom(d1, fetch, i + 1, end).0, LoadFrom(d1, fetch, i + 1, end).1, LoadOps(d1, fetch, i + 1, end));
  }

  lemma TookCons(d: Driver, d1: Driver, fetch: nat -> Option<Block>, i: nat, end: nat, k: nat, d': Driver, res: LoadResult, ops: seq<Op>)
    requires i <= end && LoadOne(d, fetch(i)) == (d1, Loaded) && Took(d1, fetch, i + 1, end, k, d', res, ops)
    ensures Took(d, fetch, i, end, k + 1, d', res, OneOp(fetch(i)) + ops)
  {
    FetchedCons(fetch, i, k);
    TheseCons(d, d1, fetch(i).value, Fetched(fetch, i + 1, k),
              if i + 1 + k == end + 1 then None else Some(fetch(i + 1 + k)), d', res, ops);
  }

  lemma TheseCons(d: Driver, d1: Driver, b: Block, more: seq<Block>, next: Option<Option<Block>>, d': Driver, res: LoadResult, ops: seq<Op>)
    requires LoadOne(d, Some(b)) == (d1, Loaded) && TookThese(d1, more, next, d', res, ops)
    ensures TookThese(d, [b] + more, next, d', res, [AddL2Block(b)] + ops)
  {
    FollowCons(d.manager.tip, b, more);
    BlocksCons(d.manager.blocks, b, more);
    OpsCons(b, more, if res == Reorg then [AddL2Block(next.value.value)] else []);
  }

  lemma OpsCons(b: Block, more: seq<Block>, last: seq<Op>)
    ensures [AddL2Block(b)] + (Adding(more) + last) == Adding([b] + more) + last
  {
    assert Adding([b] + more) == [AddL2Block(b)] + Adding(more);
  }

  lemma FetchedCons(fetch: nat -> Option<Block>, i: nat, k: nat)
    requires fetch(i).Some? && AllFetched(fetch, i + 1, k)
    ensures AllFetched(fetch, i, k + 1) && Fetched(fetch, i, k + 1) == [fetch(i).value] + Fetched(fetch, i + 1, k)
  {
  }

  lemma BlocksCons(blocks: seq<Block>, b: Block, more: seq<Block>)
    ensures blocks + ([b] + more) == blocks + [b] + more
  {
  }

  lemma FollowCons(tip: nat, b: Block, more: seq<Block>)
    requires Follow(tip, [b]) && Follow(b.hash, more)
    ensures Follow(tip, [b] + more)
  {
    var all := [b] + more;
    forall j | 0 <= j < |all| - 1 ensures Extends(all[j], all[j + 1]) {
      if j > 0 {
        assert Extends(more[j - 1], more[j]);
      }
    }
  }

  /** A tick without work calls nothing. Otherwise it fetches the blocks from the one after
      `LoadAfter` on, one number after the other: the manager has taken in the first `k`, in their
      order, and either these are all up to the unsafe head, or the next one could not be fetched,
      or it does not follow. */
  lemma TickLoads(d: Driver, status: Option<SyncStatus>, fetch: nat -> Option<Block>) returns (k: nat)
    ensures var (d', res) := LoadBlocks(d, status, fetch);
      var ops := LoadingOps(d, status, fetch);
      if !HasWork(d.lastStored, status) then res == LoadError && ops == [] && d'.manager == d.manager
      else
        var last := LoadAfter(d.lastStored, status.value);
        Took(d.(lastStored := last), fetch, last.number + 1, status.value.unsafe'.number, k, d', res, ops)
  {
    k := 0;
    if HasWork(d.lastStored, status) {
      var last := LoadAfter(d.lastStored, status.value);
      k := LoadFromTook(d.(lastStored := last), fetch, last.number + 1, status.value.unsafe'.number);
    }
  }

  /** A tick succeeds if and only if there is work, and all blocks of the range can be fetched and
      follow each other and the tip. So a range that extends the tip is never taken for a reorg. */
  lemma LoadedIffFollow(d: Driver, status: Option<SyncStatus>, fetch: nat -> Option<Block>)
    ensures LoadBlocks(d, status, fetch).1 == Loaded <==>
      && HasWork(d.lastStored, status)
      && var i, n := LoadAfter(d.lastStored, status.value).number + 1,
                     status.value.unsafe'.number - LoadAfter(d.lastStored, status.value).number;
      AllFetched(fetch, i, n) && Follow(d.manager.tip, Fetched(fetch, i, n))
  {
    var k := TickLoads(d, status, fetch);
    if HasWork(d.lastStored, status) {
      var last := LoadAfter(d.lastStored, status.value);
      var i, n := last.number + 1, status.value.unsafe'.number - last.number;
      if AllFetched(fetch, i, n) && Follow(d.manager.tip, Fetched(fetch, i, n)) {
        AllTaken(d.manager.tip, fetch, i, n, k);
      }
    }
  }

  lemma AllTaken(tip: nat, fetch: nat -> Option<Block>, i: nat, n: nat, k: nat)
    requires k <= n && AllFetched(fetch, i, n) && Follow(tip, Fetched(fetch, i, n))
    ensures k < n ==> fetch(i + k).Some? && Follow(TipAfter(tip, Fetched(fetch, i, k)), [fetch(i + k).value])
  {
    if k < n {
      NextFollows(tip, Fetched(fetch, i, n), k);
      assert Fetched(fetch, i, n)[..k] == Fetched(fetch, i, k);
    }
  }

  lemma NextFollows(tip: nat, blocks: seq<Block>, k: nat)
    requires Follow(tip, blocks) && k < |blocks|
    ensures Follow(TipAfter(tip, blocks[..k]), [blocks[k]])
  {
    if k > 0 {
      assert Extends(blocks[k - 1], blocks[k]);
    }
  }

  /** What a successful tick leaves: the blocks after `LoadAfter` up to the unsafe head were handed
      over in their order and are pending, none left out and none twice. */
  lemma LoadedRange(d: Driver, status: Option<SyncStatus>, fetch: nat -> Option<Block>)
    requires LoadBlocks(d, status, fetch).1 == Loaded
    ensures HasWork(d.lastStored, status)
    ensures var last, end := LoadAfter(d.lastStored, status.value), status.value.unsafe'.number;
      && AllFetched(fetch, last.number + 1, end - last.number)
      && var blocks := Fetched(fetch, last.number + 1, end - last.number);
      && LoadingOps(d, status, fetch) == Adding(blocks)
      && LoadBlocks(d, status, fetch).0.manager ==
           d.manager.(blocks := d.manager.blocks + blocks, tip := blocks[|blocks| - 1].hash)
      && LoadBlocks(d, status, fetch).0.lastStored == IdOf(fetch(end).value)
  {
    var k := TickLoads(d, status, fetch);
    var last, end := LoadAfter(d.lastStored, status.value), status.value.unsafe'.number;
    assert k == end - last.number;
    assert last.number + 1 + (k - 1) == end;
    assert Adding(Fetched(fetch, last.number + 1, k)) + [] == Adding(Fetched(fetch, last.number + 1, k));
  }

  /** A tick that meets no reorg only hands over blocks and publishes: it closes and clears nothing. */
  lemma OnlyReorgsClose(env: Env, h: History, status: Option<SyncStatus>, fetch: nat -> Option<Block>, publish: seq<Op>)
    requires LoadBlocks(State(env, h), status, fetch).1 != Reorg
    ensures var loading := LoadingOps(State(env, h), status, fetch);
      && DriverStep(env, h, Tick(status, fetch, publish)).calls == h.calls + (loading + publish)
      && forall op | op in loading :: op.AddL2Block?
  {
    var k := TickLoads(State(env, h), status, fetch);
  }

  /** `s'` is a closed manager with the channels of `s` and their blocks. */
  ghost predicate OnlyDrained(s: Manager, s': Manager) {
    s'.closed && |s'.chans| == |s.chans| && forall c | 0 <= c < |s.chans| :: s'.chans[c].builder.blocks == s.chans[c].builder.blocks
  }

  /** Once the manager is closed, publishing moves no block into a channel and creates none. */
  lemma DrainKeeps(env: Env, s: Manager, op: Op)
    requires Inv(env, s) && s.Linked() && s.closed && (op.TxData? || op.TxFailed? || op.TxConfirmed?)
    ensures OnlyDrained(s, Step(env, s, op))
  {
    match op
    case TxData(l1Head) => DrainsData(env, s, l1Head);
    case TxFailed(id) => DrainsFailed(env, s, id);
    case TxConfirmed(id, l1Block) => DrainsConfirmed(env, s, id, l1Block);
  }

  lemma DrainsData(env: Env, s: Manager, l1Head: U64)
    requires s.Linked() && s.closed
    ensures OnlyDrained(s, s.TxData(env, l1Head).0)
  {
    NextTxDataSame(s, FirstWithFrame(s.chans, s.queue));
  }

  lemma DrainsFailed(env: Env, s: Manager, id: FrameID)
    requires s.Linked() && s.closed
    ensures OnlyDrained(s, s.TxFailed(id))
  {
    TxFailedSame(env, s, id);
  }

  lemma DrainsConfirmed(env: Env, s: Manager, id: FrameID, l1Block: U64)
    requires TxChannelsOk(s) && s.Linked() && s.closed
    ensures OnlyDrained(s, s.TxConfirmed(env, id, l1Block))
  {
    if id in s.txChannels {
      ConfirmEffect(env, s, id, l1Block);
    }
  }

  lemma Draining(env: Env, calls: seq<Op>, publish: seq<Op>)
    requires Run(env, calls).closed && Publishing(publish)
    ensures OnlyDrained(Run(env, calls), Run(env, calls + publish))
  {
    var run, s := (ops: seq<Op>) => Run(env, ops), Run(env, calls);
    var good := (m: Manager) => OnlyDrained(s, m);
    forall before, op | op in publish && good(run(before)) ensures good(run(before + [op])) {
      DrainMore(env, s, before, op);
    }
    Along(run, good, calls, publish);
  }

  lemma DrainMore(env: Env, s: Manager, calls: seq<Op>, op: Op)
    requires OnlyDrained(s, Run(env, calls)) && (op.TxData? || op.TxFailed? || op.TxConfirmed?)
    ensures OnlyDrained(s, Run(env, calls + [op]))
  {
    RunSnoc(env, calls, op);
    DrainKeeps(env, Run(env, calls), op);
    DrainedTwice(s, Run(env, calls), Run(env, calls + [op]));
  }

  lemma DrainedTwice(a: Manager, b: Manager, c: Manager)
    requires OnlyDrained(a, b) && OnlyDrained(b, c)
    ensures OnlyDrained(a, c)
  {
  }

  lemma ClosedNow(env: Env, calls: seq<Op>)
    ensures Run(env, calls + [Close]).closed
  {
    RunSnoc(env, calls, Close);
    Closes(env, Run(env, calls), Run(env, calls + [Close]));
  }

  lemma Closes(env: Env, s: Manager, s': Manager)
    requires s.Linked() && s' == Step(env, s, Close)
    ensures s'.closed
  {
  }

  /** So after a shutdown, and until the manager is cleared on a reorg, blocks that were pending are
      not submitted any more: only frames already cut are sent. */
  lemma ShutdownDrains(env: Env, h: History, publish: seq<Op>)
    requires Publishing(publish)
    ensures DriverStep(env, h, Shutdown(publish)) == History(h.lastStored, h.calls + [Close] + publish)
    ensures OnlyDrained(Run(env, h.calls + [Close]), Run(env, h.calls + [Close] + publish))
  {
    ClosedNow(env, h.calls);
    Draining(env, h.calls + [Close], publish);
    ShutdownCalls(env, h, publish);
  }

  lemma ShutdownCalls(env: Env, h: History, publish: seq<Op>)
    ensures DriverStep(env, h, Shutdown(publish)) == History(h.lastStored, h.calls + [Close] + publish)
  {
    CloseFirst(h.calls, publish);
  }

  lemma CloseFirst(calls: seq<Op>, publish: seq<Op>)
    ensures calls + ([Close] + publish) == calls + [Close] + publish
  {
  }

  lemma ReorgDrains(env: Env, h: History, status: Option<SyncStatus>, fetch: nat -> Option<Block>, publish: seq<Op>, j: nat)
    requires LoadBlocks(State(env, h), status, fetch).1 == Reorg && Publishing(publish) && j <= |publish|
    ensures var before := h.calls + LoadingOps(State(env, h), status, fetch) + [Close];
      && DriverStep(env, h, Tick(status, fetch, publish)).calls == before + publish + [Clear]
      && OnlyDrained(Run(env, before), Run(env, before + publish[..j]))
  {
    var calls := h.calls + LoadingOps(State(env, h), status, fetch);
    ReorgCalls(h.calls, LoadingOps(State(env, h), status, fetch), publish);
    ClosedNow(env, calls);
    Draining(env, calls + [Close], publish[..j]);
  }

  lemma ReorgCalls(calls: seq<Op>, loading: seq<Op>, publish: seq<Op>)
    ensures calls + (loading + ([Close] + publish + [Clear])) == calls + loading + [Close] + publish + [Clear]
  {
  }
}
