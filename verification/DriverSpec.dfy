/** The batch submitter's event loop: loading L2 blocks, reacting to reorgs, publishing. */
module DriverSpec {
  import opened Options
  import opened BatcherTypes
  import opened ChannelBuilders
  import opened Channels
  import opened ManagerSpec
  import opened ManagerRuns

  datatype BlockID = BlockID(hash: nat, number: nat)

  const NO_BLOCK: BlockID := BlockID(ZERO_HASH, 0)

  function IdOf(block: Block): BlockID {
    BlockID(block.hash, block.number)
  }

  datatype SyncStatus = SyncStatus(headL1Known: bool, safe: BlockID, unsafe': BlockID)

  datatype LoadResult = Loaded | Reorg | LoadError

  /** The outcome of asking which blocks to load: the last stored block afterwards and, unless
      that failed, the half-open range. */
  datatype RangeResult = RangeResult(lastStored: BlockID, range: Option<(BlockID, BlockID)>)

  function CalculateRange(lastStored: BlockID, status: Option<SyncStatus>): RangeResult {
    if status.None? || !status.value.headL1Known then RangeResult(lastStored, None)
    else
      var st := status.value;
      var last := if lastStored == NO_BLOCK || lastStored.number < st.safe.number then st.safe else lastStored;
      RangeResult(last, if st.safe.number >= st.unsafe'.number then None else Some((last, st.unsafe')))
  }

  /** The driver: the last block it stored and its channel manager. */
  datatype Driver = Driver(lastStored: BlockID, manager: Manager)

  /** Fetch one block and hand it to the manager. */
  function LoadOne(d: Driver, block: Option<Block>): (Driver, LoadResult) {
    if block.None? then (d, LoadError)
    else
      var (m, ok) := d.manager.AddL2Block(block.value);
      if ok then (Driver(IdOf(block.value), m), Loaded) else (Driver(NO_BLOCK, m), Reorg)
  }

  /** Load the blocks numbered `i` to `end`. */
  function LoadFrom(d: Driver, fetch: nat -> Option<Block>, i: nat, end: nat): (Driver, LoadResult)
    decreases end + 1 - i
  {
    if i > end then (d, Loaded)
    else
      var (d', res) := LoadOne(d, fetch(i));
      if res == Loaded then LoadFrom(d', fetch, i + 1, end) else (d', res)
  }

  /** The driver after `CalculateRange`, and the first and last number to load. */
  function Plan(d: Driver, status: Option<SyncStatus>): (Driver, Option<(nat, nat)>) {
    var r := CalculateRange(d.lastStored, status);
    (Driver(r.lastStored, d.manager),
     if r.range.None? || r.range.value.0.number >= r.range.value.1.number then None
     else Some((r.range.value.0.number + 1, r.range.value.1.number)))
  }

  function LoadBlocks(d: Driver, status: Option<SyncStatus>, fetch: nat -> Option<Block>): (Driver, LoadResult) {
    var (d', todo) := Plan(d, status);
    if todo.None? then (d', LoadError) else LoadFrom(d', fetch, todo.value.0, todo.value.1)
  }

  /** What happens while the driver publishes: transaction data is asked for and receipts come
      in, in any order. */
  predicate Publishing(ops: seq<Op>) {
    forall i | 0 <= i < |ops| :: ops[i].TxData? || ops[i].TxFailed? || ops[i].TxConfirmed?
  }

  datatype Event =
    | Tick(status: Option<SyncStatus>, fetch: nat -> Option<Block>, publish: seq<Op>)
    | Receipt(op: Op)
    | Shutdown(publish: seq<Op>)

  /** The calls of the manager one event brings about. */
  function OneOp(block: Option<Block>): seq<Op> {
    if block.None? then [] else [AddL2Block(block.value)]
  }

  function LoadOps(d: Driver, fetch: nat -> Option<Block>, i: nat, end: nat): seq<Op>
    decreases end + 1 - i
  {
    if i > end then []
    else
      var (d', res) := LoadOne(d, fetch(i));
      OneOp(fetch(i)) + if res == Loaded then LoadOps(d', fetch, i + 1, end) else []
  }

  function LoadingOps(d: Driver, status: Option<SyncStatus>, fetch: nat -> Option<Block>): seq<Op> {
    var (d', todo) := Plan(d, status);
    if todo.None? then [] else LoadOps(d', fetch, todo.value.0, todo.value.1)
  }

  function EventOps(d: Driver, e: Event): seq<Op> {
    match e
    case Tick(status, fetch, publish) =>
      var (d', res) := LoadBlocks(d, status, fetch);
      LoadingOps(d, status, fetch) + (if res == Reorg then [Close] + publish + [Clear] else publish)
    case Receipt(op) => [op]
    case Shutdown(publish) => [Close] + publish
  }

  /** The driver as its history: the last block it stored and the calls it has made of its
      manager so far. */
  datatype History = History(lastStored: BlockID, calls: seq<Op>)

  ghost function State(env: Env, h: History): Driver {
    Driver(h.lastStored, Run(env, h.calls))
  }

  /** One event of the loop. A block that does not extend the chain makes the driver close the
      manager, publish what is left and start over. */
  ghost function DriverStep(env: Env, h: History, e: Event): History {
    var d := State(env, h);
    History(if e.Tick? then LoadBlocks(d, e.status, e.fetch).0.lastStored else h.lastStored,
            h.calls + EventOps(d, e))
  }

  ghost function DriverRun(env: Env, events: seq<Event>): History {
    if events == [] then History(NO_BLOCK, [])
    else DriverStep(env, DriverRun(env, events[..|events| - 1]), events[|events| - 1])
  }

  /** `next` extends `block`; after a block with the zero hash the source has nothing to compare. */
  predicate Extends(block: Block, next: Block) {
    block.hash == ZERO_HASH || next.parent == block.hash
  }

  predicate Chain(blocks: seq<Block>) {
    forall i | 0 <= i < |blocks| - 1 :: Extends(blocks[i], blocks[i + 1])
  }

  /** On every run of the manager the accepted blocks form a parent-hash chain that ends at the
      tip. */
  lemma {:induction false} AcceptedIsChain(env: Env, ops: seq<Op>)
    ensures Chain(Accepted(env, ops)) && EndsAt(Accepted(env, ops), Run(env, ops).tip)
  {
    if ops != [] {
      var before, op := ops[..|ops| - 1], ops[|ops| - 1];
      AcceptedIsChain(env, before);
      ChainGoesOn(env, before, op);
      assert before + [op] == ops;
    }
  }

  lemma ChainGoesOn(env: Env, before: seq<Op>, op: Op)
    requires Chain(Accepted(env, before)) && EndsAt(Accepted(env, before), Run(env, before).tip)
    ensures Chain(Accepted(env, before + [op])) && EndsAt(Accepted(env, before + [op]), Run(env, before + [op]).tip)
  {
    ChainStep(env, Run(env, before), op, Accepted(env, before));
    AcceptedStep(env, before, op);
  }

  /** The accepted blocks after one more call in state `s`. */
  ghost function AcceptNext(s: Manager, op: Op, acc: seq<Block>): seq<Block> {
    match op
    case AddL2Block(block) => if s.AddL2Block(block).1 then acc + [block] else acc
    case Clear => []
    case _ => acc
  }

  lemma AcceptedStep(env: Env, before: seq<Op>, op: Op)
    ensures Accepted(env, before + [op]) == AcceptNext(Run(env, before), op, Accepted(env, before))
    ensures Run(env, before + [op]) == Step(env, Run(env, before), op)
  {
  }

  predicate EndsAt(acc: seq<Block>, tip: nat) {
    tip == if acc == [] then ZERO_HASH else acc[|acc| - 1].hash
  }

  lemma ChainStep(env: Env, s: Manager, op: Op, acc: seq<Block>)
    requires s.Linked() && Chain(acc) && EndsAt(acc, s.tip)
    ensures Chain(AcceptNext(s, op, acc)) && EndsAt(AcceptNext(s, op, acc), Step(env, s, op).tip)
  {
  }

  /** All accepted blocks are of one branch, and so are the blocks of every channel since `Clear`
      and the pending ones, on every run of the driver. */
  lemma OneBranchAtATime(env: Env, events: seq<Event>)
    ensures var h := DriverRun(env, events);
      var s, acc := Run(env, h.calls), Accepted(env, h.calls);
      && Chain(acc)
      && EndsAt(acc, s.tip)
      && OnlyFrom(s, acc)
  {
    AcceptedIsChain(env, DriverRun(env, events).calls);
    NothingIsInvented(env, DriverRun(env, events).calls);
  }

  /** After a non-extending block the manager is empty, knows no tip and is open again, whatever
      was published on the way, and the driver has forgotten its last stored block. */
  lemma ReorgStartsOver(env: Env, h: History, status: Option<SyncStatus>, fetch: nat -> Option<Block>, publish: seq<Op>)
    requires LoadBlocks(State(env, h), status, fetch).1 == Reorg
    ensures var h' := DriverStep(env, h, Tick(status, fetch, publish));
      var s := Run(env, h'.calls);
      && h'.lastStored == NO_BLOCK && Accepted(env, h'.calls) == []
      && s == Manager([], ZERO_HASH, None, [], map[], false, s.chans, |s.chans|)
  {
    var d := State(env, h);
    ReorgOps(d, h.calls, status, fetch, publish);
    RunCleared(env, h.calls + (LoadingOps(d, status, fetch) + [Close] + publish));
  }

  lemma ReorgOps(d: Driver, calls: seq<Op>, status: Option<SyncStatus>, fetch: nat -> Option<Block>, publish: seq<Op>)
    requires LoadBlocks(d, status, fetch).1 == Reorg
    ensures LoadBlocks(d, status, fetch).0.lastStored == NO_BLOCK
    ensures calls + EventOps(d, Tick(status, fetch, publish)) == calls + (LoadingOps(d, status, fetch) + [Close] + publish) + [Clear]
  {
    LoadForgets(d, status, fetch);
  }

  /** After that, or when it lags behind, loading goes on from the safe head. Otherwise it goes on
      from the last stored block, and so never stores a number twice. */
  lemma RangeStart(last: BlockID, st: SyncStatus)
    requires st.headL1Known && st.safe.number < st.unsafe'.number
    ensures var r := CalculateRange(last, Some(st));
      && r.range == Some((r.lastStored, st.unsafe'))
      && r.lastStored.number >= st.safe.number
      && (r.lastStored == last || r.lastStored == st.safe)
      && (last != NO_BLOCK ==> r.lastStored.number >= last.number)
      && (last == NO_BLOCK ==> r.lastStored == st.safe)
  {
  }

  lemma RunCleared(env: Env, ops: seq<Op>)
    ensures var s := Run(env, ops + [Clear]);
      s == Manager([], ZERO_HASH, None, [], map[], false, s.chans, |s.chans|)
    ensures Accepted(env, ops + [Clear]) == []
  {
  }

  lemma LoadForgets(d: Driver, status: Option<SyncStatus>, fetch: nat -> Option<Block>)
    requires LoadBlocks(d, status, fetch).1 == Reorg
    ensures LoadBlocks(d, status, fetch).0.lastStored == NO_BLOCK
  {
    var (d', todo) := Plan(d, status);
    ReorgForgets(d', fetch, todo.value.0, todo.value.1);
  }

  lemma {:induction false} ReorgForgets(d: Driver, fetch: nat -> Option<Block>, i: nat, end: nat)
    ensures LoadFrom(d, fetch, i, end).1 == Reorg ==> LoadFrom(d, fetch, i, end).0.lastStored == NO_BLOCK
    decreases end + 1 - i
  {
    if i <= end && fetch(i).Some? {
      ReorgForgets(Driver(IdOf(fetch(i).value), d.manager.AddL2Block(fetch(i).value).0), fetch, i + 1, end);
    }
  }

  /** `run` takes calls to states and adds a block when the last call says so. */
  ghost predicate AddsBlocks(run: seq<Op> -> Manager) {
    forall calls, block :: run(calls + [AddL2Block(block)]) == run(calls).AddL2Block(block).0
  }

  lemma OneAdds(run: seq<Op> -> Manager, d: Driver, calls: seq<Op>, block: Option<Block>)
    requires AddsBlocks(run) && d.manager == run(calls)
    ensures LoadOne(d, block).0.manager == run(calls + OneOp(block))
  {
    if block.None? {
      assert calls + [] == calls;
    }
  }

  lemma {:induction false} LoadingAdds(run: seq<Op> -> Manager, d: Driver, calls: seq<Op>, fetch: nat -> Option<Block>, i: nat, end: nat)
    requires AddsBlocks(run) && d.manager == run(calls)
    ensures LoadFrom(d, fetch, i, end).0.manager == run(calls + LoadOps(d, fetch, i, end))
    decreases end + 1 - i
  {
    if i > end {
      assert calls + [] == calls;
    } else {
      OneAdds(run, d, calls, fetch(i));
      var (d', res) := LoadOne(d, fetch(i));
      if res == Loaded {
        LoadingAdds(run, d', calls + OneOp(fetch(i)), fetch, i + 1, end);
        var rest := LoadOps(d', fetch, i + 1, end);
        assert calls + OneOp(fetch(i)) + rest == calls + (OneOp(fetch(i)) + rest);
      } else {
        assert OneOp(fetch(i)) + [] == OneOp(fetch(i));
      }
    }
  }

  lemma RunAdds(env: Env)
    ensures AddsBlocks(ops => Run(env, ops))
  {
  }

  lemma TickAdds(run: seq<Op> -> Manager, d: Driver, calls: seq<Op>, status: Option<SyncStatus>, fetch: nat -> Option<Block>)
    requires AddsBlocks(run) && d.manager == run(calls)
    ensures LoadBlocks(d, status, fetch).0.manager == run(calls + LoadingOps(d, status, fetch))
  {
    var (d', todo) := Plan(d, status);
    if todo.Some? {
      LoadingAdds(run, d', calls, fetch, todo.value.0, todo.value.1);
    } else {
      assert calls + [] == calls;
    }
  }

  /** Loading is accepting blocks one by one, so the calls of the history account for it. */
  lemma LoadingIsAccepting(env: Env, h: History, status: Option<SyncStatus>, fetch: nat -> Option<Block>)
    ensures var d := State(env, h);
      LoadBlocks(d, status, fetch).0.manager == Run(env, h.calls + LoadingOps(d, status, fetch))
  {
    var run := (ops: seq<Op>) => Run(env, ops);
    assert AddsBlocks(run) by { RunAdds(env); }
    TickAdds(run, State(env, h), h.calls, status, fetch);
  }

  /** The driver before block `j`, after blocks `i` to `j - 1` were fetched and accepted;
      `None` if one of them was not. */
  function Before(d: Driver, fetch: nat -> Option<Block>, i: nat, j: nat): Option<Driver>
    requires i <= j
    decreases j - i
  {
    if i == j then Some(d)
    else if fetch(i).None? || !d.manager.AddL2Block(fetch(i).value).1 then None
    else Before(Driver(IdOf(fetch(i).value), d.manager.AddL2Block(fetch(i).value).0), fetch, i + 1, j)
  }

  predicate Refused(d: Driver, fetch: nat -> Option<Block>, i: nat, j: nat)
    requires i <= j
  {
    && fetch(j).Some?
    && Before(d, fetch, i, j).Some?
    && !Before(d, fetch, i, j).value.manager.AddL2Block(fetch(j).value).1
  }

  /** Going on from the block after `i` refuses the same blocks. */
  lemma RefusedLater(d: Driver, fetch: nat -> Option<Block>, i: nat, j: nat)
    requires fetch(i).Some? && d.manager.AddL2Block(fetch(i).value).1 && i < j
    ensures var d1 := Driver(IdOf(fetch(i).value), d.manager.AddL2Block(fetch(i).value).0);
      Before(d, fetch, i, j) == Before(d1, fetch, i + 1, j) && Refused(d, fetch, i, j) == Refused(d1, fetch, i + 1, j)
  {
  }

  /** Loading reports a reorg exactly when a block of the range was fetched and refused after
      all blocks before it were fetched and accepted. */
  lemma {:induction false} ReorgIffRefused(d: Driver, fetch: nat -> Option<Block>, i: nat, end: nat)
    ensures LoadFrom(d, fetch, i, end).1 == Reorg <==> exists j: nat :: i <= j <= end && Refused(d, fetch, i, j)
    decreases end + 1 - i
  {
    if i <= end && fetch(i).Some? && d.manager.AddL2Block(fetch(i).value).1 {
      var d1 := Driver(IdOf(fetch(i).value), d.manager.AddL2Block(fetch(i).value).0);
      var k := i + 1;
      ReorgIffRefused(d1, fetch, k, end);
      assert LoadFrom(d, fetch, i, end) == LoadFrom(d1, fetch, i + 1, end);
      assert Before(d, fetch, i, i) == Some(d);
      if j: nat :| i <= j <= end && Refused(d, fetch, i, j) {
        RefusedLater(d, fetch, i, j);
        assert Refused(d1, fetch, i + 1, j);
      }
      if j: nat :| k <= j <= end && Refused(d1, fetch, k, j) {
        RefusedLater(d, fetch, i, j);
        assert Refused(d, fetch, i, j);
      }
    } else if i <= end && fetch(i).Some? {
      assert Refused(d, fetch, i, i);
    } else {
      forall j: nat | i <= j <= end ensures !Refused(d, fetch, i, j) {
        assert i < j ==> Before(d, fetch, i, j).None?;
      }
    }
  }

  /** Loading succeeds exactly when all blocks were fetched and accepted. */
  lemma {:induction false} LoadedIffAccepted(d: Driver, fetch: nat -> Option<Block>, i: nat, end: nat)
    requires i <= end + 1
    ensures LoadFrom(d, fetch, i, end).1 == Loaded <==> Before(d, fetch, i, end + 1).Some?
    ensures LoadFrom(d, fetch, i, end).1 == Loaded ==> Before(d, fetch, i, end + 1).value == LoadFrom(d, fetch, i, end).0
    decreases end + 1 - i
  {
    if i <= end && fetch(i).Some? && d.manager.AddL2Block(fetch(i).value).1 {
      LoadedIffAccepted(Driver(IdOf(fetch(i).value), d.manager.AddL2Block(fetch(i).value).0), fetch, i + 1, end);
    }
  }

  /** After a successful load the driver remembers the last block of the range, and the manager
      waits for a child of it. */
  lemma {:induction false} LoadedTip(d: Driver, fetch: nat -> Option<Block>, i: nat, end: nat)
    requires i <= end && LoadFrom(d, fetch, i, end).1 == Loaded
    ensures var d' := LoadFrom(d, fetch, i, end).0;
      fetch(end).Some? && d'.lastStored == IdOf(fetch(end).value) && d'.manager.tip == fetch(end).value.hash
    decreases end - i
  {
    if i < end {
      LoadedTip(Driver(IdOf(fetch(i).value), d.manager.AddL2Block(fetch(i).value).0), fetch, i + 1, end);
    } else {
      var (m, ok) := d.manager.AddL2Block(fetch(i).value);
      assert LoadFrom(Driver(IdOf(fetch(i).value), m), fetch, i + 1, end) == (Driver(IdOf(fetch(i).value), m), Loaded);
    }
  }
}
