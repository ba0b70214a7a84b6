/** The batch submitter object: its event loop refines `DriverSpec`. */
module BatchSubmitters {
  import opened Options
  import opened BatcherTypes
  import opened Words
  import opened ManagerSpec
  import opened ManagerRuns
  import opened ManagerPublish
  import opened ChannelManagers
  import opened DriverSpec

  /** `runs` takes the calls made of a manager to the state they lead to. */
  ghost predicate IsRun(env: Env, runs: seq<Op> -> Manager) {
    forall ops {:trigger Run(env, ops)} :: runs(ops) == Run(env, ops)
  }

  lemma RunsLinked(env: Env, runs: seq<Op> -> Manager, calls: seq<Op>)
    requires IsRun(env, runs)
    ensures runs(calls).Linked()
  {
    assert runs(calls) == Run(env, calls);
  }

  lemma RunsStep(env: Env, runs: seq<Op> -> Manager, calls: seq<Op>, op: Op)
    requires IsRun(env, runs)
    ensures runs(calls).Linked() && runs(calls + [op]) == Step(env, runs(calls), op)
  {
    RunSnoc(env, calls, op);
  }

  lemma RunsInv(env: Env, runs: seq<Op> -> Manager, calls: seq<Op>)
    requires IsRun(env, runs)
    ensures Inv(env, runs(calls))
  {
    assert runs(calls) == Run(env, calls);
  }

  class BatchSubmitter {
    const env: Env
    const state: ChannelManager
    var lastStoredBlock: BlockID
    /** The calls made of the manager so far, and where calls lead. */
    ghost var calls: seq<Op>
    ghost const runs: seq<Op> -> Manager

    ghost predicate Valid()
      reads this, state, state.all, state.Builders()
    {
      state.env == env && state.Valid() && IsRun(env, runs) && state.View() == runs(calls)
    }

    ghost function Hist(): History
      reads this
    {
      History(lastStoredBlock, calls)
    }

    constructor (env: Env)
      ensures Valid() && this.env == env && Hist() == DriverRun(env, [])
      ensures fresh(state) && state.all == []
    {
      this.env := env;
      state := new ChannelManager(env);
      lastStoredBlock := NO_BLOCK;
      calls := [];
      runs := (ops: seq<Op>) => Run(env, ops);
    }

    /** The manager has taken the step `op`. */
    ghost method Record(op: Op)
      requires state.env == env && state.Valid() && IsRun(env, runs)
      requires runs(calls).Linked() && state.View() == Step(env, runs(calls), op)
      modifies this`calls
      ensures Valid() && calls == old(calls) + [op] && state.View() == old(state.View())
    {
      RunsStep(env, runs, calls, op);
      calls := calls + [op];
    }

    method Add(block: Block) returns (ok: bool)
      requires Valid()
      modifies state, this`calls
      ensures Valid() && calls == old(calls) + [AddL2Block(block)] && state.all == old(state.all)
      ensures (state.View(), ok) == old(state.View()).AddL2Block(block)
    {
      RunsLinked(env, runs, calls);
      ok := state.AddL2Block(block);
      Record(AddL2Block(block));
    }

    method Data(l1Head: U64) returns (r: TxResult)
      requires Valid()
      modifies state, state.all, state.Builders(), this`calls
      ensures Valid() && calls == old(calls) + [TxData(l1Head)] && state.Grown()
      ensures (state.View(), r) == old(state.View()).TxData(env, l1Head)
    {
      RunsLinked(env, runs, calls);
      r := state.TxData(l1Head);
      Record(TxData(l1Head));
    }

    method Confirmed(id: FrameID, l1Block: U64)
      requires Valid()
      modifies state, state.all, state.Builders(), this`calls
      ensures Valid() && calls == old(calls) + [TxConfirmed(id, l1Block)] && state.all == old(state.all)
    {
      RunsLinked(env, runs, calls);
      state.TxConfirmed(id, l1Block);
      Record(TxConfirmed(id, l1Block));
    }

    method Failed(id: FrameID)
      requires Valid()
      modifies state, state.all, state.Builders(), this`calls
      ensures Valid() && calls == old(calls) + [TxFailed(id)] && state.all == old(state.all)
    {
      RunsLinked(env, runs, calls);
      RunsInv(env, runs, calls);
      state.TxFailed(id);
      Record(TxFailed(id));
    }

    method CloseManager()
      requires Valid()
      modifies state, state.all, state.Builders(), this`calls
      ensures Valid() && calls == old(calls) + [Close] && state.all == old(state.all)
    {
      RunsLinked(env, runs, calls);
      var ok := state.Close();
      Record(Close);
    }

    method ClearManager()
      requires Valid()
      modifies state, this`calls
      ensures Valid() && calls == old(calls) + [Clear] && state.all == old(state.all)
    {
      RunsLinked(env, runs, calls);
      state.Clear();
      Record(Clear);
    }

    method CalculateL2BlockRangeToStore(status: Option<SyncStatus>) returns (range: Option<(BlockID, BlockID)>)
      modifies this`lastStoredBlock
      ensures RangeResult(lastStoredBlock, range) == CalculateRange(old(lastStoredBlock), status)
    {
      if status.None? || !status.value.headL1Known {
        return None;
      }
      if lastStoredBlock == NO_BLOCK {
        lastStoredBlock := status.value.safe;
      } else if lastStoredBlock.number < status.value.safe.number {
        lastStoredBlock := status.value.safe;
      }
      if status.value.safe.number >= status.value.unsafe'.number {
        return None;
      }
      return Some((lastStoredBlock, status.value.unsafe'));
    }

    ghost function Now(): Driver
      reads this, state, state.all, state.Builders()
    {
      Driver(lastStoredBlock, state.View())
    }

    method LoadBlockIntoState(block: Option<Block>) returns (res: LoadResult)
      requires Valid()
      modifies state, this`lastStoredBlock, this`calls
      ensures Valid() && state.all == old(state.all)
      ensures (Now(), res) == LoadOne(old(Now()), block)
      ensures calls == old(calls) + OneOp(block)
    {
      if block.None? {
        return LoadError;
      }
      var ok := Add(block.value);
      if !ok {
        lastStoredBlock := NO_BLOCK;
        return Reorg;
      }
      lastStoredBlock := IdOf(block.value);
      res := Loaded;
    }

    /** The loop over the blocks of the range. */
    method LoadRange(fetch: nat -> Option<Block>, start: nat, end: nat) returns (res: LoadResult)
      requires Valid()
      modifies state, this`lastStoredBlock, this`calls
      ensures Valid() && state.all == old(state.all)
      ensures (Now(), res) == LoadFrom(old(Now()), fetch, start, end)
      ensures calls == old(calls) + LoadOps(old(Now()), fetch, start, end)
    {
      var i := start;
      while i <= end
        invariant Valid() && state.all == old(state.all)
        invariant LoadFrom(old(Now()), fetch, start, end) == LoadFrom(Now(), fetch, i, end)
        invariant old(calls) + LoadOps(old(Now()), fetch, start, end) == calls + LoadOps(Now(), fetch, i, end)
        decreases end + 1 - i
      {
        LoadNext(Now(), calls, fetch, i, end);
        res := LoadBlockIntoState(fetch(i));
        if res != Loaded {
          return;
        }
        i := i + 1;
      }
      res := Loaded;
    }

    method LoadBlocksIntoState(status: Option<SyncStatus>, fetch: nat -> Option<Block>) returns (res: LoadResult)
      requires Valid()
      modifies state, this`lastStoredBlock, this`calls
      ensures Valid() && state.all == old(state.all)
      ensures (Now(), res) == LoadBlocks(old(Now()), status, fetch)
      ensures calls == old(calls) + LoadingOps(old(Now()), status, fetch)
    {
      var range := CalculateL2BlockRangeToStore(status);
      if range.None? || range.value.0.number >= range.value.1.number {
        return LoadError;
      }
      res := LoadRange(fetch, range.value.0.number + 1, range.value.1.number);
    }

    method HandleReceipt(receipt: Op)
      requires Valid() && (receipt.TxFailed? || receipt.TxConfirmed?)
      modifies state, state.all, state.Builders(), this`calls
      ensures Valid() && calls == old(calls) + [receipt] && state.all == old(state.all)
    {
      match receipt
      case TxFailed(id) => Failed(id);
      case TxConfirmed(id, l1Block) => Confirmed(id, l1Block);
    }

    /** How far the publish loop is from its end. */
    ghost function Rank(): (nat, nat, nat)
      requires Valid()
      reads this, state, state.all, state.Builders()
    {
      RankOf(env, runs, calls)
    }

    /** Ask for one transaction, if the L1 head is known. Handing one out brings the loop closer to
        its end, and io.EOF means that nothing is left to send. */
    method PublishTxToL1(l1Head: Option<U64>) returns (r: Round)
      requires Valid() && CanEnd(env, runs, calls)
      modifies state, state.all, state.Builders(), this`calls
      ensures Valid() && state.Grown() && CanEnd(env, runs, calls)
      ensures calls == old(calls) + Request(l1Head)
      ensures if l1Head.None? then r.NoHead? else r.Asked?
      ensures r.Asked? && r.result.Tx? ==> Below(Rank(), old(Rank()))
      ensures r == Asked(EOF) ==> NothingToSend(env, runs, calls)
      ensures r == Asked(TxResult.Failed) ==> BrokenPending(env, runs, calls)
    {
      if l1Head.None? {
        return NoHead;
      }
      var res := Data(l1Head.value);
      PublishStep(env, runs, old(calls), l1Head.value);
      CanEndStep(env, runs, old(calls), TxData(l1Head.value));
      return Asked(res);
    }

    /** One round of the publish loop: a receipt comes in, or a transaction is asked for. */
    method Turn(heads: nat -> Option<U64>, i: nat, left: seq<Op>, receive: bool)
      returns (round: Round, left': seq<Op>)
      requires Valid() && CanEnd(env, runs, calls) && Receipts(left)
      modifies state, state.all, state.Builders(), this`calls
      ensures Valid() && state.Grown() && CanEnd(env, runs, calls)
      ensures Handles(old(calls), calls, left, left') && Outcome(env, runs, calls, heads, round)
      ensures if receive && left != [] then round.Received? && left' == left[1..] else !round.Received? && left' == left
      ensures round.Asked? && round.result.Tx? ==> Below(Rank(), old(Rank()))
    {
      if receive && left != [] {
        Receive(left);
        return Received, left[1..];
      }
      round := Ask(heads, i, left);
      left' := left;
    }

    method Receive(left: seq<Op>)
      requires Valid() && CanEnd(env, runs, calls) && Receipts(left) && left != []
      modifies state, state.all, state.Builders(), this`calls
      ensures Valid() && state.all == old(state.all) && CanEnd(env, runs, calls)
      ensures Handles(old(calls), calls, left, left[1..])
    {
      HandleReceipt(left[0]);
      CanEndStep(env, runs, old(calls), left[0]);
      HandlesOne(old(calls), left);
    }

    method Ask(heads: nat -> Option<U64>, i: nat, ghost left: seq<Op>) returns (round: Round)
      requires Valid() && CanEnd(env, runs, calls) && Receipts(left)
      modifies state, state.all, state.Builders(), this`calls
      ensures Valid() && state.Grown() && CanEnd(env, runs, calls)
      ensures Handles(old(calls), calls, left, left) && Outcome(env, runs, calls, heads, round) && !round.Received?
      ensures round.Asked? && round.result.Tx? ==> Below(Rank(), old(Rank()))
    {
      round := PublishTxToL1(heads(i));
      HandlesNone(old(calls), calls, heads(i), left);
      OutcomeOf(env, runs, calls, heads, i, round);
    }

    /** The publish loop. It asks for transactions until there is none, the L1 head is not known or
        a block is broken, while receipts come in: up to `due(i)` of them are handled before the
        request of round `i`. When draining, the others are handled after the last request. The
        loop needs the manager to be closed, or blocks that fit: see `PublishLoopEndsIff`. */
    method PublishStateToL1(heads: nat -> Option<U64>, receipts: seq<Op>, due: nat -> nat, drain: bool)
      returns (last: Round, ghost asked: seq<Op>, ghost left: seq<Op>)
      requires Valid() && CanEnd(env, runs, calls) && Receipts(receipts)
      modifies state, state.all, state.Builders(), this`calls
      ensures Valid() && state.Grown()
      ensures Handles(old(calls), asked, receipts, left)
      ensures Final(last) && Outcome(env, runs, asked, heads, last)
      ensures calls == asked + if drain then left else []
    {
      var rest;
      last, rest := PublishUntilEOF(heads, receipts, due);
      asked, left := calls, rest;
      if drain {
        HandleReceipts(rest);
      }
    }

    method HandleReceipts(receipts: seq<Op>)
      requires Valid() && Receipts(receipts)
      modifies state, state.all, state.Builders(), this`calls
      ensures Valid() && calls == old(calls) + receipts && state.all == old(state.all)
    {
      for i := 0 to |receipts|
        invariant Valid() && calls == old(calls) + receipts[..i] && state.all == old(state.all)
      {
        HandleReceipt(receipts[i]);
        assert receipts[..i + 1] == receipts[..i] + [receipts[i]];
      }
      assert receipts[..|receipts|] == receipts;
    }

    method PublishUntilEOF(heads: nat -> Option<U64>, receipts: seq<Op>, due: nat -> nat)
      returns (last: Round, left: seq<Op>)
      requires Valid() && CanEnd(env, runs, calls) && Receipts(receipts)
      modifies state, state.all, state.Builders(), this`calls
      ensures Valid() && state.Grown()
      ensures Handles(old(calls), calls, receipts, left)
      ensures Final(last) && Outcome(env, runs, calls, heads, last)
    {
      var i := 0;
      last, left := Turn(heads, 0, receipts, due(0) > 0);
      ghost var rank := Rank();
      while !Final(last)
        invariant Valid() && state.Grown() && CanEnd(env, runs, calls)
        invariant Handles(old(calls), calls, receipts, left)
        invariant Outcome(env, runs, calls, heads, last)
        invariant !Final(last) ==> rank == Rank()
        decreases |left|, rank.0, rank.1, rank.2, !Final(last)
      {
        ghost var before, open := calls, left;
        i := i + 1;
        last, left := Turn(heads, i, left, |receipts| - |left| < due(i));
        HandlesOn(old(calls), before, calls, receipts, open, left);
        if !Final(last) {
          rank := Rank();
        }
      }
    }

    /** A tick of the clock makes the calls that `DriverSpec` says; see `EventIsStep`. Unless it
        meets a reorg, the blocks the manager has then to deal with must fit. */
    method Tick(status: Option<SyncStatus>, fetch: nat -> Option<Block>,
                heads: nat -> Option<U64>, receipts: seq<Op>, due: nat -> nat) returns (ghost publish: seq<Op>)
      requires Valid() && Receipts(receipts)
      requires var (d, res) := LoadBlocks(Now(), status, fetch); res == Reorg || Endable(env, d.manager)
      modifies this, state, state.all, state.Builders()
      ensures Valid() && Publishing(publish) && state.Grown()
      ensures Hist() == After(old(Now()), old(calls), Event.Tick(status, fetch, publish))
      ensures var reorg := LoadBlocks(old(Now()), status, fetch).1 == Reorg;
        LoopRan(env, runs, old(calls) + LoadingOps(old(Now()), status, fetch) + (if reorg then [Close] else []),
                heads, receipts, reorg, publish)
    {
      var res := LoadBlocksIntoState(status, fetch);
      if res == Reorg {
        publish := StartOver(heads, receipts, due);
      } else {
        assert calls + [] == calls;
        publish := Publish(heads, receipts, due, false);
      }
      AfterTick(old(Now()), old(calls), status, fetch, publish);
    }

    /** After a block that does not extend the chain: close, drain, clear. */
    method StartOver(heads: nat -> Option<U64>, receipts: seq<Op>, due: nat -> nat) returns (ghost publish: seq<Op>)
      requires Valid() && Receipts(receipts)
      modifies this`calls, state, state.all, state.Builders()
      ensures Valid() && Publishing(publish) && state.Grown()
      ensures calls == old(calls) + [Close] + publish + [Clear]
      ensures LoopRan(env, runs, old(calls) + [Close], heads, receipts, true, publish)
    {
      CloseManager();
      ClosedCanEnd(env, runs, old(calls));
      publish := Publish(heads, receipts, due, true);
      ClearManager();
    }

    method Shutdown(heads: nat -> Option<U64>, receipts: seq<Op>, due: nat -> nat) returns (ghost publish: seq<Op>)
      requires Valid() && Receipts(receipts)
      modifies this`calls, state, state.all, state.Builders()
      ensures Valid() && Publishing(publish) && state.Grown()
      ensures Hist() == After(old(Now()), old(calls), Event.Shutdown(publish))
      ensures LoopRan(env, runs, old(calls) + [Close], heads, receipts, true, publish)
    {
      CloseManager();
      ClosedCanEnd(env, runs, old(calls));
      publish := Publish(heads, receipts, due, true);
      AfterShutdown(old(Now()), old(calls), publish);
    }

    method Publish(heads: nat -> Option<U64>, receipts: seq<Op>, due: nat -> nat, drain: bool) returns (ghost done: seq<Op>)
      requires Valid() && CanEnd(env, runs, calls) && Receipts(receipts)
      modifies this`calls, state, state.all, state.Builders()
      ensures Valid() && Publishing(done) && calls == old(calls) + done && state.Grown()
      ensures LoopRan(env, runs, old(calls), heads, receipts, drain, done)
    {
      ghost var asked, left;
      var last;
      last, asked, left := PublishStateToL1(heads, receipts, due, drain);
      done := calls[|old(calls)|..];
      HandlesPublishes(old(calls), asked, receipts, left);
    }
  }

  /** A round of the publish loop handles a receipt, asks for a transaction, or cannot ask. */
  datatype Round = Received | NoHead | Asked(result: TxResult)

  /** The loop ends with this round. */
  predicate Final(round: Round) {
    round.NoHead? || (round.Asked? && !round.result.Tx?)
  }

  /** The calls that are not requests. */
  function ReceiptsOf(ops: seq<Op>): seq<Op> {
    if ops == [] then []
    else ReceiptsOf(ops[..|ops| - 1]) + if ops[|ops| - 1].TxData? then [] else [ops[|ops| - 1]]
  }

  /** Between the two lists of calls only publishing took place, and of the receipts `all` exactly
      those not `left` were handled, in their order. */
  predicate Handles(before: seq<Op>, after: seq<Op>, all: seq<Op>, left: seq<Op>) {
    before <= after && Publishing(after[|before|..]) && Receipts(left) && ReceiptsOf(after[|before|..]) + left == all
  }

  /** The publish loop ran from `before` to its end: it handled some of the receipts, in their order,
      and stopped for a stated reason. When draining, the other receipts were handled after that. */
  ghost predicate LoopRan(env: Env, runs: seq<Op> -> Manager, before: seq<Op>, heads: nat -> Option<U64>,
                          receipts: seq<Op>, drain: bool, done: seq<Op>) {
    exists asked, left, last ::
      && Handles(before, asked, receipts, left) && Final(last) && Outcome(env, runs, asked, heads, last)
      && before + done == asked + if drain then left else []
  }

  lemma HandlesOne(calls: seq<Op>, left: seq<Op>)
    requires left != [] && Receipts(left)
    ensures Handles(calls, calls + [left[0]], left, left[1..])
  {
    var op := left[0];
    assert (calls + [op])[|calls|..] == [op] && [op][..0] == [];
    assert ReceiptsOf([op]) == [op];
  }

  /** What asking for a transaction adds to the calls. */
  function Request(l1Head: Option<U64>): seq<Op> {
    if l1Head.None? then [] else [TxData(l1Head.value)]
  }

  lemma HandlesNone(calls: seq<Op>, calls': seq<Op>, l1Head: Option<U64>, left: seq<Op>)
    requires Receipts(left) && calls' == calls + Request(l1Head)
    ensures Handles(calls, calls', left, left)
  {
    var more := Request(l1Head);
    assert calls'[|calls|..] == more && (more != [] ==> more[..0] == []);
    assert ReceiptsOf(more) == [];
  }

  lemma {:induction false} ReceiptsOfConcat(a: seq<Op>, b: seq<Op>)
    ensures ReceiptsOf(a + b) == ReceiptsOf(a) + ReceiptsOf(b)
    decreases |b|
  {
    if b == [] {
      assert a + b == a;
    } else {
      ReceiptsOfConcat(a, b[..|b| - 1]);
      assert (a + b)[..|a + b| - 1] == a + b[..|b| - 1];
    }
  }

  lemma HandlesOn(a: seq<Op>, b: seq<Op>, c: seq<Op>, all: seq<Op>, open: seq<Op>, left: seq<Op>)
    requires Handles(a, b, all, open) && Handles(b, c, open, left)
    ensures Handles(a, c, all, left)
  {
    assert c[|a|..] == b[|a|..] + c[|b|..];
    ReceiptsOfConcat(b[|a|..], c[|b|..]);
  }

  lemma HandlesPublishes(before: seq<Op>, asked: seq<Op>, all: seq<Op>, left: seq<Op>)
    requires Handles(before, asked, all, left)
    ensures forall after | after == asked || after == asked + left :: before <= after && Publishing(after[|before|..])
  {
  }

  /** The publish loop comes to an end from here: the manager is closed, or every block it may
      still have to put into a channel fits into a fresh one. */
  ghost predicate Endable(env: Env, s: Manager) {
    s.closed || Only(s, b => Fits(env, b))
  }

  /** Blocks that were accepted and fit are enough for that. */
  lemma AcceptedCanEnd(env: Env, calls: seq<Op>)
    requires AllFit(env, Accepted(env, calls))
    ensures Endable(env, Run(env, calls))
  {
    NothingIsInvented(env, calls);
    OnlyGood(Run(env, calls), Accepted(env, calls), b => Fits(env, b));
  }

  ghost predicate CanEnd(env: Env, runs: seq<Op> -> Manager, calls: seq<Op>) {
    Endable(env, runs(calls))
  }

  lemma CanEndStep(env: Env, runs: seq<Op> -> Manager, calls: seq<Op>, op: Op)
    requires IsRun(env, runs) && CanEnd(env, runs, calls) && (op.TxData? || op.TxFailed? || op.TxConfirmed?)
    ensures CanEnd(env, runs, calls + [op])
  {
    RunsInv(env, runs, calls);
    RunsStep(env, runs, calls, op);
    EndableStep(env, runs(calls), op);
  }

  lemma ClosedCanEnd(env: Env, runs: seq<Op> -> Manager, calls: seq<Op>)
    requires IsRun(env, runs)
    ensures CanEnd(env, runs, calls + [Close])
  {
    RunsStep(env, runs, calls, Close);
  }

  lemma EndableStep(env: Env, s: Manager, op: Op)
    requires Inv(env, s) && s.Linked() && Endable(env, s) && (op.TxData? || op.TxFailed? || op.TxConfirmed?)
    ensures Endable(env, Step(env, s, op))
  {
    if s.closed {
      match op
      case TxData(l1Head) => TxDataLeavesRest(env, s, l1Head);
      case TxFailed(id) =>
      case TxConfirmed(id, l1Block) =>
    } else {
      StepOnly(env, s, op, b => Fits(env, b));
    }
  }

  /** The driver's history after an event that finds it in state `d`. */
  function After(d: Driver, calls: seq<Op>, e: Event): History {
    History(if e.Tick? then LoadBlocks(d, e.status, e.fetch).0.lastStored else d.lastStored, calls + EventOps(d, e))
  }

  lemma LoadNext(d: Driver, calls: seq<Op>, fetch: nat -> Option<Block>, i: nat, end: nat)
    requires i <= end
    ensures var (d', res) := LoadOne(d, fetch(i));
      && LoadFrom(d, fetch, i, end) == (if res == Loaded then LoadFrom(d', fetch, i + 1, end) else (d', res))
      && calls + LoadOps(d, fetch, i, end) ==
         calls + OneOp(fetch(i)) + if res == Loaded then LoadOps(d', fetch, i + 1, end) else []
  {
  }

  lemma AfterTick(d: Driver, calls: seq<Op>, status: Option<SyncStatus>, fetch: nat -> Option<Block>, publish: seq<Op>)
    ensures var (d', res) := LoadBlocks(d, status, fetch);
      After(d, calls, Event.Tick(status, fetch, publish)) ==
      History(d'.lastStored,
        if res == Reorg then calls + LoadingOps(d, status, fetch) + [Close] + publish + [Clear]
        else calls + LoadingOps(d, status, fetch) + publish)
  {
  }

  lemma AfterShutdown(d: Driver, calls: seq<Op>, publish: seq<Op>)
    ensures After(d, calls, Event.Shutdown(publish)) == History(d.lastStored, calls + [Close] + publish)
  {
  }

  /** An event the object handles is a step of `DriverSpec`. */
  lemma EventIsStep(env: Env, runs: seq<Op> -> Manager, h: History, e: Event)
    requires IsRun(env, runs)
    ensures After(Driver(h.lastStored, runs(h.calls)), h.calls, e) == DriverStep(env, h, e)
  {
  }

  predicate Receipts(ops: seq<Op>) {
    forall k | 0 <= k < |ops| :: ops[k].TxFailed? || ops[k].TxConfirmed?
  }

  predicate Below(a: (nat, nat, nat), b: (nat, nat, nat)) {
    a.0 < b.0 || (a.0 == b.0 && (a.1 < b.1 || (a.1 == b.1 && a.2 < b.2)))
  }

  ghost function RankOf(env: Env, runs: seq<Op> -> Manager, calls: seq<Op>): (nat, nat, nat)
    requires IsRun(env, runs)
  {
    RunsLinked(env, runs, calls);
    (|runs(calls).blocks|, OpenCurrent(runs(calls)), Waiting(runs(calls).chans, runs(calls).queue))
  }

  /** Why the publish loop ended, or went on. */
  ghost predicate Outcome(env: Env, runs: seq<Op> -> Manager, calls: seq<Op>, heads: nat -> Option<U64>, round: Round) {
    match round
    case Received => true
    case NoHead => exists k :: heads(k).None?
    case Asked(EOF) => NothingToSend(env, runs, calls)
    case Asked(Failed) => BrokenPending(env, runs, calls)
    case Asked(Tx(_)) => true
  }

  lemma OutcomeOf(env: Env, runs: seq<Op> -> Manager, calls: seq<Op>, heads: nat -> Option<U64>, i: nat, round: Round)
    requires round.NoHead? ==> heads(i).None?
    requires round == Asked(EOF) ==> NothingToSend(env, runs, calls)
    requires round == Asked(TxResult.Failed) ==> BrokenPending(env, runs, calls)
    ensures Outcome(env, runs, calls, heads, round)
  {
  }

  ghost predicate BrokenPending(env: Env, runs: seq<Op> -> Manager, calls: seq<Op>) {
    !AllWhole(env, runs(calls).blocks)
  }

  ghost predicate NothingToSend(env: Env, runs: seq<Op> -> Manager, calls: seq<Op>) {
    runs(calls).Linked() && Drained(runs(calls))
  }

  lemma PublishStep(env: Env, runs: seq<Op> -> Manager, calls: seq<Op>, l1Head: U64)
    requires IsRun(env, runs) && CanEnd(env, runs, calls)
    ensures var s := runs(calls);
      && s.Linked()
      && var (s', r) := s.TxData(env, l1Head);
      && s'.Linked()
      && (r.Tx? ==> Progress(s, s'))
      && s' == runs(calls + [TxData(l1Head)])
      && (r.EOF? ==> Drained(s'))
      && (r.Failed? ==> !AllWhole(env, s'.blocks))
  {
    RunsInv(env, runs, calls);
    RunsStep(env, runs, calls, TxData(l1Head));
    TxDataOutcome(env, runs(calls), l1Head);
  }

  lemma TxDataOutcome(env: Env, s: Manager, l1Head: U64)
    requires Inv(env, s) && s.Linked() && Endable(env, s)
    ensures var (s', r) := s.TxData(env, l1Head);
      && s'.Linked()
      && (r.Tx? ==> Progress(s, s'))
      && (r.EOF? ==> Drained(s'))
      && (r.Failed? ==> !AllWhole(env, s'.blocks))
  {
    assert s.closed || s.blocks == [] || Fits(env, s.blocks[0]) by {
      if s.blocks != [] { assert s.blocks[0] in s.blocks; }
    }
    TxDataProgress(env, s, l1Head);
    EOFMeansDrained(env, s, l1Head);
    FailureIsBroken(env, s, l1Head);
  }
}
