/** The shared consensus tracker: several proxies elect a leader through a lock with a time to
    live and follow what the leader posts. Every operation on the store is a step of its own, so
    heartbeats of the nodes interleave at will; requests and replies may get lost, and keys may
    expire at any moment. */
module ConsensusTracker {
  import opened Options
  import opened Words

  datatype Triple = Triple(latest: U64, safe: U64, finalized: U64) {
    predicate Valid() {
      latest > 0 && safe > 0 && finalized > 0
    }

    predicate Behind(other: Triple) {
      latest < other.latest || safe < other.safe || finalized < other.finalized
    }
  }

  const ZERO: Triple := Triple(0, 0, 0)

  /** What a node saw when it decided to take over: its local and its remote triple. */
  datatype Check = Check(local: Triple, remote: Triple) {
    predicate Passed() {
      local.Valid() && !(remote.Valid() && local.Behind(remote))
    }
  }

  /** The next store operation of a node's heartbeat. `v` is a lock value. */
  datatype Pc =
    | ReadLock
    | CheckLocal
    | Acquire(passed: Check)
    | Extend(v: nat)
    | Release
    | ReadName(v: nat)
    | ReadState(v: nat)
    | Marshal(v: nat, check: Option<Check>)
    | SetState(v: nat, payload: Triple, check: Option<Check>)
    | SetName(v: nat)
    | UpdateRemote(v: nat)

  /** Where a remote triple comes from. */
  datatype Source = Nowhere | ReadFrom(v: nat) | Own(v: nat)

  datatype Node = Node(
    pc: Pc,
    leader: bool,
    redlock: Option<nat>,
    leaderName: Option<nat>,
    local: Triple,
    remote: Triple,
    source: Source)

  /** A write to `state:<val>`. A takeover carries the check that led to it. */
  datatype Post = Post(author: nat, val: nat, triple: Triple, check: Option<Check>)

  /** The nodes, the store, and two records for the proofs: who acquired each lock value, and
      what was posted. */
  datatype World = World(
    nodes: seq<Node>,
    lock: Option<nat>,
    states: map<nat, Triple>,
    names: map<nat, nat>,
    owners: seq<nat>,
    posts: seq<Post>)

  const NEW_NODE: Node := Node(ReadLock, false, None, None, ZERO, ZERO, Nowhere)

  function Start(n: nat): World {
    World(seq(n, _ => NEW_NODE), None, map[], map[], [], [])
  }

  /** `reached` says whether the request got to the store, `replied` whether the node learned of
      the outcome. */
  datatype Step =
    | Go(n: nat, reached: bool, replied: bool)
    | SetLatest(n: nat, block: U64)
    | SetSafe(n: nat, block: U64)
    | SetFinalized(n: nat, block: U64)
    | ExpireLock
    | ExpireState(v: nat)
    | ExpireName(v: nat)

  predicate Mine(w: World, n: nat)
    requires n < |w.nodes|
  {
    w.lock.Some? && w.lock == w.nodes[n].redlock
  }

  /** The next operation of node `n`, with the node as the operation leaves it. */
  function GoNode(w: World, n: nat, reached: bool, replied: bool): Node
    requires n < |w.nodes|
  {
    var node := w.nodes[n];
    var ok := reached && replied;
    match node.pc
    case ReadLock =>
      if !ok then node.(pc := if node.leader then Release else ReadLock)
      else if w.lock.Some? then node.(pc := if node.leader then Extend(w.lock.value) else ReadName(w.lock.value))
      else node.(pc := CheckLocal)
    case CheckLocal =>
      var check := Check(node.local, node.remote);
      node.(pc := if check.Passed() then Acquire(check) else ReadLock)
    case Acquire(check) =>
      if ok && w.lock.None? then
        node.(redlock := Some(|w.owners|), leader := true, pc := Marshal(|w.owners|, Some(check)))
      else node.(leader := false, pc := ReadLock)
    case Extend(v) =>
      node.(pc := if ok && Mine(w, n) then Marshal(v, None) else Release)
    case Release =>
      node.(leader := node.leader && !(ok && Mine(w, n)), pc := ReadLock)
    case ReadName(v) =>
      if !ok then node.(pc := ReadLock)
      else node.(leaderName := if v in w.names then Some(w.names[v]) else None, pc := ReadState(v))
    case ReadState(v) =>
      if ok && v in w.states then node.(remote := w.states[v], source := ReadFrom(v), pc := ReadLock)
      else node.(pc := ReadLock)
    case Marshal(v, check) => node.(pc := SetState(v, node.local, check))
    case SetState(v, payload, check) => node.(pc := SetName(v))
    case SetName(v) => node.(pc := UpdateRemote(v))
    case UpdateRemote(v) => node.(leaderName := Some(n), remote := node.local, source := Own(v), pc := ReadLock)
  }

  /** The same operation, with the store as it leaves it. */
  function GoStore(w: World, n: nat, reached: bool): World
    requires n < |w.nodes|
  {
    if !reached then w
    else
      match w.nodes[n].pc
      case Acquire(_) =>
        if w.lock.None? then w.(lock := Some(|w.owners|), owners := w.owners + [n]) else w
      case Release =>
        if Mine(w, n) then w.(lock := None) else w
      case SetState(v, payload, check) =>
        w.(states := w.states[v := payload], posts := w.posts + [Post(n, v, payload, check)])
      case SetName(v) => w.(names := w.names[v := n])
      case _ => w
  }

  function SetLocal(w: World, n: nat, t: Triple): World
    requires n < |w.nodes|
  {
    w.(nodes := w.nodes[n := w.nodes[n].(local := t)])
  }

  function Next(w: World, step: Step): World {
    match step
    case Go(n, reached, replied) =>
      if n < |w.nodes| then GoStore(w, n, reached).(nodes := w.nodes[n := GoNode(w, n, reached, replied)]) else w
    case SetLatest(n, block) => if n < |w.nodes| then SetLocal(w, n, w.nodes[n].local.(latest := block)) else w
    case SetSafe(n, block) => if n < |w.nodes| then SetLocal(w, n, w.nodes[n].local.(safe := block)) else w
    case SetFinalized(n, block) => if n < |w.nodes| then SetLocal(w, n, w.nodes[n].local.(finalized := block)) else w
    case ExpireLock => w.(lock := None)
    case ExpireState(v) => w.(states := w.states - {v})
    case ExpireName(v) => w.(names := w.names - {v})
  }

  function Run(n: nat, steps: seq<Step>): (w: World)
    ensures |w.nodes| == n
  {
    if steps == [] then Start(n) else Next(Run(n, steps[..|steps| - 1]), steps[|steps| - 1])
  }

  /** Invariants. */

  ghost predicate Owns(w: World, n: nat, v: nat) {
    v < |w.owners| && w.owners[v] == n
  }

  /** Somebody posted the triple under lock value `v`. */
  ghost predicate Posted(posts: seq<Post>, v: nat, t: Triple) {
    exists p :: p in posts && p.val == v && p.triple == t
  }

  ghost predicate PcOk(w: World, n: nat, node: Node) {
    match node.pc
    case Acquire(check) => check.Passed() && check.remote == node.remote
    case Extend(v) => node.leader && (w.lock.Some? && w.lock == node.redlock ==> w.lock == Some(v))
    case Release => node.leader
    case Marshal(v, check) => Owns(w, n, v) && (check.Some? ==> check.value.Passed() && check.value.remote == node.remote)
    case SetState(v, _, check) => Owns(w, n, v) && (check.Some? ==> check.value.Passed() && check.value.remote == node.remote)
    case SetName(v) => Owns(w, n, v)
    case UpdateRemote(v) => Owns(w, n, v)
    case _ => true
  }

  ghost predicate NodeOk(w: World, n: nat, node: Node) {
    && (node.leader ==> node.redlock.Some?)
    && (node.redlock.Some? ==> Owns(w, n, node.redlock.value))
    && (node.source.ReadFrom? ==> Posted(w.posts, node.source.v, node.remote))
    && PcOk(w, n, node)
  }

  ghost predicate StoreOk(w: World) {
    && (w.lock.Some? ==> w.lock.value < |w.owners|)
    && (forall v | v in w.states :: Posted(w.posts, v, w.states[v]))
    && (forall v | v in w.names :: Owns(w, w.names[v], v))
    && (forall p | p in w.posts :: Owns(w, p.author, p.val) && (p.check.Some? ==> p.check.value.Passed()))
  }

  ghost predicate Inv(w: World) {
    StoreOk(w) && forall n | 0 <= n < |w.nodes| :: NodeOk(w, n, w.nodes[n])
  }

  /** The store moved on: lock values are never used twice, and what was posted stays on
      record. */
  ghost predicate Onward(w: World, w': World) {
    && w.owners <= w'.owners && w.posts <= w'.posts
    && (w'.lock == w.lock || w'.lock == None || w'.lock.value >= |w.owners|)
  }

  lemma OthersStayOk(w: World, w': World, n: nat, node: Node)
    requires NodeOk(w, n, node) && Onward(w, w')
    ensures NodeOk(w', n, node)
  {
  }

  lemma GoOnward(w: World, n: nat, reached: bool)
    requires n < |w.nodes|
    ensures Onward(w, GoStore(w, n, reached))
  {
  }

  lemma GoStoreOk(w: World, n: nat, reached: bool)
    requires StoreOk(w) && n < |w.nodes| && NodeOk(w, n, w.nodes[n])
    ensures StoreOk(GoStore(w, n, reached))
  {
  }

  lemma GoLockOk(w: World, n: nat, reached: bool, replied: bool)
    requires n < |w.nodes| && NodeOk(w, n, w.nodes[n])
    ensures var node := GoNode(w, n, reached, replied);
      && (node.leader ==> node.redlock.Some?)
      && (node.redlock.Some? ==> Owns(GoStore(w, n, reached), n, node.redlock.value))
  {
  }

  lemma GoSourceOk(w: World, n: nat, reached: bool, replied: bool)
    requires StoreOk(w) && n < |w.nodes| && NodeOk(w, n, w.nodes[n])
    ensures var node := GoNode(w, n, reached, replied);
      node.source.ReadFrom? ==> Posted(GoStore(w, n, reached).posts, node.source.v, node.remote)
  {
  }

  lemma GoPcOk(w: World, n: nat, reached: bool, replied: bool)
    requires n < |w.nodes| && NodeOk(w, n, w.nodes[n])
    ensures PcOk(GoStore(w, n, reached), n, GoNode(w, n, reached, replied))
  {
  }

  lemma GoInv(w: World, n: nat, reached: bool, replied: bool)
    requires Inv(w) && n < |w.nodes|
    ensures Inv(Next(w, Go(n, reached, replied)))
  {
    var store, w' := GoStore(w, n, reached), Next(w, Go(n, reached, replied));
    GoOnward(w, n, reached);
    assert StoreOk(w') by { GoStoreOk(w, n, reached); }
    forall k | 0 <= k < |w.nodes| ensures NodeOk(w', k, w'.nodes[k]) {
      if k == n {
        GoLockOk(w, n, reached, replied);
        GoSourceOk(w, n, reached, replied);
        GoPcOk(w, n, reached, replied);
      } else {
        OthersStayOk(w, w', k, w.nodes[k]);
      }
    }
  }

  lemma SetLocalInv(w: World, n: nat, t: Triple)
    requires Inv(w) && n < |w.nodes|
    ensures Inv(SetLocal(w, n, t))
  {
  }

  lemma ExpireInv(w: World, step: Step)
    requires Inv(w) && (step.ExpireLock? || step.ExpireState? || step.ExpireName?)
    ensures Inv(Next(w, step))
  {
  }

  lemma NextInv(w: World, step: Step)
    requires Inv(w)
    ensures Inv(Next(w, step)) && |Next(w, step).nodes| == |w.nodes|
  {
    match step
    case Go(n, reached, replied) => if n < |w.nodes| { GoInv(w, n, reached, replied); }
    case SetLatest(n, block) => if n < |w.nodes| { SetLocalInv(w, n, w.nodes[n].local.(latest := block)); }
    case SetSafe(n, block) => if n < |w.nodes| { SetLocalInv(w, n, w.nodes[n].local.(safe := block)); }
    case SetFinalized(n, block) => if n < |w.nodes| { SetLocalInv(w, n, w.nodes[n].local.(finalized := block)); }
    case ExpireLock => ExpireInv(w, step);
    case ExpireState(v) => ExpireInv(w, step);
    case ExpireName(v) => ExpireInv(w, step);
  }

  lemma {:induction false} RunInv(n: nat, steps: seq<Step>)
    ensures Inv(Run(n, steps))
  {
    if steps != [] {
      RunInv(n, steps[..|steps| - 1]);
      NextInv(Run(n, steps[..|steps| - 1]), steps[|steps| - 1]);
    }
  }

  /** On every run: each `state:<v>` holds a triple posted under `v`, only the node that acquired
      lock value `v` ever posts under it, and no other node has `v` for its lock. */
  lemma OneWriterPerEpoch(n: nat, steps: seq<Step>)
    ensures var w := Run(n, steps);
      && (forall v | v in w.states :: Posted(w.posts, v, w.states[v]))
      && (forall p | p in w.posts :: Owns(w, p.author, p.val))
      && (forall p, q | p in w.posts && q in w.posts && p.val == q.val :: p.author == q.author)
      && (forall i, j | 0 <= i < n && 0 <= j < n && w.nodes[i].redlock.Some? && w.nodes[i].redlock == w.nodes[j].redlock :: i == j)
  {
    RunInv(n, steps);
    var w := Run(n, steps);
    forall i | 0 <= i < n ensures w.nodes[i].redlock.Some? ==> Owns(w, i, w.nodes[i].redlock.value) {
      RedlockOwned(n, steps, i);
    }
  }

  lemma RedlockOwned(n: nat, steps: seq<Step>, i: nat)
    requires i < n
    ensures var w := Run(n, steps); w.nodes[i].redlock.Some? ==> Owns(w, i, w.nodes[i].redlock.value)
  {
    RunInv(n, steps);
    assert NodeOk(Run(n, steps), i, Run(n, steps).nodes[i]);
  }

  /** On every run the remote triple of a follower was posted, by the node that had acquired the
      lock value the follower read. */
  lemma FollowersReadTheHolder(n: nat, steps: seq<Step>, k: nat)
    requires k < n && Run(n, steps).nodes[k].source.ReadFrom?
    ensures var w := Run(n, steps);
      exists p :: p in w.posts && p.val == w.nodes[k].source.v && p.triple == w.nodes[k].remote && Owns(w, p.author, p.val)
  {
    RunInv(n, steps);
    var w := Run(n, steps);
    assert NodeOk(w, k, w.nodes[k]);
    var p :| p in w.posts && p.val == w.nodes[k].source.v && p.triple == w.nodes[k].remote;
    assert Owns(w, p.author, p.val);
  }

  /** On every run a takeover that posts the triple it checked posts a valid one, and one that is
      not behind the remote view it was checked against, if that is valid. */
  lemma TakeoverNotBehind(n: nat, steps: seq<Step>, p: Post)
    requires p in Run(n, steps).posts && p.check.Some? && p.triple == p.check.value.local
    ensures p.triple.Valid() && (p.check.value.remote.Valid() ==> !p.triple.Behind(p.check.value.remote))
  {
    RunInv(n, steps);
  }

  /** That view is the one the node still has when it posts. */
  lemma ViewAtTakeover(n: nat, steps: seq<Step>, k: nat, payload: Triple, v: nat, check: Check)
    requires k < n
    requires Run(n, steps).nodes[k].pc == SetState(v, payload, Some(check))
    ensures var node := Run(n, steps).nodes[k];
      && check.remote == node.remote
      && (payload == check.local && node.remote.Valid() ==> !payload.Behind(node.remote))
  {
    RunInv(n, steps);
    assert NodeOk(Run(n, steps), k, Run(n, steps).nodes[k]);
  }

  /** Epochs never go back: a node's view moves on from one lock value to a later one. */

  /** The lock value a node's view belongs to, counted from 1; 0 for none. */
  function Epoch(source: Source): nat {
    match source
    case Nowhere => 0
    case ReadFrom(v) => v + 1
    case Own(v) => v + 1
  }

  function PcEpoch(pc: Pc): Option<nat> {
    match pc
    case Extend(v) => Some(v + 1)
    case ReadName(v) => Some(v + 1)
    case ReadState(v) => Some(v + 1)
    case Marshal(v, _) => Some(v + 1)
    case SetState(v, _, _) => Some(v + 1)
    case SetName(v) => Some(v + 1)
    case UpdateRemote(v) => Some(v + 1)
    case _ => None
  }

  predicate EpochOk(w: World, node: Node) {
    && Epoch(node.source) <= |w.owners|
    && (PcEpoch(node.pc).Some? ==> Epoch(node.source) <= PcEpoch(node.pc).value <= |w.owners|)
  }

  ghost predicate EpochInv(w: World) {
    && (w.lock.Some? ==> w.lock.value + 1 == |w.owners|)
    && forall n | 0 <= n < |w.nodes| :: EpochOk(w, w.nodes[n])
  }

  lemma GoEpoch(w: World, n: nat, reached: bool, replied: bool)
    requires n < |w.nodes| && EpochOk(w, w.nodes[n]) && (w.lock.Some? ==> w.lock.value + 1 == |w.owners|)
    ensures EpochOk(GoStore(w, n, reached), GoNode(w, n, reached, replied))
    ensures Epoch(w.nodes[n].source) <= Epoch(GoNode(w, n, reached, replied).source)
  {
  }

  lemma NextEpoch(w: World, step: Step)
    requires EpochInv(w)
    ensures EpochInv(Next(w, step)) && |Next(w, step).nodes| == |w.nodes|
    ensures forall k | 0 <= k < |w.nodes| :: Epoch(w.nodes[k].source) <= Epoch(Next(w, step).nodes[k].source)
  {
    if step.Go? && step.n < |w.nodes| {
      GoEpoch(w, step.n, step.reached, step.replied);
      GoOnward(w, step.n, step.reached);
    }
    forall k | 0 <= k < |w.nodes| ensures EpochOk(Next(w, step), Next(w, step).nodes[k]) {
      assert EpochOk(w, w.nodes[k]);
    }
  }

  lemma {:induction false} RunEpoch(n: nat, steps: seq<Step>)
    ensures EpochInv(Run(n, steps))
  {
    if steps != [] {
      RunEpoch(n, steps[..|steps| - 1]);
      NextEpoch(Run(n, steps[..|steps| - 1]), steps[|steps| - 1]);
    }
  }

  lemma {:induction false} EpochsNeverGoBack(n: nat, steps: seq<Step>, i: nat, k: nat)
    requires i <= |steps| && k < n
    ensures Epoch(Run(n, steps[..i]).nodes[k].source) <= Epoch(Run(n, steps).nodes[k].source)
    decreases |steps|
  {
    RunEpoch(n, steps);
    RunEpoch(n, steps[..i]);
    if i < |steps| {
      var before := steps[..|steps| - 1];
      assert before[..i] == steps[..i];
      EpochsNeverGoBack(n, before, i, k);
      RunEpoch(n, before);
      NextEpoch(Run(n, before), steps[|steps| - 1]);
    } else {
      assert steps[..i] == steps;
    }
  }

  /** What is not promised: that at most one node believes to be the leader. */

  lemma RunSnoc(n: nat, steps: seq<Step>, step: Step)
    ensures Run(n, steps + [step]) == Next(Run(n, steps), step)
  {
  }

  /** A node with a valid local triple takes a free lock in three operations. */
  lemma TakeLock(n: nat, steps: seq<Step>, k: nat) returns (more: seq<Step>)
    requires k < n && Run(n, steps).lock.None?
    requires var node := Run(n, steps).nodes[k]; node.pc == ReadLock && node.local.Valid() && node.remote == ZERO
    ensures var w, w' := Run(n, steps), Run(n, more);
      && w'.nodes[k].leader
      && forall j | 0 <= j < n && j != k :: w'.nodes[j] == w.nodes[j]
  {
    var go := Go(k, true, true);
    RunSnoc(n, steps, go);
    RunSnoc(n, steps + [go], go);
    RunSnoc(n, steps + [go] + [go], go);
    more := steps + [go] + [go] + [go];
  }

  lemma SetAll(n: nat, steps: seq<Step>, k: nat) returns (more: seq<Step>)
    requires k < n
    ensures var w, w' := Run(n, steps), Run(n, more);
      w'.lock == w.lock && w'.nodes == w.nodes[k := w.nodes[k].(local := Triple(1, 1, 1))]
  {
    RunSnoc(n, steps, SetLatest(k, 1));
    RunSnoc(n, steps + [SetLatest(k, 1)], SetSafe(k, 1));
    RunSnoc(n, steps + [SetLatest(k, 1)] + [SetSafe(k, 1)], SetFinalized(k, 1));
    more := steps + [SetLatest(k, 1)] + [SetSafe(k, 1)] + [SetFinalized(k, 1)];
  }

  /** When the lock of the first leader expires, a second one may appear beside it. */
  lemma TwoLeadersPossible(n: nat) returns (steps: seq<Step>)
    requires n >= 2
    ensures Run(n, steps).nodes[0].leader && Run(n, steps).nodes[1].leader
  {
    assert Run(n, []) == Start(n);
    var set0 := SetAll(n, [], 0);
    var set1 := SetAll(n, set0, 1);
    var first := TakeLock(n, set1, 0);
    assert Run(n, first).nodes[0].leader;
    RunSnoc(n, first, ExpireLock);
    assert Run(n, first + [ExpireLock]).nodes == Run(n, first).nodes;
    assert Run(n, first + [ExpireLock]).nodes[0].leader;
    var later := first + [ExpireLock];
    steps := TakeLock(n, later, 1);
    assert Run(n, steps).nodes[0] == Run(n, later).nodes[0];
    assert Run(n, steps).nodes[0].leader;
    assert Run(n, steps).nodes[1].leader;
  }

  /** Still only one of them can extend the lock, and so keep posting. */
  lemma OneCanExtend(n: nat, steps: seq<Step>, i: nat, j: nat)
    requires i < n && j < n && Mine(Run(n, steps), i) && Mine(Run(n, steps), j)
    ensures i == j
  {
    RedlockOwned(n, steps, i);
    RedlockOwned(n, steps, j);
  }
}
