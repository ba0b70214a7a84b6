/** What the nodes of the shared tracker see of each other: every view is a local triple of the node
    that held the lock, and answered heartbeats spread it. */
module TrackerViews {
  import opened Options
  import opened Words
  import opened ConsensusTracker

  /** Nothing but local triples is posted or seen, whatever gets lost and however steps interleave. */

  /** Node `k` held `t` for its local triple at some moment of the run. */
  ghost predicate WasLocal(n: nat, steps: seq<Step>, k: nat, t: Triple) {
    exists i :: 0 <= i <= |steps| && LocalAt(n, steps[..i], k, t)
  }

  predicate LocalAt(n: nat, steps: seq<Step>, k: nat, t: Triple) {
    k < n && Run(n, steps).nodes[k].local == t
  }

  /** What node `k` is about to post or sees as its own comes from `was`. */
  ghost predicate NodeFrom(owners: seq<nat>, k: nat, node: Node, was: (nat, Triple) -> bool) {
    && (node.pc.SetState? ==> was(k, node.pc.payload))
    && (node.source.Own? ==> was(k, node.remote) && node.source.v < |owners| && owners[node.source.v] == k)
    && (node.source.Nowhere? ==> node.remote == ZERO)
  }

  ghost predicate PostsFrom(posts: seq<Post>, was: (nat, Triple) -> bool) {
    forall p | p in posts :: was(p.author, p.triple)
  }

  ghost predicate AllFrom(w: World, was: (nat, Triple) -> bool) {
    PostsFrom(w.posts, was) && forall k | 0 <= k < |w.nodes| :: NodeFrom(w.owners, k, w.nodes[k], was)
  }

  lemma GoNodeFrom(w: World, n: nat, reached: bool, replied: bool, was: (nat, Triple) -> bool)
    requires n < |w.nodes| && PcOk(w, n, w.nodes[n]) && NodeFrom(w.owners, n, w.nodes[n], was) && was(n, w.nodes[n].local)
    ensures NodeFrom(w.owners, n, GoNode(w, n, reached, replied), was)
  {
  }

  lemma GoPostsFrom(w: World, n: nat, reached: bool, was: (nat, Triple) -> bool)
    requires n < |w.nodes| && PostsFrom(w.posts, was) && NodeFrom(w.owners, n, w.nodes[n], was)
    ensures PostsFrom(GoStore(w, n, reached).posts, was)
  {
  }

  lemma OwnersGrow(owners: seq<nat>, owners': seq<nat>, k: nat, node: Node, was: (nat, Triple) -> bool)
    requires owners <= owners' && NodeFrom(owners, k, node, was)
    ensures NodeFrom(owners', k, node, was)
  {
  }

  lemma NextFrom(w: World, step: Step, was: (nat, Triple) -> bool)
    requires Inv(w) && AllFrom(w, was)
    requires forall k | 0 <= k < |w.nodes| :: was(k, w.nodes[k].local)
    ensures AllFrom(Next(w, step), was)
  {
    if step.Go? && step.n < |w.nodes| {
      var w', node := Next(w, step), GoNode(w, step.n, step.reached, step.replied);
      assert NodeOk(w, step.n, w.nodes[step.n]);
      GoOnward(w, step.n, step.reached);
      GoPostsFrom(w, step.n, step.reached, was);
      GoNodeFrom(w, step.n, step.reached, step.replied, was);
      forall k | 0 <= k < |w.nodes| ensures NodeFrom(w'.owners, k, w'.nodes[k], was) {
        OwnersGrow(w.owners, w'.owners, k, if k == step.n then node else w.nodes[k], was);
      }
    }
  }

  lemma {:induction false} RunFrom(n: nat, steps: seq<Step>, was: (nat, Triple) -> bool)
    requires forall i, k | 0 <= i <= |steps| && 0 <= k < n :: was(k, Run(n, steps[..i]).nodes[k].local)
    ensures AllFrom(Run(n, steps), was)
  {
    if steps != [] {
      var before := steps[..|steps| - 1];
      forall i, k | 0 <= i <= |before| && 0 <= k < n ensures was(k, Run(n, before[..i]).nodes[k].local) {
        assert before[..i] == steps[..i];
      }
      RunFrom(n, before, was);
      RunInv(n, before);
      assert before[..|before|] == before && steps[..|before|] == before;
      NextFrom(Run(n, before), steps[|steps| - 1], was);
    }
  }

  /** On every run: what is posted was a local triple of its author. What a node sees is nothing, or
      its own local triple at some moment when it had the lock value, or a local triple of the node
      that acquired the lock value it read. */
  lemma ViewsWereLocal(n: nat, steps: seq<Step>, k: nat)
    requires k < n
    ensures forall p | p in Run(n, steps).posts :: WasLocal(n, steps, p.author, p.triple)
    ensures var w := Run(n, steps);
      match w.nodes[k].source
      case Nowhere => w.nodes[k].remote == ZERO
      case Own(v) => Owns(w, k, v) && WasLocal(n, steps, k, w.nodes[k].remote)
      case ReadFrom(v) => v < |w.owners| && WasLocal(n, steps, w.owners[v], w.nodes[k].remote)
  {
    var was := (j: nat, t: Triple) => WasLocal(n, steps, j, t);
    forall i, j | 0 <= i <= |steps| && 0 <= j < n ensures was(j, Run(n, steps[..i]).nodes[j].local) {
      assert LocalAt(n, steps[..i], j, Run(n, steps[..i]).nodes[j].local);
    }
    RunFrom(n, steps, was);
    if Run(n, steps).nodes[k].source.ReadFrom? {
      FollowersReadTheHolder(n, steps, k);
    }
  }

  /** A takeover posts the triple it checked, unless the triple is changed meanwhile. */

  /** The polling of node `k` sets nothing. */
  predicate Untouched(steps: seq<Step>, k: nat) {
    forall i | 0 <= i < |steps| ::
      && !(steps[i].SetLatest? && steps[i].n == k)
      && !(steps[i].SetSafe? && steps[i].n == k) && !(steps[i].SetFinalized? && steps[i].n == k)
  }

  /** What the node has checked or is about to post is its local triple. */
  predicate Steady(node: Node) {
    match node.pc
    case Acquire(check) => check.local == node.local
    case Marshal(_, check) => check.Some? ==> check.value.local == node.local
    case SetState(_, payload, check) => payload == node.local && (check.Some? ==> check.value.local == node.local)
    case _ => true
  }

  /** The posts of node `k` from number `from` on are of `t`, and so are the checks behind them. */
  ghost predicate PostsOf(w: World, from: nat, k: nat, t: Triple) {
    forall i | from <= i < |w.posts| && w.posts[i].author == k ::
      w.posts[i].triple == t && (w.posts[i].check.Some? ==> w.posts[i].check.value.local == t)
  }

  lemma SteadyStep(w: World, step: Step, k: nat, from: nat, t: Triple)
    requires k < |w.nodes| && Steady(w.nodes[k]) && w.nodes[k].local == t && Untouched([step], k) && PostsOf(w, from, k, t)
    ensures var w' := Next(w, step);
      && |w'.nodes| == |w.nodes| && Steady(w'.nodes[k]) && w'.nodes[k].local == t && PostsOf(w', from, k, t)
  {
    assert [step][0] == step;
  }

  lemma {:induction false} SteadyRun(n: nat, steps: seq<Step>, more: seq<Step>, k: nat)
    requires k < n && Steady(Run(n, steps).nodes[k]) && Untouched(more, k)
    ensures var w, w' := Run(n, steps), Run(n, steps + more);
      && Steady(w'.nodes[k]) && w'.nodes[k].local == w.nodes[k].local
      && PostsOf(w', |w.posts|, k, w.nodes[k].local)
    decreases |more|
  {
    if more == [] {
      assert steps + more == steps;
    } else {
      var init, step := more[..|more| - 1], more[|more| - 1];
      SteadyRun(n, steps, init, k);
      assert steps + more == steps + init + [step];
      RunSnoc(n, steps + init, step);
      SteadyStep(Run(n, steps + init), step, k, |Run(n, steps).posts|, Run(n, steps).nodes[k].local);
    }
  }

  /** A node may take over with `local`: all its blocks are known, and either none of the three is below
      the one it saw, or it saw an incomplete triple. */
  predicate MayLead(local: Triple, remote: Triple) {
    && 0 < local.latest && 0 < local.safe && 0 < local.finalized
    && (remote.latest == 0 || remote.safe == 0 || remote.finalized == 0
        || (remote.latest <= local.latest && remote.safe <= local.safe && remote.finalized <= local.finalized))
  }

  /** On every run: what a node posts after the start of a heartbeat is its local triple then, as
      long as that is not set anew. A takeover so posts what it checked: a valid triple, not behind
      its view if that is valid. */
  lemma CheckedIsPosted(n: nat, steps: seq<Step>, more: seq<Step>, k: nat)
    requires k < n && (Run(n, steps).nodes[k].pc.ReadLock? || Run(n, steps).nodes[k].pc.CheckLocal?) && Untouched(more, k)
    ensures var w, posts := Run(n, steps), Run(n, steps + more).posts;
      forall i | |w.posts| <= i < |posts| && posts[i].author == k ::
        && posts[i].triple == w.nodes[k].local
        && (posts[i].check.Some? ==>
              && posts[i].triple == posts[i].check.value.local && MayLead(posts[i].triple, posts[i].check.value.remote))
  {
    SteadyRun(n, steps, more, k);
    RunInv(n, steps + more);
  }

  /** Without that condition it need not: a triple that is set after the check is posted unchecked. */
  lemma UncheckedIsPosted() returns (steps: seq<Step>)
    ensures exists p :: p in Run(1, steps).posts && p.check.Some? && !p.triple.Valid()
  {
    assert Run(1, []) == Start(1);
    steps := SetAll(1, [], 0);
    var w := Run(1, steps);
    BeatIsRun(1, steps, 0, 2);
    var checked := Checking(w);
    RunSnoc(1, steps + Beats(0, 2), SetLatest(0, 0));
    BeatIsRun(1, steps + Beats(0, 2) + [SetLatest(0, 0)], 0, 3);
    var p := PostingUnchecked(Next(checked, SetLatest(0, 0)));
    steps := steps + Beats(0, 2) + [SetLatest(0, 0)] + Beats(0, 3);
  }

  lemma Checking(w: World) returns (w': World)
    requires |w.nodes| == 1 && w.lock.None? && w.nodes[0] == NEW_NODE.(local := Triple(1, 1, 1))
    ensures w' == Beat(w, 0, 2) && |w'.nodes| == 1 && w'.lock.None?
    ensures w'.nodes[0].pc == Acquire(Check(Triple(1, 1, 1), ZERO)) && w'.nodes[0].local == Triple(1, 1, 1)
  {
    w' := Beat(w, 0, 2);
  }

  lemma PostingUnchecked(w: World) returns (p: Post)
    requires |w.nodes| == 1 && w.lock.None?
    requires w.nodes[0].pc == Acquire(Check(Triple(1, 1, 1), ZERO)) && w.nodes[0].local == Triple(0, 1, 1)
    ensures p in Beat(w, 0, 3).posts && p.check.Some? && !p.triple.Valid()
  {
    p := Post(0, |w.owners|, Triple(0, 1, 1), Some(Check(Triple(1, 1, 1), ZERO)));
    assert p == Beat(w, 0, 3).posts[|w.posts|];
  }

  /** The triple that counts is the one the node holds when it composes the post: however steps
      interleave until then, the post is of a triple that may lead if and only if that one may, with
      the view the node still has. */
  lemma PostMayLeadIff(n: nat, steps: seq<Step>, k: nat, v: nat, check: Check)
    requires k < n && Run(n, steps).nodes[k].pc == Marshal(v, Some(check))
    ensures var w := Run(n, steps);
      var w' := Next(Next(w, Go(k, true, true)), Go(k, true, true));
      && w'.posts == w.posts + [Post(k, v, w.nodes[k].local, Some(check))] && check.remote == w.nodes[k].remote
      && (MayLead(w'.posts[|w.posts|].triple, check.remote) <==> MayLead(w.nodes[k].local, w.nodes[k].remote))
  {
    RunInv(n, steps);
    assert NodeOk(Run(n, steps), k, Run(n, steps).nodes[k]);
  }

  /** Heartbeats that are answered. */

  /** `m` operations of node `k`, all of which get through. */
  function Beat(w: World, k: nat, m: nat): World
    decreases m
  {
    if m == 0 then w else Beat(Next(w, Go(k, true, true)), k, m - 1)
  }

  function Beats(k: nat, m: nat): seq<Step> {
    seq(m, _ => Go(k, true, true))
  }

  lemma {:induction false} BeatIsRun(n: nat, steps: seq<Step>, k: nat, m: nat)
    ensures Run(n, steps + Beats(k, m)) == Beat(Run(n, steps), k, m)
    decreases m
  {
    if m == 0 {
      assert steps + Beats(k, m) == steps;
    } else {
      var go := Go(k, true, true);
      RunSnoc(n, steps, go);
      BeatIsRun(n, steps + [go], k, m - 1);
      BeatsCons(steps, k, m);
    }
  }

  lemma BeatsCons(steps: seq<Step>, k: nat, m: nat)
    requires m > 0
    ensures steps + Beats(k, m) == steps + [Go(k, true, true)] + Beats(k, m - 1)
  {
  }

  /** Node `k` has posted `t` under lock value `v`, and sees it itself. */
  ghost predicate Leads(w: World, w': World, k: nat, v: nat, t: Triple) {
    && |w'.nodes| == |w.nodes| && k < |w.nodes|
    && w'.lock == Some(v) && w'.states == w.states[v := t] && w'.names == w.names[v := k]
    && w'.nodes == w.nodes[k := Node(ReadLock, true, Some(v), Some(k), t, t, Own(v))]
  }

  /** A node that may take over a free lock does so in one heartbeat: it becomes the leader under a
      new lock value, and its local triple is what is posted and what it sees. */
  lemma Takeover(w: World, k: nat)
    requires k < |w.nodes| && w.nodes[k].pc.ReadLock? && w.lock.None? && MayLead(w.nodes[k].local, w.nodes[k].remote)
    ensures var v, t := |w.owners|, w.nodes[k].local;
      Leads(w, Beat(w, k, 7), k, v, t) && Beat(w, k, 7).owners == w.owners + [k]
  {
    var t, v := w.nodes[k].local, |w.owners|;
    var check := Check(t, w.nodes[k].remote);
    var w3 := Beat(w, k, 3);
    assert w3.nodes == w.nodes[k := w.nodes[k].(pc := Marshal(v, Some(check)), leader := true, redlock := Some(v))];
    Posting(w3, k, v, Some(check));
  }

  /** One that may not lets the free lock be. */
  lemma NoTakeover(w: World, k: nat)
    requires k < |w.nodes| && w.nodes[k].pc.ReadLock? && w.lock.None? && !MayLead(w.nodes[k].local, w.nodes[k].remote)
    ensures Beat(w, k, 2) == w
  {
    assert w.nodes[k := w.nodes[k]] == w.nodes;
  }

  /** A node that comes too late for the lock, or does not learn that it got it, does not lead. */
  lemma LosesRace(w: World, k: nat, reached: bool, replied: bool)
    requires k < |w.nodes| && w.nodes[k].pc.Acquire? && (w.lock.Some? || !reached || !replied)
    ensures var w' := Next(w, Go(k, reached, replied)); !w'.nodes[k].leader && w'.nodes[k].pc.ReadLock?
  {
  }

  /** A leader that cannot read the lock, or that does not hear that it has extended it, gives the
      lock up and, once it hears of that, the flag. */
  lemma StepsDown(w: World, k: nat, reached: bool, replied: bool)
    requires k < |w.nodes| && w.nodes[k].leader && Mine(w, k) && !(reached && replied)
    requires w.nodes[k].pc.ReadLock? || w.nodes[k].pc.Extend?
    ensures var w' := Next(Next(w, Go(k, reached, replied)), Go(k, true, true));
      w'.lock.None? && !w'.nodes[k].leader && w'.nodes[k].pc.ReadLock?
  {
  }

  /** A leader that still has the lock extends it and posts its local triple. */
  lemma Extending(w: World, k: nat, v: nat)
    requires k < |w.nodes| && w.nodes[k].pc.ReadLock? && w.nodes[k].leader && w.lock == Some(v) && w.nodes[k].redlock == Some(v)
    ensures Leads(w, Beat(w, k, 6), k, v, w.nodes[k].local) && Beat(w, k, 6).owners == w.owners
  {
    var w2 := Beat(w, k, 2);
    assert w2.nodes == w.nodes[k := w.nodes[k].(pc := Marshal(v, None))];
    Posting(w2, k, v, None);
  }

  /** The last four operations of both. */
  lemma Posting(w: World, k: nat, v: nat, check: Option<Check>)
    requires k < |w.nodes| && w.nodes[k].pc == Marshal(v, check) && w.nodes[k].leader && w.nodes[k].redlock == Some(v) == w.lock
    ensures Leads(w, Beat(w, k, 4), k, v, w.nodes[k].local) && Beat(w, k, 4).owners == w.owners
  {
    var go := Go(k, true, true);
    var w1 := Next(w, go);
    var w2 := Next(w1, go);
    var w3 := Next(w2, go);
    assert w1.nodes[k].pc == SetState(v, w.nodes[k].local, check);
    assert w2.nodes[k].pc == SetName(v) && w2.states == w.states[v := w.nodes[k].local];
    assert w3.nodes[k].pc == UpdateRemote(v) && w3.names == w.names[v := k];
  }

  /** A node that does not lead reads, in one heartbeat, the leader and the triple posted under the
      current lock value, if there is one. */
  lemma Following(w: World, j: nat, v: nat)
    requires j < |w.nodes| && w.nodes[j].pc.ReadLock? && !w.nodes[j].leader && w.lock == Some(v)
    ensures var node, w' := w.nodes[j], Beat(w, j, 3);
      w' == w.(nodes := w.nodes[j := node.(
        leaderName := if v in w.names then Some(w.names[v]) else None,
        remote := if v in w.states then w.states[v] else node.remote,
        source := if v in w.states then ReadFrom(v) else node.source)])
  {
  }

  /** So after one answered heartbeat of the node with the lock, and then one of another node, that
      other node sees the local triple of the first and knows its name. */
  lemma ViewSpreads(n: nat, steps: seq<Step>, k: nat, j: nat)
    requires k < n && j < n && j != k
    requires var w := Run(n, steps);
      && w.nodes[k].pc.ReadLock? && w.nodes[j].pc.ReadLock? && !w.nodes[j].leader
      && (if w.lock.None? then MayLead(w.nodes[k].local, w.nodes[k].remote) else w.nodes[k].leader && Mine(w, k))
    ensures var w := Run(n, steps);
      var w' := Run(n, steps + Beats(k, if w.lock.None? then 7 else 6) + Beats(j, 3));
      && w'.nodes[j].remote == w'.nodes[k].remote == w.nodes[k].local
      && w'.nodes[j].leaderName == w'.nodes[k].leaderName == Some(k) && w'.nodes[k].leader && Mine(w', k)
  {
    var w := Run(n, steps);
    var m := if w.lock.None? then 7 else 6;
    BeatIsRun(n, steps, k, m);
    BeatIsRun(n, steps + Beats(k, m), j, 3);
    if w.lock.None? {
      Takeover(w, k);
      Following(Beat(w, k, 7), j, |w.owners|);
    } else {
      Extending(w, k, w.lock.value);
      Following(Beat(w, k, 6), j, w.lock.value);
    }
  }
}
