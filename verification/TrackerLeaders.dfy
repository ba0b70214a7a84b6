/** Leader flags: when more than one node believes to be the leader, and what it takes. */
module TrackerLeaders {
  import opened Options
  import opened Words
  import opened ConsensusTracker

  ghost predicate OneLeader(w: World) {
    forall i, j | 0 <= i < |w.nodes| && 0 <= j < |w.nodes| && w.nodes[i].leader && w.nodes[j].leader :: i == j
  }

  /** The step makes its node a leader: it takes a free lock and learns of it. */
  predicate TakesLock(w: World, step: Step) {
    step.Go? && step.n < |w.nodes| && w.nodes[step.n].pc.Acquire? && step.reached && step.replied && w.lock.None?
  }

  /** It does so although another node's flag is still up. */
  ghost predicate TakesOver(w: World, step: Step) {
    TakesLock(w, step) && exists k :: 0 <= k < |w.nodes| && k != step.n && w.nodes[k].leader
  }

  /** Only taking the lock puts a leader flag up, and only the flag of the node that does. */
  lemma FlagsUp(w: World, step: Step, k: nat)
    requires k < |w.nodes|
    ensures |Next(w, step).nodes| == |w.nodes|
    ensures Next(w, step).nodes[k].leader ==> w.nodes[k].leader || (TakesLock(w, step) && step.n == k)
    ensures TakesLock(w, step) ==> Next(w, step).nodes[step.n].leader
    ensures !(step.Go? && step.n == k) ==> Next(w, step).nodes[k].leader == w.nodes[k].leader
  {
  }

  /** A step from a state with at most one leader leads to one with at most one, if and only if it
      is not a takeover beside a flag that is still up. */
  lemma OneLeaderStepIff(w: World, step: Step)
    requires OneLeader(w)
    ensures OneLeader(Next(w, step)) <==> !TakesOver(w, step)
  {
    var w' := Next(w, step);
    if TakesOver(w, step) {
      var k :| 0 <= k < |w.nodes| && k != step.n && w.nodes[k].leader;
      FlagsUp(w, step, k);
      assert w'.nodes[k].leader && w'.nodes[step.n].leader;
    } else {
      forall i, j | 0 <= i < |w'.nodes| && 0 <= j < |w'.nodes| && w'.nodes[i].leader && w'.nodes[j].leader ensures i == j {
        FlagsUp(w, step, i);
        FlagsUp(w, step, j);
      }
    }
  }

  /** At every moment of the run at most one leader flag was up. */
  ghost predicate AlwaysOneLeader(n: nat, steps: seq<Step>) {
    OneLeader(Run(n, steps)) && (steps == [] || AlwaysOneLeader(n, steps[..|steps| - 1]))
  }

  ghost predicate NeverTakesOver(n: nat, steps: seq<Step>) {
    steps == [] ||
    (NeverTakesOver(n, steps[..|steps| - 1]) && !TakesOver(Run(n, steps[..|steps| - 1]), steps[|steps| - 1]))
  }

  /** On every run: there never were two leader flags if and only if no step was such a takeover. */
  lemma {:induction false} OneLeaderIff(n: nat, steps: seq<Step>)
    ensures AlwaysOneLeader(n, steps) <==> NeverTakesOver(n, steps)
  {
    if steps != [] {
      var before, step := steps[..|steps| - 1], steps[|steps| - 1];
      OneLeaderIff(n, before);
      if AlwaysOneLeader(n, before) {
        LastOneLeader(n, before);
        OneLeaderStepIff(Run(n, before), step);
      }
    } else {
      assert Run(n, steps) == Start(n);
    }
  }

  lemma LastOneLeader(n: nat, steps: seq<Step>)
    requires AlwaysOneLeader(n, steps)
    ensures OneLeader(Run(n, steps))
  {
  }

  /** The cause: a leader that has lost its lock. */

  /** Every leader holds the lock. */
  ghost predicate LeadersHold(w: World) {
    forall k | 0 <= k < |w.nodes| && w.nodes[k].leader :: Mine(w, k)
  }

  /** The step takes the lock from a leader: it expires, or a release gets through and the node
      does not learn of it. */
  ghost predicate LosesLock(w: World, step: Step) {
    match step
    case ExpireLock => exists k :: 0 <= k < |w.nodes| && w.nodes[k].leader && Mine(w, k)
    case Go(n, reached, replied) =>
      n < |w.nodes| && w.nodes[n].pc.Release? && w.nodes[n].leader && reached && !replied && Mine(w, n)
    case _ => false
  }

  lemma HoldStepIff(w: World, step: Step)
    requires Inv(w) && LeadersHold(w)
    ensures LeadersHold(Next(w, step)) <==> !LosesLock(w, step)
  {
    var w' := Next(w, step);
    if LosesLock(w, step) {
      Lost(w, step);
    } else {
      forall k | 0 <= k < |w'.nodes| && w'.nodes[k].leader ensures Mine(w', k) {
        assert NodeOk(w, k, w.nodes[k]);
        FlagsUp(w, step, k);
        Held(w, step, k);
      }
    }
  }

  lemma Lost(w: World, step: Step)
    requires Inv(w) && LosesLock(w, step)
    ensures !LeadersHold(Next(w, step))
  {
    var k := if step.Go? then step.n else var k :| 0 <= k < |w.nodes| && w.nodes[k].leader && Mine(w, k); k;
    assert Next(w, step).nodes[k].leader && !Mine(Next(w, step), k);
  }

  /** A leader after a step that loses no lock. */
  lemma Held(w: World, step: Step, k: nat)
    requires Inv(w) && LeadersHold(w) && !LosesLock(w, step)
    requires k < |Next(w, step).nodes| == |w.nodes| && Next(w, step).nodes[k].leader
    requires w.nodes[k].leader || (TakesLock(w, step) && step.n == k)
    ensures Mine(Next(w, step), k)
  {
    assert forall j | 0 <= j < |w.nodes| :: NodeOk(w, j, w.nodes[j]);
  }

  ghost predicate AlwaysHold(n: nat, steps: seq<Step>) {
    LeadersHold(Run(n, steps)) && (steps == [] || AlwaysHold(n, steps[..|steps| - 1]))
  }

  ghost predicate NeverLosesLock(n: nat, steps: seq<Step>) {
    steps == [] ||
    (NeverLosesLock(n, steps[..|steps| - 1]) && !LosesLock(Run(n, steps[..|steps| - 1]), steps[|steps| - 1]))
  }

  /** On every run: all leaders held the lock at every moment if and only if no leader's lock
      expired and no effective release went unanswered. */
  lemma {:induction false} LeadersHoldIff(n: nat, steps: seq<Step>)
    ensures AlwaysHold(n, steps) <==> NeverLosesLock(n, steps)
  {
    if steps != [] {
      var before, step := steps[..|steps| - 1], steps[|steps| - 1];
      LeadersHoldIff(n, before);
      RunInv(n, before);
      if AlwaysHold(n, before) {
        LastHold(n, before);
        HoldStepIff(Run(n, before), step);
      }
    } else {
      assert Run(n, steps) == Start(n);
    }
  }

  lemma LastHold(n: nat, steps: seq<Step>)
    requires AlwaysHold(n, steps)
    ensures LeadersHold(Run(n, steps))
  {
  }

  /** Then at most one leader flag is up. */
  lemma NoLossOneLeader(n: nat, steps: seq<Step>)
    requires NeverLosesLock(n, steps)
    ensures OneLeader(Run(n, steps))
  {
    LeadersHoldIff(n, steps);
    LastHold(n, steps);
    var w := Run(n, steps);
    forall i, j | 0 <= i < n && 0 <= j < n && w.nodes[i].leader && w.nodes[j].leader ensures i == j {
      OneCanExtend(n, steps, i, j);
    }
  }

  /** And no more than such a loss is needed: once the lock of a leader is gone, any other node can
      become a leader beside it without anything expiring. */

  /** How many steps a node is away from the start of its heartbeat when nothing reaches the
      store. */
  function ToStart(pc: Pc): nat {
    match pc
    case ReadLock => 0
    case CheckLocal => 2
    case Acquire(_) => 1
    case Extend(_) => 2
    case Release => 1
    case ReadName(_) => 1
    case ReadState(_) => 1
    case Marshal(_, _) => 4
    case SetState(_, _, _) => 3
    case SetName(_) => 2
    case UpdateRemote(_) => 1
  }

  /** Only node `j` moved; the lock is still free. */
  ghost predicate OthersSame(w: World, w': World, j: nat) {
    && |w'.nodes| == |w.nodes| && w'.lock.None?
    && forall k | 0 <= k < |w.nodes| && k != j :: w'.nodes[k] == w.nodes[k]
  }

  predicate NothingExpires(steps: seq<Step>) {
    forall i | 0 <= i < |steps| :: !steps[i].ExpireLock?
  }

  /** `more` goes on from `steps` without an expiry. */
  predicate GoesOn(steps: seq<Step>, more: seq<Step>) {
    steps <= more && NothingExpires(more[|steps|..])
  }

  lemma GoesOnSnoc(steps: seq<Step>, more: seq<Step>, step: Step)
    requires GoesOn(steps, more) && !step.ExpireLock?
    ensures GoesOn(steps, more + [step])
  {
  }

  lemma GoesOnTrans(a: seq<Step>, b: seq<Step>, c: seq<Step>)
    requires GoesOn(a, b) && GoesOn(b, c)
    ensures GoesOn(a, c)
  {
    forall i | 0 <= i < |c| - |a| ensures !c[|a|..][i].ExpireLock? {
      if |a| + i < |b| {
        assert c[|a|..][i] == b[|a|..][i];
      } else {
        assert c[|a|..][i] == c[|b|..][|a| + i - |b|];
      }
    }
  }

  lemma {:induction false} BackToStart(n: nat, steps: seq<Step>, j: nat) returns (more: seq<Step>)
    requires j < n && Run(n, steps).lock.None?
    ensures GoesOn(steps, more) && OthersSame(Run(n, steps), Run(n, more), j)
    ensures Run(n, more).nodes[j].pc == ReadLock
    decreases ToStart(Run(n, steps).nodes[j].pc)
  {
    var w := Run(n, steps);
    if w.nodes[j].pc == ReadLock {
      more := steps;
    } else {
      var step := Go(j, false, false);
      RunSnoc(n, steps, step);
      GoesOnSnoc(steps, steps, step);
      var next := steps + [step];
      more := BackToStart(n, next, j);
      GoesOnTrans(steps, next, more);
    }
  }

  /** A node at the start of its heartbeat with a great local triple takes the free lock. */
  lemma TakeFree(n: nat, steps: seq<Step>, j: nat) returns (more: seq<Step>)
    requires j < n && Run(n, steps).lock.None? && Run(n, steps).nodes[j].pc == ReadLock
    requires Run(n, steps).nodes[j].local == GREATEST
    ensures GoesOn(steps, more) && Run(n, more).nodes[j].leader
    ensures forall k | 0 <= k < n && k != j :: Run(n, more).nodes[k] == Run(n, steps).nodes[k]
  {
    var go := Go(j, true, true);
    if Run(n, steps).nodes[j].leader {
      more := steps;
    } else {
      RunSnoc(n, steps, go);
      RunSnoc(n, steps + [go], go);
      RunSnoc(n, steps + [go] + [go], go);
      more := steps + [go] + [go] + [go];
    }
  }

  const GREATEST: Triple := Triple(TWO_64 - 1, TWO_64 - 1, TWO_64 - 1)

  lemma SetGreatest(n: nat, steps: seq<Step>, j: nat) returns (more: seq<Step>)
    requires j < n && Run(n, steps).lock.None?
    ensures GoesOn(steps, more) && OthersSame(Run(n, steps), Run(n, more), j)
    ensures Run(n, more).nodes[j] == Run(n, steps).nodes[j].(local := GREATEST)
  {
    var a, b, c := SetLatest(j, TWO_64 - 1), SetSafe(j, TWO_64 - 1), SetFinalized(j, TWO_64 - 1);
    RunSnoc(n, steps, a);
    RunSnoc(n, steps + [a], b);
    RunSnoc(n, steps + [a] + [b], c);
    more := steps + [a] + [b] + [c];
    assert more[|steps|..] == [a, b, c];
  }

  lemma SecondLeaderAppears(n: nat, steps: seq<Step>, i: nat, j: nat) returns (more: seq<Step>)
    requires i < n && j < n && i != j && Run(n, steps).nodes[i].leader && Run(n, steps).lock.None?
    ensures GoesOn(steps, more)
    ensures Run(n, more).nodes[i].leader && Run(n, more).nodes[j].leader
  {
    var back := BackToStart(n, steps, j);
    var great := SetGreatest(n, back, j);
    GoesOnTrans(steps, back, great);
    more := TakeFree(n, great, j);
    GoesOnTrans(steps, great, more);
    assert Run(n, more).nodes[i] == Run(n, great).nodes[i] == Run(n, back).nodes[i] == Run(n, steps).nodes[i];
  }

  /** So every such loss can be followed by a second leader. */
  lemma LossLetsSecondIn(n: nat, steps: seq<Step>, step: Step) returns (more: seq<Step>)
    requires n >= 2 && LosesLock(Run(n, steps), step)
    ensures GoesOn(steps + [step], more) && !OneLeader(Run(n, more))
  {
    var w := Run(n, steps);
    var i := if step.Go? then step.n else var k :| 0 <= k < |w.nodes| && w.nodes[k].leader && Mine(w, k); k;
    var j := if i == 0 then 1 else 0;
    RunSnoc(n, steps, step);
    more := SecondLeaderAppears(n, steps + [step], i, j);
  }
}
