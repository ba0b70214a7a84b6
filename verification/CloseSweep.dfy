/** Closing the manager removes channels from the queue while ranging over it. The loop reads
    the backing array it started with, which every removal shifts in place. */
module CloseSweep {
  import opened Options

  /** The backing array, how much of it is the queue now, and the current channel. */
  datatype Sweep = Sweep(backing: seq<nat>, kept: nat, current: Option<nat>) {
    predicate Valid() {
      kept <= |backing|
    }

    function Queue(): seq<nat>
      requires Valid()
    {
      backing[..kept]
    }

    /** Remove one channel from the queue; the elements behind it move up one place and the last
        place keeps its old content. */
    function Remove(ch: nat): (s: Sweep)
      requires Valid()
      ensures s.Valid() && |s.backing| == |backing|
    {
      var cur := if current == Some(ch) then None else current;
      var i := IndexOf(Queue(), ch);
      if i == kept then this.(current := cur)
      else Sweep(backing[..i] + backing[i + 1..kept] + backing[kept - 1..], kept - 1, cur)
    }

    /** The rest of the loop, from position `i`, when the channels of `gone` have submitted nothing. */
    function From(i: nat, gone: set<nat>): (s: Sweep)
      requires Valid()
      ensures s.Valid()
      decreases |backing| - i
    {
      if i >= |backing| then this
      else if backing[i] in gone then Remove(backing[i]).From(i + 1, gone)
      else From(i + 1, gone)
    }
  }

  /** The first position of `x`, or the length. */
  function IndexOf(xs: seq<nat>, x: nat): (i: nat)
    ensures i <= |xs| && (i < |xs| ==> xs[i] == x) && x !in xs[..i]
  {
    if xs == [] || xs[0] == x then 0 else
      var i := IndexOf(xs[1..], x) + 1;
      assert xs[..i] == [xs[0]] + xs[1..][..i - 1];
      i
  }

  function SweepAll(queue: seq<nat>, current: Option<nat>, gone: set<nat>): (s: Sweep)
    ensures s.Valid() && (s.current == current || s.current == None)
  {
    CurrentKeptOrNone(Sweep(queue, |queue|, current), 0, gone);
    Sweep(queue, |queue|, current).From(0, gone)
  }

  lemma {:induction false} CurrentKeptOrNone(s: Sweep, i: nat, gone: set<nat>)
    requires s.Valid()
    ensures s.From(i, gone).current == s.current || s.From(i, gone).current == None
    decreases |s.backing| - i
  {
    if i < |s.backing| {
      CurrentKeptOrNone(if s.backing[i] in gone then s.Remove(s.backing[i]) else s, i + 1, gone);
    }
  }

  ghost predicate Increasing(q: seq<nat>) {
    forall i, j | 0 <= i < j < |q| :: q[i] < q[j]
  }

  function Without(q: seq<nat>, i: nat): seq<nat>
    requires i < |q|
  {
    q[..i] + q[i + 1..]
  }

  lemma WithoutMembers(q: seq<nat>, i: nat)
    requires Increasing(q) && i < |q|
    ensures Increasing(Without(q, i))
    ensures forall d :: d in Without(q, i) <==> d in q && d != q[i]
  {
  }

  lemma Snoc(q: seq<nat>, c: nat)
    requires Increasing(q) && forall d | d in q :: d < c
    ensures Increasing(q + [c])
    ensures forall d :: d in q + [c] <==> d in q || d == c
  {
    assert forall i | 0 <= i < |q| :: q[i] in q;
  }

  /** Removing a channel takes it out of the queue and leaves the rest in order. */
  lemma RemoveOne(q: seq<nat>, current: Option<nat>, c: nat)
    requires Increasing(q)
    ensures var r := Sweep(q, |q|, current).Remove(c);
      && Increasing(r.Queue())
      && (forall d :: d in r.Queue() <==> d in q && d != c)
      && r.current == (if current == Some(c) then None else current)
      && (q != [] && q[|q| - 1] != c ==> r.Queue() != [] && r.Queue()[|r.Queue()| - 1] == q[|q| - 1])
  {
    var r := Sweep(q, |q|, current).Remove(c);
    assert q[..|q|] == q;
    var i := IndexOf(q, c);
    if i == |q| {
      assert r.Queue() == q && q[..i] == q;
    } else {
      assert r.Queue() == Without(q, i);
      WithoutMembers(q, i);
    }
  }

  /** What the loop keeps from position `j` of the original queue on: whatever follows a removed
      channel has moved into the place just visited and is never looked at. */
  function Walk(q: seq<nat>, j: nat, gone: set<nat>): seq<nat>
    requires j <= |q| + 1
    decreases |q| + 1 - j
  {
    if j >= |q| then []
    else if q[j] !in gone then [q[j]] + Walk(q, j + 1, gone)
    else if j + 1 < |q| then [q[j + 1]] + Walk(q, j + 2, gone)
    else []
  }

  /** The last channel is met again in the places left over at the end. */
  function DropLast(w: seq<nat>, last: nat, gone: set<nat>): seq<nat> {
    if w != [] && w[|w| - 1] == last && last in gone then w[..|w| - 1] else w
  }

  function Survivors(q: seq<nat>, gone: set<nat>): seq<nat> {
    if q == [] then [] else DropLast(Walk(q, 0, gone), q[|q| - 1], gone)
  }

  lemma {:induction false} IndexUnique(xs: seq<nat>, i: nat)
    requires i < |xs| && forall k | 0 <= k < i :: xs[k] != xs[i]
    ensures IndexOf(xs, xs[i]) == i
  {
  }

  lemma IndexAbsent(xs: seq<nat>, x: nat)
    requires x !in xs
    ensures IndexOf(xs, x) == |xs|
  {
  }

  /** Where the loop stands after visiting |done| places and removing |stale| channels. */
  ghost predicate MidSweep(s: Sweep, q: seq<nat>, done: seq<nat>, j: nat, stale: nat, gone: set<nat>) {
    && Increasing(q) && q != [] && j <= |q| && j == |done| + stale
    && s.Valid() && s.kept + stale == |q| == |s.backing|
    && s.Queue() == done + q[j..]
    && Increasing(s.Queue())
    && (forall t | s.kept <= t < |q| :: s.backing[t] == q[|q| - 1])
    && (forall d | d in done :: d <= q[|q| - 1])
    && (q[|q| - 1] in done && q[|q| - 1] in gone ==> stale > 0)
    && (stale > 0 || q[|q| - 1] in s.Queue())
    && (s.current.Some? ==> s.current.value == q[|q| - 1])
  }

  lemma NextPlace(s: Sweep, q: seq<nat>, done: seq<nat>, j: nat, stale: nat, gone: set<nat>)
    requires MidSweep(s, q, done, j, stale, gone) && j < |q|
    ensures |done| < |s.backing| && s.backing[|done|] == q[j]
    ensures forall d | d in done :: d < q[j]
  {
    assert s.Queue()[|done|] == q[j];
    forall d | d in done ensures d < q[j] {
      var k :| 0 <= k < |done| && done[k] == d;
      assert s.Queue()[k] == d;
    }
  }

  /** Removing the channel in place `i`, the first with its number. */
  lemma RemoveAt(s: Sweep, i: nat)
    requires s.Valid() && i < s.kept && forall k | 0 <= k < i :: s.backing[k] != s.backing[i]
    ensures var s' := s.Remove(s.backing[i]);
      && s'.kept == s.kept - 1 && |s'.backing| == |s.backing|
      && s'.Queue() == s.Queue()[..i] + s.Queue()[i + 1..]
      && s'.current == (if s.current == Some(s.backing[i]) then None else s.current)
      && forall t | s'.kept <= t < |s.backing| :: s'.backing[t] == s.backing[t]
  {
    IndexUnique(s.Queue(), i);
  }

  lemma RemoveNext(s: Sweep, q: seq<nat>, done: seq<nat>, j: nat)
    requires s.Valid() && |s.backing| == |q| && j < |q| && s.Queue() == done + q[j..] && forall d | d in done :: d < q[j]
    requires forall t | s.kept <= t < |q| :: s.backing[t] == q[|q| - 1]
    ensures var s' := s.Remove(q[j]);
      && s'.kept == s.kept - 1 && s'.Queue() == done + q[j + 1..]
      && s'.current == (if s.current == Some(q[j]) then None else s.current)
      && |s'.backing| == |q|
      && forall t | s'.kept <= t < |q| :: s'.backing[t] == q[|q| - 1]
  {
    assert s.Queue()[|done|] == q[j] && s.Queue()[s.kept - 1] == q[|q| - 1];
    BeforeNext(s, q, done, j);
    RemoveAt(s, |done|);
    CutAfter(done, q, j);
  }

  lemma BeforeNext(s: Sweep, q: seq<nat>, done: seq<nat>, j: nat)
    requires s.Valid() && j < |q| && s.Queue() == done + q[j..] && forall d | d in done :: d < q[j]
    ensures forall k | 0 <= k < |done| :: s.backing[k] != q[j]
  {
    forall k | 0 <= k < |done| ensures s.backing[k] != q[j] {
      assert done[k] in done && s.Queue()[k] == (done + q[j..])[k] == done[k];
    }
  }

  lemma CutAfter(done: seq<nat>, q: seq<nat>, j: nat)
    requires j < |q|
    ensures var all := done + q[j..]; all[..|done|] == done && all[|done| + 1..] == q[j + 1..]
  {
  }

  lemma StepKeep(s: Sweep, q: seq<nat>, done: seq<nat>, j: nat, stale: nat, gone: set<nat>)
    requires MidSweep(s, q, done, j, stale, gone) && j < |q| && q[j] !in gone
    ensures MidSweep(s, q, done + [q[j]], j + 1, stale, gone)
  {
  }

  lemma StepSkip(s: Sweep, q: seq<nat>, done: seq<nat>, j: nat, stale: nat, gone: set<nat>)
    requires MidSweep(s, q, done, j, stale, gone) && j + 1 < |q| && q[j] in gone
    ensures MidSweep(s.Remove(q[j]), q, done + [q[j + 1]], j + 2, stale + 1, gone)
  {
    NextPlace(s, q, done, j, stale, gone);
    RemoveNext(s, q, done, j);
    CutAfter(done, q, j);
    CutIncreasing(s.Queue(), |done|, s.Remove(q[j]).Queue());
    MidSkipped(s.Remove(q[j]), q, done, j, stale, gone);
  }

  lemma MidSkipped(s: Sweep, q: seq<nat>, done: seq<nat>, j: nat, stale: nat, gone: set<nat>)
    requires Increasing(q) && j + 1 < |q| && j == |done| + stale && s.Valid() && s.kept + stale + 1 == |q| == |s.backing|
    requires s.Queue() == done + q[j + 1..] && Increasing(s.Queue())
    requires forall t | s.kept <= t < |q| :: s.backing[t] == q[|q| - 1]
    requires (forall d | d in done :: d < q[j]) && (s.current.Some? ==> s.current.value == q[|q| - 1])
    ensures MidSweep(s, q, done + [q[j + 1]], j + 2, stale + 1, gone)
  {
    assert s.Queue() == done + [q[j + 1]] + q[j + 2..];
  }

  lemma CutIncreasing(queue: seq<nat>, i: nat, queue': seq<nat>)
    requires Increasing(queue) && i < |queue| && queue' == queue[..i] + queue[i + 1..]
    ensures Increasing(queue')
  {
  }

  /** The places past the queue all hold the last channel of the original queue. */
  lemma {:induction false} StaleSweep(s: Sweep, last: nat, i: nat, gone: set<nat>)
    requires s.Valid() && s.kept <= i <= |s.backing|
    requires forall t | s.kept <= t < |s.backing| :: s.backing[t] == last
    requires last in s.Queue() ==> s.backing[s.kept - 1] == last && last !in s.backing[..s.kept - 1]
    ensures var r := s.From(i, gone);
      if i < |s.backing| && last in gone
      then r.Queue() == (if last in s.Queue() then s.Queue()[..s.kept - 1] else s.Queue()) &&
           r.current == (if s.current == Some(last) then None else s.current)
      else r == s
    decreases |s.backing| - i
  {
    if i < |s.backing| {
      if last in gone {
        RemoveStale(s, last);
        StaleSweep(s.Remove(last), last, i + 1, gone);
      } else {
        StaleSweep(s, last, i + 1, gone);
      }
    }
  }

  lemma RemoveStale(s: Sweep, last: nat)
    requires s.Valid()
    requires forall t | s.kept <= t < |s.backing| :: s.backing[t] == last
    requires last in s.Queue() ==> s.backing[s.kept - 1] == last && last !in s.backing[..s.kept - 1]
    ensures var s' := s.Remove(last);
      && s'.Queue() == (if last in s.Queue() then s.Queue()[..s.kept - 1] else s.Queue())
      && s'.kept <= s.kept && |s'.backing| == |s.backing| && last !in s'.Queue()
      && s'.current == (if s.current == Some(last) then None else s.current)
      && (forall t | s'.kept <= t < |s.backing| :: s'.backing[t] == last)
  {
    if last in s.Queue() {
      forall k | 0 <= k < s.kept - 1 ensures s.Queue()[k] != last {
        assert s.backing[..s.kept - 1][k] == s.Queue()[k];
      }
      IndexUnique(s.Queue(), s.kept - 1);
      assert s.Remove(last).Queue() == s.Queue()[..s.kept - 1] == s.backing[..s.kept - 1];
    } else {
      IndexAbsent(s.Queue(), last);
    }
  }

  /** The rest of the loop leaves `all`, less a last channel that submitted nothing. */
  ghost predicate Leaves(s: Sweep, i: nat, all: seq<nat>, last: nat, gone: set<nat>)
    requires s.Valid()
  {
    var r := s.From(i, gone);
    r.Queue() == DropLast(all, last, gone) && r.current == if last in gone then None else s.current
  }

  lemma Visit(s: Sweep, i: nat, all: seq<nat>, last: nat, gone: set<nat>)
    requires s.Valid() && i < |s.backing|
    requires if s.backing[i] in gone
      then Leaves(s.Remove(s.backing[i]), i + 1, all, last, gone) && (s.backing[i] == last || s.current != Some(s.backing[i]))
      else Leaves(s, i + 1, all, last, gone)
    ensures Leaves(s, i, all, last, gone)
  {
  }

  lemma WalkStep(q: seq<nat>, done: seq<nat>, j: nat, gone: set<nat>)
    requires j < |q|
    ensures q[j] !in gone ==> done + Walk(q, j, gone) == done + [q[j]] + Walk(q, j + 1, gone)
    ensures q[j] in gone && j + 1 < |q| ==> done + Walk(q, j, gone) == done + [q[j + 1]] + Walk(q, j + 2, gone)
    ensures q[j] in gone && j + 1 == |q| ==> done + Walk(q, j, gone) == done
  {
  }

  lemma LastRemoved(s: Sweep, q: seq<nat>, done: seq<nat>, j: nat, stale: nat, gone: set<nat>)
    requires MidSweep(s, q, done, j, stale, gone) && j + 1 == |q| && q[j] in gone
    ensures Leaves(s.Remove(q[j]), |done| + 1, done, q[j], gone)
  {
    NextPlace(s, q, done, j, stale, gone);
    RemoveNext(s, q, done, j);
    assert s.Remove(q[j]).Queue() == done;
    StaleSweep(s.Remove(q[j]), q[j], |done| + 1, gone);
  }

  lemma {:induction false} SweepFrom(s: Sweep, q: seq<nat>, done: seq<nat>, j: nat, stale: nat, gone: set<nat>, all: seq<nat>)
    requires MidSweep(s, q, done, j, stale, gone) && all == done + Walk(q, j, gone)
    ensures Leaves(s, |done|, all, q[|q| - 1], gone)
    decreases |q| - j, 1
  {
    if j == |q| {
      assert all == done;
      LastPhase(s, q, done, stale, gone);
    } else {
      if q[j] !in gone {
        StepKeep(s, q, done, j, stale, gone);
        SweepKept(s, q, done, j, stale, gone, all);
      } else if j + 1 < |q| {
        StepSkip(s, q, done, j, stale, gone);
        SweepSkipped(s.Remove(q[j]), q, done, j, stale, gone, all);
      } else {
        LastRemoved(s, q, done, j, stale, gone);
        WalkStep(q, done, j, gone);
      }
      NextPlace(s, q, done, j, stale, gone);
      Visit(s, |done|, all, q[|q| - 1], gone);
    }
  }

  lemma {:induction false} SweepKept(s: Sweep, q: seq<nat>, done: seq<nat>, j: nat, stale: nat, gone: set<nat>, all: seq<nat>)
    requires j < |q| && q[j] !in gone && MidSweep(s, q, done + [q[j]], j + 1, stale, gone)
    requires all == done + Walk(q, j, gone)
    ensures Leaves(s, |done| + 1, all, q[|q| - 1], gone)
    decreases |q| - j, 0
  {
    WalkStep(q, done, j, gone);
    SweepFrom(s, q, done + [q[j]], j + 1, stale, gone, all);
  }

  lemma {:induction false} SweepSkipped(s: Sweep, q: seq<nat>, done: seq<nat>, j: nat, stale: nat, gone: set<nat>, all: seq<nat>)
    requires j + 1 < |q| && q[j] in gone && MidSweep(s, q, done + [q[j + 1]], j + 2, stale + 1, gone)
    requires all == done + Walk(q, j, gone)
    ensures Leaves(s, |done| + 1, all, q[|q| - 1], gone)
    decreases |q| - j, 0
  {
    WalkStep(q, done, j, gone);
    SweepFrom(s, q, done + [q[j + 1]], j + 2, stale + 1, gone, all);
  }

  lemma LastPhase(s: Sweep, q: seq<nat>, done: seq<nat>, stale: nat, gone: set<nat>)
    requires MidSweep(s, q, done, |q|, stale, gone)
    ensures Leaves(s, |done|, done, q[|q| - 1], gone)
  {
    var last := q[|q| - 1];
    assert s.Queue() == done;
    if last in done {
      var k :| 0 <= k < |done| && done[k] == last;
      assert done[|done| - 1] in done;
      assert s.backing[..s.kept - 1] == done[..|done| - 1];
    }
    StaleSweep(s, last, |done|, gone);
  }

  /** The loop keeps exactly the survivors. The current channel, when it is the last one, is
      forgotten exactly when it has submitted nothing. */
  lemma SweepKeepsSurvivors(q: seq<nat>, current: Option<nat>, gone: set<nat>)
    requires Increasing(q) && (current.Some? ==> q != [] && current.value == q[|q| - 1])
    ensures SweepAll(q, current, gone).Queue() == Survivors(q, gone)
    ensures SweepAll(q, current, gone).current ==
      if current.Some? && current.value in gone then None else current
  {
    if q != [] {
      var s := Sweep(q, |q|, current);
      StartSweep(q, current, gone);
      SweepFrom(s, q, [], 0, 0, gone, Walk(q, 0, gone));
    }
  }

  lemma StartSweep(q: seq<nat>, current: Option<nat>, gone: set<nat>)
    requires q != [] && Increasing(q) && (current.Some? ==> current.value == q[|q| - 1])
    ensures MidSweep(Sweep(q, |q|, current), q, [], 0, 0, gone)
  {
  }

  ghost predicate FromPlace(q: seq<nat>, j: nat, x: nat) {
    exists t :: j <= t < |q| && q[t] == x
  }

  lemma {:induction false} WalkFromPlaces(q: seq<nat>, j: nat, gone: set<nat>)
    requires j <= |q| + 1
    ensures forall i | 0 <= i < |Walk(q, j, gone)| :: FromPlace(q, j, Walk(q, j, gone)[i])
    decreases |q| + 1 - j
  {
    if j < |q| {
      var step := if q[j] !in gone then 1 else 2;
      if j + step <= |q| {
        var next := j + step;
        var rest := Walk(q, next, gone);
        WalkFromPlaces(q, next, gone);
        assert Walk(q, j, gone) == [q[next - 1]] + rest;
        assert FromPlace(q, j, q[next - 1]);
        forall i | 0 <= i < |rest| ensures FromPlace(q, j, rest[i]) {
          assert FromPlace(q, next, rest[i]);
        }
      }
    }
  }

  lemma {:induction false} WalkIncreasing(q: seq<nat>, j: nat, gone: set<nat>)
    requires Increasing(q) && j <= |q| + 1
    ensures Increasing(Walk(q, j, gone))
    decreases |q| + 1 - j
  {
    if j < |q| {
      var step := if q[j] !in gone then 1 else 2;
      if j + step <= |q| {
        var rest := Walk(q, j + step, gone);
        WalkIncreasing(q, j + step, gone);
        WalkFromPlaces(q, j + step, gone);
        assert Walk(q, j, gone) == [q[j + step - 1]] + rest;
        forall i | 0 <= i < |rest| ensures q[j + step - 1] < rest[i] {
          assert FromPlace(q, j + step, rest[i]);
        }
      }
    }
  }

  lemma {:induction false} WalkKeeps(q: seq<nat>, j: nat, gone: set<nat>)
    requires j <= |q| + 1
    ensures forall t | j <= t < |q| && q[t] !in gone :: q[t] in Walk(q, j, gone)
    decreases |q| + 1 - j
  {
    if j < |q| {
      WalkKeeps(q, if q[j] !in gone then j + 1 else j + 2, gone);
    }
  }

  lemma DropLastKeeps(w: seq<nat>, last: nat, gone: set<nat>)
    requires Increasing(w) && forall i | 0 <= i < |w| :: w[i] <= last
    ensures Increasing(DropLast(w, last, gone))
    ensures forall x :: x in DropLast(w, last, gone) <==> x in w && !(x == last && last in gone)
  {
  }

  /** Nothing that was submitted is dropped, nothing is invented, the order is kept. */
  lemma SurvivorsKeepSubmitted(q: seq<nat>, gone: set<nat>)
    requires Increasing(q)
    ensures Increasing(Survivors(q, gone))
    ensures forall x | x in Survivors(q, gone) :: x in q
    ensures forall x | x in q && x !in gone :: x in Survivors(q, gone)
    ensures q != [] && q[|q| - 1] in gone ==> q[|q| - 1] !in Survivors(q, gone)
  {
    if q != [] {
      var w, last := Walk(q, 0, gone), q[|q| - 1];
      WalkKeeps(q, 0, gone);
      WalkFromPlaces(q, 0, gone);
      WalkIncreasing(q, 0, gone);
      forall i | 0 <= i < |w| ensures w[i] in q && w[i] <= last {
        assert FromPlace(q, 0, w[i]);
      }
      DropLastKeeps(w, last, gone);
    }
  }

  /** Two neighbours, the second not the last channel, have both submitted nothing. */
  ghost predicate HasIdlePair(q: seq<nat>, j: nat, gone: set<nat>) {
    exists t :: j <= t && t + 2 < |q| && q[t] in gone && q[t + 1] in gone
  }

  /** What `WalkClean` is about: only the last channel may be both kept and idle. */
  ghost predicate CleanFrom(q: seq<nat>, j: nat, gone: set<nat>)
    requires q != [] && j <= |q| + 1
  {
    forall x | x in Walk(q, j, gone) && x in gone :: x == q[|q| - 1]
  }

  lemma {:induction false} WalkClean(q: seq<nat>, j: nat, gone: set<nat>)
    requires q != [] && Increasing(q) && j <= |q| + 1
    ensures CleanFrom(q, j, gone) <==> !HasIdlePair(q, j, gone)
    decreases |q| + 1 - j
  {
    if j < |q| {
      if q[j] !in gone {
        WalkClean(q, j + 1, gone);
        CleanKept(q, j, gone);
      } else if j + 1 < |q| {
        WalkClean(q, j + 2, gone);
        CleanSkipped(q, j, gone);
      }
    }
  }

  lemma CleanKept(q: seq<nat>, j: nat, gone: set<nat>)
    requires Increasing(q) && j < |q| && q[j] !in gone
    ensures CleanFrom(q, j, gone) <==> CleanFrom(q, j + 1, gone)
    ensures HasIdlePair(q, j, gone) <==> HasIdlePair(q, j + 1, gone)
  {
    assert Walk(q, j, gone) == [q[j]] + Walk(q, j + 1, gone);
  }

  lemma CleanSkipped(q: seq<nat>, j: nat, gone: set<nat>)
    requires Increasing(q) && j + 1 < |q| && q[j] in gone
    ensures CleanFrom(q, j, gone) <==> CleanFrom(q, j + 2, gone) && (q[j + 1] in gone ==> j + 2 == |q|)
    ensures HasIdlePair(q, j, gone) <==> HasIdlePair(q, j + 2, gone) || (q[j + 1] in gone && j + 2 < |q|)
  {
    var k := j + 2;
    assert Walk(q, j, gone) == [q[k - 1]] + Walk(q, k, gone);
    assert q[k - 1] == q[|q| - 1] <==> k == |q|;
    if HasIdlePair(q, j, gone) && !HasIdlePair(q, k, gone) {
      var t :| j <= t && t + 2 < |q| && q[t] in gone && q[t + 1] in gone;
      assert t < k;
    }
  }

  /** The loop clears every channel that has submitted nothing exactly when no two neighbours,
      the second of them not the last channel, have both submitted nothing. */
  lemma AllIdleCleared(q: seq<nat>, gone: set<nat>)
    requires Increasing(q)
    ensures (forall x | x in Survivors(q, gone) :: x !in gone) <==> !HasIdlePair(q, 0, gone)
  {
    if q != [] {
      var w, last := Walk(q, 0, gone), q[|q| - 1];
      WalkClean(q, 0, gone);
      WalkKeeps(q, 0, gone);
      WalkFromPlaces(q, 0, gone);
      WalkIncreasing(q, 0, gone);
      forall i | 0 <= i < |w| ensures w[i] <= last {
        assert FromPlace(q, 0, w[i]);
      }
      DropLastKeeps(w, last, gone);
    }
  }

  /** Three idle channels: the middle one survives. */
  lemma IdleChannelSurvives()
    ensures Survivors([0, 1, 2], {0, 1, 2}) == [1]
  {
  }

  /** Removing from a queue that is a prefix of its backing array shifts the backing array. */
  lemma BackingShift(backing: seq<nat>, kept: nat, current: Option<nat>, ch: nat)
    requires kept <= |backing|
    ensures var q := Sweep(backing[..kept], kept, current).Remove(ch);
      Sweep(backing, kept, current).Remove(ch) ==
        Sweep(q.Queue() + backing[|q.Queue()|..], |q.Queue()|, q.current)
  {
    var q := backing[..kept];
    var i := IndexOf(q, ch);
    assert q[..kept] == q;
    if i == kept {
      assert q + backing[kept..] == backing;
    } else {
      assert q[..i] == backing[..i] && q[i + 1..] == backing[i + 1..kept];
    }
  }
}
