/** The group step of the consensus poller: candidates, group minima and the walk back to the
    highest common block. */
module PollerGroup {
  import opened Options
  import opened Words
  import opened SentinelMin
  import opened PollerBackend

  /** Candidates. */

  /** The backends that may be candidates, by their place in the backend group. */
  function Eligible(cfg: PollerConfig, backends: seq<BackendConfig>, states: seq<State>, healthy: nat -> bool, now: int): map<nat, State>
    requires |states| == |backends|
  {
    map i: nat | i < |backends| && Candidate(cfg, backends[i], states[i], healthy(i), now) :: states[i]
  }

  ghost predicate IsHighest(h: U64, c: map<nat, State>) {
    && (forall k | k in c :: c[k].tags.latest <= h)
    && (h == 0 || exists k :: k in c && c[k].tags.latest == h)
  }

  ghost function Highest(c: map<nat, State>): (h: U64)
    ensures IsHighest(h, c)
  {
    if c == map[] then 0
    else
      var k :| k in c;
      var rest := Highest(c - {k});
      assert forall j | j in c :: j == k || (j in c - {k} && (c - {k})[j] == c[j]);
      if c[k].tags.latest > rest then c[k].tags.latest else rest
  }

  function Near(c: map<nat, State>, h: U64, lag: U64): map<nat, State> {
    map k | k in c && Wrap(h - c[k].tags.latest) <= lag :: c[k]
  }

  ghost function Candidates(cfg: PollerConfig, backends: seq<BackendConfig>, states: seq<State>, healthy: nat -> bool, now: int): map<nat, State>
    requires |states| == |backends|
  {
    var e := Eligible(cfg, backends, states, healthy, now);
    Near(e, Highest(e), cfg.maxBlockLag)
  }

  lemma HighestUnique(c: map<nat, State>, h: U64)
    requires IsHighest(h, c)
    ensures h == Highest(c)
  {
  }

  /** The candidates are the backends fit for it whose latest block is within the tolerated lag of
      that of every other one fit for it. */
  lemma CandidatesIff(cfg: PollerConfig, backends: seq<BackendConfig>, states: seq<State>, healthy: nat -> bool, now: int, k: nat)
    requires |states| == |backends|
    ensures k in Candidates(cfg, backends, states, healthy, now) <==>
      && k < |backends| && Candidate(cfg, backends[k], states[k], healthy(k), now)
      && forall j | 0 <= j < |backends| && Candidate(cfg, backends[j], states[j], healthy(j), now) ::
           states[j].tags.latest <= states[k].tags.latest + cfg.maxBlockLag
    ensures k in Candidates(cfg, backends, states, healthy, now) ==>
      Candidates(cfg, backends, states, healthy, now)[k] == states[k]
  {
    var e := Eligible(cfg, backends, states, healthy, now);
    forall j | 0 <= j < |backends| && Candidate(cfg, backends[j], states[j], healthy(j), now)
      ensures j in e && e[j] == states[j] && states[j].tags.latest <= Highest(e) {
    }
  }

  /** Group minima. */

  datatype Tag = Latest | Safe | Finalized

  function Get(s: State, tag: Tag): U64 {
    match tag
    case Latest => s.tags.latest
    case Safe => s.tags.safe
    case Finalized => s.tags.finalized
  }

  /** `order` lists `keys`, each once. */
  ghost predicate Enumerates(order: seq<nat>, keys: set<nat>) {
    && (forall i, j | 0 <= i < j < |order| :: order[i] != order[j])
    && (forall k :: k in order <==> k in keys)
  }

  lemma {:induction false} Listing(keys: set<nat>) returns (order: seq<nat>)
    ensures Enumerates(order, keys)
    decreases keys
  {
    if keys == {} {
      order := [];
    } else {
      var k :| k in keys;
      order := Listing(keys - {k});
      order := Append(order, keys - {k}, k);
    }
  }

  lemma Append(rest: seq<nat>, keys: set<nat>, k: nat) returns (order: seq<nat>)
    requires Enumerates(rest, keys) && k !in keys
    ensures Enumerates(order, keys + {k}) && order == rest + [k]
  {
    order := rest + [k];
    forall i, j | 0 <= i < j < |order| ensures order[i] != order[j] {
      assert rest[i] in keys;
    }
  }

  function Offers(c: map<nat, State>, tag: Tag, order: seq<nat>): (xs: seq<nat>)
    requires forall k | k in order :: k in c
    ensures |xs| == |order| && forall i | 0 <= i < |xs| :: xs[i] == Get(c[order[i]], tag)
  {
    seq(|order|, i requires 0 <= i < |order| => Get(c[order[i]], tag))
  }

  /** What the loop over the candidates finds when it meets them in the given order. */
  function Lowest(c: map<nat, State>, tag: Tag, order: seq<nat>): nat
    requires forall k | k in order :: k in c
  {
    Fold(0, Offers(c, tag, order))
  }

  /** The hash that the loop keeps beside the lowest latest block. */
  function LowestHash(c: map<nat, State>, order: seq<nat>): string
    requires forall k | k in order :: k in c
    decreases |order|
  {
    if order == [] then ""
    else
      var init, s := order[..|order| - 1], c[order[|order| - 1]];
      var held := Lowest(c, Latest, init);
      if held == 0 || s.tags.latest < held then s.hash else LowestHash(c, init)
  }

  /** `m` is the least tag of the candidates. */
  ghost predicate IsMinimum(c: map<nat, State>, tag: Tag, m: nat) {
    && (exists k :: k in c && Get(c[k], tag) == m)
    && (forall k | k in c :: m <= Get(c[k], tag))
  }

  lemma LeastIsMinimum(c: map<nat, State>, tag: Tag, order: seq<nat>, m: nat)
    requires Enumerates(order, c.Keys)
    ensures IsLeast(m, Offers(c, tag, order)) <==> IsMinimum(c, tag, m)
  {
    var xs := Offers(c, tag, order);
    forall k | k in c ensures Get(c[k], tag) in xs {
      var i :| 0 <= i < |order| && order[i] == k;
      assert xs[i] == Get(c[k], tag);
    }
    forall x | x in xs ensures exists k :: k in c && Get(c[k], tag) == x {
      var i :| 0 <= i < |xs| && xs[i] == x;
      assert order[i] in c;
    }
  }

  /** Every order of the candidates yields the true minimum of a tag exactly when the tag is
      nowhere 0, or 0 everywhere. */
  lemma MinimumExactIff(c: map<nat, State>, tag: Tag)
    requires c != map[]
    ensures (forall order | Enumerates(order, c.Keys) :: IsMinimum(c, tag, Lowest(c, tag, order)))
       <==> ((forall k | k in c :: Get(c[k], tag) > 0) || (forall k | k in c :: Get(c[k], tag) == 0))
  {
    if (forall k | k in c :: Get(c[k], tag) > 0) || (forall k | k in c :: Get(c[k], tag) == 0) {
      forall order | Enumerates(order, c.Keys) ensures IsMinimum(c, tag, Lowest(c, tag, order)) {
        MinimumExact(c, tag, order);
      }
    } else {
      var order := MinimumMissed(c, tag);
    }
  }

  /** With one candidate that has the tag met last, a 0 met before it is forgotten. */
  lemma MinimumMissed(c: map<nat, State>, tag: Tag) returns (order: seq<nat>)
    requires exists z :: z in c && Get(c[z], tag) == 0
    requires exists k :: k in c && Get(c[k], tag) > 0
    ensures Enumerates(order, c.Keys) && !IsMinimum(c, tag, Lowest(c, tag, order))
  {
    var z :| z in c && Get(c[z], tag) == 0;
    var k :| k in c && Get(c[k], tag) > 0;
    var rest := Listing(c.Keys - {k});
    order := Append(rest, c.Keys - {k}, k);
    assert c.Keys - {k} + {k} == c.Keys;
    FoldLast(Offers(c, tag, order));
  }

  lemma MinimumExact(c: map<nat, State>, tag: Tag, order: seq<nat>)
    requires Enumerates(order, c.Keys) && c != map[]
    requires (forall k | k in c :: Get(c[k], tag) > 0) || (forall k | k in c :: Get(c[k], tag) == 0)
    ensures IsMinimum(c, tag, Lowest(c, tag, order))
  {
    var k :| k in c;
    assert k in order;
    var xs := Offers(c, tag, order);
    if 0 !in xs {
      FoldIsLeast(xs);
      LeastIsMinimum(c, tag, order, Fold(0, xs));
    } else {
      FoldLast(xs);
    }
  }

  /** Candidates that do not lag, when the chain is longer than the tolerated lag: the lowest
      latest block is the true minimum, is positive and is within the lag of the highest, and
      its hash is that of a candidate there, in whatever order the candidates are met. */
  lemma GroupMinimum(e: map<nat, State>, lag: U64, order: seq<nat>)
    requires Highest(e) > lag && Enumerates(order, Near(e, Highest(e), lag).Keys)
    ensures var c := Near(e, Highest(e), lag);
      var m := Lowest(c, Latest, order);
      && IsMinimum(c, Latest, m) && 0 < m <= Highest(e) <= m + lag
      && exists k :: k in c && c[k].tags.latest == m && c[k].hash == LowestHash(c, order)
  {
    var c := Near(e, Highest(e), lag);
    NearHighest(e, lag);
    MinimumExact(c, Latest, order);
    HashOfLowest(c, order);
  }

  lemma NearHighest(e: map<nat, State>, lag: U64)
    requires Highest(e) > lag
    ensures var c := Near(e, Highest(e), lag);
      c != map[] && forall k | k in c :: Get(c[k], Latest) > 0 && c[k].tags.latest <= Highest(e) <= c[k].tags.latest + lag
  {
    var k :| k in e && e[k].tags.latest == Highest(e);
    assert k in Near(e, Highest(e), lag);
  }

  lemma {:induction false} HashOfLowest(c: map<nat, State>, order: seq<nat>)
    requires order != [] && forall k | k in order :: k in c
    ensures exists k :: k in order && c[k].tags.latest == Lowest(c, Latest, order) && c[k].hash == LowestHash(c, order)
    decreases |order|
  {
    var init, k := order[..|order| - 1], order[|order| - 1];
    var xs := Offers(c, Latest, init);
    assert Offers(c, Latest, order) == xs + [Get(c[k], Latest)];
    FoldSnoc(0, xs, Get(c[k], Latest));
    var held := Lowest(c, Latest, init);
    if held == 0 || c[k].tags.latest < held {
      assert k in order && LowestHash(c, order) == c[k].hash;
    } else {
      HashOfLowest(c, init);
    }
  }

  /** With no latest block 0, the hash is that of the first candidate met with the lowest block. */
  lemma {:induction false} HashOfFirstLowest(c: map<nat, State>, order: seq<nat>, i: nat)
    requires (forall k | k in order :: k in c && c[k].tags.latest > 0) && i < |order|
    requires forall j | 0 <= j < i :: c[order[i]].tags.latest < c[order[j]].tags.latest
    requires forall j | i < j < |order| :: c[order[i]].tags.latest <= c[order[j]].tags.latest
    ensures Lowest(c, Latest, order) == c[order[i]].tags.latest && LowestHash(c, order) == c[order[i]].hash
    decreases |order|
  {
    var init, last := order[..|order| - 1], c[order[|order| - 1]];
    LowestAppend(c, Latest, order);
    if i < |init| {
      HashOfFirstLowest(c, init, i);
    } else if init != [] {
      HashOfLowest(c, init);
      var k :| k in init && c[k].tags.latest == Lowest(c, Latest, init);
      var j :| 0 <= j < |init| && init[j] == k;
      assert order[j] == k;
    }
  }

  /** Some candidate reports 0 for `lo` and not for `hi`, and some positive `hi` is below some
      `lo`. */
  ghost predicate Crossing(c: map<nat, State>, lo: Tag, hi: Tag) {
    && (exists z :: z in c && Get(c[z], lo) == 0 < Get(c[z], hi))
    && (exists x, b :: x in c && b in c && 0 < Get(c[x], hi) < Get(c[b], lo))
  }

  /** When every candidate has two tags in order, the group minima of the two come out in order,
      whatever the order the candidates are met in, exactly when nothing crosses. In particular
      they do when no candidate reports 0. */
  lemma MinimaInOrderIff(c: map<nat, State>, lo: Tag, hi: Tag)
    requires forall k | k in c :: Get(c[k], lo) <= Get(c[k], hi)
    ensures (forall order | Enumerates(order, c.Keys) :: Lowest(c, lo, order) <= Lowest(c, hi, order))
       <==> !Crossing(c, lo, hi)
  {
    if !Crossing(c, lo, hi) {
      forall order | Enumerates(order, c.Keys) ensures Lowest(c, lo, order) <= Lowest(c, hi, order) {
        MinimaInOrder(c, lo, hi, order);
      }
    } else {
      var z :| z in c && Get(c[z], lo) == 0 < Get(c[z], hi);
      var x, b :| x in c && b in c && 0 < Get(c[x], hi) < Get(c[b], lo);
      var order := CrossedOrder(c, lo, hi, z, x, b);
    }
  }

  lemma MinimaInOrder(c: map<nat, State>, lo: Tag, hi: Tag, order: seq<nat>)
    requires Enumerates(order, c.Keys) && forall k | k in c :: Get(c[k], lo) <= Get(c[k], hi)
    requires !Crossing(c, lo, hi)
    ensures Lowest(c, lo, order) <= Lowest(c, hi, order)
  {
    var xs, ys := Offers(c, lo, order), Offers(c, hi, order);
    assert forall i | 0 <= i < |order| :: order[i] in c;
    if exists z :: z in c && Get(c[z], lo) == 0 < Get(c[z], hi) {
      NoneBelow(xs, ys);
    } else {
      ZerosTogether(xs, ys);
    }
  }

  /** Met last, and in this order, `x`, `z` and `b` leave the minima the wrong way round. */
  lemma CrossedOrder(c: map<nat, State>, lo: Tag, hi: Tag, z: nat, x: nat, b: nat) returns (order: seq<nat>)
    requires forall k | k in c :: Get(c[k], lo) <= Get(c[k], hi)
    requires z in c && x in c && b in c && Get(c[z], lo) == 0 < Get(c[z], hi) && 0 < Get(c[x], hi) < Get(c[b], lo)
    ensures Enumerates(order, c.Keys) && Lowest(c, lo, order) > Lowest(c, hi, order)
  {
    var keys := c.Keys - {x, z, b};
    order := Listing(keys);
    if x != z {
      order := Append(order, keys, x);
      LowestAppend(c, hi, order);
      keys := keys + {x};
    }
    order := CrossedEnd(c, lo, hi, order, keys, z, b);
    assert keys + {z} + {b} == c.Keys;
  }

  lemma CrossedEnd(c: map<nat, State>, lo: Tag, hi: Tag, rest: seq<nat>, keys: set<nat>, z: nat, b: nat) returns (order: seq<nat>)
    requires Enumerates(rest, keys) && keys <= c.Keys && z in c && b in c && z !in keys && b !in keys && b != z
    requires Get(c[z], lo) == 0 < Get(c[z], hi) && 0 < Get(c[b], lo) <= Get(c[b], hi)
    requires 0 < Lowest(c, hi, rest) < Get(c[b], lo) || Get(c[z], hi) < Get(c[b], lo)
    ensures Enumerates(order, keys + {z} + {b})
    ensures forall k | k in order :: k in c
    ensures Lowest(c, lo, order) > Lowest(c, hi, order)
  {
    order := Append(rest, keys, z);
    LowestAppend(c, hi, order);
    LowestAppend(c, lo, order);
    order := Append(order, keys + {z}, b);
    LowestAppend(c, hi, order);
    LowestAppend(c, lo, order);
  }

  lemma LowestAppend(c: map<nat, State>, tag: Tag, order: seq<nat>)
    requires order != [] && forall k | k in order :: k in c
    ensures forall k | k in order[..|order| - 1] :: k in c
    ensures Lowest(c, tag, order) == Lower(Lowest(c, tag, order[..|order| - 1]), Get(c[order[|order| - 1]], tag))
  {
    var init, k := order[..|order| - 1], order[|order| - 1];
    assert Offers(c, tag, order) == Offers(c, tag, init) + [Get(c[k], tag)];
    FoldSnoc(0, Offers(c, tag, init), Get(c[k], tag));
  }

  /** The walk back. */

  /** The hash of a block that a backend answered with is never empty. */
  type Hash = s: string | s != "" witness "0x"

  /** What each candidate answers for each number; `None` when the request fails. */
  type Fetch = (nat, U64) -> Option<(U64, Hash)>

  /** All candidates that respond report number `n` with one hash, namely `hash` if that is
      known. */
  ghost predicate Agreed(keys: set<nat>, fetch: Fetch, n: U64, hash: string) {
    exists h: Hash :: AgreedOn(keys, fetch, n, h) && (hash == "" || hash == h)
  }

  ghost predicate AgreedOn(keys: set<nat>, fetch: Fetch, n: U64, h: Hash) {
    forall b | b in keys && fetch(b, n).Some? :: fetch(b, n).value == (n, h)
  }

  /** The number tried in round `k` of the walk and the hash known then. */
  function Tried(start: U64, k: nat): U64 {
    Wrap(start - k)
  }

  ghost predicate RoundAgrees(keys: set<nat>, fetch: Fetch, start: U64, hash: string, k: nat) {
    Agreed(keys, fetch, Tried(start, k), if k == 0 then hash else "")
  }

  /** The walk ends in round `k`. */
  ghost predicate EndsIn(keys: set<nat>, fetch: Fetch, start: U64, hash: string, k: nat) {
    RoundAgrees(keys, fetch, start, hash, k) && forall j: nat | j < k :: !RoundAgrees(keys, fetch, start, hash, j)
  }

  ghost predicate SomewhereAgreed(keys: set<nat>, fetch: Fetch) {
    exists m: U64 :: Agreed(keys, fetch, m, "")
  }

  /** The walk ends exactly when the candidates agree on some block at all. */
  lemma WalkEndsIff(keys: set<nat>, fetch: Fetch, start: U64, hash: string)
    ensures (exists k: nat :: EndsIn(keys, fetch, start, hash, k)) <==> SomewhereAgreed(keys, fetch)
  {
    if SomewhereAgreed(keys, fetch) {
      var m: U64 :| Agreed(keys, fetch, m, "");
      var k := if m < start then start - m else start + TWO_64 - m;
      assert Tried(start, k) == m;
      assert RoundAgrees(keys, fetch, start, hash, k);
      var first := FirstRound(keys, fetch, start, hash, k);
    }
    if k: nat :| EndsIn(keys, fetch, start, hash, k) {
      AgreedAnyway(keys, fetch, Tried(start, k), if k == 0 then hash else "");
    }
  }

  lemma AgreedAnyway(keys: set<nat>, fetch: Fetch, n: U64, hash: string)
    requires Agreed(keys, fetch, n, hash)
    ensures Agreed(keys, fetch, n, "")
  {
  }

  lemma {:induction false} FirstRound(keys: set<nat>, fetch: Fetch, start: U64, hash: string, k: nat) returns (first: nat)
    requires RoundAgrees(keys, fetch, start, hash, k)
    ensures first <= k && EndsIn(keys, fetch, start, hash, first)
  {
    if j: nat :| j < k && RoundAgrees(keys, fetch, start, hash, j) {
      first := FirstRound(keys, fetch, start, hash, j);
    } else {
      first := k;
    }
  }

  /** Block `n` may be where the walk from `start` ends: the candidates agree on it, and at the
      start on the hash known there. */
  ghost predicate Common(keys: set<nat>, fetch: Fetch, start: U64, hash: string, n: U64) {
    Agreed(keys, fetch, n, if n == start then hash else "")
  }

  /** The walk ends at the greatest common block not above its start, if there is one. Agreement
      on block 0 is enough for that, unless the walk starts there. */
  lemma WalkIsOptimal(keys: set<nat>, fetch: Fetch, start: U64, hash: string, k: nat)
    requires EndsIn(keys, fetch, start, hash, k)
    requires exists m: U64 :: m <= start && Common(keys, fetch, start, hash, m)
    ensures var n := Tried(start, k);
      && n == start - k && Common(keys, fetch, start, hash, n)
      && forall m: U64 | n < m <= start :: !Common(keys, fetch, start, hash, m)
  {
    var m: U64 :| m <= start && Common(keys, fetch, start, hash, m);
    assert Tried(start, start - m) == m && RoundAgrees(keys, fetch, start, hash, start - m);
    assert k <= start - m;
    forall m: U64 | start - k < m <= start ensures !Common(keys, fetch, start, hash, m) {
      assert Tried(start, start - m) == m && !RoundAgrees(keys, fetch, start, hash, start - m);
    }
  }

  /** Otherwise the number wraps around below 0, and the walk ends at the greatest block the
      candidates agree on at all, at or above its start. */
  lemma WalkWraps(keys: set<nat>, fetch: Fetch, start: U64, hash: string, k: nat)
    requires EndsIn(keys, fetch, start, hash, k)
    requires forall m: U64 | m <= start :: !Common(keys, fetch, start, hash, m)
    ensures var n := Tried(start, k);
      && n >= start && k > start && Agreed(keys, fetch, n, "")
      && forall m: U64 | m > n :: !Agreed(keys, fetch, m, "")
  {
    if k <= start {
      assert Tried(start, k) == start - k;
      assert Common(keys, fetch, start, hash, Tried(start, k));
    }
    assert k <= TWO_64 by {
      if k > TWO_64 {
        OneLap(keys, fetch, start, hash, k);
        assert false;
      }
    }
    assert Tried(start, k) == start + TWO_64 - k;
    forall m: U64 | m > Tried(start, k) ensures !Agreed(keys, fetch, m, "") {
      assert Tried(start, start + TWO_64 - m) == m;
      assert !RoundAgrees(keys, fetch, start, hash, start + TWO_64 - m);
    }
  }

  lemma OneLap(keys: set<nat>, fetch: Fetch, start: U64, hash: string, k: nat)
    requires k > TWO_64
    ensures RoundAgrees(keys, fetch, start, hash, k - TWO_64) == RoundAgrees(keys, fetch, start, hash, k)
  {
  }

  /** Every answer carries the number that was asked for. */
  ghost predicate AnswersAsked(keys: set<nat>, fetch: Fetch) {
    forall b, n: U64 | b in keys && fetch(b, n).Some? :: fetch(b, n).value.0 == n
  }

  /** A round before the last one tried a number that had been the group's consensus. */
  ghost predicate BreaksConsensus(start: U64, current: U64, k: nat) {
    exists j: nat :: j < k && current >= Tried(start, j)
  }

  /** Consensus is broken exactly when the walk ends below both its start and the previous
      consensus block, unless it wrapped around. */
  lemma BrokenIff(start: U64, current: U64, k: nat)
    requires k <= start
    ensures BreaksConsensus(start, current, k) <==> Tried(start, k) < start && Tried(start, k) < current
  {
    assert Tried(start, k) == start - k;
    if k > 0 {
      assert Tried(start, k - 1) == start - k + 1;
      assert current > start - k ==> BreaksConsensus(start, current, k);
    }
    if BreaksConsensus(start, current, k) {
      var j: nat :| j < k && current >= Tried(start, j);
      assert Tried(start, j) == start - j;
    }
  }
}
