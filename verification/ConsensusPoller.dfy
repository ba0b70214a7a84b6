/** The consensus poller object. Where the source ranges over a map, the methods take the
    entries in an arbitrary order. */
module ConsensusPollers {
  import opened Options
  import opened Words
  import opened SentinelMin
  import opened PollerBackend
  import opened PollerGroup

  class BackendState {
    var latestBlockNumber: U64
    var latestBlockHash: string
    var safeBlockNumber: U64
    var finalizedBlockNumber: U64
    var peerCount: U64
    var inSync: bool
    var lastUpdate: int
    var bannedUntil: int

    function View(): State
      reads this
    {
      State(Tags(latestBlockNumber, safeBlockNumber, finalizedBlockNumber),
            latestBlockHash, peerCount, inSync, lastUpdate, bannedUntil)
    }

    constructor ()
      ensures View() == FRESH
    {
      latestBlockNumber, latestBlockHash, safeBlockNumber, finalizedBlockNumber := 0, "", 0, 0;
      peerCount, inSync, lastUpdate, bannedUntil := 0, false, 0, 0;
    }
  }

  class ConsensusPoller {
    const cfg: PollerConfig
    const backends: seq<BackendConfig>
    var backendState: seq<BackendState>
    /** The places of the backends in agreement. */
    var consensusGroup: seq<nat>
    /** The tracker, and how often the listeners were told that consensus is broken. */
    var latest: U64
    var safe: U64
    var finalized: U64
    var told: nat

    ghost predicate Valid()
      reads this
    {
      && |backendState| == |backends|
      && forall i, j | 0 <= i < j < |backends| :: backendState[i] != backendState[j]
    }

    function View(): (states: seq<State>)
      reads this, backendState
      ensures |states| == |backendState|
    {
      seq(|backendState|, i requires 0 <= i < |backendState| reads this, backendState => backendState[i].View())
    }

    constructor (cfg: PollerConfig, backends: seq<BackendConfig>)
      ensures Valid() && this.cfg == cfg && this.backends == backends
      ensures View() == seq(|backends|, _ => FRESH) && consensusGroup == [] && latest == safe == finalized == told == 0
    {
      this.cfg := cfg;
      this.backends := backends;
      backendState, consensusGroup, latest, safe, finalized, told := [], [], 0, 0, 0, 0;
      new;
      Reset();
    }

    method Reset()
      modifies this`backendState
      ensures Valid() && fresh(backendState)
      ensures View() == seq(|backends|, _ => FRESH)
    {
      var states: seq<BackendState> := [];
      for i := 0 to |backends|
        invariant |states| == i && fresh(states)
        invariant forall j, k | 0 <= j < k < i :: states[j] != states[k]
        invariant forall j | 0 <= j < i :: states[j].View() == FRESH
      {
        var bs := new BackendState();
        states := states + [bs];
      }
      backendState := states;
    }

    method Ban(i: nat, now: int)
      requires Valid() && i < |backends|
      modifies backendState[i]
      ensures View() == old(View())[i := Step(cfg, backends[i], old(View())[i], Op.Ban(now))]
    {
      if backends[i].forced {
        return;
      }
      var bs := backendState[i];
      bs.bannedUntil := now + cfg.banPeriod;
      bs.latestBlockNumber := 0;
      bs.safeBlockNumber := 0;
      bs.finalizedBlockNumber := 0;
    }

    method Unban(i: nat, now: int)
      requires Valid() && i < |backends|
      modifies backendState[i]
      ensures View() == old(View())[i := Step(cfg, backends[i], old(View())[i], Op.Unban(now))]
    {
      backendState[i].bannedUntil := now - TEN_HOURS;
    }

    method SetBackendState(i: nat, now: int, peerCount: U64, inSync: bool, latest: U64, hash: string, safe: U64, finalized: U64)
      requires Valid() && i < |backends|
      modifies backendState[i]
      ensures View() == old(View())[i :=
        State(Tags(latest, safe, finalized), hash, peerCount, inSync, now, old(View())[i].bannedUntil)]
    {
      var bs := backendState[i];
      bs.peerCount := peerCount;
      bs.inSync := inSync;
      bs.latestBlockNumber := latest;
      bs.latestBlockHash := hash;
      bs.finalizedBlockNumber := finalized;
      bs.safeBlockNumber := safe;
      bs.lastUpdate := now;
    }

    method UpdateBackend(i: nat, now: int, report: Report)
      requires Valid() && i < |backends|
      modifies backendState[i]
      ensures View() == old(View())[i := Step(cfg, backends[i], old(View())[i], Update(now, report))]
    {
      var before := backendState[i].View();
      if now < before.bannedUntil {
        return;
      }
      if !report.healthy && !backends[i].forced {
        Ban(i, now);
        return;
      }
      var inSync := report.inSync == Some(true);
      var peerCount := 0;
      if !backends[i].skipPeerCountCheck {
        peerCount := OrZero(report.peers);
      }
      var tags := TagsOf(report);
      var hash := if report.latest.Some? then report.latest.value.1 else "";
      SetBackendState(i, now, peerCount, inSync, tags.latest, hash, tags.safe, tags.finalized);
      if !Expected(before.tags, tags) && !backends[i].forced {
        Ban(i, now);
      }
    }

    method GetConsensusCandidates(healthy: nat -> bool, now: int) returns (candidates: map<nat, State>)
      requires Valid()
      ensures candidates == Candidates(cfg, backends, View(), healthy, now)
    {
      candidates := FilterBackends(healthy, now);
      candidates := DropLagging(candidates);
    }

    method DropLagging(eligible: map<nat, State>) returns (candidates: map<nat, State>)
      ensures candidates == Near(eligible, Highest(eligible), cfg.maxBlockLag)
    {
      var highest := HighestLatest(eligible);
      candidates := RemoveLagging(eligible, highest);
    }

    method FilterBackends(healthy: nat -> bool, now: int) returns (candidates: map<nat, State>)
      requires Valid()
      ensures candidates == Eligible(cfg, backends, View(), healthy, now)
    {
      candidates := map[];
      for i := 0 to |backends|
        invariant candidates == map k: nat | k < i && Candidate(cfg, backends[k], View()[k], healthy(k), now) :: View()[k]
      {
        var be, bs := backends[i], backendState[i].View();
        if be.forced {
          candidates := candidates[i := bs];
          continue;
        }
        if now < bs.bannedUntil {
          continue;
        }
        if !healthy(i) {
          continue;
        }
        if !be.skipPeerCountCheck && bs.peerCount < cfg.minPeerCount {
          continue;
        }
        if !bs.inSync {
          continue;
        }
        if bs.lastUpdate + cfg.maxUpdateThreshold < now {
          continue;
        }
        candidates := candidates[i := bs];
      }
    }

    method HighestLatest(candidates: map<nat, State>) returns (highest: U64)
      ensures highest == Highest(candidates)
    {
      highest := 0;
      var todo := candidates.Keys;
      while todo != {}
        invariant todo <= candidates.Keys
        invariant forall k | k in candidates.Keys - todo :: candidates[k].tags.latest <= highest
        invariant highest == 0 || exists k :: k in candidates && candidates[k].tags.latest == highest
      {
        var k :| k in todo;
        todo := todo - {k};
        if candidates[k].tags.latest > highest {
          highest := candidates[k].tags.latest;
        }
      }
      HighestUnique(candidates, highest);
    }

    method RemoveLagging(candidates: map<nat, State>, highest: U64) returns (rest: map<nat, State>)
      ensures rest == Near(candidates, highest, cfg.maxBlockLag)
    {
      rest := candidates;
      var todo := candidates.Keys;
      while todo != {}
        invariant todo <= candidates.Keys
        invariant rest == map k | k in candidates && (k in todo || Wrap(highest - candidates[k].tags.latest) <= cfg.maxBlockLag) :: candidates[k]
      {
        var k :| k in todo;
        todo := todo - {k};
        if Wrap(highest - candidates[k].tags.latest) > cfg.maxBlockLag {
          rest := rest - {k};
        }
      }
    }

    /** The three minima in one loop. */
    method LowestOf(candidates: map<nat, State>)
      returns (latest: nat, hash: string, finalized: nat, safe: nat, ghost order: seq<nat>)
      ensures Minima(candidates, candidates.Keys, order, latest, hash, finalized, safe)
      ensures exists met: seq<nat> :: Minima(candidates, candidates.Keys, met, latest, hash, finalized, safe)
    {
      latest, hash, finalized, safe, order := 0, "", 0, 0, [];
      var todo := candidates.Keys;
      while todo != {}
        invariant todo <= candidates.Keys
        invariant Minima(candidates, candidates.Keys - todo, order, latest, hash, finalized, safe)
      {
        var k :| k in todo;
        var bs := candidates[k];
        ghost var done := candidates.Keys - todo;
        order := MinimaNext(candidates, done, order, latest, hash, finalized, safe, k);
        if latest == 0 || bs.tags.latest < latest {
          latest := bs.tags.latest;
          hash := bs.hash;
        }
        if finalized == 0 || bs.tags.finalized < finalized {
          finalized := bs.tags.finalized;
        }
        if safe == 0 || bs.tags.safe < safe {
          safe := bs.tags.safe;
        }
        todo := todo - {k};
        assert candidates.Keys - todo == done + {k};
      }
      assert candidates.Keys - todo == candidates.Keys;
    }

    /** Ask the candidates for block `n` until one of them does not match. */
    method Round(keys: set<nat>, fetch: Fetch, n: U64, hash: string, current: U64)
      returns (agreed: bool, broken: bool, hash': string)
      ensures agreed <==> Agreed(keys, fetch, n, hash)
      ensures agreed ==> !broken && AgreedHash(keys, fetch, n, hash, hash')
      ensures AnswersAsked(keys, fetch) ==> (broken <==> !agreed && current >= n)
    {
      broken, hash' := false, hash;
      var todo := keys;
      while todo != {}
        invariant todo <= keys && !broken && Known(keys - todo, fetch, n, hash, hash')
      {
        var b :| b in todo;
        var answer := fetch(b, n);
        if answer.Some? {
          var (number, actual) := answer.value;
          var known := hash';
          if hash' == "" {
            hash' := actual;
          }
          if number != n || actual != hash' {
            OneMismatch(keys, fetch, n, hash, known, todo, b);
            return false, current >= number, hash';
          }
        }
        todo := todo - {b};
      }
      assert keys - todo == keys;
      KnownAgrees(keys, fetch, n, hash, hash');
      agreed := true;
    }

    /** The walk back. It is only called when the candidates agree somewhere: otherwise the
        source's loop does not end, see `WalkEndsIff`. */
    method Walk(keys: set<nat>, fetch: Fetch, start: U64, hash: string, current: U64)
      returns (n: U64, hash': string, broken: bool, ghost k: nat)
      requires SomewhereAgreed(keys, fetch)
      ensures EndsIn(keys, fetch, start, hash, k) && n == Tried(start, k)
      ensures exists j: nat :: EndsIn(keys, fetch, start, hash, j) && n == Tried(start, j)
      ensures AgreedHash(keys, fetch, n, if k == 0 then hash else "", hash')
      ensures AnswersAsked(keys, fetch) ==> (broken <==> BreaksConsensus(start, current, k))
    {
      WalkEndsIff(keys, fetch, start, hash);
      ghost var last: nat :| EndsIn(keys, fetch, start, hash, last);
      var b, hasConsensus;
      n, broken, k := start, false, 0;
      hasConsensus, broken, hash' := Round(keys, fetch, n, hash, current);
      while !hasConsensus
        invariant n == Tried(start, k) && k <= last
        invariant hasConsensus <==> RoundAgrees(keys, fetch, start, hash, k)
        invariant hasConsensus ==> AgreedHash(keys, fetch, n, if k == 0 then hash else "", hash')
        invariant forall j: nat | j < k :: !RoundAgrees(keys, fetch, start, hash, j)
        invariant AnswersAsked(keys, fetch) ==>
          (broken <==> BreaksConsensus(start, current, if hasConsensus then k else k + 1))
        decreases last - k, !hasConsensus
      {
        TriedNext(start, k);
        n := Wrap(n - 1);
        k := k + 1;
        BreaksNext(start, current, k);
        hasConsensus, b, hash' := Round(keys, fetch, n, "", current);
        broken := broken || b;
      }
    }

    /** What the three minima, the walk and the listeners come to, for candidates `c` met in
        `order` and a walk of `k` rounds. */
    function Tracked(): Tracker
      reads this
    {
      Tracker(latest, safe, finalized, told)
    }

    method UpdateBackendGroupConsensus(healthy: nat -> bool, now: int, fetch: Fetch)
      returns (ghost c: map<nat, State>, ghost order: seq<nat>, ghost k: nat)
      requires Valid()
      requires var c := Candidates(cfg, backends, View(), healthy, now);
        NothingProposed(c) || SomewhereAgreed(c.Keys, fetch)
      modifies this`consensusGroup, this`latest, this`safe, this`finalized, this`told
      ensures c == Candidates(cfg, backends, old(View()), healthy, now)
      ensures Resolved(c, fetch, order, k, old(Tracked()), Tracked()) && consensusGroup == Members(|backends|, c.Keys)
    {
      var candidates := GetConsensusCandidates(healthy, now);
      c := candidates;
      order, k := Resolve(candidates, fetch);
      SetGroup(candidates.Keys);
    }

    method Resolve(candidates: map<nat, State>, fetch: Fetch) returns (ghost order: seq<nat>, ghost k: nat)
      requires NothingProposed(candidates) || SomewhereAgreed(candidates.Keys, fetch)
      modifies this`latest, this`safe, this`finalized, this`told
      ensures Resolved(candidates, fetch, order, k, old(Tracked()), Tracked())
    {
      var lowest, hash, lowestFinalized, lowestSafe;
      lowest, hash, lowestFinalized, lowestSafe, order := LowestOf(candidates);
      LowestFits(candidates, Latest, order);
      LowestFits(candidates, Finalized, order);
      LowestFits(candidates, Safe, order);
      var proposed, broken := lowest, false;
      k := 0;
      if proposed > 0 {
        LowestOffered(candidates, order);
        proposed, hash, broken, k := Walk(candidates.Keys, fetch, lowest, hash, latest);
      }
      if broken {
        told := told + 1;
      }
      latest := proposed;
      safe := lowestSafe;
      finalized := lowestFinalized;
    }

    method SetGroup(keys: set<nat>)
      modifies this`consensusGroup
      ensures consensusGroup == Members(|backends|, keys)
    {
      consensusGroup := [];
      for i := 0 to |backends|
        invariant consensusGroup == Members(i, keys)
      {
        if i in keys {
          consensusGroup := consensusGroup + [i];
        }
      }
    }
  }

  /** What is known of the consensus, and how often the listeners were told that it is broken. */
  datatype Tracker = Tracker(latest: U64, safe: U64, finalized: U64, told: nat)

  /** What the candidates `c`, met in `order`, make of the tracker; the walk takes `k` further rounds. */
  ghost predicate Resolved(c: map<nat, State>, fetch: Fetch, order: seq<nat>, k: nat, was: Tracker, now: Tracker) {
    && Enumerates(order, c.Keys)
    && now.safe == Lowest(c, Safe, order) && now.finalized == Lowest(c, Finalized, order)
    && var start := Lowest(c, Latest, order);
    && start < TWO_64
    && if start == 0 then now.latest == 0 && now.told == was.told
       else
         && EndsIn(c.Keys, fetch, start, LowestHash(c, order), k) && now.latest == Tried(start, k)
         && (AnswersAsked(c.Keys, fetch) ==>
               now.told == was.told + if BreaksConsensus(start, was.latest, k) then 1 else 0)
  }

  /** What that means when there are candidates and none reports a 0: safe and finalized are the
      lowest that any of them reports, so that they are in order if all reports are. */
  lemma GroupMinima(c: map<nat, State>, fetch: Fetch, order: seq<nat>, k: nat, was: Tracker, now: Tracker)
    requires Resolved(c, fetch, order, k, was, now) && c != map[]
    requires forall b | b in c :: c[b].tags.safe > 0 && c[b].tags.finalized > 0
    ensures exists b :: b in c && c[b].tags.safe == now.safe
    ensures exists b :: b in c && c[b].tags.finalized == now.finalized
    ensures forall b | b in c :: now.safe <= c[b].tags.safe && now.finalized <= c[b].tags.finalized
    ensures (forall b | b in c :: Ordered(c[b].tags)) ==> now.finalized <= now.safe
  {
    var x := SafeMinimum(c, order, now.safe);
    var y := FinalizedMinimum(c, order, now.finalized);
  }

  lemma SafeMinimum(c: map<nat, State>, order: seq<nat>, m: nat) returns (b: nat)
    requires Enumerates(order, c.Keys) && c != map[] && m == Lowest(c, Safe, order)
    requires forall k | k in c :: c[k].tags.safe > 0
    ensures b in c && c[b].tags.safe == m && forall k | k in c :: m <= c[k].tags.safe
  {
    MinimumExact(c, Safe, order);
    b :| b in c && Get(c[b], Safe) == m;
    assert forall k | k in c :: m <= Get(c[k], Safe);
  }

  lemma FinalizedMinimum(c: map<nat, State>, order: seq<nat>, m: nat) returns (b: nat)
    requires Enumerates(order, c.Keys) && c != map[] && m == Lowest(c, Finalized, order)
    requires forall k | k in c :: c[k].tags.finalized > 0
    ensures b in c && c[b].tags.finalized == m && forall k | k in c :: m <= c[k].tags.finalized
  {
    MinimumExact(c, Finalized, order);
    b :| b in c && Get(c[b], Finalized) == m;
    assert forall k | k in c :: m <= Get(c[k], Finalized);
  }

  /** And the latest block is one that all candidates that respond report with one hash; it is not
      above the latest block of any, unless they agree on none there and the walk went below 0. */
  lemma GroupLatest(c: map<nat, State>, fetch: Fetch, order: seq<nat>, k: nat, was: Tracker, now: Tracker)
    requires Resolved(c, fetch, order, k, was, now) && c != map[]
    requires forall b | b in c :: c[b].tags.latest > 0
    ensures exists h: Hash :: forall b | b in c && fetch(b, now.latest).Some? :: fetch(b, now.latest).value == (now.latest, h)
    ensures (forall b | b in c :: now.latest <= c[b].tags.latest)
      || forall m: U64 | m <= Lowest(c, Latest, order) ::
           !Common(c.Keys, fetch, Lowest(c, Latest, order), LowestHash(c, order), m)
  {
    var start, hash := Lowest(c, Latest, order), LowestHash(c, order);
    var b := LatestMinimum(c, order, start);
    assert RoundAgrees(c.Keys, fetch, start, hash, k);
    var h: Hash :| AgreedOn(c.Keys, fetch, now.latest, h);
    assert forall b | b in c && fetch(b, now.latest).Some? :: fetch(b, now.latest).value == (now.latest, h);
    if exists m: U64 :: m <= start && Common(c.Keys, fetch, start, hash, m) {
      WalkIsOptimal(c.Keys, fetch, start, hash, k);
    }
  }

  lemma LatestMinimum(c: map<nat, State>, order: seq<nat>, m: nat) returns (b: nat)
    requires Enumerates(order, c.Keys) && c != map[] && m == Lowest(c, Latest, order)
    requires forall k | k in c :: c[k].tags.latest > 0
    ensures b in c && c[b].tags.latest == m && forall k | k in c :: m <= c[k].tags.latest
  {
    MinimumExact(c, Latest, order);
    b :| b in c && Get(c[b], Latest) == m;
    assert forall k | k in c :: m <= Get(c[k], Latest);
  }

  /** What the loop over the candidates holds when it has met `keys` in the given order. */
  ghost predicate Minima(c: map<nat, State>, keys: set<nat>, order: seq<nat>, latest: nat, hash: string, finalized: nat, safe: nat) {
    && keys <= c.Keys && Enumerates(order, keys)
    && latest == Lowest(c, Latest, order) && hash == LowestHash(c, order)
    && finalized == Lowest(c, Finalized, order) && safe == Lowest(c, Safe, order)
  }

  lemma MinimaNext(c: map<nat, State>, keys: set<nat>, before: seq<nat>, latest: nat, hash: string, finalized: nat, safe: nat, k: nat)
    returns (order: seq<nat>)
    requires Minima(c, keys, before, latest, hash, finalized, safe) && k in c && k !in keys
    ensures var tags := c[k].tags;
      Minima(c, keys + {k}, order, Lower(latest, tags.latest), if latest == 0 || tags.latest < latest then c[k].hash else hash,
             Lower(finalized, tags.finalized), Lower(safe, tags.safe))
  {
    order := Append(before, keys, k);
    assert order[..|order| - 1] == before;
    LowestAppend(c, Latest, order);
    LowestAppend(c, Finalized, order);
    LowestAppend(c, Safe, order);
  }

  lemma TriedNext(start: U64, k: nat)
    ensures Wrap(Tried(start, k) - 1) == Tried(start, k + 1)
  {
  }

  lemma BreaksNext(start: U64, current: U64, k: nat)
    ensures BreaksConsensus(start, current, k + 1) <==> BreaksConsensus(start, current, k) || current >= Tried(start, k)
  {
  }

  /** The members of `keys` below `n`, in order. */
  function Members(n: nat, keys: set<nat>): (group: seq<nat>)
    ensures forall k :: k in group <==> k < n && k in keys
    ensures forall i, j | 0 <= i < j < |group| :: group[i] < group[j]
  {
    if n == 0 then []
    else
      var group := Members(n - 1, keys);
      assert forall j | 0 <= j < |group| :: group[j] in group;
      if n - 1 in keys then group + [n - 1] else group
  }

  /** No candidate knows a block, so that in no order there is one to propose. */
  predicate NothingProposed(c: map<nat, State>) {
    forall k | k in c :: c[k].tags.latest == 0
  }

  lemma LowestOffered(c: map<nat, State>, order: seq<nat>)
    requires (forall k | k in order :: k in c) && Lowest(c, Latest, order) > 0
    ensures !NothingProposed(c)
  {
    FoldLast(Offers(c, Latest, order));
    assert order[|order| - 1] in c;
  }

  lemma LowestFits(c: map<nat, State>, tag: Tag, order: seq<nat>)
    requires forall k | k in order :: k in c
    ensures Lowest(c, tag, order) < TWO_64
  {
    if order != [] {
      FoldLast(Offers(c, tag, order));
    }
  }

  /** The hash a successful round leaves behind: everybody who responded reports it. */
  ghost predicate AgreedHash(keys: set<nat>, fetch: Fetch, n: U64, hash: string, hash': string) {
    && (hash != "" ==> hash' == hash)
    && (forall b | b in keys && fetch(b, n).Some? :: fetch(b, n).value == (n, hash'))
  }

  /** What a round knows after asking `asked`. */
  ghost predicate Known(asked: set<nat>, fetch: Fetch, n: U64, hash: string, known: string) {
    && AgreedHash(asked, fetch, n, hash, known)
    && (hash == "" && known != "" ==> exists b :: b in asked && fetch(b, n).Some?)
  }

  lemma KnownAgrees(keys: set<nat>, fetch: Fetch, n: U64, hash: string, known: string)
    requires Known(keys, fetch, n, hash, known)
    ensures Agreed(keys, fetch, n, hash)
  {
    var h: Hash := if known == "" then "0x" else known;
    assert AgreedOn(keys, fetch, n, h);
  }

  /** One answer that does not match rules agreement out. */
  lemma OneMismatch(keys: set<nat>, fetch: Fetch, n: U64, hash: string, known: string, todo: set<nat>, b: nat)
    requires todo <= keys && Known(keys - todo, fetch, n, hash, known) && b in todo && fetch(b, n).Some?
    requires fetch(b, n).value.0 != n || (known != "" && fetch(b, n).value.1 != known)
    ensures !Agreed(keys, fetch, n, hash)
  {
  }
}
