/** One backend as the consensus poller sees it: updates, bans and resets as steps at a clock
    time. */
module PollerBackend {
  import opened Options
  import opened Words

  /** Times and durations are counted in nanoseconds; a state that was never set holds time 0. */
  datatype PollerConfig = PollerConfig(
    banPeriod: nat,
    maxUpdateThreshold: nat,
    maxBlockLag: U64,
    minPeerCount: U64)

  datatype BackendConfig = BackendConfig(forced: bool, skipPeerCountCheck: bool)

  /** What the poller asked a backend in one round; `None` stands for a request that failed. */
  datatype Report = Report(
    healthy: bool,
    inSync: Option<bool>,
    peers: Option<U64>,
    latest: Option<(U64, string)>,
    safe: Option<U64>,
    finalized: Option<U64>)

  datatype Tags = Tags(latest: U64, safe: U64, finalized: U64)

  const NO_TAGS: Tags := Tags(0, 0, 0)

  datatype State = State(
    tags: Tags,
    hash: string,
    peerCount: U64,
    inSync: bool,
    lastUpdate: int,
    bannedUntil: int)

  const FRESH: State := State(NO_TAGS, "", 0, false, 0, 0)

  const TEN_HOURS: nat := 36_000_000_000_000

  function OrZero(x: Option<U64>): U64 {
    if x.Some? then x.value else 0
  }

  /** A tag that could not be fetched counts as 0. */
  function TagsOf(r: Report): Tags {
    Tags(if r.latest.Some? then r.latest.value.0 else 0, OrZero(r.safe), OrZero(r.finalized))
  }

  predicate Ordered(t: Tags) {
    t.finalized <= t.safe <= t.latest
  }

  /** The tags are in order and neither safe nor finalized went back. */
  predicate Expected(old': Tags, new': Tags) {
    new'.finalized >= old'.finalized && new'.safe >= old'.safe && Ordered(new')
  }

  datatype Op =
    | Update(now: int, report: Report)
    | Ban(now: int)
    | Unban(now: int)
    | Reset(now: int)

  function SetState(be: BackendConfig, s: State, now: int, r: Report): State {
    State(TagsOf(r), if r.latest.Some? then r.latest.value.1 else "",
          if be.skipPeerCountCheck then 0 else OrZero(r.peers), r.inSync == Some(true), now, s.bannedUntil)
  }

  function BanState(cfg: PollerConfig, be: BackendConfig, s: State, now: int): State {
    if be.forced then s else s.(bannedUntil := now + cfg.banPeriod, tags := NO_TAGS)
  }

  function Step(cfg: PollerConfig, be: BackendConfig, s: State, op: Op): State {
    match op
    case Update(now, r) =>
      if now < s.bannedUntil then s
      else if !r.healthy && !be.forced then BanState(cfg, be, s, now)
      else
        var s' := SetState(be, s, now, r);
        if Expected(s.tags, TagsOf(r)) then s' else BanState(cfg, be, s', now)
    case Ban(now) => BanState(cfg, be, s, now)
    case Unban(now) => s.(bannedUntil := now - TEN_HOURS)
    case Reset(_) => FRESH
  }

  function Run(cfg: PollerConfig, be: BackendConfig, ops: seq<Op>): State {
    if ops == [] then FRESH
    else Step(cfg, be, Run(cfg, be, ops[..|ops| - 1]), ops[|ops| - 1])
  }

  /** The step bans the backend. */
  predicate Bans(be: BackendConfig, s: State, op: Op) {
    && !be.forced
    && match op
       case Ban(_) => true
       case Update(now, r) => now >= s.bannedUntil && (!r.healthy || !Expected(s.tags, TagsOf(r)))
       case _ => false
  }

  /** The step is an update whose report was taken over. */
  predicate Accepts(be: BackendConfig, s: State, op: Op) {
    op.Update? && op.now >= s.bannedUntil && (be.forced || (op.report.healthy && Expected(s.tags, TagsOf(op.report))))
  }

  /** The conditions on a candidate other than not lagging behind. */
  predicate Candidate(cfg: PollerConfig, be: BackendConfig, s: State, healthy: bool, now: int) {
    be.forced ||
    (now >= s.bannedUntil && healthy && (be.skipPeerCountCheck || s.peerCount >= cfg.minPeerCount) &&
     s.inSync && now <= s.lastUpdate + cfg.maxUpdateThreshold)
  }

  /** The tags of a backend are in order on every run exactly when it is not a forced candidate. */
  lemma TagsOrderedIff(cfg: PollerConfig, be: BackendConfig)
    ensures (forall ops :: Ordered(Run(cfg, be, ops).tags)) <==> !be.forced
  {
    if be.forced {
      ForcedUnordered(cfg, be);
    } else {
      forall ops ensures Ordered(Run(cfg, be, ops).tags) {
        TagsOrdered(cfg, be, ops);
      }
    }
  }

  lemma ForcedUnordered(cfg: PollerConfig, be: BackendConfig)
    requires be.forced
    ensures exists ops :: !Ordered(Run(cfg, be, ops).tags)
  {
    var op := Update(0, Report(true, None, None, None, Some(1), None));
    var ops := [op];
    assert ops[..|ops| - 1] == [];
    assert Run(cfg, be, []) == FRESH;
    assert Run(cfg, be, ops) == Step(cfg, be, FRESH, op);
    assert !Ordered(Run(cfg, be, ops).tags);
  }

  lemma {:induction false} TagsOrdered(cfg: PollerConfig, be: BackendConfig, ops: seq<Op>)
    requires !be.forced
    ensures Ordered(Run(cfg, be, ops).tags)
  {
    if ops != [] {
      TagsOrdered(cfg, be, ops[..|ops| - 1]);
    }
  }

  /** Between bans neither safe nor finalized ever decreases. */
  lemma {:induction false} TagsGrowBetweenBans(cfg: PollerConfig, be: BackendConfig, ops: seq<Op>, i: nat)
    requires !be.forced && i <= |ops|
    requires forall k | i <= k < |ops| :: !Bans(be, Run(cfg, be, ops[..k]), ops[k]) && !ops[k].Reset?
    ensures var s, s' := Run(cfg, be, ops[..i]), Run(cfg, be, ops);
      s.tags.safe <= s'.tags.safe && s.tags.finalized <= s'.tags.finalized
    decreases |ops|
  {
    if i == |ops| {
      assert ops[..i] == ops;
    } else {
      var before := ops[..|ops| - 1];
      assert forall k | 0 <= k <= |before| :: before[..k] == ops[..k];
      TagsGrowBetweenBans(cfg, be, before, i);
    }
  }

  /** A step that bans leaves no tag standing, so that the backend may come back at any block. */
  lemma BanForgets(cfg: PollerConfig, be: BackendConfig, s: State, op: Op)
    requires Bans(be, s, op)
    ensures var s' := Step(cfg, be, s, op); s'.tags == NO_TAGS && s'.bannedUntil == op.now + cfg.banPeriod
  {
  }

  /** Time does not run backwards. */
  predicate Timely(ops: seq<Op>) {
    && (forall i | 0 <= i < |ops| :: 0 <= ops[i].now)
    && (forall i, j | 0 <= i < j < |ops| :: ops[i].now <= ops[j].now)
  }

  /** After the ban at step `i` the run went on without an unban and without an accepted update. */
  predicate BannedSince(cfg: PollerConfig, be: BackendConfig, ops: seq<Op>, i: nat) {
    && Timely(ops) && i < |ops| && Bans(be, Run(cfg, be, ops[..i]), ops[i])
    && forall k | i < k < |ops| :: !ops[k].Unban? && !Accepts(be, Run(cfg, be, ops[..k]), ops[k])
  }

  /** On no run is a banned backend a candidate again before an update was accepted. */
  ghost predicate BanHolds(cfg: PollerConfig, be: BackendConfig) {
    forall ops, i, healthy, now | BannedSince(cfg, be, ops, i) ::
      !Candidate(cfg, be, Run(cfg, be, ops), healthy, now)
  }

  /** Whatever the backend reported last is stale by the time the ban ends. */
  predicate Out(cfg: PollerConfig, s: State) {
    !s.inSync || s.lastUpdate + cfg.maxUpdateThreshold < s.bannedUntil
  }

  lemma {:induction false} UpdatedInThePast(cfg: PollerConfig, be: BackendConfig, ops: seq<Op>, now: int)
    requires Timely(ops) && 0 <= now && forall i | 0 <= i < |ops| :: ops[i].now <= now
    ensures Run(cfg, be, ops).lastUpdate <= now
  {
    if ops != [] {
      UpdatedInThePast(cfg, be, ops[..|ops| - 1], now);
    }
  }

  lemma {:induction false} StaysOut(cfg: PollerConfig, be: BackendConfig, ops: seq<Op>, i: nat)
    requires cfg.banPeriod > cfg.maxUpdateThreshold && BannedSince(cfg, be, ops, i)
    ensures Out(cfg, Run(cfg, be, ops))
    decreases |ops|
  {
    var before, op := ops[..|ops| - 1], ops[|ops| - 1];
    UpdatedInThePast(cfg, be, before, op.now);
    if i < |before| {
      assert forall k | 0 <= k <= |before| :: before[..k] == ops[..k];
      StaysOut(cfg, be, before, i);
    }
  }

  /** That a ban holds until the next accepted update is exactly what a ban period longer than
      the update threshold buys. */
  lemma BanHoldsIff(cfg: PollerConfig, be: BackendConfig)
    requires !be.forced
    ensures BanHolds(cfg, be) <==> cfg.banPeriod > cfg.maxUpdateThreshold
  {
    if cfg.banPeriod > cfg.maxUpdateThreshold {
      forall ops, i, healthy, now | BannedSince(cfg, be, ops, i)
        ensures !Candidate(cfg, be, Run(cfg, be, ops), healthy, now)
      {
        StaysOut(cfg, be, ops, i);
      }
    } else {
      var op := Update(1, Report(true, Some(true), Some(cfg.minPeerCount), None, Some(1), None));
      var ops := [op];
      assert ops[..0] == [];
      assert Run(cfg, be, ops) == Step(cfg, be, FRESH, op);
      assert BannedSince(cfg, be, ops, 0);
      assert Candidate(cfg, be, Run(cfg, be, ops), true, 1 + cfg.banPeriod);
    }
  }

  /** What becomes of a report. */

  /** The state is a ban until `until`; what else is known of the backend stays on record. */
  predicate BannedUntil(s: State, until: int) {
    s.bannedUntil == until && s.tags.latest == s.tags.safe == s.tags.finalized == 0
  }

  /** A complete report of a healthy backend that is not banned is taken over, block by block, if
      its blocks are in order and neither safe nor finalized went back. Otherwise it bans the
      backend, unless that is forced. */
  lemma ReportOutcome(cfg: PollerConfig, be: BackendConfig, s: State, now: int, r: Report,
                      latest: U64, hash: string, safe: U64, finalized: U64)
    requires now >= s.bannedUntil && (r.healthy || be.forced)
    requires r.latest == Some((latest, hash)) && r.safe == Some(safe) && r.finalized == Some(finalized)
    ensures var s', good := Step(cfg, be, s, Update(now, r)),
                            s.tags.finalized <= finalized <= safe <= latest && s.tags.safe <= safe;
      && s'.hash == hash && s'.lastUpdate == now
      && (!be.skipPeerCountCheck && r.peers.Some? ==> s'.peerCount == r.peers.value)
      && (be.skipPeerCountCheck ==> s'.peerCount == 0)
      && (good || be.forced ==>
            && s'.tags.latest == latest && s'.tags.safe == safe && s'.tags.finalized == finalized
            && s'.bannedUntil == s.bannedUntil)
      && (!good && !be.forced ==> BannedUntil(s', now + cfg.banPeriod))
  {
  }

  /** What could not be fetched counts as block 0, no peers, or not in sync. */
  lemma FailedFetches(cfg: PollerConfig, be: BackendConfig, s: State, now: int, r: Report)
    ensures var r' := Report(r.healthy,
                             Some(if r.inSync.Some? then r.inSync.value else false),
                             Some(if r.peers.Some? then r.peers.value else 0),
                             Some(if r.latest.Some? then r.latest.value else (0, "")),
                             Some(if r.safe.Some? then r.safe.value else 0),
                             Some(if r.finalized.Some? then r.finalized.value else 0));
      Step(cfg, be, s, Update(now, r)) == Step(cfg, be, s, Update(now, r'))
  {
  }

  /** During a ban reports are not asked for, and an unhealthy backend is banned without being asked,
      unless it is forced. */
  lemma NotAsked(cfg: PollerConfig, be: BackendConfig, s: State, now: int, r: Report)
    ensures now < s.bannedUntil ==> Step(cfg, be, s, Update(now, r)) == s
    ensures now >= s.bannedUntil && !r.healthy && !be.forced ==>
      var s' := Step(cfg, be, s, Update(now, r));
      BannedUntil(s', now + cfg.banPeriod) && s'.hash == s.hash && s'.lastUpdate == s.lastUpdate && s'.inSync == s.inSync
  {
  }

  /** After its report was taken over, a backend that is not forced is a candidate exactly while it is
      healthy and the report is fresh, if it said that it is in sync and has peers enough. */
  lemma CandidateAfterReport(cfg: PollerConfig, be: BackendConfig, s: State, now: int, r: Report, healthy: bool, later: int)
    requires !be.forced && Accepts(be, s, Update(now, r)) && later >= now
    ensures Candidate(cfg, be, Step(cfg, be, s, Update(now, r)), healthy, later) <==>
      && healthy && later - now <= cfg.maxUpdateThreshold && r.inSync == Some(true)
      && (be.skipPeerCountCheck || cfg.minPeerCount == 0 || (r.peers.Some? && r.peers.value >= cfg.minPeerCount))
  {
  }

  /** No ban makes a candidate, before it ends, out of a backend that is not forced; a forced one
      is always a candidate; unbanning ends a ban at once. */
  lemma BansAndCandidates(cfg: PollerConfig, be: BackendConfig, s: State, healthy: bool, now: int)
    ensures be.forced ==> Candidate(cfg, be, s, healthy, now) && Step(cfg, be, s, Op.Ban(now)) == s
    ensures !be.forced && now < s.bannedUntil ==> !Candidate(cfg, be, s, healthy, now)
    ensures Step(cfg, be, s, Unban(now)).bannedUntil <= now && Step(cfg, be, s, Unban(now)).tags == s.tags
    ensures Step(cfg, be, s, Reset(now)) == FRESH
  {
  }
}
