/** Answering a JSON-RPC batch: every request gets its response at its own place. */
module BatchRPC {
  import opened Options
  import opened Words
  import opened Rewriter
  import opened BatchForward

  /** The server's settings, and what the outside world contributes to one batch: `limited` and
      `refused` are the verdicts of the rate limiters on request `i`, `cached` is what the cache
      holds for it, and `late(n)` tells whether the deadline has passed when the `n`-th batch is
      about to be forwarded. */
  datatype Server = Server(
    mapping: string -> string,
    groups: string -> Group,
    overrideLims: set<string>,
    senderLimited: bool,
    maxUpstreamBatchSize: nat,
    limited: nat -> bool,
    refused: nat -> Option<nat>,
    cached: nat -> Option<Body>,
    late: nat -> bool)

  const VERSION: string := "2.0"
  const EMPTY_ARRAY: Body := Result("[]")

  predicate IsValidID(id: string) {
    if id != "" && id[0] == '"' && id[|id| - 1] == '"' then |id| > 2
    else |id| > 0 && id[0] != '{' && id[0] != '['
  }

  function Validate(req: Req): Option<RPCError> {
    if req.version != VERSION then Some(InvalidRequest("invalid JSON-RPC version"))
    else if req.name == "" then Some(InvalidRequest("no method specified"))
    else if !IsValidID(req.id) then Some(InvalidRequest("invalid ID"))
    else None
  }

  /** A request is answered at once or queued for a backend group. */
  datatype Screened = Answered(res: Res) | Queued(req: Req, group: string)

  function Screen(s: Server, i: nat, raw: Option<Req>): Screened {
    if raw.None? then Answered(Res("", Error(ParseErr)))
    else
      var req := raw.value;
      if Validate(req).Some? then Answered(Res("", Error(Validate(req).value)))
      else if req.name == "eth_accounts" then Answered(Res(req.id, EMPTY_ARRAY))
      else if s.mapping(req.name) == "" then Answered(Res(req.id, Error(MethodNotWhitelisted)))
      else if req.name in s.overrideLims && s.limited(i) then Answered(Res(req.id, Error(OverRateLimit)))
      else if req.name == "eth_sendRawTransaction" && s.senderLimited && s.refused(i).Some? then
        Answered(Res(req.id, Error(SenderRefused(s.refused(i).value))))
      else Queued(req, s.mapping(req.name))
  }

  function ScreenAll(s: Server, raws: seq<Option<Req>>): (screens: seq<Screened>)
    ensures |screens| == |raws| && forall i | 0 <= i < |raws| :: screens[i] == Screen(s, i, raws[i])
  {
    seq(|raws|, i requires 0 <= i < |raws| => Screen(s, i, raws[i]))
  }

  datatype Elem = Elem(req: Req, index: nat)

  /** Requests with the same id go to different batches: the `n`-th one goes to number `n`. */
  datatype Key = Key(n: nat, group: string)

  function Count(screens: seq<Screened>, id: string): nat {
    if screens == [] then 0
    else
      var last := screens[|screens| - 1];
      Count(screens[..|screens| - 1], id) + if last.Queued? && last.req.id == id then 1 else 0
  }

  function KeyOf(screens: seq<Screened>, i: nat): Key
    requires i < |screens| && screens[i].Queued?
  {
    Key(Count(screens[..i + 1], screens[i].req.id), screens[i].group)
  }

  /** The batch with the given key, in the order of the requests. */
  function BatchOf(screens: seq<Screened>, key: Key): seq<Elem> {
    if screens == [] then []
    else
      var n := |screens| - 1;
      var before := BatchOf(screens[..n], key);
      if screens[n].Queued? && KeyOf(screens, n) == key then before + [Elem(screens[n].req, n)] else before
  }

  /** The batch is exactly the queued requests with its key. */
  lemma {:induction false} InBatch(screens: seq<Screened>, key: Key, e: Elem)
    ensures e in BatchOf(screens, key) <==>
      e.index < |screens| && screens[e.index] == Queued(e.req, key.group) && KeyOf(screens, e.index) == key
    decreases |screens|
  {
    if screens != [] {
      var n := |screens| - 1;
      InBatch(screens[..n], key, e);
      if e.index < n {
        assert screens[..n][..e.index + 1] == screens[..e.index + 1];
      }
    }
  }

  lemma {:induction false} CountGrows(screens: seq<Screened>, i: nat, id: string)
    requires i <= |screens|
    ensures Count(screens[..i], id) <= Count(screens, id)
    decreases |screens|
  {
    if i < |screens| {
      CountGrows(screens[..|screens| - 1], i, id);
      assert screens[..|screens| - 1][..i] == screens[..i];
    } else {
      assert screens[..i] == screens;
    }
  }

  /** Queued requests with one id have different keys. */
  lemma SameIDOtherKey(screens: seq<Screened>, i: nat, j: nat)
    requires i < j < |screens| && screens[i].Queued? && screens[j].Queued? && screens[i].req.id == screens[j].req.id
    ensures KeyOf(screens, i) != KeyOf(screens, j)
  {
    var id := screens[i].req.id;
    CountGrows(screens[..j], i + 1, id);
    assert screens[..j][..i + 1] == screens[..i + 1];
    assert screens[..j + 1][..j] == screens[..j];
  }

  predicate DistinctElems(elems: seq<Elem>) {
    forall a, b | 0 <= a < b < |elems| :: elems[a].req.id != elems[b].req.id && elems[a].index < elems[b].index
  }

  /** No batch has an id twice, so the sort in the backend never panics. */
  lemma {:induction false} BatchDistinct(screens: seq<Screened>, key: Key)
    ensures DistinctElems(BatchOf(screens, key))
    decreases |screens|
  {
    if screens != [] {
      var n := |screens| - 1;
      BatchDistinct(screens[..n], key);
      var before := BatchOf(screens[..n], key);
      if screens[n].Queued? && KeyOf(screens, n) == key {
        forall a | 0 <= a < |before| ensures before[a].req.id != screens[n].req.id && before[a].index < n {
          InBatch(screens[..n], key, before[a]);
          assert screens[..n][..before[a].index + 1] == screens[..before[a].index + 1];
          if before[a].req.id == screens[n].req.id {
            SameIDOtherKey(screens, before[a].index, n);
          }
        }
      }
    }
  }

  /** Answers. */

  function Reqs(elems: seq<Elem>): (reqs: seq<Req>)
    ensures |reqs| == |elems| && forall i | 0 <= i < |elems| :: reqs[i] == elems[i].req
  {
    seq(|elems|, i requires 0 <= i < |elems| => elems[i].req)
  }

  /** The answer to `req` as part of the forwarded batch `reqs`: where it comes from, and, when the
      group's consensus is sensible, that it answers what `req` means. */
  ghost predicate AnsweredIn(group: Group, reqs: seq<Req>, req: Req, r: Res) {
    var ts := TreatAll(group.consensus, reqs);
    && req in reqs
    && (Sensible(group.consensus) ==> AnsweredRight(group, reqs, req, r))
    && match Choose(group.backends, Sends(ts), 0)
       case GivenUp(e) => r == Res(req.id, Error(Forwarding(e)))
       case Chosen(k) =>
         match Treat(group.consensus, req)
         case Answer(a) => r == a
         case Send(q) => FromBackend(group, q, Sends(ts), k, r)
         case Crash => false
  }

  /** A batch that may be forwarded. */
  predicate Forwardable(s: Server, reqs: seq<Req>) {
    0 < |reqs| <= s.maxUpstreamBatchSize && DistinctIDs(reqs)
  }

  ghost predicate AnsweredSomewhere(s: Server, group: string, req: Req, r: Res) {
    exists reqs :: Forwardable(s, reqs) && AnsweredIn(s.groups(group), reqs, req, r)
  }

  /** The right response to request `i`: queued requests are answered from the cache or as part
      of a forwarded batch. */
  ghost predicate Right(s: Server, i: nat, screened: Screened, r: Res) {
    match screened
    case Answered(res) => r == res
    case Queued(req, group) =>
      if s.cached(i).Some? then r == Res(req.id, s.cached(i).value) else AnsweredSomewhere(s, group, req, r)
  }

  /** When backends answer with the ids they were asked for, a right response to a valid request
      carries the id of the request. */
  lemma RightID(s: Server, i: nat, raw: Option<Req>, r: Res)
    requires raw.Some? && Validate(raw.value).None? && Right(s, i, Screen(s, i, raw), r)
    requires Screen(s, i, raw).Queued? ==> Faithful(s.groups(Screen(s, i, raw).group))
    ensures r.id == raw.value.id
  {
    var screened := Screen(s, i, raw);
    if screened.Queued? && s.cached(i).None? {
      var reqs :| Forwardable(s, reqs) && AnsweredIn(s.groups(screened.group), reqs, screened.req, r);
      AnswerID(s.groups(screened.group), reqs, screened.req, r);
    }
  }

  lemma AnswerID(group: Group, reqs: seq<Req>, req: Req, r: Res)
    requires Faithful(group) && AnsweredIn(group, reqs, req, r)
    ensures r.id == req.id
  {
    TreatKeepsIDs(group.consensus, [req]);
    assert TreatAll(group.consensus, [req])[0] == Treat(group.consensus, req);
  }

  /** Who gets a request forwarded: a valid one, for a method that has a group, within its limits. */
  lemma QueuedIff(s: Server, i: nat, raw: Option<Req>)
    ensures (exists req, group :: Screen(s, i, raw) == Queued(req, group)) <==>
      && raw.Some? && raw.value.version == "2.0" && raw.value.name !in {"", "eth_accounts"} && IsValidID(raw.value.id)
      && s.mapping(raw.value.name) != ""
      && !(raw.value.name in s.overrideLims && s.limited(i))
      && !(raw.value.name == "eth_sendRawTransaction" && s.senderLimited && s.refused(i).Some?)
    ensures forall req, group | Screen(s, i, raw) == Queued(req, group) :: raw == Some(req) && group == s.mapping(req.name)
  {
    if Screen(s, i, raw).Queued? {
      assert Screen(s, i, raw) == Queued(raw.value, s.mapping(raw.value.name));
    }
  }

  /** What the others are told. An unreadable or invalid one gets no id back. */
  lemma ToldWhy(s: Server, i: nat, raw: Option<Req>, r: Res)
    requires Right(s, i, Screen(s, i, raw), r)
    ensures raw.None? ==> r == Res("", Error(ParseErr))
    ensures raw.Some? && Validate(raw.value).None? ==>
      var req := raw.value;
      && (req.name == "eth_accounts" ==> r == Res(req.id, Result("[]")))
      && (req.name != "eth_accounts" && s.mapping(req.name) == "" ==> r == Res(req.id, Error(MethodNotWhitelisted)))
      && (req.name != "eth_accounts" && s.mapping(req.name) != "" && req.name in s.overrideLims && s.limited(i) ==>
            r == Res(req.id, Error(OverRateLimit)))
      && (s.mapping(req.name) != "" && !(req.name in s.overrideLims && s.limited(i)) ==>
            req.name == "eth_sendRawTransaction" && s.senderLimited && s.refused(i).Some? ==>
            r == Res(req.id, Error(SenderRefused(s.refused(i).value))))
    ensures raw.Some? ==>
      var req := raw.value;
      && (req.version != "2.0" ==> r == Res("", Error(InvalidRequest("invalid JSON-RPC version"))))
      && (req.version == "2.0" && req.name == "" ==> r == Res("", Error(InvalidRequest("no method specified"))))
      && (req.version == "2.0" && req.name != "" && !IsValidID(req.id) ==> r == Res("", Error(InvalidRequest("invalid ID"))))
  {
  }

  /** An id is a string that is not empty, or anything else but an object, an array or nothing. */
  lemma ValidIDs(text: string)
    ensures IsValidID("\"" + text + "\"") <==> text != ""
    ensures !IsValidID("") && !IsValidID("{" + text) && !IsValidID("[" + text)
    ensures text != "" && text[0] !in {'"', '{', '['} ==> IsValidID(text)
  {
  }

  datatype BatchResult =
    | Done(res: seq<Res>, cached: bool)
    | DeadlineExceeded
    | Refused(error: ForwardError)
    | Crashed

  /** Each element of `done` was forwarded once, nothing else was. */
  ghost predicate Once(log: multiset<nat>, done: set<nat>) {
    forall i: nat :: log[i] == if i in done then 1 else 0
  }

  ghost function Indices(elems: seq<Elem>): set<nat> {
    set e | e in elems :: e.index
  }

  function IndexList(elems: seq<Elem>): (list: seq<nat>)
    ensures |list| == |elems| && forall i | 0 <= i < |elems| :: list[i] == elems[i].index
  {
    seq(|elems|, i requires 0 <= i < |elems| => elems[i].index)
  }

  lemma OnceEach(elems: seq<Elem>)
    requires DistinctElems(elems)
    ensures Once(multiset(IndexList(elems)), Indices(elems))
  {
    var list := IndexList(elems);
    forall i: nat ensures multiset(list)[i] == if i in Indices(elems) then 1 else 0 {
      if i in Indices(elems) {
        var e :| e in elems && e.index == i;
        var k :| 0 <= k < |elems| && elems[k] == e;
        OnceIn(list, k);
      } else {
        assert forall k | 0 <= k < |elems| :: elems[k] in elems && list[k] != i;
        assert i !in list;
      }
    }
  }

  /** The first loop: answer what can be answered at once and sort the rest into batches. */
  method Queue(s: Server, raws: seq<Option<Req>>) returns (responses: array<Option<Res>>, batches: map<Key, seq<Elem>>)
    ensures fresh(responses) && responses.Length == |raws|
    ensures var screens := ScreenAll(s, raws);
      && (forall key | key in batches :: batches[key] == BatchOf(screens, key))
      && (forall i | 0 <= i < |raws| && screens[i].Queued? :: KeyOf(screens, i) in batches)
      && (forall i | 0 <= i < |raws| && screens[i].Answered? :: responses[i] == Some(screens[i].res))
  {
    ghost var screens := ScreenAll(s, raws);
    responses := new Option<Res>[|raws|](_ => None);
    batches := map[];
    var ids: map<string, nat> := map[];
    for i := 0 to |raws|
      invariant Batched(screens[..i], ids, batches)
      invariant forall k | 0 <= k < i && screens[k].Answered? :: responses[k] == Some(screens[k].res)
    {
      assert screens[..i + 1][..i] == screens[..i];
      var screened := Screen(s, i, raws[i]);
      assert screened == screens[i];
      if screened.Answered? {
        responses[i] := Some(screened.res);
      }
      ids, batches := QueueOne(ids, batches, screened, i, screens[..i + 1]);
    }
    assert screens[..|raws|] == screens;
    AllBatched(screens, ids, batches);
  }

  method QueueOne(ids: map<string, nat>, batches: map<Key, seq<Elem>>, screened: Screened, i: nat, ghost screens: seq<Screened>)
    returns (ids': map<string, nat>, batches': map<Key, seq<Elem>>)
    requires |screens| == i + 1 && screens[i] == screened && Batched(screens[..i], ids, batches)
    ensures Batched(screens, ids', batches')
  {
    ids', batches' := ids, batches;
    if screened.Queued? {
      BatchedAdd(screens, ids, batches);
      var id := screened.req.id;
      ids' := ids[id := (if id in ids then ids[id] else 0) + 1];
      var key := Key(ids'[id], screened.group);
      batches' := batches[key := (if key in batches then batches[key] else []) + [Elem(screened.req, i)]];
    } else {
      BatchedSkip(screens, ids, batches);
    }
  }

  lemma AllBatched(screens: seq<Screened>, ids: map<string, nat>, batches: map<Key, seq<Elem>>)
    requires Batched(screens, ids, batches)
    ensures forall key | key in batches :: batches[key] == BatchOf(screens, key)
    ensures forall i | 0 <= i < |screens| && screens[i].Queued? :: KeyOf(screens, i) in batches
  {
  }

  ghost predicate Batched(screens: seq<Screened>, ids: map<string, nat>, batches: map<Key, seq<Elem>>) {
    && (forall id :: (if id in ids then ids[id] else 0) == Count(screens, id))
    && (forall key :: (if key in batches then batches[key] else []) == BatchOf(screens, key))
    && (forall i | 0 <= i < |screens| && screens[i].Queued? :: KeyOf(screens, i) in batches)
  }

  lemma KeyOfPrefix(screens: seq<Screened>, i: nat)
    requires i < |screens| - 1 && screens[i].Queued?
    ensures KeyOf(screens[..|screens| - 1], i) == KeyOf(screens, i)
  {
    assert screens[..|screens| - 1][..i + 1] == screens[..i + 1];
  }

  lemma BatchedSkip(screens: seq<Screened>, ids: map<string, nat>, batches: map<Key, seq<Elem>>)
    requires screens != [] && screens[|screens| - 1].Answered? && Batched(screens[..|screens| - 1], ids, batches)
    ensures Batched(screens, ids, batches)
  {
    forall i | 0 <= i < |screens| && screens[i].Queued? ensures KeyOf(screens, i) in batches {
      KeyOfPrefix(screens, i);
    }
  }

  lemma BatchedAdd(screens: seq<Screened>, ids: map<string, nat>, batches: map<Key, seq<Elem>>)
    requires screens != [] && screens[|screens| - 1].Queued? && Batched(screens[..|screens| - 1], ids, batches)
    ensures var i, req := |screens| - 1, screens[|screens| - 1].req;
      var n := (if req.id in ids then ids[req.id] else 0) + 1;
      var key := Key(n, screens[i].group);
      Batched(screens, ids[req.id := n], batches[key := (if key in batches then batches[key] else []) + [Elem(req, i)]])
  {
    var i, req := |screens| - 1, screens[|screens| - 1].req;
    var n := (if req.id in ids then ids[req.id] else 0) + 1;
    var key := Key(n, screens[i].group);
    var ids', batches' := ids[req.id := n], batches[key := (if key in batches then batches[key] else []) + [Elem(req, i)]];
    assert KeyOf(screens, i) == key by { assert screens[..|screens|] == screens; }
    CountsAdd(screens, ids);
    KeysAdd(screens, batches.Keys, batches'.Keys, key);
    forall k: Key ensures (if k in batches' then batches'[k] else []) == BatchOf(screens, k) {
      assert (if k in batches then batches[k] else []) == BatchOf(screens[..i], k);
    }
  }

  lemma CountsAdd(screens: seq<Screened>, ids: map<string, nat>)
    requires screens != [] && screens[|screens| - 1].Queued?
    requires forall id :: (if id in ids then ids[id] else 0) == Count(screens[..|screens| - 1], id)
    ensures var req := screens[|screens| - 1].req;
      var ids' := ids[req.id := (if req.id in ids then ids[req.id] else 0) + 1];
      forall id :: (if id in ids' then ids'[id] else 0) == Count(screens, id)
  {
  }

  lemma KeysAdd(screens: seq<Screened>, keys: set<Key>, keys': set<Key>, key: Key)
    requires screens != [] && (screens[|screens| - 1].Queued? ==> KeyOf(screens, |screens| - 1) == key) && keys' == keys + {key}
    requires var init := screens[..|screens| - 1]; forall i | 0 <= i < |init| && init[i].Queued? :: KeyOf(init, i) in keys
    ensures forall i | 0 <= i < |screens| && screens[i].Queued? :: KeyOf(screens, i) in keys'
  {
    forall j | 0 <= j < |screens| && screens[j].Queued? ensures KeyOf(screens, j) in keys' {
      if j < |screens| - 1 { KeyOfPrefix(screens, j); }
    }
  }

  /** Errors that the server does not answer element by element. */
  predicate Unbatchable(e: ForwardError) {
    e == CantBeBatched || e == InvalidTarget
  }

  predicate Fits(elems: seq<Elem>, responses: array<Option<Res>>) {
    DistinctElems(elems) && forall k | 0 <= k < |elems| :: elems[k].index < responses.Length
  }

  /** Why the server gives up a batch, if it does. */
  function Stopped(group: Group, reqs: seq<Req>): Option<BatchResult> {
    var ts := TreatAll(group.consensus, reqs);
    if !NoCrash(ts) then Some(Crashed)
    else
      var choice := Choose(group.backends, Sends(ts), 0);
      if choice.GivenUp? && Unbatchable(choice.error) then Some(Refused(choice.error)) else None
  }

  /** A batch stops the server when one of its requests crashes it, or when the backend that would
      serve it says that the batch or its target will not do. */
  lemma StoppedMeans(group: Group, reqs: seq<Req>) returns (sent: seq<Req>, choice: Choice)
    requires Sensible(group.consensus)
    ensures Stopped(group, reqs) == Some(Crashed) <==> exists req :: req in reqs && Crashing(group.consensus, req)
    ensures Stopped(group, reqs) != Some(Crashed) ==>
      && AllRendered(group.consensus, reqs, sent) && Failover(group.backends, sent, choice)
      && Stopped(group, reqs) == if choice == GivenUp(CantBeBatched) || choice == GivenUp(InvalidTarget)
                                 then Some(Refused(choice.error)) else None
  {
    var ts := TreatAll(group.consensus, reqs);
    sent, choice := Sends(ts), Choose(group.backends, Sends(ts), 0);
    CrashMeans(group.consensus, reqs);
    if NoCrash(ts) {
      SendsRendered(group.consensus, reqs);
      ChooseFails(group.backends, sent, 0);
    }
  }

  /** The responses of one forwarded batch, in its order. */
  method AnswerBatch(group: Group, reqs: seq<Req>) returns (stop: Option<BatchResult>, res: seq<Res>)
    requires reqs != [] && DistinctIDs(reqs)
    ensures stop == Stopped(group, reqs)
    ensures stop.None? ==> |res| == |reqs| && forall i | 0 <= i < |reqs| :: AnsweredIn(group, reqs, reqs[i], res[i])
  {
    var result, replies, k := Forward(group, reqs);
    match result
    case Crashes => stop, res := Some(Crashed), [];
    case Fails(e) =>
      if Unbatchable(e) {
        return Some(Refused(e)), [];
      }
      stop, res := None, seq(|reqs|, i requires 0 <= i < |reqs| => Res(reqs[i].id, Error(Forwarding(e))));
    case Responses(r) =>
      stop, res := None, r;
      forall i | 0 <= i < |reqs| ensures |res| == |reqs| && AnsweredIn(group, reqs, reqs[i], res[i]) {
        ServedAt(group, reqs, res, replies, k, i);
      }
  }

  method Store(elems: seq<Elem>, res: seq<Res>, responses: array<Option<Res>>)
    requires Fits(elems, responses) && |res| == |elems|
    modifies responses
    ensures forall k | 0 <= k < |elems| :: responses[elems[k].index] == Some(res[k])
    ensures forall i | 0 <= i < responses.Length && i !in Indices(elems) :: responses[i] == old(responses[i])
  {
    for k := 0 to |elems|
      invariant forall j | 0 <= j < k :: responses[elems[j].index] == Some(res[j])
      invariant forall i | 0 <= i < responses.Length && i !in Indices(elems) :: responses[i] == old(responses[i])
    {
      assert elems[k] in elems;
      responses[elems[k].index] := Some(res[k]);
    }
  }

  /** A forwarded batch: it may be forwarded, and every element has its answer in its slot. */
  ghost predicate PartOk(s: Server, group: string, part: seq<Elem>, slots: seq<Option<Res>>) {
    && Forwardable(s, Reqs(part)) && InRange(part, |slots|)
    && forall k | 0 <= k < |part| ::
         slots[part[k].index].Some? && AnsweredIn(s.groups(group), Reqs(part), part[k].req, slots[part[k].index].value)
  }

  ghost predicate PartsOk(s: Server, group: string, parts: seq<seq<Elem>>, slots: seq<Option<Res>>) {
    forall j | 0 <= j < |parts| :: PartOk(s, group, parts[j], slots)
  }

  lemma PartKept(s: Server, group: string, part: seq<Elem>, before: seq<Option<Res>>, after: seq<Option<Res>>)
    requires PartOk(s, group, part, before) && |after| == |before|
    requires forall k | 0 <= k < |part| :: after[part[k].index] == before[part[k].index]
    ensures PartOk(s, group, part, after)
  {
  }

  function Flatten(parts: seq<seq<Elem>>): seq<Elem> {
    if parts == [] then [] else Flatten(parts[..|parts| - 1]) + parts[|parts| - 1]
  }

  lemma {:induction false} InFlatten(parts: seq<seq<Elem>>, j: nat, e: Elem)
    requires j < |parts| && e in parts[j]
    ensures e in Flatten(parts)
    decreases |parts|
  {
    if j < |parts| - 1 {
      InFlatten(parts[..|parts| - 1], j, e);
    }
  }

  lemma {:induction false} FromFlatten(parts: seq<seq<Elem>>, e: Elem) returns (j: nat)
    requires e in Flatten(parts)
    ensures j < |parts| && e in parts[j]
    decreases |parts|
  {
    if e in parts[|parts| - 1] {
      j := |parts| - 1;
    } else {
      j := FromFlatten(parts[..|parts| - 1], e);
    }
  }

  /** Forward one minibatch and store its responses. */
  method ForwardMinibatch(s: Server, group: string, elems: seq<Elem>, responses: array<Option<Res>>)
    returns (stop: Option<BatchResult>)
    requires 0 < |elems| <= s.maxUpstreamBatchSize && Fits(elems, responses)
    modifies responses
    ensures stop == Stopped(s.groups(group), Reqs(elems))
    ensures stop.None? ==> PartOk(s, group, elems, responses[..])
    ensures forall i | 0 <= i < responses.Length && i !in Indices(elems) :: responses[i] == old(responses[i])
  {
    var reqs := Reqs(elems);
    var res;
    stop, res := AnswerBatch(s.groups(group), reqs);
    if stop.None? {
      Store(elems, res, responses);
      assert forall k | 0 <= k < |elems| :: AnsweredIn(s.groups(group), reqs, reqs[k], res[k]);
    }
  }

  /** The elements of a batch that the cache cannot answer. */
  function Misses(s: Server, batch: seq<Elem>): (misses: seq<Elem>)
    ensures |misses| <= |batch|
    ensures forall e :: e in misses <==> e in batch && s.cached(e.index).None?
  {
    if batch == [] then []
    else
      var rest, e := Misses(s, batch[..|batch| - 1]), batch[|batch| - 1];
      if s.cached(e.index).None? then rest + [e] else rest
  }

  lemma {:induction false} MissesFit(s: Server, batch: seq<Elem>)
    requires DistinctElems(batch)
    ensures DistinctElems(Misses(s, batch))
    decreases |batch|
  {
    if batch != [] {
      var init := batch[..|batch| - 1];
      MissesFit(s, init);
      var rest := Misses(s, init);
      forall a | 0 <= a < |rest|
        ensures rest[a].req.id != batch[|batch| - 1].req.id && rest[a].index < batch[|batch| - 1].index
      {
        assert rest[a] in init;
      }
    }
  }

  ghost predicate RightAt(s: Server, group: string, e: Elem, responses: array<Option<Res>>)
    requires e.index < responses.Length
    reads responses
  {
    responses[e.index].Some? && Right(s, e.index, Queued(e.req, group), responses[e.index].value)
  }

  lemma MissesNext(s: Server, batch: seq<Elem>, k: nat)
    requires k < |batch|
    ensures Misses(s, batch[..k + 1]) == Misses(s, batch[..k]) + if s.cached(batch[k].index).None? then [batch[k]] else []
  {
    assert batch[..k + 1][..k] == batch[..k];
  }

  predicate InRange(elems: seq<Elem>, n: nat) {
    forall k | 0 <= k < |elems| :: elems[k].index < n
  }

  /** The slots after the cache has answered what it can. */
  function CacheSlots(s: Server, slots: seq<Option<Res>>, batch: seq<Elem>): (slots': seq<Option<Res>>)
    requires InRange(batch, |slots|)
    ensures |slots'| == |slots|
  {
    if batch == [] then slots
    else
      var before, e := CacheSlots(s, slots, batch[..|batch| - 1]), batch[|batch| - 1];
      if s.cached(e.index).Some? then before[e.index := Some(Res(e.req.id, s.cached(e.index).value))] else before
  }

  lemma {:induction false} CacheSlotsAt(s: Server, slots: seq<Option<Res>>, batch: seq<Elem>)
    requires InRange(batch, |slots|) && DistinctElems(batch)
    ensures forall k | 0 <= k < |batch| && s.cached(batch[k].index).Some? ::
      CacheSlots(s, slots, batch)[batch[k].index] == Some(Res(batch[k].req.id, s.cached(batch[k].index).value))
    ensures forall i | 0 <= i < |slots| && i !in Indices(batch) :: CacheSlots(s, slots, batch)[i] == slots[i]
    decreases |batch|
  {
    if batch != [] {
      var init, e := batch[..|batch| - 1], batch[|batch| - 1];
      CacheSlotsAt(s, slots, init);
      assert batch == init + [e];
      assert Indices(batch) == Indices(init) + {e.index};
      assert forall k | 0 <= k < |init| :: init[k].index < e.index;
    }
  }

  method FromCache(s: Server, batch: seq<Elem>, responses: array<Option<Res>>)
    returns (misses: seq<Elem>, cached: bool)
    requires Fits(batch, responses)
    modifies responses
    ensures misses == Misses(s, batch) && cached == (|misses| < |batch|)
    ensures responses[..] == CacheSlots(s, old(responses[..]), batch)
  {
    misses, cached := [], false;
    for k := 0 to |batch|
      invariant misses == Misses(s, batch[..k]) && cached == (|misses| < k)
      invariant responses[..] == CacheSlots(s, old(responses[..]), batch[..k])
    {
      MissesNext(s, batch, k);
      assert batch[..k + 1][..k] == batch[..k];
      var e := batch[k];
      if s.cached(e.index).Some? {
        responses[e.index] := Some(Res(e.req.id, s.cached(e.index).value));
        cached := true;
      } else {
        misses := misses + [e];
      }
    }
    assert batch[..|batch|] == batch;
  }

  /** Why the server stopped: the deadline, or a forwarded batch of these elements. */
  ghost predicate Cause(s: Server, group: string, elems: seq<Elem>, stop: BatchResult) {
    || (stop.DeadlineExceeded? && exists n :: s.late(n))
    || exists part: seq<Elem> :: (forall e | e in part :: e in elems && s.cached(e.index).None?)
                                 && Forwardable(s, Reqs(part)) && Stopped(s.groups(group), Reqs(part)) == Some(stop)
  }

  lemma PartFits(s: Server, misses: seq<Elem>, responses: array<Option<Res>>, from: nat, to: nat)
    requires Fits(misses, responses) && from < to <= |misses| && to - from <= s.maxUpstreamBatchSize
    ensures Fits(misses[from..to], responses) && Forwardable(s, Reqs(misses[from..to]))
    ensures forall k | 0 <= k < |misses| :: misses[k].index in Indices(misses[from..to]) <==> from <= k < to
  {
  }

  /** One minibatch of `misses`, from place `start` to `end`, after `parts` up to `start`. */
  method ForwardPart(s: Server, group: string, misses: seq<Elem>, responses: array<Option<Res>>, start: nat, end: nat,
                     ghost parts: seq<seq<Elem>>) returns (stop: Option<BatchResult>)
    requires start < end <= |misses| && end - start <= s.maxUpstreamBatchSize && Fits(misses, responses)
    requires PartsOk(s, group, parts, responses[..]) && Flatten(parts) == misses[..start]
    modifies responses
    ensures stop == Stopped(s.groups(group), Reqs(misses[start..end]))
    ensures stop.None? ==> PartsOk(s, group, parts + [misses[start..end]], responses[..])
    ensures forall i | 0 <= i < responses.Length && i !in Indices(misses) :: responses[i] == old(responses[i])
  {
    var elems := misses[start..end];
    ghost var before := responses[..];
    PartFits(s, misses, responses, start, end);
    stop := ForwardMinibatch(s, group, elems, responses);
    assert forall i | i in Indices(elems) :: i in Indices(misses);
    EarlierKept(s, group, misses, start, end, parts, before, responses[..]);
    if stop.None? {
      PartsSnoc(s, group, parts, elems, responses[..]);
    }
  }

  lemma PartsSnoc(s: Server, group: string, parts: seq<seq<Elem>>, part: seq<Elem>, slots: seq<Option<Res>>)
    requires PartsOk(s, group, parts, slots) && PartOk(s, group, part, slots)
    ensures PartsOk(s, group, parts + [part], slots)
  {
  }

  /** Storing the answers to one minibatch leaves those to the earlier ones alone. */
  lemma EarlierKept(s: Server, group: string, misses: seq<Elem>, start: nat, end: nat, parts: seq<seq<Elem>>,
                    before: seq<Option<Res>>, after: seq<Option<Res>>)
    requires start < end <= |misses| && DistinctElems(misses) && |after| == |before| && InRange(misses, |before|)
    requires PartsOk(s, group, parts, before) && Flatten(parts) == misses[..start]
    requires forall i | 0 <= i < |before| && i !in Indices(misses[start..end]) :: after[i] == before[i]
    ensures PartsOk(s, group, parts, after)
  {
    forall j | 0 <= j < |parts| ensures PartOk(s, group, parts[j], after) {
      forall k | 0 <= k < |parts[j]| ensures after[parts[j][k].index] == before[parts[j][k].index] {
        InFlatten(parts, j, parts[j][k]);
        var m :| 0 <= m < start && misses[m] == parts[j][k];
        NotLater(misses, m, start, end);
      }
      PartKept(s, group, parts[j], before, after);
    }
  }

  lemma NotLater(misses: seq<Elem>, m: nat, start: nat, end: nat)
    requires DistinctElems(misses) && m < start <= end <= |misses|
    ensures misses[m].index !in Indices(misses[start..end])
  {
  }

  lemma PartCause(s: Server, group: string, misses: seq<Elem>, responses: array<Option<Res>>, start: nat, end: nat, stop: BatchResult)
    requires start < end <= |misses| && end - start <= s.maxUpstreamBatchSize && Fits(misses, responses)
    requires forall e | e in misses :: s.cached(e.index).None?
    requires Stopped(s.groups(group), Reqs(misses[start..end])) == Some(stop)
    ensures Cause(s, group, misses, stop)
  {
  }

  /** The deadline had not passed when the batches `m` to `n - 1` were forwarded. */
  predicate BeforeDeadline(s: Server, m: nat, n: nat) {
    forall i | m <= i < n :: !s.late(i)
  }

  /** Forward what the cache could not answer, in minibatches of bounded size. */
  method ForwardMisses(s: Server, group: string, misses: seq<Elem>, responses: array<Option<Res>>, n0: nat)
    returns (stop: Option<BatchResult>, n: nat, ghost parts: seq<seq<Elem>>)
    requires s.maxUpstreamBatchSize > 0 && Fits(misses, responses)
    requires forall e | e in misses :: s.cached(e.index).None?
    modifies responses
    ensures stop.None? ==> Flatten(parts) == misses && PartsOk(s, group, parts, responses[..])
    ensures stop.None? ==> n == n0 + |parts| && BeforeDeadline(s, n0, n)
    ensures stop.Some? ==> Cause(s, group, misses, stop.value)
    ensures forall i | 0 <= i < responses.Length && i !in Indices(misses) :: responses[i] == old(responses[i])
  {
    var start := 0;
    n, parts, stop := n0, [], None;
    while start < |misses|
      invariant start <= |misses| && Flatten(parts) == misses[..start] && stop.None?
      invariant n == n0 + |parts| && BeforeDeadline(s, n0, n)
      invariant PartsOk(s, group, parts, responses[..])
      invariant forall i | 0 <= i < responses.Length && i !in Indices(misses) :: responses[i] == old(responses[i])
    {
      stop, start, parts := ForwardNext(s, group, misses, responses, start, n, parts);
      if stop.Some? {
        return;
      }
      n := n + 1;
    }
    assert misses[..|misses|] == misses;
  }

  /** The next minibatch, from place `start` on, if the deadline has not passed. */
  method ForwardNext(s: Server, group: string, misses: seq<Elem>, responses: array<Option<Res>>, start: nat, n: nat,
                     ghost parts: seq<seq<Elem>>) returns (stop: Option<BatchResult>, end: nat, ghost parts': seq<seq<Elem>>)
    requires s.maxUpstreamBatchSize > 0 && Fits(misses, responses) && start < |misses|
    requires forall e | e in misses :: s.cached(e.index).None?
    requires PartsOk(s, group, parts, responses[..]) && Flatten(parts) == misses[..start]
    modifies responses
    ensures stop.None? ==> start < end <= |misses| && |parts'| == |parts| + 1 && !s.late(n)
    ensures stop.None? ==> Flatten(parts') == misses[..end] && PartsOk(s, group, parts', responses[..])
    ensures stop.Some? ==> Cause(s, group, misses, stop.value)
    ensures forall i | 0 <= i < responses.Length && i !in Indices(misses) :: responses[i] == old(responses[i])
  {
    end, parts' := start, parts;
    if s.late(n) {
      return Some(DeadlineExceeded), end, parts';
    }
    end := if start + s.maxUpstreamBatchSize < |misses| then start + s.maxUpstreamBatchSize else |misses|;
    stop := ForwardPart(s, group, misses, responses, start, end, parts);
    if stop.Some? {
      PartCause(s, group, misses, responses, start, end, stop.value);
      return;
    }
    FlattenNext(parts, misses, start, end);
    parts' := parts + [misses[start..end]];
  }

  lemma FlattenNext(parts: seq<seq<Elem>>, misses: seq<Elem>, start: nat, end: nat)
    requires start <= end <= |misses| && Flatten(parts) == misses[..start]
    ensures Flatten(parts + [misses[start..end]]) == misses[..end]
  {
    assert (parts + [misses[start..end]])[..|parts|] == parts;
    assert misses[..start] + misses[start..end] == misses[..end];
  }

  /** Answer one batch, from the cache as far as possible. */
  method ServeBatch(s: Server, group: string, batch: seq<Elem>, responses: array<Option<Res>>, n0: nat)
    returns (stop: Option<BatchResult>, cached: bool, n: nat, ghost parts: seq<seq<Elem>>)
    requires s.maxUpstreamBatchSize > 0 && Fits(batch, responses)
    modifies responses
    ensures stop.None? ==>
      && Flatten(parts) == Misses(s, batch) && PartsOk(s, group, parts, responses[..])
      && forall k | 0 <= k < |batch| :: RightAt(s, group, batch[k], responses)
    ensures stop.None? ==> n == n0 + |parts| && BeforeDeadline(s, n0, n)
    ensures stop.Some? ==> Cause(s, group, batch, stop.value)
    ensures cached <==> exists e :: e in batch && s.cached(e.index).Some?
    ensures forall i | 0 <= i < responses.Length && i !in Indices(batch) :: responses[i] == old(responses[i])
  {
    var misses;
    misses, cached := FromCache(s, batch, responses);
    FewerMisses(s, batch);
    CacheSlotsAt(s, old(responses[..]), batch);
    MissesFit(s, batch);
    MissesInRange(s, batch, responses);
    ghost var before := responses[..];
    stop, n, parts := ForwardMisses(s, group, misses, responses, n0);
    if stop.None? {
      AllRight(s, group, batch, responses, before, parts);
    }
  }

  lemma {:induction false} FewerMisses(s: Server, batch: seq<Elem>)
    ensures |Misses(s, batch)| < |batch| <==> exists e :: e in batch && s.cached(e.index).Some?
  {
    if batch != [] {
      FewerMisses(s, batch[..|batch| - 1]);
    }
  }

  lemma MissesInRange(s: Server, batch: seq<Elem>, responses: array<Option<Res>>)
    requires Fits(batch, responses)
    ensures forall k | 0 <= k < |Misses(s, batch)| :: Misses(s, batch)[k].index < responses.Length
    ensures Indices(Misses(s, batch)) <= Indices(batch)
    ensures forall k | 0 <= k < |batch| && s.cached(batch[k].index).Some? :: batch[k].index !in Indices(Misses(s, batch))
  {
  }

  lemma AllRight(s: Server, group: string, batch: seq<Elem>, responses: array<Option<Res>>, before: seq<Option<Res>>,
                 parts: seq<seq<Elem>>)
    requires Fits(batch, responses) && |before| == responses.Length
    requires forall k | 0 <= k < |batch| && s.cached(batch[k].index).Some? ::
      before[batch[k].index] == responses[batch[k].index] == Some(Res(batch[k].req.id, s.cached(batch[k].index).value))
    requires Flatten(parts) == Misses(s, batch) && PartsOk(s, group, parts, responses[..])
    ensures forall k | 0 <= k < |batch| :: RightAt(s, group, batch[k], responses)
  {
    forall k | 0 <= k < |batch| ensures RightAt(s, group, batch[k], responses) {
      if s.cached(batch[k].index).None? {
        var j := FromFlatten(parts, batch[k]);
        assert PartOk(s, group, parts[j], responses[..]);
        var m :| 0 <= m < |parts[j]| && parts[j][m] == batch[k];
        assert AnsweredIn(s.groups(group), Reqs(parts[j]), batch[k].req, responses[..][batch[k].index].value);
      }
    }
  }

  /** What holds when the batches with a key in `done` have been served. */
  ghost predicate SlotsRight(s: Server, screens: seq<Screened>, slots: seq<Option<Res>>, done: set<Key>) {
    && |slots| == |screens|
    && forall i | 0 <= i < |screens| && (screens[i].Queued? ==> KeyOf(screens, i) in done) ::
         slots[i].Some? && Right(s, i, screens[i], slots[i].value)
  }

  /** The requests that have to be forwarded, as far as their key is in `done`. */
  ghost function ToForward(s: Server, screens: seq<Screened>, done: set<Key>): set<nat> {
    set i: nat | i < |screens| && screens[i].Queued? && s.cached(i).None? && KeyOf(screens, i) in done
  }

  lemma SlotsStep(s: Server, screens: seq<Screened>, key: Key, done: set<Key>, before: seq<Option<Res>>, after: seq<Option<Res>>)
    requires SlotsRight(s, screens, before, done) && |after| == |before|
    requires forall i | 0 <= i < |before| && i !in Indices(BatchOf(screens, key)) :: after[i] == before[i]
    requires forall e | e in BatchOf(screens, key) ::
      e.index < |after| && after[e.index].Some? && Right(s, e.index, Queued(e.req, key.group), after[e.index].value)
    ensures SlotsRight(s, screens, after, done + {key})
  {
    forall i | 0 <= i < |screens| && (screens[i].Queued? ==> KeyOf(screens, i) in done + {key})
      ensures after[i].Some? && Right(s, i, screens[i], after[i].value)
    {
      if screens[i].Queued? {
        InBatch(screens, KeyOf(screens, i), Elem(screens[i].req, i));
      }
      if e :| e in BatchOf(screens, key) && e.index == i {
        InBatch(screens, key, e);
      } else {
        assert i !in Indices(BatchOf(screens, key));
      }
    }
  }

  lemma ForwardingStep(s: Server, screens: seq<Screened>, key: Key, done: set<Key>)
    requires key !in done
    ensures var more := Indices(Misses(s, BatchOf(screens, key)));
      ToForward(s, screens, done + {key}) == ToForward(s, screens, done) + more && more !! ToForward(s, screens, done)
  {
    var misses := Misses(s, BatchOf(screens, key));
    forall i: nat ensures i in Indices(misses) <==> i < |screens| && screens[i].Queued? && s.cached(i).None? && KeyOf(screens, i) == key {
      if e :| e in misses && e.index == i {
        InBatch(screens, key, e);
      }
      if i < |screens| && screens[i].Queued? && s.cached(i).None? && KeyOf(screens, i) == key {
        InBatch(screens, key, Elem(screens[i].req, i));
        assert Elem(screens[i].req, i) in misses;
      }
    }
  }

  lemma OnceMore(a: multiset<nat>, x: set<nat>, b: multiset<nat>, y: set<nat>)
    requires Once(a, x) && Once(b, y) && x !! y
    ensures Once(a + b, x + y)
  {
  }

  lemma BatchFits(screens: seq<Screened>, key: Key, responses: array<Option<Res>>)
    requires responses.Length == |screens|
    ensures Fits(BatchOf(screens, key), responses)
  {
    BatchDistinct(screens, key);
    var batch := BatchOf(screens, key);
    forall k | 0 <= k < |batch| ensures batch[k].index < responses.Length {
      InBatch(screens, key, batch[k]);
    }
  }

  /** A batch that was forwarded, and the group it went to. */
  datatype Sent = Sent(group: string, elems: seq<Elem>)

  function Tag(group: string, parts: seq<seq<Elem>>): (log: seq<Sent>)
    ensures |log| == |parts| && forall j | 0 <= j < |parts| :: log[j] == Sent(group, parts[j])
  {
    seq(|parts|, j requires 0 <= j < |parts| => Sent(group, parts[j]))
  }

  /** All elements forwarded, with repetitions. */
  function Logged(log: seq<Sent>): multiset<nat> {
    if log == [] then multiset{}
    else Logged(log[..|log| - 1]) + multiset(IndexList(log[|log| - 1].elems))
  }

  lemma {:induction false} LoggedMore(log: seq<Sent>, group: string, parts: seq<seq<Elem>>)
    ensures Logged(log + Tag(group, parts)) == Logged(log) + multiset(IndexList(Flatten(parts)))
    decreases |parts|
  {
    if parts == [] {
      assert log + Tag(group, parts) == log;
    } else {
      var init, last := parts[..|parts| - 1], parts[|parts| - 1];
      LoggedMore(log, group, init);
      TagSnoc(log, group, parts, init, last);
      LoggedSnoc(log + Tag(group, init), Sent(group, last));
      IndexListConcat(Flatten(init), last);
    }
  }

  lemma TagSnoc(log: seq<Sent>, group: string, parts: seq<seq<Elem>>, init: seq<seq<Elem>>, last: seq<Elem>)
    requires parts == init + [last]
    ensures log + Tag(group, parts) == log + Tag(group, init) + [Sent(group, last)]
  {
  }

  lemma LoggedSnoc(log: seq<Sent>, b: Sent)
    ensures Logged(log + [b]) == Logged(log) + multiset(IndexList(b.elems))
  {
    assert (log + [b])[..|log|] == log;
  }

  lemma IndexListConcat(a: seq<Elem>, b: seq<Elem>)
    ensures multiset(IndexList(a + b)) == multiset(IndexList(a)) + multiset(IndexList(b))
  {
    assert IndexList(a + b) == IndexList(a) + IndexList(b);
  }

  /** Every forwarded batch was one that may be forwarded, and each of its elements is a queued
      request whose slot holds its answer as part of that batch. */
  ghost predicate LogOk(s: Server, screens: seq<Screened>, slots: seq<Option<Res>>, log: seq<Sent>) {
    && |slots| == |screens|
    && forall j | 0 <= j < |log| ::
         && PartOk(s, log[j].group, log[j].elems, slots)
         && forall e | e in log[j].elems :: screens[e.index] == Queued(e.req, log[j].group)
  }

  /** Only elements with a key in `done` were forwarded. */
  ghost predicate LogWithin(screens: seq<Screened>, log: seq<Sent>, done: set<Key>) {
    forall j, e | 0 <= j < |log| && e in log[j].elems ::
      e.index < |screens| && screens[e.index].Queued? && KeyOf(screens, e.index) in done
  }

  /** What holds of slots and log when the batches with a key in `done` have been served: every
      request to forward was forwarded exactly once, in one of the logged batches. */
  ghost predicate Served(s: Server, screens: seq<Screened>, slots: seq<Option<Res>>, log: seq<Sent>, done: set<Key>) {
    && SlotsRight(s, screens, slots, done) && LogOk(s, screens, slots, log) && LogWithin(screens, log, done)
    && Once(Logged(log), ToForward(s, screens, done))
  }

  method ServeKey(s: Server, key: Key, batch: seq<Elem>, responses: array<Option<Res>>, n0: nat,
                  ghost screens: seq<Screened>, ghost done: set<Key>, ghost log: seq<Sent>)
    returns (stop: Option<BatchResult>, cached: bool, n: nat, ghost log': seq<Sent>)
    requires s.maxUpstreamBatchSize > 0 && responses.Length == |screens| && batch == BatchOf(screens, key) && key !in done
    requires Served(s, screens, responses[..], log, done) && |log| == n0
    modifies responses
    ensures stop.None? ==> Served(s, screens, responses[..], log', done + {key})
    ensures stop.None? ==> |log'| == n >= n0 && BeforeDeadline(s, n0, n)
    ensures Hit(s, screens, done + {key}) <==> Hit(s, screens, done) || cached
    ensures stop.Some? ==> Cause(s, key.group, batch, stop.value)
  {
    ghost var before := responses[..];
    BatchFits(screens, key, responses);
    ghost var parts;
    stop, cached, n, parts := ServeBatch(s, key.group, batch, responses, n0);
    KeyHit(s, screens, key, done);
    log' := log + Tag(key.group, parts);
    if stop.None? {
      KeyServed(s, screens, key, done, before, responses, log, parts);
    }
  }

  lemma KeyServed(s: Server, screens: seq<Screened>, key: Key, done: set<Key>, before: seq<Option<Res>>,
                  responses: array<Option<Res>>, log: seq<Sent>, parts: seq<seq<Elem>>)
    requires responses.Length == |before| == |screens| && key !in done && Served(s, screens, before, log, done)
    requires forall i | 0 <= i < |before| && i !in Indices(BatchOf(screens, key)) :: responses[i] == before[i]
    requires Fits(BatchOf(screens, key), responses)
    requires forall k | 0 <= k < |BatchOf(screens, key)| :: RightAt(s, key.group, BatchOf(screens, key)[k], responses)
    requires Flatten(parts) == Misses(s, BatchOf(screens, key)) && PartsOk(s, key.group, parts, responses[..])
    ensures Served(s, screens, responses[..], log + Tag(key.group, parts), done + {key})
  {
    assert forall i | 0 <= i < |before| && i !in Indices(BatchOf(screens, key)) :: responses[..][i] == before[i];
    KeyRight(s, screens, key, done, before, responses);
    KeyLogged(s, screens, key, done, before, responses[..], log, parts);
    KeyWithin(s, screens, key, done, log, parts);
    KeyOnce(s, screens, key, done, log, parts);
  }

  /** Some queued request with a key in `done` is answered from the cache. */
  ghost predicate Hit(s: Server, screens: seq<Screened>, done: set<Key>) {
    exists i :: 0 <= i < |screens| && screens[i].Queued? && KeyOf(screens, i) in done && s.cached(i).Some?
  }

  lemma KeyHit(s: Server, screens: seq<Screened>, key: Key, done: set<Key>)
    ensures Hit(s, screens, done + {key}) <==>
      Hit(s, screens, done) || exists e :: e in BatchOf(screens, key) && s.cached(e.index).Some?
  {
    forall i | 0 <= i < |screens| && screens[i].Queued? && KeyOf(screens, i) == key
      ensures Elem(screens[i].req, i) in BatchOf(screens, key) {
      InBatch(screens, key, Elem(screens[i].req, i));
    }
    forall e | e in BatchOf(screens, key)
      ensures e.index < |screens| && screens[e.index].Queued? && KeyOf(screens, e.index) == key {
      InBatch(screens, key, e);
    }
  }

  /** Answer all batches, in whatever order. */
  method ServeAll(s: Server, batches: map<Key, seq<Elem>>, responses: array<Option<Res>>, ghost screens: seq<Screened>)
    returns (stop: Option<BatchResult>, cached: bool, ghost log: seq<Sent>)
    requires s.maxUpstreamBatchSize > 0 && responses.Length == |screens|
    requires forall key | key in batches :: batches[key] == BatchOf(screens, key)
    requires SlotsRight(s, screens, responses[..], {})
    modifies responses
    ensures stop.None? ==> Served(s, screens, responses[..], log, batches.Keys)
    ensures stop.None? ==> BeforeDeadline(s, 0, |log|) && (cached <==> Hit(s, screens, batches.Keys))
    ensures stop.Some? ==> exists key :: key in batches && Cause(s, key.group, batches[key], stop.value)
  {
    stop, cached, log := None, false, [];
    var n := 0;
    var todo := batches.Keys;
    ghost var done: set<Key> := {};
    ServedNone(s, screens, responses[..]);
    while todo != {}
      invariant todo !! done && todo + done == batches.Keys && stop.None?
      invariant Served(s, screens, responses[..], log, done)
      invariant |log| == n && BeforeDeadline(s, 0, n) && (cached <==> Hit(s, screens, done))
    {
      var key :| key in todo;
      var hit;
      stop, hit, n, log := ServeKey(s, key, batches[key], responses, n, screens, done, log);
      if stop.Some? {
        return;
      }
      cached := cached || hit;
      todo := todo - {key};
      done := done + {key};
    }
    assert done == batches.Keys;
  }

  lemma ServedNone(s: Server, screens: seq<Screened>, slots: seq<Option<Res>>)
    requires SlotsRight(s, screens, slots, {})
    ensures Served(s, screens, slots, [], {})
  {
  }

  lemma KeyRight(s: Server, screens: seq<Screened>, key: Key, done: set<Key>, before: seq<Option<Res>>, responses: array<Option<Res>>)
    requires responses.Length == |before| == |screens| && SlotsRight(s, screens, before, done)
    requires forall i | 0 <= i < |before| && i !in Indices(BatchOf(screens, key)) :: responses[..][i] == before[i]
    requires Fits(BatchOf(screens, key), responses)
    requires forall k | 0 <= k < |BatchOf(screens, key)| :: RightAt(s, key.group, BatchOf(screens, key)[k], responses)
    ensures SlotsRight(s, screens, responses[..], done + {key})
  {
    var batch, after := BatchOf(screens, key), responses[..];
    forall e | e in batch
      ensures e.index < |after| && after[e.index].Some? && Right(s, e.index, Queued(e.req, key.group), after[e.index].value)
    {
      var k :| 0 <= k < |batch| && batch[k] == e;
      assert RightAt(s, key.group, batch[k], responses);
    }
    SlotsStep(s, screens, key, done, before, after);
  }

  lemma KeyLogged(s: Server, screens: seq<Screened>, key: Key, done: set<Key>, before: seq<Option<Res>>, after: seq<Option<Res>>,
                  log: seq<Sent>, parts: seq<seq<Elem>>)
    requires key !in done && |after| == |before| && LogOk(s, screens, before, log) && LogWithin(screens, log, done)
    requires forall i | 0 <= i < |before| && i !in Indices(BatchOf(screens, key)) :: after[i] == before[i]
    requires Flatten(parts) == Misses(s, BatchOf(screens, key)) && PartsOk(s, key.group, parts, after)
    ensures LogOk(s, screens, after, log + Tag(key.group, parts))
  {
    forall j | 0 <= j < |log| ensures PartOk(s, log[j].group, log[j].elems, after) {
      forall k | 0 <= k < |log[j].elems| ensures after[log[j].elems[k].index] == before[log[j].elems[k].index] {
        OtherKey(screens, key, log[j].elems[k].index, done);
      }
      PartKept(s, log[j].group, log[j].elems, before, after);
    }
    forall j, e | 0 <= j < |parts| && e in parts[j] ensures e.index < |screens| && screens[e.index] == Queued(e.req, key.group) {
      InFlatten(parts, j, e);
      InBatch(screens, key, e);
    }
  }

  lemma OtherKey(screens: seq<Screened>, key: Key, i: nat, done: set<Key>)
    requires i < |screens| && screens[i].Queued? && KeyOf(screens, i) in done && key !in done
    ensures i !in Indices(BatchOf(screens, key))
  {
    if e :| e in BatchOf(screens, key) && e.index == i {
      InBatch(screens, key, e);
    }
  }

  lemma KeyWithin(s: Server, screens: seq<Screened>, key: Key, done: set<Key>, log: seq<Sent>, parts: seq<seq<Elem>>)
    requires LogWithin(screens, log, done) && Flatten(parts) == Misses(s, BatchOf(screens, key))
    ensures LogWithin(screens, log + Tag(key.group, parts), done + {key})
  {
    forall j, e | 0 <= j < |parts| && e in parts[j]
      ensures e.index < |screens| && screens[e.index].Queued? && KeyOf(screens, e.index) == key {
      InFlatten(parts, j, e);
      InBatch(screens, key, e);
    }
  }

  lemma KeyOnce(s: Server, screens: seq<Screened>, key: Key, done: set<Key>, log: seq<Sent>, parts: seq<seq<Elem>>)
    requires key !in done && Once(Logged(log), ToForward(s, screens, done)) && Flatten(parts) == Misses(s, BatchOf(screens, key))
    ensures Once(Logged(log + Tag(key.group, parts)), ToForward(s, screens, done + {key}))
  {
    var misses := Misses(s, BatchOf(screens, key));
    BatchDistinct(screens, key);
    MissesFit(s, BatchOf(screens, key));
    OnceEach(misses);
    ForwardingStep(s, screens, key, done);
    LoggedMore(log, key.group, parts);
    OnceMore(Logged(log), ToForward(s, screens, done), multiset(IndexList(misses)), Indices(misses));
  }

  /** The forwarded batches account for the slots: each may be forwarded, its elements are queued
      requests, and the slot of each holds its answer as part of that batch. */
  ghost predicate Accounts(s: Server, raws: seq<Option<Req>>, res: seq<Res>, log: seq<Sent>) {
    && |res| == |raws|
    && forall j | 0 <= j < |log| ::
         && Forwardable(s, Reqs(log[j].elems))
         && forall e | e in log[j].elems ::
              && e.index < |raws| && Screen(s, e.index, raws[e.index]) == Queued(e.req, log[j].group)
              && AnsweredIn(s.groups(log[j].group), Reqs(log[j].elems), e.req, res[e.index])
  }

  /** Answer a batch of requests. Unless the server stops, every slot is filled with the right
      response to the request at its place; every valid request that neither the server nor the
      cache answers is forwarded exactly once, in a batch of bounded size without duplicate ids, and
      the answer in its slot is the one that batch got. */
  method HandleBatchRPC(s: Server, raws: seq<Option<Req>>) returns (result: BatchResult, ghost log: seq<Sent>)
    requires s.maxUpstreamBatchSize > 0
    ensures result.Done? ==>
      && |result.res| == |raws|
      && (forall i | 0 <= i < |raws| :: Right(s, i, Screen(s, i, raws[i]), result.res[i]))
      && Accounts(s, raws, result.res, log)
      && (forall m | 0 <= m < |log| :: !s.late(m))
      && (result.cached <==> exists i :: 0 <= i < |raws| && Screen(s, i, raws[i]).Queued? && s.cached(i).Some?)
      && (forall i: nat :: Logged(log)[i] == if i < |raws| && Screen(s, i, raws[i]).Queued? && s.cached(i).None? then 1 else 0)
    ensures !result.Done? ==> exists key: Key :: Cause(s, key.group, BatchOf(ScreenAll(s, raws), key), result)
  {
    ghost var screens := ScreenAll(s, raws);
    var responses, batches := Queue(s, raws);
    assert SlotsRight(s, screens, responses[..], {});
    var stop, cached;
    stop, cached, log := ServeAll(s, batches, responses, screens);
    if stop.Some? {
      return stop.value, log;
    }
    var res := Collect(s, responses, screens, batches.Keys);
    forall i: nat | i < |raws| ensures Right(s, i, Screen(s, i, raws[i]), res[i]) {
      assert screens[i] == Screen(s, i, raws[i]);
    }
    LogAccounts(s, raws, responses[..], res, log);
    AnyHit(s, raws, screens, batches.Keys);
    result := Done(res, cached);
  }

  lemma AnyHit(s: Server, raws: seq<Option<Req>>, screens: seq<Screened>, keys: set<Key>)
    requires screens == ScreenAll(s, raws) && forall i | 0 <= i < |screens| && screens[i].Queued? :: KeyOf(screens, i) in keys
    ensures Hit(s, screens, keys) <==> exists i :: 0 <= i < |raws| && Screen(s, i, raws[i]).Queued? && s.cached(i).Some?
  {
    forall i | 0 <= i < |raws| && Screen(s, i, raws[i]).Queued? && s.cached(i).Some? ensures Hit(s, screens, keys) {
      assert screens[i].Queued?;
    }
  }

  lemma LogAccounts(s: Server, raws: seq<Option<Req>>, slots: seq<Option<Res>>, res: seq<Res>, log: seq<Sent>)
    requires |slots| == |raws| == |res| && LogOk(s, ScreenAll(s, raws), slots, log)
    requires forall i | 0 <= i < |raws| && slots[i].Some? :: res[i] == slots[i].value
    ensures Accounts(s, raws, res, log)
  {
    forall j, e | 0 <= j < |log| && e in log[j].elems
      ensures e.index < |raws| && Screen(s, e.index, raws[e.index]) == Queued(e.req, log[j].group)
      ensures AnsweredIn(s.groups(log[j].group), Reqs(log[j].elems), e.req, res[e.index])
    {
      var k :| 0 <= k < |log[j].elems| && log[j].elems[k] == e;
      assert PartOk(s, log[j].group, log[j].elems, slots);
    }
  }

  method Collect(s: Server, responses: array<Option<Res>>, ghost screens: seq<Screened>, ghost done: set<Key>)
    returns (res: seq<Res>)
    requires SlotsRight(s, screens, responses[..], done)
    requires forall i | 0 <= i < |screens| && screens[i].Queued? :: KeyOf(screens, i) in done
    ensures |res| == |screens| && forall i | 0 <= i < |screens| :: Right(s, i, screens[i], res[i])
    ensures forall i | 0 <= i < |screens| :: responses[i] == Some(res[i])
  {
    res := [];
    for i := 0 to responses.Length
      invariant |res| == i && forall k | 0 <= k < i :: responses[k] == Some(res[k])
    {
      assert responses[..][i].Some?;
      res := res + [responses[i].value];
    }
    assert forall i | 0 <= i < |screens| :: responses[..][i] == Some(res[i]);
  }
}
