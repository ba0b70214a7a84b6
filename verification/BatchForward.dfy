/** Forwarding one batch to a backend group: rewriting, sorting the reply, splicing in the
    answers that were given without asking a backend. */
module BatchForward {
  import opened Options
  import opened Words
  import opened Rewriter

  datatype Req = Req(version: string, name: string, params: Params, id: string)

  datatype ForwardError =
    | CantBeBatched
    | InvalidTarget
    | NotWhitelisted
    | TooLarge
    | Offline
    | OverCapacity
    | NoBackends
    | OtherError(k: nat)

  datatype RPCError =
    | ParseErr
    | InvalidRequest(why: string)
    | MethodNotWhitelisted
    | OverRateLimit
    | SenderRefused(k: nat)
    | OutOfRange
    | RangeAbove(max: nat)
    | Forwarding(error: ForwardError)

  datatype Body = Result(value: string) | BlockNumber(n: nat) | Error(error: RPCError)

  /** A response; the empty id stands for a missing one. */
  datatype Res = Res(id: string, body: Body)

  datatype Reply = Replied(res: seq<Res>) | Failed(error: ForwardError)

  /** A backend as the proxy sees it: a reply to every batch. */
  type Backend = seq<Req> -> Reply

  /** A group without consensus rewrites nothing. The backends come in the order of this
      request. */
  datatype Group = Group(consensus: Option<RewriteContext>, backends: seq<Backend>)

  /** Sorting. */

  predicate DistinctIDs(reqs: seq<Req>) {
    forall i, j | 0 <= i < j < |reqs| :: reqs[i].id != reqs[j].id
  }

  /** Where an id stands in the request, 0 if nowhere. */
  function Place(pos: map<string, nat>, id: string): nat {
    if id in pos then pos[id] else 0
  }

  predicate Positions(reqs: seq<Req>, pos: map<string, nat>) {
    && (forall i | 0 <= i < |reqs| :: reqs[i].id in pos && pos[reqs[i].id] == i)
    && (forall id | id in pos :: pos[id] < |reqs| && reqs[pos[id]].id == id)
  }

  predicate SortedBy(pos: map<string, nat>, res: seq<Res>) {
    forall i, j | 0 <= i < j < |res| :: Place(pos, res[i].id) <= Place(pos, res[j].id)
  }

  function ReqID(req: Req): string {
    req.id
  }

  function ResID(res: Res): string {
    res.id
  }

  function IDs<T>(id: T -> string, xs: seq<T>): (ids: seq<string>)
    ensures |ids| == |xs| && forall i | 0 <= i < |xs| :: ids[i] == id(xs[i])
  {
    seq(|xs|, i requires 0 <= i < |xs| => id(xs[i]))
  }

  /** The reply carries the ids of the request, in whatever order. */
  ghost predicate SameIDs(reqs: seq<Req>, res: seq<Res>) {
    multiset(IDs(ResID, res)) == multiset(IDs(ReqID, reqs))
  }

  ghost predicate Aligned(reqs: seq<Req>, res: seq<Res>) {
    |res| == |reqs| && forall i | 0 <= i < |reqs| :: res[i].id == reqs[i].id
  }

  lemma IDsConcat<T>(id: T -> string, a: seq<T>, b: seq<T>)
    ensures IDs(id, a + b) == IDs(id, a) + IDs(id, b)
  {
  }

  lemma Without<T>(id: T -> string, s: seq<T>, k: nat)
    requires k < |s|
    ensures var rest := s[..k] + s[k + 1..];
      && multiset(s) == multiset{s[k]} + multiset(rest)
      && multiset(IDs(id, s)) == multiset{id(s[k])} + multiset(IDs(id, rest))
  {
    assert s == s[..k] + [s[k]] + s[k + 1..];
    IDsConcat(id, s[..k] + [s[k]], s[k + 1..]);
    IDsConcat(id, s[..k], [s[k]]);
    IDsConcat(id, s[..k], s[k + 1..]);
    assert IDs(id, [s[k]]) == [id(s[k])];
  }

  lemma Cancel<T>(x: T, a: multiset<T>, b: multiset<T>)
    requires multiset{x} + a == multiset{x} + b
    ensures a == b
  {
    assert a == multiset{x} + a - multiset{x};
    assert b == multiset{x} + b - multiset{x};
  }

  lemma {:induction false} IDsOfPermutation<T>(id: T -> string, a: seq<T>, b: seq<T>)
    requires multiset(a) == multiset(b)
    ensures multiset(IDs(id, a)) == multiset(IDs(id, b))
    decreases |a|
  {
    if a == [] {
      assert |multiset(b)| == |b|;
    } else {
      var k := Occurs(a[0], a, b);
      Without(id, a, 0);
      Without(id, b, k);
      Cancel(a[0], multiset(a[..0] + a[1..]), multiset(b[..k] + b[k + 1..]));
      IDsOfPermutation(id, a[..0] + a[1..], b[..k] + b[k + 1..]);
    }
  }

  lemma Occurs<T>(x: T, a: seq<T>, b: seq<T>) returns (k: nat)
    requires multiset(a) == multiset(b) && x in a
    ensures k < |b| && b[k] == x
  {
    assert x in multiset(b);
    k :| 0 <= k < |b| && b[k] == x;
  }

  /** Strictly growing numbers below their count are the positions themselves. */
  lemma {:induction false} GrowingIsIdentity(ps: seq<nat>, i: nat)
    requires forall a, b | 0 <= a < b < |ps| :: ps[a] < ps[b]
    requires forall a | 0 <= a < |ps| :: ps[a] < |ps|
    requires i < |ps|
    ensures ps[i] == i
  {
    AtLeast(ps, i);
    AtMost(ps, i);
  }

  lemma {:induction false} AtLeast(ps: seq<nat>, i: nat)
    requires forall a, b | 0 <= a < b < |ps| :: ps[a] < ps[b]
    requires i < |ps|
    ensures ps[i] >= i
  {
    if i > 0 { AtLeast(ps, i - 1); }
  }

  lemma {:induction false} AtMost(ps: seq<nat>, i: nat)
    requires forall a, b | 0 <= a < b < |ps| :: ps[a] < ps[b]
    requires forall a | 0 <= a < |ps| :: ps[a] < |ps|
    requires i < |ps|
    ensures ps[i] <= i
    decreases |ps| - i
  {
    if i + 1 < |ps| { AtMost(ps, i + 1); }
  }

  /** Sorting a reply with the right ids puts every response where its request is. */
  lemma SortedIsAligned(reqs: seq<Req>, pos: map<string, nat>, res: seq<Res>)
    requires DistinctIDs(reqs) && Positions(reqs, pos) && SameIDs(reqs, res) && SortedBy(pos, res)
    ensures Aligned(reqs, res)
  {
    assert |multiset(IDs(ResID, res))| == |res| && |multiset(IDs(ReqID, reqs))| == |reqs|;
    forall i | 0 <= i < |res| ensures res[i].id in pos {
      assert IDs(ResID, res)[i] in multiset(IDs(ReqID, reqs));
    }
    var ps := seq(|res|, i requires 0 <= i < |res| => Place(pos, res[i].id));
    forall a, b | 0 <= a < b < |res| ensures ps[a] < ps[b] {
      IDsOnce(reqs, res, a, b);
    }
    forall i | 0 <= i < |reqs| ensures res[i].id == reqs[i].id {
      GrowingIsIdentity(ps, i);
    }
  }

  /** The ids of a reply with the right ids are distinct. */
  lemma IDsOnce(reqs: seq<Req>, res: seq<Res>, a: nat, b: nat)
    requires DistinctIDs(reqs) && SameIDs(reqs, res) && a < b < |res|
    ensures res[a].id != res[b].id
  {
    var ids, want := IDs(ResID, res), IDs(ReqID, reqs);
    if ids[a] == ids[b] {
      TwiceIn(ids, a, b);
      var k :| 0 <= k < |want| && want[k] == ids[a];
      OnceIn(want, k);
    }
  }

  lemma TwiceIn(s: seq<string>, a: nat, b: nat)
    requires a < b < |s| && s[a] == s[b]
    ensures multiset(s)[s[a]] >= 2 && s[a] in multiset(s)
  {
    assert s == s[..a] + [s[a]] + s[a + 1..b] + [s[b]] + s[b + 1..];
  }

  lemma OnceIn<T>(s: seq<T>, k: nat)
    requires k < |s| && forall i, j | 0 <= i < j < |s| :: s[i] != s[j]
    ensures multiset(s)[s[k]] == 1
  {
    assert s == s[..k] + [s[k]] + s[k + 1..];
  }

  /** After a response to any request but the first come only responses to that one or later ones:
      those with ids nobody asked for stand with the first. */
  ghost predicate InRequestOrder(reqs: seq<Req>, res: seq<Res>) {
    forall a, b, n | 0 <= a < b < |res| && 0 < n < |reqs| && reqs[n].id == res[a].id ::
      exists m :: n <= m < |reqs| && reqs[m].id == res[b].id
  }

  lemma SortedInOrder(reqs: seq<Req>, pos: map<string, nat>, res: seq<Res>)
    requires Positions(reqs, pos) && SortedBy(pos, res)
    ensures InRequestOrder(reqs, res)
  {
    forall a, b, n | 0 <= a < b < |res| && 0 < n < |reqs| && reqs[n].id == res[a].id
      ensures exists m :: n <= m < |reqs| && reqs[m].id == res[b].id
    {
      assert Place(pos, res[a].id) == n <= Place(pos, res[b].id);
      assert reqs[pos[res[b].id]].id == res[b].id;
    }
  }

  /** The sort at the end of a backend's answer. The source panics on duplicate ids. */
  method SortBatchRPCResponse(reqs: seq<Req>, res: array<Res>)
    requires DistinctIDs(reqs)
    modifies res
    ensures multiset(res[..]) == old(multiset(res[..]))
    ensures InRequestOrder(reqs, res[..])
    ensures SameIDs(reqs, old(res[..])) ==> Aligned(reqs, res[..])
  {
    var pos: map<string, nat> := map[];
    for i := 0 to |reqs|
      invariant Positions(reqs[..i], pos)
    {
      assert reqs[..i + 1] == reqs[..i] + [reqs[i]];
      pos := pos[reqs[i].id := i];
    }
    assert reqs[..|reqs|] == reqs;
    SortByPlace(pos, res);
    SortedInOrder(reqs, pos, res[..]);
    IDsOfPermutation(ResID, res[..], old(res[..]));
    if SameIDs(reqs, res[..]) {
      SortedIsAligned(reqs, pos, res[..]);
    }
  }

  method SortByPlace(pos: map<string, nat>, res: array<Res>)
    modifies res
    ensures multiset(res[..]) == old(multiset(res[..])) && SortedBy(pos, res[..])
  {
    for i := 0 to res.Length
      invariant multiset(res[..]) == old(multiset(res[..])) && SortedBy(pos, res[..i])
    {
      SinkLast(pos, res, i);
    }
    assert res[..res.Length] == res[..];
  }

  /** The first `n + 1` elements are in order but for the one in place `j`, which may belong
      further down. */
  predicate Sinking(pos: map<string, nat>, s: seq<Res>, j: nat, n: nat) {
    && j <= n < |s|
    && (forall a, b | 0 <= a < b <= n && a != j && b != j :: Place(pos, s[a].id) <= Place(pos, s[b].id))
    && (forall b | j < b <= n :: Place(pos, s[j].id) <= Place(pos, s[b].id))
  }

  lemma SwapSinks(pos: map<string, nat>, s: seq<Res>, s': seq<Res>, j: nat, n: nat)
    requires 0 < j && Sinking(pos, s, j, n) && Place(pos, s[j].id) < Place(pos, s[j - 1].id)
    requires s' == s[j := s[j - 1]][j - 1 := s[j]]
    ensures Sinking(pos, s', j - 1, n) && multiset(s') == multiset(s)
  {
  }

  /** Move the element in place `n` down to where it belongs. */
  method SinkLast(pos: map<string, nat>, res: array<Res>, n: nat)
    requires n < res.Length && SortedBy(pos, res[..n])
    modifies res
    ensures multiset(res[..]) == old(multiset(res[..])) && SortedBy(pos, res[..n + 1])
  {
    var j := n;
    assert forall a | 0 <= a < n :: res[..n][a] == res[a];
    while j > 0 && Place(pos, res[j].id) < Place(pos, res[j - 1].id)
      invariant 0 <= j <= n && multiset(res[..]) == old(multiset(res[..])) && Sinking(pos, res[..], j, n)
    {
      ghost var before := res[..];
      res[j], res[j - 1] := res[j - 1], res[j];
      SwapSinks(pos, before, res[..], j, n);
      j := j - 1;
    }
    SunkIsSorted(pos, res[..], j, n);
  }

  lemma SunkIsSorted(pos: map<string, nat>, s: seq<Res>, j: nat, n: nat)
    requires Sinking(pos, s, j, n) && (j > 0 ==> Place(pos, s[j - 1].id) <= Place(pos, s[j].id))
    ensures SortedBy(pos, s[..n + 1])
  {
  }

  /** Rewriting. */

  /** What the group does with a request before it asks a backend. */
  datatype Treatment = Answer(res: Res) | Send(req: Req) | Crash

  function Treat(consensus: Option<RewriteContext>, req: Req): Treatment {
    if consensus.None? then Send(req)
    else
      var (result, request) := RewriteTags(consensus.value, Request(req.name, req.params));
      match result
      case OverrideError(e) =>
        Answer(Res(req.id, Error(match e
                                 case BlockOutOfRange => OutOfRange
                                 case RangeTooLarge => RangeAbove(consensus.value.maxBlockRange)
                                 case CannotParse => ParseErr)))
      case OverrideResponse => Answer(Res(req.id, BlockNumber(consensus.value.latest)))
      case Panics => Crash
      case _ => Send(req.(params := request.params))
  }

  /** What that comes to, in terms of what the request means. */

  /** The group's consensus, if it has one, looks as it does in practice. */
  predicate Sensible(consensus: Option<RewriteContext>) {
    consensus.Some? ==> consensus.value.Sensible()
  }

  /** The answer given without asking a backend, if there is one. */
  function OwnAnswer(consensus: Option<RewriteContext>, req: Req): Option<Body> {
    if consensus.None? then None
    else if req.name == "eth_blockNumber" then Some(BlockNumber(consensus.value.latest))
    else
      match ShapeRefused(consensus.value, ShapeOf(req.name), req.params)
      case None => None
      case Some(CannotParse) => Some(Error(ParseErr))
      case Some(BlockOutOfRange) => Some(Error(OutOfRange))
      case Some(RangeTooLarge) => Some(Error(RangeAbove(consensus.value.maxBlockRange)))
  }

  /** What a backend is asked in place of `req`: the same method with the same id, about the blocks
      that `req` means to the group, wherever the tags of the backend stand. */
  ghost predicate Renders(consensus: Option<RewriteContext>, req: Req, q: Req) {
    match consensus
    case None => q == req
    case Some(c) =>
      && q == req.(params := q.params)
      && Sound(c, ShapeOf(req.name), q.params)
      && forall node :: SameBlocks(c.Own(), node, ShapeOf(req.name), req.params, q.params)
  }

  predicate Crashing(consensus: Option<RewriteContext>, req: Req) {
    consensus.Some? && Panicking(Request(req.name, req.params))
  }

  /** A request is answered here, or it crashes the server, or a backend is asked the same. */
  lemma TreatMeans(consensus: Option<RewriteContext>, req: Req)
    requires Sensible(consensus)
    ensures match Treat(consensus, req)
            case Answer(r) => !Crashing(consensus, req) && r.id == req.id && OwnAnswer(consensus, req) == Some(r.body)
            case Send(q) => !Crashing(consensus, req) && OwnAnswer(consensus, req).None? && Renders(consensus, req, q)
            case Crash => Crashing(consensus, req)
  {
    if consensus.Some? {
      var c, request := consensus.value, Request(req.name, req.params);
      RewriteTagsDecides(c, request);
      if Forwarded(RewriteTags(c, request).0) {
        RewriteTagsSound(c, request);
        forall node ensures SameBlocks(c.Own(), node, ShapeOf(req.name), req.params, RewriteTags(c, request).1.params) {
          RewriteTagsMeans(c, node, request);
        }
      }
    }
  }

  /** `sent` renders the requests that are not answered here, one by one and in their order. */
  ghost predicate AllRendered(consensus: Option<RewriteContext>, reqs: seq<Req>, sent: seq<Req>) {
    OneByOne(req => OwnAnswer(consensus, req).Some?, (req, q) => Renders(consensus, req, q), reqs, sent)
  }

  ghost predicate OneByOne(own: Req -> bool, renders: (Req, Req) -> bool, reqs: seq<Req>, sent: seq<Req>) {
    if reqs == [] then sent == []
    else
      var init, req := reqs[..|reqs| - 1], reqs[|reqs| - 1];
      if own(req) then OneByOne(own, renders, init, sent)
      else sent != [] && renders(req, sent[|sent| - 1]) && OneByOne(own, renders, init, sent[..|sent| - 1])
  }

  lemma {:induction false} SendsOneByOne(own: Req -> bool, renders: (Req, Req) -> bool, reqs: seq<Req>, ts: seq<Treatment>)
    requires |ts| == |reqs| && NoCrash(ts)
    requires forall i | 0 <= i < |ts| && ts[i].Answer? :: own(reqs[i])
    requires forall i | 0 <= i < |ts| && ts[i].Send? :: !own(reqs[i]) && renders(reqs[i], ts[i].req)
    ensures OneByOne(own, renders, reqs, Sends(ts))
    decreases |reqs|
  {
    if reqs != [] {
      var n := |reqs| - 1;
      SendsOneByOne(own, renders, reqs[..n], ts[..n]);
      if ts[n].Send? {
        assert Sends(ts)[..|Sends(ts)| - 1] == Sends(ts[..n]);
      }
    }
  }

  lemma SendsRendered(consensus: Option<RewriteContext>, reqs: seq<Req>)
    requires Sensible(consensus) && NoCrash(TreatAll(consensus, reqs))
    ensures AllRendered(consensus, reqs, Sends(TreatAll(consensus, reqs)))
  {
    var ts := TreatAll(consensus, reqs);
    forall i | 0 <= i < |reqs|
      ensures ts[i].Answer? ==> OwnAnswer(consensus, reqs[i]).Some?
      ensures ts[i].Send? ==> OwnAnswer(consensus, reqs[i]).None? && Renders(consensus, reqs[i], ts[i].req)
    {
      TreatMeans(consensus, reqs[i]);
    }
    SendsOneByOne(req => OwnAnswer(consensus, req).Some?, (req, q) => Renders(consensus, req, q), reqs, ts);
  }

  function TreatAll(consensus: Option<RewriteContext>, reqs: seq<Req>): (ts: seq<Treatment>)
    ensures |ts| == |reqs| && forall i | 0 <= i < |reqs| :: ts[i] == Treat(consensus, reqs[i])
  {
    seq(|reqs|, i requires 0 <= i < |reqs| => Treat(consensus, reqs[i]))
  }

  /** The requests that go to a backend, and the answers given without one, with their places. */
  function Sends(ts: seq<Treatment>): (reqs: seq<Req>)
    ensures |reqs| <= |ts|
  {
    if ts == [] then []
    else
      var init, t := Sends(ts[..|ts| - 1]), ts[|ts| - 1];
      if t.Send? then init + [t.req] else init
  }

  function Answers(ts: seq<Treatment>): seq<(nat, Res)> {
    if ts == [] then []
    else
      var init, t := Answers(ts[..|ts| - 1]), ts[|ts| - 1];
      if t.Answer? then init + [(|ts| - 1, t.res)] else init
  }

  predicate NoCrash(ts: seq<Treatment>) {
    forall i | 0 <= i < |ts| :: !ts[i].Crash?
  }

  /** The responses in the order of the requests: `replies` answers those that were sent. */
  function Merge(ts: seq<Treatment>, replies: seq<Res>): (res: seq<Res>)
    requires NoCrash(ts) && |replies| == |Sends(ts)|
    ensures |res| == |ts|
  {
    if ts == [] then []
    else
      var init, t := ts[..|ts| - 1], ts[|ts| - 1];
      if t.Send? then Merge(init, replies[..|replies| - 1]) + [replies[|replies| - 1]]
      else Merge(init, replies) + [t.res]
  }

  /** Every sent request finds its own reply at its own place. */
  lemma {:induction false} MergeAt(ts: seq<Treatment>, replies: seq<Res>, i: nat)
    requires NoCrash(ts) && |replies| == |Sends(ts)| && i < |ts|
    ensures ts[i].Answer? ==> Merge(ts, replies)[i] == ts[i].res
    ensures ts[i].Send? ==>
      var k := |Sends(ts[..i])|;
      k < |replies| && Sends(ts)[k] == ts[i].req && Merge(ts, replies)[i] == replies[k]
    decreases |ts|
  {
    var init := ts[..|ts| - 1];
    if i < |init| {
      MergeAt(init, if ts[|ts| - 1].Send? then replies[..|replies| - 1] else replies, i);
      assert init[..i] == ts[..i];
    }
  }

  /** The source's splice: insert at the place, but append when there is nothing yet. */
  function SpliceOne(res: seq<Res>, answer: (nat, Res)): seq<Res>
    requires answer.0 <= |res|
  {
    if res != [] then res[..answer.0] + [answer.1] + res[answer.0..] else res + [answer.1]
  }

  predicate Fit(n: nat, answers: seq<(nat, Res)>) {
    forall k | 0 <= k < |answers| :: answers[k].0 <= n + k
  }

  function SpliceAll(res: seq<Res>, answers: seq<(nat, Res)>): (all: seq<Res>)
    requires Fit(|res|, answers)
    ensures |all| == |res| + |answers|
  {
    if answers == [] then res
    else SpliceOne(SpliceAll(res, answers[..|answers| - 1]), answers[|answers| - 1])
  }

  lemma {:induction false} SpliceBefore(res: seq<Res>, answers: seq<(nat, Res)>, last: Res)
    requires Fit(|res|, answers)
    ensures SpliceAll(res + [last], answers) == SpliceAll(res, answers) + [last]
    decreases |answers|
  {
    if answers != [] {
      SpliceBefore(res, answers[..|answers| - 1], last);
    }
  }

  lemma {:induction false} AnswersFit(ts: seq<Treatment>)
    requires NoCrash(ts)
    ensures Fit(|Sends(ts)|, Answers(ts)) && |Sends(ts)| + |Answers(ts)| == |ts|
  {
    if ts != [] {
      AnswersFit(ts[..|ts| - 1]);
    }
  }

  /** Splicing the answers into the replies yields the responses in the order of the requests. */
  lemma {:induction false} SpliceIsMerge(ts: seq<Treatment>, replies: seq<Res>)
    requires NoCrash(ts) && |replies| == |Sends(ts)|
    ensures Fit(|replies|, Answers(ts)) && SpliceAll(replies, Answers(ts)) == Merge(ts, replies)
    decreases |ts|
  {
    AnswersFit(ts);
    if ts != [] {
      var init, t := ts[..|ts| - 1], ts[|ts| - 1];
      if t.Send? {
        SpliceIsMerge(init, replies[..|replies| - 1]);
        SpliceSend(ts, init, replies, replies[..|replies| - 1], replies[|replies| - 1], Answers(init));
      } else {
        SpliceIsMerge(init, replies);
        SpliceAnswer(ts, init, replies, t.res, Answers(init));
      }
    }
  }

  lemma SpliceSend(ts: seq<Treatment>, init: seq<Treatment>, replies: seq<Res>, front: seq<Res>, last: Res,
                   answers: seq<(nat, Res)>)
    requires NoCrash(ts) && |replies| == |Sends(ts)| && ts != [] && init == ts[..|ts| - 1] && ts[|ts| - 1].Send?
    requires replies == front + [last] && answers == Answers(init)
    requires Fit(|front|, answers) && SpliceAll(front, answers) == Merge(init, front)
    ensures Fit(|replies|, answers) && Answers(ts) == answers && SpliceAll(replies, answers) == Merge(ts, replies)
  {
    SpliceBefore(front, answers, last);
    assert replies[..|replies| - 1] == front;
  }

  lemma SpliceAnswer(ts: seq<Treatment>, init: seq<Treatment>, replies: seq<Res>, res: Res,
                     answers: seq<(nat, Res)>)
    requires NoCrash(ts) && |replies| == |Sends(ts)| && ts != [] && init == ts[..|ts| - 1]
    requires ts[|ts| - 1] == Answer(res) && answers == Answers(init)
    requires Fit(|replies|, answers) && SpliceAll(replies, answers) == Merge(init, replies)
    requires Fit(|replies|, Answers(ts))
    ensures SpliceAll(replies, Answers(ts)) == Merge(ts, replies)
  {
    AnswersSnoc(ts, res);
    SpliceSnoc(replies, answers, (|ts| - 1, res));
  }

  lemma AnswersSnoc(ts: seq<Treatment>, res: Res)
    requires ts != [] && ts[|ts| - 1] == Answer(res)
    ensures Answers(ts) == Answers(ts[..|ts| - 1]) + [(|ts| - 1, res)]
  {
  }

  lemma SpliceSnoc(res: seq<Res>, answers: seq<(nat, Res)>, last: (nat, Res))
    requires Fit(|res|, answers) && Fit(|res|, answers + [last])
    ensures last.0 <= |res| + |answers|
    ensures SpliceAll(res, answers + [last]) == SpliceOne(SpliceAll(res, answers), last)
  {
    var all := answers + [last];
    assert all[..|all| - 1] == answers && all[|all| - 1] == last;
  }

  /** The treatments keep the ids of the requests. */
  predicate KeepIDs(ts: seq<Treatment>, reqs: seq<Req>) {
    && |ts| == |reqs|
    && forall i | 0 <= i < |ts| ::
         (ts[i].Send? ==> ts[i].req.id == reqs[i].id) && (ts[i].Answer? ==> ts[i].res.id == reqs[i].id)
  }

  lemma TreatKeepsIDs(consensus: Option<RewriteContext>, reqs: seq<Req>)
    ensures KeepIDs(TreatAll(consensus, reqs), reqs)
  {
  }

  lemma {:induction false} SendsAmong(ts: seq<Treatment>, reqs: seq<Req>, q: Req)
    requires KeepIDs(ts, reqs) && q in Sends(ts)
    ensures exists i :: 0 <= i < |reqs| && reqs[i].id == q.id
    decreases |ts|
  {
    var n := |ts| - 1;
    if q in Sends(ts[..n]) {
      SendsAmong(ts[..n], reqs[..n], q);
      var i :| 0 <= i < n && reqs[..n][i].id == q.id;
      assert reqs[i].id == q.id;
    } else {
      assert reqs[n].id == q.id;
    }
  }

  lemma {:induction false} SendsDistinct(ts: seq<Treatment>, reqs: seq<Req>)
    requires KeepIDs(ts, reqs) && DistinctIDs(reqs)
    ensures DistinctIDs(Sends(ts))
    decreases |ts|
  {
    if ts != [] {
      var n := |ts| - 1;
      SendsDistinct(ts[..n], reqs[..n]);
      var before := Sends(ts[..n]);
      forall i | 0 <= i < |before| ensures before[i].id != reqs[n].id {
        SendsAmong(ts[..n], reqs[..n], before[i]);
      }
    }
  }

  /** Forwarding. */

  datatype ForwardResult = Responses(res: seq<Res>) | Fails(error: ForwardError) | Crashes

  /** One backend answered what was sent, and its replies went to their places. */
  ghost predicate Served(group: Group, reqs: seq<Req>, res: seq<Res>, replies: seq<Res>, k: nat) {
    var ts := TreatAll(group.consensus, reqs);
    && NoCrash(ts)
    && |replies| == |Sends(ts)|
    && res == Merge(ts, replies)
    && (Sends(ts) != [] ==>
          && k < |group.backends|
          && group.backends[k](Sends(ts)).Replied?
          && multiset(replies) == multiset(group.backends[k](Sends(ts)).res)
          && (SameIDs(Sends(ts), replies) ==> Aligned(Sends(ts), replies)))
  }

  /** Every reply carries the ids it was asked for. */
  ghost predicate Faithful(group: Group) {
    forall k, batch | 0 <= k < |group.backends| && group.backends[k](batch).Replied? ::
      SameIDs(batch, group.backends[k](batch).res)
  }

  /** Where a response comes from. */
  ghost predicate FromBackend(group: Group, req: Req, batch: seq<Req>, k: nat, r: Res) {
    && k < |group.backends| && req in batch && DistinctIDs(batch)
    && group.backends[k](batch).Replied? && r in group.backends[k](batch).res
    && (Faithful(group) ==> r.id == req.id)
  }

  /** Response `i` answers request `i`: it was made up here, or it is in the reply of a backend to
      a batch with that request, and has its id. */
  lemma ServedAt(group: Group, reqs: seq<Req>, res: seq<Res>, replies: seq<Res>, k: nat, i: nat)
    requires DistinctIDs(reqs) && Served(group, reqs, res, replies, k) && i < |reqs|
    ensures |res| == |reqs|
    ensures match Treat(group.consensus, reqs[i])
            case Answer(r) => res[i] == r
            case Send(q) => FromBackend(group, q, Sends(TreatAll(group.consensus, reqs)), k, res[i])
            case Crash => false
  {
    var ts := TreatAll(group.consensus, reqs);
    MergeAt(ts, replies, i);
    TreatKeepsIDs(group.consensus, reqs);
    SendsDistinct(ts, reqs);
    if ts[i].Send? {
      var n := |Sends(ts[..i])|;
      assert Sends(ts)[n] in Sends(ts);
      assert replies[n] in multiset(replies);
      IDsOfPermutation(ResID, replies, group.backends[k](Sends(ts)).res);
    }
  }

  /** The response to `req` when backend `k` served `sent`, in terms of what the request means. */
  ghost predicate AnswersRequest(group: Group, req: Req, sent: seq<Req>, k: nat, r: Res) {
    match OwnAnswer(group.consensus, req)
    case Some(body) => r == Res(req.id, body)
    case None => exists q :: Renders(group.consensus, req, q) && FromBackend(group, q, sent, k, r)
  }

  /** So every response is the group's own answer, or a backend's to the same request about the
      same blocks. */
  lemma ServedMeans(group: Group, reqs: seq<Req>, res: seq<Res>, replies: seq<Res>, k: nat, i: nat)
    requires Sensible(group.consensus)
    requires DistinctIDs(reqs) && Served(group, reqs, res, replies, k) && i < |reqs|
    ensures var sent := Sends(TreatAll(group.consensus, reqs));
      |res| == |reqs| && AllRendered(group.consensus, reqs, sent) && AnswersRequest(group, reqs[i], sent, k, res[i])
  {
    ServedAt(group, reqs, res, replies, k, i);
    SendsRendered(group.consensus, reqs);
    TreatMeans(group.consensus, reqs[i]);
  }

  /** What is wrong with a backend's answer to a batch, if anything. */
  function Trouble(backend: Backend, reqs: seq<Req>): Option<ForwardError> {
    if backend(reqs).Failed? then Some(backend(reqs).error)
    else if |backend(reqs).res| != |reqs| then Some(OtherError(0))
    else None
  }

  /** Errors that end the search for a backend. */
  predicate Fatal(e: ForwardError) {
    e in {CantBeBatched, InvalidTarget, ForwardError.NotWhitelisted, TooLarge}
  }

  /** From backend `b` on: the first one that answers, or why none does. */
  datatype Choice = Chosen(k: nat) | GivenUp(error: ForwardError)

  function Choose(backends: seq<Backend>, sent: seq<Req>, b: nat): Choice
    decreases |backends| - b
  {
    if b >= |backends| then GivenUp(NoBackends)
    else if sent == [] || Trouble(backends[b], sent).None? then Chosen(b)
    else if Fatal(Trouble(backends[b], sent).value) then GivenUp(Trouble(backends[b], sent).value)
    else Choose(backends, sent, b + 1)
  }

  /** The backend did not serve the batch, and the next one is asked. */
  predicate Skipped(backend: Backend, sent: seq<Req>) {
    match backend(sent)
    case Replied(res) => |res| != |sent|
    case Failed(e) => e != CantBeBatched && e != InvalidTarget && e != ForwardError.NotWhitelisted && e != TooLarge
  }

  /** Who serves a batch: the first backend in order that replies to all of it. The search ends
      before, with the error, at a backend whose refusal every other one would repeat. */
  predicate Failover(backends: seq<Backend>, sent: seq<Req>, choice: Choice) {
    match choice
    case Chosen(k) =>
      && k < |backends|
      && (if sent == [] then k == 0
          else
            && (forall j | 0 <= j < k :: Skipped(backends[j], sent))
            && backends[k](sent).Replied? && |backends[k](sent).res| == |sent|)
    case GivenUp(e) =>
      || (e == NoBackends && (backends == [] || sent != []) && forall j | 0 <= j < |backends| :: Skipped(backends[j], sent))
      || (sent != [] && exists k :: 0 <= k < |backends| && !Skipped(backends[k], sent) && backends[k](sent) == Failed(e)
                          && forall j | 0 <= j < k :: Skipped(backends[j], sent))
  }

  lemma {:induction false} ChooseFails(backends: seq<Backend>, sent: seq<Req>, b: nat)
    requires b <= |backends| && (sent == [] ==> b == 0) && forall j | 0 <= j < b :: Skipped(backends[j], sent)
    ensures Failover(backends, sent, Choose(backends, sent, b))
    decreases |backends| - b
  {
    if b < |backends| && sent != [] && Skipped(backends[b], sent) {
      ChooseFails(backends, sent, b + 1);
    }
  }

  /** A backend's answer to a batch, checked and sorted. */
  method BackendForward(backend: Backend, reqs: seq<Req>) returns (reply: Reply)
    requires DistinctIDs(reqs)
    ensures Trouble(backend, reqs) == if reply.Failed? then Some(reply.error) else None
    ensures reply.Replied? ==>
      && backend(reqs).Replied? && |reply.res| == |reqs|
      && multiset(reply.res) == multiset(backend(reqs).res)
      && (SameIDs(reqs, reply.res) ==> Aligned(reqs, reply.res))
  {
    reply := backend(reqs);
    if reply.Failed? {
      return;
    }
    if |reply.res| != |reqs| {
      return Failed(OtherError(0));
    }
    var given := reply.res;
    var res := new Res[|given|](i requires 0 <= i < |given| => given[i]);
    assert res[..] == given;
    SortBatchRPCResponse(reqs, res);
    IDsOfPermutation(ResID, res[..], given);
    assert |multiset(res[..])| == |given|;
    reply := Replied(res[..]);
  }

  lemma TreatNext(ts: seq<Treatment>, i: nat, t: Treatment)
    requires i < |ts| && ts[i] == t
    ensures t.Crash? ==> !NoCrash(ts)
    ensures !t.Crash? && NoCrash(ts[..i]) ==> NoCrash(ts[..i + 1])
    ensures Answers(ts[..i + 1]) == Answers(ts[..i]) + if t.Answer? then [(i, t.res)] else []
    ensures Sends(ts[..i + 1]) == Sends(ts[..i]) + if t.Send? then [t.req] else []
  {
    assert ts[..i + 1][..i] == ts[..i];
  }

  method RewriteAll(consensus: Option<RewriteContext>, reqs: seq<Req>)
    returns (crashed: bool, answers: seq<(nat, Res)>, sent: seq<Req>)
    ensures var ts := TreatAll(consensus, reqs);
      crashed == !NoCrash(ts) && (!crashed ==> answers == Answers(ts) && sent == Sends(ts))
  {
    ghost var ts := TreatAll(consensus, reqs);
    answers, sent := [], [];
    for i := 0 to |reqs|
      invariant NoCrash(ts[..i]) && answers == Answers(ts[..i]) && sent == Sends(ts[..i])
    {
      var t := Treat(consensus, reqs[i]);
      TreatNext(ts, i, t);
      match t
      case Answer(r) => answers := answers + [(i, r)];
      case Send(q) => sent := sent + [q];
      case Crash => return true, [], [];
    }
    assert ts[..|reqs|] == ts;
    crashed := false;
  }

  method Splice(replies: seq<Res>, answers: seq<(nat, Res)>) returns (res: seq<Res>)
    requires Fit(|replies|, answers)
    ensures res == SpliceAll(replies, answers)
  {
    res := replies;
    for k := 0 to |answers|
      invariant Fit(|replies|, answers[..k]) && res == SpliceAll(replies, answers[..k])
    {
      assert answers[..k + 1][..k] == answers[..k];
      var (index, r) := answers[k];
      if |res| > 0 {
        res := res[..index] + [r] + res[index..];
      } else {
        res := res + [r];
      }
    }
    assert answers[..|answers|] == answers;
  }

  /** `r` answers `req` as part of the batch `reqs`: the requests that the group does not answer
      itself were rendered, the backends asked in order, and `r` is what the request got there, or
      the error that all of them came to. */
  ghost predicate AnsweredRight(group: Group, reqs: seq<Req>, req: Req, r: Res) {
    exists sent, choice :: AllRendered(group.consensus, reqs, sent) && Failover(group.backends, sent, choice) &&
      match choice
      case GivenUp(e) => r == Res(req.id, Error(Forwarding(e)))
      case Chosen(k) => AnswersRequest(group, req, sent, k, r)
  }

  lemma ResponsesRight(group: Group, reqs: seq<Req>, res: seq<Res>, replies: seq<Res>, k: nat)
    requires Sensible(group.consensus) && DistinctIDs(reqs) && Served(group, reqs, res, replies, k)
    requires Choose(group.backends, Sends(TreatAll(group.consensus, reqs)), 0) == Chosen(k)
    ensures |res| == |reqs| && forall i | 0 <= i < |reqs| :: AnsweredRight(group, reqs, reqs[i], res[i])
  {
    var sent := Sends(TreatAll(group.consensus, reqs));
    ChooseFails(group.backends, sent, 0);
    forall i | 0 <= i < |reqs| ensures AnsweredRight(group, reqs, reqs[i], res[i]) {
      ServedMeans(group, reqs, res, replies, k, i);
      assert AllRendered(group.consensus, reqs, sent) && Failover(group.backends, sent, Chosen(k));
    }
  }

  lemma FailureRight(group: Group, reqs: seq<Req>, e: ForwardError)
    requires Sensible(group.consensus) && NoCrash(TreatAll(group.consensus, reqs))
    requires Choose(group.backends, Sends(TreatAll(group.consensus, reqs)), 0) == GivenUp(e)
    ensures forall i | 0 <= i < |reqs| :: AnsweredRight(group, reqs, reqs[i], Res(reqs[i].id, Error(Forwarding(e))))
  {
    var sent := Sends(TreatAll(group.consensus, reqs));
    ChooseFails(group.backends, sent, 0);
    SendsRendered(group.consensus, reqs);
    assert AllRendered(group.consensus, reqs, sent) && Failover(group.backends, sent, GivenUp(e));
  }

  lemma CrashMeans(consensus: Option<RewriteContext>, reqs: seq<Req>)
    requires Sensible(consensus)
    ensures NoCrash(TreatAll(consensus, reqs)) <==> forall req | req in reqs :: !Crashing(consensus, req)
  {
    forall i | 0 <= i < |reqs| ensures Treat(consensus, reqs[i]).Crash? <==> Crashing(consensus, reqs[i]) {
      TreatMeans(consensus, reqs[i]);
    }
  }

  /** Forward a batch to the first backend that answers. */
  method Forward(group: Group, reqs: seq<Req>) returns (result: ForwardResult, ghost replies: seq<Res>, ghost k: nat)
    requires DistinctIDs(reqs)
    ensures result.Crashes? <==> !NoCrash(TreatAll(group.consensus, reqs))
    ensures result.Responses? ==> Served(group, reqs, result.res, replies, k)
    ensures reqs != [] && !result.Crashes? ==>
      var choice := Choose(group.backends, Sends(TreatAll(group.consensus, reqs)), 0);
      if result.Responses? then choice == Chosen(k) else choice == GivenUp(result.error)
    ensures Sensible(group.consensus) ==> (result.Crashes? <==> exists req :: req in reqs && Crashing(group.consensus, req))
    ensures Sensible(group.consensus) && result.Responses? ==>
      |result.res| == |reqs| && forall i | 0 <= i < |reqs| :: AnsweredRight(group, reqs, reqs[i], result.res[i])
    ensures Sensible(group.consensus) && result.Fails? ==>
      forall i | 0 <= i < |reqs| :: AnsweredRight(group, reqs, reqs[i], Res(reqs[i].id, Error(Forwarding(result.error))))
  {
    if Sensible(group.consensus) {
      CrashMeans(group.consensus, reqs);
    }
    replies, k := [], 0;
    if reqs == [] {
      return Responses([]), [], 0;
    }
    ghost var ts := TreatAll(group.consensus, reqs);
    var crashed, answers, sent := RewriteAll(group.consensus, reqs);
    if crashed {
      return Crashes, [], 0;
    }
    TreatKeepsIDs(group.consensus, reqs);
    SendsDistinct(ts, reqs);
    var b := 0;
    while b < |group.backends|
      invariant Choose(group.backends, sent, 0) == Choose(group.backends, sent, b)
    {
      var res := [];
      if |sent| > 0 {
        var reply := BackendForward(group.backends[b], sent);
        if reply.Failed? {
          if Fatal(reply.error) {
            if Sensible(group.consensus) {
              FailureRight(group, reqs, reply.error);
            }
            return Fails(reply.error), [], 0;
          }
          b := b + 1;
          continue;
        }
        res := reply.res;
      }
      SpliceIsMerge(ts, res);
      replies, k := res, b;
      res := Splice(res, answers);
      if Sensible(group.consensus) {
        ResponsesRight(group, reqs, res, replies, k);
      }
      return Responses(res), replies, k;
    }
    result := Fails(NoBackends);
    if Sensible(group.consensus) {
      FailureRight(group, reqs, NoBackends);
    }
  }
}
