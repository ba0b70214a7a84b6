/** Rewriting block tags of requests so that they comply with the consensus of the group. */
module Rewriter {
  import opened Options
  import opened Words

  const MAX_INT64: nat := 0x7fff_ffff_ffff_ffff

  /** What a JSON string says to the rewriter. `Num` is a hexadecimal quantity of up to 64 bits,
      `Bad` any string that is none of the others. */
  datatype Text =
    | Earliest
    | Pending
    | Latest
    | Safe
    | Finalized
    | Num(n: U64)
    | HashText(h: nat)
    | Empty
    | Bad(k: nat)

  datatype Json =
    | Null
    | Bool(b: bool)
    | Str(text: Text)
    | Obj(fields: map<string, Json>)
    | Other(k: nat)

  /** Parameters of a request; `Undecodable` when they are not a list. */
  datatype Params = Undecodable | List(items: seq<Json>)

  datatype Request = Request(name: string, params: Params)

  /** Where a node's block tags stand. */
  datatype Heads = Heads(latest: U64, safe: U64, finalized: U64)

  datatype RewriteContext = RewriteContext(latest: U64, safe: U64, finalized: U64, maxBlockRange: U64) {
    function Own(): Heads {
      Heads(latest, safe, finalized)
    }

    /** What the group's consensus looks like in practice. */
    predicate Sensible() {
      safe <= latest && finalized <= latest && latest <= MAX_INT64
    }
  }

  datatype RewriteError = CannotParse | BlockOutOfRange | RangeTooLarge

  /** `Panics` stands for the source's index out of range. */
  datatype RewriteResult =
    | RewriteNone
    | OverrideError(error: RewriteError)
    | OverrideRequest
    | OverrideResponse
    | Panics

  /** Block numbers as go-ethereum's `rpc.BlockNumber` has them: tags below 0. */
  const SAFE: int := -4
  const FINALIZED: int := -3
  const LATEST: int := -2
  const PENDING: int := -1
  const EARLIEST: int := 0

  function ToInt64(n: U64): int {
    if n <= MAX_INT64 then n else n - TWO_64
  }

  function ParseNumber(t: Text): Option<int> {
    match t
    case Earliest => Some(EARLIEST)
    case Pending => Some(PENDING)
    case Latest => Some(LATEST)
    case Safe => Some(SAFE)
    case Finalized => Some(FINALIZED)
    case Num(n) => if n <= MAX_INT64 then Some(n) else None
    case _ => None
  }

  /** The string form of a block number; 0 is the earliest block. */
  function NumberText(number: int): Text
    requires number < TWO_64
  {
    if number == EARLIEST then Earliest
    else if number == PENDING then Pending
    else if number == LATEST then Latest
    else if number == SAFE then Safe
    else if number == FINALIZED then Finalized
    else if number < 0 then Bad(0)
    else Num(number)
  }

  /** A block by number, by hash, or neither. */
  datatype NumberOrHash = NumberOrHash(number: Option<int>, hash: Option<nat>)

  function Field(fields: map<string, Json>, key: string): Json {
    if key in fields then fields[key] else Null
  }

  function ParseText(t: Text): Option<NumberOrHash> {
    if t.HashText? then Some(NumberOrHash(None, Some(t.h)))
    else if ParseNumber(t).Some? then Some(NumberOrHash(ParseNumber(t), None))
    else None
  }

  function ParseObject(fields: map<string, Json>): Option<NumberOrHash> {
    var number, hash, canonical := Field(fields, "blockNumber"), Field(fields, "blockHash"), Field(fields, "requireCanonical");
    if !(number.Null? || (number.Str? && ParseNumber(number.text).Some?)) then None
    else if !(hash.Null? || (hash.Str? && hash.text.HashText?)) then None
    else if !(canonical.Null? || canonical.Bool?) then None
    else if number.Str? && hash.Str? then None
    else Some(NumberOrHash(if number.Str? then ParseNumber(number.text) else None, if hash.Str? then Some(hash.text.h) else None))
  }

  function ParseNumberOrHash(j: Json): Option<NumberOrHash> {
    match j
    case Null => Some(NumberOrHash(None, None))
    case Str(t) => ParseText(t)
    case Obj(fields) => ParseObject(fields)
    case _ => None
  }

  /** What becomes of a block number: it is kept, replaced, or refused. */
  datatype Verdict = Keep | Replace(n: U64) | Refuse(error: RewriteError)

  function Judge(rctx: RewriteContext, bnh: NumberOrHash): Verdict {
    if bnh.number.None? then Keep
    else
      var number := bnh.number.value;
      if number == PENDING || number == EARLIEST then Keep
      else if number == FINALIZED then Replace(rctx.finalized)
      else if number == SAFE then Replace(rctx.safe)
      else if number == LATEST then Replace(rctx.latest)
      else if number > ToInt64(rctx.latest) then Refuse(BlockOutOfRange)
      else Keep
  }

  function JudgeText(rctx: RewriteContext, t: Text): Verdict {
    if ParseText(t).None? then Refuse(CannotParse) else Judge(rctx, ParseText(t).value)
  }

  /** The verdict on a parameter, and what a replaced number looks like there. */
  function JudgeParam(rctx: RewriteContext, j: Json, numberOrHash: bool): Verdict {
    if numberOrHash then
      if ParseNumberOrHash(j).None? then Refuse(CannotParse) else Judge(rctx, ParseNumberOrHash(j).value)
    else if j.Str? then JudgeText(rctx, j.text)
    else Refuse(CannotParse)
  }

  function NewParam(n: U64, numberOrHash: bool): Json {
    if numberOrHash then Obj(map["blockNumber" := Str(NumberText(ToInt64(n)))]) else Str(Num(n))
  }

  function RewriteParam(rctx: RewriteContext, params: Params, pos: nat, required: bool, numberOrHash: bool): (RewriteResult, Params) {
    if params.Undecodable? then (OverrideError(CannotParse), params)
    else if |params.items| <= pos && (required || |params.items| < pos) then (RewriteNone, params)
    else
      var items := if |params.items| == pos then params.items + [Str(Latest)] else params.items;
      match JudgeParam(rctx, items[pos], numberOrHash)
      case Keep => (RewriteNone, params)
      case Refuse(e) => (OverrideError(e), params)
      case Replace(n) => (OverrideRequest, List(items[pos := NewParam(n, numberOrHash)]))
  }

  /** One bound of a filter: the verdict on it, and the filter with it resolved. */
  function JudgeBound(rctx: RewriteContext, filter: map<string, Json>, key: string): Verdict {
    var j := Field(filter, key);
    if j.Null? || j == Str(Empty) then Keep
    else if j.Str? then JudgeText(rctx, j.text)
    else Refuse(CannotParse)
  }

  function SetBound(filter: map<string, Json>, key: string, v: Verdict): map<string, Json> {
    if v.Replace? then filter[key := Str(Num(v.n))] else filter
  }

  /** A missing bound beside a given one stands for the latest block. */
  function Defaulted(filter: map<string, Json>): map<string, Json> {
    if "fromBlock" in filter && "toBlock" !in filter then filter["toBlock" := Str(Latest)]
    else if "toBlock" in filter && "fromBlock" !in filter then filter["fromBlock" := Str(Latest)]
    else filter
  }

  /** The number of a resolved bound. */
  function BoundNumber(filter: map<string, Json>, key: string, latest: U64): Option<U64> {
    var j := Field(filter, key);
    if !j.Str? then None
    else if j.text.Earliest? then Some(0)
    else if j.text.Pending? then Some(Wrap(latest + 1))
    else if j.text.Num? then Some(j.text.n)
    else None
  }

  predicate HasBound(filter: map<string, Json>) {
    "fromBlock" in filter || "toBlock" in filter
  }

  /** The range check, in uint64 arithmetic. */
  function CheckRange(rctx: RewriteContext, filter: map<string, Json>): Option<RewriteError> {
    var from, to := BoundNumber(filter, "fromBlock", rctx.latest), BoundNumber(filter, "toBlock", rctx.latest);
    if from.None? || to.None? then Some(CannotParse)
    else if Wrap(to.value - from.value) > rctx.maxBlockRange then Some(RangeTooLarge)
    else None
  }

  function Resolved(rctx: RewriteContext, filter: map<string, Json>): map<string, Json> {
    var f := Defaulted(filter);
    var f' := SetBound(f, "fromBlock", JudgeBound(rctx, f, "fromBlock"));
    SetBound(f', "toBlock", JudgeBound(rctx, f', "toBlock"))
  }

  function RewriteFilter(rctx: RewriteContext, filter: map<string, Json>): (RewriteResult, map<string, Json>) {
    var f := Defaulted(filter);
    var from := JudgeBound(rctx, f, "fromBlock");
    if from.Refuse? then (OverrideError(from.error), filter)
    else
      var to := JudgeBound(rctx, SetBound(f, "fromBlock", from), "toBlock");
      if to.Refuse? then (OverrideError(to.error), filter)
      else
        var f' := Resolved(rctx, filter);
        if rctx.maxBlockRange > 0 && HasBound(filter) && CheckRange(rctx, f').Some? then
          (OverrideError(CheckRange(rctx, f').value), filter)
        else if from.Replace? || to.Replace? then (OverrideRequest, f')
        else (RewriteNone, filter)
  }

  /** Only objects and null decode into a list of filters. */
  predicate Filters(items: seq<Json>) {
    forall i | 0 <= i < |items| :: items[i].Obj? || items[i].Null?
  }

  function RewriteRange(rctx: RewriteContext, params: Params): (RewriteResult, Params) {
    if params.Undecodable? || !Filters(params.items) then (OverrideError(CannotParse), params)
    else if params.items == [] then (Panics, params)
    else
      var filter := if params.items[0].Obj? then params.items[0].fields else map[];
      var (result, filter') := RewriteFilter(rctx, filter);
      (result, if result.OverrideRequest? then List(params.items[0 := Obj(filter')]) else params)
  }

  /** Which parameter of a method names a block, and how. */
  datatype Shape =
    | NoBlock
    | Range
    | Param(pos: nat, required: bool, numberOrHash: bool)

  function ShapeOf(name: string): Shape {
    if name in {"eth_getLogs", "eth_newFilter"} then Range
    else if name in {"debug_getRawReceipts", "consensus_getReceipts"} then Param(0, true, false)
    else if name in {"eth_getBalance", "eth_getCode", "eth_getTransactionCount", "eth_call"} then Param(1, false, true)
    else if name in {"eth_getStorageAt", "eth_getProof"} then Param(2, false, true)
    else if name in {"eth_getBlockTransactionCountByNumber", "eth_getUncleCountByBlockNumber", "eth_getBlockByNumber",
                       "eth_getTransactionByBlockNumberAndIndex", "eth_getUncleByBlockNumberAndIndex"} then Param(0, false, false)
    else NoBlock
  }

  function RewriteShape(rctx: RewriteContext, shape: Shape, params: Params): (RewriteResult, Params) {
    match shape
    case NoBlock => (RewriteNone, params)
    case Range => RewriteRange(rctx, params)
    case Param(pos, required, numberOrHash) => RewriteParam(rctx, params, pos, required, numberOrHash)
  }

  function RewriteTags(rctx: RewriteContext, req: Request): (RewriteResult, Request) {
    if req.name == "eth_blockNumber" then (OverrideResponse, req)
    else
      var (result, params) := RewriteShape(rctx, ShapeOf(req.name), req.params);
      (result, Request(req.name, params))
  }

  /** Forwarded requests. */
  predicate Forwarded(result: RewriteResult) {
    result.RewriteNone? || result.OverrideRequest?
  }

  /** No number above the latest block, and no tag left whose meaning differs between backends. */
  predicate Harmless(rctx: RewriteContext, bnh: NumberOrHash) {
    bnh.number.Some? ==> bnh.number.value == PENDING || 0 <= bnh.number.value <= rctx.latest
  }

  predicate HarmlessBound(rctx: RewriteContext, filter: map<string, Json>, key: string) {
    var j := Field(filter, key);
    j.Null? || j == Str(Empty) || (j.Str? && ParseText(j.text).Some? && Harmless(rctx, ParseText(j.text).value))
  }

  predicate Sound(rctx: RewriteContext, shape: Shape, params: Params) {
    match shape
    case NoBlock => true
    case Range =>
      && params.List? && params.items != []
      && (params.items[0].Obj? ==> HarmlessBound(rctx, params.items[0].fields, "fromBlock")
                                   && HarmlessBound(rctx, params.items[0].fields, "toBlock"))
    case Param(pos, required, numberOrHash) =>
      && params.List?
      && (if pos < |params.items| then
            && ParseNumberOrHash(params.items[pos]).Some?
            && Harmless(rctx, ParseNumberOrHash(params.items[pos]).value)
          else required || |params.items| < pos)
  }

  lemma NewParamParses(rctx: RewriteContext, n: U64, numberOrHash: bool)
    requires n <= rctx.latest <= MAX_INT64
    ensures ParseNumberOrHash(NewParam(n, numberOrHash)) == Some(NumberOrHash(Some(n), None))
    ensures JudgeParam(rctx, NewParam(n, numberOrHash), numberOrHash) == Keep
  {
  }

  /** A request that is forwarded names no block above the latest of the group. */
  lemma ForwardedIsSound(rctx: RewriteContext, shape: Shape, params: Params)
    requires rctx.Sensible() && Forwarded(RewriteShape(rctx, shape, params).0)
    ensures Sound(rctx, shape, RewriteShape(rctx, shape, params).1)
  {
    match shape
    case NoBlock =>
    case Range => RangeSound(rctx, params);
    case Param(pos, required, numberOrHash) =>
      var (result, after) := RewriteParam(rctx, params, pos, required, numberOrHash);
      if result.OverrideRequest? {
        var items := if |params.items| == pos then params.items + [Str(Latest)] else params.items;
        NewParamParses(rctx, JudgeParam(rctx, items[pos], numberOrHash).n, numberOrHash);
      }
  }

  lemma RangeSound(rctx: RewriteContext, params: Params)
    requires rctx.Sensible() && Forwarded(RewriteRange(rctx, params).0)
    ensures Sound(rctx, Range, RewriteRange(rctx, params).1)
  {
    if params.items[0].Obj? {
      FilterSound(rctx, params.items[0].fields);
    }
  }

  lemma FilterSound(rctx: RewriteContext, filter: map<string, Json>)
    requires rctx.Sensible() && Forwarded(RewriteFilter(rctx, filter).0)
    ensures var f := RewriteFilter(rctx, filter).1;
      HarmlessBound(rctx, f, "fromBlock") && HarmlessBound(rctx, f, "toBlock")
  {
  }

  /** Rewriting what was forwarded changes nothing. */
  lemma RewriteIdempotent(rctx: RewriteContext, shape: Shape, params: Params)
    requires rctx.Sensible() && Forwarded(RewriteShape(rctx, shape, params).0)
    ensures var params' := RewriteShape(rctx, shape, params).1;
      RewriteShape(rctx, shape, params') == (RewriteNone, params')
  {
    match shape
    case NoBlock =>
    case Range =>
      if params.items[0].Obj? {
        FilterIdempotent(rctx, params.items[0].fields);
      }
    case Param(pos, required, numberOrHash) =>
      var (result, after) := RewriteParam(rctx, params, pos, required, numberOrHash);
      if result.OverrideRequest? {
        var items := if |params.items| == pos then params.items + [Str(Latest)] else params.items;
        NewParamParses(rctx, JudgeParam(rctx, items[pos], numberOrHash).n, numberOrHash);
      }
  }

  lemma FilterIdempotent(rctx: RewriteContext, filter: map<string, Json>)
    requires rctx.Sensible() && Forwarded(RewriteFilter(rctx, filter).0)
    ensures var f := RewriteFilter(rctx, filter).1; RewriteFilter(rctx, f) == (RewriteNone, f)
  {
    var (result, f) := RewriteFilter(rctx, filter);
    if result.OverrideRequest? {
      assert Defaulted(f) == f;
      assert JudgeBound(rctx, f, "fromBlock") == Keep && JudgeBound(rctx, f, "toBlock") == Keep;
      assert Resolved(rctx, f) == f;
    }
  }

  /** The same of whole requests: what is forwarded is sound and, rewritten again, left alone. */
  lemma RewriteTagsSound(rctx: RewriteContext, req: Request)
    requires rctx.Sensible() && Forwarded(RewriteTags(rctx, req).0)
    ensures var req' := RewriteTags(rctx, req).1;
      && req'.name == req.name && Sound(rctx, ShapeOf(req.name), req'.params)
      && RewriteTags(rctx, req') == (RewriteNone, req')
  {
    ForwardedIsSound(rctx, ShapeOf(req.name), req.params);
    RewriteIdempotent(rctx, ShapeOf(req.name), req.params);
  }

  /** What a block parameter means to a node, read off the JSON without the rewriter's parser. */
  datatype Target = At(n: nat) | PendingBlock | ByHash(h: nat) | Unspecified

  function NumberMeaning(node: Heads, t: Text): Option<Target> {
    match t
    case Earliest => Some(At(0))
    case Pending => Some(PendingBlock)
    case Latest => Some(At(node.latest))
    case Safe => Some(At(node.safe))
    case Finalized => Some(At(node.finalized))
    case Num(n) => if n <= MAX_INT64 then Some(At(n)) else None
    case _ => None
  }

  function TextMeaning(node: Heads, t: Text): Option<Target> {
    if t.HashText? then Some(ByHash(t.h)) else NumberMeaning(node, t)
  }

  /** An object names a block by number or by hash, not by both. */
  function ObjectMeaning(node: Heads, fields: map<string, Json>): Option<Target> {
    var number, hash, canonical := Field(fields, "blockNumber"), Field(fields, "blockHash"), Field(fields, "requireCanonical");
    if !canonical.Null? && !canonical.Bool? then None
    else if number.Null? && hash.Null? then Some(Unspecified)
    else if number.Str? && hash.Null? then NumberMeaning(node, number.text)
    else if number.Null? && hash.Str? && hash.text.HashText? then Some(ByHash(hash.text.h))
    else None
  }

  function MeaningOf(node: Heads, j: Json): Option<Target> {
    match j
    case Null => Some(Unspecified)
    case Str(t) => TextMeaning(node, t)
    case Obj(fields) => ObjectMeaning(node, fields)
    case _ => None
  }

  /** A missing parameter that is not required means the latest block. */
  function ParamMeaning(node: Heads, items: seq<Json>, pos: nat, required: bool): Option<Target> {
    if pos < |items| then MeaningOf(node, items[pos])
    else if pos == |items| && !required then Some(At(node.latest))
    else None
  }

  /** A missing bound beside a given one means the latest block. */
  function BoundMeaning(node: Heads, filter: map<string, Json>, key: string): Option<Target> {
    if key in filter then FieldMeaning(node, filter[key])
    else Some(if HasBound(filter) then At(node.latest) else Unspecified)
  }

  function FieldMeaning(node: Heads, j: Json): Option<Target> {
    if j == Null || j == Str(Empty) then Some(Unspecified)
    else if j.Str? then TextMeaning(node, j.text)
    else None
  }

  lemma BoundDefaulted(node: Heads, filter: map<string, Json>, key: string)
    requires key == "fromBlock" || key == "toBlock"
    ensures BoundMeaning(node, filter, key) == FieldMeaning(node, Field(Defaulted(filter), key))
  {
  }

  /** What the rewriter's parser finds is what the parameter means. */
  lemma ParsedIsMeant(rctx: RewriteContext, j: Json)
    ensures ParseNumberOrHash(j).None? <==> MeaningOf(rctx.Own(), j).None?
    ensures ParseNumberOrHash(j).Some? ==> Matches(rctx, ParseNumberOrHash(j).value, MeaningOf(rctx.Own(), j).value)
  {
  }

  predicate Matches(rctx: RewriteContext, bnh: NumberOrHash, target: Target) {
    match target
    case At(n) =>
      bnh.number == Some(n) || (bnh.number == Some(LATEST) && n == rctx.latest) ||
      (bnh.number == Some(SAFE) && n == rctx.safe) || (bnh.number == Some(FINALIZED) && n == rctx.finalized)
    case PendingBlock => bnh.number == Some(PENDING)
    case ByHash(h) => bnh == NumberOrHash(None, Some(h))
    case Unspecified => bnh == NumberOrHash(None, None)
  }

  /** The block `params` mean to node `a` is the one `params'` mean to node `b`, and nothing else
      differs. */
  ghost predicate SameBlocks(a: Heads, b: Heads, shape: Shape, params: Params, params': Params) {
    match shape
    case NoBlock => params' == params
    case Range =>
      && params.List? && params'.List? && params.items != [] && |params'.items| == |params.items|
      && params'.items[1..] == params.items[1..]
      && if params.items[0].Obj? then params'.items[0].Obj? && SameFilter(a, b, params.items[0].fields, params'.items[0].fields)
         else params'.items[0] == params.items[0]
    case Param(pos, required, _) =>
      && params.List? && params'.List?
      && ParamMeaning(b, params'.items, pos, required) == ParamMeaning(a, params.items, pos, required)
      && (forall i | 0 <= i < |params.items| && i != pos :: i < |params'.items| && params'.items[i] == params.items[i])
      && |params.items| <= |params'.items| <= |params.items| + 1
  }

  ghost predicate SameFilter(a: Heads, b: Heads, filter: map<string, Json>, filter': map<string, Json>) {
    && BoundMeaning(b, filter', "fromBlock") == BoundMeaning(a, filter, "fromBlock")
    && BoundMeaning(b, filter', "toBlock") == BoundMeaning(a, filter, "toBlock")
    && forall key | key != "fromBlock" && key != "toBlock" ::
         (key in filter' <==> key in filter) && (key in filter ==> filter'[key] == filter[key])
  }

  /** Rewriting a parameter preserves what it means, now to any node, wherever its own tags stand,
      and leaves the other parameters alone. */
  lemma ParamKeepsMeaning(rctx: RewriteContext, b: Heads, params: Params, pos: nat, required: bool, numberOrHash: bool)
    requires rctx.Sensible() && Forwarded(RewriteParam(rctx, params, pos, required, numberOrHash).0)
    ensures SameBlocks(rctx.Own(), b, Param(pos, required, numberOrHash), params,
                       RewriteParam(rctx, params, pos, required, numberOrHash).1)
  {
    var items := if |params.items| == pos then params.items + [Str(Latest)] else params.items;
    if pos < |items| {
      ParsedIsMeant(rctx, items[pos]);
    }
  }

  /** Rewriting a filter preserves what both bounds mean, now to any node, and leaves its other
      fields alone. */
  lemma FilterKeepsMeaning(rctx: RewriteContext, b: Heads, filter: map<string, Json>)
    requires rctx.Sensible() && Forwarded(RewriteFilter(rctx, filter).0)
    ensures SameFilter(rctx.Own(), b, filter, RewriteFilter(rctx, filter).1)
  {
    var f := Defaulted(filter);
    var f1 := SetBound(f, "fromBlock", JudgeBound(rctx, f, "fromBlock"));
    BoundFixed(rctx, b, f, "fromBlock");
    BoundFixed(rctx, b, f1, "toBlock");
    assert Field(f1, "toBlock") == Field(f, "toBlock");
    assert Field(Resolved(rctx, filter), "fromBlock") == Field(f1, "fromBlock");
    BoundDefaulted(rctx.Own(), filter, "fromBlock");
    BoundDefaulted(rctx.Own(), filter, "toBlock");
  }

  /** A bound that is kept means the same to every node, one that is replaced meant the number put
      in its place. */
  lemma BoundFixed(rctx: RewriteContext, b: Heads, f: map<string, Json>, key: string)
    requires rctx.Sensible() && !JudgeBound(rctx, f, key).Refuse?
    ensures FieldMeaning(b, Field(SetBound(f, key, JudgeBound(rctx, f, key)), key)) == FieldMeaning(rctx.Own(), Field(f, key))
  {
    if Field(f, key).Str? && Field(f, key) != Str(Empty) {
      ParsedIsMeant(rctx, Field(f, key));
    }
  }

  /** Both bounds have a number, and they span no more than the block range allowed. */
  predicate InRange(rctx: RewriteContext, filter: map<string, Json>) {
    var f := Resolved(rctx, filter);
    var from, to := BoundNumber(f, "fromBlock", rctx.latest), BoundNumber(f, "toBlock", rctx.latest);
    from.Some? && to.Some? && from.value <= to.value && to.value - from.value <= rctx.maxBlockRange
  }

  lemma BoundNumberLow(rctx: RewriteContext, f: map<string, Json>, key: string)
    requires rctx.Sensible() && !JudgeBound(rctx, f, key).Refuse?
    ensures var n := BoundNumber(SetBound(f, key, JudgeBound(rctx, f, key)), key, rctx.latest);
      n.Some? ==> n.value <= rctx.latest + 1
  {
  }

  lemma AcceptedInRange(rctx: RewriteContext, filter: map<string, Json>)
    requires rctx.Sensible() && 0 < rctx.maxBlockRange < TWO_64 - (rctx.latest + 1)
    requires HasBound(filter) && Forwarded(RewriteFilter(rctx, filter).0)
    ensures InRange(rctx, filter)
  {
    var f := Defaulted(filter);
    var f' := SetBound(f, "fromBlock", JudgeBound(rctx, f, "fromBlock"));
    BoundNumberLow(rctx, f, "fromBlock");
    BoundNumberLow(rctx, f', "toBlock");
    assert BoundNumber(Resolved(rctx, filter), "fromBlock", rctx.latest) == BoundNumber(f', "fromBlock", rctx.latest);
  }

  /** Every filter in range is accepted, unless one of its bounds is refused. */
  lemma InRangeAccepted(rctx: RewriteContext, filter: map<string, Json>)
    requires InRange(rctx, filter)
    requires var f := Defaulted(filter);
      !JudgeBound(rctx, f, "fromBlock").Refuse? && !JudgeBound(rctx, f, "toBlock").Refuse?
    ensures Forwarded(RewriteFilter(rctx, filter).0)
  {
  }

  /** The range check lets only ranges through that are in range, despite the uint64 subtraction,
      exactly when the allowed range is too small for a backward range to wrap around into it. */
  lemma RangeCheckSoundIff(rctx: RewriteContext)
    requires rctx.Sensible() && rctx.maxBlockRange > 0
    ensures (forall filter | HasBound(filter) && Forwarded(RewriteFilter(rctx, filter).0) :: InRange(rctx, filter))
       <==> rctx.maxBlockRange < TWO_64 - (rctx.latest + 1)
  {
    if rctx.maxBlockRange < TWO_64 - (rctx.latest + 1) {
      forall filter | HasBound(filter) && Forwarded(RewriteFilter(rctx, filter).0) ensures InRange(rctx, filter) {
        AcceptedInRange(rctx, filter);
      }
    } else {
      var filter: map<string, Json> := map["fromBlock" := Str(Pending), "toBlock" := Str(Earliest)];
      assert HasBound(filter) && Resolved(rctx, filter) == filter;
      assert BoundNumber(filter, "fromBlock", rctx.latest) == Some(rctx.latest + 1);
      assert BoundNumber(filter, "toBlock", rctx.latest) == Some(0);
      assert Forwarded(RewriteFilter(rctx, filter).0) && !InRange(rctx, filter);
    }
  }

  /** Which requests are let through, judged by what their parameters mean. */

  function TargetRefused(node: Heads, target: Option<Target>): Option<RewriteError> {
    if target.None? then Some(CannotParse)
    else if target.value.At? && target.value.n > node.latest then Some(BlockOutOfRange)
    else None
  }

  /** The number a bound counts as in the range check. */
  function TargetNumber(node: Heads, target: Target): Option<nat> {
    match target
    case At(n) => Some(n)
    case PendingBlock => Some(node.latest + 1)
    case _ => None
  }

  function FilterRefused(rctx: RewriteContext, filter: map<string, Json>): Option<RewriteError> {
    var from, to := BoundMeaning(rctx.Own(), filter, "fromBlock"), BoundMeaning(rctx.Own(), filter, "toBlock");
    if TargetRefused(rctx.Own(), from).Some? then TargetRefused(rctx.Own(), from)
    else if TargetRefused(rctx.Own(), to).Some? then TargetRefused(rctx.Own(), to)
    else if rctx.maxBlockRange == 0 || !HasBound(filter) then None
    else
      var lo, hi := TargetNumber(rctx.Own(), from.value), TargetNumber(rctx.Own(), to.value);
      if lo.None? || hi.None? then Some(CannotParse)
      else if Wrap(hi.value - lo.value) > rctx.maxBlockRange then Some(RangeTooLarge)
      else None
  }

  function ShapeRefused(rctx: RewriteContext, shape: Shape, params: Params): Option<RewriteError> {
    match shape
    case NoBlock => None
    case Range =>
      if params.Undecodable? || !Filters(params.items) then Some(CannotParse)
      else if params.items == [] || params.items[0].Null? then None
      else FilterRefused(rctx, params.items[0].fields)
    case Param(pos, required, numberOrHash) =>
      if params.Undecodable? then Some(CannotParse)
      else if pos >= |params.items| then None
      else if !numberOrHash && !params.items[pos].Str? then Some(CannotParse)
      else TargetRefused(rctx.Own(), MeaningOf(rctx.Own(), params.items[pos]))
  }

  /** The request makes the rewriter index an empty list. */
  predicate Panicking(req: Request) {
    ShapeOf(req.name).Range? && req.params == List([])
  }

  lemma ParamDecided(rctx: RewriteContext, params: Params, pos: nat, required: bool, numberOrHash: bool)
    requires rctx.Sensible()
    ensures var r, e := RewriteParam(rctx, params, pos, required, numberOrHash).0,
                        ShapeRefused(rctx, Param(pos, required, numberOrHash), params);
      if e.Some? then r == OverrideError(e.value) else Forwarded(r)
  {
    if params.List? && pos < |params.items| {
      ParsedIsMeant(rctx, params.items[pos]);
    }
  }

  lemma BoundDecided(rctx: RewriteContext, filter: map<string, Json>, f: map<string, Json>, key: string)
    requires rctx.Sensible() && (key == "fromBlock" || key == "toBlock")
    requires Field(f, key) == Field(Defaulted(filter), key)
    ensures var v, e := JudgeBound(rctx, f, key), TargetRefused(rctx.Own(), BoundMeaning(rctx.Own(), filter, key));
      if e.Some? then v == Refuse(e.value) else !v.Refuse?
  {
    BoundDefaulted(rctx.Own(), filter, key);
    if Field(f, key).Str? && Field(f, key) != Str(Empty) {
      ParsedIsMeant(rctx, Field(f, key));
    }
  }

  /** The number of a bound that was let through is the one it means. */
  lemma BoundCounted(rctx: RewriteContext, filter: map<string, Json>, f: map<string, Json>, key: string)
    requires rctx.Sensible() && (key == "fromBlock" || key == "toBlock")
    requires Field(f, key) == Field(Defaulted(filter), key) && !JudgeBound(rctx, f, key).Refuse?
    ensures var target := BoundMeaning(rctx.Own(), filter, key);
      target.Some? && BoundNumber(SetBound(f, key, JudgeBound(rctx, f, key)), key, rctx.latest) == TargetNumber(rctx.Own(), target.value)
  {
    BoundDefaulted(rctx.Own(), filter, key);
    if Field(f, key).Str? && Field(f, key) != Str(Empty) {
      ParsedIsMeant(rctx, Field(f, key));
    }
  }

  lemma FilterDecided(rctx: RewriteContext, filter: map<string, Json>)
    requires rctx.Sensible()
    ensures var r, e := RewriteFilter(rctx, filter).0, FilterRefused(rctx, filter);
      if e.Some? then r == OverrideError(e.value) else Forwarded(r)
  {
    var f := Defaulted(filter);
    var f1 := SetBound(f, "fromBlock", JudgeBound(rctx, f, "fromBlock"));
    BoundDecided(rctx, filter, f, "fromBlock");
    BoundDecided(rctx, filter, f1, "toBlock");
    if !JudgeBound(rctx, f, "fromBlock").Refuse? && !JudgeBound(rctx, f1, "toBlock").Refuse? {
      BoundCounted(rctx, filter, f, "fromBlock");
      BoundCounted(rctx, filter, f1, "toBlock");
      assert BoundNumber(Resolved(rctx, filter), "fromBlock", rctx.latest) == BoundNumber(f1, "fromBlock", rctx.latest);
    }
  }

  /** What becomes of a request follows from what its block parameters mean: it is refused for the
      stated reason, or let through. */
  lemma RewriteTagsDecides(rctx: RewriteContext, req: Request)
    requires rctx.Sensible()
    ensures var r, e := RewriteTags(rctx, req).0, ShapeRefused(rctx, ShapeOf(req.name), req.params);
      if req.name == "eth_blockNumber" then r == OverrideResponse
      else if Panicking(req) then r == Panics
      else if e.Some? then r == OverrideError(e.value)
      else Forwarded(r)
  {
    match ShapeOf(req.name)
    case NoBlock =>
    case Range =>
      if req.params.List? && Filters(req.params.items) && req.params.items != [] {
        FilterDecided(rctx, if req.params.items[0].Obj? then req.params.items[0].fields else map[]);
      }
    case Param(pos, required, numberOrHash) => ParamDecided(rctx, req.params, pos, required, numberOrHash);
  }

  /** A request that is let through means to every node, wherever its own tags stand, the blocks
      that it meant to the group. */
  lemma RewriteTagsMeans(rctx: RewriteContext, b: Heads, req: Request)
    requires rctx.Sensible() && Forwarded(RewriteTags(rctx, req).0)
    ensures SameBlocks(rctx.Own(), b, ShapeOf(req.name), req.params, RewriteTags(rctx, req).1.params)
  {
    match ShapeOf(req.name)
    case NoBlock =>
    case Range =>
      if req.params.items[0].Obj? {
        FilterKeepsMeaning(rctx, b, req.params.items[0].fields);
      }
    case Param(pos, required, numberOrHash) => ParamKeepsMeaning(rctx, b, req.params, pos, required, numberOrHash);
  }

  /** A number where a method takes a block by number or hash. */
  function NumberObject(n: U64): Json {
    Obj(map["blockNumber" := Str(if n == 0 then Earliest else Num(n))])
  }

  /** Which parameter it is, method by method: "latest" there gives way to the group's latest block,
      and so does a missing last parameter where the method may leave it out. */
  lemma LatestReplaced(rctx: RewriteContext, name: string, items: seq<Json>)
    requires rctx.Sensible()
    ensures name in {"eth_getBalance", "eth_getCode", "eth_getTransactionCount", "eth_call"} ==>
      ReplacedAt(rctx, name, items, 1, NumberObject(rctx.latest)) && Appended(rctx, name, items, 1, NumberObject(rctx.latest))
    ensures name in {"eth_getStorageAt", "eth_getProof"} ==>
      ReplacedAt(rctx, name, items, 2, NumberObject(rctx.latest)) && Appended(rctx, name, items, 2, NumberObject(rctx.latest))
    ensures name in {"eth_getBlockTransactionCountByNumber", "eth_getUncleCountByBlockNumber", "eth_getBlockByNumber",
                     "eth_getTransactionByBlockNumberAndIndex", "eth_getUncleByBlockNumberAndIndex"} ==>
      ReplacedAt(rctx, name, items, 0, Str(Num(rctx.latest))) && Appended(rctx, name, items, 0, Str(Num(rctx.latest)))
    ensures name in {"debug_getRawReceipts", "consensus_getReceipts"} ==>
      && ReplacedAt(rctx, name, items, 0, Str(Num(rctx.latest)))
      && (items == [] ==> RewriteTags(rctx, Request(name, List(items))) == (RewriteNone, Request(name, List(items))))
  {
    if ShapeOf(name).Param? && name != "eth_blockNumber" {
      ShapeReplaces(rctx, name, items, ShapeOf(name).pos, ShapeOf(name).required, ShapeOf(name).numberOrHash);
    }
  }

  lemma ShapeReplaces(rctx: RewriteContext, name: string, items: seq<Json>, pos: nat, required: bool, numberOrHash: bool)
    requires rctx.Sensible() && name != "eth_blockNumber" && ShapeOf(name) == Param(pos, required, numberOrHash)
    ensures var j := if numberOrHash then NumberObject(rctx.latest) else Str(Num(rctx.latest));
      && ReplacedAt(rctx, name, items, pos, j)
      && (if required then |items| <= pos ==> RewriteTags(rctx, Request(name, List(items))) == (RewriteNone, Request(name, List(items)))
          else Appended(rctx, name, items, pos, j))
  {
    var j := if numberOrHash then NumberObject(rctx.latest) else Str(Num(rctx.latest));
    assert (items + [Str(Latest)])[|items| := j] == items + [j];
  }

  /** A filter is the first parameter, and a missing bound beside a given one is the latest block. */
  lemma BoundsReplaced(rctx: RewriteContext, name: string, items: seq<Json>)
    requires rctx.Sensible() && name in {"eth_getLogs", "eth_newFilter"} && Filters(items)
    requires items != [] && items[0] == Obj(map["fromBlock" := Str(Latest)])
    ensures var bound := Str(Num(rctx.latest));
      RewriteTags(rctx, Request(name, List(items))) ==
        (OverrideRequest, Request(name, List(items[0 := Obj(map["fromBlock" := bound, "toBlock" := bound])])))
  {
    var filter := items[0].fields;
    assert Resolved(rctx, filter) == map["fromBlock" := Str(Num(rctx.latest)), "toBlock" := Str(Num(rctx.latest))];
    FilterDecided(rctx, filter);
  }

  /** All other methods are let through as they are, but for the one the group answers itself. A
      filter that is null, or has no bound, is left alone too. */
  lemma OthersUntouched(rctx: RewriteContext, req: Request, items: seq<Json>)
    requires rctx.Sensible()
    ensures req.name !in {"eth_blockNumber", "eth_getLogs", "eth_newFilter", "debug_getRawReceipts", "consensus_getReceipts",
                          "eth_getBalance", "eth_getCode", "eth_getTransactionCount", "eth_call", "eth_getStorageAt", "eth_getProof",
                          "eth_getBlockTransactionCountByNumber", "eth_getUncleCountByBlockNumber", "eth_getBlockByNumber",
                          "eth_getTransactionByBlockNumberAndIndex", "eth_getUncleByBlockNumberAndIndex"} ==>
      RewriteTags(rctx, req) == (RewriteNone, req)
    ensures req.name in {"eth_getLogs", "eth_newFilter"} && req.params == List(items) && items != []
            && (forall i | 0 <= i < |items| :: items[i] == Null || (items[i].Obj? && !HasBound(items[i].fields))) ==>
      RewriteTags(rctx, req) == (RewriteNone, req)
  {
  }

  predicate ReplacedAt(rctx: RewriteContext, name: string, items: seq<Json>, pos: nat, j: Json) {
    pos < |items| && items[pos] == Str(Latest) ==>
      RewriteTags(rctx, Request(name, List(items))) == (OverrideRequest, Request(name, List(items[pos := j])))
  }

  predicate Appended(rctx: RewriteContext, name: string, items: seq<Json>, pos: nat, j: Json) {
    |items| == pos ==> RewriteTags(rctx, Request(name, List(items))) == (OverrideRequest, Request(name, List(items + [j])))
  }
}

/** The request object whose parameters are rewritten in place. */
module RPCRequests {
  import opened Options
  import opened Rewriter

  class RPCReq {
    const name: string
    var params: Params

    constructor (name: string, params: Params)
      ensures this.name == name && this.params == params
    {
      this.name := name;
      this.params := params;
    }

    method RewriteTags(rctx: RewriteContext) returns (result: RewriteResult)
      modifies this`params
      ensures (result, Request(name, params)) == Rewriter.RewriteTags(rctx, Request(name, old(params)))
    {
      if name == "eth_blockNumber" {
        return OverrideResponse;
      }
      match ShapeOf(name)
      case NoBlock => result := RewriteNone;
      case Range => result := RewriteRange(rctx);
      case Param(pos, required, numberOrHash) => result := RewriteParam(rctx, pos, required, numberOrHash);
    }

    method RewriteParam(rctx: RewriteContext, pos: nat, required: bool, numberOrHash: bool) returns (result: RewriteResult)
      modifies this`params
      ensures (result, params) == Rewriter.RewriteParam(rctx, old(params), pos, required, numberOrHash)
    {
      if params.Undecodable? {
        return OverrideError(CannotParse);
      }
      var p := params.items;
      if |p| == pos && !required {
        p := p + [Str(Latest)];
      } else if |p| <= pos {
        return RewriteNone;
      }
      match JudgeParam(rctx, p[pos], numberOrHash)
      case Refuse(e) => return OverrideError(e);
      case Keep => return RewriteNone;
      case Replace(n) =>
        p := p[pos := NewParam(n, numberOrHash)];
        params := List(p);
        return OverrideRequest;
    }

    method RewriteRange(rctx: RewriteContext) returns (result: RewriteResult)
      modifies this`params
      ensures (result, params) == Rewriter.RewriteRange(rctx, old(params))
    {
      if params.Undecodable? || !Filters(params.items) {
        return OverrideError(CannotParse);
      }
      if params.items == [] {
        return Panics;
      }
      var p := if params.items[0].Obj? then params.items[0].fields else map[];
      var hasFrom, hasTo := "fromBlock" in p, "toBlock" in p;
      if hasFrom && !hasTo {
        p := p["toBlock" := Str(Latest)];
      } else if hasTo && !hasFrom {
        p := p["fromBlock" := Str(Latest)];
      }
      var modifiedFrom, modifiedTo, err;
      p, modifiedFrom, err := RewriteTagMap(rctx, p, "fromBlock");
      if err.Some? {
        return OverrideError(err.value);
      }
      p, modifiedTo, err := RewriteTagMap(rctx, p, "toBlock");
      if err.Some? {
        return OverrideError(err.value);
      }
      if rctx.maxBlockRange > 0 && (hasFrom || hasTo) {
        err := CheckRange(rctx, p);
        if err.Some? {
          return OverrideError(err.value);
        }
      }
      if modifiedFrom || modifiedTo {
        params := List(params.items[0 := Obj(p)]);
        return OverrideRequest;
      }
      return RewriteNone;
    }
  }

  method RewriteTagMap(rctx: RewriteContext, m: map<string, Json>, key: string)
    returns (m': map<string, Json>, modified: bool, err: Option<RewriteError>)
    ensures var v := JudgeBound(rctx, m, key);
      m' == SetBound(m, key, v) && modified == v.Replace? && err == if v.Refuse? then Some(v.error) else None
  {
    m', modified, err := m, false, None;
    var current := Field(m, key);
    if current == Null || current == Str(Empty) {
      return;
    }
    if !current.Str? {
      err := Some(CannotParse);
      return;
    }
    match JudgeText(rctx, current.text)
    case Refuse(e) => err := Some(e);
    case Keep =>
    case Replace(n) => m', modified := m[key := Str(Num(n))], true;
  }
}
