/** Bytes, big-endian lengths, and request-reply sessions over two byte streams. */
module Wire {
  import opened Options

  newtype byte = x: int | 0 <= x < 256

  function Power(k: nat): nat {
    if k == 0 then 1 else 256 * Power(k - 1)
  }

  /** `n` as `k` bytes, the most significant first. */
  function Encode(n: nat, k: nat): (bytes: seq<byte>)
    ensures |bytes| == k
  {
    if k == 0 then [] else Encode(n / 256, k - 1) + [(n % 256) as byte]
  }

  function Decode(bytes: seq<byte>): nat {
    if bytes == [] then 0 else Decode(bytes[..|bytes| - 1]) * 256 + bytes[|bytes| - 1] as int
  }

  lemma {:induction false} DecodeEncode(n: nat, k: nat)
    requires n < Power(k)
    ensures Decode(Encode(n, k)) == n
    decreases k
  {
    if k > 0 {
      DecodeEncode(n / 256, k - 1);
      assert Encode(n, k)[..k - 1] == Encode(n / 256, k - 1);
    }
  }

  /** The first byte counts most. */
  lemma {:induction false} MostSignificantFirst(bytes: seq<byte>)
    requires bytes != []
    ensures Decode(bytes) == bytes[0] as int * Power(|bytes| - 1) + Decode(bytes[1..])
  {
    if |bytes| > 1 {
      var init := bytes[..|bytes| - 1];
      MostSignificantFirst(init);
      assert bytes[1..][..|bytes| - 2] == init[1..];
      Shifted(bytes[0] as int, Power(|init| - 1), Decode(init[1..]));
    }
  }

  lemma Shifted(b: nat, p: nat, rest: nat)
    ensures (b * p + rest) * 256 == b * (256 * p) + rest * 256
  {
  }

  lemma Powers()
    ensures Power(4) == 0x1_0000_0000 && Power(8) == 0x1_0000_0000_0000_0000
  {
  }

  /** A message behind its length in `k` bytes. */
  function Frame(k: nat, length: nat, message: seq<byte>): seq<byte> {
    Encode(length, k) + message
  }

  /** The bytes are a whole message behind its length. */
  predicate IsFrame(k: nat, bytes: seq<byte>) {
    |bytes| >= k && |bytes| == k + Decode(bytes[..k])
  }

  /** Frames delimit themselves: what starts with one starts with no other. */
  lemma FrameDelimits(k: nat, message: seq<byte>, n: nat)
    requires |message| < Power(k) && n <= k + |message|
    ensures var f := Frame(k, |message|, message);
      && |f| == k + |message| && f[k..] == message
      && (IsFrame(k, f[..n]) <==> n == |f|)
  {
    var f := Frame(k, |message|, message);
    DecodeEncode(|message|, k);
    assert f[..k] == Encode(|message|, k);
    if n >= k {
      assert f[..n][..k] == f[..k];
    }
  }

  /** A protocol: when a request and a reply are complete, and the reply to a request; `None`
      when the server refuses it. */
  datatype Proto = Proto(
    asked: seq<byte> -> bool,
    reply: seq<byte> -> Option<seq<byte>>,
    replied: seq<byte> -> bool)

  datatype Client = Sending(rest: seq<byte>) | Awaiting(buffer: seq<byte>) | Finished

  datatype Server = Reading(buffer: seq<byte>) | Replying(rest: seq<byte>) | Stopped

  /** Client and server with the streams between them, the requests not yet answered, the requests
      the server has received and the replies the client has. */
  datatype Session = Session(
    todo: seq<seq<byte>>,
    client: Client,
    heard: seq<seq<byte>>,
    got: seq<seq<byte>>,
    up: seq<byte>,
    down: seq<byte>,
    server: Server)

  /** Every move transfers one byte; blocks of bytes are several moves. */
  datatype Move = ClientWrites | ServerReads | ServerWrites | ClientReads

  function Next(todo: seq<seq<byte>>): Client {
    if todo == [] then Finished else Sending(todo[0])
  }

  function Begin(requests: seq<seq<byte>>): Session {
    Session(requests, Next(requests), [], [], [], [], Reading([]))
  }

  /** A blocked side cannot move. */
  predicate Enabled(s: Session, m: Move) {
    match m
    case ClientWrites => s.client.Sending? && s.client.rest != []
    case ServerReads => s.server.Reading? && s.up != []
    case ServerWrites => s.server.Replying? && s.server.rest != []
    case ClientReads => s.client.Awaiting? && s.down != [] && s.todo != []
  }

  function Step(p: Proto, s: Session, m: Move): Session {
    if !Enabled(s, m) then s
    else
      match m
      case ClientWrites =>
        var rest := s.client.rest[1..];
        s.(up := s.up + [s.client.rest[0]], client := if rest == [] then Awaiting([]) else Sending(rest))
      case ServerReads =>
        var buffer := s.server.buffer + [s.up[0]];
        s.(up := s.up[1..],
           heard := if p.asked(buffer) then s.heard + [buffer] else s.heard,
           server := if !p.asked(buffer) then Reading(buffer)
                     else if p.reply(buffer).None? then Stopped
                     else Replying(p.reply(buffer).value))
      case ServerWrites =>
        var rest := s.server.rest[1..];
        s.(down := s.down + [s.server.rest[0]], server := if rest == [] then Reading([]) else Replying(rest))
      case ClientReads =>
        var buffer := s.client.buffer + [s.down[0]];
        if !p.replied(buffer) then s.(down := s.down[1..], client := Awaiting(buffer))
        else s.(down := s.down[1..], got := s.got + [buffer], todo := s.todo[1..], client := Next(s.todo[1..]))
  }

  function Run(p: Proto, requests: seq<seq<byte>>, moves: seq<Move>): Session {
    if moves == [] then Begin(requests)
    else Step(p, Run(p, requests, moves[..|moves| - 1]), moves[|moves| - 1])
  }

  /** `message` is complete, and no part of it is. */
  ghost predicate Delimited(done: seq<byte> -> bool, message: seq<byte>) {
    message != [] && done(message) && forall n | 0 <= n < |message| :: !done(message[..n])
  }

  /** Whatever recognises frames delimits each of them. */
  lemma FrameDelimited(done: seq<byte> -> bool, k: nat, message: seq<byte>)
    requires 0 < k && |message| < Power(k)
    requires forall bytes :: done(bytes) <==> IsFrame(k, bytes)
    ensures Delimited(done, Frame(k, |message|, message))
  {
    var f := Frame(k, |message|, message);
    forall n | 0 <= n <= |f| ensures IsFrame(k, f[..n]) <==> n == |f| {
      FrameDelimits(k, message, n);
    }
    FrameDelimits(k, message, |f|);
    assert f[..|f|] == f;
  }

  ghost predicate WellFormed(p: Proto, requests: seq<seq<byte>>) {
    forall r | r in requests ::
      Delimited(p.asked, r) && (p.reply(r).Some? ==> Delimited(p.replied, p.reply(r).value))
  }

  function Rest(client: Client): seq<byte> {
    if client.Sending? then client.rest else []
  }

  function Received(client: Client): seq<byte> {
    if client.Awaiting? then client.buffer else []
  }

  /** The exchange of the first request not yet answered. Its bytes are with the client, on their
      way or with the server; or those of the reply are. */
  ghost predicate Exchange(p: Proto, s: Session, request: seq<byte>) {
    match s.server
    case Reading(buffer) =>
      || (|s.heard| == |s.got| && s.down == [] && Received(s.client) == [] && !s.client.Finished? && buffer + s.up + Rest(s.client) == request
          && (s.client.Sending? ==> s.client.rest != []) && buffer != request)
      || (|s.heard| == |s.got| + 1 && buffer == [] && s.up == [] && s.client.Awaiting? && p.reply(request).Some?
          && s.client.buffer + s.down == p.reply(request).value && s.down != [])
    case Replying(rest) =>
      |s.heard| == |s.got| + 1 && s.up == [] && s.client.Awaiting? && rest != [] && p.reply(request).Some?
      && s.client.buffer + s.down + rest == p.reply(request).value
    case Stopped =>
      |s.heard| == |s.got| + 1 && s.up == [] && s.down == [] && s.client == Awaiting([]) && p.reply(request).None?
  }

  ghost predicate SessionOk(p: Proto, requests: seq<seq<byte>>, s: Session) {
    && |s.got| <= |requests| && s.todo == requests[|s.got|..]
    && |s.heard| <= |requests| && s.heard == requests[..|s.heard|]
    && (forall i | 0 <= i < |s.got| :: p.reply(requests[i]) == Some(s.got[i]))
    && (if s.todo == [] then |s.heard| == |s.got| && s.client.Finished? && s.up == [] && s.down == [] && s.server == Reading([])
        else Exchange(p, s, s.todo[0]))
  }

  lemma ClientWritesOk(p: Proto, requests: seq<seq<byte>>, s: Session)
    requires SessionOk(p, requests, s) && Enabled(s, ClientWrites)
    ensures SessionOk(p, requests, Step(p, s, ClientWrites))
  {
  }

  lemma ServerReadsOk(p: Proto, requests: seq<seq<byte>>, s: Session)
    requires WellFormed(p, requests) && SessionOk(p, requests, s) && Enabled(s, ServerReads)
    ensures SessionOk(p, requests, Step(p, s, ServerReads))
  {
    var request, buffer := s.todo[0], s.server.buffer + [s.up[0]];
    assert request in requests;
    assert s.up == [s.up[0]] + s.up[1..];
    assert buffer + s.up[1..] + Rest(s.client) == request;
    assert buffer == request[..|buffer|];
    if |buffer| < |request| {
      assert !p.asked(request[..|buffer|]);
      assert buffer != request;
    } else {
      assert buffer == request && Rest(s.client) == [] && s.up[1..] == [];
      if p.reply(request).Some? {
        assert s.client.buffer + s.down + p.reply(request).value == p.reply(request).value;
      }
    }
  }

  lemma ServerWritesOk(p: Proto, requests: seq<seq<byte>>, s: Session)
    requires SessionOk(p, requests, s) && Enabled(s, ServerWrites)
    ensures SessionOk(p, requests, Step(p, s, ServerWrites))
  {
  }

  lemma ClientReadsOk(p: Proto, requests: seq<seq<byte>>, s: Session)
    requires WellFormed(p, requests) && SessionOk(p, requests, s) && Enabled(s, ClientReads)
    ensures SessionOk(p, requests, Step(p, s, ClientReads))
  {
    var request, buffer := s.todo[0], s.client.buffer + [s.down[0]];
    assert request in requests && request == requests[|s.got|];
    var reply := p.reply(request).value;
    var rest := if s.server.Replying? then s.server.rest else [];
    assert s.down == [s.down[0]] + s.down[1..];
    assert buffer + s.down[1..] + rest == reply;
    assert buffer == reply[..|buffer|];
    if |buffer| < |reply| {
      assert !p.replied(reply[..|buffer|]);
    } else {
      assert buffer == reply && s.down[1..] == [] && rest == [];
      NextOk(p, requests, s, buffer);
    }
  }

  /** A complete reply ends the exchange and begins the next one. */
  lemma NextOk(p: Proto, requests: seq<seq<byte>>, s: Session, reply: seq<byte>)
    requires WellFormed(p, requests) && |s.got| < |requests| && s.todo == requests[|s.got|..]
    requires |s.heard| == |s.got| + 1 && s.heard == requests[..|s.heard|]
    requires forall i | 0 <= i < |s.got| :: p.reply(requests[i]) == Some(s.got[i])
    requires p.reply(requests[|s.got|]) == Some(reply) && s.server == Reading([]) && s.up == []
    ensures SessionOk(p, requests, Session(s.todo[1..], Next(s.todo[1..]), s.heard, s.got + [reply], s.up, [], s.server))
  {
    var todo := s.todo[1..];
    assert todo == requests[|s.got| + 1..];
    if todo != [] {
      assert todo[0] in requests;
      assert [] + [] + todo[0] == todo[0];
    }
  }

  lemma StepOk(p: Proto, requests: seq<seq<byte>>, s: Session, m: Move)
    requires WellFormed(p, requests) && SessionOk(p, requests, s)
    ensures SessionOk(p, requests, Step(p, s, m))
  {
    if Enabled(s, m) {
      match m
      case ClientWrites => ClientWritesOk(p, requests, s);
      case ServerReads => ServerReadsOk(p, requests, s);
      case ServerWrites => ServerWritesOk(p, requests, s);
      case ClientReads => ClientReadsOk(p, requests, s);
    }
  }

  lemma {:induction false} RunOk(p: Proto, requests: seq<seq<byte>>, moves: seq<Move>)
    requires WellFormed(p, requests)
    ensures SessionOk(p, requests, Run(p, requests, moves))
  {
    if moves == [] {
      if requests != [] {
        assert requests[0] in requests && [] + [] + requests[0] == requests[0];
      }
    } else {
      RunOk(p, requests, moves[..|moves| - 1]);
      StepOk(p, requests, Run(p, requests, moves[..|moves| - 1]), moves[|moves| - 1]);
    }
  }

  /** Whatever the schedule: the server has received the first requests as they were sent, the
      replies received so far are the replies to them in their order; when the client has finished, all requests are answered and both streams are empty;
      and the server only stops at a request it refuses, after all before it were answered. */
  lemma SessionSafe(p: Proto, requests: seq<seq<byte>>, moves: seq<Move>)
    requires WellFormed(p, requests)
    ensures var s := Run(p, requests, moves);
      && |s.got| <= |s.heard| <= |requests| && |s.heard| <= |s.got| + 1
      && s.heard == requests[..|s.heard|]
      && (forall i | 0 <= i < |s.got| :: p.reply(requests[i]) == Some(s.got[i]))
      && (s.client.Finished? ==> |s.got| == |requests| && s.up == [] && s.down == [] && s.server == Reading([]))
      && (s.server.Stopped? ==> |s.got| < |requests| && p.reply(requests[|s.got|]).None?)
  {
    RunOk(p, requests, moves);
  }

  /** No schedule reaches a deadlock: unless the client has finished or the server has stopped,
      one of the two can move. */
  lemma SessionLive(p: Proto, requests: seq<seq<byte>>, moves: seq<Move>)
    requires WellFormed(p, requests)
    ensures var s := Run(p, requests, moves);
      s.client.Finished? || s.server.Stopped? || exists m :: Enabled(s, m)
  {
    RunOk(p, requests, moves);
    var s := Run(p, requests, moves);
    if s.todo != [] {
      match s.server
      case Reading(buffer) =>
        if s.client.Sending? {
          assert Enabled(s, ClientWrites);
        } else if s.up != [] {
          assert Enabled(s, ServerReads);
        } else {
          assert buffer + [] + [] == buffer;
          assert Enabled(s, ClientReads);
        }
      case Replying(rest) => assert Enabled(s, ServerWrites);
      case Stopped =>
    }
  }

  /** The byte transfers a list of requests still needs. */
  function Cost(p: Proto, requests: seq<seq<byte>>): nat {
    if requests == [] then 0
    else
      2 * |requests[0]| + (if p.reply(requests[0]).Some? then 2 * |p.reply(requests[0]).value| else 0) + Cost(p, requests[1..])
  }

  /** What is left to transfer in the exchange under way, and after it. */
  function Work(p: Proto, s: Session): int {
    2 * |Rest(s.client)| + |s.up| + |s.down| +
    (if s.server.Replying? then 2 * |s.server.rest| else 0) +
    (if s.todo == [] then 0
     else
       Cost(p, s.todo[1..]) +
       (if s.server.Reading? && p.reply(s.todo[0]).Some? && !(s.client.Awaiting? && s.up == [] && s.server.buffer == [])
        then 2 * |p.reply(s.todo[0]).value| else 0))
  }

  /** Every move that is enabled brings the session closer to its end by one transfer. */
  lemma MoveWorks(p: Proto, requests: seq<seq<byte>>, s: Session, m: Move)
    requires WellFormed(p, requests) && SessionOk(p, requests, s) && Enabled(s, m)
    ensures Work(p, Step(p, s, m)) < Work(p, s)
  {
    StepOk(p, requests, s, m);
    var s' := Step(p, s, m);
    match m
    case ClientWrites =>
    case ServerReads =>
      if s.todo == [] {
        assert false;
      } else {
        assert s.todo[0] in requests;
      }
    case ServerWrites =>
    case ClientReads =>
      if s'.todo != s.todo && s'.todo != [] {
        assert |s'.server.buffer + s'.up + Rest(s'.client)| == |s'.todo[0]|;
      }
  }

  /** How many moves of the schedule had an effect. */
  function Effective(p: Proto, requests: seq<seq<byte>>, moves: seq<Move>): nat {
    if moves == [] then 0
    else
      var before := moves[..|moves| - 1];
      Effective(p, requests, before) + if Enabled(Run(p, requests, before), moves[|moves| - 1]) then 1 else 0
  }

  /** So no schedule makes more than a fixed number of effective moves. */
  lemma {:induction false} SessionEnds(p: Proto, requests: seq<seq<byte>>, moves: seq<Move>)
    requires WellFormed(p, requests)
    ensures Effective(p, requests, moves) + Work(p, Run(p, requests, moves)) <= Work(p, Begin(requests))
  {
    if moves != [] {
      var before := moves[..|moves| - 1];
      SessionEnds(p, requests, before);
      RunOk(p, requests, before);
      if Enabled(Run(p, requests, before), moves[|moves| - 1]) {
        MoveWorks(p, requests, Run(p, requests, before), moves[|moves| - 1]);
      }
    }
  }
}
