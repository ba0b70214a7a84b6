/** The objects at the ends of the pre-image and hint streams. */
module PreimageChannels {
  import opened Options
  import opened Wire
  import opened Preimage

  /** A stream that nobody writes to while it is read: reading past its end is an error. */
  datatype ReadResult = Full(bytes: seq<byte>) | EndOfStream | Partial

  class Pipe {
    var bytes: seq<byte>

    constructor ()
      ensures bytes == []
    {
      bytes := [];
    }

    method Write(more: seq<byte>)
      modifies this
      ensures bytes == old(bytes) + more
    {
      bytes := bytes + more;
    }

    method ReadFull(n: nat) returns (r: ReadResult)
      modifies this
      ensures n <= |old(bytes)| ==> r == Full(old(bytes)[..n]) && bytes == old(bytes)[n..]
      ensures n > |old(bytes)| ==> bytes == [] && r == if old(bytes) == [] then EndOfStream else Partial
    {
      if n <= |bytes| {
        r := Full(bytes[..n]);
        bytes := bytes[n..];
      } else {
        r := if bytes == [] then EndOfStream else Partial;
        bytes := [];
      }
    }
  }

  class OracleClient {
    const up: Pipe
    const down: Pipe

    constructor (up: Pipe, down: Pipe)
      ensures this.up == up && this.down == down
    {
      this.up, this.down := up, down;
    }

    /** The first half of `Get`. */
    method Ask(key: Key)
      modifies up
      ensures up.bytes == old(up.bytes) + key
    {
      up.Write(key);
    }

    /** The second half: `None` where the source panics. */
    method Receive() returns (value: Option<seq<byte>>)
      modifies down
      ensures match ReadValue(old(down.bytes))
              case Some((v, rest)) => value == Some(v) && down.bytes == rest
              case None => value.None? && down.bytes == []
    {
      ghost var stream := down.bytes;
      var prefix := down.ReadFull(8);
      if !prefix.Full? {
        return None;
      }
      var n := Decode(prefix.bytes);
      var payload := down.ReadFull(n);
      value := if payload.Full? then Some(payload.bytes) else None;
      assert n <= |stream| - 8 ==> stream[8..][..n] == stream[8..8 + n] && stream[8..][n..] == stream[8 + n..];
    }
  }

  /** What a reader makes of a stream: the value and what is left, if a whole one is there. */
  function ReadValue(stream: seq<byte>): Option<(seq<byte>, seq<byte>)> {
    if |stream| < 8 || |stream| - 8 < Decode(stream[..8]) then None
    else
      var n := Decode(stream[..8]);
      Some((stream[8..8 + n], stream[8 + n..]))
  }

  /** A value is read back as it was written. */
  lemma ValueRead(v: Value, rest: seq<byte>)
    ensures ReadValue(ValueFrame(v) + rest) == Some((v, rest))
  {
    ValueFrameParts(v);
    CutMiddle(ValueFrame(v)[..8], v, rest, |v|);
    assert ValueFrame(v)[..8] + v == ValueFrame(v) && v[..|v|] == v;
    assert v[|v|..] + rest == rest;
  }

  datatype ServeResult = Served | NoRequest | BadRequest | NotServed

  class OracleServer {
    const up: Pipe
    const down: Pipe

    constructor (up: Pipe, down: Pipe)
      ensures this.up == up && this.down == down
    {
      this.up, this.down := up, down;
    }

    method NextPreimageRequest(getter: PreimageGetter) returns (r: ServeResult)
      requires up != down
      modifies up, down
      ensures old(|up.bytes|) < KEY_SIZE ==>
        && r == (if old(up.bytes) == [] then NoRequest else BadRequest)
        && up.bytes == [] && down.bytes == old(down.bytes)
      ensures old(|up.bytes|) >= KEY_SIZE ==>
        var key := old(up.bytes)[..KEY_SIZE];
        && up.bytes == old(up.bytes)[KEY_SIZE..]
        && (if getter(key).Some? then r == Served && down.bytes == old(down.bytes) + ValueFrame(getter(key).value)
            else r == NotServed && down.bytes == old(down.bytes))
    {
      var key := up.ReadFull(KEY_SIZE);
      match key
      case EndOfStream => return NoRequest;
      case Partial => return BadRequest;
      case Full(bytes) =>
        var value := getter(bytes);
        if value.None? {
          return NotServed;
        }
        down.Write(Encode(|value.value|, 8));
        if |value.value| > 0 {
          down.Write(value.value);
        }
        return Served;
    }
  }

  /** Client and server taking turns: every `Get` returns the served value, empty ones included,
      until a key is refused. */
  method GetAll(client: OracleClient, server: OracleServer, getter: PreimageGetter, keys: seq<Key>)
    returns (values: seq<seq<byte>>)
    requires client.up == server.up != client.down == server.down && client.up.bytes == client.down.bytes == []
    modifies client.up, client.down
    ensures |values| <= |keys|
    ensures forall i | 0 <= i < |values| :: getter(keys[i]) == Some(values[i])
    ensures |values| < |keys| ==> getter(keys[|values|]).None?
    ensures client.up.bytes == client.down.bytes == []
  {
    values := [];
    while |values| < |keys|
      invariant |values| <= |keys| && client.up.bytes == client.down.bytes == []
      invariant forall i | 0 <= i < |values| :: getter(keys[i]) == Some(values[i])
    {
      var key := keys[|values|];
      client.Ask(key);
      assert client.up.bytes == key && key[..KEY_SIZE] == key;
      var r := server.NextPreimageRequest(getter);
      if r == NotServed {
        return;
      }
      assert client.down.bytes == ValueFrame(getter(key).value) + [];
      ValueRead(getter(key).value, []);
      var value := client.Receive();
      values := values + [value.value];
    }
  }

  class HintWriter {
    const up: Pipe
    const down: Pipe

    constructor (up: Pipe, down: Pipe)
      ensures this.up == up && this.down == down
    {
      this.up, this.down := up, down;
    }

    method Send(hint: seq<byte>)
      modifies up
      ensures up.bytes == old(up.bytes) + HintFrame(hint)
    {
      up.Write(Encode(|hint| % TWO_32, 4) + hint);
    }

    /** False where the source panics. */
    method AwaitAck() returns (ok: bool)
      modifies down
      ensures ok <==> old(down.bytes) != []
      ensures ok ==> down.bytes == old(down.bytes)[1..]
    {
      var r := down.ReadFull(1);
      ok := r.Full?;
    }
  }

  datatype HintResult = Handled(hint: seq<byte>) | HandlerFailed(hint: seq<byte>) | NoHint | BadHint

  class HintReader {
    const up: Pipe
    const down: Pipe

    constructor (up: Pipe, down: Pipe)
      ensures this.up == up && this.down == down
    {
      this.up, this.down := up, down;
    }

    /** A hint is passed on and acknowledged with one byte, whether the handler fails or not. */
    method NextHint(handler: seq<byte> -> bool) returns (r: HintResult)
      requires up != down
      modifies up, down
      ensures match ReadHint(old(up.bytes))
              case Some((hint, rest)) =>
                && r == (if handler(hint) then Handled(hint) else HandlerFailed(hint))
                && up.bytes == rest && down.bytes == old(down.bytes) + ACK
              case None =>
                r == (if old(up.bytes) == [] then NoHint else BadHint) && down.bytes == old(down.bytes)
    {
      ghost var stream := up.bytes;
      var prefix := up.ReadFull(4);
      if prefix.EndOfStream? {
        return NoHint;
      }
      if prefix.Partial? {
        return BadHint;
      }
      var n := Decode(prefix.bytes);
      var payload := [];
      if n > 0 {
        var body := up.ReadFull(n);
        if !body.Full? {
          return BadHint;
        }
        payload := body.bytes;
      }
      assert payload == stream[4..][..n] == stream[4..4 + n];
      assert up.bytes == stream[4..][n..] == stream[4 + n..];
      if !handler(payload) {
        down.Write(ACK);
        return HandlerFailed(payload);
      }
      down.Write(ACK);
      r := Handled(payload);
    }
  }

  /** Writer and reader taking turns: the reader sees exactly the hints written if and only if
      all of them are shorter than 2^32 bytes, and every hint it saw was acknowledged once. */
  method SendAll(writer: HintWriter, reader: HintReader, handler: seq<byte> -> bool, hints: seq<seq<byte>>)
    returns (seen: seq<seq<byte>>)
    requires writer.up == reader.up != writer.down == reader.down && writer.up.bytes == writer.down.bytes == []
    modifies writer.up, writer.down
    ensures seen == hints <==> Short(hints)
    ensures writer.down.bytes == []
    ensures Short(hints) ==> writer.up.bytes == []
  {
    seen := [];
    var i := 0;
    while i < |hints|
      invariant i <= |hints| && |seen| == i && writer.down.bytes == []
      invariant Short(hints[..i]) ==> writer.up.bytes == []
      invariant seen == hints[..i] <==> Short(hints[..i])
    {
      ghost var left := writer.up.bytes;
      writer.Send(hints[i]);
      var r := reader.NextHint(handler);
      NextSeen(hints, i, seen, left, writer.up.bytes, if r.Handled? || r.HandlerFailed? then Some(r.hint) else None);
      if r.NoHint? || r.BadHint? {
        return;
      }
      var ok := writer.AwaitAck();
      seen := seen + [r.hint];
      i := i + 1;
    }
    assert hints[..i] == hints;
  }

  lemma NextSeen(hints: seq<seq<byte>>, i: nat, seen: seq<seq<byte>>, left: seq<byte>, left': seq<byte>, hint: Option<seq<byte>>)
    requires i < |hints| && |seen| == i && (Short(hints[..i]) ==> left == []) && (seen == hints[..i] <==> Short(hints[..i]))
    requires match ReadHint(left + HintFrame(hints[i]))
             case Some((h, rest)) => hint == Some(h) && left' == rest
             case None => hint.None?
    ensures hint.Some? ==> (seen + [hint.value] == hints[..i + 1] <==> Short(hints[..i + 1]))
    ensures hint.Some? ==> (Short(hints[..i + 1]) ==> left' == [])
    ensures hint.None? ==> !Short(hints)
  {
    assert hints[..i + 1] == hints[..i] + [hints[i]];
    assert Short(hints[..i + 1]) <==> Short(hints[..i]) && |hints[i]| < TWO_32;
    if Short(hints[..i]) {
      assert left + HintFrame(hints[i]) == HintFrame(hints[i]) + [];
      HintCut(hints[i], []);
      HintIntactIff(hints[i], []);
    } else {
      var h :| h in hints[..i] && |h| >= TWO_32;
      assert h in hints;
    }
  }
}
