/** The pre-image oracle and the hint channel. */
module Preimage {
  import opened Options
  import opened Wire

  const KEY_SIZE: nat := 32

  const TWO_32: nat := 0x1_0000_0000

  type Key = k: seq<byte> | |k| == KEY_SIZE witness seq(KEY_SIZE, _ => 0)

  /** A pre-image; its length fits into 64 bits. */
  type Value = v: seq<byte> | |v| < 0x1_0000_0000_0000_0000

  type PreimageGetter = seq<byte> -> Option<Value>

  function ValueFrame(value: Value): seq<byte> {
    Frame(8, |value|, value)
  }

  /** The oracle's protocol: 32 bytes of key are answered with the value behind its length. */
  function OracleProto(getter: PreimageGetter): Proto {
    Proto(
      bytes => |bytes| == KEY_SIZE,
      key => if getter(key).Some? then Some(ValueFrame(getter(key).value)) else None,
      bytes => IsFrame(8, bytes))
  }

  lemma ValueFrameParts(value: Value)
    ensures ValueFrame(value)[8..] == value && Decode(ValueFrame(value)[..8]) == |value|
    ensures |value| < Power(8)
  {
    Powers();
    FrameDelimits(8, value, 8 + |value|);
    assert ValueFrame(value)[..|ValueFrame(value)|] == ValueFrame(value);
  }

  lemma OracleWellFormed(getter: PreimageGetter, keys: seq<Key>)
    ensures WellFormed(OracleProto(getter), keys)
  {
    forall key | key in keys
      ensures Delimited(OracleProto(getter).asked, key)
      ensures getter(key).Some? ==> Delimited(OracleProto(getter).replied, ValueFrame(getter(key).value))
    {
      if getter(key).Some? {
        var value := getter(key).value;
        ValueFrameParts(value);
        FrameDelimited(OracleProto(getter).replied, 8, value);
      }
    }
  }

  /** However the bytes of both sides interleave: every `Get` gets exactly the value served for
      its key, and when the client is done both streams are empty. */
  lemma OracleRoundTrip(getter: PreimageGetter, keys: seq<Key>, moves: seq<Move>)
    ensures var s := Run(OracleProto(getter), keys, moves);
      && |s.got| <= |keys|
      && (forall i | 0 <= i < |s.got| ::
            getter(keys[i]).Some? && |s.got[i]| >= 8 && s.got[i][8..] == getter(keys[i]).value)
      && (s.client.Finished? ==> |s.got| == |keys| && s.up == [] && s.down == [])
      && (s.server.Stopped? ==> |s.got| < |keys| && getter(keys[|s.got|]).None?)
      && (s.client.Finished? || s.server.Stopped? || exists m :: Enabled(s, m))
  {
    var p := OracleProto(getter);
    OracleWellFormed(getter, keys);
    SessionSafe(p, keys, moves);
    SessionLive(p, keys, moves);
    var s := Run(p, keys, moves);
    forall i | 0 <= i < |s.got|
      ensures getter(keys[i]).Some? && |s.got[i]| >= 8 && s.got[i][8..] == getter(keys[i]).value
    {
      assert p.reply(keys[i]) == Some(s.got[i]);
      ValueFrameParts(getter(keys[i]).value);
    }
  }

  /** Hints: the length is cut to 32 bits. */

  function HintFrame(hint: seq<byte>): seq<byte> {
    Frame(4, |hint| % TWO_32, hint)
  }

  const ACK: seq<byte> := [0]

  /** The hint protocol: every hint is acknowledged with one byte, whether it could be handled or
      not. */
  function HintProto(): Proto {
    Proto(bytes => IsFrame(4, bytes), _ => Some(ACK), bytes => |bytes| == 1)
  }

  /** What the reader makes of a stream: the hint and what is left, if a whole one is there. */
  function ReadHint(stream: seq<byte>): Option<(seq<byte>, seq<byte>)> {
    if |stream| < 4 || |stream| - 4 < Decode(stream[..4]) then None
    else
      var n := Decode(stream[..4]);
      Some((stream[4..4 + n], stream[4 + n..]))
  }

  /** A hint is delivered as it is exactly when its length fits into 32 bits. */
  lemma HintIntactIff(hint: seq<byte>, rest: seq<byte>)
    ensures ReadHint(HintFrame(hint) + rest) == Some((hint, rest)) <==> |hint| < TWO_32
  {
    HintCut(hint, rest);
    if |hint| < TWO_32 {
      assert hint[..|hint|] == hint && hint[|hint|..] == [];
    }
  }

  /** In any case the reader gets as much of it as the length says, and the remainder stays in
      the stream. */
  lemma HintCut(hint: seq<byte>, rest: seq<byte>)
    ensures var n := |hint| % TWO_32;
      n <= |hint| && ReadHint(HintFrame(hint) + rest) == Some((hint[..n], hint[n..] + rest))
  {
    var n := |hint| % TWO_32;
    Powers();
    DecodeEncode(n, 4);
    assert HintFrame(hint) + rest == Encode(n, 4) + hint + rest;
    CutMiddle(Encode(n, 4), hint, rest, n);
  }

  lemma CutMiddle(prefix: seq<byte>, middle: seq<byte>, rest: seq<byte>, n: nat)
    requires n <= |middle|
    ensures var s, k := prefix + middle + rest, |prefix|;
      s[..k] == prefix && s[k..k + n] == middle[..n] && s[k + n..] == middle[n..] + rest
  {
  }

  predicate Short(hints: seq<seq<byte>>) {
    forall h | h in hints :: |h| < TWO_32
  }

  function HintFrames(hints: seq<seq<byte>>): (frames: seq<seq<byte>>)
    ensures |frames| == |hints| && forall i | 0 <= i < |hints| :: frames[i] == HintFrame(hints[i])
  {
    seq(|hints|, i requires 0 <= i < |hints| => HintFrame(hints[i]))
  }

  lemma HintIsFrame(hint: seq<byte>)
    requires |hint| < TWO_32
    ensures |hint| < Power(4) && HintFrame(hint) == Frame(4, |hint|, hint)
  {
    Powers();
  }

  lemma HintsWellFormed(hints: seq<seq<byte>>)
    requires Short(hints)
    ensures WellFormed(HintProto(), HintFrames(hints))
  {
    forall f | f in HintFrames(hints) ensures Delimited(HintProto().asked, f) && Delimited(HintProto().replied, ACK) {
      var i :| 0 <= i < |hints| && HintFrames(hints)[i] == f;
      assert hints[i] in hints;
      HintIsFrame(hints[i]);
      FrameDelimited(HintProto().asked, 4, hints[i]);
    }
  }

  /** However the bytes interleave, hints shorter than 2^32 bytes arrive as they were sent and in
      their order, get one acknowledgement byte each, nobody gets stuck, and both streams are empty
      at the end. */
  lemma HintsDelivered(hints: seq<seq<byte>>, moves: seq<Move>)
    requires Short(hints)
    ensures var s := Run(HintProto(), HintFrames(hints), moves);
      && |s.got| <= |s.heard| <= |hints| && |s.heard| <= |s.got| + 1
      && (forall i | 0 <= i < |s.heard| :: ReadHint(s.heard[i]) == Some((hints[i], [])))
      && (forall i | 0 <= i < |s.got| :: s.got[i] == ACK)
      && (s.client.Finished? ==> |s.got| == |hints| && s.up == [] && s.down == [])
      && !s.server.Stopped?
      && (s.client.Finished? || exists m :: Enabled(s, m))
  {
    HintsWellFormed(hints);
    SessionSafe(HintProto(), HintFrames(hints), moves);
    SessionLive(HintProto(), HintFrames(hints), moves);
    var s := Run(HintProto(), HintFrames(hints), moves);
    forall i | 0 <= i < |s.heard| ensures ReadHint(s.heard[i]) == Some((hints[i], [])) {
      assert hints[i] in hints && s.heard[i] == HintFrame(hints[i]);
      HintIntactIff(hints[i], []);
      assert HintFrame(hints[i]) + [] == HintFrame(hints[i]);
    }
  }
}
