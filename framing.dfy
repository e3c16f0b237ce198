/**
 * The message frame of the socket server: a header of two unsigned 32-bit
 * fields (Magic, then PayloadSize) in front of the payload. The header's
 * constructor fixes both fields from the payload; sending adds the header,
 * receiving strips it again after checking the magic.
 */
module Framing {
  import opened Wrappers

  newtype byte = x: int | 0 <= x < 0x100
  newtype uint32 = x: int | 0 <= x < 0x1_0000_0000

  /** Largest element count of the engine's arrays (their count is a signed 32-bit int). */
  const MaxPayload: int := 0x7FFF_FFFF

  /**
   * The process-wide magic number. Its value is defined outside the
   * declarations modelled here; nothing below depends on which value it is.
   */
  const DefaultMagic: uint32

  /** The header: both fields are 0 until the constructor sets them. */
  datatype Header = Header(magic: uint32, payloadSize: uint32)

  const ZeroHeader := Header(0, 0)

  /** The header built for a payload: its size, and the process-wide magic. */
  function HeaderFor(payload: seq<byte>): (h: Header)
    requires |payload| <= MaxPayload
    ensures h.payloadSize as int == |payload| && h.magic == DefaultMagic
  {
    Header(DefaultMagic, |payload| as uint32)
  }

  /**
   * The byte order the header fields are written in. The host's order is
   * used on both ends; both orders are covered.
   */
  datatype ByteOrder = LittleEndian | BigEndian

  function EncodeWord(order: ByteOrder, w: uint32): (bs: seq<byte>)
    ensures |bs| == 4
  {
    var x := w as int;
    var le := [(x % 256) as byte, (x / 256 % 256) as byte, (x / 256 / 256 % 256) as byte, (x / 256 / 256 / 256) as byte];
    if order == LittleEndian then le else [le[3], le[2], le[1], le[0]]
  }

  function DecodeWord(order: ByteOrder, bs: seq<byte>): uint32
    requires |bs| == 4
  {
    var le := if order == LittleEndian then bs else [bs[3], bs[2], bs[1], bs[0]];
    (le[0] as int + 256 * (le[1] as int + 256 * (le[2] as int + 256 * le[3] as int))) as uint32
  }

  /** Reading a written header field gives back the field. */
  lemma DecodeEncodeWord(order: ByteOrder, w: uint32)
    ensures DecodeWord(order, EncodeWord(order, w)) == w
  {
    var x := w as int;
    assert x == x % 256 + 256 * (x / 256);
    assert x / 256 == x / 256 % 256 + 256 * (x / 256 / 256);
    assert x / 256 / 256 == x / 256 / 256 % 256 + 256 * (x / 256 / 256 / 256);
  }

  /** Different fields are written differently. */
  lemma EncodeWordInjective(order: ByteOrder, v: uint32, w: uint32)
    requires v != w
    ensures EncodeWord(order, v) != EncodeWord(order, w)
  {
    DecodeEncodeWord(order, v);
    DecodeEncodeWord(order, w);
  }

  function EncodeHeader(order: ByteOrder, h: Header): (bs: seq<byte>)
    ensures |bs| == 8
  {
    EncodeWord(order, h.magic) + EncodeWord(order, h.payloadSize)
  }

  /** Add the header to a payload. */
  function Wrap(order: ByteOrder, payload: seq<byte>): (frame: seq<byte>)
    requires |payload| <= MaxPayload
    ensures |frame| == 8 + |payload| && frame[8..] == payload
  {
    EncodeHeader(order, HeaderFor(payload)) + payload
  }

  /** Why no payload could be read: a foreign magic, or the stream ended inside the frame. */
  datatype FrameError = Desynchronized | ConnectionClosed

  /**
   * Read one frame from the front of a byte stream: the header, a magic
   * check, then exactly PayloadSize bytes. The rest of the stream belongs to
   * later frames.
   */
  function Strip(order: ByteOrder, stream: seq<byte>): (r: Result<(seq<byte>, seq<byte>), FrameError>)
    ensures r.Success? ==>
      && |stream| >= 8
      && DecodeWord(order, stream[..4]) == DefaultMagic
      && |r.value.0| == DecodeWord(order, stream[4..8]) as int
      && stream == stream[..8] + r.value.0 + r.value.1
  {
    if |stream| < 8 then Failure(ConnectionClosed)
    else if DecodeWord(order, stream[..4]) != DefaultMagic then Failure(Desynchronized)
    else
      var size := DecodeWord(order, stream[4..8]) as int;
      if |stream| - 8 < size then Failure(ConnectionClosed)
      else Success((stream[8..8 + size], stream[8 + size..]))
  }

  /** Round trip: stripping a wrapped payload gives back the payload, and leaves what follows untouched. */
  lemma StripWrap(order: ByteOrder, payload: seq<byte>, more: seq<byte>)
    requires |payload| <= MaxPayload
    ensures Strip(order, Wrap(order, payload) + more) == Success((payload, more))
  {
    var h := HeaderFor(payload);
    var s := Wrap(order, payload) + more;
    assert s[..4] == EncodeWord(order, h.magic);
    assert s[4..8] == EncodeWord(order, h.payloadSize);
    DecodeEncodeWord(order, h.magic);
    DecodeEncodeWord(order, h.payloadSize);
    assert s[8..8 + |payload|] == payload;
    assert s[8 + |payload|..] == more;
  }

  /**
   * A frame cut short anywhere, inside the header or inside the payload,
   * is reported as a stream that ended inside a frame, never as a foreign
   * magic: a reader that waits for more bytes loses nothing.
   */
  lemma StripPrefixIncomplete(order: ByteOrder, payload: seq<byte>, k: nat)
    requires |payload| <= MaxPayload && k < 8 + |payload|
    ensures Strip(order, Wrap(order, payload)[..k]) == Failure(ConnectionClosed)
  {
    if k >= 8 {
      var h := HeaderFor(payload);
      var w := Wrap(order, payload);
      var s := w[..k];
      assert s[..4] == EncodeWord(order, h.magic);
      assert s[4..8] == EncodeWord(order, h.payloadSize);
      DecodeEncodeWord(order, h.magic);
      DecodeEncodeWord(order, h.payloadSize);
    }
  }

  /** A frame whose magic is not the process-wide one yields no payload. */
  lemma StripRejectsForeignMagic(order: ByteOrder, h: Header, rest: seq<byte>)
    requires h.magic != DefaultMagic
    ensures Strip(order, EncodeHeader(order, h) + rest) == Failure(Desynchronized)
  {
    var s := EncodeHeader(order, h) + rest;
    assert s[..4] == EncodeWord(order, h.magic);
    DecodeEncodeWord(order, h.magic);
  }

  /** The stream written for a sequence of messages, one frame each, in order. */
  function WrapAll(order: ByteOrder, msgs: seq<seq<byte>>): seq<byte>
    requires forall k :: 0 <= k < |msgs| ==> |msgs[k]| <= MaxPayload
  {
    if msgs == [] then [] else Wrap(order, msgs[0]) + WrapAll(order, msgs[1..])
  }

  /** Sending one more message appends its frame to the stream. */
  lemma {:induction false} WrapAllSnoc(order: ByteOrder, msgs: seq<seq<byte>>, m: seq<byte>)
    requires forall k :: 0 <= k < |msgs| ==> |msgs[k]| <= MaxPayload
    requires |m| <= MaxPayload
    ensures WrapAll(order, msgs + [m]) == WrapAll(order, msgs) + Wrap(order, m)
  {
    if msgs == [] {
      assert msgs + [m] == [m];
      assert WrapAll(order, [m]) == Wrap(order, m) + WrapAll(order, []);
    } else {
      assert (msgs + [m])[1..] == msgs[1..] + [m];
      WrapAllSnoc(order, msgs[1..], m);
    }
  }

  /** Read frames until the stream is used up; any malformed frame fails the whole read. */
  function ReadAll(order: ByteOrder, stream: seq<byte>): Result<seq<seq<byte>>, FrameError>
    decreases |stream|
  {
    if stream == [] then Success([])
    else match Strip(order, stream)
      case Failure(e) => Failure(e)
      case Success(frame) =>
        match ReadAll(order, frame.1)
        case Failure(e) => Failure(e)
        case Success(msgs) => Success([frame.0] + msgs)
  }

  /** Messages are neither split nor merged: the reader gets back exactly the messages written, in order. */
  lemma {:induction false} ReadAllWrapAll(order: ByteOrder, msgs: seq<seq<byte>>)
    requires forall k :: 0 <= k < |msgs| ==> |msgs[k]| <= MaxPayload
    ensures ReadAll(order, WrapAll(order, msgs)) == Success(msgs)
  {
    if msgs != [] {
      var rest := WrapAll(order, msgs[1..]);
      StripWrap(order, msgs[0], rest);
      ReadAllWrapAll(order, msgs[1..]);
      var s := WrapAll(order, msgs);
      assert s == Wrap(order, msgs[0]) + rest;
      assert s != [];
      assert ReadAll(order, s) == Success([msgs[0]] + msgs[1..]);
      assert [msgs[0]] + msgs[1..] == msgs;
    }
  }
}
