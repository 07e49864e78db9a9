/** Binary frame codecs of crates/protocol/src/lib.rs. */
module Frames {
  import opened Basics

  const ATTACH_FRAME_MAGIC: byte := 0x01
  const TERMINAL_PREVIEW_FRAME_MAGIC: byte := 0x02

  predicate Continues(b: seq<byte>, i: nat, low: byte, high: byte)
  {
    i < |b| && low <= b[i] <= high
  }

  /** Length of the UTF-8 sequence at the start of `b`, or 0 if it is malformed. */
  function Utf8Width(b: seq<byte>): (n: nat)
    ensures n <= |b|
  {
    if b == [] then 0
    else if b[0] < 0x80 then 1
    else if 0xC2 <= b[0] <= 0xDF then
      if Continues(b, 1, 0x80, 0xBF) then 2 else 0
    else if 0xE0 <= b[0] <= 0xEF then
      var low := if b[0] == 0xE0 then 0xA0 else 0x80;
      var high := if b[0] == 0xED then 0x9F else 0xBF;
      if Continues(b, 1, low, high) && Continues(b, 2, 0x80, 0xBF) then 3 else 0
    else if 0xF0 <= b[0] <= 0xF4 then
      var low := if b[0] == 0xF0 then 0x90 else 0x80;
      var high := if b[0] == 0xF4 then 0x8F else 0xBF;
      if Continues(b, 1, low, high) && Continues(b, 2, 0x80, 0xBF) && Continues(b, 3, 0x80, 0xBF) then 4 else 0
    else 0
  }

  predicate IsUtf8(b: seq<byte>)
    decreases |b|
  {
    b == [] || (Utf8Width(b) > 0 && IsUtf8(b[Utf8Width(b)..]))
  }

  datatype FrameError = Empty | WrongMagic(found: byte) | MissingLength | Truncated | NotUtf8

  function EncodeWith(magic: byte, id: seq<byte>, data: seq<byte>): seq<byte>
    requires |id| < 0x10000
  {
    [magic, |id| / 256, |id| % 256] + id + data
  }

  function DecodeWith(magic: byte, frame: seq<byte>): Result<(seq<byte>, seq<byte>), FrameError>
  {
    if frame == [] then Err(Empty)
    else if frame[0] != magic then Err(WrongMagic(frame[0]))
    else
      var body := frame[1..];
      if |body| < 2 then Err(MissingLength)
      else
        var n: nat := body[0] as nat * 256 + body[1];
        if |body| < 2 + n then Err(Truncated)
        else if !IsUtf8(body[2..2 + n]) then Err(NotUtf8)
        else Ok((body[2..2 + n], body[2 + n..]))
  }

  /** `encode_attach_output_frame`; a longer id makes the original panic. */
  function EncodeAttach(id: seq<byte>, data: seq<byte>): seq<byte>
    requires |id| < 0x10000
  {
    EncodeWith(ATTACH_FRAME_MAGIC, id, data)
  }

  function DecodeAttach(frame: seq<byte>): Result<(seq<byte>, seq<byte>), FrameError>
  {
    DecodeWith(ATTACH_FRAME_MAGIC, frame)
  }

  function EncodePreview(id: seq<byte>, data: seq<byte>): seq<byte>
    requires |id| < 0x10000
  {
    EncodeWith(TERMINAL_PREVIEW_FRAME_MAGIC, id, data)
  }

  function DecodePreview(frame: seq<byte>): Result<(seq<byte>, seq<byte>), FrameError>
  {
    DecodeWith(TERMINAL_PREVIEW_FRAME_MAGIC, frame)
  }

  lemma EncodedParts(magic: byte, id: seq<byte>, data: seq<byte>)
    requires |id| < 0x10000
    ensures var body := EncodeWith(magic, id, data)[1..];
            |body| == 2 + |id| + |data| && body[0] == |id| / 256 && body[1] == |id| % 256
            && body[2..2 + |id|] == id && body[2 + |id|..] == data
  {
    var body := EncodeWith(magic, id, data)[1..];
    assert body == [|id| / 256, |id| % 256] + id + data;
  }

  lemma DecodeEncodeWith(magic: byte, id: seq<byte>, data: seq<byte>)
    requires |id| < 0x10000 && IsUtf8(id)
    ensures DecodeWith(magic, EncodeWith(magic, id, data)) == Ok((id, data))
  {
    EncodedParts(magic, id, data);
  }

  lemma BigEndian(high: byte, low: byte)
    ensures (high as nat * 256 + low) / 256 == high && (high as nat * 256 + low) % 256 == low
  {
  }

  lemma FrameParts(frame: seq<byte>, n: nat)
    requires |frame| >= 3 + n
    ensures frame == [frame[0], frame[1], frame[2]] + frame[1..][2..2 + n] + frame[1..][2 + n..]
  {
    assert frame[1..][2..2 + n] == frame[3..3 + n] && frame[1..][2 + n..] == frame[3 + n..];
  }

  lemma EncodeDecodeWith(magic: byte, frame: seq<byte>)
    requires DecodeWith(magic, frame).Ok?
    ensures var (id, data) := DecodeWith(magic, frame).value;
            |id| < 0x10000 && IsUtf8(id) && EncodeWith(magic, id, data) == frame
  {
    var n: nat := frame[1] as nat * 256 + frame[2];
    BigEndian(frame[1], frame[2]);
    FrameParts(frame, n);
  }

  /** A frame decodes to an id and data exactly if it is their encoding. */
  lemma AttachFramesRoundTrip(frame: seq<byte>, id: seq<byte>, data: seq<byte>)
    ensures DecodeAttach(frame) == Ok((id, data))
            <==> |id| < 0x10000 && IsUtf8(id) && frame == EncodeAttach(id, data)
  {
    if DecodeAttach(frame).Ok? {
      EncodeDecodeWith(ATTACH_FRAME_MAGIC, frame);
    }
    if |id| < 0x10000 && IsUtf8(id) {
      DecodeEncodeWith(ATTACH_FRAME_MAGIC, id, data);
    }
  }

  lemma PreviewFramesRoundTrip(frame: seq<byte>, id: seq<byte>, data: seq<byte>)
    ensures DecodePreview(frame) == Ok((id, data))
            <==> |id| < 0x10000 && IsUtf8(id) && frame == EncodePreview(id, data)
  {
    if DecodePreview(frame).Ok? {
      EncodeDecodeWith(TERMINAL_PREVIEW_FRAME_MAGIC, frame);
    }
    if |id| < 0x10000 && IsUtf8(id) {
      DecodeEncodeWith(TERMINAL_PREVIEW_FRAME_MAGIC, id, data);
    }
  }

  /** One byte of kind, two of the id's length, high byte first, then id and data. */
  predicate Layout(frame: seq<byte>, kind: int, id: seq<byte>, data: seq<byte>)
  {
    && |frame| == 3 + |id| + |data| && frame[0] == kind && frame[1] as int * 256 + frame[2] as int == |id|
    && (forall i | 0 <= i < |id| :: frame[3 + i] == id[i])
    && (forall i | 0 <= i < |data| :: frame[3 + |id| + i] == data[i])
  }

  /** The bytes of a frame on the wire. */
  lemma FramesAreLaidOut(id: seq<byte>, data: seq<byte>)
    requires |id| < 0x10000
    ensures Layout(EncodeAttach(id, data), 1, id, data) && Layout(EncodePreview(id, data), 2, id, data)
  {
  }

  function IdLength(frame: seq<byte>): nat
    requires |frame| >= 3
  {
    frame[1] as int * 256 + frame[2] as int
  }

  /** Which frames are refused, and why: the first thing that is wrong. */
  lemma RefusedExactly(frame: seq<byte>)
    ensures DecodeAttach(frame) == Err(Empty) <==> frame == []
    ensures forall b :: DecodeAttach(frame) == Err(WrongMagic(b)) <==> frame != [] && frame[0] == b && b != 1
    ensures DecodeAttach(frame) == Err(MissingLength) <==> 1 <= |frame| < 3 && frame[0] == 1
    ensures DecodeAttach(frame) == Err(Truncated) <==>
            |frame| >= 3 && frame[0] == 1 && |frame| < 3 + IdLength(frame)
    ensures DecodeAttach(frame) == Err(NotUtf8) <==>
            |frame| >= 3 && frame[0] == 1 && |frame| >= 3 + IdLength(frame)
            && !IsUtf8(frame[3..3 + IdLength(frame)])
  {
    if |frame| >= 3 && |frame| >= 3 + IdLength(frame) {
      var n := IdLength(frame);
      assert frame[1..][2..2 + n] == frame[3..3 + n];
    }
  }

  /** No frame is accepted by both decoders. */
  lemma FramesAreNotConfused(frame: seq<byte>)
    ensures !(DecodeAttach(frame).Ok? && DecodePreview(frame).Ok?)
    ensures DecodeAttach(frame).Ok? ==> DecodePreview(frame) == Err(WrongMagic(ATTACH_FRAME_MAGIC))
  {
  }
}
