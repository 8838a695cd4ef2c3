/** The RTP header extractor run on each decoded packet record (StreamServer/api/stream-manager.js,
    lines 90-185; the same step is in FrontEnd/stream-manager.js, lines 98-198, and in
    StreamServer/api/server.js, lines 166-258). It reads the fixed header of section 5.1 of
    RFC 3550, the CSRC list and the header extension of section 5.3.1, the way the code does:

    - the reported payload type is `(byte1 & 0x7F) >> 1`, half the RFC's 7-bit field;
    - the extension length is taken as a count of bytes measured from the start of the
      extension's id/length word, not as 32-bit words after it, and 0 is rejected;
    - a "hex" payload assigns through the undefined `rtp.payload` and throws;
    - any encoding other than "base64" or "hex" leaves no buffer, so no header is found.

    The bit operations on a byte are written as arithmetic: `b >> 6` is `b / 64`,
    `(b & 0x20) >> 5` is `b % 64 / 32`, `(b & 0x10) >> 4` is `b % 32 / 16`, `b & 0x0F` is
    `b % 16`, `b >> 7` is `b / 128`, `(b & 0x7F) >> 1` is `b % 128 / 2`. The 16- and 32-bit
    reads (`((b[i] << 8) | b[i + 1]) >>> 0` and its four-byte form) are unsigned big-endian:
    `Uint16At` and `Uint32At`. */
module Rtp {
  import opened Wrappers
  import opened Text
  import opened Encoding
  import opened Message

  /** What the step does to one record: it throws, or it passes the record on (with `rtp`
      attached when a header was found) together with the voice bytes, if any. */
  datatype Outcome = Threw | Done(data: Data, rtpPayload: Option<seq<byte>>)

  /** `Buffer.from(payload, encoding)`: bytes, no buffer, or a throw. */
  datatype Conversion = Bytes(b: seq<byte>) | NoBuffer | Throws

  /** `x > 0` for a value read from the record; text is compared as `Number(text)`. */
  predicate PositiveNumber(v: Option<Value>) {
    match v
    case Some(Num(n)) => n.Finite? && n.value > 0
    case Some(Str(s)) => ToNumber(s).Finite? && ToNumber(s).value > 0
    case None => false
  }

  /** The guard of the step: parsing enabled, a UDP payload with positive size. */
  predicate Attempted(enable: bool, data: Data) {
    enable && TruthyField(Lookup(data, "payload")) &&
    Member(data, "payload", "type") == Some(Str("UDP")) &&
    PositiveNumber(Member(data, "payload", "size"))
  }

  /** The buffer built from the record's payload text. `Buffer.from` of a value that is not
      text throws. */
  function ConversionOf(data: Data): (c: Conversion)
    ensures c.Bytes? ==> Member(data, "payload", "encoding_type") == Some(Str("base64"))
    ensures c.NoBuffer? <==> Member(data, "payload", "encoding_type") !in {Some(Str("base64")), Some(Str("hex"))}
  {
    var enc := Member(data, "payload", "encoding_type");
    if enc == Some(Str("base64")) then
      match Member(data, "payload", "payload")
      case Some(Str(t)) => Bytes(Base64Decode(t))
      case _ => Throws
    else if enc == Some(Str("hex")) then Throws
    else NoBuffer
  }

  /** Where the CSRC list ends, given the first byte. */
  function CsrcEnd(b: seq<byte>): nat
    requires |b| > 0
  {
    12 + 4 * (b[0] % 16)
  }

  predicate HasExtension(b: seq<byte>)
    requires |b| > 0
  {
    b[0] % 32 / 16 == 1
  }

  /** The extension's length word, read at `at + 2`. */
  function ExtensionLength(b: seq<byte>, at: nat): nat
    requires at + 3 < |b|
  {
    Uint16At(b, at + 2)
  }

  /** The header accepts: a fixed header of version 2, a CSRC list that fits, and, when the
      extension bit is set, an id/length word that fits and a non-zero length that fits. */
  predicate HeaderFits(b: seq<byte>) {
    |b| >= 12 && b[0] / 64 == 2 && |b| >= CsrcEnd(b) &&
    (HasExtension(b) ==>
      |b| >= CsrcEnd(b) + 4 && ExtensionLength(b, CsrcEnd(b)) > 0 &&
      |b| >= CsrcEnd(b) + ExtensionLength(b, CsrcEnd(b)))
  }

  /** The final header length: past the CSRC list and, if present, the extension. */
  function HeaderEnd(b: seq<byte>): (end: nat)
    requires HeaderFits(b)
    ensures 12 <= end <= |b|
  {
    if HasExtension(b) then CsrcEnd(b) + ExtensionLength(b, CsrcEnd(b)) else CsrcEnd(b)
  }

  /** The CSRC list as reported: its Base64 text, when the count is non-zero. */
  function CsrcPayloadOf(b: seq<byte>): Option<string>
    requires |b| >= 12 && |b| >= CsrcEnd(b)
  {
    if b[0] % 16 > 0 then Some(Base64(b[12..CsrcEnd(b)])) else None
  }

  /** The extension as reported: id, length, and the Base64 text of the bytes from the
      id/length word up to the length. */
  function ExtensionOf(b: seq<byte>): Option<ExtensionHeader>
    requires HeaderFits(b)
  {
    if HasExtension(b) then
      var at := CsrcEnd(b);
      Some(ExtensionHeader(Uint16At(b, at), ExtensionLength(b, at), Base64(b[at..HeaderEnd(b)])))
    else None
  }

  /** The `rtp` object for an accepted buffer. */
  function HeaderOf(b: seq<byte>): (h: RtpHeader)
    requires HeaderFits(b) && |b| > HeaderEnd(b)
  {
    var end := HeaderEnd(b);
    RtpHeader(
      end, "base64", b[0] / 64, b[0] % 64 / 32, b[0] % 32 / 16, b[0] % 16, b[1] / 128, b[1] % 128 / 2,
      Uint16At(b, 2), Uint32At(b, 4), Uint32At(b, 8),
      CsrcPayloadOf(b), ExtensionOf(b), Base64(b[end..]), |b| - end)
  }

  /** The header and the voice bytes after it, when the buffer holds a header and at least
      one byte past it. */
  function Extract(b: seq<byte>): (r: Option<(RtpHeader, seq<byte>)>)
    ensures r.Some? ==> r.value.1 != [] && |r.value.1| <= |b| - 12 && r.value.1 == b[|b| - |r.value.1|..]
  {
    if HeaderFits(b) && |b| > HeaderEnd(b) then Some((HeaderOf(b), b[HeaderEnd(b)..])) else None
  }

  /** The whole step on one record. */
  function RtpStep(enable: bool, data: Data): (out: Outcome)
    ensures !enable ==> out == Done(data, None)
    ensures out.Done? ==> out.data - {"rtp"} == data - {"rtp"}
    ensures out.Done? && out.rtpPayload.Some? ==> out.rtpPayload.value != [] && "rtp" in out.data
  {
    if !Attempted(enable, data) then Done(data, None)
    else
      match ConversionOf(data)
      case Throws => Threw
      case NoBuffer => Done(data, None)
      case Bytes(b) =>
        match Extract(b)
        case None => Done(data, None)
        case Some((h, p)) => Done(data["rtp" := Rtp(h)], Some(p))
  }

  /** The extractor as the code runs it: a validity flag and a running header length,
      checked against the buffer at every step. */
  method ExtractHeader(b: seq<byte>) returns (r: Option<(RtpHeader, seq<byte>)>)
    ensures r == Extract(b)
  {
    var valid, version, padding, x, cc, marker, pt, sq, ts, ssrc := FixedStep(b);
    var hl, csrcPayload;
    valid, hl, csrcPayload := CsrcStep(b, valid, cc);
    var extension;
    valid, hl, extension := ExtensionStep(b, valid, hl, x);
    r := None;
    if valid && |b| > hl {
      var p := b[hl..];
      r := Some((RtpHeader(hl, "base64", version, padding, x, cc, marker, pt, sq, ts, ssrc,
                           csrcPayload, extension, Base64(p), |p|), p));
    }
  }

  /** The basic header: at least 12 bytes and version 2. On failure the fields stay
      undefined, which the later steps see as a count of 0 and no extension. */
  method FixedStep(b: seq<byte>) returns (valid: bool, version: nat, padding: nat, x: nat, cc: nat,
                                          marker: nat, pt: nat, sq: nat, ts: nat, ssrc: nat)
    ensures valid <==> |b| >= 12 && b[0] / 64 == 2
    ensures valid ==> version == b[0] / 64 && padding == b[0] % 64 / 32 && x == b[0] % 32 / 16
    ensures valid ==> cc == b[0] % 16 && marker == b[1] / 128 && pt == b[1] % 128 / 2
    ensures valid ==> sq == Uint16At(b, 2) && ts == Uint32At(b, 4) && ssrc == Uint32At(b, 8)
    ensures !valid ==> x == 0 && cc == 0
  {
    valid := true;
    version, padding, x, cc, marker, pt, sq, ts, ssrc := 0, 0, 0, 0, 0, 0, 0, 0, 0;
    if |b| >= 12 {
      version := b[0] / 64;
      if version == 2 {
        padding, x, cc := b[0] % 64 / 32, b[0] % 32 / 16, b[0] % 16;
        marker, pt := b[1] / 128, b[1] % 128 / 2;
        sq, ts, ssrc := Uint16At(b, 2), Uint32At(b, 4), Uint32At(b, 8);
      } else {
        valid := false;
      }
    } else {
      valid := false;
    }
  }

  /** The CSRC step: a non-zero count needs its list to fit, and moves the header length
      past it. */
  method CsrcStep(b: seq<byte>, valid0: bool, cc: nat) returns (valid: bool, hl: nat, csrcPayload: Option<string>)
    requires valid0 ==> |b| >= 12 && cc == b[0] % 16
    requires !valid0 ==> cc == 0
    ensures valid <==> valid0 && |b| >= CsrcEnd(b)
    ensures valid ==> hl == CsrcEnd(b) && csrcPayload == CsrcPayloadOf(b)
  {
    valid, hl, csrcPayload := valid0, 12, None;
    if cc > 0 {
      if valid && |b| >= hl + 4 * cc {
        csrcPayload := Some(Base64(b[hl..hl + 4 * cc]));
        hl := hl + 4 * cc;
      } else {
        valid := false;
      }
    }
  }

  /** The extension step: the id/length word must fit, then a non-zero length must fit
      from the current header length, which then moves past it. */
  method ExtensionStep(b: seq<byte>, valid0: bool, hl0: nat, x: nat) returns (valid: bool, hl: nat, extension: Option<ExtensionHeader>)
    requires valid0 ==> |b| >= 12 && b[0] / 64 == 2 && |b| >= CsrcEnd(b) && hl0 == CsrcEnd(b) && x == b[0] % 32 / 16
    ensures valid <==> valid0 && HeaderFits(b)
    ensures valid ==> hl == HeaderEnd(b) && extension == ExtensionOf(b)
  {
    valid, hl, extension := valid0, hl0, None;
    if x == 1 {
      var id, len := 0, 0;
      if valid && |b| >= hl + 4 {
        id, len := Uint16At(b, hl), Uint16At(b, hl + 2);
      } else {
        valid := false;
      }
      if valid && len > 0 && |b| >= hl + len {
        extension := Some(ExtensionHeader(id, len, Base64(b[hl..hl + len])));
        hl := hl + len;
      } else {
        valid := false;
      }
    }
  }

  /** The whole step as the code runs it on one record. */
  method ParseRtp(enable: bool, data: Data) returns (outcome: Outcome)
    ensures outcome == RtpStep(enable, data)
  {
    if !Attempted(enable, data) {
      return Done(data, None);
    }
    var buffer: Option<seq<byte>> := None;
    var enc := Member(data, "payload", "encoding_type");
    if enc == Some(Str("base64")) {
      match Member(data, "payload", "payload")
      case Some(Str(t)) =>
        buffer := Some(Base64Decode(t));
      case _ =>
        return Threw;
    } else if enc == Some(Str("hex")) {
      return Threw;
    }
    if buffer.None? {
      return Done(data, None);
    }
    var r := ExtractHeader(buffer.value);
    if r.Some? {
      outcome := Done(data["rtp" := Rtp(r.value.0)], Some(r.value.1));
    } else {
      outcome := Done(data, None);
    }
  }

  /** An accepted header: version 2, a header length of 12 plus the CSRC list plus the
      extension length, at least one voice byte after it, and the voice bytes are exactly
      the buffer past the header length. */
  lemma ExtractedLayout(b: seq<byte>)
    requires Extract(b).Some?
    ensures var (h, p) := Extract(b).value;
      h.version == 2 && 12 <= h.headerLength < |b| &&
      h.headerLength == 12 + 4 * h.csrcCount + (if h.extensionHeader.Some? then h.extensionHeader.value.length else 0) &&
      (h.extensionHeader.Some? ==> h.extensionHeader.value.length > 0) &&
      p == b[h.headerLength..] && h.payloadLength == |p| > 0 && h.payload == Base64(p) &&
      h.sequenceNumber == Uint16At(b, 2) && h.timestamp == Uint32At(b, 4) && h.ssrc == Uint32At(b, 8) &&
      h.payloadEncodingType == "base64"
  {
  }

  /** The header is attached exactly when voice bytes are passed on; otherwise the record
      goes on unchanged. */
  lemma AttachedWithVoice(enable: bool, data: Data)
    requires RtpStep(enable, data).Done?
    ensures var out := RtpStep(enable, data);
      (out.rtpPayload.Some? ==> exists h :: out.data == data["rtp" := Rtp(h)] && h.payload == Base64(out.rtpPayload.value)) &&
      (out.rtpPayload.None? ==> out.data == data)
  {
    var out := RtpStep(enable, data);
    if out.rtpPayload.Some? {
      var b := ConversionOf(data).b;
      ExtractedLayout(b);
      var h := Extract(b).value.0;
      assert out.data == data["rtp" := Rtp(h)];
    }
  }

  /** A "hex" payload makes the step throw, whatever the payload text. */
  lemma HexThrows(data: Data)
    requires Attempted(true, data) && Member(data, "payload", "encoding_type") == Some(Str("hex"))
    ensures RtpStep(true, data) == Threw
  {
  }

  /** An encoding other than "base64" or "hex" leaves no buffer: the record goes on without
      a header and nothing is passed to speech recognition. */
  lemma UnknownEncodingSkipped(enable: bool, data: Data)
    requires Member(data, "payload", "encoding_type") !in {Some(Str("base64")), Some(Str("hex"))}
    ensures RtpStep(enable, data) == Done(data, None)
  {
  }

  /** With parsing disabled the record is passed on untouched. */
  lemma DisabledSkipped(data: Data)
    ensures RtpStep(false, data) == Done(data, None)
  {
  }

  /** An extension whose length word is 0 is rejected. */
  lemma ZeroExtensionRejected(b: seq<byte>)
    requires |b| >= 12 && HasExtension(b) && |b| >= CsrcEnd(b) + 4 && ExtensionLength(b, CsrcEnd(b)) == 0
    ensures Extract(b) == None
  {
  }

  /** A buffer that ends exactly at the header length carries no voice and is rejected. */
  lemma NoVoiceRejected(b: seq<byte>)
    requires HeaderFits(b) && |b| == HeaderEnd(b)
    ensures Extract(b) == None
  {
  }

  // The packets the extractor reads, written out byte by byte.

  /** A header extension: its id, the value of its length word, and the bytes after the
      id/length word. */
  datatype Extension = Extension(id: nat, lengthWord: nat, body: seq<byte>)

  /** An RTP packet: fixed-header fields (with the RFC's 7-bit payload type), the CSRC list
      as bytes, an optional extension, and the voice bytes. */
  datatype RtpPacket = RtpPacket(
    padding: nat, marker: nat, payloadType: nat,
    sequenceNumber: nat, timestamp: nat, ssrc: nat,
    csrcs: seq<byte>, extension: Option<Extension>, voice: seq<byte>)

  predicate ValidPacket(p: RtpPacket) {
    p.padding < 2 && p.marker < 2 && p.payloadType < 128 &&
    p.sequenceNumber < 0x1_0000 && p.timestamp < 0x1_0000_0000 && p.ssrc < 0x1_0000_0000 &&
    |p.csrcs| % 4 == 0 && |p.csrcs| < 64 &&
    (p.extension.Some? ==> p.extension.value.id < 0x1_0000 && p.extension.value.lengthWord < 0x1_0000) &&
    |p.voice| > 0
  }

  function FirstByte(p: RtpPacket): byte
    requires ValidPacket(p)
  {
    128 + 32 * p.padding + (if p.extension.Some? then 16 else 0) + |p.csrcs| / 4
  }

  /** The twelve bytes of the fixed header (section 5.1 of RFC 3550). */
  function FixedBytes(p: RtpPacket): (r: seq<byte>)
    requires ValidPacket(p)
    ensures |r| == 12
  {
    [FirstByte(p), 128 * p.marker + p.payloadType] + BigEndian16(p.sequenceNumber) +
    BigEndian32(p.timestamp) + BigEndian32(p.ssrc)
  }

  function ExtensionBytes(p: RtpPacket): seq<byte>
    requires ValidPacket(p)
  {
    match p.extension
    case None => []
    case Some(e) => BigEndian16(e.id) + BigEndian16(e.lengthWord) + e.body
  }

  function Serialize(p: RtpPacket): seq<byte>
    requires ValidPacket(p)
  {
    FixedBytes(p) + p.csrcs + ExtensionBytes(p) + p.voice
  }

  /** An extension length word the extractor can use: non-zero, and ending within the
      extension's own bytes. */
  predicate InnerLength(p: RtpPacket) {
    p.extension.Some? ==> 0 < p.extension.value.lengthWord <= 4 + |p.extension.value.body|
  }

  /** The header length the extractor arrives at, and the voice bytes it reports. */
  function ReportedEnd(p: RtpPacket): nat {
    12 + |p.csrcs| + (if p.extension.Some? then p.extension.value.lengthWord else 0)
  }

  function ReportedVoice(p: RtpPacket): seq<byte>
    requires ValidPacket(p) && InnerLength(p)
  {
    (if p.extension.Some? then ExtensionBytes(p)[p.extension.value.lengthWord..] else []) + p.voice
  }

  lemma Div32(q: int, r: int)
    requires 0 <= r < 32
    ensures (q * 32 + r) / 32 == q && (q * 32 + r) % 32 == r
  {
  }

  lemma Div128(q: int, r: int)
    requires 0 <= r < 128
    ensures (q * 128 + r) / 128 == q && (q * 128 + r) % 128 == r
  {
  }

  /** The first two bytes give back version 2, the padding and extension bits, the CSRC
      count, the marker, and half the payload type. */
  lemma LeadingBytes(p: RtpPacket)
    requires ValidPacket(p)
    ensures var b0, b1 := FirstByte(p), 128 * p.marker + p.payloadType;
      b0 / 64 == 2 && b0 % 64 / 32 == p.padding && (b0 % 32 / 16 == 1 <==> p.extension.Some?) &&
      b0 % 32 / 16 == (if p.extension.Some? then 1 else 0) && b0 % 16 == |p.csrcs| / 4 &&
      b1 / 128 == p.marker && b1 % 128 / 2 == p.payloadType / 2
  {
    var x := if p.extension.Some? then 1 else 0;
    var cc := |p.csrcs| / 4;
    var b0 := FirstByte(p);
    Encoding.Div64(2, 32 * p.padding + 16 * x + cc);
    assert b0 == 2 * 64 + (32 * p.padding + 16 * x + cc);
    Div32(4 + p.padding, 16 * x + cc);
    assert b0 == (4 + p.padding) * 32 + (16 * x + cc);
    Encoding.Div16(x, cc);
    Encoding.Div16(8 + 2 * p.padding + x, cc);
    assert b0 % 64 == p.padding * 32 + (16 * x + cc);
    Div32(p.padding, 16 * x + cc);
    Div128(p.marker, p.payloadType);
  }

  /** The fixed header's 16- and 32-bit fields read back. */
  lemma FixedFieldsRead(p: RtpPacket)
    requires ValidPacket(p)
    ensures var b := Serialize(p);
      Uint16At(b, 2) == p.sequenceNumber && Uint32At(b, 4) == p.timestamp && Uint32At(b, 8) == p.ssrc
  {
    var lead := [FirstByte(p), 128 * p.marker + p.payloadType];
    var s, t, c := BigEndian16(p.sequenceNumber), BigEndian32(p.timestamp), BigEndian32(p.ssrc);
    var rest := p.csrcs + ExtensionBytes(p) + p.voice;
    var b := Serialize(p);
    assert b == lead + s + (t + c + rest);
    Uint16RoundTrip(lead, p.sequenceNumber, t + c + rest);
    assert b == (lead + s) + t + (c + rest);
    Uint32RoundTrip(lead + s, p.timestamp, c + rest);
    assert b == (lead + s + t) + c + rest;
    Uint32RoundTrip(lead + s + t, p.ssrc, rest);
  }

  /** Where the pieces of a serialized packet sit. */
  lemma SerializedPieces(p: RtpPacket)
    requires ValidPacket(p)
    ensures var b := Serialize(p);
      b[0] == FirstByte(p) && b[1] == 128 * p.marker + p.payloadType &&
      b[12..12 + |p.csrcs|] == p.csrcs &&
      b[12 + |p.csrcs|..] == ExtensionBytes(p) + p.voice
  {
    var b, fixed, tail := Serialize(p), FixedBytes(p), ExtensionBytes(p) + p.voice;
    assert b == fixed + (p.csrcs + tail);
    assert b[0] == fixed[0] && b[1] == fixed[1];
    assert b[12..] == p.csrcs + tail;
    assert b[12..12 + |p.csrcs|] == (p.csrcs + tail)[..|p.csrcs|];
    assert b[12 + |p.csrcs|..] == (p.csrcs + tail)[|p.csrcs|..];
  }

  /** The extension's id and length word read back from where the CSRC list ends. */
  lemma ExtensionWordsRead(p: RtpPacket)
    requires ValidPacket(p) && p.extension.Some?
    ensures var b, at := Serialize(p), 12 + |p.csrcs|;
      at + 3 < |b| && Uint16At(b, at) == p.extension.value.id && Uint16At(b, at + 2) == p.extension.value.lengthWord
  {
    var e := p.extension.value;
    var pre := FixedBytes(p) + p.csrcs;
    ExtensionLayout(p);
    Uint16RoundTrip(pre, e.id, BigEndian16(e.lengthWord) + e.body + p.voice);
    Uint16RoundTrip(pre + BigEndian16(e.id), e.lengthWord, e.body + p.voice);
  }

  /** The serialized packet cut at the extension's two words, both ways the readers need. */
  lemma ExtensionLayout(p: RtpPacket)
    requires ValidPacket(p) && p.extension.Some?
    ensures var e, pre := p.extension.value, FixedBytes(p) + p.csrcs;
      |pre| == 12 + |p.csrcs| &&
      Serialize(p) == pre + BigEndian16(e.id) + (BigEndian16(e.lengthWord) + e.body + p.voice) &&
      Serialize(p) == (pre + BigEndian16(e.id)) + BigEndian16(e.lengthWord) + (e.body + p.voice)
  {
  }

  /** A serialized packet whose extension length ends within the extension is accepted;
      its header ends `lengthWord` bytes after the CSRC list, and everything after that
      point is voice. */
  lemma SerializedAccepted(p: RtpPacket)
    requires ValidPacket(p) && InnerLength(p)
    ensures var b := Serialize(p);
      HeaderFits(b) && HeaderEnd(b) == ReportedEnd(p) && |b| > HeaderEnd(b) &&
      b[HeaderEnd(b)..] == ReportedVoice(p)
  {
    var b := Serialize(p);
    LeadingBytes(p);
    SerializedPieces(p);
    assert CsrcEnd(b) == 12 + |p.csrcs|;
    if p.extension.Some? {
      ExtensionWordsRead(p);
    }
    var tail := b[12 + |p.csrcs|..];
    if p.extension.Some? {
      var w := p.extension.value.lengthWord;
      assert b[ReportedEnd(p)..] == tail[w..];
      assert tail[w..] == ExtensionBytes(p)[w..] + p.voice;
    }
  }

  /** Extracting such a packet: the fields of the fixed header come back, except the
      payload type, which is reported halved. */
  lemma ExtractSerialized(p: RtpPacket)
    requires ValidPacket(p) && InnerLength(p)
    ensures Reads(Serialize(p), p)
  {
    var b := Serialize(p);
    SerializedAccepted(p);
    LeadingBytes(p);
    SerializedPieces(p);
    FixedFieldsRead(p);
    if p.extension.Some? {
      ExtensionWordsRead(p);
    }
    ExtractFrom(b, p);
  }

  /** What extracting `b` reports about the packet `p`. */
  predicate Reads(b: seq<byte>, p: RtpPacket)
    requires ValidPacket(p) && InnerLength(p)
  {
    Extract(b).Some? &&
    var (h, v) := Extract(b).value;
    h.headerLength == ReportedEnd(p) && v == ReportedVoice(p) &&
    h.padding == p.padding && h.marker == p.marker && h.payloadType == p.payloadType / 2 &&
    h.csrcCount == |p.csrcs| / 4 && h.sequenceNumber == p.sequenceNumber &&
    h.timestamp == p.timestamp && h.ssrc == p.ssrc &&
    h.csrcPayload == (if p.csrcs == [] then None else Some(Base64(p.csrcs))) &&
    (h.extensionHeader.Some? <==> p.extension.Some?) &&
    (p.extension.Some? ==> h.extensionHeader.value.id == p.extension.value.id &&
                           h.extensionHeader.value.length == p.extension.value.lengthWord)
  }

  /** Any buffer laid out like the packet reads back as it. */
  lemma ExtractFrom(b: seq<byte>, p: RtpPacket)
    requires ValidPacket(p) && InnerLength(p)
    requires HeaderFits(b) && HeaderEnd(b) == ReportedEnd(p) && |b| > HeaderEnd(b)
    requires b[HeaderEnd(b)..] == ReportedVoice(p)
    requires b[0] == FirstByte(p) && b[1] == 128 * p.marker + p.payloadType
    requires FirstByte(p) % 64 / 32 == p.padding && FirstByte(p) % 32 / 16 == (if p.extension.Some? then 1 else 0)
    requires FirstByte(p) % 16 == |p.csrcs| / 4
    requires (128 * p.marker + p.payloadType) / 128 == p.marker
    requires (128 * p.marker + p.payloadType) % 128 / 2 == p.payloadType / 2
    requires b[12..12 + |p.csrcs|] == p.csrcs
    requires Uint16At(b, 2) == p.sequenceNumber && Uint32At(b, 4) == p.timestamp && Uint32At(b, 8) == p.ssrc
    requires p.extension.Some? ==> Uint16At(b, 12 + |p.csrcs|) == p.extension.value.id
    ensures Reads(b, p)
  {
    assert CsrcEnd(b) == 12 + |p.csrcs|;
  }

  /** Under the code's convention, where the length word counts the extension's bytes
      from its id/length word, the voice bytes come back exactly. */
  lemma CodeLayoutRoundTrip(p: RtpPacket)
    requires ValidPacket(p)
    requires p.extension.Some? ==> p.extension.value.lengthWord == 4 + |p.extension.value.body|
    ensures Extract(Serialize(p)).Some? && Extract(Serialize(p)).value.1 == p.voice
  {
    ExtractSerialized(p);
    if p.extension.Some? {
      assert |ExtensionBytes(p)| == p.extension.value.lengthWord;
    }
  }

  /** Under the convention of section 5.3.1 of RFC 3550, where the length word counts the
      32-bit words after it, an extension of at least one word is misread: the reported
      voice bytes start inside the extension and are longer than the real voice. */
  lemma RfcLayoutMisread(p: RtpPacket)
    requires ValidPacket(p) && p.extension.Some?
    requires var e := p.extension.value; e.lengthWord > 0 && |e.body| == 4 * e.lengthWord
    ensures Extract(Serialize(p)).Some?
    ensures var v := Extract(Serialize(p)).value.1;
      |v| == |p.voice| + 4 + 3 * p.extension.value.lengthWord && v != p.voice
  {
    ExtractSerialized(p);
  }
}
