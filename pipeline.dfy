/** The packet record across the whole system: the capture side writes a datagram as the
    thirteen name/value pairs of an XADD (Capture/main.cpp), the server side decodes those
    pairs back into a record (StreamServer/api/stream-manager.js), and the RTP step finds in
    that record the very bytes the capture side saw on the wire. */
module Pipeline {
  import opened Wrappers
  import opened Text
  import opened Encoding
  import opened Message
  import opened PacketDecoder
  import opened Rtp
  import opened CaptureParser
  import opened CaptureMain
  import opened Gateway

  /** The sub-record the i-th XADD field belongs to. */
  function SubOf(i: nat): string {
    if i < 3 then "layer_2" else if i < 6 then "layer_3" else if i < 9 then "layer_4" else "payload"
  }

  /** The i-th XADD field name without its sub-record prefix. */
  function Suffix(i: nat): string
    requires i < 13
  {
    ["type", "src_addr", "dst_addr", "type", "src_addr", "dst_addr", "type", "src_port", "dst_port",
     "type", "size", "encoding_type", "payload"][i]
  }

  lemma FieldNameParts(i: nat)
    requires i < 13
    ensures FieldNames()[i] == SubOf(i) + "_" + Suffix(i)
  {
    if i < 3 {
      Layer2Parts(i);
    } else if i < 6 {
      Layer3Parts(i);
    } else if i < 9 {
      Layer4Parts(i);
    } else {
      PayloadParts(i);
    }
  }

  lemma Layer2Parts(i: nat)
    requires 0 <= i < 3
    ensures FieldNames()[i] == SubOf(i) + "_" + Suffix(i)
  {
  }

  lemma Layer3Parts(i: nat)
    requires 3 <= i < 6
    ensures FieldNames()[i] == SubOf(i) + "_" + Suffix(i)
  {
  }

  lemma Layer4Parts(i: nat)
    requires 6 <= i < 9
    ensures FieldNames()[i] == SubOf(i) + "_" + Suffix(i)
  {
  }

  lemma PayloadParts(i: nat)
    requires 9 <= i < 13
    ensures FieldNames()[i] == SubOf(i) + "_" + Suffix(i)
  {
  }

  /** Exactly the sizes and ports among the thirteen names are numeric. */
  lemma SuffixNumeric(i: nat)
    requires i < 13
    ensures EndsWith(Suffix(i), "size") || EndsWith(Suffix(i), "port") <==> i == 7 || i == 8 || i == 10
  {
    if i < 7 {
    } else if i < 11 {
    } else {
    }
  }

  /** A name made of a sub-record's name, an underscore and a rest belongs to that
      sub-record. */
  lemma SubRecordOfPrefixed(sub: string, rest: string)
    requires sub in {"layer_2", "layer_3", "layer_4", "payload"}
    ensures SubRecordOf(sub + "_" + rest) == Some(sub)
  {
    var name := sub + "_" + rest;
    assert name[..8] == sub + "_";
    if sub == "layer_3" {
      assert name[6] == '3';
    } else if sub == "layer_4" {
      assert name[6] == '4';
    } else if sub == "payload" {
      assert name[0] == 'p';
    }
  }

  /** Whether a prefixed name ends in "size" or "port" depends on its rest alone. */
  lemma ConvertBySuffix(sub: string, rest: string, text: string)
    requires |rest| >= 4
    ensures Convert(sub + "_" + rest, text) ==
      if EndsWith(rest, "size") || EndsWith(rest, "port") then Num(ToNumber(text)) else Str(text)
  {
    var name := sub + "_" + rest;
    assert name[|name| - 4..] == rest[|rest| - 4..];
  }

  lemma FieldNamesDistinct(i: nat, j: nat)
    requires i < j < 13
    ensures FieldNames()[i] != FieldNames()[j]
  {
  }

  /** Every field the capture side writes lands in its sub-record, under its name without
      the prefix, converted as its name says. */
  lemma XaddFieldPlaced(d: Datagram, i: nat)
    requires i < 13
    ensures Member(Decoded(XaddFields(d)), SubOf(i), Suffix(i)) == Some(Convert(FieldNames()[i], Fields(d)[i]))
  {
    var fs := XaddFields(d);
    FieldNameParts(i);
    SubRecordOfPrefixed(SubOf(i), Suffix(i));
    forall j | 0 <= j < 13 ensures fs[2 * j] != SubOf(i) {
      FieldNameParts(j);
      assert |fs[2 * j]| > |SubOf(i)|;
    }
    forall j | i < j < 13 ensures fs[2 * j] != fs[2 * i] {
      FieldNamesDistinct(i, j);
    }
    DecodedInSubRecord(fs, 13, i, SubOf(i));
    assert FieldNames()[i][|SubOf(i)| + 1..] == Suffix(i);
  }

  /** A field of the XADD, decoded: the text as written, or its number for the sizes and
      ports. */
  lemma XaddFieldValue(d: Datagram, i: nat)
    requires i < 13
    ensures Member(Decoded(XaddFields(d)), SubOf(i), Suffix(i)) ==
      Some(if i == 7 || i == 8 || i == 10 then Num(ToNumber(Fields(d)[i])) else Str(Fields(d)[i]))
  {
    XaddFieldPlaced(d, i);
    FieldNameParts(i);
    SuffixNumeric(i);
    ConvertBySuffix(SubOf(i), Suffix(i), Fields(d)[i]);
  }

  /** The decoded payload sub-record of a captured datagram: type, encoding and text as
      written, size as a number. */
  lemma PayloadDecoded(d: Datagram)
    ensures var data := Decoded(XaddFields(d));
      Member(data, "payload", "type") == Some(Str(d.payloadType)) &&
      Member(data, "payload", "size") == Some(Num(ToNumber(d.payloadSize))) &&
      Member(data, "payload", "encoding_type") == Some(Str(d.payloadEncodingType)) &&
      Member(data, "payload", "payload") == Some(Str(d.payload)) &&
      TruthyField(Lookup(data, "payload"))
  {
    XaddFieldValue(d, 9);
    XaddFieldValue(d, 10);
    XaddFieldValue(d, 11);
    XaddFieldValue(d, 12);
  }

  /** The decoded layer-3 addresses of a captured datagram, as written. */
  lemma AddressesDecoded(d: Datagram)
    ensures var data := Decoded(XaddFields(d));
      Member(data, "layer_3", "src_addr") == Some(Str(d.layer3SrcAddr)) &&
      Member(data, "layer_3", "dst_addr") == Some(Str(d.layer3DstAddr))
  {
    assert SubOf(4) == SubOf(5) == "layer_3";
    assert Suffix(4) == "src_addr" && Suffix(5) == "dst_addr";
    XaddFieldValue(d, 4);
    XaddFieldValue(d, 5);
  }

  /** A UDP packet captured with Base64 payloads: once its entry is decoded, the RTP step
      works on exactly the packet's UDP payload bytes. */
  lemma CapturedUdpReachesRtp(cfg: Config, pkt: Packet, bytes: seq<byte>)
    requires cfg.payloadConvertMethod != "hex"
    requires PortRaw(pkt.tcp).None? && pkt.udp.Some? && pkt.udp.value.raw == Some(bytes) && |bytes| > 0
    ensures var data := Decoded(XaddFields(DatagramOf(cfg, pkt)));
      RtpStep(true, data) == match Extract(bytes)
        case None => Done(data, None)
        case Some((h, v)) => Done(data["rtp" := Rtp(h)], Some(v))
  {
    var d := DatagramOf(cfg, pkt);
    UdpDatagram(cfg, pkt, bytes);
    PayloadDecoded(d);
    ToNumberDecimal(|bytes|);
    Base64RoundTrip(bytes);
    var data := Decoded(XaddFields(d));
    assert Attempted(true, data);
    assert ConversionOf(data) == Bytes(bytes);
  }

  /** End to end: an RTP packet laid out as the extractor expects, captured in a UDP
      datagram, reaches the gateway's speech session as its voice bytes when the connection
      asks for `rtp` and realtime text. */
  lemma CapturedVoiceReachesSpeech(cfg: Config, pkt: Packet, p: RtpPacket, q: Query)
    requires cfg.payloadConvertMethod != "hex"
    requires ValidPacket(p)
    requires PortRaw(pkt.tcp).None? && pkt.udp.Some? && pkt.udp.value.raw == Some(Serialize(p))
    requires p.extension.Some? ==> p.extension.value.lengthWord == 4 + |p.extension.value.body|
    requires Includes(q.parse, RtpFlag) && Includes(q.parse, RealtimeTextFlag)
    ensures RtpStep(true, Decoded(XaddFields(DatagramOf(cfg, pkt)))).Done?
    ensures RtpStep(true, Decoded(XaddFields(DatagramOf(cfg, pkt)))).rtpPayload == Some(p.voice)
    ensures VoiceFor(q, XaddFields(DatagramOf(cfg, pkt))) == Some(p.voice)
  {
    CodeLayoutRoundTrip(p);
    CapturedUdpReachesRtp(cfg, pkt, Serialize(p));
  }
}
