/** The capture side's packet parser (Capture/parser/parser.hpp, Capture/parser/parser.cpp):
    the configuration and datagram records, the names of packet-layer types, and `parse`,
    which turns one captured packet into one datagram of thirteen text fields and queues it.

    The captured packet is a record of optional layers, one per layer type the parser looks
    for; each layer carries the fields the parser reads and the raw payload found beneath it,
    if any. */
module CaptureParser {
  import opened Wrappers
  import opened Text
  import opened Encoding

  /** `config_t`: how payload bytes are turned into text. */
  datatype Config = Config(payloadConvertMethod: string)

  /** The configuration a default-constructed `config_t` holds. */
  function DefaultConfig(): (c: Config)
    ensures c.payloadConvertMethod == "base64"
  {
    Config("base64")
  }

  /** `datagram_t`: what one captured packet becomes. */
  datatype Datagram = Datagram(
    layer2Type: string, layer2SrcAddr: string, layer2DstAddr: string,
    layer3Type: string, layer3SrcAddr: string, layer3DstAddr: string,
    layer4Type: string, layer4SrcPort: string, layer4DstPort: string,
    payloadType: string, payloadSize: string, payloadEncodingType: string, payload: string)

  /** The fields of a datagram in declaration order. */
  function Fields(d: Datagram): (fs: seq<string>)
    ensures |fs| == 13
  {
    [d.layer2Type, d.layer2SrcAddr, d.layer2DstAddr,
     d.layer3Type, d.layer3SrcAddr, d.layer3DstAddr,
     d.layer4Type, d.layer4SrcPort, d.layer4DstPort,
     d.payloadType, d.payloadSize, d.payloadEncodingType, d.payload]
  }

  /** A default-constructed `datagram_t`. */
  function EmptyDatagram(): (d: Datagram)
    ensures forall i | 0 <= i < 13 :: Fields(d)[i] == ""
  {
    Datagram("", "", "", "", "", "", "", "", "", "", "", "", "")
  }

  /** The layer types `pdutype_to_string` names. */
  datatype PduKind =
      RAW
    | ETHERNET_II
    | IEEE802_3
    | RADIOTAP
    | DOT11
    | DOT11_ACK
    | DOT11_ASSOC_REQ
    | DOT11_ASSOC_RESP
    | DOT11_AUTH
    | DOT11_BEACON
    | DOT11_BLOCK_ACK
    | DOT11_BLOCK_ACK_REQ
    | DOT11_CF_END
    | DOT11_DATA
    | DOT11_CONTROL
    | DOT11_DEAUTH
    | DOT11_DIASSOC
    | DOT11_END_CF_ACK
    | DOT11_MANAGEMENT
    | DOT11_PROBE_REQ
    | DOT11_PROBE_RESP
    | DOT11_PS_POLL
    | DOT11_REASSOC_REQ
    | DOT11_REASSOC_RESP
    | DOT11_RTS
    | DOT11_QOS_DATA
    | LLC
    | SNAP
    | IP
    | ARP
    | TCP
    | UDP
    | ICMP
    | BOOTP
    | DHCP
    | EAPOL
    | RC4EAPOL
    | RSNEAPOL
    | DNS
    | LOOPBACK
    | IPv6
    | ICMPv6
    | SLL
    | DHCPv6
    | DOT1Q
    | PPPOE
    | STP
    | PPI
    | IPSEC_AH
    | IPSEC_ESP
    | PKTAP
    | MPLS
    | UNKNOWN
    | USER_DEFINED_PDU

  /** A layer type: one of the named kinds, or an enumerator the switch does not list,
      known only by its numeric value. */
  datatype PduType = Listed(kind: PduKind) | Unlisted(code: nat)

  /** Every listed name starts with an upper-case letter. */
  function KindName(k: PduKind): (name: string)
    ensures name != [] && 'A' <= name[0] <= 'Z'
  {
    match k
    case RAW => "RAW"
    case ETHERNET_II => "ETHERNET_II"
    case IEEE802_3 => "IEEE802_3"
    case RADIOTAP => "RADIOTAP"
    case DOT11 => "DOT11"
    case DOT11_ACK => "DOT11_ACK"
    case DOT11_ASSOC_REQ => "DOT11_ASSOC_REQ"
    case DOT11_ASSOC_RESP => "DOT11_ASSOC_RESP"
    case DOT11_AUTH => "DOT11_AUTH"
    case DOT11_BEACON => "DOT11_BEACON"
    case DOT11_BLOCK_ACK => "DOT11_BLOCK_ACK"
    case DOT11_BLOCK_ACK_REQ => "DOT11_BLOCK_ACK_REQ"
    case DOT11_CF_END => "DOT11_CF_END"
    case DOT11_DATA => "DOT11_DATA"
    case DOT11_CONTROL => "DOT11_CONTROL"
    case DOT11_DEAUTH => "DOT11_DEAUTH"
    case DOT11_DIASSOC => "DOT11_DIASSOC"
    case DOT11_END_CF_ACK => "DOT11_END_CF_ACK"
    case DOT11_MANAGEMENT => "DOT11_MANAGEMENT"
    case DOT11_PROBE_REQ => "DOT11_PROBE_REQ"
    case DOT11_PROBE_RESP => "DOT11_PROBE_RESP"
    case DOT11_PS_POLL => "DOT11_PS_POLL"
    case DOT11_REASSOC_REQ => "DOT11_REASSOC_REQ"
    case DOT11_REASSOC_RESP => "DOT11_REASSOC_RESP"
    case DOT11_RTS => "DOT11_RTS"
    case DOT11_QOS_DATA => "DOT11_QOS_DATA"
    case LLC => "LLC"
    case SNAP => "SNAP"
    case IP => "IP"
    case ARP => "ARP"
    case TCP => "TCP"
    case UDP => "UDP"
    case ICMP => "ICMP"
    case BOOTP => "BOOTP"
    case DHCP => "DHCP"
    case EAPOL => "EAPOL"
    case RC4EAPOL => "RC4EAPOL"
    case RSNEAPOL => "RSNEAPOL"
    case DNS => "DNS"
    case LOOPBACK => "LOOPBACK"
    case IPv6 => "IPv6"
    case ICMPv6 => "ICMPv6"
    case SLL => "SLL"
    case DHCPv6 => "DHCPv6"
    case DOT1Q => "DOT1Q"
    case PPPOE => "PPPOE"
    case STP => "STP"
    case PPI => "PPI"
    case IPSEC_AH => "IPSEC_AH"
    case IPSEC_ESP => "IPSEC_ESP"
    case PKTAP => "PKTAP"
    case MPLS => "MPLS"
    case UNKNOWN => "UNKNOWN"
    case USER_DEFINED_PDU => "USER_DEFINED_PDU"
  }

  /** The names of the two layer types the lemmas below read the payload type from. */
  lemma UdpName() ensures KindName(UDP) == "UDP" {}
  lemma EthernetName() ensures KindName(ETHERNET_II) == "ETHERNET_II" {}

  /** `pdutype_to_string`. */
  function PduTypeName(p: PduType): (name: string)
    ensures name != []
    ensures p.Listed? <==> 'A' <= name[0] <= 'Z'
  {
    match p
    case Listed(k) => KindName(k)
    case Unlisted(n) => "unknown_type_" + Decimal(n)
  }

  /** A fallback name is never a listed name, and two fallback names are equal only for
      equal codes: `pdutype_to_string` tells every unlisted layer type apart from every
      other type. */
  lemma UnlistedNamesDistinct(n: nat, q: PduType)
    requires PduTypeName(Unlisted(n)) == PduTypeName(q)
    ensures q == Unlisted(n)
  {
    var s := PduTypeName(Unlisted(n));
    match q {
      case Listed(k) =>
      case Unlisted(m) =>
        assert s[13..] == Decimal(n);
        assert PduTypeName(q)[13..] == Decimal(m);
        DecimalInjective(n, m);
    }
  }

  /** A layer with ports (TCP, UDP). */
  datatype PortLayer = PortLayer(srcPort: nat, dstPort: nat, raw: Option<seq<byte>>)

  /** A layer the parser takes only its type and payload from (ICMP, ICMPv6, ARP). */
  datatype BareLayer = BareLayer(raw: Option<seq<byte>>)

  /** A layer with addresses, already rendered as text (IPv4, IPv6, Ethernet II). */
  datatype AddressLayer = AddressLayer(srcAddr: string, dstAddr: string, raw: Option<seq<byte>>)

  /** A captured packet: each layer type the parser looks for, if the packet has it,
      with the raw payload found beneath that layer. */
  datatype Packet = Packet(
    tcp: Option<PortLayer>, udp: Option<PortLayer>,
    icmp: Option<BareLayer>, icmpv6: Option<BareLayer>,
    ip: Option<AddressLayer>, ipv6: Option<AddressLayer>,
    arp: Option<BareLayer>, ethernet: Option<AddressLayer>)

  function PortRaw(l: Option<PortLayer>): Option<seq<byte>> {
    if l.Some? then l.value.raw else None
  }

  function BareRaw(l: Option<BareLayer>): Option<seq<byte>> {
    if l.Some? then l.value.raw else None
  }

  function AddressRaw(l: Option<AddressLayer>): Option<seq<byte>> {
    if l.Some? then l.value.raw else None
  }

  /** Where the payload fields come from: the first layer, in the order TCP, UDP, ICMP,
      ICMPv6, IPv4, IPv6, ARP, Ethernet II, that has a raw payload beneath it. The parser
      checks the transport layers first. */
  function PayloadSource(pkt: Packet): Option<(PduKind, seq<byte>)> {
    if TransportSource(pkt).Some? then TransportSource(pkt) else LowerSource(pkt)
  }

  function TransportSource(pkt: Packet): Option<(PduKind, seq<byte>)> {
    if PortRaw(pkt.tcp).Some? then Some((TCP, PortRaw(pkt.tcp).value))
    else if PortRaw(pkt.udp).Some? then Some((UDP, PortRaw(pkt.udp).value))
    else if BareRaw(pkt.icmp).Some? then Some((ICMP, BareRaw(pkt.icmp).value))
    else if BareRaw(pkt.icmpv6).Some? then Some((ICMPv6, BareRaw(pkt.icmpv6).value))
    else None
  }

  function LowerSource(pkt: Packet): Option<(PduKind, seq<byte>)> {
    if AddressRaw(pkt.ip).Some? then Some((IP, AddressRaw(pkt.ip).value))
    else if AddressRaw(pkt.ipv6).Some? then Some((IPv6, AddressRaw(pkt.ipv6).value))
    else if BareRaw(pkt.arp).Some? then Some((ARP, BareRaw(pkt.arp).value))
    else if AddressRaw(pkt.ethernet).Some? then Some((ETHERNET_II, AddressRaw(pkt.ethernet).value))
    else None
  }

  /** The four payload fields for a payload of the given layer: hex when so configured,
      Base64 for any other setting; an Ethernet II payload under hex gets its type and size
      only. */
  function PayloadFields(cfg: Config, kind: PduKind, bytes: seq<byte>): (fs: (string, string, string, string))
    ensures fs.0 == KindName(kind) && fs.1 == Decimal(|bytes|)
    ensures cfg.payloadConvertMethod != "hex" ==> fs.2 == "base64" && fs.3 == Base64(bytes)
    ensures cfg.payloadConvertMethod == "hex" && kind != ETHERNET_II ==> fs.2 == "hex" && fs.3 == Hex(bytes)
    ensures cfg.payloadConvertMethod == "hex" && kind == ETHERNET_II ==> fs.2 == "" && fs.3 == ""
  {
    if cfg.payloadConvertMethod == "hex" then
      if kind == ETHERNET_II then (KindName(kind), Decimal(|bytes|), "", "")
      else (KindName(kind), Decimal(|bytes|), "hex", Hex(bytes))
    else (KindName(kind), Decimal(|bytes|), "base64", Base64(bytes))
  }

  /** The order in which `parse` checks the layers for a payload. */
  function PayloadOrder(): (ks: seq<PduKind>)
    ensures |ks| == 8
  {
    [TCP, UDP, ICMP, ICMPv6, IP, IPv6, ARP, ETHERNET_II]
  }

  /** The raw payload beneath the i-th layer of that order, if the packet has both. */
  function RawAt(pkt: Packet, i: nat): Option<seq<byte>>
    requires i < 8
  {
    match i
    case 0 => PortRaw(pkt.tcp)
    case 1 => PortRaw(pkt.udp)
    case 2 => BareRaw(pkt.icmp)
    case 3 => BareRaw(pkt.icmpv6)
    case 4 => AddressRaw(pkt.ip)
    case 5 => AddressRaw(pkt.ipv6)
    case 6 => BareRaw(pkt.arp)
    case _ => AddressRaw(pkt.ethernet)
  }

  /** The first position, from `i` on, in check order whose layer has a payload. */
  function FirstRawFrom(pkt: Packet, i: nat): Option<nat>
    requires i <= 8
    decreases 8 - i
  {
    if i == 8 then None else if RawAt(pkt, i).Some? then Some(i) else FirstRawFrom(pkt, i + 1)
  }

  lemma {:induction false} FirstRawFromIsFirst(pkt: Packet, i: nat)
    requires i <= 8
    ensures FirstRawFrom(pkt, i).None? ==> forall j | i <= j < 8 :: RawAt(pkt, j).None?
    ensures FirstRawFrom(pkt, i).Some? ==>
      var k := FirstRawFrom(pkt, i).value;
      i <= k < 8 && RawAt(pkt, k).Some? && forall j | i <= j < k :: RawAt(pkt, j).None?
    decreases 8 - i
  {
    if i < 8 && RawAt(pkt, i).None? {
      FirstRawFromIsFirst(pkt, i + 1);
    }
  }

  /** The payload source is the first layer in check order with a payload beneath it. */
  lemma PayloadSourceIsFirstRaw(pkt: Packet)
    ensures PayloadSource(pkt) ==
      match FirstRawFrom(pkt, 0)
      case None => None
      case Some(k) => Some((PayloadOrder()[k], RawAt(pkt, k).value))
  {
    assert FirstRawFrom(pkt, 7) == (if RawAt(pkt, 7).Some? then Some(7) else None);
    assert FirstRawFrom(pkt, 6) == (if RawAt(pkt, 6).Some? then Some(6) else FirstRawFrom(pkt, 7));
    assert FirstRawFrom(pkt, 5) == (if RawAt(pkt, 5).Some? then Some(5) else FirstRawFrom(pkt, 6));
    assert FirstRawFrom(pkt, 4) == (if RawAt(pkt, 4).Some? then Some(4) else FirstRawFrom(pkt, 5));
    assert FirstRawFrom(pkt, 3) == (if RawAt(pkt, 3).Some? then Some(3) else FirstRawFrom(pkt, 4));
    assert FirstRawFrom(pkt, 2) == (if RawAt(pkt, 2).Some? then Some(2) else FirstRawFrom(pkt, 3));
    assert FirstRawFrom(pkt, 1) == (if RawAt(pkt, 1).Some? then Some(1) else FirstRawFrom(pkt, 2));
  }

  /** Hence the payload fields come from a layer that has a payload, no layer checked
      before it has one, and there is no source only when no layer has a payload. */
  lemma PayloadSourceIsFirst(pkt: Packet)
    ensures PayloadSource(pkt).None? <==> forall i | 0 <= i < 8 :: RawAt(pkt, i).None?
    ensures PayloadSource(pkt).Some? ==>
      exists i | 0 <= i < 8 ::
        PayloadSource(pkt).value.0 == PayloadOrder()[i] && RawAt(pkt, i) == Some(PayloadSource(pkt).value.1) &&
        forall j | 0 <= j < i :: RawAt(pkt, j).None?
  {
    PayloadSourceIsFirstRaw(pkt);
    FirstRawFromIsFirst(pkt, 0);
  }

  /** The payload fields a payload source gives, all empty when there is none. */
  function SourceFields(cfg: Config, src: Option<(PduKind, seq<byte>)>): (string, string, string, string) {
    match src
    case None => ("", "", "", "")
    case Some((kind, bytes)) => PayloadFields(cfg, kind, bytes)
  }

  /** The layer-4 type: the last of TCP, UDP, ICMP, ICMPv6 the packet has. */
  function Layer4Type(pkt: Packet): string {
    if pkt.icmpv6.Some? then KindName(ICMPv6) else if pkt.icmp.Some? then KindName(ICMP)
    else if pkt.udp.Some? then KindName(UDP) else if pkt.tcp.Some? then KindName(TCP) else ""
  }

  /** The ports: UDP's over TCP's; ICMP has none and leaves them alone. */
  function Ports(pkt: Packet): Option<PortLayer> {
    if pkt.udp.Some? then pkt.udp else pkt.tcp
  }

  /** The datagram `parse` builds, field by field: a layer checked later overwrites the
      type and addresses an earlier one set (IPv6 over IPv4, Ethernet II over ARP, ICMPv6
      over ICMP over UDP over TCP for the layer-4 type, UDP over TCP for the ports), while
      the payload fields keep the first layer that had a payload. */
  function DatagramOf(cfg: Config, pkt: Packet): (d: Datagram)
    ensures d.payloadType == "" <==> PayloadSource(pkt).None?
    ensures d.layer3Type == "" <==> pkt.ipv6.None? && pkt.ip.None?
    ensures d.layer2SrcAddr == "" <== pkt.ethernet.None?
  {
    var l3 := if pkt.ipv6.Some? then pkt.ipv6 else pkt.ip;
    var payload := SourceFields(cfg, PayloadSource(pkt));
    Datagram(
      if pkt.ethernet.Some? then KindName(ETHERNET_II) else if pkt.arp.Some? then KindName(ARP) else "",
      if pkt.ethernet.Some? then pkt.ethernet.value.srcAddr else "",
      if pkt.ethernet.Some? then pkt.ethernet.value.dstAddr else "",
      if pkt.ipv6.Some? then KindName(IPv6) else if pkt.ip.Some? then KindName(IP) else "",
      if l3.Some? then l3.value.srcAddr else "",
      if l3.Some? then l3.value.dstAddr else "",
      Layer4Type(pkt),
      if Ports(pkt).Some? then Decimal(Ports(pkt).value.srcPort) else "",
      if Ports(pkt).Some? then Decimal(Ports(pkt).value.dstPort) else "",
      payload.0, payload.1, payload.2, payload.3)
  }

  /** A datagram has a payload type exactly when some layer has a payload; the type is the
      first such layer's name and the size that payload's length. */
  lemma PayloadFieldsOfFirst(cfg: Config, pkt: Packet)
    ensures var d := DatagramOf(cfg, pkt);
      (d.payloadType == "" <==> PayloadSource(pkt).None?) &&
      (PayloadSource(pkt).Some? ==>
        d.payloadType == KindName(PayloadSource(pkt).value.0) &&
        d.payloadSize == Decimal(|PayloadSource(pkt).value.1|))
  {
    if PayloadSource(pkt).Some? {
    }
  }

  /** Under hex, a payload that only Ethernet II carries gets its type and size but no
      encoding type and no text. */
  lemma EthernetHexPayload(cfg: Config, pkt: Packet)
    requires cfg.payloadConvertMethod == "hex"
    requires PayloadSource(pkt).Some? && PayloadSource(pkt).value.0 == ETHERNET_II
    ensures var d := DatagramOf(cfg, pkt);
      d.payloadType == "ETHERNET_II" && d.payloadSize == Decimal(|PayloadSource(pkt).value.1|) &&
      d.payloadEncodingType == "" && d.payload == ""
  {
    EthernetName();
  }

  /** A UDP datagram under the default configuration: the layer-4 fields are UDP's unless
      an ICMP layer is also present, and the payload is the Base64 text of the UDP
      payload. */
  lemma UdpDatagram(cfg: Config, pkt: Packet, bytes: seq<byte>)
    requires cfg.payloadConvertMethod != "hex"
    requires PortRaw(pkt.tcp).None? && pkt.udp.Some? && pkt.udp.value.raw == Some(bytes)
    ensures var d := DatagramOf(cfg, pkt);
      d.layer4SrcPort == Decimal(pkt.udp.value.srcPort) && d.layer4DstPort == Decimal(pkt.udp.value.dstPort) &&
      (pkt.icmp.None? && pkt.icmpv6.None? ==> d.layer4Type == "UDP") &&
      d.payloadType == "UDP" && d.payloadSize == Decimal(|bytes|) &&
      d.payloadEncodingType == "base64" && d.payload == Base64(bytes)
  {
    UdpName();
    assert TransportSource(pkt) == Some((UDP, bytes));
    var fs := PayloadFields(cfg, UDP, bytes);
    assert SourceFields(cfg, PayloadSource(pkt)) == fs;
    assert Ports(pkt) == pkt.udp;
  }

  /** The parser: its configuration and the queue `parse` pushes to. */
  class Parser {
    const config: Config
    var queue: seq<Datagram>

    constructor (config: Config, queue: seq<Datagram>)
      ensures this.config == config && this.queue == queue
    {
      this.config := config;
      this.queue := queue;
    }

    /** The payload step every layer runs once it has found a raw payload and no earlier
        layer set the payload type. */
    method SetPayload(d: Datagram, kind: PduKind, bytes: seq<byte>) returns (e: Datagram)
      requires d.payloadEncodingType == "" && d.payload == ""
      ensures var fs := PayloadFields(config, kind, bytes);
        e == d.(payloadType := fs.0, payloadSize := fs.1, payloadEncodingType := fs.2, payload := fs.3)
      ensures e.payloadType != ""
    {
      e := d.(payloadType := PduTypeName(Listed(kind)), payloadSize := Decimal(|bytes|));
      if config.payloadConvertMethod == "hex" {
        if kind != ETHERNET_II {
          var text := EncodeHex(bytes);
          e := e.(payloadEncodingType := "hex", payload := text);
        }
      } else {
        var text := EncodeBase64(bytes);
        e := e.(payloadEncodingType := "base64", payload := text);
      }
    }

    /** The first half of `parse`: the TCP, UDP, ICMP and ICMPv6 checks. */
    method ParseTransport(pkt: Packet) returns (d: Datagram)
      ensures var fs := SourceFields(config, TransportSource(pkt));
        d == EmptyDatagram().(
          layer4Type := Layer4Type(pkt),
          layer4SrcPort := if Ports(pkt).Some? then Decimal(Ports(pkt).value.srcPort) else "",
          layer4DstPort := if Ports(pkt).Some? then Decimal(Ports(pkt).value.dstPort) else "",
          payloadType := fs.0, payloadSize := fs.1, payloadEncodingType := fs.2, payload := fs.3)
      ensures d.payloadType == "" <==> TransportSource(pkt).None?
    {
      d := EmptyDatagram();
      if pkt.tcp.Some? {
        var t := pkt.tcp.value;
        d := d.(layer4Type := PduTypeName(Listed(TCP)), layer4SrcPort := Decimal(t.srcPort), layer4DstPort := Decimal(t.dstPort));
        if d.payloadType == "" && t.raw.Some? {
          d := SetPayload(d, TCP, t.raw.value);
        }
      }
      if pkt.udp.Some? {
        var u := pkt.udp.value;
        d := d.(layer4Type := PduTypeName(Listed(UDP)), layer4SrcPort := Decimal(u.srcPort), layer4DstPort := Decimal(u.dstPort));
        if d.payloadType == "" && u.raw.Some? {
          d := SetPayload(d, UDP, u.raw.value);
        }
      }
      if pkt.icmp.Some? {
        d := d.(layer4Type := PduTypeName(Listed(ICMP)));
        if d.payloadType == "" && pkt.icmp.value.raw.Some? {
          d := SetPayload(d, ICMP, pkt.icmp.value.raw.value);
        }
      }
      if pkt.icmpv6.Some? {
        d := d.(layer4Type := PduTypeName(Listed(ICMPv6)));
        if d.payloadType == "" && pkt.icmpv6.value.raw.Some? {
          d := SetPayload(d, ICMPv6, pkt.icmpv6.value.raw.value);
        }
      }
    }

    /** The second half of `parse`: the IPv4, IPv6, ARP and Ethernet II checks, whose
        payload step only runs while no payload type is set. */
    method ParseLower(pkt: Packet, d0: Datagram) returns (d: Datagram)
      requires d0.payloadType == "" ==> d0.payloadSize == "" && d0.payloadEncodingType == "" && d0.payload == ""
      ensures var l3 := if pkt.ipv6.Some? then pkt.ipv6 else pkt.ip;
        var fs := SourceFields(config, LowerSource(pkt));
        d == d0.(
          layer2Type := if pkt.ethernet.Some? then KindName(ETHERNET_II) else if pkt.arp.Some? then KindName(ARP) else d0.layer2Type,
          layer2SrcAddr := if pkt.ethernet.Some? then pkt.ethernet.value.srcAddr else d0.layer2SrcAddr,
          layer2DstAddr := if pkt.ethernet.Some? then pkt.ethernet.value.dstAddr else d0.layer2DstAddr,
          layer3Type := if pkt.ipv6.Some? then KindName(IPv6) else if pkt.ip.Some? then KindName(IP) else d0.layer3Type,
          layer3SrcAddr := if l3.Some? then l3.value.srcAddr else d0.layer3SrcAddr,
          layer3DstAddr := if l3.Some? then l3.value.dstAddr else d0.layer3DstAddr,
          payloadType := if d0.payloadType == "" then fs.0 else d0.payloadType,
          payloadSize := if d0.payloadType == "" then fs.1 else d0.payloadSize,
          payloadEncodingType := if d0.payloadType == "" then fs.2 else d0.payloadEncodingType,
          payload := if d0.payloadType == "" then fs.3 else d0.payload)
    {
      d := d0;
      if pkt.ip.Some? {
        var a := pkt.ip.value;
        d := d.(layer3Type := PduTypeName(Listed(IP)), layer3SrcAddr := a.srcAddr, layer3DstAddr := a.dstAddr);
        if d.payloadType == "" && a.raw.Some? {
          d := SetPayload(d, IP, a.raw.value);
        }
      }
      if pkt.ipv6.Some? {
        var a := pkt.ipv6.value;
        d := d.(layer3Type := PduTypeName(Listed(IPv6)), layer3SrcAddr := a.srcAddr, layer3DstAddr := a.dstAddr);
        if d.payloadType == "" && a.raw.Some? {
          d := SetPayload(d, IPv6, a.raw.value);
        }
      }
      if pkt.arp.Some? {
        d := d.(layer2Type := PduTypeName(Listed(ARP)));
        if d.payloadType == "" && pkt.arp.value.raw.Some? {
          d := SetPayload(d, ARP, pkt.arp.value.raw.value);
        }
      }
      if pkt.ethernet.Some? {
        var a := pkt.ethernet.value;
        d := d.(layer2Type := PduTypeName(Listed(ETHERNET_II)), layer2SrcAddr := a.srcAddr, layer2DstAddr := a.dstAddr);
        if d.payloadType == "" && a.raw.Some? {
          d := SetPayload(d, ETHERNET_II, a.raw.value);
        }
      }
    }

    /** `parse`: checks the layers in a fixed order, each overwriting the fields it owns,
        then queues exactly one datagram and reports success. */
    method Parse(pkt: Packet) returns (ok: bool)
      modifies this
      ensures ok && queue == old(queue) + [DatagramOf(config, pkt)]
    {
      var d := ParseTransport(pkt);
      d := ParseLower(pkt, d);
      queue := queue + [d];
      ok := true;
    }
  }
}
