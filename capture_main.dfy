// The capture program's forwarding loop: how each parsed datagram is written to Redis
// streams, which stream keys it goes to, the trim that follows and the number of
// replies read back.

module CaptureMain {
  import opened Text
  import opened CaptureParser

  /** The command-line options the forwarding loop reads. */
  datatype Options = Options(
    divideStreams: string,
    streamMaxLength: nat,
    streamPrefix: string,
    defaultStream: string,
    databaseNumber: string)

  /** The defaults the command line declares. */
  function DefaultOptions(): (o: Options)
    ensures o.divideStreams == "ip" && o.streamMaxLength == 10000
    ensures o.streamPrefix == "stream/" && o.defaultStream == "default"
    ensures o.databaseNumber == "0"
  {
    Options("ip", 10000, "stream/", "default", "0")
  }

  /** The Redis commands a batch sends. */
  datatype Command =
    | Select(database: string)
    | Xadd(key: string, entry: Datagram)
    | Xtrim(key: string, maxLen: nat)

  /** The field names of an XADD entry, in the order they are written. */
  function FieldNames(): (ns: seq<string>)
    ensures |ns| == 13
  {
    ["layer_2_type", "layer_2_src_addr", "layer_2_dst_addr",
     "layer_3_type", "layer_3_src_addr", "layer_3_dst_addr",
     "layer_4_type", "layer_4_src_port", "layer_4_dst_port",
     "payload_type", "payload_size", "payload_encoding_type",
     "payload_payload"]
  }

  /** Names and values alternated: name, value, name, value, ... */
  function Interleave(names: seq<string>, values: seq<string>): (r: seq<string>)
    requires |names| == |values|
    ensures |r| == 2 * |names|
    ensures forall i :: 0 <= i < |names| ==> r[2 * i] == names[i] && r[2 * i + 1] == values[i]
  {
    if names == [] then []
    else
      var rest := Interleave(names[1..], values[1..]);
      assert forall i :: 1 <= i < |names| ==> rest[2 * (i - 1)] == names[i] && rest[2 * (i - 1) + 1] == values[i];
      [names[0], values[0]] + rest
  }

  /** The field list of the XADD for one datagram: each of its thirteen fields under its
      name. */
  function XaddFields(d: Datagram): (fs: seq<string>)
    ensures |fs| == 26
    ensures forall i :: 0 <= i < 13 ==> fs[2 * i] == FieldNames()[i] && fs[2 * i + 1] == Fields(d)[i]
  {
    Interleave(FieldNames(), Fields(d))
  }

  /** A command's arguments as sent: XADD with a server-assigned id and the entry's
      fields, XTRIM with an approximate maximum length. */
  function Args(c: Command): (args: seq<string>)
    ensures c.Xadd? ==> |args| == 29 && args[..3] == ["XADD", c.key, "*"] && args[3..] == XaddFields(c.entry)
  {
    match c
    case Select(db) => ["SELECT", db]
    case Xadd(key, d) => ["XADD", key, "*"] + XaddFields(d)
    case Xtrim(key, n) => ["XTRIM", key, "MAXLEN", "~", Decimal(n)]
  }

  /** The trim sent after the writes; its key is the fixed name "test-stream". */
  function TrimOf(o: Options): Command {
    Xtrim("test-stream", o.streamMaxLength)
  }

  /** Under "mac" or "ip": the default stream when either address is empty, then the
      stream of each non-empty address. */
  function DividedKeys(o: Options, src: string, dst: string): (keys: seq<string>)
    ensures 1 <= |keys| <= 2
  {
    (if src == "" || dst == "" then [o.streamPrefix + o.defaultStream] else [])
    + (if src != "" then [o.streamPrefix + src] else [])
    + (if dst != "" then [o.streamPrefix + dst] else [])
  }

  /** The stream keys one datagram is written to. */
  function StreamKeys(o: Options, d: Datagram): (keys: seq<string>)
    ensures 1 <= |keys| <= 2
  {
    if o.divideStreams == "mac" then DividedKeys(o, d.layer2SrcAddr, d.layer2DstAddr)
    else if o.divideStreams == "ip" then DividedKeys(o, d.layer3SrcAddr, d.layer3DstAddr)
    else [o.streamPrefix + o.defaultStream]
  }

  function XaddsTo(keys: seq<string>, d: Datagram): (cs: seq<Command>)
    ensures |cs| == |keys|
    ensures forall i :: 0 <= i < |keys| ==> cs[i] == Xadd(keys[i], d)
  {
    if keys == [] then [] else [Xadd(keys[0], d)] + XaddsTo(keys[1..], d)
  }

  /** The XADDs of a queue of datagrams, in queue order. */
  function Writes(o: Options, ds: seq<Datagram>): seq<Command> {
    if ds == [] then []
    else Writes(o, ds[..|ds| - 1]) + XaddsTo(StreamKeys(o, ds[|ds| - 1]), ds[|ds| - 1])
  }

  /** Everything one batch sends: nothing for an empty queue; otherwise SELECT, the writes
      and, when a maximum length is set, the trim. */
  function BatchCommands(o: Options, queue: seq<Datagram>): (cs: seq<Command>)
    ensures cs == [] <==> queue == []
    ensures queue != [] ==> cs[0] == Select(o.databaseNumber)
    ensures queue != [] && o.streamMaxLength > 0 ==> cs[|cs| - 1] == TrimOf(o)
  {
    if queue == [] then []
    else [Select(o.databaseNumber)] + Writes(o, queue) + (if o.streamMaxLength > 0 then [TrimOf(o)] else [])
  }

  /** Under a dividing mode, a datagram goes to one stream when both addresses are empty
      and to two otherwise: the default stream stands in for a missing address, and each
      present address has its own stream. */
  lemma DividedKeysCover(o: Options, src: string, dst: string)
    ensures var keys := DividedKeys(o, src, dst);
      |keys| == (if src == "" && dst == "" then 1 else 2) &&
      (o.streamPrefix + o.defaultStream in keys <== src == "" || dst == "") &&
      (src != "" ==> o.streamPrefix + src in keys) &&
      (dst != "" ==> o.streamPrefix + dst in keys) &&
      (forall k :: k in keys ==> StartsWith(k, o.streamPrefix))
  {
    var keys := DividedKeys(o, src, dst);
    forall k | k in keys
      ensures StartsWith(k, o.streamPrefix)
    {
      PrefixStartsWith(o.streamPrefix, k[|o.streamPrefix|..]);
    }
  }

  lemma PrefixStartsWith(p: string, s: string)
    ensures StartsWith(p + s, p)
  {
    assert (p + s)[..|p|] == p;
  }

  /** Every datagram is written at least once and at most twice, and every key it is
      written to carries the stream prefix. */
  lemma StreamKeysBounds(o: Options, d: Datagram)
    ensures var keys := StreamKeys(o, d);
      1 <= |keys| <= 2 && forall k :: k in keys ==> StartsWith(k, o.streamPrefix)
  {
    if o.divideStreams == "mac" {
      DividedKeysCover(o, d.layer2SrcAddr, d.layer2DstAddr);
    } else if o.divideStreams == "ip" {
      DividedKeysCover(o, d.layer3SrcAddr, d.layer3DstAddr);
    } else {
      PrefixStartsWith(o.streamPrefix, o.defaultStream);
    }
  }

  /** A datagram whose two addresses are equal and non-empty is written twice to the
      same stream. */
  lemma SameAddressWrittenTwice(o: Options, d: Datagram)
    requires o.divideStreams == "ip" && d.layer3SrcAddr == d.layer3DstAddr != ""
    ensures StreamKeys(o, d) == [o.streamPrefix + d.layer3SrcAddr, o.streamPrefix + d.layer3SrcAddr]
  {
  }

  lemma WritesAppend(o: Options, ds: seq<Datagram>, d: Datagram)
    ensures Writes(o, ds + [d]) == Writes(o, ds) + XaddsTo(StreamKeys(o, d), d)
  {
    assert (ds + [d])[..|ds|] == ds;
  }

  /** Popping one more datagram appends its XADDs. */
  lemma WritesStep(o: Options, queue: seq<Datagram>, i: nat)
    requires i < |queue|
    ensures Writes(o, queue[..i + 1]) == Writes(o, queue[..i]) + XaddsTo(StreamKeys(o, queue[i]), queue[i])
  {
    var pre, next := queue[..i], queue[..i + 1];
    assert next == pre + [queue[i]];
    WritesAppend(o, pre, queue[i]);
  }

  /** The writes hold between one and two XADDs per datagram, and each datagram's XADDs
      are all there. */
  lemma {:induction false} WritesCover(o: Options, ds: seq<Datagram>)
    ensures |ds| <= |Writes(o, ds)| <= 2 * |ds|
    ensures forall j, k :: 0 <= j < |ds| && k in StreamKeys(o, ds[j]) ==> Xadd(k, ds[j]) in Writes(o, ds)
  {
    if ds != [] {
      var init, d := ds[..|ds| - 1], ds[|ds| - 1];
      WritesCover(o, init);
      StreamKeysBounds(o, d);
      var w := Writes(o, ds);
      assert w == Writes(o, init) + XaddsTo(StreamKeys(o, d), d);
      forall j, k | 0 <= j < |ds| && k in StreamKeys(o, ds[j])
        ensures Xadd(k, ds[j]) in w
      {
        if j < |ds| - 1 {
          assert ds[j] == init[j];
          assert Xadd(k, ds[j]) in Writes(o, init);
        } else {
          var i :| 0 <= i < |StreamKeys(o, d)| && StreamKeys(o, d)[i] == k;
          assert XaddsTo(StreamKeys(o, d), d)[i] == Xadd(k, d);
        }
      }
    }
  }

  lemma XaddKeysHavePrefix(o: Options, ds: seq<Datagram>)
    ensures forall c :: c in Writes(o, ds) ==> c.Xadd? && StartsWith(c.key, o.streamPrefix)
  {
    if ds != [] {
      var init, d := ds[..|ds| - 1], ds[|ds| - 1];
      XaddKeysHavePrefix(o, init);
      StreamKeysBounds(o, d);
    }
  }

  /** With the default prefix, the trim's key "test-stream" is none of the streams the
      batch writes to, so the trim never shortens them. */
  lemma TrimMissesWrittenStreams(o: Options, queue: seq<Datagram>)
    requires o.streamPrefix == DefaultOptions().streamPrefix && o.streamMaxLength > 0 && queue != []
    ensures var cs := BatchCommands(o, queue);
      Args(cs[|cs| - 1]) == ["XTRIM", "test-stream", "MAXLEN", "~", Decimal(o.streamMaxLength)] &&
      forall c :: c in cs && c.Xadd? ==> c.key != "test-stream"
  {
    XaddKeysHavePrefix(o, queue);
    assert !StartsWith("test-stream", "stream/") by {
      assert "test-stream"[..7] != "stream/" by { assert "test-stream"[0] == 't'; }
    }
  }

  /** A non-empty batch reads back between one and two replies per datagram, plus one for
      SELECT and one for the trim when it is sent. */
  lemma ReplyCountBounds(o: Options, queue: seq<Datagram>)
    requires queue != []
    ensures var t := if o.streamMaxLength > 0 then 1 else 0;
      1 + |queue| + t <= |BatchCommands(o, queue)| <= 1 + 2 * |queue| + t
  {
    WritesCover(o, queue);
  }

  /** One batch of the forwarding loop: it drains the queue, sending SELECT, the XADDs of
      each datagram and the trim, and counts the commands whose replies it then reads. */
  method FlushBatch(o: Options, queue: seq<Datagram>) returns (commands: seq<Command>, cnt: nat)
    ensures commands == BatchCommands(o, queue)
    ensures cnt == |commands|
  {
    commands, cnt := [], 0;
    if |queue| > 0 {
      commands := [Select(o.databaseNumber)];
      cnt := 1;
      var sent, n := WriteQueue(o, queue);
      commands, cnt := commands + sent, cnt + n;
      if o.streamMaxLength > 0 {
        commands := commands + [TrimOf(o)];
        cnt := cnt + 1;
      }
    }
  }

  /** The loop popping datagrams until the queue is empty. */
  method WriteQueue(o: Options, queue: seq<Datagram>) returns (sent: seq<Command>, n: nat)
    ensures sent == Writes(o, queue) && n == |sent|
  {
    sent, n := [], 0;
    var i := 0;
    while i < |queue|
      invariant 0 <= i <= |queue|
      invariant sent == Writes(o, queue[..i]) && n == |sent|
    {
      var d := queue[i];
      var more, m := WriteDatagram(o, d);
      WritesStep(o, queue, i);
      sent, n := sent + more, n + m;
      i := i + 1;
    }
    assert queue[..i] == queue;
  }

  /** The XADDs for one popped datagram, chosen by the dividing mode. */
  method WriteDatagram(o: Options, d: Datagram) returns (sent: seq<Command>, n: nat)
    ensures sent == XaddsTo(StreamKeys(o, d), d) && n == |sent|
  {
    sent, n := [], 0;
    if o.divideStreams == "mac" {
      sent, n := WriteDivided(o, d, d.layer2SrcAddr, d.layer2DstAddr);
    } else if o.divideStreams == "ip" {
      sent, n := WriteDivided(o, d, d.layer3SrcAddr, d.layer3DstAddr);
    } else {
      sent, n := [Xadd(o.streamPrefix + o.defaultStream, d)], 1;
    }
  }

  method WriteDivided(o: Options, d: Datagram, src: string, dst: string) returns (sent: seq<Command>, n: nat)
    ensures sent == XaddsTo(DividedKeys(o, src, dst), d) && n == |sent|
  {
    sent, n := [], 0;
    if src == "" || dst == "" {
      sent, n := sent + [Xadd(o.streamPrefix + o.defaultStream, d)], n + 1;
    }
    if src != "" {
      sent, n := sent + [Xadd(o.streamPrefix + src, d)], n + 1;
    }
    if dst != "" {
      sent, n := sent + [Xadd(o.streamPrefix + dst, d)], n + 1;
    }
  }

  /** The forwarding loop taking one batch from the parser's queue, which it leaves
      empty. */
  method Forward(o: Options, parser: Parser) returns (commands: seq<Command>, cnt: nat)
    modifies parser
    ensures parser.queue == []
    ensures commands == BatchCommands(o, old(parser.queue)) && cnt == |commands|
  {
    commands, cnt := FlushBatch(o, parser.queue);
    parser.queue := [];
  }
}
