/** The stream manager of the stream server (StreamServer/api/stream-manager.js) and of the
    front end (FrontEnd/stream-manager.js): each Redis stream entry is decoded, has its RTP
    header extracted, has its voice payload routed to the inbound or outbound speech
    forwarder, and is emitted as a `NETWORK_PACKET` event; transcripts come back as tagged
    events; the composed stream of a key is cached until it finalises. The two files differ
    only in where that cache lives: one dictionary for the whole server module, one per
    instance in the front end. */
module StreamManager {
  import opened Wrappers
  import opened Text
  import opened Encoding
  import opened Message
  import opened PacketDecoder
  import opened Rtp
  import opened Speech

  const NetworkPacketEvent := "NETWORK_PACKET"
  const SpeechInEvent := "GOOGLE_SPEECH_IN"
  /** The outbound tag holds the inbound string. */
  const SpeechOutEvent := "GOOGLE_SPEECH_IN"

  datatype Direction = In | Out

  /** `key.includes(v)`: a number is searched for as its decimal text. */
  predicate KeyIncludes(key: string, v: Value) {
    match v
    case Str(s) => Contains(key, s)
    case Num(Finite(n)) => Contains(key, Decimal(n))
    case Num(NaN) => Contains(key, "NaN")
  }

  /** `data.layer_3[name]` is set, truthy, and found in the key. */
  predicate AddressIn(key: string, data: Data, name: string) {
    var a := Member(data, "layer_3", name);
    a.Some? && Truthy(a.value) && KeyIncludes(key, a.value)
  }

  /** The direction of a packet seen from the stream key: inbound when the key names its
      destination, else outbound when it names its source. */
  function Route(key: string, data: Data): (r: Option<Direction>)
    ensures r == Some(In) <==> AddressIn(key, data, "dst_addr")
    ensures r == Some(Out) <==> !AddressIn(key, data, "dst_addr") && AddressIn(key, data, "src_addr")
    ensures r.None? <==> !AddressIn(key, data, "dst_addr") && !AddressIn(key, data, "src_addr")
  {
    if AddressIn(key, data, "dst_addr") then Some(In)
    else if AddressIn(key, data, "src_addr") then Some(Out)
    else None
  }

  /** A packet whose source and destination both appear in the key goes to the inbound
      forwarder only. */
  lemma InboundWins(key: string, data: Data)
    requires AddressIn(key, data, "dst_addr") && AddressIn(key, data, "src_addr")
    ensures Route(key, data) == Some(In)
  {
  }

  /** The packet event: the stream entry id is its timestamp; the raw voice bytes are not
      part of it. */
  function PacketEvent(id: string, data: Data): (e: Event)
    ensures e.eventType == NetworkPacketEvent && e.timestamp == id && e.data.PacketData? && e.data.record == data
  {
    Event(NetworkPacketEvent, id, PacketData(data))
  }

  /** A transcript from one direction's forwarder (`message` is None for a falsy one), as
      the transcript stream maps it; there is no transcript stream unless both forwarders
      exist. */
  function TranscriptEvent(forwarders: bool, dir: Direction, now: string, message: Option<nat>): (e: Option<Event>)
    ensures e.Some? <==> forwarders && message.Some?
    ensures e.Some? ==> e.value == Event(SpeechInEvent, now, Transcript(message.value))
  {
    if !forwarders || message.None? then None
    else if dir == In then Some(Event(SpeechInEvent, now, Transcript(message.value)))
    else Some(Event(SpeechOutEvent, now, Transcript(message.value)))
  }

  /** The transcript side of the composed stream: the leading `of(null)`, then, when both
      forwarders exist, one element per transcript in arrival order. */
  function SpeechSide(forwarders: bool, messages: seq<(Direction, string, Option<nat>)>): (r: seq<Option<Event>>)
    ensures |r| == if forwarders then 1 + |messages| else 1
  {
    var transcripts := seq(|messages|, i requires 0 <= i < |messages| =>
      TranscriptEvent(forwarders, messages[i].0, messages[i].1, messages[i].2));
    if forwarders then [None] + transcripts else [None]
  }

  /** `.filter(message => message)`: the nulls are dropped, the order kept. */
  function Present(xs: seq<Option<Event>>): (r: seq<Event>)
    ensures |r| <= |xs|
  {
    if xs == [] then []
    else if xs[0].None? then Present(xs[1..])
    else [xs[0].value] + Present(xs[1..])
  }

  lemma {:induction false} PresentMembers(xs: seq<Option<Event>>, e: Event)
    ensures e in Present(xs) <==> Some(e) in xs
  {
    if xs != [] {
      PresentMembers(xs[1..], e);
      assert xs == [xs[0]] + xs[1..];
    }
  }

  /** Without the forwarders the transcript side contributes nothing past the filter, so the
      composed stream carries packet events only. */
  lemma SpeechDisabledSilent(messages: seq<(Direction, string, Option<nat>)>)
    ensures Present(SpeechSide(false, messages)) == []
  {
  }

  /** With the forwarders, every transcript that gets through is tagged with the inbound
      type, whichever direction produced it, and every truthy transcript gets through. */
  lemma TranscriptsTaggedInbound(messages: seq<(Direction, string, Option<nat>)>)
    ensures forall e :: e in Present(SpeechSide(true, messages)) ==>
      e.eventType == SpeechInEvent && e.data.Transcript?
    ensures forall i :: 0 <= i < |messages| && messages[i].2.Some? ==>
      Event(SpeechInEvent, messages[i].1, Transcript(messages[i].2.value)) in Present(SpeechSide(true, messages))
  {
    var xs := SpeechSide(true, messages);
    forall e | e in Present(xs) ensures e.eventType == SpeechInEvent && e.data.Transcript? {
      PresentMembers(xs, e);
    }
    forall i | 0 <= i < |messages| && messages[i].2.Some?
      ensures Event(SpeechInEvent, messages[i].1, Transcript(messages[i].2.value)) in Present(xs)
    {
      assert xs[i + 1] == TranscriptEvent(true, messages[i].0, messages[i].1, messages[i].2);
      PresentMembers(xs, Event(SpeechInEvent, messages[i].1, Transcript(messages[i].2.value)));
    }
  }

  // ---------------------------------------------------------------------------------------
  // The composed-stream cache

  /** A composed stream, identified by its key and by when it was built. */
  datatype Composed = Composed(key: string, serial: nat)

  /** The dictionary of composed streams by key. */
  class ComposedCache {
    var entries: map<string, Composed>
    var built: nat

    predicate Valid()
      reads this
    {
      forall k :: k in entries ==> entries[k].key == k && entries[k].serial < built
    }

    constructor ()
      ensures entries == map[] && built == 0 && Valid()
    {
      entries := map[];
      built := 0;
    }

    /** `observeAllStream(key)`: the cached stream for a key seen before, else a new one,
        remembered under the key. */
    method ObserveAllStream(key: string) returns (c: Composed)
      requires Valid()
      modifies this
      ensures Valid()
      ensures key in old(entries) ==> c == old(entries)[key] && entries == old(entries) && built == old(built)
      ensures key !in old(entries) ==>
        c == Composed(key, old(built)) && entries == old(entries)[key := c] && built == old(built) + 1
    {
      if key in entries {
        return entries[key];
      }
      c := Composed(key, built);
      entries := entries[key := c];
      built := built + 1;
    }

    /** The `finally` step of a composed stream: its key is forgotten, so the next request
        builds a new stream. */
    method Finalize(key: string)
      requires Valid()
      modifies this
      ensures Valid() && entries == old(entries) - {key} && built == old(built)
    {
      entries := entries - {key};
    }
  }

  // ---------------------------------------------------------------------------------------
  // The manager

  /** What one Redis entry becomes: an emitted packet event, or an exception that ends the
      composed stream. */
  datatype EntryOutcome = Failed | Emitted(event: Event)

  /** The voice chunk of an entry and the direction it is routed to, when speech is on. */
  function ChunkFor(enableParseRtp: bool, enableGoogleSpeech: bool, key: string, fields: seq<string>): (c: Option<(Direction, seq<byte>)>)
    ensures c.Some? ==> enableParseRtp && enableGoogleSpeech && c.value.1 != []
  {
    match RtpStep(enableParseRtp, Decoded(fields))
    case Threw => None
    case Done(data, voice) =>
      if enableGoogleSpeech && voice.Some? && TruthyField(Lookup(data, "layer_3")) && Route(key, data).Some?
      then Some((Route(key, data).value, voice.value))
      else None
  }

  /** What `sendChunk(voice)` did to a forwarder: when it threw, a fresh session was being
      opened and the counter and cache are untouched; otherwise the counter moved by the
      chunk's loudness, the cache was flushed and the voice delivered to the session. */
  twostate predicate ReceivedChunk(g: GoogleSpeech, voice: seq<byte>, thrown: bool)
    reads g
  {
    g.callbacks == old(g.callbacks) &&
    (thrown ==>
      g.session == Some(Fresh(g.callbacks)) &&
      g.silenceCounter == old(g.silenceCounter) && g.voiceCache == old(g.voiceCache)) &&
    (!thrown ==>
      g.silenceCounter == NextCounter(old(g.silenceCounter), Quiet(g.decode(voice))) &&
      g.voiceCache == [] &&
      g.session == Some(Delivered(Current(old(g.session), g.callbacks), old(g.voiceCache), voice, g.silenceCounter)))
  }

  class StreamManager {
    const enableParseRtp: bool
    const enableGoogleSpeech: bool
    /** The inbound and outbound forwarders, built without a callback; null when speech is
        off. */
    const speechIn: GoogleSpeech?
    const speechOut: GoogleSpeech?
    const cache: ComposedCache

    predicate Valid() {
      (speechIn == null <==> !enableGoogleSpeech) && (speechOut == null <==> !enableGoogleSpeech)
      && (speechIn != null ==> speechIn != speechOut)
    }

    function Forwarders(): set<GoogleSpeech> {
      (if speechIn != null then {speechIn} else {}) + (if speechOut != null then {speechOut} else {})
    }

    /** The stream server's manager: every instance shares the module's cache. */
    constructor Shared(enableParseRtp: bool, enableGoogleSpeech: bool, cache: ComposedCache, decode: seq<byte> -> seq<int>)
      ensures Valid() && this.cache == cache
      ensures this.enableParseRtp == enableParseRtp && this.enableGoogleSpeech == enableGoogleSpeech
      ensures speechIn != null ==> fresh(speechIn) && speechIn.callbacks == [None] && speechIn.session == None
      ensures speechOut != null ==> fresh(speechOut) && speechOut.callbacks == [None] && speechOut.session == None
    {
      this.enableParseRtp := enableParseRtp;
      this.enableGoogleSpeech := enableGoogleSpeech;
      this.cache := cache;
      if enableGoogleSpeech {
        speechIn := new GoogleSpeech(None, decode);
        speechOut := new GoogleSpeech(None, decode);
      } else {
        speechIn := null;
        speechOut := null;
      }
    }

    /** The front end's manager: each instance owns a cache of its own. */
    constructor Owned(enableParseRtp: bool, enableGoogleSpeech: bool, decode: seq<byte> -> seq<int>)
      ensures Valid() && fresh(cache) && cache.entries == map[] && cache.Valid()
      ensures this.enableParseRtp == enableParseRtp && this.enableGoogleSpeech == enableGoogleSpeech
      ensures speechIn != null ==> fresh(speechIn) && speechIn.callbacks == [None] && speechIn.session == None
      ensures speechOut != null ==> fresh(speechOut) && speechOut.callbacks == [None] && speechOut.session == None
    {
      this.enableParseRtp := enableParseRtp;
      this.enableGoogleSpeech := enableGoogleSpeech;
      cache := new ComposedCache();
      if enableGoogleSpeech {
        speechIn := new GoogleSpeech(None, decode);
        speechOut := new GoogleSpeech(None, decode);
      } else {
        speechIn := null;
        speechOut := null;
      }
    }

    /** One entry of the network packet stream of `key`: decode, extract the RTP header,
        hand the voice bytes to the forwarder of their direction, and emit the packet event.
        A `hex` payload throws, and so does a forwarder whose callback is undefined when it
        opens a session; either ends the stream. */
    method ProcessEntry(key: string, id: string, fields: seq<string>) returns (outcome: EntryOutcome, routed: Option<Direction>)
      requires Valid()
      modifies Forwarders()
      ensures routed == (match ChunkFor(enableParseRtp, enableGoogleSpeech, key, fields)
        case None => None case Some(c) => Some(c.0))
      ensures routed != Some(In) ==> speechIn == null || unchanged(speechIn)
      ensures routed != Some(Out) ==> speechOut == null || unchanged(speechOut)
      ensures RtpStep(enableParseRtp, Decoded(fields)).Threw? ==> outcome == Failed
      ensures match RtpStep(enableParseRtp, Decoded(fields))
        case Threw => true
        case Done(data, _) => outcome == Failed || outcome == Emitted(PacketEvent(id, data))
      ensures routed.None? ==> outcome != Failed || RtpStep(enableParseRtp, Decoded(fields)).Threw?
      ensures routed == Some(In) ==>
        (outcome == Failed <==> Reopens(old(speechIn.session)) && None in speechIn.callbacks)
      ensures routed == Some(Out) ==>
        (outcome == Failed <==> Reopens(old(speechOut.session)) && None in speechOut.callbacks)
      ensures routed == Some(In) ==>
        ReceivedChunk(speechIn, ChunkFor(enableParseRtp, enableGoogleSpeech, key, fields).value.1, outcome == Failed)
      ensures routed == Some(Out) ==>
        ReceivedChunk(speechOut, ChunkFor(enableParseRtp, enableGoogleSpeech, key, fields).value.1, outcome == Failed)
    {
      routed := None;
      var data := Decode(fields);
      var step := ParseRtp(enableParseRtp, data);
      if step.Threw? {
        return Failed, None;
      }
      data := step.data;
      var thrown := false;
      if enableGoogleSpeech && step.rtpPayload.Some? && TruthyField(Lookup(data, "layer_3")) {
        if speechIn != null && AddressIn(key, data, "dst_addr") {
          routed := Some(In);
          thrown := speechIn.SendChunk(step.rtpPayload);
        } else if speechOut != null && AddressIn(key, data, "src_addr") {
          routed := Some(Out);
          thrown := speechOut.SendChunk(step.rtpPayload);
        }
      }
      if thrown {
        return Failed, routed;
      }
      outcome := Emitted(PacketEvent(id, data));
    }
  }
}
