/** The WebSocket gateway of the stream server (StreamServer/api/server.js): each WebSocket
    connection names a stream key and options in its query string; every new stream entry is
    decoded, optionally given its RTP header and fed to a speech session, filtered, and sent
    as `{timestamp, data}`. The server keeps lists of its HTTP and WebSocket connections. */
module Gateway {
  import opened Wrappers
  import opened Text
  import opened Encoding
  import opened JsArray
  import opened Message
  import opened PacketDecoder
  import opened Rtp

  const RtpFlag := "rtp"
  const RealtimeTextFlag := "google-realtime-text"
  const EndOfUtterance := "END_OF_SINGLE_UTTERANCE"
  const Unspecified := "SPEECH_EVENT_UNSPECIFIED"

  // ---------------------------------------------------------------------------------------
  // The query string

  /** The query parameters folded into an object: a later parameter of the same name
      replaces an earlier one. */
  function QueryMap(entries: seq<(string, string)>): map<string, string> {
    if entries == [] then map[]
    else QueryMap(entries[..|entries| - 1])[entries[|entries| - 1].0 := entries[|entries| - 1].1]
  }

  /** A parameter's value is that of its last occurrence. */
  lemma {:induction false} QueryLastWins(entries: seq<(string, string)>, i: nat)
    requires i < |entries|
    requires forall j :: i < j < |entries| ==> entries[j].0 != entries[i].0
    ensures entries[i].0 in QueryMap(entries) && QueryMap(entries)[entries[i].0] == entries[i].1
  {
    if i < |entries| - 1 {
      QueryLastWins(entries[..|entries| - 1], i);
    }
  }

  /** A name is in the object exactly when some parameter carries it. */
  lemma {:induction false} QueryNames(entries: seq<(string, string)>, name: string)
    ensures name in QueryMap(entries) <==> exists j :: 0 <= j < |entries| && entries[j].0 == name
  {
    if entries != [] {
      var init := entries[..|entries| - 1];
      QueryNames(init, name);
      if exists j :: 0 <= j < |init| && init[j].0 == name {
        var j :| 0 <= j < |init| && init[j].0 == name;
        assert entries[j].0 == name;
      }
      if exists j :: 0 <= j < |entries| && entries[j].0 == name {
        var j :| 0 <= j < |entries| && entries[j].0 == name;
        if j < |init| {
          assert init[j].0 == name;
        }
      }
    }
  }

  /** A token list: the array that `split` returns, with the named properties a script may
      set on it besides its elements. */
  datatype TokenList = TokenList(elements: seq<string>, properties: map<string, nat>)

  /** `q[name] ? q[name].toLowerCase().split(',') : null`. */
  function Tokens(q: map<string, string>, name: string): (t: Option<TokenList>)
    ensures t.Some? <==> name in q && q[name] != ""
    ensures t.Some? ==> |t.value.elements| >= 1 && t.value.properties == map[]
    ensures t.Some? ==> Join(t.value.elements, ',') == ToLowerAscii(q[name])
    ensures t.Some? ==> forall k :: 0 <= k < |t.value.elements| ==> ',' !in t.value.elements[k]
  {
    if name in q && q[name] != "" then
      SplitJoin(ToLowerAscii(q[name]), ',');
      Some(TokenList(Split(ToLowerAscii(q[name]), ','), map[]))
    else None
  }

  /** `list && list.includes(x)`. */
  predicate Includes(t: Option<TokenList>, x: string) {
    t.Some? && x in t.value.elements
  }

  datatype Query = Query(key: Option<string>, parse: Option<TokenList>, filter: Option<TokenList>)

  /** The connection's options: `key` when it is a non-empty string, else null; `parse` and
      `filter` as token lists, or null. */
  function ReadQuery(entries: seq<(string, string)>): (q: Query)
    ensures q.key.Some? <==> "key" in QueryMap(entries) && QueryMap(entries)["key"] != ""
    ensures q.key.Some? ==> q.key.value == QueryMap(entries)["key"]
    ensures q.parse == Tokens(QueryMap(entries), "parse") && q.filter == Tokens(QueryMap(entries), "filter")
  {
    var m := QueryMap(entries);
    Query(if "key" in m && m["key"] != "" then Some(m["key"]) else None,
          Tokens(m, "parse"), Tokens(m, "filter"))
  }

  /** `parse[FLAG_RTP] = 1` when realtime text is asked for: it sets a property of the array,
      not an element. */
  function MarkRtp(parse: Option<TokenList>): Option<TokenList> {
    if Includes(parse, RealtimeTextFlag)
    then Some(parse.value.(properties := parse.value.properties[RtpFlag := 1]))
    else parse
  }

  /** Marking leaves the elements, and so every `includes` answer, as they were: realtime text
      alone does not switch RTP parsing on. */
  lemma MarkRtpNoEffect(parse: Option<TokenList>, x: string)
    ensures Includes(MarkRtp(parse), x) == Includes(parse, x)
    ensures MarkRtp(parse).Some? == parse.Some?
    ensures parse.Some? ==> MarkRtp(parse).value.elements == parse.value.elements
  {
  }

  // ---------------------------------------------------------------------------------------
  // The field filter

  /** `filter.forEach(x => { if (data[x]) delete data[x] })`. */
  function Filtered(data: Data, tokens: seq<string>): (r: Data)
    ensures r.Keys <= data.Keys
  {
    if tokens == [] then data
    else
      var d := Filtered(data, tokens[..|tokens| - 1]);
      var x := tokens[|tokens| - 1];
      if TruthyField(Lookup(d, x)) then d - {x} else d
  }

  /** A top-level property survives the filter exactly when it is not named, or holds a falsy
      value (0, "", NaN); what survives is unchanged. */
  lemma {:induction false} FilterKeeps(data: Data, tokens: seq<string>, k: string)
    ensures k in Filtered(data, tokens) <==> k in data && (k !in tokens || !TruthyField(Lookup(data, k)))
    ensures k in Filtered(data, tokens) ==> Filtered(data, tokens)[k] == data[k]
  {
    if tokens != [] {
      var init := tokens[..|tokens| - 1];
      FilterKeeps(data, init, k);
      assert tokens == init + [tokens[|tokens| - 1]];
    }
  }

  function FilterBy(data: Data, filter: Option<TokenList>): Data {
    if filter.Some? then Filtered(data, filter.value.elements) else data
  }

  method ApplyFilter(data0: Data, filter: Option<TokenList>) returns (data: Data)
    ensures data == FilterBy(data0, filter)
  {
    data := data0;
    if filter.Some? {
      var tokens := filter.value.elements;
      for i := 0 to |tokens|
        invariant data == Filtered(data0, tokens[..i])
      {
        assert tokens[..i + 1][..i] == tokens[..i];
        if TruthyField(Lookup(data, tokens[i])) {
          data := data - {tokens[i]};
        }
      }
      assert tokens[..|tokens|] == tokens;
    }
  }

  // ---------------------------------------------------------------------------------------
  // The utterance flags

  /** One recognition result: whether it is final, and how many alternatives it has. */
  datatype SpeechResult = SpeechResult(isFinal: bool, alternatives: nat)
  datatype SpeechData = SpeechData(speechEventType: string, results: seq<SpeechResult>)

  predicate IsEnd(d: SpeechData) {
    d.speechEventType == EndOfUtterance
  }

  predicate IsFinal(d: SpeechData) {
    !IsEnd(d) && d.speechEventType == Unspecified && |d.results| > 0 && d.results[0].isFinal
  }

  /** Logging `results[0].alternatives[0].transcript` throws when there is no alternative. */
  predicate ThrowsOn(d: SpeechData) {
    !IsEnd(d) && d.speechEventType == Unspecified && |d.results| > 0 && d.results[0].alternatives == 0
  }

  datatype Flags = Flags(end: bool, final: bool)

  /** The flags after one event, and whether the session is dropped: once both are set they
      are both cleared and the session goes. */
  function FlagStep(f: Flags, d: SpeechData): (r: (Flags, bool))
    ensures r.1 <==> (f.end || IsEnd(d)) && (f.final || IsFinal(d))
    ensures r.1 ==> r.0 == Flags(false, false)
  {
    var g := Flags(f.end || IsEnd(d), f.final || IsFinal(d));
    if g.end && g.final then (Flags(false, false), true) else (g, false)
  }

  /** The flags after a series of events, and how many sessions were dropped. */
  function FlagsAfter(f: Flags, events: seq<SpeechData>): (Flags, nat) {
    if events == [] then (f, 0)
    else
      var (g, n) := FlagsAfter(f, events[..|events| - 1]);
      var (h, dropped) := FlagStep(g, events[|events| - 1]);
      (h, if dropped then n + 1 else n)
  }

  function CountWhere(events: seq<SpeechData>, end: bool): nat {
    if events == [] then 0
    else
      var last := events[|events| - 1];
      var counted := if end then IsEnd(last) else IsFinal(last);
      CountWhere(events[..|events| - 1], end) + B(counted)
  }

  function B(b: bool): nat {
    if b then 1 else 0
  }

  /** Every dropped session, and every flag still set, is paid for by an end-of-utterance
      event and by a final result of its own: a session is never dropped on one kind of event
      alone. */
  lemma {:induction false} DropsNeedBoth(events: seq<SpeechData>)
    ensures var (f, n) := FlagsAfter(Flags(false, false), events);
      n + B(f.end) <= CountWhere(events, true) && n + B(f.final) <= CountWhere(events, false)
  {
    if events != [] {
      DropsNeedBoth(events[..|events| - 1]);
    }
  }

  /** The flags are never both left set. */
  lemma FlagsNeverBoth(f: Flags, d: SpeechData)
    ensures !(FlagStep(f, d).0.end && FlagStep(f, d).0.final)
  {
  }

  // ---------------------------------------------------------------------------------------
  // The voice chunks

  /** The chunks the current session was given (empty when there is none), then the cached
      ones: the chunks not yet handed over to a dropped session. */
  function Pending(session: Option<seq<seq<byte>>>, cache: seq<seq<byte>>): seq<seq<byte>> {
    (if session.Some? then session.value else []) + cache
  }

  /** One voice chunk: open a session when there is none; while the end of the utterance is
      flagged, cache the chunk; otherwise write the cached chunks, oldest first, then the
      chunk. */
  function Voiced(flagEnd: bool, session: Option<seq<seq<byte>>>, cache: seq<seq<byte>>, p: seq<byte>)
    : (Option<seq<seq<byte>>>, seq<seq<byte>>)
  {
    var s := if session.Some? then session.value else [];
    if flagEnd then (Some(s), cache + [p]) else (Some(s + cache + [p]), [])
  }

  /** No chunk is lost or reordered: the chunk joins the end of the pending ones, and with
      the end flag clear nothing stays cached. */
  lemma VoicedKeepsOrder(flagEnd: bool, session: Option<seq<seq<byte>>>, cache: seq<seq<byte>>, p: seq<byte>)
    ensures var (s, c) := Voiced(flagEnd, session, cache, p);
      Pending(s, c) == Pending(session, cache) + [p] && s.Some? && (!flagEnd ==> c == [])
  {
    var s0 := if session.Some? then session.value else [];
    assert s0 + cache + [p] == s0 + (cache + [p]);
  }

  // ---------------------------------------------------------------------------------------
  // One connection

  datatype WsMessage = WsMessage(timestamp: string, data: Data)

  /** The message an entry produces, or None when the handler throws (a `hex` payload). */
  function Outgoing(q: Query, id: string, fields: seq<string>): (m: Option<WsMessage>)
    ensures m.None? ==> Includes(q.parse, RtpFlag)
    ensures m.Some? ==> m.value.timestamp == id
  {
    match RtpStep(Includes(q.parse, RtpFlag), Decoded(fields))
    case Threw => None
    case Done(data, _) => Some(WsMessage(id, FilterBy(data, q.filter)))
  }

  /** The voice chunk an entry feeds to the speech session. */
  function VoiceFor(q: Query, fields: seq<string>): (v: Option<seq<byte>>)
    ensures v.Some? ==> Includes(q.parse, RtpFlag) && Includes(q.parse, RealtimeTextFlag) && v.value != []
  {
    match RtpStep(Includes(q.parse, RtpFlag), Decoded(fields))
    case Threw => None
    case Done(_, voice) => if Includes(q.parse, RealtimeTextFlag) then voice else None
  }

  /** Asking for realtime text without `rtp` feeds no voice. */
  lemma RealtimeTextNeedsRtp(q: Query, fields: seq<string>)
    requires !Includes(q.parse, RtpFlag)
    ensures VoiceFor(q, fields).None?
  {
    DisabledSkipped(Decoded(fields));
  }

  /** The state of one connection's handler. */
  class Connection {
    const socket: nat
    const query: Query
    var parse: Option<TokenList>
    var flagEnd: bool
    var flagFinal: bool
    var session: Option<seq<seq<byte>>>
    var voiceCache: seq<seq<byte>>

    /** `parse` only ever gains array properties. */
    predicate Valid()
      reads this
    {
      parse.Some? == query.parse.Some? && (parse.Some? ==> parse.value.elements == query.parse.value.elements)
    }

    constructor (socket: nat, query: Query)
      ensures this.socket == socket && this.query == query && parse == query.parse && Valid()
      ensures !flagEnd && !flagFinal && session == None && voiceCache == []
    {
      this.socket := socket;
      this.query := query;
      parse := query.parse;
      flagEnd := false;
      flagFinal := false;
      session := None;
      voiceCache := [];
    }

    /** The session's `data` listener. */
    method OnSpeechData(d: SpeechData) returns (thrown: bool)
      requires session.Some?
      modifies this
      ensures thrown <==> ThrowsOn(d)
      ensures var f := Flags(old(flagEnd) || IsEnd(d), old(flagFinal) || IsFinal(d));
        thrown ==> flagEnd == f.end && flagFinal == f.final && session == old(session)
      ensures var (g, dropped) := FlagStep(Flags(old(flagEnd), old(flagFinal)), d);
        !thrown ==> flagEnd == g.end && flagFinal == g.final && session == (if dropped then None else old(session))
      ensures voiceCache == old(voiceCache) && parse == old(parse)
    {
      thrown := false;
      if d.speechEventType == EndOfUtterance {
        flagEnd := true;
      } else if d.speechEventType == Unspecified {
        if |d.results| > 0 {
          if d.results[0].isFinal {
            flagFinal := true;
          }
          if d.results[0].alternatives == 0 {
            return true;
          }
        }
      }
      if flagEnd && flagFinal {
        flagEnd := false;
        flagFinal := false;
        session := None;
      }
    }

    /** Lines 259-281 for a valid RTP packet when realtime text is on. */
    method OnVoice(p: seq<byte>)
      modifies this
      ensures (session, voiceCache) == Voiced(old(flagEnd), old(session), old(voiceCache), p)
      ensures flagEnd == old(flagEnd) && flagFinal == old(flagFinal) && parse == old(parse)
    {
      if session.None? {
        session := Some([]);
      }
      if flagEnd {
        voiceCache := voiceCache + [p];
      } else {
        ghost var s0 := session.value;
        ghost var c0 := voiceCache;
        while voiceCache != []
          invariant session.Some? && session.value + voiceCache == s0 + c0
          invariant flagEnd == old(flagEnd) && flagFinal == old(flagFinal) && parse == old(parse)
          decreases |voiceCache|
        {
          var x := voiceCache[0];
          assert voiceCache == [x] + voiceCache[1..];
          voiceCache := voiceCache[1..];
          session := Some(session.value + [x]);
        }
        assert session.value == s0 + c0;
        session := Some(session.value + [p]);
      }
    }

    /** The handler of one stream entry: the message to send, or None when it throws. */
    method OnEntry(id: string, fields: seq<string>) returns (msg: Option<WsMessage>)
      requires Valid()
      modifies this
      ensures Valid() && parse == MarkRtp(old(parse))
      ensures msg == Outgoing(query, id, fields)
      ensures VoiceFor(query, fields).None? ==>
        session == old(session) && voiceCache == old(voiceCache)
      ensures VoiceFor(query, fields).Some? ==>
        (session, voiceCache) == Voiced(old(flagEnd), old(session), old(voiceCache), VoiceFor(query, fields).value)
      ensures flagEnd == old(flagEnd) && flagFinal == old(flagFinal)
    {
      var data := Decode(fields);
      MarkRtpNoEffect(parse, RtpFlag);
      MarkRtpNoEffect(parse, RealtimeTextFlag);
      parse := MarkRtp(parse);
      var step := ParseRtp(Includes(parse, RtpFlag), data);
      if step.Threw? {
        return None;
      }
      data := step.data;
      if step.rtpPayload.Some? && Includes(parse, RealtimeTextFlag) {
        OnVoice(step.rtpPayload.value);
      }
      data := ApplyFilter(data, query.filter);
      msg := Some(WsMessage(id, data));
    }
  }

  // ---------------------------------------------------------------------------------------
  // The server's connection lists

  /** `list.filter(curr => curr !== c)`. */
  function Without(s: seq<nat>, c: nat): (r: seq<nat>)
    ensures forall x :: x in r <==> x in s && x != c
    ensures |r| <= |s|
  {
    if s == [] then []
    else if s[0] == c then Without(s[1..], c)
    else [s[0]] + Without(s[1..], c)
  }

  class Server {
    var webConnections: seq<nat>
    /** The global that the HTTP close handler assigns. */
    var connections: seq<nat>
    var websocketConnections: seq<nat>
    /** The global `websocket`: the most recently connected socket. */
    var websocket: Option<nat>
    /** Messages sent, with the socket each went to. */
    var outbox: seq<(nat, WsMessage)>

    constructor ()
      ensures webConnections == [] && connections == [] && websocketConnections == []
      ensures websocket == None && outbox == []
    {
      webConnections := [];
      connections := [];
      websocketConnections := [];
      websocket := None;
      outbox := [];
    }

    method OnWebConnection(c: nat)
      modifies this
      ensures webConnections == old(webConnections) + [c]
      ensures connections == old(connections) && websocketConnections == old(websocketConnections)
      ensures websocket == old(websocket) && outbox == old(outbox)
    {
      webConnections := webConnections + [c];
    }

    /** An HTTP connection closes: the filtered list goes to the other global, so
        `webConnections` keeps the closed connection. */
    method OnWebClose(c: nat)
      modifies this
      ensures connections == Without(webConnections, c) && c !in connections
      ensures webConnections == old(webConnections)
      ensures websocketConnections == old(websocketConnections)
      ensures websocket == old(websocket) && outbox == old(outbox)
    {
      connections := Without(webConnections, c);
    }

    /** A WebSocket connects: it becomes the global `websocket` and joins the list; without
        a key it is closed, yet the handler subscribes to the stream of key null. */
    method OnWsConnection(ws: nat, entries: seq<(string, string)>)
      returns (conn: Connection, closed: bool, subscribed: Option<string>)
      modifies this
      ensures websocket == Some(ws) && websocketConnections == old(websocketConnections) + [ws]
      ensures fresh(conn) && conn.socket == ws && conn.query == ReadQuery(entries) && conn.Valid()
      ensures !conn.flagEnd && !conn.flagFinal && conn.session == None && conn.voiceCache == []
      ensures closed <==> ReadQuery(entries).key.None?
      ensures subscribed == ReadQuery(entries).key
      ensures webConnections == old(webConnections) && connections == old(connections) && outbox == old(outbox)
    {
      websocket := Some(ws);
      websocketConnections := websocketConnections + [ws];
      var q := ReadQuery(entries);
      conn := new Connection(ws, q);
      closed := q.key.None?;
      subscribed := q.key;
    }

    /** A WebSocket closes: `splice(indexOf(websocket), 1)` with the global, so the socket
        removed is the most recently connected one, whichever socket closed. */
    method OnWsClose(closing: nat)
      requires websocket.Some?
      modifies this
      ensures websocket == old(websocket) && webConnections == old(webConnections)
      ensures websocketConnections == SpliceOne(old(websocketConnections), IndexOf(old(websocketConnections), websocket.value))
      ensures connections == old(connections) && outbox == old(outbox)
    {
      websocketConnections := SpliceOne(websocketConnections, IndexOf(websocketConnections, websocket.value));
    }

    /** A stream entry for a connection: its message goes to the global `websocket`, which
        is the most recently connected socket, not necessarily the connection's own. */
    method Deliver(conn: Connection, id: string, fields: seq<string>) returns (thrown: bool)
      requires websocket.Some? && conn.Valid()
      modifies this, conn
      ensures thrown <==> Outgoing(conn.query, id, fields).None?
      ensures websocket == old(websocket)
      ensures !thrown ==> outbox == old(outbox) + [(websocket.value, Outgoing(conn.query, id, fields).value)]
      ensures thrown ==> outbox == old(outbox)
      ensures websocket == old(websocket) && websocketConnections == old(websocketConnections)
      ensures webConnections == old(webConnections) && connections == old(connections)
      ensures conn.Valid() && conn.parse == MarkRtp(old(conn.parse))
      ensures conn.flagEnd == old(conn.flagEnd) && conn.flagFinal == old(conn.flagFinal)
      ensures VoiceFor(conn.query, fields).None? ==>
        conn.session == old(conn.session) && conn.voiceCache == old(conn.voiceCache)
      ensures VoiceFor(conn.query, fields).Some? ==>
        (conn.session, conn.voiceCache) ==
        Voiced(old(conn.flagEnd), old(conn.session), old(conn.voiceCache), VoiceFor(conn.query, fields).value)
    {
      var msg := conn.OnEntry(id, fields);
      if msg.None? {
        return true;
      }
      outbox := outbox + [(websocket.value, msg.value)];
      thrown := false;
    }
  }

  /** Closing a socket that is not the latest leaves it in the list and removes the latest
      one. */
  lemma CloseRemovesLatest(list: seq<nat>, latest: nat, closing: nat)
    requires latest in list && closing != latest
    ensures var r := SpliceOne(list, IndexOf(list, latest));
      multiset(r) == multiset(list) - multiset{latest}
      && (closing in list ==> closing in r)
  {
    SpliceFound(list, latest, IndexOf(list, latest));
    if closing in list {
      assert closing in multiset(list);
    }
  }
}
