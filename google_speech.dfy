/** The speech forwarder of the stream server (StreamServer/api/google-speech.js): it keeps
    one streaming-recognition session open, writes RTP voice payloads into it, and ends the
    session after a run of quiet chunks. Loudness is the median magnitude of the decoded
    mu-law samples, and the median is taken after JavaScript's default `sort`, which orders
    numbers as their decimal TEXT ("100" before "9"). */
module Speech {
  import opened Wrappers
  import opened Text
  import opened Encoding
  import opened JsArray

  const SilenceLevelThreshold := 200
  const SilenceCountThreshold := 50

  /** A registered callback: a function's identity, or `undefined`. */
  type Callback = Option<nat>

  /** The streaming-recognition session as the forwarder sees it: the `data` listeners in the
      order they were added, the chunks written, and whether `end()` or `destroy()` ran. */
  datatype Session = Session(listeners: seq<nat>, written: seq<seq<byte>>, ended: bool, destroyed: bool)

  /** `writable && !destroyed`: `end()` clears `writable`. */
  predicate Live(s: Session) {
    !s.ended && !s.destroyed
  }

  /** Whether `sendChunk` opens a new session first. */
  predicate Reopens(s: Option<Session>) {
    s.None? || !Live(s.value)
  }

  /** The listeners attached by `forEach(cb => stream.on('data', cb))`: the callbacks up to
      the first undefined one, where `on` throws. */
  function DefinedPrefix(cbs: seq<Callback>): (r: seq<nat>)
    ensures |r| <= |cbs|
    ensures forall i :: 0 <= i < |r| ==> cbs[i] == Some(r[i])
    ensures |r| < |cbs| ==> cbs[|r|].None?
    ensures |r| == |cbs| <==> None !in cbs
  {
    if cbs == [] || cbs[0].None? then [] else [cbs[0].value] + DefinedPrefix(cbs[1..])
  }

  /** A list of functions matching the callbacks one by one up to an undefined one or the end
      is the attached prefix. */
  lemma {:induction false} DefinedPrefixUnique(cbs: seq<Callback>, l: seq<nat>)
    requires |l| <= |cbs|
    requires forall i :: 0 <= i < |l| ==> cbs[i] == Some(l[i])
    requires |l| < |cbs| ==> cbs[|l|].None?
    ensures DefinedPrefix(cbs) == l
  {
    if l != [] {
      DefinedPrefixUnique(cbs[1..], l[1..]);
      assert l == [l[0]] + l[1..];
    }
  }

  /** A session just opened with every callback attached that could be. */
  function Fresh(cbs: seq<Callback>): (r: Session)
    ensures Live(r) && r.written == [] && |r.listeners| <= |cbs|
  {
    Session(DefinedPrefix(cbs), [], false, false)
  }

  /** The session `sendChunk` writes into. */
  function Current(s: Option<Session>, cbs: seq<Callback>): (r: Session)
    ensures Live(r)
  {
    if Reopens(s) then Fresh(cbs) else s.value
  }

  /** The cached chunks are written first, in order; then the chunk itself, unless the quiet
      run has just reached the threshold, in which case the session is ended instead. */
  function Delivered(s: Session, cache: seq<seq<byte>>, chunk: seq<byte>, counter: nat): (r: Session)
    ensures r.listeners == s.listeners && r.destroyed == s.destroyed
    ensures r.ended <==> s.ended || counter == SilenceCountThreshold
    ensures |s.written + cache| <= |r.written| <= |s.written + cache| + 1
    ensures r.written[..|s.written + cache|] == s.written + cache
  {
    if counter == SilenceCountThreshold then s.(written := s.written + cache, ended := true)
    else s.(written := s.written + cache + [chunk])
  }

  // ---------------------------------------------------------------------------------------
  // The median of the magnitudes, in text order

  /** `a` sorts before or with `b` under the default `sort`: their decimal texts compare. */
  predicate TextLe(a: nat, b: nat) {
    LexLe(Decimal(a), Decimal(b))
  }

  predicate SortedByText(t: seq<nat>) {
    forall i, j :: 0 <= i < j < |t| ==> TextLe(t[i], t[j])
  }

  function Insert(x: nat, t: seq<nat>): (r: seq<nat>)
    ensures multiset(r) == multiset(t) + multiset{x}
  {
    if t == [] then [x]
    else if TextLe(x, t[0]) then [x] + t
    else
      assert t == [t[0]] + t[1..];
      [t[0]] + Insert(x, t[1..])
  }

  /** `arr.sort()` on numbers. */
  function SortByText(xs: seq<nat>): (t: seq<nat>)
    ensures multiset(t) == multiset(xs)
  {
    if xs == [] then []
    else
      assert xs == [xs[0]] + xs[1..];
      Insert(xs[0], SortByText(xs[1..]))
  }

  lemma {:induction false} InsertSorted(x: nat, t: seq<nat>)
    requires SortedByText(t)
    ensures SortedByText(Insert(x, t))
  {
    if t == [] {
    } else if TextLe(x, t[0]) {
      forall j | 0 <= j < |t| ensures TextLe(x, t[j]) {
        if j > 0 {
          LexLeTransitive(Decimal(x), Decimal(t[0]), Decimal(t[j]));
        }
      }
    } else {
      LexLeTotal(Decimal(x), Decimal(t[0]));
      InsertSorted(x, t[1..]);
      var r := Insert(x, t[1..]);
      forall k | 0 <= k < |r| ensures TextLe(t[0], r[k]) {
        assert r[k] in multiset(r);
        assert r[k] == x || r[k] in multiset(t[1..]);
        if r[k] != x {
          var j :| 0 <= j < |t[1..]| && t[1..][j] == r[k];
          assert t[j + 1] == r[k];
        }
      }
    }
  }

  /** The default sort yields its input, reordered into text order. */
  lemma {:induction false} SortByTextSorted(xs: seq<nat>)
    ensures SortedByText(SortByText(xs))
    ensures multiset(SortByText(xs)) == multiset(xs)
  {
    if xs != [] {
      SortByTextSorted(xs[1..]);
      InsertSorted(xs[0], SortByText(xs[1..]));
    }
  }

  /** Twice the `median` helper's result: the middle element of the text-sorted list, or
      the sum of the two middle ones; an empty list gives NaN. */
  function TwiceMedian(magnitudes: seq<nat>): (m: Option<nat>)
    ensures m.None? <==> magnitudes == []
  {
    if magnitudes == [] then None
    else
      var t := SortByText(magnitudes);
      assert |t| == |multiset(t)| == |magnitudes|;
      var half := |t| / 2;
      if |t| % 2 == 1 then Some(2 * t[half]) else Some(t[half - 1] + t[half])
  }

  function Magnitudes(decoded: seq<int>): seq<nat> {
    seq(|decoded|, i requires 0 <= i < |decoded| => if decoded[i] < 0 then -decoded[i] else decoded[i])
  }

  /** `median(...) < SILENCE_LEVEL_THRESHOLD`; NaN compares false. */
  predicate Quiet(decoded: seq<int>)
    ensures Quiet(decoded) ==> decoded != []
  {
    var m := TwiceMedian(Magnitudes(decoded));
    m.Some? && m.value < 2 * SilenceLevelThreshold
  }

  /** An empty chunk's median is NaN, so it counts as loud. */
  lemma EmptyChunkLoud()
    ensures !Quiet([])
  {
  }

  lemma Decimal100()
    ensures Decimal(100) == "100"
  {
    assert Decimal(10) == "10";
  }

  lemma Decimal1000()
    ensures Decimal(1000) == "1000"
  {
    Decimal100();
  }

  lemma SortPair(b: nat, c: nat)
    requires TextLe(b, c)
    ensures SortByText([b, c]) == [b, c]
  {
    assert [b, c][1..] == [c];
    assert [c][1..] == [];
  }

  lemma InsertLastOfThree(a: nat, b: nat, c: nat)
    requires !TextLe(a, b) && !TextLe(a, c)
    ensures Insert(a, [b, c]) == [b, c, a]
  {
    assert [b, c][1..] == [c];
    assert Insert(a, [c]) == [c, a];
  }

  lemma SortThree(a: nat, b: nat, c: nat)
    requires TextLe(b, c) && !TextLe(a, b) && !TextLe(a, c)
    ensures SortByText([a, b, c]) == [b, c, a]
  {
    assert [a, b, c][1..] == [b, c];
    SortPair(b, c);
    InsertLastOfThree(a, b, c);
  }

  /** The default sort puts 9 after 1000. */
  lemma TextOrderSort()
    ensures SortByText([9, 100, 1000]) == [100, 1000, 9]
  {
    Decimal100();
    Decimal1000();
    assert Decimal(9) == "9";
    SortThree(9, 100, 1000);
  }

  /** The middle of the text-sorted list is 1000, where the numeric median is 100. */
  lemma TextOrderMedian()
    ensures TwiceMedian([9, 100, 1000]) == Some(2000)
  {
    TextOrderSort();
    MiddleOfThree([9, 100, 1000], [100, 1000, 9]);
  }

  lemma MiddleOfThree(xs: seq<nat>, t: seq<nat>)
    requires |xs| == 3 && SortByText(xs) == t
    ensures TwiceMedian(xs) == Some(2 * t[1])
  {
  }

  /** Samples of magnitudes 9, 100 and 1000 make a loud chunk, though their numeric median
      is below the threshold. */
  lemma TextOrderLoud()
    ensures !Quiet([-9, 100, -1000])
  {
    var m := Magnitudes([-9, 100, -1000]);
    assert m[0] == 9 && m[1] == 100 && m[2] == 1000;
    assert m == [9, 100, 1000];
    TextOrderMedian();
  }

  // ---------------------------------------------------------------------------------------
  // The silence counter

  function NextCounter(counter: nat, quiet: bool): (next: nat)
    ensures next == 0 <==> !quiet
    ensures quiet ==> next > counter
  {
    if quiet then counter + 1 else 0
  }

  /** The counter after a series of chunks, oldest first, each seen only as quiet or loud. */
  function CounterAfter(counter: nat, quiet: seq<bool>): nat {
    if quiet == [] then counter
    else NextCounter(CounterAfter(counter, quiet[..|quiet| - 1]), quiet[|quiet| - 1])
  }

  function Min(a: nat, b: nat): nat {
    if a < b then a else b
  }

  /** The counter is the length of the run of quiet chunks at the end: the last `c` chunks
      are quiet, the one before them is loud, and if every chunk is quiet the counter has
      climbed from where it started. */
  lemma {:induction false} CounterCountsQuietRun(counter: nat, quiet: seq<bool>)
    ensures var c := CounterAfter(counter, quiet);
      (forall j :: |quiet| - Min(c, |quiet|) <= j < |quiet| ==> quiet[j])
      && (c < |quiet| ==> !quiet[|quiet| - c - 1])
      && (c >= |quiet| ==> c == counter + |quiet|)
  {
    if quiet != [] {
      var n := |quiet|;
      var init := quiet[..n - 1];
      CounterCountsQuietRun(counter, init);
      var c0 := CounterAfter(counter, init);
      var c := CounterAfter(counter, quiet);
      if quiet[n - 1] {
        assert c == c0 + 1;
        forall j | n - Min(c, n) <= j < n ensures quiet[j] {
          if j < n - 1 {
            assert init[j] == quiet[j];
          }
        }
        if c < n {
          assert init[n - 1 - c0 - 1] == quiet[n - c - 1];
        }
      }
    }
  }

  /** The session is ended by the chunk that makes the fiftieth quiet chunk in a row, and by
      no other: from a reset counter, the counter equals n exactly when the last n chunks
      are quiet and the one before them (if any) is loud. */
  lemma SilenceRun(quiet: seq<bool>, n: nat)
    requires n <= |quiet|
    ensures CounterAfter(0, quiet) == n <==>
      (forall j :: |quiet| - n <= j < |quiet| ==> quiet[j])
      && (n < |quiet| ==> !quiet[|quiet| - n - 1])
  {
    CounterCountsQuietRun(0, quiet);
  }

  // ---------------------------------------------------------------------------------------
  // The forwarder

  /** One forwarder per speech direction. `decode` stands for the mu-law decoder of the
      `alawmulaw` package, which this model does not describe. */
  class GoogleSpeech {
    var callbacks: seq<Callback>
    var session: Option<Session>
    var voiceCache: seq<seq<byte>>
    var silenceCounter: nat
    const decode: seq<byte> -> seq<int>

    constructor (speechCallback: Callback, decode: seq<byte> -> seq<int>)
      ensures callbacks == [speechCallback] && session == None
      ensures voiceCache == [] && silenceCounter == 0 && this.decode == decode
    {
      callbacks := [speechCallback];
      session := None;
      voiceCache := [];
      silenceCounter := 0;
      this.decode := decode;
    }

    /** `registerCallback`: the callback is remembered, and attached to an existing session
        even when that session is ended or destroyed; attaching undefined throws after it
        was remembered. */
    method RegisterCallback(cb: Callback) returns (thrown: bool)
      modifies this
      ensures callbacks == old(callbacks) + [cb]
      ensures thrown <==> old(session).Some? && cb.None?
      ensures session == if old(session).Some? && cb.Some?
        then Some(old(session).value.(listeners := old(session).value.listeners + [cb.value]))
        else old(session)
      ensures voiceCache == old(voiceCache) && silenceCounter == old(silenceCounter)
    {
      callbacks := callbacks + [cb];
      thrown := false;
      if session.Some? {
        if cb.None? {
          return true;
        }
        session := Some(session.value.(listeners := session.value.listeners + [cb.value]));
      }
    }

    /** `unregisterCallback`: `splice(indexOf(cb), 1)` removes the first occurrence, or the
        LAST callback when `cb` was never registered; the session drops the most recently
        added matching listener. */
    method UnregisterCallback(cb: Callback) returns (thrown: bool)
      modifies this
      ensures callbacks == SpliceOne(old(callbacks), IndexOf(old(callbacks), cb))
      ensures thrown <==> old(session).Some? && cb.None?
      ensures session == if old(session).Some? && cb.Some?
        then Some(old(session).value.(listeners := RemoveLastOccurrence(old(session).value.listeners, cb.value)))
        else old(session)
      ensures voiceCache == old(voiceCache) && silenceCounter == old(silenceCounter)
    {
      callbacks := SpliceOne(callbacks, IndexOf(callbacks, cb));
      thrown := false;
      if session.Some? {
        if cb.None? {
          return true;
        }
        session := Some(session.value.(listeners := RemoveLastOccurrence(session.value.listeners, cb.value)));
      }
    }

    /** The session's `error` handler: it acts on whatever session is current, removing
        every `data` listener and destroying it. */
    method OnSessionError()
      requires session.Some?
      modifies this
      ensures session == Some(old(session).value.(listeners := [], destroyed := true))
      ensures callbacks == old(callbacks) && voiceCache == old(voiceCache)
      ensures silenceCounter == old(silenceCounter)
    {
      session := Some(session.value.(listeners := [], destroyed := true));
    }

    /** A new session, with the callbacks attached one by one until an undefined one
        throws; the session stays current either way. */
    method OpenSession() returns (thrown: bool)
      modifies this
      ensures session == Some(Fresh(callbacks))
      ensures thrown <==> None in callbacks
      ensures callbacks == old(callbacks) && voiceCache == old(voiceCache)
      ensures silenceCounter == old(silenceCounter)
    {
      var listeners: seq<nat> := [];
      var i := 0;
      while i < |callbacks|
        invariant 0 <= i <= |callbacks| && |listeners| == i
        invariant forall k :: 0 <= k < i ==> callbacks[k] == Some(listeners[k])
      {
        if callbacks[i].None? {
          DefinedPrefixUnique(callbacks, listeners);
          session := Some(Session(listeners, [], false, false));
          return true;
        }
        listeners := listeners + [callbacks[i].value];
        i := i + 1;
      }
      DefinedPrefixUnique(callbacks, listeners);
      session := Some(Session(listeners, [], false, false));
      thrown := false;
    }

    /** `sendChunk`: reopen a dead session, update the silence counter from the chunk's
        median loudness, then flush the cache and write the chunk, or end the session when
        the quiet run reaches the threshold. Since a reopened session is live, the branch
        that caches a chunk is never taken and the cache stays as it was: empty. */
    method SendChunk(payload: Option<seq<byte>>) returns (thrown: bool)
      modifies this
      ensures callbacks == old(callbacks) && session.Some?
      ensures thrown <==> Reopens(old(session)) && None in callbacks
      ensures thrown ==> session == Some(Fresh(callbacks))
      ensures thrown || payload.None? ==>
        silenceCounter == old(silenceCounter) && voiceCache == old(voiceCache)
      ensures !thrown && payload.None? ==> session == Some(Current(old(session), callbacks))
      ensures !thrown && payload.Some? ==>
        silenceCounter == NextCounter(old(silenceCounter), Quiet(decode(payload.value)))
        && voiceCache == []
        && session == Some(Delivered(Current(old(session), callbacks), old(voiceCache), payload.value, silenceCounter))
    {
      if Reopens(session) {
        thrown := OpenSession();
        if thrown {
          return;
        }
      }
      thrown := false;
      if payload.Some? {
        var decoded := decode(payload.value);
        if Quiet(decoded) {
          silenceCounter := silenceCounter + 1;
        } else {
          silenceCounter := 0;
        }
        var s := session.value;
        if !Live(s) {
          // `voiceCache.push(rtp_payload)`: a session opened above is live, and a session
          // kept was live at the test above, so this branch is never taken.
          assert false;
        } else {
          s := FlushCache(s);
          if silenceCounter == SilenceCountThreshold {
            s := s.(ended := true);
          } else {
            s := s.(written := s.written + [payload.value]);
          }
          session := Some(s);
        }
      }
    }

    /** `while ((x = voiceCache.shift()) != undefined) stream.write(x)`: the cached chunks
        go into the session oldest first, and the cache is left empty. */
    method FlushCache(s0: Session) returns (s: Session)
      modifies this
      ensures s == s0.(written := s0.written + old(voiceCache)) && voiceCache == []
      ensures callbacks == old(callbacks) && session == old(session)
      ensures silenceCounter == old(silenceCounter)
    {
      s := s0;
      while voiceCache != []
        invariant s == s0.(written := s.written)
        invariant s.written + voiceCache == s0.written + old(voiceCache)
        invariant callbacks == old(callbacks) && session == old(session)
        invariant silenceCounter == old(silenceCounter)
        decreases |voiceCache|
      {
        var x := voiceCache[0];
        assert voiceCache == [x] + voiceCache[1..];
        voiceCache := voiceCache[1..];
        s := s.(written := s.written + [x]);
      }
    }
  }
}
