/** The reader behind every key the server streams (StreamServer/api/redis-stream.js).
    A reader polls XREAD from a cursor, emits every entry of a reply in order and moves its
    cursor to an entry id only when that id is later than the cursor. A module-level
    dictionary keeps one reader per key until the reader is torn down.

    Entry ids are texts "millis-seq". The cursor starts at `startId`, "$" by default, which
    XREAD reads as "only entries added from now on". */
module RedisStream {
  import opened Wrappers
  import opened Text

  /** The id text Redis gives the entry with the given millisecond time and sequence
      number. */
  function IdText(ms: nat, sq: nat): string {
    Decimal(ms) + "-" + Decimal(sq)
  }

  /** `Number(pieces[i])`, where reading past the end gives `undefined`, hence NaN. */
  function Part(pieces: seq<string>, i: nat): JsNumber {
    if i < |pieces| then ToNumber(pieces[i]) else NaN
  }

  /** The test the reader applies to each delivered entry id: an empty cursor always
      adopts; otherwise both ids are split at '-', the cursor with its "$" read as "0-0",
      and the id must be larger in millis, or equal in millis and larger in sequence. */
  predicate Adopts(cursor: string, id: string) {
    cursor == "" ||
    (var last := Split(id, '-');
     var next := Split(ReplaceFirst(cursor, '$', "0-0"), '-');
     Greater(Part(last, 0), Part(next, 0)) ||
     (SameNumber(Part(last, 0), Part(next, 0)) && Greater(Part(last, 1), Part(next, 1))))
  }

  /** The cursor after one delivered entry. */
  function Advance(cursor: string, id: string): (next: string)
    ensures next == id || next == cursor
    ensures cursor == "" ==> next == id
  {
    if Adopts(cursor, id) then id else cursor
  }

  /** The cursor after the entries with the given ids were delivered in order. */
  function AdvanceAll(cursor: string, ids: seq<string>): string
    decreases |ids|
  {
    if ids == [] then cursor else Advance(AdvanceAll(cursor, ids[..|ids| - 1]), ids[|ids| - 1])
  }

  /** (millis, seq) order of entry ids. */
  predicate Later(a: nat, b: nat, c: nat, d: nat) {
    a > c || (a == c && b > d)
  }

  lemma SplitIdText(ms: nat, sq: nat)
    ensures Split(IdText(ms, sq), '-') == [Decimal(ms), Decimal(sq)]
  {
    DecimalRoundTrip(ms);
    DecimalRoundTrip(sq);
    DigitsExclude(Decimal(ms), '-');
    DigitsExclude(Decimal(sq), '-');
    SplitAtSep(Decimal(ms), '-', Decimal(sq));
    SplitNoSep(Decimal(sq), '-');
  }

  /** Between two ids as Redis writes them the test is exactly the numeric (millis, seq)
      order: the cursor moves forward and never back or sideways. */
  lemma AdoptsInOrder(ms: nat, sq: nat, cms: nat, csq: nat)
    ensures Adopts(IdText(cms, csq), IdText(ms, sq)) <==> Later(ms, sq, cms, csq)
  {
    SplitIdText(ms, sq);
    SplitIdText(cms, csq);
    ToNumberDecimal(ms);
    ToNumberDecimal(sq);
    ToNumberDecimal(cms);
    ToNumberDecimal(csq);
    NoDollarInId(cms, csq);
  }

  lemma NoDollarInId(ms: nat, sq: nat)
    ensures ReplaceFirst(IdText(ms, sq), '$', "0-0") == IdText(ms, sq)
  {
    DecimalRoundTrip(ms);
    DecimalRoundTrip(sq);
    DigitsExclude(Decimal(ms), '$');
    DigitsExclude(Decimal(sq), '$');
    assert '$' !in IdText(ms, sq);
  }

  /** The start cursor "$" is compared as "0-0", so the first entry above 0-0 is adopted,
      and an empty cursor adopts whatever comes. */
  lemma AdoptsFromStart(ms: nat, sq: nat, id: string)
    ensures Adopts("$", IdText(ms, sq)) <==> Later(ms, sq, 0, 0)
    ensures Adopts("", id)
  {
    assert ReplaceFirst("$", '$', "0-0") == "0-0";
    assert IdText(0, 0) == "0-0";
    AdoptsInOrder(ms, sq, 0, 0);
    assert ReplaceFirst(IdText(0, 0), '$', "0-0") == "0-0";
  }

  /** A cursor the reader can hold when every id it is given comes from Redis: the start
      "$" or the id of an entry. */
  datatype Position = Start | At(ms: nat, sq: nat)

  function Render(p: Position): string {
    match p
    case Start => "$"
    case At(ms, sq) => IdText(ms, sq)
  }

  /** The (millis, seq) a position compares as. */
  function Millis(p: Position): nat { if p.Start? then 0 else p.ms }
  function Seq(p: Position): nat { if p.Start? then 0 else p.sq }

  /** One delivery over positions: move to the id exactly when it is later. */
  function Step(p: Position, ms: nat, sq: nat): (q: Position)
    ensures !Later(Millis(p), Seq(p), Millis(q), Seq(q))
    ensures !Later(ms, sq, Millis(q), Seq(q))
  {
    if Later(ms, sq, Millis(p), Seq(p)) then At(ms, sq) else p
  }

  lemma AdvanceRendered(p: Position, ms: nat, sq: nat)
    ensures Advance(Render(p), IdText(ms, sq)) == Render(Step(p, ms, sq))
  {
    match p {
      case Start => AdoptsFromStart(ms, sq, "");
      case At(cms, csq) => AdoptsInOrder(ms, sq, cms, csq);
    }
  }

  function Ids(ids: seq<(nat, nat)>): (r: seq<string>)
    ensures |r| == |ids|
    decreases |ids|
  {
    if ids == [] then [] else Ids(ids[..|ids| - 1]) + [IdText(ids[|ids| - 1].0, ids[|ids| - 1].1)]
  }

  function StepAll(p: Position, ids: seq<(nat, nat)>): Position
    decreases |ids|
  {
    if ids == [] then p else
      var q := StepAll(p, ids[..|ids| - 1]);
      Step(q, ids[|ids| - 1].0, ids[|ids| - 1].1)
  }

  /** Delivering Redis ids to a rendered cursor is running `Step` over the positions. */
  lemma {:induction false} AdvanceAllRendered(p: Position, ids: seq<(nat, nat)>)
    ensures AdvanceAll(Render(p), Ids(ids)) == Render(StepAll(p, ids))
    decreases |ids|
  {
    if ids != [] {
      var n := |ids| - 1;
      AdvanceAllRendered(p, ids[..n]);
      AdvanceRendered(StepAll(p, ids[..n]), ids[n].0, ids[n].1);
      assert Ids(ids)[..n] == Ids(ids[..n]);
    }
  }

  /** Over any run of deliveries the position is the largest id seen so far (or the start
      it had): it never decreases, and no delivered id is later than it. */
  lemma {:induction false} StepAllIsMaximum(p: Position, ids: seq<(nat, nat)>)
    ensures !Later(Millis(p), Seq(p), Millis(StepAll(p, ids)), Seq(StepAll(p, ids)))
    ensures forall k | 0 <= k < |ids| ::
      !Later(ids[k].0, ids[k].1, Millis(StepAll(p, ids)), Seq(StepAll(p, ids)))
    decreases |ids|
  {
    if ids != [] {
      var n := |ids| - 1;
      StepAllIsMaximum(p, ids[..n]);
      forall k | 0 <= k < n
        ensures !Later(ids[k].0, ids[k].1, Millis(StepAll(p, ids)), Seq(StepAll(p, ids)))
      {
        assert ids[k] == ids[..n][k];
      }
    }
  }

  /** The cursor a reader holds after any run of Redis ids is the largest of them and of
      its start: it never decreases. */
  lemma CursorIsMaximum(p: Position, ids: seq<(nat, nat)>)
    ensures AdvanceAll(Render(p), Ids(ids)) == Render(StepAll(p, ids))
    ensures !Later(Millis(p), Seq(p), Millis(StepAll(p, ids)), Seq(StepAll(p, ids)))
    ensures forall k | 0 <= k < |ids| ::
      !Later(ids[k].0, ids[k].1, Millis(StepAll(p, ids)), Seq(StepAll(p, ids)))
  {
    AdvanceAllRendered(p, ids);
    StepAllIsMaximum(p, ids);
  }

  /** The arguments of the next XREAD: a blocking read of up to 100 entries while the
      cursor is still "$", a 10 ms poll of up to 10000 entries once it holds an id. */
  function ReadArgs(key: string, cursor: string): (args: seq<string>)
    ensures |args| == 7 && args[4] == "STREAMS" && args[5] == key && args[6] == cursor
    ensures cursor == "$" <==> args[1] == "0" && args[3] == "100"
    ensures cursor != "$" <==> args[1] == "10" && args[3] == "10000"
  {
    if cursor == "$" then ["BLOCK", "0", "COUNT", "100", "STREAMS", key, cursor]
    else ["BLOCK", "10", "COUNT", "10000", "STREAMS", key, cursor]
  }

  /** Once an id from Redis has been adopted the reader stays on the fast poll. */
  lemma PollAfterAdoption(key: string, p: Position, ids: seq<(nat, nat)>)
    requires StepAll(p, ids) != Start
    ensures ReadArgs(key, AdvanceAll(Render(p), Ids(ids)))[1] == "10"
  {
    CursorIsMaximum(p, ids);
    var q := StepAll(p, ids);
    assert Render(q)[|Decimal(q.ms)|] == '-';
  }

  /** One entry of an XREAD reply: its id and its flat name/value list. */
  datatype Entry = Entry(id: string, fields: seq<string>)

  /** One stream of an XREAD reply. */
  datatype StreamReply = StreamReply(key: string, entries: seq<Entry>)

  /** The entries of a reply, streams flattened in order; a timed-out read (null) emits
      nothing. */
  function Flatten(streams: seq<StreamReply>): seq<Entry>
    decreases |streams|
  {
    if streams == [] then [] else Flatten(streams[..|streams| - 1]) + streams[|streams| - 1].entries
  }

  function EntryIds(es: seq<Entry>): (ids: seq<string>)
    ensures |ids| == |es| && forall i | 0 <= i < |es| :: ids[i] == es[i].id
  {
    seq(|es|, i requires 0 <= i < |es| => es[i].id)
  }

  lemma DeliverOneMore(cursor: string, es: seq<Entry>, j: nat)
    requires j < |es|
    ensures AdvanceAll(cursor, EntryIds(es[..j + 1])) == Advance(AdvanceAll(cursor, EntryIds(es[..j])), es[j].id)
  {
    assert EntryIds(es[..j + 1])[..j] == EntryIds(es[..j]);
  }

  /** The cursor after a batch is the cursor it started from or one of the batch's ids. */
  lemma {:induction false} AdvanceAllPicks(cursor: string, ids: seq<string>)
    ensures AdvanceAll(cursor, ids) == cursor || AdvanceAll(cursor, ids) in ids
  {
    if ids != [] {
      AdvanceAllPicks(cursor, ids[..|ids| - 1]);
    }
  }

  /** Delivering two runs of entries one after the other is delivering their
      concatenation. */
  lemma {:induction false} AdvanceAllAppend(cursor: string, a: seq<string>, b: seq<string>)
    ensures AdvanceAll(AdvanceAll(cursor, a), b) == AdvanceAll(cursor, a + b)
    decreases |b|
  {
    if b != [] {
      var n := |b| - 1;
      AdvanceAllAppend(cursor, a, b[..n]);
      assert (a + b)[..|a + b| - 1] == a + b[..n];
      assert (a + b)[|a + b| - 1] == b[n];
      calc {
        AdvanceAll(AdvanceAll(cursor, a), b);
        Advance(AdvanceAll(AdvanceAll(cursor, a), b[..n]), b[n]);
        Advance(AdvanceAll(cursor, a + b[..n]), b[n]);
        AdvanceAll(cursor, a + b);
      }
    } else {
      assert a + b == a;
    }
  }

  lemma EntryIdsAppend(a: seq<Entry>, b: seq<Entry>)
    ensures EntryIds(a + b) == EntryIds(a) + EntryIds(b)
  {
  }

  lemma FlattenOneMore(streams: seq<StreamReply>, i: nat)
    requires i < |streams|
    ensures Flatten(streams[..i + 1]) == Flatten(streams[..i]) + streams[i].entries
  {
    assert streams[..i + 1][..i] == streams[..i];
  }

  /** One reader: the per-key state of `observeNewRedisStreamEvent`. */
  class StreamReader {
    const key: string
    var cursor: string
    var closed: bool

    constructor (key: string, startId: string)
      ensures this.key == key && cursor == startId && !closed
    {
      this.key := key;
      cursor := startId;
      closed := false;
    }

    /** The XREAD this reader issues next. */
    function NextRead(): seq<string>
      reads this
    {
      ReadArgs(key, cursor)
    }

    /** The `do` step run for every emitted entry. */
    method Deliver(id: string)
      modifies this
      ensures cursor == Advance(old(cursor), id) && closed == old(closed)
    {
      if Adopts(cursor, id) {
        cursor := id;
      }
    }

    /** The entries of one stream of a reply, in order, each passing through
        `Deliver`. */
    method DeliverEntries(entries: seq<Entry>)
      modifies this
      ensures cursor == AdvanceAll(old(cursor), EntryIds(entries)) && closed == old(closed)
    {
      ghost var start := cursor;
      var j := 0;
      while j < |entries|
        invariant 0 <= j <= |entries|
        invariant cursor == AdvanceAll(start, EntryIds(entries[..j])) && closed == old(closed)
      {
        DeliverOneMore(start, entries, j);
        Deliver(entries[j].id);
        j := j + 1;
      }
      assert entries[..j] == entries;
    }

    /** One XREAD reply: every entry is emitted in the order returned, streams flattened
        in order, each entry passing through `Deliver`; a timed-out read (null) emits
        nothing. */
    method DeliverReply(reply: Option<seq<StreamReply>>) returns (emitted: seq<Entry>)
      modifies this
      ensures emitted == (if reply.Some? then Flatten(reply.value) else [])
      ensures cursor == AdvanceAll(old(cursor), EntryIds(emitted)) && closed == old(closed)
    {
      emitted := [];
      if reply.None? {
        return;
      }
      var streams := reply.value;
      var i := 0;
      while i < |streams|
        invariant 0 <= i <= |streams|
        invariant emitted == Flatten(streams[..i])
        invariant cursor == AdvanceAll(old(cursor), EntryIds(emitted)) && closed == old(closed)
      {
        DeliverEntries(streams[i].entries);
        AdvanceAllAppend(old(cursor), EntryIds(emitted), EntryIds(streams[i].entries));
        EntryIdsAppend(emitted, streams[i].entries);
        FlattenOneMore(streams, i);
        emitted := emitted + streams[i].entries;
        i := i + 1;
      }
      assert streams[..i] == streams;
    }
  }

  /** The module-level `cache`: at most one reader per key. */
  class ReaderCache {
    var readers: map<string, StreamReader>

    constructor ()
      ensures readers == map[]
    {
      readers := map[];
    }

    /** A key already cached gets its reader back and `startId` is ignored; any other key
        gets a fresh reader starting at `startId`, now cached. */
    method Get(key: string, startId: string) returns (r: StreamReader)
      modifies this
      ensures key in old(readers) ==> r == old(readers)[key] && readers == old(readers)
      ensures key !in old(readers) ==>
        fresh(r) && r.key == key && r.cursor == startId && !r.closed && readers == old(readers)[key := r]
    {
      if key in readers {
        r := readers[key];
      } else {
        r := new StreamReader(key, startId);
        readers := readers[key := r];
      }
    }

    /** The `finally` step: the connection is quit and the key leaves the cache, so the
        next `Get` for it builds a fresh reader. */
    method Teardown(key: string)
      modifies this, if key in readers then {readers[key]} else {}
      ensures readers == old(readers) - {key}
      ensures key in old(readers) ==> old(readers)[key].closed
    {
      if key in readers {
        readers[key].closed := true;
      }
      readers := readers - {key};
    }
  }
}
