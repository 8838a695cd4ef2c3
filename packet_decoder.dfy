/** The packet decoder of the stream server and the front end: a Redis stream entry's flat
    field list `[name, value, name, value, ...]` becomes a record with `layer_2`, `layer_3`,
    `layer_4` and `payload` sub-objects (StreamServer/api/stream-manager.js, lines 53-77;
    the same loop is in FrontEnd/stream-manager.js and StreamServer/api/server.js). */
module PacketDecoder {
  import opened Wrappers
  import opened Text
  import opened Message

  /** The record every decoding starts from: four empty sub-objects. */
  function Initial(): (data: Data)
    ensures data.Keys == {"layer_2", "layer_3", "layer_4", "payload"}
    ensures forall sub :: sub in data ==> data[sub] == Record(map[])
  {
    map["layer_2" := Record(map[]), "layer_3" := Record(map[]),
        "layer_4" := Record(map[]), "payload" := Record(map[])]
  }

  /** The sub-object a name belongs to: the first of the four prefixes `layer_2_`,
      `layer_3_`, `layer_4_`, `payload_` that the name starts with. */
  function SubRecordOf(name: string): (sub: Option<string>)
    ensures sub.Some? ==> sub.value in Initial() && StartsWith(name, sub.value + "_")
    ensures sub.None? ==> forall s :: s in Initial() ==> !StartsWith(name, s + "_")
  {
    if StartsWith(name, "layer_2_") then Some("layer_2")
    else if StartsWith(name, "layer_3_") then Some("layer_3")
    else if StartsWith(name, "layer_4_") then Some("layer_4")
    else if StartsWith(name, "payload_") then Some("payload")
    else None
  }

  /** The value stored for a field: a name ending in "size" or "port" has its text turned
      into a number. */
  function Convert(name: string, text: string): (v: Value)
    ensures v.Num? <==> EndsWith(name, "size") || EndsWith(name, "port")
    ensures v.Str? ==> v.s == text
  {
    if EndsWith(name, "size") || EndsWith(name, "port") then Num(ToNumber(text)) else Str(text)
  }

  /** `data[sub][name] = v`: a write into a sub-object that a top-level field has replaced
      by a primitive is silently lost. */
  function Put(data: Data, sub: string, name: string, v: Value): Data {
    if sub in data && data[sub].Record? then data[sub := Record(data[sub].entries[name := v])]
    else data
  }

  /** Storing one field: under its sub-object with the prefix removed, or at top level. */
  function Store(data: Data, name: string, v: Value): Data {
    match SubRecordOf(name)
    case Some(sub) => Put(data, sub, name[|sub| + 1..], v)
    case None => data[name := Leaf(v)]
  }

  /** The record after the first `m` name/value pairs. */
  function DecodeUpTo(fields: seq<string>, m: nat): Data
    requires 2 * m <= |fields|
  {
    if m == 0 then Initial()
    else
      var name := fields[2 * (m - 1)];
      Store(DecodeUpTo(fields, m - 1), name, Convert(name, fields[2 * (m - 1) + 1]))
  }

  /** The decoded record: floor(n/2) pairs are read. */
  function Decoded(fields: seq<string>): Data {
    DecodeUpTo(fields, |fields| / 2)
  }

  /** The decoding loop, filling the record pair by pair. */
  method Decode(fields: seq<string>) returns (data: Data)
    ensures data == Decoded(fields)
  {
    data := Initial();
    for i := 0 to |fields| / 2
      invariant data == DecodeUpTo(fields, i)
    {
      data := StoreField(data, fields[i * 2], fields[i * 2 + 1]);
    }
  }

  /** One iteration of the loop: convert the value, then write it where its name says. */
  method StoreField(data0: Data, k: string, v: string) returns (data: Data)
    ensures data == Store(data0, k, Convert(k, v))
  {
    var value := if EndsWith(k, "size") || EndsWith(k, "port") then Num(ToNumber(v)) else Str(v);
    if StartsWith(k, "layer_2_") {
      data := Put(data0, "layer_2", k[8..], value);
    } else if StartsWith(k, "layer_3_") {
      data := Put(data0, "layer_3", k[8..], value);
    } else if StartsWith(k, "layer_4_") {
      data := Put(data0, "layer_4", k[8..], value);
    } else if StartsWith(k, "payload_") {
      data := Put(data0, "payload", k[8..], value);
    } else {
      data := data0[k := Leaf(value)];
    }
  }

  /** Decoding the first `m` pairs reads nothing past them. */
  lemma {:induction false} DecodeUpToPrefix(fields: seq<string>, other: seq<string>, m: nat)
    requires 2 * m <= |fields| && 2 * m <= |other| && fields[..2 * m] == other[..2 * m]
    ensures DecodeUpTo(fields, m) == DecodeUpTo(other, m)
  {
    if m > 0 {
      assert fields[..2 * (m - 1)] == other[..2 * (m - 1)] by {
        assert fields[..2 * (m - 1)] == fields[..2 * m][..2 * (m - 1)];
        assert other[..2 * (m - 1)] == other[..2 * m][..2 * (m - 1)];
      }
      DecodeUpToPrefix(fields, other, m - 1);
      assert fields[2 * (m - 1)] == fields[..2 * m][2 * (m - 1)];
      assert other[2 * (m - 1)] == other[..2 * m][2 * (m - 1)];
      assert fields[2 * (m - 1) + 1] == fields[..2 * m][2 * (m - 1) + 1];
      assert other[2 * (m - 1) + 1] == other[..2 * m][2 * (m - 1) + 1];
    }
  }

  /** A trailing name without a value is ignored. */
  lemma OddTailIgnored(fields: seq<string>, extra: string)
    requires |fields| % 2 == 0
    ensures Decoded(fields + [extra]) == Decoded(fields)
  {
    assert (fields + [extra])[..|fields|] == fields[..|fields|];
    DecodeUpToPrefix(fields + [extra], fields, |fields| / 2);
  }

  /** Two names under the same sub-object with the same remainder are the same name. */
  lemma SameSlot(a: string, b: string, sub: string)
    requires SubRecordOf(a) == Some(sub) && SubRecordOf(b) == Some(sub)
    requires a[|sub| + 1..] == b[|sub| + 1..]
    ensures a == b
  {
    assert a == a[..|sub| + 1] + a[|sub| + 1..];
    assert b == b[..|sub| + 1] + b[|sub| + 1..];
  }

  /** Storing a field leaves a sub-object member alone unless it writes that very slot or
      replaces the sub-object. */
  lemma StoreKeepsMember(data: Data, other: string, v: Value, sub: string, key: string)
    requires Member(data, sub, key).Some? && other != sub
    requires SubRecordOf(other) == Some(sub) ==> other[|sub| + 1..] != key
    ensures Member(Store(data, other, v), sub, key) == Member(data, sub, key)
  {
  }

  /** The four sub-objects stay in the record, and stay objects unless a field carries the
      sub-object's own name. */
  lemma {:induction false} SubRecordKept(fields: seq<string>, m: nat, sub: string)
    requires 2 * m <= |fields| && sub in Initial()
    requires forall j :: 0 <= j < m ==> fields[2 * j] != sub
    ensures sub in DecodeUpTo(fields, m) && DecodeUpTo(fields, m)[sub].Record?
  {
    if m > 0 {
      SubRecordKept(fields, m - 1, sub);
    }
  }

  /** A field whose name has none of the four prefixes ends up at top level with its
      converted value, unless a later pair carries the same name. */
  lemma {:induction false} DecodedTopLevel(fields: seq<string>, m: nat, i: nat)
    requires 2 * m <= |fields| && i < m
    requires SubRecordOf(fields[2 * i]).None?
    requires forall j :: i < j < m ==> fields[2 * j] != fields[2 * i]
    ensures var name := fields[2 * i];
      Lookup(DecodeUpTo(fields, m), name) == Some(Leaf(Convert(name, fields[2 * i + 1])))
  {
    if m - 1 > i {
      DecodedTopLevel(fields, m - 1, i);
    }
  }

  /** A field with a prefix ends up in its sub-object under the name without the prefix,
      unless a later pair carries the same name or some pair replaces the sub-object. */
  lemma {:induction false} DecodedInSubRecord(fields: seq<string>, m: nat, i: nat, sub: string)
    requires 2 * m <= |fields| && i < m
    requires SubRecordOf(fields[2 * i]) == Some(sub)
    requires forall j :: 0 <= j < m ==> fields[2 * j] != sub
    requires forall j :: i < j < m ==> fields[2 * j] != fields[2 * i]
    ensures var name := fields[2 * i];
      Member(DecodeUpTo(fields, m), sub, name[|sub| + 1..]) == Some(Convert(name, fields[2 * i + 1]))
  {
    var name := fields[2 * i];
    if m - 1 == i {
      SubRecordKept(fields, i, sub);
    } else {
      DecodedInSubRecord(fields, m - 1, i, sub);
      var other := fields[2 * (m - 1)];
      if SubRecordOf(other) == Some(sub) && other[|sub| + 1..] == name[|sub| + 1..] {
        SameSlot(other, name, sub);
      }
      StoreKeepsMember(DecodeUpTo(fields, m - 1), other, Convert(other, fields[2 * (m - 1) + 1]), sub, name[|sub| + 1..]);
    }
  }

  /** A store adds a top-level key only for a name without a sub-record prefix. */
  lemma StoreKeys(data: Data, name: string, v: Value)
    ensures Store(data, name, v).Keys == data.Keys + (if SubRecordOf(name).None? then {name} else {})
  {
  }

  /** The four sub-record keys survive every store: a name equal to one of them replaces
      its value, never its key. */
  lemma {:induction false} SubRecordKeysKept(fields: seq<string>, m: nat)
    requires 2 * m <= |fields|
    ensures Initial().Keys <= DecodeUpTo(fields, m).Keys
  {
    if m > 0 {
      SubRecordKeysKept(fields, m - 1);
      var name := fields[2 * (m - 1)];
      StoreKeys(DecodeUpTo(fields, m - 1), name, Convert(name, fields[2 * (m - 1) + 1]));
    }
  }

  /** When every name has a prefix, the record keeps exactly its four sub-objects. */
  lemma {:induction false} DecodedKeys(fields: seq<string>, m: nat)
    requires 2 * m <= |fields|
    requires forall j :: 0 <= j < m ==> SubRecordOf(fields[2 * j]).Some?
    ensures DecodeUpTo(fields, m).Keys == Initial().Keys
  {
    if m > 0 {
      DecodedKeys(fields, m - 1);
    }
  }
}
