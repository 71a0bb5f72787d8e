/** The field codecs that messages and stream headers are built from. */
module Coding {
  import opened Wire
  import opened Utf8
  import VarInt

  // --- single bytes and length-prefixed byte strings ---

  function DecodeOctet(b: Bytes): Decoded<Byte> {
    if Remaining(b, 1).Some? then Err(Remaining(b, 1).value) else Ok(b[0], b[1..])
  }

  function EncodeBlob(v: Bytes): Encoded {
    var size :- VarInt.Encode(|v|);
    Success(size + v)
  }

  function DecodeBlob(b: Bytes): Decoded<Bytes> {
    var (size, b) :- VarInt.Decode(b);
    if Remaining(b, size).Some? then Err(Remaining(b, size).value) else Ok(b[..size], b[size..])
  }

  lemma BlobReads(v: Bytes, b: Bytes)
    requires EncodeBlob(v).Success? && Arrived(b, EncodeBlob(v).value)
    ensures Reads(DecodeBlob(b), b, EncodeBlob(v).value, v)
  {
    var size := VarInt.Encode(|v|).value;
    SplitArrival(b, size, v);
    VarInt.DecodeReads(|v|, b);
    if |size| <= |b| {
      var c := b[|size|..];
      if |v| <= |c| { assert c[..|v|] == v; }
    }
  }

  function DecodeText(b: Bytes): Decoded<Text> {
    var (v, b) :- DecodeBlob(b);
    if Valid(v) then Ok(v, b) else Err(InvalidString)
  }

  // --- tuples of byte strings ---

  function EncodeBlobs(fields: seq<Bytes>): Encoded {
    if fields == [] then Success([])
    else
      var first :- EncodeBlob(fields[0]);
      var others :- EncodeBlobs(fields[1..]);
      Success(first + others)
  }

  function DecodeBlobs(count: nat, b: Bytes): Decoded<seq<Bytes>>
    decreases count
  {
    if count == 0 then Ok([], b)
    else
      var (first, b) :- DecodeBlob(b);
      var (others, b) :- DecodeBlobs(count - 1, b);
      Ok([first] + others, b)
  }

  lemma {:induction false} BlobsRead(fields: seq<Bytes>, b: Bytes)
    requires EncodeBlobs(fields).Success? && Arrived(b, EncodeBlobs(fields).value)
    ensures Reads(DecodeBlobs(|fields|, b), b, EncodeBlobs(fields).value, fields)
  {
    hide EncodeBlob, DecodeBlob;
    if fields != [] {
      var first, others := EncodeBlob(fields[0]).value, EncodeBlobs(fields[1..]).value;
      SplitArrival(b, first, others);
      BlobReads(fields[0], b);
      if |first| <= |b| {
        BlobsRead(fields[1..], b[|first|..]);
        assert fields == [fields[0]] + fields[1..];
      }
    }
  }

  function EncodeTuple(fields: seq<Bytes>): Encoded {
    var count :- VarInt.Encode(|fields|);
    var body :- EncodeBlobs(fields);
    Success(count + body)
  }

  function DecodeTuple(b: Bytes): Decoded<seq<Bytes>> {
    var (count, b) :- VarInt.Decode(b);
    DecodeBlobs(count, b)
  }

  lemma TupleReads(fields: seq<Bytes>, b: Bytes)
    requires EncodeTuple(fields).Success? && Arrived(b, EncodeTuple(fields).value)
    ensures Reads(DecodeTuple(b), b, EncodeTuple(fields).value, fields)
  {
    hide VarInt.Encode, VarInt.Decode, EncodeBlobs, DecodeBlobs;
    var count, body := VarInt.Encode(|fields|).value, EncodeBlobs(fields).value;
    SplitArrival(b, count, body);
    VarInt.DecodeReads(|fields|, b);
    if |count| <= |b| { BlobsRead(fields, b[|count|..]); }
  }

  // --- parameters: a map written in whatever order its iterator yields ---

  type Params = map<nat, Bytes>

  /** `order` lists every one of `keys` exactly once: an order in which a hash map may be iterated. */
  ghost predicate Enumerates<K(!new)>(order: seq<K>, keys: set<K>) {
    && (forall i, j | 0 <= i < j < |order| :: order[i] != order[j])
    && (forall k :: k in order <==> k in keys)
  }

  function EncodeEntry(kind: nat, value: Bytes): Encoded {
    var kind :- VarInt.Encode(kind);
    var value :- EncodeBlob(value);
    Success(kind + value)
  }

  function EncodeEntries(params: Params, order: seq<nat>): Encoded
    requires forall k | k in order :: k in params
  {
    if order == [] then Success([])
    else
      var first :- EncodeEntry(order[0], params[order[0]]);
      var others :- EncodeEntries(params, order[1..]);
      Success(first + others)
  }

  function EncodeParams(params: Params, order: seq<nat>): Encoded
    requires forall k | k in order :: k in params
  {
    var count :- VarInt.Encode(|order|);
    var entries :- EncodeEntries(params, order);
    Success(count + entries)
  }

  /** One turn of the decoding loop: a repeated kind is an error before its value is even read. */
  function DecodeEntry(seen: Params, b: Bytes): (r: Decoded<(nat, Bytes)>)
    ensures r.Ok? ==> r.value.0 !in seen
  {
    var (kind, b) :- VarInt.Decode(b);
    if kind in seen then Err(DuplicateParameter)
    else
      var (value, b) :- DecodeBlob(b);
      Ok((kind, value), b)
  }

  function DecodeEntries(count: nat, seen: Params, b: Bytes): Decoded<Params>
    decreases count
  {
    if count == 0 then Ok(seen, b)
    else
      var (entry, b) :- DecodeEntry(seen, b);
      DecodeEntries(count - 1, seen[entry.0 := entry.1], b)
  }

  function DecodeParams(b: Bytes): Decoded<Params> {
    var (count, b) :- VarInt.Decode(b);
    DecodeEntries(count, map[], b)
  }

  lemma EntryReads(kind: nat, value: Bytes, seen: Params, b: Bytes)
    requires kind !in seen && EncodeEntry(kind, value).Success? && Arrived(b, EncodeEntry(kind, value).value)
    ensures Reads(DecodeEntry(seen, b), b, EncodeEntry(kind, value).value, (kind, value))
  {
    var k, v := VarInt.Encode(kind).value, EncodeBlob(value).value;
    SplitArrival(b, k, v);
    VarInt.DecodeReads(kind, b);
    if |k| <= |b| { BlobReads(value, b[|k|..]); }
  }

  /** In the middle of the loop: `seen` holds what was read, `order` the kinds still to come, each once. */
  ghost predicate Pending(params: Params, order: seq<nat>, seen: Params) {
    && (forall i, j | 0 <= i < j < |order| :: order[i] != order[j])
    && (forall k | k in order :: k in params && k !in seen)
    && (forall k | k in seen :: k in params && seen[k] == params[k])
    && (forall k | k in params :: k in order || k in seen)
  }

  lemma NextEntry(params: Params, order: seq<nat>, seen: Params)
    requires order != [] && Pending(params, order, seen)
    ensures Pending(params, order[1..], seen[order[0] := params[order[0]]])
  {
    var seen' := seen[order[0] := params[order[0]]];
    forall k | k in params ensures k in order[1..] || k in seen' {
      if k in order && k != order[0] {
        var i :| 0 <= i < |order| && order[i] == k;
        assert order[1..][i - 1] == k;
      }
    }
    forall k | k in order[1..] ensures k in params && k !in seen' {
      var i :| 0 <= i < |order[1..]| && order[1..][i] == k;
      assert order[i + 1] == k && order[0] != order[i + 1];
    }
  }

  lemma {:induction false} EntriesRead(params: Params, order: seq<nat>, seen: Params, b: Bytes)
    requires Pending(params, order, seen)
    requires EncodeEntries(params, order).Success? && Arrived(b, EncodeEntries(params, order).value)
    ensures Reads(DecodeEntries(|order|, seen, b), b, EncodeEntries(params, order).value, params)
    decreases |order|
  {
    hide EncodeEntry, DecodeEntry;
    if order == [] {
      assert seen == params;
    } else {
      var k := order[0];
      var first, others := EncodeEntry(k, params[k]).value, EncodeEntries(params, order[1..]).value;
      assert k !in seen;
      SplitArrival(b, first, others);
      EntryReads(k, params[k], seen, b);
      if |first| <= |b| {
        NextEntry(params, order, seen);
        EntriesRead(params, order[1..], seen[k := params[k]], b[|first|..]);
      }
    }
  }

  /** Whatever order the map is written in, every arrival reads back as the same map. */
  lemma ParamsRead(params: Params, order: seq<nat>, b: Bytes)
    requires Enumerates(order, params.Keys)
    requires EncodeParams(params, order).Success? && Arrived(b, EncodeParams(params, order).value)
    ensures Reads(DecodeParams(b), b, EncodeParams(params, order).value, params)
  {
    hide VarInt.Encode, VarInt.Decode, EncodeEntries, DecodeEntries;
    var count, entries := VarInt.Encode(|order|).value, EncodeEntries(params, order).value;
    SplitArrival(b, count, entries);
    VarInt.DecodeReads(|order|, b);
    if |count| <= |b| { EntriesRead(params, order, map[], b[|count|..]); }
  }
}
