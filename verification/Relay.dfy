/** One relay hop: a subgroup written to a stream by one session and rebuilt from it by another. */
module Relay {
  import opened Wire
  import opened Data
  import opened Reader
  import Control
  import VarInt

  // --- the sending half ---

  /** An object as a subgroup reader hands it out; `complete` tells that its chunks end without an error. */
  datatype Stored = Stored(id: nat, size: nat, status: ObjectStatus, chunks: seq<Bytes>, complete: bool)

  predicate FullyWritten(o: Stored) {
    o.complete && |Flatten(o.chunks)| == o.size
  }

  datatype Served = Served(sent: Bytes, finished: bool)

  function HeaderOf(o: Stored): SubgroupObject {
    SubgroupObject(o.id, o.size, o.status)
  }

  function ServeObjects(objects: seq<Stored>): Served {
    if objects == [] then Served([], true)
    else
      match EncodeObject(HeaderOf(objects[0]))
      case Failure(_) => Served([], false)
      case Success(e) =>
        if !objects[0].complete then Served(e + Flatten(objects[0].chunks), false)
        else
          var others := ServeObjects(objects[1..]);
          Served(e + (Flatten(objects[0].chunks) + others.sent), others.finished)
  }

  function ServeRun(header: Header, objects: seq<Stored>): Served {
    match EncodeHeader(header)
    case Failure(_) => Served([], false)
    case Success(e) => Behind(e, ServeObjects(objects))
  }

  class Writer {
    var sent: Bytes
    var finished: bool

    constructor ()
      ensures sent == [] && !finished
    {
      sent, finished := [], false;
    }

    /** The transport takes at least one byte, and possibly fewer than it is offered. */
    method WriteBuf(data: Bytes) returns (size: nat)
      requires data != []
      modifies this`sent
      ensures 1 <= size <= |data| && sent == old(sent) + data[..size]
    {
      size :| 1 <= size <= |data|;
      sent := sent + data[..size];
    }

    method Write(data: Bytes)
      modifies this`sent
      ensures sent == old(sent) + data
    {
      var left := data;
      while left != []
        invariant sent + left == old(sent) + data
        decreases |left|
      {
        var size := WriteBuf(left);
        assert left == left[..size] + left[size..];
        left := left[size..];
      }
    }

    method WriteChunks(chunks: seq<Bytes>)
      modifies this`sent
      ensures sent == old(sent) + Flatten(chunks)
    {
      for j := 0 to |chunks|
        invariant sent + Flatten(chunks[j..]) == old(sent) + Flatten(chunks)
      {
        assert chunks[j..][1..] == chunks[j + 1..];
        Write(chunks[j]);
      }
    }

    method ServeSubgroup(header: Header, objects: seq<Stored>)
      requires sent == [] && !finished
      modifies this
      ensures Served(sent, finished) == ServeRun(header, objects)
      ensures EncodeHeader(header).Failure? ==> sent == [] && !finished
    {
      hide EncodeHeader, EncodeObject;
      var head := EncodeHeader(header);
      if head.Failure? { return; }
      Write(head.value);
      for i := 0 to |objects|
        invariant !finished
        invariant ServeRun(header, objects) == Behind(sent, ServeObjects(objects[i..]))
      {
        var o := objects[i];
        assert objects[i..][1..] == objects[i + 1..];
        BehindNothing(sent);
        var e := EncodeObject(HeaderOf(o));
        if e.Failure? { return; }
        BehindMore(sent, e.value, Flatten(o.chunks), ServeObjects(objects[i + 1..]));
        Write(e.value);
        WriteChunks(o.chunks);
        if !o.complete { return; }
      }
      BehindNothing(sent);
      finished := true;
    }
  }

  function Behind(sent: Bytes, others: Served): Served {
    Served(sent + others.sent, others.finished)
  }

  lemma BehindNothing(sent: Bytes)
    ensures Behind(sent, Served([], false)) == Served(sent, false)
    ensures Behind(sent, Served([], true)) == Served(sent, true)
  {
    assert sent + [] == sent;
  }

  lemma BehindMore(sent: Bytes, e: Bytes, payload: Bytes, others: Served)
    ensures Behind(sent, Served(e + (payload + others.sent), others.finished)) == Behind((sent + e) + payload, others)
    ensures Behind(sent, Served(e + payload, false)) == Served((sent + e) + payload, false)
  {
    assert sent + (e + (payload + others.sent)) == ((sent + e) + payload) + others.sent;
    assert sent + (e + payload) == (sent + e) + payload;
  }

  // --- the receiving half ---

  /** An object as the receiving session stores it; its id is the number of objects before it. */
  datatype Rebuilt = Rebuilt(id: nat, size: nat, status: ObjectStatus, chunks: seq<Bytes>)

  /**
   * What has been received so far: the objects, the headers as they were decoded, and how many bytes were unread
   * whenever a header was about to be parsed.
   */
  datatype Log = Log(objects: seq<Rebuilt>, headers: seq<SubgroupObject>, parsedAt: seq<nat>)

  datatype Received = Received(log: Log, result: Result<(), SessionError>)

  ghost predicate NonEmpty(stream: seq<Bytes>) {
    forall i | 0 <= i < |stream| :: stream[i] != []
  }

  function Unread(buffer: Bytes, stream: seq<Bytes>): Bytes {
    buffer + Flatten(stream)
  }

  datatype Payload = Payload(chunks: seq<Bytes>, enough: bool, buffer: Bytes, stream: seq<Bytes>)

  /** Reads chunks until `remain` payload bytes have been read. */
  function PayloadRun(remain: nat, buffer: Bytes, stream: seq<Bytes>): (f: Payload)
    requires NonEmpty(stream)
    ensures NonEmpty(f.stream)
    decreases remain
  {
    if remain == 0 then Payload([], true, buffer, stream)
    else
      ChunkLaw(buffer, stream, remain);
      var c := ChunkRun(buffer, stream, remain);
      if c.data.None? then Payload([], false, c.buffer, c.stream)
      else
        var f := PayloadRun(remain - |c.data.value|, c.buffer, c.stream);
        f.(chunks := [c.data.value] + f.chunks)
  }

  /** Payload and unread rest make up what was unread; it is enough exactly when that much was unread. */
  lemma {:induction false} PayloadLaw(remain: nat, buffer: Bytes, stream: seq<Bytes>)
    requires NonEmpty(stream)
    ensures var f := PayloadRun(remain, buffer, stream);
            && Flatten(f.chunks) + Unread(f.buffer, f.stream) == Unread(buffer, stream)
            && (f.enough <==> remain <= |Unread(buffer, stream)|)
            && (f.enough ==> |Flatten(f.chunks)| == remain)
    decreases remain
  {
    hide Unread, ChunkRun;
    if remain > 0 {
      ChunkLaw(buffer, stream, remain);
      var c := ChunkRun(buffer, stream, remain);
      if c.data.Some? {
        var data := c.data.value;
        PayloadLaw(remain - |data|, c.buffer, c.stream);
        var f := PayloadRun(remain - |data|, c.buffer, c.stream);
        assert data + (Flatten(f.chunks) + Unread(f.buffer, f.stream))
            == (data + Flatten(f.chunks)) + Unread(f.buffer, f.stream);
        assert ([data] + f.chunks)[1..] == f.chunks;
        assert |Unread(buffer, stream)| == |data| + |Unread(c.buffer, c.stream)|;
      }
    } else {
      assert [] + Unread(buffer, stream) == Unread(buffer, stream);
    }
  }

  lemma ChunkLaw(buffer: Bytes, stream: seq<Bytes>, max: nat)
    requires NonEmpty(stream)
    ensures var c := ChunkRun(buffer, stream, max);
            && NonEmpty(c.stream)
            && (c.data.None? <==> Unread(buffer, stream) == [])
            && (c.data.None? ==> c.buffer == buffer && c.stream == stream)
            && (c.data.Some? ==> |c.data.value| <= max && (max > 0 ==> c.data.value != [])
                                 && c.data.value + Unread(c.buffer, c.stream) == Unread(buffer, stream))
  {
    hide Flatten;
    if buffer != [] {
      var size := Min(max, |buffer|);
      assert buffer == buffer[..size] + buffer[size..];
      assert buffer[..size] + (buffer[size..] + Flatten(stream)) == buffer + Flatten(stream);
    } else {
      assert [] + Flatten(stream) == Flatten(stream);
      FlattenNonEmpty(stream);
      if stream != [] { FirstPiece(stream, Min(max, |stream[0]|)); }
    }
  }

  lemma FlattenNonEmpty(stream: seq<Bytes>)
    requires NonEmpty(stream)
    ensures Flatten(stream) == [] <==> stream == []
  {
  }

  /** Taking `size` bytes off the first piece takes them off the whole. */
  lemma FirstPiece(stream: seq<Bytes>, size: nat)
    requires stream != [] && size <= |stream[0]|
    ensures var left := if size == |stream[0]| then stream[1..] else [stream[0][size..]] + stream[1..];
            stream[0][..size] + Flatten(left) == Flatten(stream)
  {
    var first, others := stream[0][..size], stream[0][size..];
    assert stream[0] == first + others;
    if size < |stream[0]| {
      var left := [others] + stream[1..];
      assert left[1..] == stream[1..];
      assert first + (others + Flatten(stream[1..])) == (first + others) + Flatten(stream[1..]);
    }
  }

  lemma DecodeConsumes(b: Bytes)
    ensures DecodeObject(b).Ok? ==> |DecodeObject(b).rest| < |b|
  {
  }

  lemma {:induction false} RunConsumes(buffer: Bytes, stream: seq<Bytes>)
    requires NonEmpty(stream)
    ensures var r := DecodeRun(DecodeObject, buffer, stream);
            && NonEmpty(r.stream)
            && (r.result.Success? ==> |Unread(r.buffer, r.stream)| < |Unread(buffer, stream)|)
    decreases |stream|
  {
    hide DecodeObject;
    DecodeConsumes(buffer);
    var d := DecodeObject(buffer);
    if d.Err? && d.error.More? {
      var required := |buffer| + d.error.needed;
      FillKeeps(buffer, stream, required);
      var f := Fill(buffer, stream, required);
      if f.enough { RunConsumes(f.buffer, f.stream); }
    }
  }

  lemma {:induction false} FillKeeps(buffer: Bytes, stream: seq<Bytes>, required: nat)
    requires NonEmpty(stream) && |buffer| <= required
    ensures var f := Fill(buffer, stream, required);
            NonEmpty(f.stream) && Unread(f.buffer, f.stream) == Unread(buffer, stream)
    decreases |stream|
  {
    if stream != [] {
      var b := buffer + stream[0];
      assert Unread(b, stream[1..]) == Unread(buffer, stream);
      if |b| < required { FillKeeps(b, stream[1..], required); }
    }
  }

  /** The stream's end is looked for before each object; looking may move a piece into the buffer. */
  function Look(buffer: Bytes, stream: seq<Bytes>): (Bytes, seq<Bytes>) {
    if buffer == [] && stream != [] then (stream[0], stream[1..]) else (buffer, stream)
  }

  function RecvObjects(buffer: Bytes, stream: seq<Bytes>, log: Log): Received
    requires NonEmpty(stream)
    decreases |Unread(buffer, stream)|
  {
    if buffer == [] && stream == [] then Received(log, Success(()))
    else
      var (b, s) := Look(buffer, stream);
      assert Unread(b, s) == Unread(buffer, stream);
      var log := log.(parsedAt := log.parsedAt + [|Unread(b, s)|]);
      RunConsumes(b, s);
      var head := DecodeRun(DecodeObject, b, s);
      if head.result.Failure? then Received(log, Failure(head.result.error))
      else
        var header := head.result.value;
        PayloadLaw(header.size, head.buffer, head.stream);
        var payload := PayloadRun(header.size, head.buffer, head.stream);
        var log := log.(headers := log.headers + [header],
                        objects := log.objects + [Rebuilt(|log.objects|, header.size, Object, payload.chunks)]);
        if !payload.enough then Received(log, Failure(WrongSize))
        else RecvObjects(payload.buffer, payload.stream, log)
  }

  method RecvPayload(reader: Reader, size: nat) returns (chunks: seq<Bytes>, enough: bool)
    requires NonEmpty(reader.stream)
    modifies reader
    ensures Payload(chunks, enough, reader.buffer, reader.stream)
            == PayloadRun(size, old(reader.buffer), old(reader.stream))
  {
    var remain: nat := size;
    chunks := [];
    ghost var all := PayloadRun(size, reader.buffer, reader.stream);
    AfterNothing(all);
    while remain > 0
      invariant NonEmpty(reader.stream)
      invariant all == After(chunks, PayloadRun(remain, reader.buffer, reader.stream))
    {
      ChunkLaw(reader.buffer, reader.stream, remain);
      var data := reader.ReadChunk(remain);
      if data.None? {
        AfterEnd(chunks, false, reader.buffer, reader.stream);
        return chunks, false;
      }
      remain := remain - |data.value|;
      AfterOne(chunks, data.value, PayloadRun(remain, reader.buffer, reader.stream));
      chunks := chunks + [data.value];
    }
    AfterEnd(chunks, true, reader.buffer, reader.stream);
    enough := true;
  }

  function After(done: seq<Bytes>, p: Payload): Payload {
    p.(chunks := done + p.chunks)
  }

  lemma AfterNothing(p: Payload)
    ensures After([], p) == p
  {
    assert [] + p.chunks == p.chunks;
  }

  lemma AfterOne(done: seq<Bytes>, data: Bytes, p: Payload)
    ensures After(done, p.(chunks := [data] + p.chunks)) == After(done + [data], p)
  {
    assert done + ([data] + p.chunks) == (done + [data]) + p.chunks;
  }

  lemma AfterEnd(done: seq<Bytes>, enough: bool, buffer: Bytes, stream: seq<Bytes>)
    ensures After(done, Payload([], enough, buffer, stream)) == Payload(done, enough, buffer, stream)
  {
    assert done + [] == done;
  }

  method RecvSubgroup(reader: Reader) returns (objects: seq<Rebuilt>, result: Result<(), SessionError>, ghost log: Log)
    requires NonEmpty(reader.stream)
    modifies reader
    ensures Received(log, result) == RecvObjects(old(reader.buffer), old(reader.stream), NOTHING)
    ensures objects == log.objects
  {
    hide PayloadRun, DecodeRun, DecodeObject;
    objects, log := [], NOTHING;
    ghost var all := RecvObjects(reader.buffer, reader.stream, NOTHING);
    while true
      invariant NonEmpty(reader.stream) && objects == log.objects
      invariant all == RecvObjects(reader.buffer, reader.stream, log)
      decreases |Unread(reader.buffer, reader.stream)|
    {
      ghost var b0, s0 := reader.buffer, reader.stream;
      var done := reader.Done();
      if done { return objects, Success(()), log; }
      ghost var b, s := reader.buffer, reader.stream;
      assert (b, s) == Look(b0, s0);
      assert Unread(b, s) == Unread(b0, s0);
      log := log.(parsedAt := log.parsedAt + [|Unread(b, s)|]);
      RunConsumes(b, s);
      var header := reader.Decode(DecodeObject);
      if header.Failure? { return objects, Failure(header.error), log; }
      var size := header.value.size;
      ghost var payload := PayloadRun(size, reader.buffer, reader.stream);
      PayloadLaw(size, reader.buffer, reader.stream);
      var chunks, enough := RecvPayload(reader, size);
      objects := objects + [Rebuilt(|objects|, size, Object, chunks)];
      log := log.(headers := log.headers + [header.value], objects := objects);
      if !enough { return objects, Failure(WrongSize), log; }
    }
  }

  const NOTHING: Log := Log([], [], [])

  /** The receiving session reads the stream header, then the objects. */
  method RecvStream(reader: Reader) returns (header: Result<Header, SessionError>, objects: seq<Rebuilt>,
                                             result: Result<(), SessionError>)
    requires NonEmpty(reader.stream)
    modifies reader
    ensures (header, objects, result) == RecvRun(old(reader.buffer), old(reader.stream))
  {
    HeaderRunKeeps(reader.buffer, reader.stream);
    header := reader.Decode(DecodeHeader);
    if header.Failure? { return header, [], Failure(header.error); }
    ghost var log;
    objects, result, log := RecvSubgroup(reader);
  }

  lemma {:induction false} HeaderRunKeeps(buffer: Bytes, stream: seq<Bytes>)
    requires NonEmpty(stream)
    ensures NonEmpty(DecodeRun(DecodeHeader, buffer, stream).stream)
    decreases |stream|
  {
    hide DecodeHeader;
    var d := DecodeHeader(buffer);
    if d.Err? && d.error.More? {
      var required := |buffer| + d.error.needed;
      FillKeeps(buffer, stream, required);
      var f := Fill(buffer, stream, required);
      if f.enough { HeaderRunKeeps(f.buffer, f.stream); }
    }
  }

  function RecvRun(buffer: Bytes, stream: seq<Bytes>): (Result<Header, SessionError>, seq<Rebuilt>, Result<(), SessionError>)
    requires NonEmpty(stream)
  {
    HeaderRunKeeps(buffer, stream);
    var head := DecodeRun(DecodeHeader, buffer, stream);
    if head.result.Failure? then (head.result, [], Failure(head.result.error))
    else
      var r := RecvObjects(head.buffer, head.stream, NOTHING);
      (head.result, r.log.objects, r.result)
  }

  // --- the hop ---

  ghost predicate Sendable(objects: seq<Stored>) {
    forall i | 0 <= i < |objects| :: FullyWritten(objects[i]) && EncodeObject(HeaderOf(objects[i])).Success?
  }

  /** `got` holds, from index `from` on, the sizes and payloads of `objects`, numbered by position. */
  ghost predicate Rebuilds(got: seq<Rebuilt>, from: nat, objects: seq<Stored>) {
    && |got| == from + |objects|
    && forall i | 0 <= i < |objects| ::
         && got[from + i].id == from + i
         && got[from + i].size == objects[i].size
         && got[from + i].status == Object
         && Flatten(got[from + i].chunks) == Flatten(objects[i].chunks)
  }

  /** How many bytes are unread at the start of each object, with `beyond` bytes behind the last. */
  function Boundaries(objects: seq<Stored>, beyond: nat): seq<nat> {
    if objects == [] then [] else [|ServeObjects(objects).sent| + beyond] + Boundaries(objects[1..], beyond)
  }

  /** The header with which an object travels: its number, its size, and its status if it has no payload. */
  function Announced(o: Stored): SubgroupObject {
    SubgroupObject(o.id, o.size, if o.size == 0 then o.status else Object)
  }

  function AllAnnounced(objects: seq<Stored>): (headers: seq<SubgroupObject>)
    ensures |headers| == |objects|
  {
    seq(|objects|, i requires 0 <= i < |objects| => Announced(objects[i]))
  }

  lemma OneObject(o: Stored, others: Bytes, buffer: Bytes, stream: seq<Bytes>)
    requires FullyWritten(o) && EncodeObject(HeaderOf(o)).Success? && NonEmpty(stream)
    requires Unread(buffer, stream) == EncodeObject(HeaderOf(o)).value + (Flatten(o.chunks) + others)
    ensures var head := DecodeRun(DecodeObject, buffer, stream);
            && head.result == Success(Announced(o)) && NonEmpty(head.stream)
            && var payload := PayloadRun(o.size, head.buffer, head.stream);
               payload.enough && Flatten(payload.chunks) == Flatten(o.chunks)
               && Unread(payload.buffer, payload.stream) == others
  {
    hide EncodeObject, DecodeObject, PayloadRun, DecodeRun;
    var tail := Flatten(o.chunks) + others;
    ObjectHonest(HeaderOf(o));
    DecodesAcrossReads(DecodeObject, EncodeObject(HeaderOf(o)).value, WireObject(HeaderOf(o)), tail, buffer, stream);
    RunConsumes(buffer, stream);
    var head := DecodeRun(DecodeObject, buffer, stream);
    PayloadLaw(o.size, head.buffer, head.stream);
    var payload := PayloadRun(o.size, head.buffer, head.stream);
    assert Flatten(payload.chunks) == tail[..o.size] == Flatten(o.chunks);
    assert Unread(payload.buffer, payload.stream) == tail[o.size..] == others;
  }

  /** One turn of the receiving loop takes exactly one object off the stream. */
  lemma OneTurn(o: Stored, others: Bytes, buffer: Bytes, stream: seq<Bytes>, log: Log) returns (payload: Payload)
    requires FullyWritten(o) && EncodeObject(HeaderOf(o)).Success? && NonEmpty(stream)
    requires Unread(buffer, stream) == EncodeObject(HeaderOf(o)).value + (Flatten(o.chunks) + others)
    ensures NonEmpty(payload.stream) && Unread(payload.buffer, payload.stream) == others
    ensures Flatten(payload.chunks) == Flatten(o.chunks)
    ensures RecvObjects(buffer, stream, log)
            == RecvObjects(payload.buffer, payload.stream,
                           Log(log.objects + [Rebuilt(|log.objects|, o.size, Object, payload.chunks)],
                               log.headers + [Announced(o)], log.parsedAt + [|Unread(buffer, stream)|]))
  {
    hide EncodeObject, DecodeObject, PayloadRun, DecodeRun;
    FlattenNonEmpty(stream);
    NonEmptyObject(o);
    var (b, s) := Look(buffer, stream);
    assert Unread(b, s) == Unread(buffer, stream);
    OneObject(o, others, b, s);
    var head := DecodeRun(DecodeObject, b, s);
    payload := PayloadRun(o.size, head.buffer, head.stream);
  }

  lemma NothingLeft(buffer: Bytes, stream: seq<Bytes>, log: Log)
    requires NonEmpty(stream) && Unread(buffer, stream) == []
    ensures RecvObjects(buffer, stream, log) == Received(log, Success(()))
  {
    FlattenNonEmpty(stream);
  }

  /** What serving makes of the first of some objects, and what of the others. */
  lemma Unfolds(objects: seq<Stored>, beyond: nat)
    requires Sendable(objects)
    ensures objects == [] ==> ServeObjects(objects).sent == [] && Boundaries(objects, beyond) == []
    ensures objects != [] ==>
              var o, others := objects[0], ServeObjects(objects[1..]);
              && Sendable(objects[1..]) && FullyWritten(o) && EncodeObject(HeaderOf(o)).Success?
              && ServeObjects(objects).sent == EncodeObject(HeaderOf(o)).value + (Flatten(o.chunks) + others.sent)
              && Boundaries(objects, beyond) == [|ServeObjects(objects).sent| + beyond] + Boundaries(objects[1..], beyond)
  {
    hide EncodeObject, Flatten;
    if objects != [] {
      assert FullyWritten(objects[0]);
      assert forall i | 0 <= i < |objects[1..]| :: objects[1..][i] == objects[i + 1];
    }
  }

  /** Whatever follows them, the objects in front are rebuilt, and the loop goes on behind the last of them. */
  lemma {:induction false} ObjectsRebuilt(objects: seq<Stored>, tail: Bytes, buffer: Bytes, stream: seq<Bytes>, log: Log)
    returns (b: Bytes, s: seq<Bytes>, more: Log)
    requires Sendable(objects) && NonEmpty(stream)
    requires Unread(buffer, stream) == ServeObjects(objects).sent + tail
    ensures NonEmpty(s) && Unread(b, s) == tail
    ensures RecvObjects(buffer, stream, log) == RecvObjects(b, s, more)
    ensures log.objects <= more.objects && Rebuilds(more.objects, |log.objects|, objects)
    ensures more.headers == log.headers + AllAnnounced(objects)
    ensures more.parsedAt == log.parsedAt + Boundaries(objects, |tail|)
    decreases |objects|
  {
    hide EncodeObject, Rebuilds, RecvObjects, NonEmpty, Unread, Sendable, ServeObjects, Boundaries, FullyWritten, Flatten,
      Announced, AllAnnounced;
    Unfolds(objects, |tail|);
    Announces(objects);
    if objects == [] {
      b, s, more := buffer, stream, log;
      NothingRebuilt(log.objects);
      assert [] + tail == tail;
      assert log == Log(log.objects, log.headers + [], log.parsedAt + []);
    } else {
      var o, others := objects[0], ServeObjects(objects[1..]).sent;
      Regroup(EncodeObject(HeaderOf(o)).value, Flatten(o.chunks), others, tail);
      var payload := OneTurn(o, others + tail, buffer, stream, log);
      var next := Log(log.objects + [Rebuilt(|log.objects|, o.size, Object, payload.chunks)],
                      log.headers + [Announced(o)], log.parsedAt + [|Unread(buffer, stream)|]);
      b, s, more := ObjectsRebuilt(objects[1..], tail, payload.buffer, payload.stream, next);
      Extend(more.objects, |log.objects|, objects);
      assert next.headers + AllAnnounced(objects[1..]) == log.headers + AllAnnounced(objects);
      assert next.parsedAt + Boundaries(objects[1..], |tail|) == log.parsedAt + Boundaries(objects, |tail|);
    }
  }

  lemma Regroup(e: Bytes, payload: Bytes, others: Bytes, tail: Bytes)
    ensures (e + (payload + others)) + tail == e + (payload + (others + tail))
  {
  }

  lemma Announces(objects: seq<Stored>)
    ensures objects == [] ==> AllAnnounced(objects) == []
    ensures objects != [] ==> AllAnnounced(objects) == [Announced(objects[0])] + AllAnnounced(objects[1..])
  {
  }

  lemma NothingRebuilt(got: seq<Rebuilt>)
    ensures Rebuilds(got, |got|, [])
  {
  }

  lemma Extend(got: seq<Rebuilt>, from: nat, objects: seq<Stored>)
    requires objects != [] && |got| > from
    requires got[from].id == from && got[from].size == objects[0].size && got[from].status == Object
    requires Flatten(got[from].chunks) == Flatten(objects[0].chunks)
    requires Rebuilds(got, from + 1, objects[1..])
    ensures Rebuilds(got, from, objects)
  {
    forall i | 0 <= i < |objects|
      ensures got[from + i].id == from + i
      ensures got[from + i].size == objects[i].size
      ensures got[from + i].status == Object
      ensures Flatten(got[from + i].chunks) == Flatten(objects[i].chunks)
    {
      if i > 0 {
        assert objects[i] == objects[1..][i - 1] && from + i == (from + 1) + (i - 1);
      }
    }
  }

  lemma NonEmptyObject(o: Stored)
    requires EncodeObject(HeaderOf(o)).Success?
    ensures |EncodeObject(HeaderOf(o)).value| >= 1
  {
    VarInt.Shape(o.id);
  }

  /**
   * Serving a subgroup and receiving it on any cut of the stream rebuilds its header and every object's
   * size and payload; headers are parsed exactly at the object boundaries. Identifiers and statuses come back
   * exactly when they are what the receiving side gives its objects anyway.
   */
  lemma Hop(header: Header, objects: seq<Stored>, stream: seq<Bytes>)
    requires header.Subgroup? && EncodeHeader(header).Success? && Sendable(objects)
    requires NonEmpty(stream) && Flatten(stream) == ServeRun(header, objects).sent
    ensures ServeRun(header, objects).finished
    ensures var head := DecodeRun(DecodeHeader, [], stream);
            && head.result == Success(header) && NonEmpty(head.stream)
            && RecvObjects(head.buffer, head.stream, NOTHING).log.parsedAt == Boundaries(objects, 0)
    ensures var (head, got, result) := RecvRun([], stream);
            && head == Success(header) && result == Success(())
            && Rebuilds(got, 0, objects)
            && ((forall i | 0 <= i < |got| :: got[i].id == objects[i].id)
                <==> (forall i | 0 <= i < |objects| :: objects[i].id == i))
            && ((forall i | 0 <= i < |got| :: got[i].status == objects[i].status)
                <==> (forall i | 0 <= i < |objects| :: objects[i].status == Object))
  {
    hide EncodeHeader, DecodeHeader, DecodeRun, RecvObjects, Rebuilds, Boundaries, ServeObjects, AllAnnounced;
    FinishesWhenSendable(objects);
    var sent := ServeObjects(objects).sent;
    assert sent + [] == sent;
    var b, s, log := UpToTail(header, objects, [], stream);
    NothingLeft(b, s, log);
    assert [] + Boundaries(objects, 0) == Boundaries(objects, 0);
    GivenAnew(log.objects, objects);
  }

  /** The stream header comes out of any stream that starts with it, then the objects behind it. */
  lemma UpToTail(header: Header, objects: seq<Stored>, tail: Bytes, stream: seq<Bytes>)
    returns (b: Bytes, s: seq<Bytes>, log: Log)
    requires header.Subgroup? && EncodeHeader(header).Success? && Sendable(objects) && NonEmpty(stream)
    requires Flatten(stream) == EncodeHeader(header).value + (ServeObjects(objects).sent + tail)
    ensures var head := DecodeRun(DecodeHeader, [], stream);
            && head.result == Success(header) && NonEmpty(head.stream)
            && NonEmpty(s) && RecvObjects(head.buffer, head.stream, NOTHING) == RecvObjects(b, s, log)
    ensures Unread(b, s) == tail
    ensures Rebuilds(log.objects, 0, objects) && log.headers == AllAnnounced(objects)
    ensures log.parsedAt == [] + Boundaries(objects, |tail|)
  {
    hide EncodeHeader, DecodeHeader, DecodeRun, RecvObjects, Rebuilds, Boundaries, ServeObjects, AllAnnounced;
    HeaderHonest(header);
    DecodesAcrossReads(DecodeHeader, EncodeHeader(header).value, header, ServeObjects(objects).sent + tail, [], stream);
    HeaderRunKeeps([], stream);
    var head := DecodeRun(DecodeHeader, [], stream);
    b, s, log := ObjectsRebuilt(objects, tail, head.buffer, head.stream, NOTHING);
    assert [] + AllAnnounced(objects) == AllAnnounced(objects);
  }

  /** On any cut, the headers that are decoded are those of the objects that were served, one for each. */
  lemma HeadersArrive(header: Header, objects: seq<Stored>, stream: seq<Bytes>)
    requires header.Subgroup? && EncodeHeader(header).Success? && Sendable(objects)
    requires NonEmpty(stream) && Flatten(stream) == ServeRun(header, objects).sent
    ensures var head := DecodeRun(DecodeHeader, [], stream);
            NonEmpty(head.stream)
            && var decoded := RecvObjects(head.buffer, head.stream, NOTHING).log.headers;
               && |decoded| == |objects|
               && forall i | 0 <= i < |objects| ::
                    && decoded[i].objectId == objects[i].id && decoded[i].size == objects[i].size
                    && decoded[i].status == if objects[i].size == 0 then objects[i].status else Object
  {
    hide EncodeHeader, DecodeHeader, DecodeRun, RecvObjects, Rebuilds, Boundaries, ServeObjects;
    var sent := ServeObjects(objects).sent;
    assert sent + [] == sent;
    var b, s, log := UpToTail(header, objects, [], stream);
    NothingLeft(b, s, log);
  }

  // --- streams that end early ---

  /** A stream that ends inside an object's header: the objects before it, and a request for missing header bytes. */
  lemma EndsInHeader(o: Stored, part: Bytes, buffer: Bytes, stream: seq<Bytes>, log: Log)
    requires EncodeObject(HeaderOf(o)).Success? && NonEmpty(stream) && Unread(buffer, stream) == part
    requires part <= EncodeObject(HeaderOf(o)).value && 0 < |part| < |EncodeObject(HeaderOf(o)).value|
    ensures var r := RecvObjects(buffer, stream, log);
            && r.result.Failure? && r.result.error.Decode? && r.result.error.error.More?
            && 1 <= r.result.error.error.needed <= |EncodeObject(HeaderOf(o)).value| - |part|
            && r.log.objects == log.objects && r.log.headers == log.headers
  {
    hide EncodeObject, DecodeObject, PayloadRun, DecodeRun;
    FlattenNonEmpty(stream);
    ObjectHonest(HeaderOf(o));
    var (b, s) := Look(buffer, stream);
    assert Unread(b, s) == Unread(buffer, stream);
    StreamTooShort(DecodeObject, EncodeObject(HeaderOf(o)).value, WireObject(HeaderOf(o)), b, s);
  }

  /** A stream that ends inside an object's payload: the bytes that came, under its full size, and a size error. */
  lemma EndsInPayload(o: Stored, part: Bytes, buffer: Bytes, stream: seq<Bytes>, log: Log)
    requires EncodeObject(HeaderOf(o)).Success? && NonEmpty(stream) && |part| < o.size
    requires Unread(buffer, stream) == EncodeObject(HeaderOf(o)).value + part
    ensures var r := RecvObjects(buffer, stream, log);
            && r.result == Failure(WrongSize)
            && |r.log.objects| == |log.objects| + 1 && log.objects <= r.log.objects
            && var last := r.log.objects[|log.objects|];
               last.id == |log.objects| && last.size == o.size && last.status == Object && Flatten(last.chunks) == part
  {
    hide EncodeObject, DecodeObject, PayloadRun, DecodeRun;
    FlattenNonEmpty(stream);
    NonEmptyObject(o);
    ObjectHonest(HeaderOf(o));
    var (b, s) := Look(buffer, stream);
    assert Unread(b, s) == Unread(buffer, stream);
    DecodesAcrossReads(DecodeObject, EncodeObject(HeaderOf(o)).value, WireObject(HeaderOf(o)), part, b, s);
    RunConsumes(b, s);
    var head := DecodeRun(DecodeObject, b, s);
    PayloadLaw(o.size, head.buffer, head.stream);
    ShortPayload(o.size, head.buffer, head.stream);
  }

  /** A payload that is not all there is read to the end. */
  lemma {:induction false} ShortPayload(remain: nat, buffer: Bytes, stream: seq<Bytes>)
    requires NonEmpty(stream) && |Unread(buffer, stream)| < remain
    ensures Flatten(PayloadRun(remain, buffer, stream).chunks) == Unread(buffer, stream)
    decreases remain
  {
    hide Unread, ChunkRun;
    ChunkLaw(buffer, stream, remain);
    var c := ChunkRun(buffer, stream, remain);
    if c.data.Some? {
      var data := c.data.value;
      assert |Unread(buffer, stream)| == |data| + |Unread(c.buffer, c.stream)|;
      ShortPayload(remain - |data|, c.buffer, c.stream);
      var f := PayloadRun(remain - |data|, c.buffer, c.stream);
      assert ([data] + f.chunks)[1..] == f.chunks;
    }
  }

  /** Serving stops in front of the first object whose header cannot be written, or behind the chunks of one that fails. */
  lemma {:induction false} ServeStops(objects: seq<Stored>, k: nat)
    requires k < |objects| && Sendable(objects[..k])
    requires EncodeObject(HeaderOf(objects[k])).Failure? || !objects[k].complete
    ensures !ServeObjects(objects).finished
    ensures var e := EncodeObject(HeaderOf(objects[k]));
            ServeObjects(objects).sent
            == ServeObjects(objects[..k]).sent + (if e.Failure? then [] else e.value + Flatten(objects[k].chunks))
    decreases k
  {
    hide EncodeObject, Flatten;
    var e := EncodeObject(HeaderOf(objects[k]));
    var last := if e.Failure? then [] else e.value + Flatten(objects[k].chunks);
    if k > 0 {
      assert objects[..k][0] == objects[0] && FullyWritten(objects[..k][0]);
      assert EncodeObject(HeaderOf(objects[0])).Success?;
      assert objects[..k][1..] == objects[1..][..k - 1];
      SendableTail(objects[..k]);
      ServeStops(objects[1..], k - 1);
      Regroup(EncodeObject(HeaderOf(objects[0])).value, Flatten(objects[0].chunks),
              ServeObjects(objects[1..][..k - 1]).sent, last);
    } else {
      assert objects[..0] == [];
      assert [] + last == last;
    }
  }

  lemma SendableTail(objects: seq<Stored>)
    requires Sendable(objects) && objects != []
    ensures Sendable(objects[1..])
  {
  }

  /**
   * A subgroup whose object `k` breaks off short of its size: the stream is not finished, and whoever gets to its end
   * has every object before, the bytes that were written of this one, and a size error.
   */
  lemma BrokenHop(header: Header, objects: seq<Stored>, k: nat, stream: seq<Bytes>)
    requires header.Subgroup? && EncodeHeader(header).Success?
    requires k < |objects| && Sendable(objects[..k]) && EncodeObject(HeaderOf(objects[k])).Success?
    requires !objects[k].complete && |Flatten(objects[k].chunks)| < objects[k].size
    requires NonEmpty(stream) && Flatten(stream) == ServeRun(header, objects).sent
    ensures !ServeRun(header, objects).finished
    ensures var (head, got, result) := RecvRun([], stream);
            && head == Success(header) && result == Failure(WrongSize) && |got| == k + 1
            && Rebuilds(got[..k], 0, objects[..k])
            && got[k].id == k && got[k].size == objects[k].size && Flatten(got[k].chunks) == Flatten(objects[k].chunks)
  {
    hide EncodeHeader, DecodeHeader, EncodeObject, DecodeRun, RecvObjects, Rebuilds, Boundaries, ServeObjects, AllAnnounced,
      Flatten;
    ServeStops(objects, k);
    var o := objects[k];
    var b, s, log := UpToTail(header, objects[..k], EncodeObject(HeaderOf(o)).value + Flatten(o.chunks), stream);
    EndsInPayload(o, Flatten(o.chunks), b, s, log);
    AsMany(log.objects, objects[..k]);
    assert RecvRun([], stream).1[..k] == log.objects;
  }

  lemma AsMany(got: seq<Rebuilt>, objects: seq<Stored>)
    requires Rebuilds(got, 0, objects)
    ensures |got| == |objects|
  {
  }

  lemma GivenAnew(got: seq<Rebuilt>, objects: seq<Stored>)
    requires Rebuilds(got, 0, objects)
    ensures |got| == |objects|
    ensures (forall i | 0 <= i < |got| :: got[i].id == objects[i].id)
            <==> (forall i | 0 <= i < |objects| :: objects[i].id == i)
    ensures (forall i | 0 <= i < |got| :: got[i].status == objects[i].status)
            <==> (forall i | 0 <= i < |objects| :: objects[i].status == Object)
  {
  }

  lemma {:induction false} FinishesWhenSendable(objects: seq<Stored>)
    requires Sendable(objects)
    ensures ServeObjects(objects).finished
  {
    hide EncodeObject;
    if objects != [] {
      assert FullyWritten(objects[0]) && EncodeObject(HeaderOf(objects[0])).Success?;
      FinishesWhenSendable(objects[1..]);
    }
  }

  /** Control messages that follow the latest object survive any cut, one after the other. */
  lemma ControlStream(ms: seq<Control.Message>, orders: seq<seq<nat>>, es: seq<Bytes>, tail: Bytes,
                      buffer: Bytes, stream: seq<Bytes>)
    requires |ms| == |orders| == |es|
    requires forall i | 0 <= i < |ms| :: Control.OrderForAll(Control.Fields(ms[i]), orders[i])
    requires forall i | 0 <= i < |ms| :: Control.EncodeMessage(ms[i], orders[i]) == Success(es[i])
    requires forall i | 0 <= i < |ms| :: Control.FollowsLatest(ms[i])
    requires Unread(buffer, stream) == Flatten(es) + tail
    ensures var r := DecodeMany(Control.DecodeMessage, |ms|, buffer, stream);
            && r.result == Success(seq(|ms|, i requires 0 <= i < |ms| => Control.Wired(ms[i])))
            && Unread(r.buffer, r.stream) == tail
  {
    hide Control.EncodeMessage, Control.DecodeMessage, Control.Fields, Control.Wired;
    var vs := seq(|ms|, i requires 0 <= i < |ms| => Control.Wired(ms[i]));
    forall i | 0 <= i < |ms| ensures Honest(Control.DecodeMessage, es[i], vs[i]) {
      Control.MessageHonest(ms[i], orders[i]);
    }
    DecodesSequence(Control.DecodeMessage, es, vs, tail, buffer, stream);
  }
}
