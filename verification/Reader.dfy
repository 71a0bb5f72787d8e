/** The incremental reader: decodes values from a stream that arrives in pieces of any size. */
module Reader {
  import opened Wire

  datatype SessionError = Decode(error: DecodeError) | WrongSize

  function Flatten(pieces: seq<Bytes>): Bytes {
    if pieces == [] then [] else pieces[0] + Flatten(pieces[1..])
  }

  lemma {:induction false} FlattenSplit(pieces: seq<Bytes>, k: nat)
    requires k <= |pieces|
    ensures Flatten(pieces) == Flatten(pieces[..k]) + Flatten(pieces[k..])
  {
    if k == 0 {
      assert pieces[0..] == pieces;
    } else {
      FlattenSplit(pieces[1..], k - 1);
      assert pieces[..k][1..] == pieces[1..][..k - 1];
      assert pieces[1..][k - 1..] == pieces[k..];
    }
  }

  /** What a read leaves behind: its result, the buffer and the pieces the transport still holds. */
  datatype Read<T> = Read(result: Result<T, SessionError>, buffer: Bytes, stream: seq<Bytes>)

  datatype Filled = Filled(enough: bool, buffer: Bytes, stream: seq<Bytes>)

  /** Reads at least one piece, and more until the buffer holds `required` bytes. */
  function Fill(buffer: Bytes, stream: seq<Bytes>, required: nat): (f: Filled)
    requires |buffer| <= required
    ensures f.enough ==> |f.stream| < |stream|
    ensures !f.enough ==> |f.buffer| <= required
    decreases |stream|
  {
    if stream == [] then Filled(false, buffer, stream)
    else
      var buffer := buffer + stream[0];
      if |buffer| >= required then Filled(true, buffer, stream[1..])
      else Fill(buffer, stream[1..], required)
  }

  function DecodeRun<T(!new)>(decode: Bytes -> Decoded<T>, buffer: Bytes, stream: seq<Bytes>): Read<T>
    decreases |stream|
  {
    match decode(buffer)
    case Ok(v, rest) => Read(Success(v), rest, stream)
    case Err(More(n)) =>
      var required := |buffer| + n;
      var f := Fill(buffer, stream, required);
      if f.enough then DecodeRun(decode, f.buffer, f.stream)
      else Read(Failure(Decode(More(required - |f.buffer|))), f.buffer, f.stream)
    case Err(e) => Read(Failure(Decode(e)), buffer, stream)
  }

  datatype Chunk = Chunk(data: Option<Bytes>, buffer: Bytes, stream: seq<Bytes>)

  function Min(a: nat, b: nat): nat {
    if a < b then a else b
  }

  /** A piece of at most `max` bytes, from the buffer if it holds any, else from the transport. */
  function ChunkRun(buffer: Bytes, stream: seq<Bytes>, max: nat): Chunk {
    if buffer != [] then
      var size := Min(max, |buffer|);
      Chunk(Some(buffer[..size]), buffer[size..], stream)
    else if stream == [] then Chunk(None, buffer, stream)
    else
      var size := Min(max, |stream[0]|);
      Chunk(Some(stream[0][..size]), buffer,
            if size == |stream[0]| then stream[1..] else [stream[0][size..]] + stream[1..])
  }

  class Reader {
    var buffer: Bytes
    /** The pieces that the transport's reads will return, in order; the stream ends behind the last. */
    var stream: seq<Bytes>

    constructor (stream: seq<Bytes>)
      ensures buffer == [] && this.stream == stream
    {
      this.stream := stream;
      buffer := [];
    }

    method ReadBuf() returns (more: bool)
      modifies this
      ensures more <==> old(stream) != []
      ensures more ==> buffer == old(buffer) + old(stream)[0] && stream == old(stream)[1..]
      ensures !more ==> buffer == old(buffer) && stream == old(stream)
    {
      more := stream != [];
      if more {
        buffer, stream := buffer + stream[0], stream[1..];
      }
    }

    method Decode<T(!new)>(decode: Bytes -> Decoded<T>) returns (r: Result<T, SessionError>)
      modifies this
      ensures DecodeRun(decode, old(buffer), old(stream)) == Read(r, buffer, stream)
      ensures decode(old(buffer)).Ok? ==> r == Success(decode(old(buffer)).value) && buffer == decode(old(buffer)).rest
      ensures decode(old(buffer)).Err? && !decode(old(buffer)).error.More? ==>
                r == Failure(SessionError.Decode(decode(old(buffer)).error)) && buffer == old(buffer)
      ensures decode(old(buffer)).Ok? || !decode(old(buffer)).error.More? ==> stream == old(stream)
    {
      while true
        invariant DecodeRun(decode, old(buffer), old(stream)) == DecodeRun(decode, buffer, stream)
        decreases |stream|
      {
        var required;
        match decode(buffer) {
          case Ok(msg, rest) =>
            buffer := rest;
            return Success(msg);
          case Err(More(n)) => required := |buffer| + n;
          case Err(e) => return Failure(SessionError.Decode(e));
        }
        ghost var f := Fill(buffer, stream, required);
        var more := ReadBuf();
        while more && |buffer| < required
          invariant more ==> f == if |buffer| >= required then Filled(true, buffer, stream) else Fill(buffer, stream, required)
          invariant !more ==> |buffer| <= required && f == Filled(false, buffer, stream)
          invariant more ==> |stream| < |f.stream| + |stream| + 1
          decreases more, |stream|
        {
          more := ReadBuf();
        }
        if !more {
          return Failure(SessionError.Decode(More(required - |buffer|)));
        }
      }
    }

    method ReadChunk(max: nat) returns (r: Option<Bytes>)
      modifies this
      ensures ChunkRun(old(buffer), old(stream), max) == Chunk(r, buffer, stream)
      ensures r.None? <==> old(buffer) == [] && old(stream) == []
      ensures old(buffer) != [] ==>
                r == Some(old(buffer)[..Min(max, |old(buffer)|)]) && r.value + buffer == old(buffer) && stream == old(stream)
      ensures old(buffer) == [] && old(stream) != [] ==>
                r == Some(old(stream)[0][..Min(max, |old(stream)[0]|)]) && buffer == []
    {
      if buffer != [] {
        var size := Min(max, |buffer|);
        r := Some(buffer[..size]);
        buffer := buffer[size..];
        return;
      }
      if stream == [] { return None; }
      var size := Min(max, |stream[0]|);
      r := Some(stream[0][..size]);
      stream := if size == |stream[0]| then stream[1..] else [stream[0][size..]] + stream[1..];
    }

    /** Whether the stream has ended; a piece that is read to find out stays in the buffer. */
    method Done() returns (r: bool)
      modifies this
      ensures r <==> old(buffer) == [] && old(stream) == []
      ensures old(buffer) == [] && old(stream) != [] ==> buffer == old(stream)[0] && stream == old(stream)[1..]
      ensures old(buffer) != [] || old(stream) == [] ==> buffer == old(buffer) && stream == old(stream)
    {
      if buffer != [] { return false; }
      var more := ReadBuf();
      r := !more;
    }
  }

  // --- the laws ---

  /** The pieces left when just those have been read that are needed to hold `n` bytes. */
  function Beyond(buffer: Bytes, stream: seq<Bytes>, n: nat): seq<Bytes>
    decreases |stream|
  {
    if |buffer| >= n || stream == [] then stream else Beyond(buffer + stream[0], stream[1..], n)
  }

  lemma {:induction false} FillStops(buffer: Bytes, stream: seq<Bytes>, required: nat, n: nat)
    requires |buffer| < required <= n <= |buffer| + |Flatten(stream)|
    ensures var f := Fill(buffer, stream, required);
            && f.enough
            && f.buffer + Flatten(f.stream) == buffer + Flatten(stream)
            && Beyond(f.buffer, f.stream, n) == Beyond(buffer, stream, n)
    decreases |stream|
  {
    var b := buffer + stream[0];
    assert b + Flatten(stream[1..]) == buffer + Flatten(stream);
    if |b| < required {
      FillStops(b, stream[1..], required, n);
    }
  }

  /**
   * However the stream is cut, decoding an honest encoding gives its value and leaves exactly the tail
   * unread; of the pieces it reads those that complete the encoding and not one more.
   */
  lemma {:induction false} DecodesAcrossReads<T(!new)>(decode: Bytes -> Decoded<T>, e: Bytes, v: T, tail: Bytes,
                                                       buffer: Bytes, stream: seq<Bytes>)
    requires Honest(decode, e, v)
    requires buffer + Flatten(stream) == e + tail
    ensures var r := DecodeRun(decode, buffer, stream);
            && r.result == Success(v)
            && r.buffer + Flatten(r.stream) == tail
            && r.stream == Beyond(buffer, stream, |e|)
    decreases |stream|
  {
    assert Arrived(buffer, e) by { Cut(buffer, Flatten(stream), e, tail); }
    var r := decode(buffer);
    assert Reads(r, buffer, e, v);
    if |e| <= |buffer| {
      Cut(buffer, Flatten(stream), e, tail);
    } else {
      var required := |buffer| + r.error.needed;
      assert |e + tail| == |buffer| + |Flatten(stream)|;
      FillStops(buffer, stream, required, |e|);
      var f := Fill(buffer, stream, required);
      DecodesAcrossReads(decode, e, v, tail, f.buffer, f.stream);
    }
  }

  lemma Cut(b: Bytes, others: Bytes, e: Bytes, tail: Bytes)
    requires b + others == e + tail
    ensures Arrived(b, e)
    ensures |e| <= |b| ==> b[|e|..] + others == tail
  {
    if |e| <= |b| {
      assert e == (e + tail)[..|e|] == (b + others)[..|e|] == b[..|e|];
      assert tail == (e + tail)[|e|..] == (b + others)[|e|..] == b[|e|..] + others;
    } else {
      assert b == (b + others)[..|b|] == (e + tail)[..|b|] == e[..|b|];
    }
  }

  /** A stream that ends inside an honest encoding: all of it is read, and the rest of the encoding is missing. */
  lemma {:induction false} StreamTooShort<T(!new)>(decode: Bytes -> Decoded<T>, e: Bytes, v: T, buffer: Bytes,
                                                   stream: seq<Bytes>)
    requires Honest(decode, e, v)
    requires buffer + Flatten(stream) <= e && |buffer + Flatten(stream)| < |e|
    ensures var r := DecodeRun(decode, buffer, stream);
            && r.result.Failure? && r.result.error.Decode? && r.result.error.error.More?
            && 1 <= r.result.error.error.needed <= |e| - |buffer + Flatten(stream)|
            && r.buffer == buffer + Flatten(stream) && r.stream == []
    decreases |stream|
  {
    assert Arrived(buffer, e);
    var r := decode(buffer);
    assert Reads(r, buffer, e, v);
    var required := |buffer| + r.error.needed;
    if required <= |buffer| + |Flatten(stream)| {
      FillStops(buffer, stream, required, required);
      var f := Fill(buffer, stream, required);
      StreamTooShort(decode, e, v, f.buffer, f.stream);
    } else {
      FillEnds(buffer, stream, required);
    }
  }

  lemma {:induction false} FillEnds(buffer: Bytes, stream: seq<Bytes>, required: nat)
    requires |buffer| + |Flatten(stream)| < required
    ensures Fill(buffer, stream, required) == Filled(false, buffer + Flatten(stream), [])
    decreases |stream|
  {
    if stream != [] {
      assert (buffer + stream[0]) + Flatten(stream[1..]) == buffer + Flatten(stream);
      FillEnds(buffer + stream[0], stream[1..], required);
    } else {
      assert buffer + [] == buffer;
    }
  }

  /** Decodes `count` values one after the other. */
  function DecodeMany<T(!new)>(decode: Bytes -> Decoded<T>, count: nat, buffer: Bytes, stream: seq<Bytes>): Read<seq<T>>
    decreases count
  {
    if count == 0 then Read(Success([]), buffer, stream)
    else
      var first := DecodeRun(decode, buffer, stream);
      if first.result.Failure? then Read(Failure(first.result.error), first.buffer, first.stream)
      else
        var others := DecodeMany(decode, count - 1, first.buffer, first.stream);
        if others.result.Failure? then others
        else others.(result := Success([first.result.value] + others.result.value))
  }

  /** A whole sequence of honest encodings, under any cut: the same values, and the tail left unread. */
  lemma {:induction false} DecodesSequence<T(!new)>(decode: Bytes -> Decoded<T>, es: seq<Bytes>, vs: seq<T>,
                                                    tail: Bytes, buffer: Bytes, stream: seq<Bytes>)
    requires |es| == |vs| && forall i | 0 <= i < |es| :: Honest(decode, es[i], vs[i])
    requires buffer + Flatten(stream) == Flatten(es) + tail
    ensures var r := DecodeMany(decode, |vs|, buffer, stream);
            r.result == Success(vs) && r.buffer + Flatten(r.stream) == tail
    decreases |es|
  {
    if es != [] {
      assert Flatten(es) + tail == es[0] + (Flatten(es[1..]) + tail);
      DecodesAcrossReads(decode, es[0], vs[0], Flatten(es[1..]) + tail, buffer, stream);
      var first := DecodeRun(decode, buffer, stream);
      DecodesSequence(decode, es[1..], vs[1..], tail, first.buffer, first.stream);
      assert vs == [vs[0]] + vs[1..];
    }
  }
}
