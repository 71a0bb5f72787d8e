/** The session and its streams as the objects the source makes of them, each held to the steps of the model. */
module WsStreams {
  import opened Wire
  import opened StreamIds
  import opened WsFrame
  import opened WsSession
  import opened Mux
  import opened MuxProof

  datatype Error =
    | Closed
    | InvalidStreamId
    | InvalidFrame(error: FrameError)
    | StreamClosed
    | StreamStop(code: nat)
    | StreamReset(code: nat)
    | ConnectionClosed(code: nat, reason: Bytes)

  /** What a read gives: some bytes, the end, an error, or nothing yet. */
  datatype Outcome = Chunk(data: Bytes) | End | Failed(error: Error) | Pending

  function Min(a: nat, b: nat): nat {
    if a < b then a else b
  }

  /** What one turn of the session's loop came to. */
  datatype Turned = Handled | Sent(message: Bytes) | Stopped(cause: Error) | Idle

  /** Reading as steps of the model: take frames off the channel until one holds bytes or ends the stream. */
  function ReadRun(r: Receiver, max: nat): (Receiver, Outcome)
    decreases |r.inbound|
  {
    if r.buffer != [] then (AfterRead(r, Take(0, max)), Chunk(r.buffer[..Min(max, |r.buffer|)]))
    else if r.fin then (AfterRead(r, SeeEnd(0)), End)
    else if r.inbound == [] then (r, Pending)
    else ReadRun(AfterRead(r, Pull(0)), max)
  }

  function ReadTurns(r: Receiver, id: StreamId, max: nat): seq<Turn>
    decreases |r.inbound|
  {
    if r.buffer != [] then [Turn(true, Take(id, max))]
    else if r.fin then [Turn(true, SeeEnd(id))]
    else if r.inbound == [] then []
    else [Turn(true, Pull(id))] + ReadTurns(AfterRead(r, Pull(0)), id, max)
  }

  lemma OneTurn(x: System, op: Op)
    requires Enabled(x, op)
    ensures Exec(x, [Turn(true, op)]) == Some(Apply(x, op))
  {
    hide Apply, Enabled;
    assert [Turn(true, op)][1..] == [];
  }

  lemma ReadStep(x: System, op: Op)
    requires (op.Pull? || op.Take? || op.SeeEnd?) && Enabled(x, op)
    ensures op.id in x.me.recvs
    ensures Apply(x, op) == x.(me := x.me.(recvs := x.me.recvs[op.id := AfterRead(x.me.recvs[op.id], op)]))
  {
    hide Deliver;
  }

  /** A whole read call is a run of the model: so everything that holds of every run holds between such calls. */
  lemma {:induction false} ReadIsARun(x: System, id: StreamId, max: nat)
    requires CanRead(x.me, id)
    ensures Exec(x, ReadTurns(x.me.recvs[id], id, max))
            == Some(x.(me := x.me.(recvs := x.me.recvs[id := ReadRun(x.me.recvs[id], max).0])))
    decreases |x.me.recvs[id].inbound|
  {
    hide Apply, Deliver;
    var r := x.me.recvs[id];
    assert x.me.recvs[id := r] == x.me.recvs;
    if r.buffer != [] {
      OneTurn(x, Take(id, max));
      ReadStep(x, Take(id, max));
    } else if r.fin {
      OneTurn(x, SeeEnd(id));
      ReadStep(x, SeeEnd(id));
    } else if r.inbound != [] {
      ReadStep(x, Pull(id));
      var y, t := Apply(x, Pull(id)), ReadTurns(r, id, max);
      assert t[0] == Turn(true, Pull(id)) && t[1..] == ReadTurns(y.me.recvs[id], id, max);
      ReadIsARun(y, id, max);
      var s := ReadRun(y.me.recvs[id], max).0;
      assert y.me.recvs[id := s] == x.me.recvs[id := s];
    }
  }

  /** A read hands out bytes in order, at most as many as asked for, and none only if none were asked for. */
  lemma {:induction false} ReadGives(r: Receiver, max: nat)
    ensures var (s, o) := ReadRun(r, max);
            match o
            case Chunk(data) =>
              && data + s.buffer + Data(s.inbound) == r.buffer + Data(r.inbound)
              && |data| <= max && (data == [] ==> max == 0) && s.read == r.read + data
            case End =>
              && r.buffer == [] && Data(s.inbound) == Data(r.inbound) && s.read == r.read
              && (r.fin || !NoFin(r.inbound)) && s.fin && s.ended
            case Pending =>
              && r.buffer == [] && Data(r.inbound) == [] && s.inbound == [] && s.read == r.read
              && !r.fin && NoFin(r.inbound)
            case Failed(_) => false
    decreases |r.inbound|
  {
    hide NoFin;
    if r.buffer != [] {
      assert r.buffer[..Min(max, |r.buffer|)] + r.buffer[Min(max, |r.buffer|)..] == r.buffer;
    } else if !r.fin && r.inbound != [] {
      ReadGives(AfterRead(r, Pull(0)), max);
      NoFinHead(r.inbound);
      assert [] + Data(r.inbound) == Data(r.inbound);
    } else {
      assert Data([]) == [];
      NoFinEmpty();
    }
  }

  lemma NoFinEmpty()
    ensures NoFin([])
  {
  }

  lemma NoFinHead(fs: seq<Stream>)
    requires fs != []
    ensures NoFin(fs) == (!fs[0].fin && NoFin(fs[1..]))
  {
    assert forall i | 1 <= i < |fs| :: fs[i] == fs[1..][i - 1];
  }

  lemma EndSeen(r: Receiver)
    ensures AfterRead(r, SeeEnd(0)) == r.(ended := true)
  {
  }

  /** A frame taken in is dispatched to its stream or opens it, and leaves the tables accordingly. */
  lemma Effects(e: Endpoint, f: Stream)
    requires Welcome(e, f)
    ensures var d := Mux.Deliver(e, f);
            && d.recvTable == (if f.fin then e.recvTable - {f.id} else e.recvTable + {f.id})
            && d.sendTable == (if f.id !in e.recvTable && Dir(f.id).Bi? then e.sendTable + {f.id} else e.sendTable)
    ensures Dispatch(e.isServer, e.sendTable, e.recvTable, StreamFrame(f))
            == if f.id in e.recvTable then DeliverData(!f.fin) else OpenStream(Dir(f.id), !f.fin)
    ensures CanRecv(f.id, e.isServer)
    ensures f.id !in e.recvTable ==> f.id !in e.recvs && ServerInitiated(f.id) != e.isServer
  {
  }

  /** The channels from the streams to the session; `waiting` holds what is blocked on a full queue. */
  class Outbound {
    var queued: seq<Frame>
    var waiting: seq<Frame>
    var priority: seq<Frame>
    var closed: bool

    constructor ()
      ensures queued == [] && waiting == [] && priority == [] && !closed
    {
      queued, waiting, priority, closed := [], [], [], false;
    }

    /** One of those that wait for room gets its frame in. */
    method Enqueue(at: nat)
      requires at < |waiting| && |queued| < OUTBOUND_CAPACITY
      modifies this`queued, this`waiting
      ensures queued == old(queued) + [old(waiting)[at]]
      ensures waiting == old(waiting)[..at] + old(waiting)[at + 1..]
    {
      queued := queued + [waiting[at]];
      waiting := waiting[..at] + waiting[at + 1..];
    }
  }

  class SendStream {
    const id: StreamId
    const outbound: Outbound
    var stops: seq<nat>
    var offset: nat
    var closed: Option<Error>
    var fin: bool
    ghost var written: Bytes

    constructor (id: StreamId, outbound: Outbound)
      ensures this.id == id && this.outbound == outbound
      ensures stops == [] && offset == 0 && closed == None && !fin && written == []
    {
      this.id, this.outbound := id, outbound;
      stops, offset, closed, fin, written := [], 0, None, false, [];
    }

    /** A stop turns into a reset, once. */
    method RecvStop(code: nat) returns (error: Error)
      modifies this`closed, outbound`priority
      ensures closed == Some(error)
      ensures error == if old(closed).Some? then old(closed).value else StreamStop(code)
      ensures outbound.priority
              == if old(closed).Some? then old(outbound.priority) else old(outbound.priority) + [ResetStream(id, code)]
    {
      if closed.Some? { return closed.value; }
      error := StreamStop(code);
      outbound.priority := outbound.priority + [ResetStream(id, code)];
      closed := Some(error);
    }

    /** Writes one frame, or meets a stop; when both are possible either may come first. None: it waits. */
    method WriteBuf(chunk: Bytes) returns (r: Option<Result<nat, Error>>)
      modifies this`offset, this`stops, this`closed, this`written, outbound`queued, outbound`priority
      ensures old(closed).Some? ==> r == Some(Failure(old(closed).value))
      ensures old(closed).None? && fin ==> r == Some(Failure(StreamClosed))
      ensures old(closed).None? && !fin && r.Some? && r.value.Failure? ==>
                if r.value.error == Closed then
                  outbound.closed && closed.None? && stops == old(stops) && outbound.priority == old(outbound.priority)
                else
                  && old(stops) != [] && stops == old(stops)[1..]
                  && r.value.error == StreamStop(old(stops)[0]) && closed == Some(r.value.error)
                  && outbound.priority == old(outbound.priority) + [ResetStream(id, old(stops)[0])]
      ensures r.Some? && r.value.Success? ==>
                && r.value.value == |chunk| && offset == old(offset) + |chunk|
                && |old(outbound.queued)| < OUTBOUND_CAPACITY
                && outbound.queued == old(outbound.queued) + [StreamFrame(Stream(id, chunk, false))]
                && stops == old(stops) && closed == None && !fin && outbound.priority == old(outbound.priority)
      ensures r.None? || r.value.Failure? ==> outbound.queued == old(outbound.queued) && offset == old(offset)
      ensures written == if r.Some? && r.value.Success? then old(written) + chunk else old(written)
      ensures r.None? ==> old(stops) == [] && old(closed).None? && stops == [] && closed.None?
                          && |old(outbound.queued)| >= OUTBOUND_CAPACITY && outbound.priority == old(outbound.priority)
      ensures old(closed).None? && !fin && |outbound.queued| < OUTBOUND_CAPACITY && old(stops) == [] && !outbound.closed ==>
                r.Some? && r.value.Success?
      ensures old(closed).None? && !fin && |old(outbound.queued)| >= OUTBOUND_CAPACITY && old(stops) == [] ==>
                outbound.closed || r == None
    {
      if closed.Some? { return Some(Failure(closed.value)); }
      if fin { return Some(Failure(StreamClosed)); }
      var stopFirst: bool := *;
      if stops != [] && (stopFirst || (|outbound.queued| >= OUTBOUND_CAPACITY && !outbound.closed)) {
        var code := stops[0];
        stops := stops[1..];
        var error := RecvStop(code);
        return Some(Failure(error));
      }
      if outbound.closed { return Some(Failure(Closed)); }
      if |outbound.queued| >= OUTBOUND_CAPACITY { return None; }
      outbound.queued := outbound.queued + [StreamFrame(Stream(id, chunk, false))];
      offset := offset + |chunk|;
      written := written + chunk;
      return Some(Success(|chunk|));
    }

    /** Ends the stream: the FIN goes behind every frame already queued, or waits until there is room. */
    method Finish() returns (r: Result<(), Error>)
      modifies this`fin, outbound`queued, outbound`waiting
      ensures closed.Some? ==> r == Failure(closed.value) && fin == old(fin)
                               && outbound.queued == old(outbound.queued) && outbound.waiting == old(outbound.waiting)
      ensures closed.None? ==> r == Success(()) && fin
      ensures closed.None? && !outbound.closed ==>
                var frame := StreamFrame(Mux.Fin(id));
                if |old(outbound.queued)| < OUTBOUND_CAPACITY
                then outbound.queued == old(outbound.queued) + [frame] && outbound.waiting == old(outbound.waiting)
                else outbound.queued == old(outbound.queued) && outbound.waiting == old(outbound.waiting) + [frame]
    {
      if closed.Some? { return Failure(closed.value); }
      var frame := StreamFrame(Stream(id, [], true));
      if !outbound.closed {
        if |outbound.queued| < OUTBOUND_CAPACITY { outbound.queued := outbound.queued + [frame]; }
        else { outbound.waiting := outbound.waiting + [frame]; }
      }
      fin := true;
      return Success(());
    }

    method Reset(code: nat)
      modifies this`closed, outbound`priority
      ensures if fin || old(closed).Some? then closed == old(closed) && outbound.priority == old(outbound.priority)
              else closed == Some(StreamReset(code)) && outbound.priority == old(outbound.priority) + [ResetStream(id, code)]
    {
      if fin || closed.Some? { return; }
      outbound.priority := outbound.priority + [ResetStream(id, code)];
      closed := Some(StreamReset(code));
    }

    /** Dropping an open stream finishes it if there is room, and never waits. */
    method Drop()
      modifies this`fin, outbound`queued
      ensures outbound.queued
              == if !old(fin) && closed.None? && !outbound.closed && |old(outbound.queued)| < OUTBOUND_CAPACITY
                 then old(outbound.queued) + [StreamFrame(Mux.Fin(id))] else old(outbound.queued)
      ensures fin == (old(fin) || closed.None?)
    {
      if !fin && closed.None? {
        if !outbound.closed && |outbound.queued| < OUTBOUND_CAPACITY {
          outbound.queued := outbound.queued + [StreamFrame(Stream(id, [], true))];
        }
        fin := true;
      }
    }
  }

  class RecvStream {
    const id: StreamId
    const outbound: Outbound
    var inbound: seq<Stream>
    var resets: seq<nat>
    /** The session has let go of its ends of the two channels. */
    var released: bool
    var buffer: Bytes
    var closed: Option<Error>
    var fin: bool
    ghost var consumed: seq<Stream>
    ghost var read: Bytes
    ghost var ended: bool

    ghost function Model(): Receiver
      reads this
    {
      Receiver(inbound, buffer, fin, consumed, read, ended)
    }

    constructor (id: StreamId, outbound: Outbound)
      ensures this.id == id && this.outbound == outbound
      ensures Model() == FRESH_RECEIVER && resets == [] && !released && closed == None
    {
      this.id, this.outbound := id, outbound;
      inbound, resets, released, buffer, closed, fin := [], [], false, [], None, false;
      consumed, read, ended := [], [], false;
    }

    method RecvReset(code: nat) returns (error: Error)
      modifies this`closed
      ensures closed == Some(error) && error == if old(closed).Some? then old(closed).value else StreamReset(code)
    {
      if closed.Some? { return closed.value; }
      closed := Some(StreamReset(code));
      return StreamReset(code);
    }

    /** Hands out the front of the buffer. */
    method SplitBuffer(max: nat) returns (data: Bytes)
      modifies this`buffer, this`read
      ensures Model() == AfterRead(old(Model()), Take(0, max)) && data == old(buffer)[..Min(max, |old(buffer)|)]
    {
      var size := Min(max, |buffer|);
      data := buffer[..size];
      read := read + data;
      buffer := buffer[size..];
    }

    /** Takes the next frame off the channel into the empty buffer. */
    method Absorb()
      requires inbound != []
      modifies this`inbound, this`consumed, this`fin, this`buffer
      ensures Model() == AfterRead(old(Model()), Pull(0)) && |inbound| < |old(inbound)|
    {
      var stream := inbound[0];
      inbound := inbound[1..];
      consumed := consumed + [stream];
      fin := stream.fin;
      buffer := stream.data;
    }

    /**
     * Reads as the model does while no reset or stop interferes. Bytes in the buffer and an end already seen
     * go before any error; a reset is met only between frames.
     */
    method ReadChunk(max: nat) returns (r: Outcome)
      modifies this
      ensures old(resets) == [] && old(closed).None? ==>
                var (after, o) := ReadRun(old(Model()), max);
                Model() == after && closed.None? && resets == []
                && r == (if o.Pending? && released then Failed(Closed) else o)
      ensures old(buffer) != [] || old(fin) ==>
                Model() == ReadRun(old(Model()), max).0 && r == ReadRun(old(Model()), max).1
                && closed == old(closed) && resets == old(resets)
      ensures old(closed).Some? && old(buffer) == [] && !old(fin) ==>
                r == Failed(old(closed).value) && Model() == old(Model())
      ensures old(closed).None? && old(resets) != [] ==> r.Chunk? || r.End? || r == Failed(StreamReset(old(resets)[0]))
      ensures r.Chunk? || r.End? ==> r == ReadRun(old(Model()), max).1 && Model() == ReadRun(old(Model()), max).0
      ensures old(closed).None? && old(resets) != [] && r.Failed? ==> closed == Some(r.error) && resets == old(resets)[1..]
      ensures released == old(released)
    {
      hide AfterRead;
      while true
        invariant closed == old(closed) && resets == old(resets) && released == old(released)
        invariant ReadRun(Model(), max) == ReadRun(old(Model()), max)
        invariant old(buffer) != [] || old(fin) || old(closed).Some? ==> Model() == old(Model())
        decreases |inbound|
      {
        if buffer != [] {
          var data := SplitBuffer(max);
          return Chunk(data);
        }
        if fin {
          EndSeen(Model());
          ended := true;
          return End;
        }
        if closed.Some? { return Failed(closed.value); }
        var resetFirst: bool := *;
        if inbound != [] && (resets == [] || !resetFirst) {
          Absorb();
        } else if resets != [] {
          var code := resets[0];
          resets := resets[1..];
          var error := RecvReset(code);
          return Failed(error);
        } else if released {
          return Failed(Closed);
        } else {
          return Pending;
        }
      }
    }

    /** The other way to read: straight from the buffer when there is one, else as `ReadChunk`. */
    method ReadBuf(room: nat) returns (r: Outcome)
      modifies this
      ensures old(resets) == [] && old(closed).None? ==>
                var (after, o) := ReadRun(old(Model()), room);
                Model() == after && r == (if o.Pending? && released then Failed(Closed) else o)
      ensures old(buffer) != [] || old(fin) ==>
                Model() == ReadRun(old(Model()), room).0 && r == ReadRun(old(Model()), room).1
      ensures r.Chunk? || r.End? ==> r == ReadRun(old(Model()), room).1 && Model() == ReadRun(old(Model()), room).0
      ensures old(closed).Some? && old(buffer) == [] && !old(fin) ==> r == Failed(old(closed).value)
      ensures old(closed).None? && old(resets) != [] ==> r.Chunk? || r.End? || r == Failed(StreamReset(old(resets)[0]))
    {
      if buffer != [] {
        var data := SplitBuffer(room);
        return Chunk(data);
      }
      r := ReadChunk(room);
    }

    method Stop(code: nat)
      modifies this`closed, outbound`priority
      ensures closed == Some(StreamStop(code))
      ensures outbound.priority == old(outbound.priority) + [StopSending(id, code)]
    {
      outbound.priority := outbound.priority + [StopSending(id, code)];
      closed := Some(StreamStop(code));
    }
  }

  class SessionState {
    const isServer: bool
    const outbound: Outbound
    var createUni: seq<SendStream>
    var createBi: seq<(SendStream, RecvStream)>
    var acceptUni: seq<RecvStream>
    var acceptBi: seq<(SendStream, RecvStream)>
    var sendStreams: map<StreamId, SendStream>
    var recvStreams: map<StreamId, RecvStream>
    var closed: Option<Error>

    constructor (isServer: bool)
      ensures Valid() && this.isServer == isServer && fresh(outbound)
      ensures createUni == [] && createBi == [] && acceptUni == [] && acceptBi == []
      ensures sendStreams == map[] && recvStreams == map[] && closed == None
    {
      this.isServer := isServer;
      outbound := new Outbound();
      createUni, createBi, acceptUni, acceptBi := [], [], [], [];
      sendStreams, recvStreams, closed := map[], map[], None;
    }

    /** Every table entry is the stream of its own identifier. */
    ghost predicate Valid()
      reads this`sendStreams, this`recvStreams, sendStreams.Values, recvStreams.Values
    {
      && (forall id | id in sendStreams :: sendStreams[id].id == id)
      && (forall id | id in recvStreams :: recvStreams[id].id == id)
    }

    /** Removes a stream from the receiving table; nothing more will come through its channels. */
    method Release(id: StreamId, recv: RecvStream)
      requires id in recvStreams && recvStreams[id] == recv
      modifies this`recvStreams, recv`released
      ensures recvStreams == old(recvStreams) - {id} && recv.released
    {
      recv.released := true;
      recvStreams := recvStreams - {id};
    }

    method NewRecvStream(s: Stream) returns (recv: RecvStream)
      ensures fresh(recv) && recv.id == s.id && recv.outbound == outbound
      ensures recv.Model() == FRESH_RECEIVER.(inbound := [s])
      ensures recv.resets == [] && recv.closed.None? && recv.released == s.fin
    {
      recv := new RecvStream(s.id, outbound);
      recv.inbound := [s];
      recv.released := s.fin;
    }

    /** A new stream of the peer's: made, put in the tables, and queued to be accepted. */
    method Open(s: Stream) returns (ghost recv: RecvStream, ghost send: SendStream?)
      requires Valid()
      modifies this
      ensures Valid()
      ensures fresh(recv) && NewStream(recv, s) && (send != null ==> fresh(send))
      ensures recvStreams == if s.fin then old(recvStreams) else old(recvStreams)[s.id := recv]
      ensures Dir(s.id).Uni? ==>
                acceptUni == old(acceptUni) + [recv] && acceptBi == old(acceptBi) && sendStreams == old(sendStreams)
      ensures Dir(s.id).Bi? ==>
                && send != null && NewSender(send, s) && fresh(send)
                && acceptBi == old(acceptBi) + [(send, recv)] && acceptUni == old(acceptUni)
                && sendStreams == old(sendStreams)[s.id := send]
      ensures createUni == old(createUni) && createBi == old(createBi) && closed == old(closed)
    {
      var front := NewRecvStream(s);
      recv, send := front, null;
      if Dir(s.id) == Uni {
        acceptUni := acceptUni + [front];
      } else {
        var back := new SendStream(s.id, outbound);
        send := back;
        sendStreams := sendStreams[s.id := back];
        acceptBi := acceptBi + [(back, front)];
      }
      if !s.fin { recvStreams := recvStreams[s.id := front]; }
    }

    /** What the receivers in the table hold. */
    ghost function Models(): map<StreamId, Receiver>
      reads this, recvStreams.Values
    {
      map id | id in recvStreams :: recvStreams[id].Model()
    }

    /**
     * What a stream frame did, against the queues, tables and receivers as they were: nothing, if the stream cannot
     * be received on or is a closed one of this side; else its channel has it, and a new one of the peer's is made,
     * put in the tables and queued to be accepted. With its FIN a stream leaves the receiving table.
     */
    ghost predicate Took(s: Stream, uni: seq<RecvStream>, bi: seq<(SendStream, RecvStream)>,
                         sends: map<StreamId, SendStream>, recvs: map<StreamId, RecvStream>,
                         before: map<StreamId, Receiver>, recv: RecvStream?, send: SendStream?)
      reads this, recvs.Values, recv, send
    {
      && (forall k | k in recvs && k != s.id :: k in before && recvs[k].Model() == before[k])
      && if !CanRecv(s.id, isServer) || (s.id !in recvs && isServer == ServerInitiated(s.id)) then
           && recvStreams == recvs && sendStreams == sends && acceptUni == uni && acceptBi == bi
           && (s.id in recvs ==> s.id in before && recvs[s.id].Model() == before[s.id])
         else if s.id in recvs then
           && sendStreams == sends && acceptUni == uni && acceptBi == bi
           && recvStreams == (if s.fin then recvs - {s.id} else recvs)
           && s.id in before && recvs[s.id].Model() == before[s.id].(inbound := before[s.id].inbound + [s])
           && (s.fin ==> recvs[s.id].released)
         else
           && recv != null && NewStream(recv, s)
           && recvStreams == (if s.fin then recvs else recvs[s.id := recv])
           && if Dir(s.id).Uni? then acceptUni == uni + [recv] && acceptBi == bi && sendStreams == sends
              else && send != null && NewSender(send, s)
                   && acceptBi == bi + [(send, recv)] && acceptUni == uni && sendStreams == sends[s.id := send]
    }

    /** A stream frame: to a known stream, a new one of the peer's, nobody, or an error. */
    method RecvStreamFrame(s: Stream) returns (r: Result<(), Error>, ghost recv: RecvStream?, ghost send: SendStream?)
      requires Valid()
      modifies this, recvStreams.Values
      ensures Valid()
      ensures r == if CanRecv(s.id, isServer) then Success(()) else Failure(InvalidStreamId)
      ensures Took(s, old(acceptUni), old(acceptBi), old(sendStreams), old(recvStreams), old(Models()), recv, send)
      ensures (recv != null ==> fresh(recv)) && (send != null ==> fresh(send))
      ensures createUni == old(createUni) && createBi == old(createBi) && closed == old(closed)
    {
      recv, send := null, null;
      if !CanRecv(s.id, isServer) { return Failure(InvalidStreamId), null, null; }
      if s.id in recvStreams {
        recvStreams[s.id].inbound := recvStreams[s.id].inbound + [s];
        if s.fin { Release(s.id, recvStreams[s.id]); }
        return Success(()), null, null;
      }
      if isServer == ServerInitiated(s.id) { return Success(()), null, null; }
      recv, send := Open(s);
      r := Success(());
    }

    /** A receiver that holds just the frame that made it. */
    ghost predicate NewStream(recv: RecvStream, s: Stream)
      reads recv
    {
      && recv.id == s.id && recv.outbound == outbound && recv.Model() == FRESH_RECEIVER.(inbound := [s])
      && recv.resets == [] && recv.closed.None? && recv.released == s.fin
    }

    /** A sender that has sent nothing. */
    ghost predicate NewSender(send: SendStream, s: Stream)
      reads send
    {
      && send.id == s.id && send.outbound == outbound && !send.fin && send.written == []
      && send.closed.None? && send.stops == []
    }

    /** The other frames: a reset reaches a known receiver and removes it, a stop reaches a known sender. */
    method RecvControl(frame: Frame) returns (r: Result<(), Error>)
      requires Valid() && !frame.StreamFrame?
      modifies this, recvStreams.Values, if frame.StopSending? then sendStreams.Values else {}
      ensures Valid() && sendStreams == old(sendStreams)
      ensures r == if (frame.ResetStream? && !CanRecv(frame.id, isServer)) || (frame.StopSending? && !CanSend(frame.id, isServer))
                   then Failure(InvalidStreamId) else Success(())
      ensures frame.ResetStream? && CanRecv(frame.id, isServer) && frame.id in old(recvStreams) ==>
                && recvStreams == old(recvStreams) - {frame.id} && old(recvStreams[frame.id]).released
                && old(recvStreams[frame.id]).resets == old(recvStreams[frame.id].resets) + [frame.code]
      ensures !(frame.ResetStream? && CanRecv(frame.id, isServer) && frame.id in old(recvStreams)) ==>
                recvStreams == old(recvStreams)
      ensures frame.StopSending? && CanSend(frame.id, isServer) && frame.id in old(sendStreams) ==>
                old(sendStreams[frame.id]).stops == old(sendStreams[frame.id].stops) + [frame.code]
      ensures forall k | k in old(recvStreams) && !(frame.ResetStream? && k == frame.id) ::
                old(recvStreams[k]).resets == old(recvStreams[k].resets)
                && old(recvStreams[k]).released == old(recvStreams[k].released)
      ensures forall k | k in old(sendStreams) && !(frame.StopSending? && k == frame.id) ::
                old(sendStreams[k]).stops == old(sendStreams[k].stops)
      ensures closed == if frame.ConnectionClose? then Some(ConnectionClosed(frame.code, frame.reason)) else old(closed)
      ensures forall k | k in old(recvStreams) :: old(recvStreams[k]).Model() == old(recvStreams[k].Model())
      ensures acceptUni == old(acceptUni) && acceptBi == old(acceptBi)
      ensures createUni == old(createUni) && createBi == old(createBi)
    {
      match frame
      case ResetStream(id, code) =>
        if !CanRecv(id, isServer) { return Failure(InvalidStreamId); }
        if id in recvStreams {
          recvStreams[id].resets := recvStreams[id].resets + [code];
          Release(id, recvStreams[id]);
        }
        return Success(());
      case StopSending(id, code) =>
        if !CanSend(id, isServer) { return Failure(InvalidStreamId); }
        if id in sendStreams { sendStreams[id].stops := sendStreams[id].stops + [code]; }
        return Success(());
      case ConnectionClose(code, reason) =>
        closed := Some(ConnectionClosed(code, reason));
        return Success(());
    }

    /** Sending updates the tables first: a FIN or reset forgets the sender, a stop forgets the receiver. */
    method SendFrame(frame: Frame) returns (message: Bytes)
      requires Valid() && Sound(frame)
      modifies this`sendStreams, this`recvStreams, recvStreams.Values
      ensures Valid() && message == WsFrame.Encode(frame)
      ensures sendStreams == if frame.ResetStream? then old(sendStreams) - {frame.id}
                             else if frame.StreamFrame? && frame.stream.fin then old(sendStreams) - {frame.stream.id}
                             else old(sendStreams)
      ensures recvStreams == if frame.StopSending? then old(recvStreams) - {frame.id} else old(recvStreams)
      ensures frame.StopSending? && frame.id in old(recvStreams) ==> old(recvStreams[frame.id]).released
      ensures forall k | k in old(recvStreams) :: old(recvStreams[k]).Model() == old(recvStreams[k].Model())
    {
      match frame {
        case ResetStream(id, _) => sendStreams := sendStreams - {id};
        case StreamFrame(s) => if s.fin { sendStreams := sendStreams - {s.id}; }
        case StopSending(id, _) => if id in recvStreams { Release(id, recvStreams[id]); }
        case ConnectionClose(_, _) =>
      }
      message := WsFrame.Encode(frame);
    }

    /** Streams opened together carry one identifier, and what the streams queued can be encoded. */
    ghost predicate Queued()
      reads this, outbound
    {
      && (forall i | 0 <= i < |createBi| :: createBi[i].0.id == createBi[i].1.id)
      && (forall i | 0 <= i < |outbound.queued| :: Sound(outbound.queued[i]))
      && (forall i | 0 <= i < |outbound.priority| :: Sound(outbound.priority[i]))
    }

    /** The message is a STOP_SENDING frame, the one frame that reaches a sending stream. */
    static predicate Stops(message: Option<Bytes>) {
      message.Some? && WsFrame.Decode(message.value).Success? && WsFrame.Decode(message.value).value.StopSending?
    }

    /** A message from the peer: an error if it is no frame, else what its frame does. */
    method Receive(message: Bytes) returns (r: Turned, ghost recv: RecvStream?, ghost send: SendStream?)
      requires Valid()
      modifies this, recvStreams.Values, if Stops(Some(message)) then sendStreams.Values else {}
      ensures Valid() && createUni == old(createUni) && createBi == old(createBi)
      ensures (recv != null ==> fresh(recv)) && (send != null ==> fresh(send))
      ensures WsFrame.Decode(message).Failure? ==>
                && r == Stopped(InvalidFrame(WsFrame.Decode(message).error))
                && recvStreams == old(recvStreams) && sendStreams == old(sendStreams) && closed == old(closed)
                && acceptUni == old(acceptUni) && acceptBi == old(acceptBi) && Models() == old(Models())
      ensures WsFrame.Decode(message).Success? && WsFrame.Decode(message).value.StreamFrame? ==>
                var s := WsFrame.Decode(message).value.stream;
                && r == (if CanRecv(s.id, isServer) then Handled else Stopped(InvalidStreamId))
                && Took(s, old(acceptUni), old(acceptBi), old(sendStreams), old(recvStreams), old(Models()), recv, send)
                && closed == old(closed)
      ensures WsFrame.Decode(message).Success? && WsFrame.Decode(message).value.ResetStream? ==>
                var frame := WsFrame.Decode(message).value;
                && r == (if CanRecv(frame.id, isServer) then Handled else Stopped(InvalidStreamId))
                && (CanRecv(frame.id, isServer) && frame.id in old(recvStreams) ==>
                      && recvStreams == old(recvStreams) - {frame.id} && old(recvStreams[frame.id]).released
                      && old(recvStreams[frame.id]).resets == old(recvStreams[frame.id].resets) + [frame.code])
                && (!(CanRecv(frame.id, isServer) && frame.id in old(recvStreams)) ==> recvStreams == old(recvStreams))
                && sendStreams == old(sendStreams) && closed == old(closed)
                && acceptUni == old(acceptUni) && acceptBi == old(acceptBi)
      ensures Stops(Some(message)) ==>
                var frame := WsFrame.Decode(message).value;
                && r == (if CanSend(frame.id, isServer) then Handled else Stopped(InvalidStreamId))
                && (CanSend(frame.id, isServer) && frame.id in old(sendStreams) ==>
                      old(sendStreams[frame.id]).stops == old(sendStreams[frame.id].stops) + [frame.code])
                && recvStreams == old(recvStreams) && sendStreams == old(sendStreams) && closed == old(closed)
                && acceptUni == old(acceptUni) && acceptBi == old(acceptBi)
      ensures WsFrame.Decode(message).Success? && WsFrame.Decode(message).value.ConnectionClose? ==>
                var frame := WsFrame.Decode(message).value;
                && r == Handled && closed == Some(ConnectionClosed(frame.code, frame.reason))
                && recvStreams == old(recvStreams) && sendStreams == old(sendStreams)
                && acceptUni == old(acceptUni) && acceptBi == old(acceptBi)
    {
      hide WsFrame.Decode, Took, NewStream, NewSender;
      recv, send := null, null;
      match WsFrame.Decode(message)
      case Failure(e) => return Stopped(InvalidFrame(e)), null, null;
      case Success(frame) =>
        var done: Result<(), Error>;
        if frame.StreamFrame? { done, recv, send := RecvStreamFrame(frame.stream); } else { done := RecvControl(frame); }
        r := if done.Failure? then Stopped(done.error) else Handled;
    }

    /** A turn without a message: it registers a stream, sends an urgent frame or stream data, or finds nothing to do. */
    method Work() returns (r: Turned)
      requires Valid() && Queued()
      modifies this`createUni, this`createBi, this`sendStreams, this`recvStreams
      modifies outbound`queued, outbound`priority, recvStreams.Values
      ensures Valid()
      ensures forall k | k in old(recvStreams) :: old(recvStreams[k]).Model() == old(recvStreams[k].Model())
      ensures old(createUni) != [] ==>
                var send := old(createUni)[0];
                && r == Handled && createUni == old(createUni)[1..] && createBi == old(createBi)
                && sendStreams == old(sendStreams)[send.id := send] && recvStreams == old(recvStreams)
                && outbound.queued == old(outbound.queued) && outbound.priority == old(outbound.priority)
      ensures old(createUni) == [] && old(createBi) != [] ==>
                var (send, recv) := old(createBi)[0];
                && r == Handled && createUni == [] && createBi == old(createBi)[1..]
                && sendStreams == old(sendStreams)[send.id := send] && recvStreams == old(recvStreams)[recv.id := recv]
                && outbound.queued == old(outbound.queued) && outbound.priority == old(outbound.priority)
      ensures old(createUni) == [] && old(createBi) == [] ==> createUni == [] && createBi == []
      ensures old(createUni) == [] && old(createBi) == [] && old(outbound.priority) != [] ==>
                var frame := old(outbound.priority)[0];
                && r == Sent(WsFrame.Encode(frame))
                && outbound.priority == old(outbound.priority)[1..] && outbound.queued == old(outbound.queued)
                && sendStreams == (if frame.ResetStream? then old(sendStreams) - {frame.id}
                                   else if frame.StreamFrame? && frame.stream.fin then old(sendStreams) - {frame.stream.id}
                                   else old(sendStreams))
                && recvStreams == (if frame.StopSending? then old(recvStreams) - {frame.id} else old(recvStreams))
      ensures old(createUni) == [] && old(createBi) == [] && old(outbound.priority) == [] && old(outbound.queued) != [] ==>
                var frame := old(outbound.queued)[0];
                && r == Sent(WsFrame.Encode(frame))
                && outbound.queued == old(outbound.queued)[1..] && outbound.priority == []
                && sendStreams == (if frame.ResetStream? then old(sendStreams) - {frame.id}
                                   else if frame.StreamFrame? && frame.stream.fin then old(sendStreams) - {frame.stream.id}
                                   else old(sendStreams))
                && recvStreams == (if frame.StopSending? then old(recvStreams) - {frame.id} else old(recvStreams))
      ensures old(createUni) == [] && old(createBi) == [] && old(outbound.priority) == [] && old(outbound.queued) == [] ==>
                && r == (if closed.Some? then Stopped(closed.value) else Idle)
                && outbound.queued == [] && outbound.priority == []
                && sendStreams == old(sendStreams) && recvStreams == old(recvStreams)
    {
      if createUni != [] {
        var send := createUni[0];
        createUni := createUni[1..];
        sendStreams := sendStreams[send.id := send];
        r := Handled;
      } else if createBi != [] {
        var (send, recv) := createBi[0];
        createBi := createBi[1..];
        sendStreams := sendStreams[send.id := send];
        recvStreams := recvStreams[recv.id := recv];
        r := Handled;
      } else if outbound.priority != [] {
        var frame := outbound.priority[0];
        outbound.priority := outbound.priority[1..];
        var bytes := SendFrame(frame);
        r := Sent(bytes);
      } else if outbound.queued != [] {
        var frame := outbound.queued[0];
        outbound.queued := outbound.queued[1..];
        var bytes := SendFrame(frame);
        r := Sent(bytes);
      } else {
        r := if closed.Some? then Stopped(closed.value) else Idle;
      }
    }

    /**
     * One turn of the biased loop: a message first, then streams to register, one-way before two-way,
     * then urgent frames, and stream data only when nothing else is to be done.
     */
    method Turn(message: Option<Bytes>) returns (r: Turned, ghost recv: RecvStream?, ghost send: SendStream?)
      requires Valid() && Queued()
      modifies this, outbound`queued, outbound`priority, recvStreams.Values
      modifies if Stops(message) then sendStreams.Values else {}
      ensures Valid() && (recv != null ==> fresh(recv)) && (send != null ==> fresh(send))
      ensures message.Some? ==> outbound.queued == old(outbound.queued) && outbound.priority == old(outbound.priority)
                                && createUni == old(createUni) && createBi == old(createBi)
      ensures message.Some? && WsFrame.Decode(message.value).Failure? ==>
                && r == Stopped(InvalidFrame(WsFrame.Decode(message.value).error))
                && recvStreams == old(recvStreams) && sendStreams == old(sendStreams) && closed == old(closed)
                && acceptUni == old(acceptUni) && acceptBi == old(acceptBi) && Models() == old(Models())
      ensures message.Some? && WsFrame.Decode(message.value).Success? && WsFrame.Decode(message.value).value.StreamFrame? ==>
                var s := WsFrame.Decode(message.value).value.stream;
                && r == (if CanRecv(s.id, isServer) then Handled else Stopped(InvalidStreamId))
                && Took(s, old(acceptUni), old(acceptBi), old(sendStreams), old(recvStreams), old(Models()), recv, send)
                && closed == old(closed)
      ensures message.Some? && WsFrame.Decode(message.value).Success? && WsFrame.Decode(message.value).value.ResetStream? ==>
                var frame := WsFrame.Decode(message.value).value;
                && r == (if CanRecv(frame.id, isServer) then Handled else Stopped(InvalidStreamId))
                && (CanRecv(frame.id, isServer) && frame.id in old(recvStreams) ==>
                      && recvStreams == old(recvStreams) - {frame.id} && old(recvStreams[frame.id]).released
                      && old(recvStreams[frame.id]).resets == old(recvStreams[frame.id].resets) + [frame.code])
                && (!(CanRecv(frame.id, isServer) && frame.id in old(recvStreams)) ==> recvStreams == old(recvStreams))
                && sendStreams == old(sendStreams) && closed == old(closed)
                && acceptUni == old(acceptUni) && acceptBi == old(acceptBi)
      ensures Stops(message) ==>
                var frame := WsFrame.Decode(message.value).value;
                && r == (if CanSend(frame.id, isServer) then Handled else Stopped(InvalidStreamId))
                && (CanSend(frame.id, isServer) && frame.id in old(sendStreams) ==>
                      old(sendStreams[frame.id]).stops == old(sendStreams[frame.id].stops) + [frame.code])
                && recvStreams == old(recvStreams) && sendStreams == old(sendStreams) && closed == old(closed)
                && acceptUni == old(acceptUni) && acceptBi == old(acceptBi)
      ensures message.Some? && WsFrame.Decode(message.value).Success? && WsFrame.Decode(message.value).value.ConnectionClose? ==>
                var frame := WsFrame.Decode(message.value).value;
                && r == Handled && closed == Some(ConnectionClosed(frame.code, frame.reason))
                && recvStreams == old(recvStreams) && sendStreams == old(sendStreams)
                && acceptUni == old(acceptUni) && acceptBi == old(acceptBi)
      ensures message.None? ==>
                && acceptUni == old(acceptUni) && acceptBi == old(acceptBi) && closed == old(closed)
                && forall k | k in old(recvStreams) :: old(recvStreams[k]).Model() == old(recvStreams[k].Model())
      ensures message.None? && old(createUni) != [] ==>
                var send := old(createUni)[0];
                && r == Handled && createUni == old(createUni)[1..] && createBi == old(createBi)
                && sendStreams == old(sendStreams)[send.id := send] && recvStreams == old(recvStreams)
                && outbound.queued == old(outbound.queued) && outbound.priority == old(outbound.priority)
      ensures message.None? && old(createUni) == [] && old(createBi) != [] ==>
                var (send, recv) := old(createBi)[0];
                && r == Handled && createUni == [] && createBi == old(createBi)[1..]
                && sendStreams == old(sendStreams)[send.id := send] && recvStreams == old(recvStreams)[recv.id := recv]
                && outbound.queued == old(outbound.queued) && outbound.priority == old(outbound.priority)
      ensures message.None? && old(createUni) == [] && old(createBi) == [] ==> createUni == [] && createBi == []
      ensures message.None? && old(createUni) == [] && old(createBi) == [] && old(outbound.priority) != [] ==>
                var frame := old(outbound.priority)[0];
                && r == Sent(WsFrame.Encode(frame))
                && outbound.priority == old(outbound.priority)[1..] && outbound.queued == old(outbound.queued)
                && sendStreams == (if frame.ResetStream? then old(sendStreams) - {frame.id}
                                   else if frame.StreamFrame? && frame.stream.fin then old(sendStreams) - {frame.stream.id}
                                   else old(sendStreams))
                && recvStreams == (if frame.StopSending? then old(recvStreams) - {frame.id} else old(recvStreams))
      ensures message.None? && old(createUni) == [] && old(createBi) == [] && old(outbound.priority) == []
              && old(outbound.queued) != [] ==>
                var frame := old(outbound.queued)[0];
                && r == Sent(WsFrame.Encode(frame))
                && outbound.queued == old(outbound.queued)[1..] && outbound.priority == []
                && sendStreams == (if frame.ResetStream? then old(sendStreams) - {frame.id}
                                   else if frame.StreamFrame? && frame.stream.fin then old(sendStreams) - {frame.stream.id}
                                   else old(sendStreams))
                && recvStreams == (if frame.StopSending? then old(recvStreams) - {frame.id} else old(recvStreams))
      ensures message.None? && old(createUni) == [] && old(createBi) == [] && old(outbound.priority) == []
              && old(outbound.queued) == [] ==>
                && r == (if closed.Some? then Stopped(closed.value) else Idle)
                && outbound.queued == [] && outbound.priority == []
                && sendStreams == old(sendStreams) && recvStreams == old(recvStreams)
    {
      hide WsFrame.Decode, WsFrame.Encode, Took, NewStream, NewSender;
      recv, send := null, null;
      if message.Some? { r, recv, send := Receive(message.value); } else { r := Work(); }
    }

    function Ids(streams: seq<RecvStream>): (ids: seq<StreamId>)
      ensures |ids| == |streams|
    {
      seq(|streams|, i requires 0 <= i < |streams| => streams[i].id)
    }

    function PairIds(streams: seq<(SendStream, RecvStream)>): (ids: seq<StreamId>)
      ensures |ids| == |streams|
    {
      seq(|streams|, i requires 0 <= i < |streams| => streams[i].1.id)
    }

    /** The session stands where the model's endpoint stands: same tables, same streams in them, same accept queues. */
    ghost predicate Matches(e: Endpoint)
      reads this`sendStreams, this`recvStreams, this`acceptUni, this`acceptBi, recvStreams.Values
    {
      && isServer == e.isServer
      && sendStreams.Keys == e.sendTable && recvStreams.Keys == e.recvTable
      && (forall id | id in recvStreams :: id in e.recvs && recvStreams[id].Model() == e.recvs[id])
      && Ids(acceptUni) == e.acceptUni && PairIds(acceptBi) == e.acceptBi
    }

    /** What `Matches` says, with the receivers' contents apart. */
    lemma Snapshot(e: Endpoint)
      requires Valid() && Matches(e)
      ensures Matched(e, acceptUni, acceptBi, sendStreams, recvStreams, Models())
    {
    }

    /** Queues, tables and contents that match an endpoint. */
    ghost predicate Matched(e: Endpoint, uni: seq<RecvStream>, bi: seq<(SendStream, RecvStream)>,
                            sends: map<StreamId, SendStream>, recvs: map<StreamId, RecvStream>,
                            before: map<StreamId, Receiver>)
    {
      && isServer == e.isServer && Ids(uni) == e.acceptUni && PairIds(bi) == e.acceptBi
      && sends.Keys == e.sendTable && recvs.Keys == e.recvTable
      && (forall k | k in recvs :: k in before && k in e.recvs && before[k] == e.recvs[k] && recvs[k].id == k)
    }

    /** A frame taken in leaves the session where delivery leaves the endpoint. */
    lemma TookMatches(e: Endpoint, s: Stream, uni: seq<RecvStream>, bi: seq<(SendStream, RecvStream)>,
                      sends: map<StreamId, SendStream>, recvs: map<StreamId, RecvStream>,
                      before: map<StreamId, Receiver>, recv: RecvStream?, send: SendStream?)
      requires Matched(e, uni, bi, sends, recvs, before) && Welcome(e, s)
      requires Took(s, uni, bi, sends, recvs, before, recv, send)
      ensures Matches(Mux.Deliver(e, s))
    {
      TookQueues(e, s, uni, bi, sends, recvs, before, recv, send);
      TookReceivers(e, s, uni, bi, sends, recvs, before, recv, send);
      hide Mux.Deliver, Welcome, Dir, Took, NewStream, NewSender, Ids, PairIds;
      SameSide(e, s);
    }

    lemma SameSide(e: Endpoint, s: Stream)
      ensures Mux.Deliver(e, s).isServer == e.isServer
    {
    }

    /** ... the tables and the accept queues, */
    lemma TookQueues(e: Endpoint, s: Stream, uni: seq<RecvStream>, bi: seq<(SendStream, RecvStream)>,
                     sends: map<StreamId, SendStream>, recvs: map<StreamId, RecvStream>,
                     before: map<StreamId, Receiver>, recv: RecvStream?, send: SendStream?)
      requires Matched(e, uni, bi, sends, recvs, before) && Welcome(e, s)
      requires Took(s, uni, bi, sends, recvs, before, recv, send)
      ensures var d := Mux.Deliver(e, s);
              && Ids(acceptUni) == d.acceptUni && PairIds(acceptBi) == d.acceptBi
              && sendStreams.Keys == d.sendTable && recvStreams.Keys == d.recvTable
    {
      hide Mux.Deliver, Welcome, Dispatch, Dir, ServerInitiated, CanRecv;
      Effects(e, s);
      DeliverHere(e, s);
      DeliverFrame(e, s);
      assert recv != null ==> Ids(uni + [recv]) == Ids(uni) + [recv.id];
      assert recv != null && send != null ==> PairIds(bi + [(send, recv)]) == PairIds(bi) + [recv.id];
    }

    /** ... and the receivers. */
    lemma TookReceivers(e: Endpoint, s: Stream, uni: seq<RecvStream>, bi: seq<(SendStream, RecvStream)>,
                        sends: map<StreamId, SendStream>, recvs: map<StreamId, RecvStream>,
                        before: map<StreamId, Receiver>, recv: RecvStream?, send: SendStream?)
      requires Matched(e, uni, bi, sends, recvs, before) && Welcome(e, s)
      requires Took(s, uni, bi, sends, recvs, before, recv, send)
      ensures forall k | k in recvStreams ::
                k in Mux.Deliver(e, s).recvs && recvStreams[k].Model() == Mux.Deliver(e, s).recvs[k]
    {
      hide Mux.Deliver, Welcome, Dispatch, Dir, ServerInitiated, CanRecv, Ids, PairIds;
      Effects(e, s);
      DeliverHere(e, s);
      ghost var d := Mux.Deliver(e, s);
      forall k | k != s.id ensures k in e.recvs ==> k in d.recvs && d.recvs[k] == e.recvs[k] {
        DeliverElsewhere(e, s, k);
      }
    }

    /** The message with a frame moves the session as the model's delivery of that frame moves the endpoint. */
    method Deliver(message: Bytes, ghost s: Stream, ghost e: Endpoint) returns (r: Turned, ghost send: SendStream?)
      requires WsFrame.Decode(message) == Success(StreamFrame(s))
      requires Valid() && Queued() && Matches(e) && Welcome(e, s)
      modifies this, outbound`queued, outbound`priority, recvStreams.Values
      ensures Valid() && Matches(Mux.Deliver(e, s)) && r == Handled
      ensures outbound.queued == old(outbound.queued) && outbound.priority == old(outbound.priority)
      ensures createUni == old(createUni) && createBi == old(createBi) && closed == old(closed)
      ensures s.id !in e.recvTable && Dir(s.id).Bi? ==> send != null && fresh(send) && NewSender(send, s)
    {
      hide WsFrame.Decode, Mux.Deliver, Welcome, Dispatch, Dir, ServerInitiated, CanRecv, Matches, Matched, Took, Queued,
        NewSender, NewStream;
      Effects(e, s);
      SameServer(e);
      Snapshot(e);
      ghost var uni, bi, sends, recvs, before := acceptUni, acceptBi, sendStreams, recvStreams, Models();
      ghost var recv;
      r, recv, send := Turn(Some(message));
      TookMatches(e, s, uni, bi, sends, recvs, before, recv, send);
      TookSender(e, s, uni, bi, sends, recvs, before, recv, send);
    }

    lemma SameServer(e: Endpoint)
      requires Matches(e)
      ensures isServer == e.isServer
    {
    }

    /** A new two-way stream of the peer's comes with a sender. */
    lemma TookSender(e: Endpoint, s: Stream, uni: seq<RecvStream>, bi: seq<(SendStream, RecvStream)>,
                     sends: map<StreamId, SendStream>, recvs: map<StreamId, RecvStream>,
                     before: map<StreamId, Receiver>, recv: RecvStream?, send: SendStream?)
      requires Matched(e, uni, bi, sends, recvs, before) && Welcome(e, s)
      requires Took(s, uni, bi, sends, recvs, before, recv, send)
      ensures s.id !in e.recvTable && Dir(s.id).Bi? ==> send != null && NewSender(send, s)
    {
    }
  }

  /** The application's handle: it makes streams under counters of its own, and takes those that the peer made. */
  class Session {
    const isServer: bool
    const state: SessionState
    var nextUni: nat
    var nextBi: nat
    /** Streams whose opening waits for room in the queue to be registered; they have their numbers already. */
    var waitingUni: seq<SendStream>
    var waitingBi: seq<(SendStream, RecvStream)>

    constructor (state: SessionState)
      ensures this.state == state && isServer == state.isServer && nextUni == 0 && nextBi == 0
      ensures waitingUni == [] && waitingBi == []
    {
      this.state, isServer := state, state.isServer;
      nextUni, nextBi, waitingUni, waitingBi := 0, 0, [], [];
    }

    /** A one-way stream with the next identifier; None: it waits to be queued for registration. */
    method OpenUni() returns (r: Option<SendStream>)
      requires nextUni < 0x1000_0000_0000_0000 && isServer == state.isServer
      modifies this`nextUni, this`waitingUni, state`createUni
      ensures nextUni == old(nextUni) + 1 && (r.Some? <==> |old(state.createUni)| < CREATE_CAPACITY)
      ensures var made := if r.Some? then state.createUni else waitingUni;
              && made != []
              && var send := made[|made| - 1];
                 && fresh(send) && send.id == StreamIds.New(old(nextUni), Uni, isServer) && send.outbound == state.outbound
                 && !send.fin && send.written == [] && send.closed.None? && send.stops == []
                 && (r.Some? ==> r.value == send
                                 && state.createUni == old(state.createUni) + [send] && waitingUni == old(waitingUni))
                 && (r.None? ==> state.createUni == old(state.createUni) && waitingUni == old(waitingUni) + [send])
    {
      var send := new SendStream(StreamIds.New(nextUni, Uni, isServer), state.outbound);
      nextUni := nextUni + 1;
      if |state.createUni| < CREATE_CAPACITY {
        state.createUni := state.createUni + [send];
        return Some(send);
      }
      waitingUni := waitingUni + [send];
      r := None;
    }

    /** A two-way stream, likewise. */
    method OpenBi() returns (r: Option<(SendStream, RecvStream)>)
      requires nextBi < 0x1000_0000_0000_0000 && isServer == state.isServer
      modifies this`nextBi, this`waitingBi, state`createBi
      ensures nextBi == old(nextBi) + 1 && (r.Some? <==> |old(state.createBi)| < CREATE_CAPACITY)
      ensures var made := if r.Some? then state.createBi else waitingBi;
              && made != []
              && var (send, recv) := made[|made| - 1];
                 && fresh(send) && fresh(recv)
                 && send.id == recv.id == StreamIds.New(old(nextBi), Bi, isServer)
                 && send.outbound == recv.outbound == state.outbound
                 && !send.fin && send.written == [] && send.closed.None? && send.stops == []
                 && recv.Model() == FRESH_RECEIVER && recv.closed.None? && recv.resets == []
                 && (r.Some? ==> r.value == (send, recv)
                                 && state.createBi == old(state.createBi) + [(send, recv)] && waitingBi == old(waitingBi))
                 && (r.None? ==> state.createBi == old(state.createBi) && waitingBi == old(waitingBi) + [(send, recv)])
    {
      var id := StreamIds.New(nextBi, Bi, isServer);
      var send := new SendStream(id, state.outbound);
      var recv := new RecvStream(id, state.outbound);
      nextBi := nextBi + 1;
      if |state.createBi| < CREATE_CAPACITY {
        state.createBi := state.createBi + [(send, recv)];
        return Some((send, recv));
      }
      waitingBi := waitingBi + [(send, recv)];
      r := None;
    }

    /** One of those that wait finds room. */
    method AdmitUni(at: nat) returns (send: SendStream)
      requires at < |waitingUni| && |state.createUni| < CREATE_CAPACITY
      modifies this`waitingUni, state`createUni
      ensures send == old(waitingUni)[at] && state.createUni == old(state.createUni) + [send]
      ensures waitingUni == old(waitingUni)[..at] + old(waitingUni)[at + 1..]
    {
      send := waitingUni[at];
      state.createUni := state.createUni + [send];
      waitingUni := waitingUni[..at] + waitingUni[at + 1..];
    }

    method AdmitBi(at: nat) returns (pair: (SendStream, RecvStream))
      requires at < |waitingBi| && |state.createBi| < CREATE_CAPACITY
      modifies this`waitingBi, state`createBi
      ensures pair == old(waitingBi)[at] && state.createBi == old(state.createBi) + [pair]
      ensures waitingBi == old(waitingBi)[..at] + old(waitingBi)[at + 1..]
    {
      pair := waitingBi[at];
      state.createBi := state.createBi + [pair];
      waitingBi := waitingBi[..at] + waitingBi[at + 1..];
    }

    /** The one-way stream of the peer's that has waited longest; None: there is none and the call waits. */
    method AcceptUni() returns (r: Option<RecvStream>)
      modifies state`acceptUni
      ensures old(state.acceptUni) == [] ==> r == None && state.acceptUni == []
      ensures old(state.acceptUni) != [] ==>
                r == Some(old(state.acceptUni)[0]) && state.acceptUni == old(state.acceptUni)[1..]
    {
      if state.acceptUni == [] { return None; }
      r := Some(state.acceptUni[0]);
      state.acceptUni := state.acceptUni[1..];
    }

    method AcceptBi() returns (r: Option<(SendStream, RecvStream)>)
      modifies state`acceptBi
      ensures old(state.acceptBi) == [] ==> r == None && state.acceptBi == []
      ensures old(state.acceptBi) != [] ==>
                r == Some(old(state.acceptBi)[0]) && state.acceptBi == old(state.acceptBi)[1..]
    {
      if state.acceptBi == [] { return None; }
      r := Some(state.acceptBi[0]);
      state.acceptBi := state.acceptBi[1..];
    }
  }
}
