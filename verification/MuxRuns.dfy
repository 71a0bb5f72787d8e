/** What the two sessions promise their applications, in every state that any run can reach. */
module MuxRuns {
  import opened Wire
  import opened StreamIds
  import opened WsFrame
  import opened WsSession
  import opened Mux
  import opened MuxProof
  import VarInt

  /** Some run ends in `x`, as one side or the other sees it. */
  ghost predicate Reachable(x: System) {
    exists turns :: Exec(INITIAL, turns) == Some(x) || Exec(INITIAL, turns) == Some(Swap(x))
  }

  lemma ReachableOk(x: System)
    requires Reachable(x)
    ensures Inv(x)
  {
    hide Inv, Exec;
    var turns :| Exec(INITIAL, turns) == Some(x) || Exec(INITIAL, turns) == Some(Swap(x));
    InitialOk();
    RunKeeps(INITIAL, turns);
    if Exec(INITIAL, turns) != Some(x) {
      SwapKeeps(Swap(x));
      assert Swap(Swap(x)) == x;
    }
  }

  function AllRead(e: Endpoint, id: StreamId): Bytes {
    if id in e.recvs then e.recvs[id].read else []
  }

  function AllBuffered(e: Endpoint, id: StreamId): Bytes {
    if id in e.recvs then e.recvs[id].buffer else []
  }

  function AllInbound(e: Endpoint, id: StreamId): seq<Stream> {
    if id in e.recvs then e.recvs[id].inbound else []
  }

  function AllWritten(e: Endpoint, id: StreamId): Bytes {
    if id in e.sends then e.sends[id].written else []
  }

  lemma PipelineData(x: Slice)
    ensures Data(Pipeline(x)) == Data(x.arrived) + Data(x.flying) + Data(x.queued) + Data(x.waiting)
  {
    DataAppend(x.arrived, x.flying);
    DataAppend(x.arrived + x.flying, x.queued);
    DataAppend(x.arrived + x.flying + x.queued, x.waiting);
  }

  /** What one stream wrote is, in order, what its peer read and what is still on the way. */
  lemma SliceDelivers(x: Slice)
    requires SliceOk(x)
    ensures (if x.sender.Some? then x.sender.value.written else [])
            == (if x.receiver.Some?
                then x.receiver.value.read + x.receiver.value.buffer + Data(x.receiver.value.inbound) else [])
               + Data(x.flying) + Data(x.queued) + Data(x.waiting)
  {
    PipelineData(x);
    match x.receiver
    case None =>
      assert Data(x.arrived) == [];
    case Some(r) =>
      DataAppend(r.consumed, r.inbound);
  }

  lemma SliceEnds(x: Slice)
    requires SliceOk(x) && x.receiver.Some? && x.receiver.value.ended
    ensures x.sender.Some? && x.sender.value.fin && x.receiver.value.read == x.sender.value.written
    ensures x.receiver.value.inbound == [] && x.flying == [] && x.queued == [] && x.waiting == []
  {
    var r, p := x.receiver.value, Pipeline(x);
    var i :| 0 <= i < |r.consumed| && r.consumed[i].fin;
    assert p[i] == r.consumed[i];
    assert i == |p| - 1;
    assert p == r.consumed;
    assert r.read + r.buffer == r.read;
  }

  /**
   * Delivery: for any interleaving of any streams, what was written on a stream equals what was read,
   * the reader's buffer, the frames in its channel, on the wire, in the sender's queue and waiting for it.
   */
  lemma Delivery(x: System, id: StreamId)
    requires Reachable(x)
    ensures AllWritten(x.me, id)
            == AllRead(x.peer, id) + AllBuffered(x.peer, id) + Data(AllInbound(x.peer, id))
               + Data(Only(id, x.out)) + Data(Only(id, x.me.outbound)) + Data(Only(id, x.me.waiting))
  {
    ReachableOk(x);
    SlicesOk(x, id);
    SliceDelivers(Out(x, id));
    assert Data([]) == [];
  }

  /** A reader sees the end of its stream only after it has read every byte of a finished sender. */
  lemma EndAfterEveryByte(x: System, id: StreamId)
    requires Reachable(x) && id in x.peer.recvs && x.peer.recvs[id].ended
    ensures id in x.me.sends && x.me.sends[id].fin && x.peer.recvs[id].read == x.me.sends[id].written
  {
    ReachableOk(x);
    SlicesOk(x, id);
    SliceEnds(Out(x, id));
  }

  /** Once a sender finished and nothing of its stream is under way, its reader is left with all of it and no more. */
  lemma QuietMeansDelivered(x: System, id: StreamId)
    requires Reachable(x) && id in x.me.sends && id in x.peer.recvs
    requires Only(id, x.out) == [] && Only(id, x.me.outbound) == [] && Only(id, x.me.waiting) == []
    requires x.peer.recvs[id].inbound == [] && x.peer.recvs[id].buffer == []
    ensures x.peer.recvs[id].read == x.me.sends[id].written
  {
    Delivery(x, id);
    assert Data([]) == [];
  }

  lemma {:induction false} FirstsMember(fs: seq<Stream>, dir: StreamDir, isServer: bool, id: StreamId)
    ensures id in Firsts(fs, dir, isServer)
            <==> Only(id, fs) != [] && Dir(id) == dir && ServerInitiated(id) != isServer
  {
    hide Dir, ServerInitiated;
    if fs != [] {
      var before, last := fs[..|fs| - 1], fs[|fs| - 1];
      FirstsMember(before, dir, isServer, id);
      assert fs == before + [last];
      OnlyPush(id, before, last);
    }
  }

  lemma {:induction false} FirstsOnce(fs: seq<Stream>, dir: StreamDir, isServer: bool)
    ensures NoRepeat(Firsts(fs, dir, isServer))
  {
    hide Dir, ServerInitiated, Only;
    if fs != [] {
      var before, last := fs[..|fs| - 1], fs[|fs| - 1];
      FirstsOnce(before, dir, isServer);
      FirstsMember(before, dir, isServer, last.id);
      if last.id !in Firsts(before, dir, isServer) { NoRepeatPush(Firsts(before, dir, isServer), last.id); }
      assert Firsts(before, dir, isServer) + [] == Firsts(before, dir, isServer);
    }
  }

  /**
   * Accept once: what accept has returned or will return next is every peer stream of which a frame came in,
   * in the order of first frames, none of them twice.
   */
  lemma AcceptOnce(x: System)
    requires Reachable(x)
    ensures x.me.handedUni + x.me.acceptUni == Firsts(x.me.arrivals, Uni, x.me.isServer)
    ensures x.me.handedBi + x.me.acceptBi == Firsts(x.me.arrivals, Bi, x.me.isServer)
    ensures NoRepeat(x.me.handedUni + x.me.acceptUni) && NoRepeat(x.me.handedBi + x.me.acceptBi)
  {
    ReachableOk(x);
    FirstsOnce(x.me.arrivals, Uni, x.me.isServer);
    FirstsOnce(x.me.arrivals, Bi, x.me.isServer);
    hide Firsts, Sane, Flows;
  }

  /** A stream is known to the side that did not open it exactly when accept has returned it or will. */
  lemma AcceptedMeansKnown(x: System, id: StreamId)
    requires Reachable(x) && ServerInitiated(id) != x.me.isServer
    ensures id in x.me.recvs <==> id in x.me.handedUni + x.me.acceptUni || id in x.me.handedBi + x.me.acceptBi
  {
    AcceptOnce(x);
    ReachableOk(x);
    SlicesOk(x, id);
    FirstsMember(x.me.arrivals, Uni, x.me.isServer, id);
    FirstsMember(x.me.arrivals, Bi, x.me.isServer, id);
    hide Only, Firsts, Sane, Flows;
    assert Back(x, id).receiver.Some? <==> Back(x, id).arrived != [];
  }

  /** No frame that a run delivers is refused or silently dropped. */
  lemma NeverIgnored(x: System)
    requires Reachable(x) && x.back != []
    ensures var a := Dispatch(x.me.isServer, x.me.sendTable, x.me.recvTable, StreamFrame(x.back[0]));
            a.OpenStream? || a.DeliverData?
  {
    ReachableOk(x);
    HeadWelcome(x);
  }

  /** Only an opened stream sends: the identifier of a stream with frames was made by one side's counter. */
  lemma SentWasOpened(x: System, id: StreamId)
    requires Inv(x) && id in x.me.sends
    ensures Opened(x.me, id) || Opened(x.peer, id)
  {
    if !Opened(x.me, id) {
      SlicesOk(x, id);
      var b := Back(x, id);
      assert b.receiver.Some? && !b.receiverOpened && b.arrived != [];
      assert b.sender.Some?;
      assert id in x.peer.sends;
    }
  }

  lemma OpenedIsSmall(e: Endpoint, id: StreamId)
    requires Sane(e) && Opened(e, id)
    ensures id <= VarInt.MAX
  {
  }

  /** A stream a side opens is new to both sides, whatever both have opened before. */
  lemma OpensAreNew(x: System, op: Op)
    requires Reachable(x) && (op.OpenUni? || op.OpenBi?) && Enabled(x, op)
    ensures var id := StreamIds.New(if op.OpenUni? then x.me.nextUni else x.me.nextBi,
                                    if op.OpenUni? then Uni else Bi, x.me.isServer);
            && id !in x.me.sends && id !in x.me.recvs && id !in x.peer.sends && id !in x.peer.recvs
            && id in Apply(x, op).me.sends
  {
    ReachableOk(x);
    var id := StreamIds.New(if op.OpenUni? then x.me.nextUni else x.me.nextBi,
                            if op.OpenUni? then Uni else Bi, x.me.isServer);
    assert !Opened(x.me, id) && !Opened(x.peer, id);
    SlicesOk(x, id);
    hide Opened, SliceOk, Only, Flows, Accepts, Deliver;
    SliceUnknown(Out(x, id));
    assert id !in x.me.sends;
    assert Out(x, id).receiver.None?;
  }

  lemma SliceUnknown(x: Slice)
    requires SliceOk(x) && x.sender.None?
    ensures !x.receiverOpened ==> x.receiver.None?
  {
  }

  /** Every frame on the wire is one the codec carries unchanged in a message of its own. */
  lemma WireCarriesFrames(x: System, i: nat)
    requires Reachable(x) && i < |x.out|
    ensures Sound(StreamFrame(x.out[i])) && Decode(Encode(StreamFrame(x.out[i]))) == Success(StreamFrame(x.out[i]))
  {
    ReachableOk(x);
    var f := x.out[i];
    OnlyMember(f.id, x.out, i);
    SlicesOk(x, f.id);
    assert Only(f.id, x.out) != [];
    assert Pipeline(Out(x, f.id)) != [];
    assert f.id in x.me.sends;
    SentWasOpened(x, f.id);
    if Opened(x.me, f.id) { OpenedIsSmall(x.me, f.id); } else { OpenedIsSmall(x.peer, f.id); }
    WsFrame.RoundTrip(StreamFrame(f));
  }
}
