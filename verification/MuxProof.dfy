/** Every step of the two sessions keeps the invariant; what follows for every run. */
module MuxProof {
  import opened Wire
  import opened StreamIds
  import opened WsFrame
  import opened WsSession
  import opened Mux

  // --- frames of one stream ---

  lemma {:induction false} OnlyAppend(id: StreamId, a: seq<Stream>, b: seq<Stream>)
    ensures Only(id, a + b) == Only(id, a) + Only(id, b)
  {
    if a == [] {
      assert a + b == b;
    } else {
      OnlyAppend(id, a[1..], b);
      assert (a + b)[0] == a[0] && (a + b)[1..] == a[1..] + b;
      var head := if a[0].id == id then [a[0]] else [];
      assert head + (Only(id, a[1..]) + Only(id, b)) == (head + Only(id, a[1..])) + Only(id, b);
    }
  }

  lemma OnlyOne(id: StreamId, f: Stream)
    ensures Only(id, [f]) == if f.id == id then [f] else []
  {
    assert [f][1..] == [];
  }

  /** A queue with one frame more at its end. */
  lemma OnlyPush(id: StreamId, a: seq<Stream>, f: Stream)
    ensures Only(id, a + [f]) == if f.id == id then Only(id, a) + [f] else Only(id, a)
  {
    OnlyAppend(id, a, [f]);
    OnlyOne(id, f);
  }

  lemma OnlyPop(id: StreamId, a: seq<Stream>)
    requires a != []
    ensures Only(id, a) == if a[0].id == id then [a[0]] + Only(id, a[1..]) else Only(id, a[1..])
  {
  }

  lemma OnlyRemove(id: StreamId, a: seq<Stream>, at: nat)
    requires at < |a|
    ensures a[at].id != id ==> Only(id, a[..at] + a[at + 1..]) == Only(id, a)
    ensures a[at].id == id && |Only(id, a)| <= 1 ==> Only(id, a) == [a[at]] && Only(id, a[..at] + a[at + 1..]) == []
  {
    assert a == (a[..at] + [a[at]]) + a[at + 1..];
    OnlyAppend(id, a[..at] + [a[at]], a[at + 1..]);
    OnlyPush(id, a[..at], a[at]);
    OnlyAppend(id, a[..at], a[at + 1..]);
  }

  lemma {:induction false} OnlyMember(id: StreamId, a: seq<Stream>, i: nat)
    requires i < |a| && a[i].id == id
    ensures a[i] in Only(id, a)
  {
    if i > 0 { OnlyMember(id, a[1..], i - 1); }
  }

  lemma {:induction false} DataAppend(a: seq<Stream>, b: seq<Stream>)
    ensures Data(a + b) == Data(a) + Data(b)
  {
    if a == [] {
      assert a + b == b;
    } else {
      DataAppend(a[1..], b);
      assert (a + b)[1..] == a[1..] + b;
      assert a[0].data + (Data(a[1..]) + Data(b)) == (a[0].data + Data(a[1..])) + Data(b);
    }
  }

  lemma DataPush(a: seq<Stream>, f: Stream)
    ensures Data(a + [f]) == Data(a) + f.data
  {
    DataAppend(a, [f]);
    assert [f][1..] == [];
    assert Data([f]) == f.data;
  }

  // --- steps of one stream ---

  lemma NoFinTail(p: seq<Stream>, w: seq<Stream>)
    ensures NoFin(p + w) ==> NoFin(w)
    ensures FinLast(p + w) && |w| >= 2 ==> !w[0].fin
  {
    assert forall i | 0 <= i < |w| :: w[i] == (p + w)[|p| + i];
  }

  lemma AllFins(w: seq<Stream>)
    ensures NoFin(w) && (forall i | 0 <= i < |w| :: w[i].fin) ==> w == []
  {
    if w != [] && w[0].fin { assert !NoFin(w); }
  }

  lemma SliceQueue(x: Slice, f: Stream)
    requires SliceOk(x) && x.sender.Some? && !x.sender.value.fin
    ensures SliceOk(x.(sender := Some(Sender(f.fin, x.sender.value.written + f.data)), queued := x.queued + [f]))
  {
    var y := x.(sender := Some(Sender(f.fin, x.sender.value.written + f.data)), queued := x.queued + [f]);
    NoFinTail(x.arrived + x.flying + x.queued, x.waiting);
    AllFins(x.waiting);
    assert Pipeline(y) == Pipeline(x) + [f];
    DataPush(Pipeline(x), f);
  }

  lemma SliceWait(x: Slice, f: Stream)
    requires SliceOk(x) && x.sender.Some? && !x.sender.value.fin && f.fin && f.data == []
    ensures SliceOk(x.(sender := Some(x.sender.value.(fin := true)), waiting := x.waiting + [f]))
  {
    var y := x.(sender := Some(x.sender.value.(fin := true)), waiting := x.waiting + [f]);
    assert Pipeline(y) == Pipeline(x) + [f];
    DataPush(Pipeline(x), f);
  }

  lemma SenderAlive(x: System, k: StreamId)
    requires CanWrite(x.me, k)
    ensures Out(x, k).sender.Some? && !Out(x, k).sender.value.fin
  {
  }

  lemma OneWaiting(x: Slice)
    requires SliceOk(x)
    ensures |x.waiting| <= 1
  {
    NoFinTail(x.arrived + x.flying + x.queued, x.waiting);
  }

  lemma SliceEnqueue(x: Slice, f: Stream)
    requires SliceOk(x) && x.waiting == [f]
    ensures SliceOk(x.(queued := x.queued + [f], waiting := []))
  {
    var y := x.(queued := x.queued + [f], waiting := []);
    assert Pipeline(y) == Pipeline(x);
  }

  lemma SliceSend(x: Slice, f: Stream, others: seq<Stream>)
    requires SliceOk(x) && x.queued == [f] + others && (x.unregistered ==> x.receiverOpened)
    ensures SliceOk(x.(flying := x.flying + [f], queued := others))
  {
    var y := x.(flying := x.flying + [f], queued := others);
    assert Pipeline(y) == Pipeline(x);
  }

  /** The three outcomes of finishing: queued, waiting for room, or (on a drop) never sent. */
  lemma SliceClose(x: Slice, id: StreamId)
    requires SliceOk(x) && x.sender.Some? && !x.sender.value.fin
    ensures var closed := Some(x.sender.value.(fin := true));
            && SliceOk(x.(sender := closed, queued := x.queued + [Fin(id)]))
            && SliceOk(x.(sender := closed, waiting := x.waiting + [Fin(id)]))
            && SliceOk(x.(sender := closed))
  {
    assert x.sender.value.written + [] == x.sender.value.written;
    SliceQueue(x, Fin(id));
    SliceWait(x, Fin(id));
  }

  /** The frame at the head of the wire finds every earlier frame of its stream without a FIN. */
  lemma HeadOfWire(x: Slice, f: Stream, others: seq<Stream>)
    requires SliceOk(x) && x.flying == [f] + others
    ensures x.sender.Some? && NoFin(x.arrived) && NoFin(x.arrived + [f]) == !f.fin
    ensures !x.receiverOpened ==> !x.unregistered && (x.tabled <==> x.arrived != []) && (x.receiver.Some? <==> x.tabled)
    ensures x.receiverOpened ==> x.receiver.Some? && x.tabled
  {
    var p := Pipeline(x);
    assert p[|x.arrived|] == f;
    assert forall i | 0 <= i < |x.arrived| :: p[i] == x.arrived[i];
    var a := x.arrived + [f];
    assert a[|x.arrived|] == f;
  }

  /** `r` took the frame into its channel, new or known. */
  lemma SliceArrive(x: Slice, f: Stream, others: seq<Stream>, r: Receiver)
    requires SliceOk(x) && x.flying == [f] + others
    requires r == if x.receiver.Some? then x.receiver.value.(inbound := x.receiver.value.inbound + [f])
                  else FRESH_RECEIVER.(inbound := [f])
    ensures SliceOk(x.(receiver := Some(r), arrived := x.arrived + [f], flying := others, tabled := !f.fin))
  {
    HeadOfWire(x, f, others);
    var y := x.(receiver := Some(r), arrived := x.arrived + [f], flying := others, tabled := !f.fin);
    assert Pipeline(y) == Pipeline(x);
    assert y.arrived == r.consumed + r.inbound;
  }

  lemma SlicePull(x: Slice)
    requires SliceOk(x) && x.receiver.Some? && x.receiver.value.inbound != []
    requires x.receiver.value.buffer == [] && !x.receiver.value.fin
    ensures var r, f := x.receiver.value, x.receiver.value.inbound[0];
            SliceOk(x.(receiver := Some(r.(inbound := r.inbound[1..], buffer := f.data, fin := f.fin,
                                           consumed := r.consumed + [f]))))
  {
    var r, f := x.receiver.value, x.receiver.value.inbound[0];
    var consumed := r.consumed + [f];
    assert x.arrived == consumed + r.inbound[1..];
    DataPush(r.consumed, f);
    assert r.read + r.buffer == r.read;
    assert consumed[|r.consumed|] == f;
  }

  lemma SliceTake(x: Slice, size: nat)
    requires SliceOk(x) && x.receiver.Some? && x.receiver.value.buffer != [] && size <= |x.receiver.value.buffer|
    ensures var r := x.receiver.value;
            SliceOk(x.(receiver := Some(r.(buffer := r.buffer[size..], read := r.read + r.buffer[..size]))))
  {
    var r := x.receiver.value;
    assert r.read + r.buffer[..size] + r.buffer[size..] == r.read + r.buffer;
  }

  // --- what each step does to the slices of a stream ---

  function Out(x: System, k: StreamId): Slice {
    SliceOf(x.me, x.out, x.peer, k)
  }

  function Back(x: System, k: StreamId): Slice {
    SliceOf(x.peer, x.back, x.me, k)
  }

  lemma WriteSlices(x: System, id: StreamId, data: Bytes, k: StreamId)
    requires Enabled(x, Write(id, data))
    ensures var y, f, s := Apply(x, Write(id, data)), Stream(id, data, false), Out(x, k);
            && Back(y, k) == Back(x, k)
            && Out(y, k) == if k == id then s.(sender := Some(Sender(false, s.sender.value.written + data)),
                                               queued := s.queued + [f]) else s
  {
    hide Only, Deliver;
    OnlyPush(k, x.me.outbound, Stream(id, data, false));
  }

  /** Where a FIN goes: to the queue, or to wait, or (on a drop) nowhere. */
  lemma CloseQueues(x: System, op: Op)
    requires (op.Finish? || op.DropSend?) && Enabled(x, op)
    ensures var y, f := Apply(x, op), Fin(op.id);
            && op.id in x.me.sends
            && y == x.(me := x.me.(sends := x.me.sends[op.id := x.me.sends[op.id].(fin := true)],
                                   outbound := y.me.outbound, waiting := y.me.waiting))
            && (|| (y.me.outbound == x.me.outbound + [f] && y.me.waiting == x.me.waiting)
                || (y.me.outbound == x.me.outbound && y.me.waiting == x.me.waiting + [f])
                || (y.me.outbound == x.me.outbound && y.me.waiting == x.me.waiting))
  {
    hide Only, Deliver, Data;
  }

  lemma CloseSlices(x: System, op: Op, k: StreamId)
    requires (op.Finish? || op.DropSend?) && Enabled(x, op)
    ensures var y, f, s := Apply(x, op), Fin(op.id), Out(x, k);
            && Back(y, k) == Back(x, k)
            && if k != op.id then Out(y, k) == s
               else
                 var closed := Some(s.sender.value.(fin := true));
                 || Out(y, k) == s.(sender := closed, queued := s.queued + [f])
                 || Out(y, k) == s.(sender := closed, waiting := s.waiting + [f])
                 || Out(y, k) == s.(sender := closed)
  {
    CloseQueues(x, op);
    OnlyPush(k, x.me.outbound, Fin(op.id));
    OnlyPush(k, x.me.waiting, Fin(op.id));
    hide Only, Deliver, Apply, Enabled, Data;
  }

  lemma EnqueueSlices(x: System, at: nat, k: StreamId)
    requires Enabled(x, Enqueue(at)) && |Only(k, x.me.waiting)| <= 1
    ensures var y, f, s := Apply(x, Enqueue(at)), x.me.waiting[at], Out(x, k);
            && Back(y, k) == Back(x, k)
            && if k != f.id then Out(y, k) == s
               else s.waiting == [f] && Out(y, k) == s.(queued := s.queued + [f], waiting := [])
  {
    hide Only, Deliver;
    OnlyPush(k, x.me.outbound, x.me.waiting[at]);
    OnlyRemove(k, x.me.waiting, at);
  }

  lemma SendSlices(x: System, k: StreamId)
    requires Enabled(x, SendData)
    ensures var y, f, s := Apply(x, SendData), x.me.outbound[0], Out(x, k);
            && Back(y, k) == Back(x, k)
            && if k != f.id then Out(y, k) == s
               else var others := Only(k, x.me.outbound[1..]);
                    && s.queued == [f] + others
                    && (s.unregistered ==> s.receiverOpened)
                    && Out(y, k) == s.(flying := s.flying + [f], queued := others)
  {
    hide Only, Deliver;
    OnlyPush(k, x.out, x.me.outbound[0]);
    OnlyPop(k, x.me.outbound);
  }

  lemma ReadSlices(x: System, op: Op, k: StreamId)
    requires (op.Pull? || op.Take? || op.SeeEnd?) && Enabled(x, op)
    ensures var y, s := Apply(x, op), Back(x, k);
            && Out(y, k) == Out(x, k)
            && Back(y, k) == if k == op.id then s.(receiver := Some(y.me.recvs[k])) else s
  {
    hide Only, Deliver;
  }

  lemma OpenSlices(x: System, op: Op, k: StreamId)
    requires (op.OpenUni? || op.OpenBi?) && Enabled(x, op)
    ensures var y, s, b := Apply(x, op), Out(x, k), Back(x, k);
            var id := StreamIds.New(if op.OpenUni? then x.me.nextUni else x.me.nextBi,
                                    if op.OpenUni? then Uni else Bi, x.me.isServer);
            && Out(y, k) == (if k == id && x.peer.isServer != x.me.isServer
                             then s.(sender := Some(FRESH_SENDER), unregistered := true)
                             else if k == id then s.(sender := Some(FRESH_SENDER)) else s)
            && Back(y, k) == if k == id && op.OpenBi?
                             then b.(receiver := Some(FRESH_RECEIVER), unregistered := true) else b
  {
    hide Only, Deliver;
  }

  lemma RegisterUniSlices(x: System, k: StreamId)
    requires Enabled(x, RegisterUni)
    ensures var y, s := Apply(x, RegisterUni), Out(x, k);
            && Back(y, k) == Back(x, k)
            && (Out(y, k) == s || (!s.receiverOpened && s.unregistered && Out(y, k) == s.(unregistered := false)))
  {
    hide Only, Deliver;
    assert x.me.createUni == [x.me.createUni[0]] + x.me.createUni[1..];
  }

  lemma RegisterBiSlices(x: System, k: StreamId)
    requires Enabled(x, RegisterBi) && NoRepeat(x.me.createBi)
    requires forall id | id in x.me.createBi :: ServerInitiated(id) == x.me.isServer
    ensures var y, s, b, id := Apply(x, RegisterBi), Out(x, k), Back(x, k), x.me.createBi[0];
            && (Out(y, k) == s || (!s.receiverOpened && s.unregistered && Out(y, k) == s.(unregistered := false)))
            && (if k == id then b.receiverOpened && b.unregistered && Back(y, k) == b.(unregistered := false, tabled := true)
                else Back(y, k) == b)
  {
    hide Only, Deliver;
    assert x.me.createBi == [x.me.createBi[0]] + x.me.createBi[1..];
    assert k in x.me.createBi <==> k == x.me.createBi[0] || k in x.me.createBi[1..];
  }

  /** The session takes a frame in if it has the stream, or if it does not and the peer opened it. */
  ghost predicate Welcome(e: Endpoint, f: Stream) {
    && CanRecv(f.id, e.isServer)
    && (f.id in e.recvTable ==> f.id in e.recvs)
    && (f.id !in e.recvTable ==> f.id !in e.recvs && ServerInitiated(f.id) != e.isServer)
  }

  lemma DeliverElsewhere(e: Endpoint, f: Stream, k: StreamId)
    requires Welcome(e, f) && k != f.id
    ensures var d := Deliver(e, f);
            && (k in d.sends <==> k in e.sends) && (k in e.sends ==> d.sends[k] == e.sends[k])
            && (k in d.recvs <==> k in e.recvs) && (k in e.recvs ==> d.recvs[k] == e.recvs[k])
            && (k in d.recvTable <==> k in e.recvTable)
  {
  }

  lemma DeliverHere(e: Endpoint, f: Stream)
    requires Welcome(e, f)
    ensures var d, id := Deliver(e, f), f.id;
            && id in d.recvs
            && d.recvs[id] == (if id in e.recvs then e.recvs[id].(inbound := e.recvs[id].inbound + [f])
                               else FRESH_RECEIVER.(inbound := [f]))
            && (id in d.recvTable <==> !f.fin)
            && d.sends == if id !in e.recvTable && Dir(id).Bi? then e.sends[id := FRESH_SENDER] else e.sends
  {
  }

  lemma DeliverFrame(e: Endpoint, f: Stream)
    requires Welcome(e, f)
    ensures var d := Deliver(e, f);
            && d.arrivals == e.arrivals + [f]
            && d.isServer == e.isServer && d.nextUni == e.nextUni && d.nextBi == e.nextBi
            && d.createUni == e.createUni && d.createBi == e.createBi
            && d.outbound == e.outbound && d.waiting == e.waiting
            && d.handedUni == e.handedUni && d.handedBi == e.handedBi
            && d.acceptUni == e.acceptUni + (if f.id !in e.recvTable && Dir(f.id).Uni? then [f.id] else [])
            && d.acceptBi == e.acceptBi + (if f.id !in e.recvTable && Dir(f.id).Bi? then [f.id] else [])
  {
    assert e.acceptUni + [] == e.acceptUni && e.acceptBi + [] == e.acceptBi;
  }

  lemma ReceiveOtherSlices(x: System, k: StreamId)
    requires Enabled(x, Receive) && Welcome(x.me, x.back[0]) && k != x.back[0].id
    ensures Out(Apply(x, Receive), k) == Out(x, k) && Back(Apply(x, Receive), k) == Back(x, k)
  {
    OnlyPop(k, x.back);
    OnlyPush(k, x.me.arrivals, x.back[0]);
    DeliverElsewhere(x.me, x.back[0], k);
    DeliverFrame(x.me, x.back[0]);
    hide Only, Deliver, Welcome;
  }

  lemma ReceiveOut(x: System)
    requires Enabled(x, Receive) && Welcome(x.me, x.back[0])
    ensures var f := x.back[0];
            var s := Out(x, f.id);
            Out(Apply(x, Receive), f.id)
            == if f.id !in x.me.recvTable && Dir(f.id).Bi? then s.(sender := Some(FRESH_SENDER)) else s
  {
    DeliverHere(x.me, x.back[0]);
    DeliverFrame(x.me, x.back[0]);
    hide Only, Deliver, Welcome;
  }

  lemma ReceiveBack(x: System)
    requires Enabled(x, Receive) && Welcome(x.me, x.back[0])
    ensures var f, others := x.back[0], Only(x.back[0].id, x.back[1..]);
            var b := Back(x, f.id);
            var r := if b.receiver.Some? then b.receiver.value.(inbound := b.receiver.value.inbound + [f])
                     else FRESH_RECEIVER.(inbound := [f]);
            && b.flying == [f] + others
            && Back(Apply(x, Receive), f.id)
               == b.(receiver := Some(r), arrived := b.arrived + [f], flying := others, tabled := !f.fin)
  {
    OnlyPop(x.back[0].id, x.back);
    OnlyPush(x.back[0].id, x.me.arrivals, x.back[0]);
    DeliverHere(x.me, x.back[0]);
    DeliverFrame(x.me, x.back[0]);
    hide Only, Deliver, Welcome;
  }

  // --- each step keeps the slices ---

  ghost predicate Keeps(x: System, op: Op, k: StreamId)
    requires Enabled(x, op)
  {
    SliceOk(Out(Apply(x, op), k)) && SliceOk(Back(Apply(x, op), k))
  }

  lemma SlicesOk(x: System, k: StreamId)
    requires Inv(x)
    ensures SliceOk(Out(x, k)) && SliceOk(Back(x, k))
  {
  }

  lemma AllKept(x: System, op: Op)
    requires Enabled(x, op) && forall k :: Keeps(x, op, k)
    ensures var y := Apply(x, op); Flows(y.me, y.out, y.peer) && Flows(y.peer, y.back, y.me)
  {
    hide SliceOk, Apply, Enabled;
    var y := Apply(x, op);
    forall k ensures SliceOk(SliceOf(y.me, y.out, y.peer, k)) && SliceOk(SliceOf(y.peer, y.back, y.me, k)) {
      assert Keeps(x, op, k);
    }
  }

  lemma WriteKeeps(x: System, id: StreamId, data: Bytes, k: StreamId)
    requires Inv(x) && Enabled(x, Write(id, data))
    ensures Keeps(x, Write(id, data), k)
  {
    SlicesOk(x, k);
    WriteSlices(x, id, data, k);
    hide SliceOk, SliceOf, Apply, Enabled, Inv, Only;
    if k == id { SliceQueue(Out(x, k), Stream(id, data, false)); }
  }

  lemma CloseKeeps(x: System, op: Op, k: StreamId)
    requires Inv(x) && (op.Finish? || op.DropSend?) && Enabled(x, op)
    ensures Keeps(x, op, k)
  {
    SlicesOk(x, k);
    CloseSlices(x, op, k);
    SenderAlive(x, op.id);
    hide SliceOk, SliceOf, Apply, Enabled, Inv, Only;
    if k == op.id { SliceClose(Out(x, k), k); }
  }

  lemma EnqueueKeeps(x: System, at: nat, k: StreamId)
    requires Inv(x) && Enabled(x, Enqueue(at))
    ensures Keeps(x, Enqueue(at), k)
  {
    SlicesOk(x, k);
    OneWaiting(Out(x, k));
    EnqueueSlices(x, at, k);
    hide SliceOk, SliceOf, Apply, Enabled, Inv, Only;
    if k == x.me.waiting[at].id { SliceEnqueue(Out(x, k), x.me.waiting[at]); }
  }

  lemma SendKeeps(x: System, k: StreamId)
    requires Inv(x) && Enabled(x, SendData)
    ensures Keeps(x, SendData, k)
  {
    hide SliceOk, SliceOf, Apply, Inv, Only, Deliver, Data;
    SlicesOk(x, k);
    SendSlices(x, k);
    if k == x.me.outbound[0].id { SliceSend(Out(x, k), x.me.outbound[0], Only(k, x.me.outbound[1..])); }
  }

  /** What a read does to the receiver. */
  function AfterRead(r: Receiver, op: Op): Receiver {
    match op
    case Pull(_) =>
      if r.inbound == [] then r
      else r.(inbound := r.inbound[1..], buffer := r.inbound[0].data, fin := r.inbound[0].fin,
              consumed := r.consumed + [r.inbound[0]])
    case Take(_, max) =>
      var size := if max < |r.buffer| then max else |r.buffer|;
      r.(buffer := r.buffer[size..], read := r.read + r.buffer[..size])
    case SeeEnd(_) => r.(ended := true)
    case _ => r
  }

  lemma ReadResult(x: System, op: Op)
    requires (op.Pull? || op.Take? || op.SeeEnd?) && Enabled(x, op)
    ensures op.id in x.me.recvs && Apply(x, op).me.recvs[op.id] == AfterRead(x.me.recvs[op.id], op)
    ensures Back(x, op.id).receiver == Some(x.me.recvs[op.id])
  {
    hide Deliver, Only;
  }

  /** When a read can be taken. */
  lemma ReadReady(x: System, op: Op)
    requires (op.Pull? || op.Take? || op.SeeEnd?) && Enabled(x, op)
    ensures op.id in x.me.recvs
    ensures op.Pull? ==> x.me.recvs[op.id].inbound != [] && !x.me.recvs[op.id].fin
    ensures op.SeeEnd? ==> x.me.recvs[op.id].fin
    ensures op.Take? <==> x.me.recvs[op.id].buffer != []
  {
  }

  lemma SliceSeeEnd(x: Slice)
    requires SliceOk(x) && x.receiver.Some? && x.receiver.value.buffer == [] && x.receiver.value.fin
    ensures SliceOk(x.(receiver := Some(x.receiver.value.(ended := true))))
  {
  }

  lemma ReadKeeps(x: System, op: Op, k: StreamId)
    requires Inv(x) && (op.Pull? || op.Take? || op.SeeEnd?) && Enabled(x, op)
    ensures Keeps(x, op, k)
  {
    SlicesOk(x, k);
    ReadSlices(x, op, k);
    ReadResult(x, op);
    ReadReady(x, op);
    hide SliceOk, SliceOf, Apply, Enabled, Inv, Only, Data;
    if k == op.id {
      var b := Back(x, k);
      var r := b.receiver.value;
      match op
      case Pull(_) => SlicePull(b);
      case Take(_, max) => SliceTake(b, if max < |r.buffer| then max else |r.buffer|);
      case SeeEnd(_) => SliceSeeEnd(b);
    }
  }

  lemma OpenKeeps(x: System, op: Op, k: StreamId)
    requires Inv(x) && (op.OpenUni? || op.OpenBi?) && Enabled(x, op)
    ensures Keeps(x, op, k)
  {
    SlicesOk(x, k);
    OpenSlices(x, op, k);
    hide Apply, Only;
    var id := StreamIds.New(if op.OpenUni? then x.me.nextUni else x.me.nextBi,
                            if op.OpenUni? then Uni else Bi, x.me.isServer);
    assert !Opened(x.me, id);
    assert id !in x.me.sends && (op.OpenBi? ==> id !in x.me.recvs);
    if k == id {
      assert Out(x, k).sender.None? && !Out(x, k).receiverOpened && Back(x, k).receiverOpened;
      assert Pipeline(Out(x, k)) == [];
    }
  }

  lemma RegisterKeeps(x: System, op: Op, k: StreamId)
    requires Inv(x) && (op.RegisterUni? || op.RegisterBi?) && Enabled(x, op)
    ensures Keeps(x, op, k)
  {
    hide Apply, Only, Data;
    SlicesOk(x, k);
    if op.RegisterUni? {
      RegisterUniSlices(x, k);
    } else {
      RegisterBiSlices(x, k);
      if k == x.me.createBi[0] {
        assert k in x.me.createBi && Opened(x.me, k) && k in x.me.recvs;
        assert Back(x, k).sender.None? && Pipeline(Back(x, k)) == [];
      }
    }
  }

  /** In every reachable state the frame at the head of the wire is taken in, never ignored or refused. */
  lemma HeadWelcome(x: System)
    requires Inv(x) && x.back != []
    ensures Welcome(x.me, x.back[0])
    ensures Dispatch(x.me.isServer, x.me.sendTable, x.me.recvTable, StreamFrame(x.back[0])).OpenStream?
            || Dispatch(x.me.isServer, x.me.sendTable, x.me.recvTable, StreamFrame(x.back[0])).DeliverData?
  {
    var f := x.back[0];
    SlicesOk(x, f.id);
    OnlyPop(f.id, x.back);
    HeadOfWire(Back(x, f.id), f, Only(f.id, x.back[1..]));
    assert f.id in x.peer.sends;
  }

  lemma ReceiveKeeps(x: System, k: StreamId)
    requires Inv(x) && Enabled(x, Receive)
    ensures Keeps(x, Receive, k)
  {
    var f := x.back[0];
    HeadWelcome(x);
    SlicesOk(x, k);
    if k != f.id {
      ReceiveOtherSlices(x, k);
    } else {
      ReceiveOut(x);
      ReceiveBack(x);
      var b, others := Back(x, k), Only(k, x.back[1..]);
      SliceArrive(b, f, others, if b.receiver.Some? then b.receiver.value.(inbound := b.receiver.value.inbound + [f])
                                else FRESH_RECEIVER.(inbound := [f]));
      if f.id !in x.me.recvTable && Dir(f.id).Bi? { NewPeerStream(x, f); }
    }
  }

  /** The first frame of a two-way stream gives this side a sender; the opener has had its receiver all along. */
  lemma NewPeerStream(x: System, f: Stream)
    requires Inv(x) && x.back != [] && x.back[0] == f && f.id !in x.me.recvTable && Dir(f.id).Bi?
    ensures SliceOk(Out(x, f.id).(sender := Some(FRESH_SENDER)))
  {
    HeadWelcome(x);
    SlicesOk(x, f.id);
    OnlyPop(f.id, x.back);
    var s, b := Out(x, f.id), Back(x, f.id);
    HeadOfWire(b, f, Only(f.id, x.back[1..]));
    assert f.id in x.peer.sends && Opened(x.peer, f.id) && f.id in x.peer.recvs;
    assert s.sender.None? && Pipeline(s) == [];
    assert f.id !in x.peer.createBi;
  }

  // --- each step keeps what is true of the endpoints ---

  predicate SameStreams(e: Endpoint, d: Endpoint) {
    && d.isServer == e.isServer && d.nextUni == e.nextUni && d.nextBi == e.nextBi
    && d.createUni == e.createUni && d.createBi == e.createBi
    && d.sends.Keys == e.sends.Keys && d.recvs.Keys == e.recvs.Keys
  }

  lemma SaneCarries(e: Endpoint, d: Endpoint)
    requires Sane(e) && SameStreams(e, d)
    ensures Sane(d)
  {
    assert forall id :: Opened(d, id) == Opened(e, id);
    assert forall id :: (id in d.sends) == (id in e.sends) && (id in d.recvs) == (id in e.recvs);
  }

  predicate SameArrivals(e: Endpoint, d: Endpoint) {
    && d.isServer == e.isServer && d.arrivals == e.arrivals
    && d.handedUni + d.acceptUni == e.handedUni + e.acceptUni
    && d.handedBi + d.acceptBi == e.handedBi + e.acceptBi
  }

  predicate Local(op: Op) {
    !op.OpenUni? && !op.OpenBi? && !op.RegisterUni? && !op.RegisterBi? && !op.Receive?
  }

  lemma Untouched(x: System, op: Op)
    requires Enabled(x, op)
    ensures Apply(x, op).peer == x.peer
    ensures !op.Receive? ==> SameArrivals(x.me, Apply(x, op).me)
    ensures Local(op) ==> SameStreams(x.me, Apply(x, op).me)
  {
    hide Deliver, Only, Data;
    var e, d := x.me, Apply(x, op).me;
    match op
    case AcceptUni =>
      assert e.handedUni + [e.acceptUni[0]] + e.acceptUni[1..] == e.handedUni + e.acceptUni;
    case AcceptBi =>
      assert e.handedBi + [e.acceptBi[0]] + e.acceptBi[1..] == e.handedBi + e.acceptBi;
    case _ =>
  }

  lemma OpenedBy(e: Endpoint, d: Endpoint, dir: StreamDir)
    requires d.isServer == e.isServer
    requires d.nextUni == e.nextUni + (if dir.Uni? then 1 else 0) && d.nextBi == e.nextBi + (if dir.Bi? then 1 else 0)
    requires (if dir.Uni? then e.nextUni else e.nextBi) < 0x1000_0000_0000_0000
    ensures var id := StreamIds.New(if dir.Uni? then e.nextUni else e.nextBi, dir, e.isServer);
            !Opened(e, id) && forall k :: Opened(d, k) <==> Opened(e, k) || k == id
  {
    hide Dir, ServerInitiated, Counter;
    var id := StreamIds.New(if dir.Uni? then e.nextUni else e.nextBi, dir, e.isServer);
    forall k ensures Opened(d, k) <==> Opened(e, k) || k == id {
      StreamIds.Unique(k, id);
    }
  }

  lemma NoRepeatPush(ids: seq<StreamId>, id: StreamId)
    requires NoRepeat(ids) && id !in ids
    ensures NoRepeat(ids + [id])
  {
  }

  lemma SaneOpens(x: System, op: Op)
    requires Sane(x.me) && (op.OpenUni? || op.OpenBi?) && Enabled(x, op)
    ensures Sane(Apply(x, op).me)
  {
    hide Deliver, Only, Data, Opened;
    var e, d := x.me, Apply(x, op).me;
    var dir := if op.OpenUni? then Uni else Bi;
    var id := StreamIds.New(if op.OpenUni? then e.nextUni else e.nextBi, dir, e.isServer);
    OpenedBy(e, d, dir);
    NoRepeatPush(if op.OpenUni? then e.createUni else e.createBi, id);
  }

  lemma SaneRegisters(x: System, op: Op)
    requires Sane(x.me) && (op.RegisterUni? || op.RegisterBi?) && Enabled(x, op)
    ensures Sane(Apply(x, op).me)
  {
    hide Deliver, Only, Data;
    var e, d := x.me, Apply(x, op).me;
    assert forall id :: Opened(d, id) == Opened(e, id);
    hide Opened;
    assert forall i | 0 <= i < |d.createUni| :: d.createUni[i] in e.createUni;
    assert forall i | 0 <= i < |d.createBi| :: d.createBi[i] in e.createBi;
  }

  lemma SaneReceives(x: System)
    requires Inv(x) && Enabled(x, Receive)
    ensures Sane(Apply(x, Receive).me)
  {
    HeadWelcome(x);
    SaneFrame(x.me, x.back[0]);
    hide Inv, Deliver, Sane, Welcome;
  }

  lemma SaneFrame(e: Endpoint, f: Stream)
    requires Sane(e) && Welcome(e, f)
    ensures Sane(Deliver(e, f))
  {
    var d := Deliver(e, f);
    DeliverHere(e, f);
    DeliverFrame(e, f);
    forall k | k != f.id
      ensures (k in d.sends <==> k in e.sends) && (k in d.recvs <==> k in e.recvs)
    {
      DeliverElsewhere(e, f, k);
    }
    assert forall id :: Opened(d, id) == Opened(e, id);
    hide Deliver, Opened;
  }

  lemma {:induction false} FirstsPush(fs: seq<Stream>, f: Stream, dir: StreamDir, isServer: bool)
    ensures Firsts(fs + [f], dir, isServer)
            == Firsts(fs, dir, isServer)
               + if Dir(f.id) == dir && ServerInitiated(f.id) != isServer && Only(f.id, fs) == [] then [f.id] else []
  {
    assert (fs + [f])[..|fs + [f]| - 1] == fs;
  }

  /** A frame is the first of a peer's stream exactly when the session does not know the stream. */
  lemma NewMeansFirst(x: System)
    requires Inv(x) && x.back != []
    ensures var f := x.back[0];
            ServerInitiated(f.id) != x.me.isServer ==> (f.id !in x.me.recvTable <==> Only(f.id, x.me.arrivals) == [])
    ensures ServerInitiated(x.back[0].id) == x.me.isServer ==> x.back[0].id in x.me.recvTable
  {
    var f := x.back[0];
    SlicesOk(x, f.id);
    OnlyPop(f.id, x.back);
    HeadOfWire(Back(x, f.id), f, Only(f.id, x.back[1..]));
    hide SliceOk, Only, Inv;
  }

  lemma AcceptsReceives(x: System)
    requires Inv(x) && Enabled(x, Receive)
    ensures Accepts(Apply(x, Receive).me)
  {
    HeadWelcome(x);
    NewMeansFirst(x);
    AcceptsFrame(x.me, x.back[0]);
    hide Inv, Deliver, Accepts, Welcome;
  }

  lemma AcceptsFrame(e: Endpoint, f: Stream)
    requires Accepts(e) && Welcome(e, f)
    requires ServerInitiated(f.id) != e.isServer ==> (f.id !in e.recvTable <==> Only(f.id, e.arrivals) == [])
    requires ServerInitiated(f.id) == e.isServer ==> f.id in e.recvTable
    ensures Accepts(Deliver(e, f))
  {
    DeliverFrame(e, f);
    FirstsPush(e.arrivals, f, Uni, e.isServer);
    FirstsPush(e.arrivals, f, Bi, e.isServer);
    var d := Deliver(e, f);
    hide Deliver, Only, Welcome, Firsts, Dir, ServerInitiated;
    var uni := if f.id !in e.recvTable && Dir(f.id).Uni? then [f.id] else [];
    var bi := if f.id !in e.recvTable && Dir(f.id).Bi? then [f.id] else [];
    assert d.handedUni + d.acceptUni == (e.handedUni + e.acceptUni) + uni;
    assert d.handedBi + d.acceptBi == (e.handedBi + e.acceptBi) + bi;
  }

  lemma AcceptsCarries(e: Endpoint, d: Endpoint)
    requires Accepts(e) && SameArrivals(e, d)
    ensures Accepts(d)
  {
    hide Firsts;
  }

  lemma EndpointsKept(x: System, op: Op)
    requires Inv(x) && Enabled(x, op)
    ensures var y := Apply(x, op);
            y.peer == x.peer && y.me.isServer == x.me.isServer && Sane(y.me) && Accepts(y.me)
  {
    Untouched(x, op);
    if op.Receive? {
      HeadWelcome(x);
      DeliverFrame(x.me, x.back[0]);
      SaneReceives(x);
      AcceptsReceives(x);
    } else {
      AcceptsCarries(x.me, Apply(x, op).me);
      if op.OpenUni? || op.OpenBi? { SaneOpens(x, op); }
      else if op.RegisterUni? || op.RegisterBi? { SaneRegisters(x, op); }
      else { SaneCarries(x.me, Apply(x, op).me); }
      hide Apply, Enabled, Accepts, Sane;
    }
  }

  lemma SlicesKept(x: System, op: Op, k: StreamId)
    requires Inv(x) && Enabled(x, op)
    ensures Keeps(x, op, k)
  {
    hide Apply, Inv, Keeps;
    match op
    case OpenUni => OpenKeeps(x, op, k);
    case OpenBi => OpenKeeps(x, op, k);
    case AcceptUni => AcceptKeeps(x, op, k);
    case AcceptBi => AcceptKeeps(x, op, k);
    case Write(id, data) => WriteKeeps(x, id, data, k);
    case Finish(_) => CloseKeeps(x, op, k);
    case DropSend(_) => CloseKeeps(x, op, k);
    case Enqueue(at) => EnqueueKeeps(x, at, k);
    case Pull(_) => ReadKeeps(x, op, k);
    case Take(_, _) => ReadKeeps(x, op, k);
    case SeeEnd(_) => ReadKeeps(x, op, k);
    case RegisterUni => RegisterKeeps(x, op, k);
    case RegisterBi => RegisterKeeps(x, op, k);
    case SendData => SendKeeps(x, k);
    case Receive => ReceiveKeeps(x, k);
  }

  lemma AcceptKeeps(x: System, op: Op, k: StreamId)
    requires Inv(x) && (op.AcceptUni? || op.AcceptBi?) && Enabled(x, op)
    ensures Keeps(x, op, k)
  {
    SlicesOk(x, k);
    hide Only, SliceOk, Inv;
    assert Out(Apply(x, op), k) == Out(x, k) && Back(Apply(x, op), k) == Back(x, k);
  }

  // --- every run ---

  /** Any step of this side, whatever it is, keeps the invariant. */
  lemma StepKeeps(x: System, op: Op)
    requires Inv(x) && Enabled(x, op)
    ensures Inv(Apply(x, op))
  {
    EndpointsKept(x, op);
    forall k ensures Keeps(x, op, k) {
      SlicesKept(x, op, k);
    }
    AllKept(x, op);
    hide Apply, Enabled, Flows, Sane, Accepts;
  }

  lemma SwapKeeps(x: System)
    requires Inv(x)
    ensures Inv(Swap(x))
  {
    hide Flows, Sane, Accepts;
  }

  lemma InitialOk()
    ensures Inv(INITIAL)
  {
    forall id ensures SliceOk(SliceOf(INITIAL.me, [], INITIAL.peer, id)) && SliceOk(SliceOf(INITIAL.peer, [], INITIAL.me, id)) {
    }
  }

  lemma {:induction false} RunKeeps(x: System, turns: seq<Turn>)
    requires Inv(x)
    ensures Exec(x, turns).Some? ==> Inv(Exec(x, turns).value)
    decreases |turns|
  {
    hide Inv, Apply, Enabled;
    if turns != [] {
      var t := turns[0];
      if t.mine {
        if Enabled(x, t.op) {
          StepKeeps(x, t.op);
          RunKeeps(Apply(x, t.op), turns[1..]);
        }
      } else {
        SwapKeeps(x);
        if Enabled(Swap(x), t.op) {
          StepKeeps(Swap(x), t.op);
          SwapKeeps(Apply(Swap(x), t.op));
          RunKeeps(Swap(Apply(Swap(x), t.op)), turns[1..]);
        }
      }
    }
  }
}
