/**
 * Two sessions over one ordered WebSocket. Every step is one poll of an application call or one turn of
 * a session's biased select loop; runs have no reset, no stop and at most one finish a stream.
 */
module Mux {
  import opened Wire
  import opened StreamIds
  import opened WsFrame
  import opened WsSession

  /** The application's half of a sending stream, with all it ever wrote. */
  datatype Sender = Sender(fin: bool, written: Bytes)

  /** The application's half of a receiving stream, with the frames it took off its channel and what it read. */
  datatype Receiver = Receiver(inbound: seq<Stream>, buffer: Bytes, fin: bool,
                               consumed: seq<Stream>, read: Bytes, ended: bool)

  datatype Endpoint = Endpoint(
    isServer: bool, nextUni: nat, nextBi: nat,
    sends: map<StreamId, Sender>, recvs: map<StreamId, Receiver>,
    createUni: seq<StreamId>, createBi: seq<StreamId>,
    outbound: seq<Stream>, waiting: seq<Stream>,
    acceptUni: seq<StreamId>, acceptBi: seq<StreamId>,
    sendTable: set<StreamId>, recvTable: set<StreamId>,
    handedUni: seq<StreamId>, handedBi: seq<StreamId>, arrivals: seq<Stream>)

  /** `out` is in flight from `me` to `peer`, `back` from `peer` to `me`. */
  datatype System = System(me: Endpoint, peer: Endpoint, out: seq<Stream>, back: seq<Stream>)

  function Swap(x: System): System {
    System(x.peer, x.me, x.back, x.out)
  }

  datatype Op =
    | OpenUni | OpenBi
    | AcceptUni | AcceptBi
    | Write(id: StreamId, data: Bytes) | Finish(id: StreamId) | DropSend(id: StreamId)
    | Enqueue(at: nat)
    | Pull(id: StreamId) | Take(id: StreamId, max: nat) | SeeEnd(id: StreamId)
    | RegisterUni | RegisterBi
    | SendData | Receive

  const CREATE_CAPACITY: nat := 8
  const OUTBOUND_CAPACITY: nat := 8
  const ACCEPT_CAPACITY: nat := 1024

  function Start(isServer: bool): Endpoint {
    Endpoint(isServer, 0, 0, map[], map[], [], [], [], [], [], [], {}, {}, [], [], [])
  }

  const INITIAL: System := System(Start(false), Start(true), [], [])

  const FRESH_SENDER: Sender := Sender(false, [])
  const FRESH_RECEIVER: Receiver := Receiver([], [], false, [], [], false)

  /** The stream is in the application's hands: it opened it, or accepted it. */
  predicate Held(e: Endpoint, id: StreamId) {
    id !in e.acceptUni && id !in e.acceptBi
  }

  predicate CanWrite(e: Endpoint, id: StreamId) {
    id in e.sends && Held(e, id) && !e.sends[id].fin
  }

  predicate CanRead(e: Endpoint, id: StreamId) {
    id in e.recvs && Held(e, id)
  }

  /** Whether the step can be taken; a call that would wait cannot. */
  predicate Enabled(x: System, op: Op) {
    var e := x.me;
    match op
    case OpenUni => e.nextUni < 0x1000_0000_0000_0000 && |e.createUni| < CREATE_CAPACITY
    case OpenBi => e.nextBi < 0x1000_0000_0000_0000 && |e.createBi| < CREATE_CAPACITY
    case AcceptUni => e.acceptUni != []
    case AcceptBi => e.acceptBi != []
    case Write(id, _) => CanWrite(e, id) && |e.outbound| < OUTBOUND_CAPACITY
    case Finish(id) => CanWrite(e, id)
    case DropSend(id) => CanWrite(e, id)
    case Enqueue(at) => at < |e.waiting| && |e.outbound| < OUTBOUND_CAPACITY
    case Pull(id) => CanRead(e, id) && e.recvs[id].buffer == [] && !e.recvs[id].fin && e.recvs[id].inbound != []
    case Take(id, _) => CanRead(e, id) && e.recvs[id].buffer != []
    case SeeEnd(id) => CanRead(e, id) && e.recvs[id].buffer == [] && e.recvs[id].fin
    case RegisterUni => e.createUni != []
    case RegisterBi => e.createUni == [] && e.createBi != []
    case SendData => e.createUni == [] && e.createBi == [] && e.outbound != []
    case Receive => x.back != [] && |e.acceptUni| < ACCEPT_CAPACITY && |e.acceptBi| < ACCEPT_CAPACITY
  }

  function Fin(id: StreamId): Stream {
    Stream(id, [], true)
  }

  function Apply(x: System, op: Op): System
    requires Enabled(x, op)
  {
    var e := x.me;
    match op
    case OpenUni =>
      var id := StreamIds.New(e.nextUni, Uni, e.isServer);
      x.(me := e.(nextUni := e.nextUni + 1, createUni := e.createUni + [id], sends := e.sends[id := FRESH_SENDER]))
    case OpenBi =>
      var id := StreamIds.New(e.nextBi, Bi, e.isServer);
      x.(me := e.(nextBi := e.nextBi + 1, createBi := e.createBi + [id],
                  sends := e.sends[id := FRESH_SENDER], recvs := e.recvs[id := FRESH_RECEIVER]))
    case AcceptUni =>
      x.(me := e.(acceptUni := e.acceptUni[1..], handedUni := e.handedUni + [e.acceptUni[0]]))
    case AcceptBi =>
      x.(me := e.(acceptBi := e.acceptBi[1..], handedBi := e.handedBi + [e.acceptBi[0]]))
    case Write(id, data) =>
      x.(me := e.(outbound := e.outbound + [Stream(id, data, false)],
                  sends := e.sends[id := Sender(false, e.sends[id].written + data)]))
    case Finish(id) =>
      var sends := e.sends[id := e.sends[id].(fin := true)];
      if |e.outbound| < OUTBOUND_CAPACITY then x.(me := e.(outbound := e.outbound + [Fin(id)], sends := sends))
      else x.(me := e.(waiting := e.waiting + [Fin(id)], sends := sends))
    case DropSend(id) =>
      var sends := e.sends[id := e.sends[id].(fin := true)];
      if |e.outbound| < OUTBOUND_CAPACITY then x.(me := e.(outbound := e.outbound + [Fin(id)], sends := sends))
      else x.(me := e.(sends := sends))
    case Enqueue(at) =>
      x.(me := e.(outbound := e.outbound + [e.waiting[at]], waiting := e.waiting[..at] + e.waiting[at + 1..]))
    case Pull(id) =>
      var r := e.recvs[id];
      var f := r.inbound[0];
      x.(me := e.(recvs := e.recvs[id := r.(inbound := r.inbound[1..], buffer := f.data, fin := f.fin,
                                            consumed := r.consumed + [f])]))
    case Take(id, max) =>
      var r := e.recvs[id];
      var size := if max < |r.buffer| then max else |r.buffer|;
      x.(me := e.(recvs := e.recvs[id := r.(buffer := r.buffer[size..], read := r.read + r.buffer[..size])]))
    case SeeEnd(id) =>
      x.(me := e.(recvs := e.recvs[id := e.recvs[id].(ended := true)]))
    case RegisterUni =>
      x.(me := e.(createUni := e.createUni[1..], sendTable := e.sendTable + {e.createUni[0]}))
    case RegisterBi =>
      var id := e.createBi[0];
      x.(me := e.(createBi := e.createBi[1..], sendTable := e.sendTable + {id}, recvTable := e.recvTable + {id}))
    case SendData =>
      var f := e.outbound[0];
      x.(me := e.(outbound := e.outbound[1..], sendTable := if f.fin then e.sendTable - {f.id} else e.sendTable),
         out := x.out + [f])
    case Receive =>
      x.(me := Deliver(e, x.back[0]), back := x.back[1..])
  }

  /** The session takes a stream frame off the wire. */
  function Deliver(e: Endpoint, f: Stream): Endpoint {
    match Dispatch(e.isServer, e.sendTable, e.recvTable, StreamFrame(f))
    case OpenStream(dir, keep) =>
      var accept := e.(
        recvs := e.recvs[f.id := FRESH_RECEIVER.(inbound := [f])],
        recvTable := if keep then e.recvTable + {f.id} else e.recvTable,
        arrivals := e.arrivals + [f]);
      if dir.Uni? then accept.(acceptUni := e.acceptUni + [f.id])
      else accept.(acceptBi := e.acceptBi + [f.id], sends := e.sends[f.id := FRESH_SENDER],
                   sendTable := e.sendTable + {f.id})
    case DeliverData(keep) =>
      e.(recvs := if f.id in e.recvs
                  then e.recvs[f.id := e.recvs[f.id].(inbound := e.recvs[f.id].inbound + [f])] else e.recvs,
         recvTable := if keep then e.recvTable else e.recvTable - {f.id},
         arrivals := e.arrivals + [f])
    case _ => e
  }

  datatype Turn = Turn(mine: bool, op: Op)

  /** Runs the turns from `x`; None when one of them could not be taken. */
  function Exec(x: System, turns: seq<Turn>): Option<System>
    decreases |turns|
  {
    if turns == [] then Some(x)
    else
      var t := turns[0];
      if t.mine then (if Enabled(x, t.op) then Exec(Apply(x, t.op), turns[1..]) else None)
      else (if Enabled(Swap(x), t.op) then Exec(Swap(Apply(Swap(x), t.op)), turns[1..]) else None)
  }

  // --- what is true of one stream in one direction ---

  /** The frames of one stream, in order. */
  function Only(id: StreamId, fs: seq<Stream>): seq<Stream> {
    if fs == [] then [] else (if fs[0].id == id then [fs[0]] else []) + Only(id, fs[1..])
  }

  function Data(fs: seq<Stream>): Bytes {
    if fs == [] then [] else fs[0].data + Data(fs[1..])
  }

  /** One direction of one stream, seen across both ends and the wire. */
  datatype Slice = Slice(sender: Option<Sender>, receiver: Option<Receiver>,
                         arrived: seq<Stream>, flying: seq<Stream>, queued: seq<Stream>, waiting: seq<Stream>,
                         tabled: bool, receiverOpened: bool, unregistered: bool)

  function SliceOf(s: Endpoint, wire: seq<Stream>, r: Endpoint, id: StreamId): Slice {
    Slice(if id in s.sends then Some(s.sends[id]) else None,
          if id in r.recvs then Some(r.recvs[id]) else None,
          Only(id, r.arrivals), Only(id, wire), Only(id, s.outbound), Only(id, s.waiting),
          id in r.recvTable,
          ServerInitiated(id) == r.isServer,
          if ServerInitiated(id) == r.isServer then id in r.createBi
          else id in s.createUni || id in s.createBi)
  }

  predicate NoFin(fs: seq<Stream>) {
    forall i | 0 <= i < |fs| :: !fs[i].fin
  }

  predicate FinLast(fs: seq<Stream>) {
    forall i | 0 <= i < |fs| - 1 :: !fs[i].fin
  }

  function Pipeline(x: Slice): seq<Stream> {
    x.arrived + x.flying + x.queued + x.waiting
  }

  ghost predicate SenderOk(x: Slice) {
    match x.sender
    case None => Pipeline(x) == []
    case Some(s) =>
      && s.written == Data(Pipeline(x))
      && FinLast(Pipeline(x))
      && (!s.fin ==> NoFin(Pipeline(x)))
      && (forall i | 0 <= i < |x.waiting| :: x.waiting[i].fin)
  }

  ghost predicate ReceiverOk(x: Slice) {
    match x.receiver
    case None => x.arrived == [] && !x.tabled
    case Some(r) =>
      && x.arrived == r.consumed + r.inbound
      && r.read + r.buffer == Data(r.consumed)
      && r.fin == !NoFin(r.consumed)
      && (r.ended ==> r.fin && r.buffer == [])
  }

  ghost predicate TableOk(x: Slice) {
    if x.receiverOpened then
      && (x.receiver.Some? ==> (x.tabled <==> !x.unregistered && NoFin(x.arrived)))
      && (x.sender.Some? ==> x.receiver.Some? && !x.unregistered)
    else
      && (x.receiver.Some? <==> x.arrived != [])
      && (x.receiver.Some? ==> (x.tabled <==> NoFin(x.arrived)))
      && (x.unregistered ==> x.arrived == [] && x.flying == [])
  }

  ghost predicate SliceOk(x: Slice) {
    SenderOk(x) && ReceiverOk(x) && TableOk(x)
  }

  // --- what is true of one endpoint ---

  predicate Opened(e: Endpoint, id: StreamId) {
    && ServerInitiated(id) == e.isServer
    && Counter(id) < (if Dir(id).Uni? then e.nextUni else e.nextBi)
  }

  ghost predicate NoRepeat(ids: seq<StreamId>) {
    forall i, j | 0 <= i < j < |ids| :: ids[i] != ids[j]
  }

  ghost predicate Sane(e: Endpoint) {
    && e.nextUni <= 0x1000_0000_0000_0000 && e.nextBi <= 0x1000_0000_0000_0000
    && (forall id | id in e.sends :: Opened(e, id) || (Dir(id).Bi? && ServerInitiated(id) != e.isServer && id in e.recvs))
    && (forall id | id in e.recvs && ServerInitiated(id) == e.isServer :: Dir(id).Bi? && Opened(e, id))
    && (forall id | Opened(e, id) :: id in e.sends && (Dir(id).Bi? ==> id in e.recvs))
    && (forall id | id in e.createUni :: Dir(id).Uni? && Opened(e, id))
    && (forall id | id in e.createBi :: Dir(id).Bi? && Opened(e, id))
    && NoRepeat(e.createUni) && NoRepeat(e.createBi)
  }

  /** The peer's streams of one direction, in the order of their first frames. */
  function Firsts(fs: seq<Stream>, dir: StreamDir, isServer: bool): seq<StreamId> {
    if fs == [] then []
    else
      var before := fs[..|fs| - 1];
      var id := fs[|fs| - 1].id;
      Firsts(before, dir, isServer)
      + if Dir(id) == dir && ServerInitiated(id) != isServer && Only(id, before) == [] then [id] else []
  }

  ghost predicate Accepts(e: Endpoint) {
    && e.handedUni + e.acceptUni == Firsts(e.arrivals, Uni, e.isServer)
    && e.handedBi + e.acceptBi == Firsts(e.arrivals, Bi, e.isServer)
  }

  ghost predicate Flows(s: Endpoint, wire: seq<Stream>, r: Endpoint) {
    forall id :: SliceOk(SliceOf(s, wire, r, id))
  }

  ghost predicate Inv(x: System) {
    && x.me.isServer != x.peer.isServer
    && Sane(x.me) && Sane(x.peer)
    && Accepts(x.me) && Accepts(x.peer)
    && Flows(x.me, x.out, x.peer)
    && Flows(x.peer, x.back, x.me)
  }
}
