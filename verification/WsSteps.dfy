/**
 * The session's objects move as the steps of the model do: one relation between the objects of a side and its
 * endpoint, kept by writing, finishing, dropping, waiting for room, registering, sending and receiving.
 */
module WsSteps {
  import opened Wire
  import opened StreamIds
  import opened WsFrame
  import opened WsSession
  import opened Mux
  import opened MuxProof
  import opened WsStreams
  import MuxRuns
  import VarInt

  // --- the relation ---

  function Frames(fs: seq<Stream>): (r: seq<Frame>)
    ensures |r| == |fs|
  {
    seq(|fs|, i requires 0 <= i < |fs| => StreamFrame(fs[i]))
  }

  lemma FramesPush(fs: seq<Stream>, f: Stream)
    ensures Frames(fs + [f]) == Frames(fs) + [StreamFrame(f)]
  {
  }

  lemma FramesRemove(fs: seq<Stream>, at: nat)
    requires at < |fs|
    ensures Frames(fs[..at] + fs[at + 1..]) == Frames(fs)[..at] + Frames(fs)[at + 1..]
    ensures Frames(fs[1..]) == Frames(fs)[1..]
  {
  }

  ghost predicate QueuesMatch(o: Outbound, e: Endpoint)
    reads o
  {
    o.queued == Frames(e.outbound) && o.waiting == Frames(e.waiting) && o.priority == [] && !o.closed
  }

  ghost predicate SenderMatches(w: SendStream, e: Endpoint)
    reads w
  {
    w.id in e.sends && e.sends[w.id] == Sender(w.fin, w.written) && w.closed.None? && w.stops == []
  }

  /** The sending streams in the application's hands, one for each identifier. */
  ghost predicate SendersMatch(senders: set<SendStream>, o: Outbound, e: Endpoint)
    reads senders
  {
    && (forall w | w in senders :: w.outbound == o && SenderMatches(w, e))
    && (forall v, w | v in senders && w in senders && v.id == w.id :: v == w)
  }

  function UniIds(streams: seq<SendStream>): (ids: seq<StreamId>)
    ensures |ids| == |streams|
  {
    seq(|streams|, i requires 0 <= i < |streams| => streams[i].id)
  }

  function Unregistered(s: SessionState): set<RecvStream>
    reads s`createBi
  {
    set p | p in s.createBi :: p.1
  }

  /** The streams that wait to be registered. */
  ghost predicate CreatesMatch(s: SessionState, e: Endpoint)
    reads s`createUni, s`createBi, Unregistered(s)
  {
    && UniIds(s.createUni) == e.createUni && s.PairIds(s.createBi) == e.createBi
    && forall p | p in s.createBi :: p.0.id == p.1.id && p.1.id in e.recvs && p.1.Model() == e.recvs[p.1.id]
  }

  /** The objects of one side stand where its endpoint stands. */
  ghost predicate Stands(s: SessionState, senders: set<SendStream>, e: Endpoint)
    reads s, s.outbound, s.recvStreams.Values, s.sendStreams.Values, Unregistered(s), senders
  {
    && s.Valid() && s.Matches(e) && s.closed.None?
    && CreatesMatch(s, e)
    && QueuesMatch(s.outbound, e)
    && SendersMatch(senders, s.outbound, e)
  }

  // --- the sending streams ---

  /** What a step on the sending side leaves alone. */
  lemma Aside(s: SessionState, e: Endpoint, d: Endpoint)
    requires s.Matches(e) && CreatesMatch(s, e)
    requires d.isServer == e.isServer && d.sendTable == e.sendTable && d.recvTable == e.recvTable && d.recvs == e.recvs
    requires d.acceptUni == e.acceptUni && d.acceptBi == e.acceptBi
    requires d.createUni == e.createUni && d.createBi == e.createBi
    ensures s.Matches(d) && CreatesMatch(s, d)
  {
  }

  /** A step that changes nothing but one sender and the queues. */
  lemma OneSender(w: SendStream, senders: set<SendStream>, o: Outbound, e: Endpoint, d: Endpoint)
    requires w in senders && SenderMatches(w, d)
    requires forall v | v in senders :: v.outbound == o
    requires forall v | v in senders && v != w :: SenderMatches(v, e) && v.id != w.id
    requires forall v, u | v in senders && u in senders && v.id == u.id :: v == u
    requires forall k | k in e.sends && k != w.id :: k in d.sends && d.sends[k] == e.sends[k]
    ensures SendersMatch(senders, o, d)
  {
  }

  /** Writing is the model's write when there is room, and waits without a change when there is none. */
  method WriteStep(w: SendStream, chunk: Bytes, ghost s: SessionState, ghost senders: set<SendStream>, ghost x: System)
    returns (r: Option<Result<nat, Error>>)
    requires Stands(s, senders, x.me) && w in senders && CanWrite(x.me, w.id)
    modifies w, w.outbound`queued, w.outbound`priority
    ensures |x.me.outbound| < OUTBOUND_CAPACITY ==>
              && Enabled(x, Op.Write(w.id, chunk)) && r == Some(Success(|chunk|))
              && Stands(s, senders, Apply(x, Op.Write(w.id, chunk)).me)
    ensures |x.me.outbound| >= OUTBOUND_CAPACITY ==> r == None && Stands(s, senders, x.me)
  {
    FramesPush(x.me.outbound, Stream(w.id, chunk, false));
    hide Frames, Mux.Deliver, SessionState.Matches, CreatesMatch, Only, Data;
    r := w.WriteBuf(chunk);
    if r.Some? {
      ghost var d := Apply(x, Op.Write(w.id, chunk)).me;
      Aside(s, x.me, d);
      OneSender(w, senders, s.outbound, x.me, d);
    }
  }

  /** Finishing is the model's finish, with room or without. */
  method FinishStep(w: SendStream, ghost s: SessionState, ghost senders: set<SendStream>, ghost x: System)
    returns (r: Result<(), Error>)
    requires Stands(s, senders, x.me) && w in senders && CanWrite(x.me, w.id)
    modifies w`fin, w.outbound`queued, w.outbound`waiting
    ensures Enabled(x, Op.Finish(w.id)) && r == Success(())
    ensures Stands(s, senders, Apply(x, Op.Finish(w.id)).me)
  {
    FramesPush(x.me.outbound, Fin(w.id));
    FramesPush(x.me.waiting, Fin(w.id));
    hide Frames, Mux.Deliver, SessionState.Matches, CreatesMatch, Only, Data;
    r := w.Finish();
    ghost var d := Apply(x, Op.Finish(w.id)).me;
    Aside(s, x.me, d);
    OneSender(w, senders, s.outbound, x.me, d);
  }

  /** Dropping an unfinished stream is the model's drop. */
  method DropStep(w: SendStream, ghost s: SessionState, ghost senders: set<SendStream>, ghost x: System)
    requires Stands(s, senders, x.me) && w in senders && CanWrite(x.me, w.id)
    modifies w`fin, w.outbound`queued
    ensures Enabled(x, Op.DropSend(w.id)) && Stands(s, senders, Apply(x, Op.DropSend(w.id)).me)
  {
    FramesPush(x.me.outbound, Fin(w.id));
    hide Frames, Mux.Deliver, SessionState.Matches, CreatesMatch, Only, Data;
    w.Drop();
    ghost var d := Apply(x, Op.DropSend(w.id)).me;
    Aside(s, x.me, d);
    OneSender(w, senders, s.outbound, x.me, d);
  }

  /** A waiting FIN that finds room is the model's enqueueing. */
  method EnqueueStep(o: Outbound, at: nat, ghost s: SessionState, ghost senders: set<SendStream>, ghost x: System)
    requires Stands(s, senders, x.me) && o == s.outbound && Enabled(x, Op.Enqueue(at))
    modifies o`queued, o`waiting
    ensures Stands(s, senders, Apply(x, Op.Enqueue(at)).me)
  {
    FramesPush(x.me.outbound, x.me.waiting[at]);
    FramesRemove(x.me.waiting, at);
    assert o.waiting[at] == StreamFrame(x.me.waiting[at]);
    hide Frames, Mux.Deliver, SessionState.Matches, CreatesMatch, Only, Data;
    o.Enqueue(at);
    Aside(s, x.me, Apply(x, Op.Enqueue(at)).me);
    SendersSame(senders, o, x.me, Apply(x, Op.Enqueue(at)).me);
  }

  lemma SendersSame(senders: set<SendStream>, o: Outbound, e: Endpoint, d: Endpoint)
    requires SendersMatch(senders, o, e) && d.sends == e.sends
    ensures SendersMatch(senders, o, d)
  {
  }

  /** What the receivers that wait to be registered hold, one by one. */
  lemma Waiting(s: SessionState, e: Endpoint) returns (held: seq<Receiver>)
    requires CreatesMatch(s, e)
    ensures UniIds(s.createUni) == e.createUni && s.PairIds(s.createBi) == e.createBi
    ensures |held| == |s.createBi| && Holding(s.createBi, e, held)
    ensures forall i | 0 <= i < |s.createBi| :: s.createBi[i].1.Model() == held[i]
  {
    var pairs, recvs := s.createBi, e.recvs;
    assert forall i | 0 <= i < |pairs| :: pairs[i] in pairs;
    held := seq(|pairs|, i requires 0 <= i < |pairs| && pairs[i].1.id in recvs => recvs[pairs[i].1.id]);
  }

  ghost predicate Holding(pairs: seq<(SendStream, RecvStream)>, e: Endpoint, held: seq<Receiver>)
    requires |held| == |pairs|
  {
    forall i | 0 <= i < |pairs| ::
      pairs[i].0.id == pairs[i].1.id && pairs[i].1.id in e.recvs && held[i] == e.recvs[pairs[i].1.id]
  }

  /** The streams that waited still do, all but those that were taken off the front. */
  lemma StillWaiting(s: SessionState, e: Endpoint, d: Endpoint, uni: seq<SendStream>, bi: seq<(SendStream, RecvStream)>,
                     held: seq<Receiver>, n: nat, m: nat)
    requires UniIds(uni) == e.createUni && s.PairIds(bi) == e.createBi && |held| == |bi| && Holding(bi, e, held)
    requires n <= |uni| && m <= |bi|
    requires forall i | 0 <= i < |bi| && bi[i].1.id in e.recvs ::
               bi[i].1.id in d.recvs && d.recvs[bi[i].1.id] == e.recvs[bi[i].1.id]
    requires s.createUni == uni[n..] && d.createUni == e.createUni[n..]
    requires s.createBi == bi[m..] && d.createBi == e.createBi[m..]
    requires forall i | 0 <= i < |bi| :: bi[i].1.Model() == held[i]
    ensures CreatesMatch(s, d)
  {
    assert UniIds(s.createUni) == d.createUni;
    assert s.PairIds(s.createBi) == d.createBi;
    forall p | p in s.createBi ensures p.0.id == p.1.id && p.1.id in d.recvs && p.1.Model() == d.recvs[p.1.id] {
      var i :| 0 <= i < |s.createBi| && s.createBi[i] == p;
      assert bi[m + i] == p;
    }
  }

  lemma Stand(s: SessionState, senders: set<SendStream>, e: Endpoint)
    requires s.Valid() && s.Matches(e) && s.closed.None? && CreatesMatch(s, e)
    requires QueuesMatch(s.outbound, e) && SendersMatch(senders, s.outbound, e)
    ensures Stands(s, senders, e)
  {
  }

  /** The tables of an endpoint, and the receivers in it. */
  lemma Tables(s: SessionState, e: Endpoint)
    requires s.Matches(e)
    ensures s.isServer == e.isServer && s.Ids(s.acceptUni) == e.acceptUni && s.PairIds(s.acceptBi) == e.acceptBi
    ensures s.sendStreams.Keys == e.sendTable && s.recvStreams.Keys == e.recvTable
    ensures forall id | id in s.recvStreams :: id in e.recvs && s.recvStreams[id].Model() == e.recvs[id]
  {
  }

  lemma TablesMatch(s: SessionState, e: Endpoint)
    requires s.isServer == e.isServer && s.Ids(s.acceptUni) == e.acceptUni && s.PairIds(s.acceptBi) == e.acceptBi
    requires s.sendStreams.Keys == e.sendTable && s.recvStreams.Keys == e.recvTable
    requires forall id | id in s.recvStreams :: id in e.recvs && s.recvStreams[id].Model() == e.recvs[id]
    ensures s.Matches(e)
  {
  }

  lemma KeysMore<V>(table: map<StreamId, V>, id: StreamId, v: V)
    ensures table[id := v].Keys == table.Keys + {id}
  {
  }

  lemma KeysAfter(table: map<StreamId, SendStream>, f: Stream)
    ensures (table - {f.id}).Keys == table.Keys - {f.id}
  {
  }

  // --- the session's loop ---

  /** What is queued on a reachable side can be encoded. */
  lemma QueuedIsSound(x: System, i: nat)
    requires Inv(x) && i < |x.me.outbound|
    ensures Sound(StreamFrame(x.me.outbound[i]))
  {
    var f := x.me.outbound[i];
    OnlyMember(f.id, x.me.outbound, i);
    SlicesOk(x, f.id);
    assert Only(f.id, x.me.outbound) != [];
    assert Pipeline(Out(x, f.id)) != [];
    assert f.id in x.me.sends;
    MuxRuns.SentWasOpened(x, f.id);
    if Opened(x.me, f.id) { MuxRuns.OpenedIsSmall(x.me, f.id); } else { MuxRuns.OpenedIsSmall(x.peer, f.id); }
  }

  lemma CanWork(s: SessionState, senders: set<SendStream>, x: System)
    requires Inv(x) && Stands(s, senders, x.me)
    ensures s.Valid() && s.Queued()
  {
    hide Inv, Sound;
    forall i | 0 <= i < |s.outbound.queued| ensures Sound(s.outbound.queued[i]) {
      QueuedIsSound(x, i);
    }
    forall i | 0 <= i < |s.createBi| ensures s.createBi[i].0.id == s.createBi[i].1.id {
      assert s.createBi[i] in s.createBi;
    }
  }

  /** The lengths of the queues, the streams at their heads, and the receivers that are not in the table. */
  lemma Heads(s: SessionState, senders: set<SendStream>, x: System)
    requires Inv(x) && Stands(s, senders, x.me)
    ensures s.Valid() && s.Queued() && s.closed.None? && s.outbound.priority == []
    ensures s.Matches(x.me) && CreatesMatch(s, x.me)
    ensures QueuesMatch(s.outbound, x.me) && SendersMatch(senders, s.outbound, x.me)
    ensures s.sendStreams.Keys == x.me.sendTable && s.recvStreams.Keys == x.me.recvTable
    ensures |s.createUni| == |x.me.createUni| && |s.createBi| == |x.me.createBi|
    ensures s.createUni != [] ==> s.createUni[0].id == x.me.createUni[0]
    ensures s.createBi != [] ==>
              var (send, recv) := s.createBi[0];
              send.id == recv.id == x.me.createBi[0] && recv.id in x.me.recvs && recv.Model() == x.me.recvs[recv.id]
    ensures |s.outbound.queued| == |x.me.outbound|
    ensures forall i | 0 <= i < |s.createBi| :: s.createBi[i].1 !in s.recvStreams.Values
  {
    CanWork(s, senders, x);
    NotYetTabled(s, senders, x);
    hide Inv, Sound, Frames;
    if s.createUni != [] { assert UniIds(s.createUni)[0] == s.createUni[0].id; }
    if s.createBi != [] { assert s.PairIds(s.createBi)[0] == s.createBi[0].1.id && s.createBi[0] in s.createBi; }
  }

  /** A one-way stream enters the sending table. */
  method RegisterUniStep(s: SessionState, ghost senders: set<SendStream>, ghost x: System) returns (r: Turned)
    requires Inv(x) && Stands(s, senders, x.me) && x.me.createUni != []
    modifies s, s.outbound`queued, s.outbound`priority, s.recvStreams.Values
    ensures r == Handled && Enabled(x, Op.RegisterUni) && Stands(s, senders, Apply(x, Op.RegisterUni).me)
  {
    hide Inv, Frames, Apply, Enabled, Stands, CreatesMatch, SendersMatch, Holding, SessionState.Matches, QueuesMatch,
      SessionState.Valid, SessionState.Queued, WsFrame.Encode, UniIds, SessionState.PairIds, SessionState.Ids;
    Heads(s, senders, x);
    QueuesGive(s.outbound, x.me);
    ghost var d := RegisteredUni(x);
    SendersSame(senders, s.outbound, x.me, d);
    ghost var uni, bi := s.createUni, s.createBi;
    ghost var held := Waiting(s, x.me);
    Tables(s, x.me);
    KeysMore(s.sendStreams, uni[0].id, uni[0]);
    ghost var front, back;
    r, front, back := s.Turn(None);
    TablesMatch(s, d);
    QueuesAgree(s.outbound, d);
    StillWaiting(s, x.me, d, uni, bi, held, 1, 0);
    Stand(s, senders, d);
  }

  lemma RegisteredUni(x: System) returns (d: Endpoint)
    requires x.me.createUni != []
    ensures Enabled(x, Op.RegisterUni) && d == Apply(x, Op.RegisterUni).me
    ensures d == x.me.(createUni := x.me.createUni[1..], sendTable := x.me.sendTable + {x.me.createUni[0]})
  {
    d := Apply(x, Op.RegisterUni).me;
  }

  lemma RegisteredBi(x: System) returns (d: Endpoint)
    requires x.me.createUni == [] && x.me.createBi != []
    ensures Enabled(x, Op.RegisterBi) && d == Apply(x, Op.RegisterBi).me
    ensures var id := x.me.createBi[0];
            d == x.me.(createBi := x.me.createBi[1..], sendTable := x.me.sendTable + {id},
                       recvTable := x.me.recvTable + {id})
  {
    d := Apply(x, Op.RegisterBi).me;
  }

  lemma SentData(x: System) returns (d: Endpoint)
    requires x.me.createUni == [] && x.me.createBi == [] && x.me.outbound != []
    ensures Enabled(x, Op.SendData) && d == Apply(x, Op.SendData).me
    ensures Apply(x, Op.SendData).out == x.out + [x.me.outbound[0]]
    ensures var f := x.me.outbound[0];
            d == x.me.(outbound := x.me.outbound[1..],
                       sendTable := if f.fin then x.me.sendTable - {f.id} else x.me.sendTable)
  {
    d := Apply(x, Op.SendData).me;
  }

  /** A two-way stream enters both tables. */
  method RegisterBiStep(s: SessionState, ghost senders: set<SendStream>, ghost x: System) returns (r: Turned)
    requires Inv(x) && Stands(s, senders, x.me) && x.me.createUni == [] && x.me.createBi != []
    modifies s, s.outbound`queued, s.outbound`priority, s.recvStreams.Values
    ensures r == Handled && Enabled(x, Op.RegisterBi) && Stands(s, senders, Apply(x, Op.RegisterBi).me)
  {
    hide Inv, Frames, Apply, Enabled, Stands, CreatesMatch, SendersMatch, Holding, SessionState.Matches, QueuesMatch,
      SessionState.Valid, SessionState.Queued, WsFrame.Encode, UniIds, SessionState.PairIds, SessionState.Ids;
    Heads(s, senders, x);
    QueuesGive(s.outbound, x.me);
    ghost var d := RegisteredBi(x);
    SendersSame(senders, s.outbound, x.me, d);
    ghost var recv := s.createBi[0].1;
    assert s.createBi[0] in s.createBi;
    ghost var uni, bi := s.createUni, s.createBi;
    ghost var held := Waiting(s, x.me);
    Tables(s, x.me);
    KeysMore(s.sendStreams, recv.id, bi[0].0);
    KeysMore(s.recvStreams, recv.id, recv);
    ghost var front, back;
    r, front, back := s.Turn(None);
    TablesMatch(s, d);
    QueuesAgree(s.outbound, d);
    StillWaiting(s, x.me, d, uni, bi, held, 0, 1);
    Stand(s, senders, d);
  }

  /** The receivers that wait to be registered are not among those in the table. */
  lemma NotYetTabled(s: SessionState, senders: set<SendStream>, x: System)
    requires Inv(x) && Stands(s, senders, x.me)
    ensures forall p | p in s.createBi :: p.1.id !in s.recvStreams && p.1 !in s.recvStreams.Values
  {
    forall p | p in s.createBi ensures p.1.id !in s.recvStreams && p.1 !in s.recvStreams.Values {
      var i :| 0 <= i < |s.createBi| && s.createBi[i] == p;
      assert p.1.id == x.me.createBi[i];
      CreatedIsNotTabled(x, p.1.id);
      hide Inv;
    }
  }

  lemma CreatedIsNotTabled(x: System, id: StreamId)
    requires Inv(x) && id in x.me.createBi
    ensures id !in x.me.recvTable && ServerInitiated(id) == x.me.isServer
  {
    SlicesOk(x, id);
    assert Opened(x.me, id) && id in x.me.recvs;
    hide Only, Data;
  }

  lemma HeadFrame(o: Outbound, e: Endpoint)
    requires QueuesMatch(o, e) && e.outbound != []
    ensures o.queued != [] && o.queued[0] == StreamFrame(e.outbound[0]) && o.queued[1..] == Frames(e.outbound[1..])
    ensures o.waiting == Frames(e.waiting) && o.priority == [] && !o.closed
  {
    FramesRemove(e.outbound, 0);
  }

  lemma QueuesGive(o: Outbound, e: Endpoint)
    requires QueuesMatch(o, e)
    ensures o.queued == Frames(e.outbound) && o.waiting == Frames(e.waiting) && o.priority == [] && !o.closed
  {
  }

  lemma QueuesAgree(o: Outbound, e: Endpoint)
    requires o.queued == Frames(e.outbound) && o.waiting == Frames(e.waiting) && o.priority == [] && !o.closed
    ensures QueuesMatch(o, e)
  {
  }

  /** The frame at the head of the queue goes out, and its stream leaves the table with its FIN. */
  method SendStep(s: SessionState, ghost senders: set<SendStream>, ghost x: System) returns (r: Turned)
    requires Inv(x) && Stands(s, senders, x.me)
    requires x.me.createUni == [] && x.me.createBi == [] && x.me.outbound != []
    modifies s, s.outbound`queued, s.outbound`priority, s.recvStreams.Values
    ensures Enabled(x, Op.SendData) && Stands(s, senders, Apply(x, Op.SendData).me)
    ensures Sound(StreamFrame(x.me.outbound[0])) && r == Sent(WsFrame.Encode(StreamFrame(x.me.outbound[0])))
    ensures Apply(x, Op.SendData).out == x.out + [x.me.outbound[0]]
  {
    hide Inv, Frames, Apply, Enabled, Stands, CreatesMatch, SendersMatch, Holding, SessionState.Matches, Sound, QueuesMatch;
    Heads(s, senders, x);
    QueuedIsSound(x, 0);
    HeadFrame(s.outbound, x.me);
    ghost var d := SentData(x);
    SendersSame(senders, s.outbound, x.me, d);
    ghost var uni, bi := s.createUni, s.createBi;
    ghost var held := Waiting(s, x.me);
    Tables(s, x.me);
    KeysAfter(s.sendStreams, x.me.outbound[0]);
    ghost var front, back;
    r, front, back := s.Turn(None);
    TablesMatch(s, d);
    QueuesAgree(s.outbound, d);
    StillWaiting(s, x.me, d, uni, bi, held, 0, 0);
    Stand(s, senders, d);
  }

  /**
   * A turn of the loop without a message is the model's registration of a one-way stream, else of a two-way one,
   * else the sending of the frame at the head of the queue; with nothing to do it changes nothing.
   */
  method WorkStep(s: SessionState, ghost senders: set<SendStream>, ghost x: System) returns (r: Turned)
    requires Inv(x) && Stands(s, senders, x.me)
    modifies s, s.outbound`queued, s.outbound`priority, s.recvStreams.Values
    ensures x.me.createUni != [] ==>
              r == Handled && Enabled(x, Op.RegisterUni) && Stands(s, senders, Apply(x, Op.RegisterUni).me)
    ensures x.me.createUni == [] && x.me.createBi != [] ==>
              r == Handled && Enabled(x, Op.RegisterBi) && Stands(s, senders, Apply(x, Op.RegisterBi).me)
    ensures x.me.createUni == [] && x.me.createBi == [] && x.me.outbound != [] ==>
              && Enabled(x, Op.SendData) && Stands(s, senders, Apply(x, Op.SendData).me)
              && Sound(StreamFrame(x.me.outbound[0])) && r == Sent(WsFrame.Encode(StreamFrame(x.me.outbound[0])))
              && Apply(x, Op.SendData).out == x.out + [x.me.outbound[0]]
    ensures x.me.createUni == [] && x.me.createBi == [] && x.me.outbound == [] ==> r == Idle && Stands(s, senders, x.me)
  {
    hide Inv, Frames, Apply, Enabled, Stands, CreatesMatch, SendersMatch, Holding, SessionState.Matches, Sound;
    Heads(s, senders, x);
    if s.createUni != [] {
      r := RegisterUniStep(s, senders, x);
    } else if s.createBi != [] {
      r := RegisterBiStep(s, senders, x);
    } else if s.outbound.queued != [] {
      r := SendStep(s, senders, x);
    } else {
        ghost var uni, bi := s.createUni, s.createBi;
      ghost var held := Waiting(s, x.me);
      Tables(s, x.me);
      ghost var front, back;
      r, front, back := s.Turn(None);
      TablesMatch(s, x.me);
      StillWaiting(s, x.me, x.me, uni, bi, held, 0, 0);
      Stand(s, senders, x.me);
    }
  }

  /** A frame of the peer's new two-way stream finds no sender of that stream. */
  lemma NoSenderYet(x: System)
    requires Inv(x) && x.back != [] && x.back[0].id !in x.me.recvTable && Dir(x.back[0].id).Bi?
    ensures x.back[0].id !in x.me.sends
  {
    var id := x.back[0].id;
    HeadWelcome(x);
    SlicesOk(x, id);
    hide Only, Data;
    assert Out(x, id).receiverOpened <==> ServerInitiated(id) == x.peer.isServer;
    assert id in x.me.sends ==> Opened(x.me, id) || id in x.me.recvs;
  }

  /** What receiving does to the parts of the endpoint that are not the receiving streams. */
  lemma Received(x: System) returns (d: Endpoint)
    requires Inv(x) && Enabled(x, Op.Receive)
    ensures d == Apply(x, Op.Receive).me == Mux.Deliver(x.me, x.back[0]) && Welcome(x.me, x.back[0])
    ensures d.createUni == x.me.createUni && d.createBi == x.me.createBi
    ensures d.outbound == x.me.outbound && d.waiting == x.me.waiting
    ensures var f := x.back[0];
            if f.id !in x.me.recvTable && Dir(f.id).Bi?
            then f.id !in x.me.sends && d.sends == x.me.sends[f.id := FRESH_SENDER] else d.sends == x.me.sends
    ensures forall k | k in x.me.createBi && k in x.me.recvs :: k in d.recvs && d.recvs[k] == x.me.recvs[k]
  {
    var f := x.back[0];
    d := Apply(x, Op.Receive).me;
    HeadWelcome(x);
    DeliverHere(x.me, f);
    DeliverFrame(x.me, f);
    if f.id !in x.me.recvTable && Dir(f.id).Bi? { NoSenderYet(x); }
    forall k | k in x.me.createBi && k in x.me.recvs ensures k in d.recvs && d.recvs[k] == x.me.recvs[k] {
      CreatedIsNotTabled(x, k);
      assert k != f.id;
      DeliverElsewhere(x.me, f, k);
    }
    hide Inv, Mux.Deliver, Only, Data;
  }

  lemma OneSenderMore(s: SessionState, frame: Stream, w: SendStream, senders: set<SendStream>, e: Endpoint, d: Endpoint)
    requires SendersMatch(senders, s.outbound, e) && s.NewSender(w, frame) && frame.id !in e.sends
    requires d.sends == e.sends[frame.id := FRESH_SENDER]
    ensures SendersMatch(senders + {w}, s.outbound, d)
  {
  }

  /** The message with the frame at the head of the wire. */
  predicate Carries(message: Bytes, f: Stream) {
    WsFrame.Decode(message) == Success(StreamFrame(f))
  }

  /** What a turn with a frame does to the session, and what it leaves alone. */
  method Delivered(s: SessionState, message: Bytes, ghost f: Stream, ghost e: Endpoint) returns (r: Turned, ghost send: SendStream?)
    requires s.Valid() && s.Queued() && s.Matches(e) && Welcome(e, f) && Carries(message, f)
    requires forall i | 0 <= i < |s.createBi| :: s.createBi[i].1 !in s.recvStreams.Values
    modifies s, s.outbound`queued, s.outbound`priority, s.recvStreams.Values
    ensures s.Valid() && s.Matches(Mux.Deliver(e, f)) && r == Handled && s.closed == old(s.closed)
    ensures s.outbound.queued == old(s.outbound.queued) && s.outbound.priority == old(s.outbound.priority)
    ensures s.createUni == old(s.createUni) && s.createBi == old(s.createBi)
    ensures forall i | 0 <= i < |s.createBi| :: s.createBi[i].1.Model() == old(s.createBi[i].1.Model())
    ensures f.id !in e.recvTable && Dir(f.id).Bi? ==> send != null && fresh(send) && s.NewSender(send, f)
  {
    hide WsFrame.Decode, Mux.Deliver, Welcome, Dir, SessionState.Matches, SessionState.Valid, SessionState.Queued,
      SessionState.NewSender;
    r, send := s.Deliver(message, f, e);
  }

  /** The senders after a frame was taken in. */
  lemma SendersAfter(s: SessionState, f: Stream, send: SendStream?, senders: set<SendStream>, e: Endpoint, d: Endpoint)
    returns (more: set<SendStream>)
    requires SendersMatch(senders, s.outbound, e)
    requires if f.id !in e.recvTable && Dir(f.id).Bi?
             then send != null && s.NewSender(send, f) && f.id !in e.sends && d.sends == e.sends[f.id := FRESH_SENDER]
             else d.sends == e.sends
    ensures more == if f.id !in e.recvTable && Dir(f.id).Bi? then senders + {send} else senders
    ensures SendersMatch(more, s.outbound, d)
  {
    hide SendersMatch, Dir, SessionState.NewSender;
    if f.id !in e.recvTable && Dir(f.id).Bi? {
      more := senders + {send};
      OneSenderMore(s, f, send, senders, e, d);
    } else {
      more := senders;
      SendersSame(senders, s.outbound, e, d);
    }
  }

  /** The streams that wait to be registered hold what they held, and receiving leaves their receivers alone. */
  lemma WaitingAfter(s: SessionState, e: Endpoint, d: Endpoint, uni: seq<SendStream>, bi: seq<(SendStream, RecvStream)>,
                     held: seq<Receiver>)
    requires UniIds(uni) == e.createUni && s.PairIds(bi) == e.createBi && |held| == |bi| && Holding(bi, e, held)
    requires forall k | k in e.createBi && k in e.recvs :: k in d.recvs && d.recvs[k] == e.recvs[k]
    requires d.createUni == e.createUni && d.createBi == e.createBi
    requires s.createUni == uni && s.createBi == bi
    requires forall i | 0 <= i < |bi| :: bi[i].1.Model() == held[i]
    ensures CreatesMatch(s, d)
  {
    assert forall i | 0 <= i < |bi| :: s.PairIds(bi)[i] == bi[i].1.id;
    hide Holding, CreatesMatch, UniIds;
    CreatedInE(bi, e, d, held);
    StillWaiting(s, e, d, uni, bi, held, 0, 0);
  }

  /** A frame off the wire is the model's delivery; a two-way stream of the peer's brings one sender more. */
  method DeliverStep(s: SessionState, message: Bytes, ghost senders: set<SendStream>, ghost x: System)
    returns (r: Turned, ghost more: set<SendStream>)
    requires Inv(x) && Stands(s, senders, x.me)
    requires Enabled(x, Op.Receive) && x.back != [] && Carries(message, x.back[0])
    modifies s, s.outbound`queued, s.outbound`priority, s.recvStreams.Values
    ensures r == Handled && senders <= more && fresh(more - senders)
    ensures Stands(s, more, Apply(x, Op.Receive).me)
  {
    hide Inv, Frames, Apply, Enabled, Stands, CreatesMatch, SendersMatch, Holding, SessionState.Matches, Mux.Deliver,
      Welcome, Carries, QueuesMatch, SessionState.Valid, SessionState.Queued, SessionState.NewSender, Dir, UniIds,
      SessionState.PairIds;
    Heads(s, senders, x);
    QueuesGive(s.outbound, x.me);
    ghost var d := Received(x);
    ghost var uni, bi := s.createUni, s.createBi;
    ghost var held := Waiting(s, x.me);
    ghost var send;
    r, send := Delivered(s, message, x.back[0], x.me);
    QueuesAgree(s.outbound, d);
    WaitingAfter(s, x.me, d, uni, bi, held);
    more := SendersAfter(s, x.back[0], send, senders, x.me, d);
    Stand(s, more, d);
  }

  /** The step of the model that a turn of the loop takes. */
  function TurnOp(x: System, message: Option<Bytes>): Option<Op> {
    if message.Some? then Some(Op.Receive)
    else if x.me.createUni != [] then Some(Op.RegisterUni)
    else if x.me.createBi != [] then Some(Op.RegisterBi)
    else if x.me.outbound != [] then Some(Op.SendData) else None
  }

  /**
   * Every turn of the loop: with the message of the frame at the head of the wire it is the model's receive, without
   * a message it registers or sends as the model does, and with nothing to do it changes nothing.
   */
  method TurnStep(s: SessionState, message: Option<Bytes>, ghost senders: set<SendStream>, ghost x: System)
    returns (r: Turned, ghost more: set<SendStream>)
    requires Inv(x) && Stands(s, senders, x.me)
    requires message.Some? ==>
               && x.back != [] && |x.me.acceptUni| < ACCEPT_CAPACITY && |x.me.acceptBi| < ACCEPT_CAPACITY
               && message.value == WsFrame.Encode(HeadOnWire(x))
    modifies s, s.outbound`queued, s.outbound`priority, s.recvStreams.Values
    ensures senders <= more && fresh(more - senders)
    ensures match TurnOp(x, message)
            case None => r == Idle && Stands(s, more, x.me)
            case Some(op) =>
              && Enabled(x, op) && Stands(s, more, Apply(x, op).me)
              && (op.SendData? ==> Sound(StreamFrame(x.me.outbound[0]))
                                   && r == Sent(WsFrame.Encode(StreamFrame(x.me.outbound[0]))))
              && (!op.SendData? ==> r == Handled)
  {
    if message.Some? {
      WsFrame.RoundTrip(HeadOnWire(x));
      hide Inv, Stands, Apply, WsFrame.Decode, WsFrame.Encode, Sound;
      r, more := DeliverStep(s, message.value, senders, x);
    } else {
      hide Inv, Stands, Apply, Enabled, WsFrame.Encode, Sound;
      more := senders;
      r := WorkStep(s, senders, x);
    }
  }

  /** The frame that the peer's next message carries. */
  ghost function HeadOnWire(x: System): (f: Frame)
    requires Inv(x) && x.back != []
    ensures Sound(f) && f == StreamFrame(x.back[0])
  {
    HeadIsSound(x);
    StreamFrame(x.back[0])
  }

  lemma HeadIsSound(x: System)
    requires Inv(x) && x.back != []
    ensures Sound(StreamFrame(x.back[0]))
  {
    var f := x.back[0];
    OnlyMember(f.id, x.back, 0);
    SlicesOk(x, f.id);
    assert Pipeline(Back(x, f.id)) != [];
    assert f.id in x.peer.sends;
    SwapKeeps(x);
    MuxRuns.SentWasOpened(Swap(x), f.id);
    if Opened(x.me, f.id) { MuxRuns.OpenedIsSmall(x.me, f.id); } else { MuxRuns.OpenedIsSmall(x.peer, f.id); }
  }

  lemma CreatedInE(bi: seq<(SendStream, RecvStream)>, e: Endpoint, d: Endpoint, held: seq<Receiver>)
    requires |held| == |bi| && Holding(bi, e, held)
    requires |e.createBi| == |bi| && forall i | 0 <= i < |bi| :: bi[i].1.id == e.createBi[i]
    requires forall k | k in e.createBi && k in e.recvs :: k in d.recvs && d.recvs[k] == e.recvs[k]
    ensures forall i | 0 <= i < |bi| && bi[i].1.id in e.recvs ::
              bi[i].1.id in d.recvs && d.recvs[bi[i].1.id] == e.recvs[bi[i].1.id]
  {
    forall i | 0 <= i < |bi| && bi[i].1.id in e.recvs
      ensures bi[i].1.id in d.recvs && d.recvs[bi[i].1.id] == e.recvs[bi[i].1.id]
    {
      assert e.createBi[i] in e.createBi;
    }
  }

  // --- opening and accepting ---

  /** The counters of the handle are those of the endpoint. */
  predicate Counts(h: Session, e: Endpoint)
    reads h
  {
    h.nextUni == e.nextUni && h.nextBi == e.nextBi
  }

  lemma OpenedUni(x: System) returns (d: Endpoint, id: StreamId)
    requires Inv(x) && x.me.nextUni < 0x1000_0000_0000_0000 && |x.me.createUni| < CREATE_CAPACITY
    ensures Enabled(x, Op.OpenUni) && d == Apply(x, Op.OpenUni).me
    ensures id == StreamIds.New(x.me.nextUni, Uni, x.me.isServer) && id !in x.me.sends
    ensures d == x.me.(nextUni := x.me.nextUni + 1, createUni := x.me.createUni + [id],
                       sends := x.me.sends[id := FRESH_SENDER])
  {
    d, id := Apply(x, Op.OpenUni).me, StreamIds.New(x.me.nextUni, Uni, x.me.isServer);
    assert !Opened(x.me, id);
    hide Flows, Accepts, Only, Data;
  }

  lemma OpenedBi(x: System) returns (d: Endpoint, id: StreamId)
    requires Inv(x) && x.me.nextBi < 0x1000_0000_0000_0000 && |x.me.createBi| < CREATE_CAPACITY
    ensures Enabled(x, Op.OpenBi) && d == Apply(x, Op.OpenBi).me
    ensures id == StreamIds.New(x.me.nextBi, Bi, x.me.isServer) && id !in x.me.sends && id !in x.me.recvs
    ensures d == x.me.(nextBi := x.me.nextBi + 1, createBi := x.me.createBi + [id],
                       sends := x.me.sends[id := FRESH_SENDER], recvs := x.me.recvs[id := FRESH_RECEIVER])
  {
    d, id := Apply(x, Op.OpenBi).me, StreamIds.New(x.me.nextBi, Bi, x.me.isServer);
    assert !Opened(x.me, id);
    hide Flows, Accepts, Only, Data;
  }

  lemma FreshSender(w: SendStream, senders: set<SendStream>, o: Outbound, e: Endpoint, d: Endpoint, id: StreamId)
    requires SendersMatch(senders, o, e) && id !in e.sends && d.sends == e.sends[id := FRESH_SENDER]
    requires w.id == id && w.outbound == o && !w.fin && w.written == [] && w.closed.None? && w.stops == []
    ensures SendersMatch(senders + {w}, o, d)
  {
  }

  lemma OneMoreUni(s: SessionState, e: Endpoint, d: Endpoint, uni: seq<SendStream>, w: SendStream)
    requires UniIds(uni) == e.createUni && s.PairIds(s.createBi) == e.createBi
    requires forall p | p in s.createBi :: p.0.id == p.1.id && p.1.id in e.recvs && p.1.Model() == e.recvs[p.1.id]
    requires s.createUni == uni + [w] && d.createUni == e.createUni + [w.id] && d.createBi == e.createBi && d.recvs == e.recvs
    ensures CreatesMatch(s, d)
  {
    assert UniIds(uni + [w]) == UniIds(uni) + [w.id];
  }

  lemma OneMoreBi(s: SessionState, e: Endpoint, d: Endpoint, bi: seq<(SendStream, RecvStream)>, p: (SendStream, RecvStream))
    requires UniIds(s.createUni) == e.createUni && s.PairIds(bi) == e.createBi
    requires forall q | q in bi :: q.0.id == q.1.id && q.1.id in e.recvs && q.1.Model() == e.recvs[q.1.id]
    requires s.createBi == bi + [p] && d.createBi == e.createBi + [p.1.id] && d.createUni == e.createUni
    requires p.0.id == p.1.id && p.1.id !in e.recvs && p.1.Model() == FRESH_RECEIVER
    requires d.recvs == e.recvs[p.1.id := FRESH_RECEIVER]
    ensures CreatesMatch(s, d)
  {
    assert s.PairIds(bi + [p]) == s.PairIds(bi) + [p.1.id];
  }

  lemma Creates(s: SessionState, e: Endpoint)
    requires CreatesMatch(s, e)
    ensures UniIds(s.createUni) == e.createUni && s.PairIds(s.createBi) == e.createBi
    ensures forall p | p in s.createBi :: p.0.id == p.1.id && p.1.id in e.recvs && p.1.Model() == e.recvs[p.1.id]
  {
  }

  lemma TablesAside(s: SessionState, e: Endpoint, d: Endpoint)
    requires s.Matches(e) && d.isServer == e.isServer && d.sendTable == e.sendTable && d.recvTable == e.recvTable
    requires d.acceptUni == e.acceptUni && d.acceptBi == e.acceptBi
    requires forall k | k in e.recvs :: k in d.recvs && d.recvs[k] == e.recvs[k]
    ensures s.Matches(d)
  {
  }

  /** Opening a one-way stream is the model's: the same identifier, and one sender more. */
  method OpenUniStep(h: Session, ghost senders: set<SendStream>, ghost x: System) returns (r: Option<SendStream>)
    requires Inv(x) && Stands(h.state, senders, x.me) && Counts(h, x.me) && h.isServer == x.me.isServer
    requires x.me.nextUni < 0x1000_0000_0000_0000 && |x.me.createUni| < CREATE_CAPACITY
    modifies h`nextUni, h`waitingUni, h.state`createUni
    ensures Enabled(x, Op.OpenUni) && r.Some? && r.value.id == StreamIds.New(x.me.nextUni, Uni, x.me.isServer)
    ensures Stands(h.state, senders + {r.value}, Apply(x, Op.OpenUni).me) && Counts(h, Apply(x, Op.OpenUni).me)
  {
    hide Inv, Frames, Apply, Enabled, Stands, CreatesMatch, SendersMatch, SessionState.Matches, QueuesMatch, UniIds,
      SessionState.PairIds, SessionState.Valid;
    Heads(h.state, senders, x);
    ghost var d, id := OpenedUni(x);
    SameSide(h.state, x.me);
    Creates(h.state, x.me);
    TablesAside(h.state, x.me, d);
    ghost var uni := h.state.createUni;
    r := h.OpenUni();
    OneMoreUni(h.state, x.me, d, uni, r.value);
    FreshSender(r.value, senders, h.state.outbound, x.me, d, id);
    QueuesIdle(h.state.outbound, x.me, d);
    Stand(h.state, senders + {r.value}, d);
  }

  lemma SameSide(s: SessionState, e: Endpoint)
    requires s.Matches(e)
    ensures s.isServer == e.isServer
  {
  }

  lemma QueuesIdle(o: Outbound, e: Endpoint, d: Endpoint)
    requires QueuesMatch(o, e) && d.outbound == e.outbound && d.waiting == e.waiting
    ensures QueuesMatch(o, d)
  {
  }

  /** Opening a two-way stream, likewise, with its receiver. */
  method OpenBiStep(h: Session, ghost senders: set<SendStream>, ghost x: System) returns (r: Option<(SendStream, RecvStream)>)
    requires Inv(x) && Stands(h.state, senders, x.me) && Counts(h, x.me) && h.isServer == x.me.isServer
    requires x.me.nextBi < 0x1000_0000_0000_0000 && |x.me.createBi| < CREATE_CAPACITY
    modifies h`nextBi, h`waitingBi, h.state`createBi
    ensures Enabled(x, Op.OpenBi) && r.Some? && r.value.0.id == r.value.1.id == StreamIds.New(x.me.nextBi, Bi, x.me.isServer)
    ensures Stands(h.state, senders + {r.value.0}, Apply(x, Op.OpenBi).me) && Counts(h, Apply(x, Op.OpenBi).me)
  {
    hide Inv, Frames, Apply, Enabled, Stands, CreatesMatch, SendersMatch, SessionState.Matches, QueuesMatch, UniIds,
      SessionState.PairIds, SessionState.Valid;
    Heads(h.state, senders, x);
    ghost var d, id := OpenedBi(x);
    SameSide(h.state, x.me);
    Creates(h.state, x.me);
    TablesAside(h.state, x.me, d);
    ghost var bi := h.state.createBi;
    r := h.OpenBi();
    OneMoreBi(h.state, x.me, d, bi, r.value);
    FreshSender(r.value.0, senders, h.state.outbound, x.me, d, id);
    QueuesIdle(h.state.outbound, x.me, d);
    Stand(h.state, senders + {r.value.0}, d);
  }

  lemma AcceptedUni(x: System) returns (d: Endpoint)
    requires x.me.acceptUni != []
    ensures Enabled(x, Op.AcceptUni) && d == Apply(x, Op.AcceptUni).me
    ensures d == x.me.(acceptUni := x.me.acceptUni[1..], handedUni := x.me.handedUni + [x.me.acceptUni[0]])
  {
    d := Apply(x, Op.AcceptUni).me;
  }

  lemma AcceptedBi(x: System) returns (d: Endpoint)
    requires x.me.acceptBi != []
    ensures Enabled(x, Op.AcceptBi) && d == Apply(x, Op.AcceptBi).me
    ensures d == x.me.(acceptBi := x.me.acceptBi[1..], handedBi := x.me.handedBi + [x.me.acceptBi[0]])
  {
    d := Apply(x, Op.AcceptBi).me;
  }

  /** Accepting is the model's: the stream that waited longest, or nothing while none waits. */
  method AcceptUniStep(h: Session, ghost senders: set<SendStream>, ghost x: System) returns (r: Option<RecvStream>)
    requires Stands(h.state, senders, x.me)
    modifies h.state`acceptUni
    ensures x.me.acceptUni == [] ==> r == None && Stands(h.state, senders, x.me)
    ensures x.me.acceptUni != [] ==>
              && r.Some? && r.value.id == x.me.acceptUni[0]
              && Enabled(x, Op.AcceptUni) && Stands(h.state, senders, Apply(x, Op.AcceptUni).me)
  {
    hide Frames, Apply, Enabled, SendersMatch, QueuesMatch, UniIds, CreatesMatch, SessionState.PairIds;
    ghost var accept := h.state.acceptUni;
    assert |accept| == |x.me.acceptUni| && (accept != [] ==> h.state.Ids(accept)[0] == accept[0].id);
    assert accept != [] ==> h.state.Ids(accept[1..]) == h.state.Ids(accept)[1..];
    Creates(h.state, x.me);
    r := h.AcceptUni();
    if accept != [] {
      ghost var d := AcceptedUni(x);
      SendersSame(senders, h.state.outbound, x.me, d);
      QueuesIdle(h.state.outbound, x.me, d);
      CreatesAside(h.state, x.me, d);
    } else {
      CreatesAside(h.state, x.me, x.me);
    }
  }

  lemma CreatesAside(s: SessionState, e: Endpoint, d: Endpoint)
    requires UniIds(s.createUni) == e.createUni && s.PairIds(s.createBi) == e.createBi
    requires forall p | p in s.createBi :: p.0.id == p.1.id && p.1.id in e.recvs && p.1.Model() == e.recvs[p.1.id]
    requires d.createUni == e.createUni && d.createBi == e.createBi && d.recvs == e.recvs
    ensures CreatesMatch(s, d)
  {
  }

  method AcceptBiStep(h: Session, ghost senders: set<SendStream>, ghost x: System) returns (r: Option<(SendStream, RecvStream)>)
    requires Stands(h.state, senders, x.me)
    modifies h.state`acceptBi
    ensures x.me.acceptBi == [] ==> r == None && Stands(h.state, senders, x.me)
    ensures x.me.acceptBi != [] ==>
              && r.Some? && r.value.1.id == x.me.acceptBi[0]
              && Enabled(x, Op.AcceptBi) && Stands(h.state, senders, Apply(x, Op.AcceptBi).me)
  {
    hide Frames, Apply, Enabled, SendersMatch, QueuesMatch, UniIds, CreatesMatch, SessionState.Ids;
    ghost var accept := h.state.acceptBi;
    assert |accept| == |x.me.acceptBi| && (accept != [] ==> h.state.PairIds(accept)[0] == accept[0].1.id);
    assert accept != [] ==> h.state.PairIds(accept[1..]) == h.state.PairIds(accept)[1..];
    Creates(h.state, x.me);
    r := h.AcceptBi();
    if accept != [] {
      ghost var d := AcceptedBi(x);
      SendersSame(senders, h.state.outbound, x.me, d);
      QueuesIdle(h.state.outbound, x.me, d);
      CreatesAside(h.state, x.me, d);
    } else {
      CreatesAside(h.state, x.me, x.me);
    }
  }

  // --- reading ---

  /** The stream that is read is the one that the tables have under its identifier, if they have one. */
  ghost predicate Known(r: RecvStream, s: SessionState)
    reads s
  {
    && (r.id in s.recvStreams ==> s.recvStreams[r.id] == r)
    && (forall p | p in s.createBi && p.1.id == r.id :: p.1 == r)
  }

  /** A read, while no reset or stop interferes, is a run of the model's reading steps. */
  method ReadStep(r: RecvStream, max: nat, ghost s: SessionState, ghost senders: set<SendStream>, ghost x: System)
    returns (o: Outcome)
    requires Stands(s, senders, x.me) && Known(r, s)
    requires CanRead(x.me, r.id) && r.Model() == x.me.recvs[r.id] && r.resets == [] && r.closed.None?
    modifies r
    ensures var y := Exec(x, ReadTurns(x.me.recvs[r.id], r.id, max));
            && y.Some? && Stands(s, senders, y.value.me)
            && r.id in y.value.me.recvs && r.Model() == y.value.me.recvs[r.id] && r.closed.None? && r.resets == []
            && y.value.peer == x.peer && y.value.out == x.out && y.value.back == x.back
    ensures var (after, given) := ReadRun(x.me.recvs[r.id], max);
            o == if given.Pending? && r.released then Failed(Closed) else given
  {
    hide Frames, Exec, ReadRun, ReadTurns, Stands, QueuesMatch, SendersMatch, CreatesMatch, SessionState.Matches,
      SessionState.Valid, UniIds, SessionState.PairIds, SessionState.Ids;
    ReadIsARun(x, r.id, max);
    ghost var d := x.me.(recvs := x.me.recvs[r.id := ReadRun(x.me.recvs[r.id], max).0]);
    Parts(s, senders, x.me);
    Tables(s, x.me);
    Creates(s, x.me);
    Entries(s);
    o := r.ReadChunk(max);
    ValidAgain(s);
    TablesMatch(s, d);
    CreatesAside(s, d, d);
    SendersSame(senders, s.outbound, x.me, d);
    QueuesIdle(s.outbound, x.me, d);
    Stand(s, senders, d);
  }

  lemma Parts(s: SessionState, senders: set<SendStream>, e: Endpoint)
    requires Stands(s, senders, e)
    ensures s.Valid() && s.Matches(e) && s.closed.None? && CreatesMatch(s, e)
    ensures QueuesMatch(s.outbound, e) && SendersMatch(senders, s.outbound, e)
  {
  }

  lemma Entries(s: SessionState)
    requires s.Valid()
    ensures forall id | id in s.sendStreams :: s.sendStreams[id].id == id
    ensures forall id | id in s.recvStreams :: s.recvStreams[id].id == id
  {
  }

  lemma ValidAgain(s: SessionState)
    requires forall id | id in s.sendStreams :: s.sendStreams[id].id == id
    requires forall id | id in s.recvStreams :: s.recvStreams[id].id == id
    ensures s.Valid()
  {
  }
}
