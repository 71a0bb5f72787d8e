/** Subscriptions between a subscriber and a publisher: identifiers, handles and the replies each of them gets. */
module Subscription {
  import opened Wire

  const WORD: nat := 0x1_0000_0000_0000_0000

  type Id = nat

  datatype Request = Subscribe(id: Id) | Unsubscribe(id: Id)

  datatype Reply = SubscribeOk(id: Id) | SubscribeDone(id: Id) | SubscribeError(id: Id)

  /** How far one subscribe call has come: it takes a number, queues its message, then enters its table. */
  datatype Stage = Numbered | Queued | Entered | Left

  /** `table` maps the open subscriptions to whether they were accepted; `missed` and `failed` log why others are not. */
  datatype Subscriber = Subscriber(taken: nat, stages: map<Id, Stage>, table: map<Id, bool>,
                                   arrived: seq<Reply>, missed: set<Id>, failed: set<Id>)

  /** `handles` maps the live handles to whether they sent an OK; `received` and `sent` are logs. */
  datatype Publisher = Publisher(table: set<Id>, handles: map<Id, bool>, received: set<Id>, sent: seq<Reply>,
                                 duplicates: nat)

  /** `up` and `down` are the messages queued or in flight on the ordered control stream. */
  datatype System = System(sub: Subscriber, pub: Publisher, up: seq<Request>, down: seq<Reply>)

  const INITIAL: System := System(Subscriber(0, map[], map[], [], {}, {}), Publisher({}, map[], {}, [], 0), [], [])

  datatype Op =
    | TakeNumber | QueueSubscribe(id: Id) | EnterTable(id: Id) | Leave(id: Id)
    | ReceiveReply | StreamFails(id: Id)
    | ReceiveRequest | Accept(id: Id) | DropHandle(id: Id)

  predicate AtStage(s: Subscriber, id: Id, stage: Stage) {
    id in s.stages && s.stages[id] == stage
  }

  predicate Enabled(x: System, op: Op) {
    match op
    case TakeNumber => true
    case QueueSubscribe(id) => AtStage(x.sub, id, Numbered)
    case EnterTable(id) => AtStage(x.sub, id, Queued)
    case Leave(id) => AtStage(x.sub, id, Entered)
    case ReceiveReply => x.down != []
    case StreamFails(id) => id in x.sub.table
    case ReceiveRequest => x.up != []
    case Accept(id) => id in x.pub.handles && !x.pub.handles[id]
    case DropHandle(id) => id in x.pub.handles
  }

  /** An OK marks the entry, any other reply removes it; a reply about nobody changes nothing. */
  function TableAfter(table: map<Id, bool>, m: Reply): map<Id, bool> {
    if m.SubscribeOk? then (if m.id in table then table[m.id := true] else table) else table - {m.id}
  }

  /** A last reply that comes before the entry finds nothing to remove. */
  function Received(s: Subscriber, m: Reply): Subscriber {
    s.(arrived := s.arrived + [m], table := TableAfter(s.table, m),
       missed := if !m.SubscribeOk? && m.id !in s.table && AtStage(s, m.id, Queued) then s.missed + {m.id} else s.missed)
  }

  function Requested(p: Publisher, m: Request): Publisher {
    match m
    case Subscribe(id) =>
      if id in p.table then p.(duplicates := p.duplicates + 1)
      else p.(table := p.table + {id}, handles := p.handles[id := false], received := p.received + {id})
    case Unsubscribe(_) => p
  }

  /** What a dropped handle says depends on whether it had said OK. */
  function Farewell(p: Publisher, id: Id): Reply
    requires id in p.handles
  {
    if p.handles[id] then SubscribeDone(id) else SubscribeError(id)
  }

  function Apply(x: System, op: Op): System
    requires Enabled(x, op)
  {
    match op
    case TakeNumber =>
      x.(sub := x.sub.(taken := x.sub.taken + 1, stages := x.sub.stages[x.sub.taken % WORD := Numbered]))
    case QueueSubscribe(id) =>
      x.(sub := x.sub.(stages := x.sub.stages[id := Queued]), up := x.up + [Subscribe(id)])
    case EnterTable(id) =>
      x.(sub := x.sub.(stages := x.sub.stages[id := Entered], table := x.sub.table[id := false]))
    case Leave(id) =>
      x.(sub := x.sub.(stages := x.sub.stages[id := Left]), up := x.up + [Unsubscribe(id)])
    case ReceiveReply => x.(sub := Received(x.sub, x.down[0]), down := x.down[1..])
    case StreamFails(id) => x.(sub := x.sub.(table := x.sub.table - {id}, failed := x.sub.failed + {id}))
    case ReceiveRequest => x.(pub := Requested(x.pub, x.up[0]), up := x.up[1..])
    case Accept(id) =>
      x.(pub := x.pub.(handles := x.pub.handles[id := true], sent := x.pub.sent + [SubscribeOk(id)]),
         down := x.down + [SubscribeOk(id)])
    case DropHandle(id) =>
      var m := Farewell(x.pub, id);
      x.(pub := x.pub.(table := x.pub.table - {id}, handles := x.pub.handles - {id}, sent := x.pub.sent + [m]),
         down := x.down + [m])
  }

  function Exec(x: System, ops: seq<Op>): Option<System>
    decreases |ops|
  {
    if ops == [] then Some(x)
    else if Enabled(x, ops[0]) then Exec(Apply(x, ops[0]), ops[1..]) else None
  }

  // --- one subscription ---

  function About(id: Id, ms: seq<Reply>): seq<Reply> {
    if ms == [] then [] else (if ms[0].id == id then [ms[0]] else []) + About(id, ms[1..])
  }

  /** How many SUBSCRIBE messages ask for `id`. */
  function Asking(id: Id, ms: seq<Request>): nat {
    if ms == [] then 0 else (if ms[0] == Subscribe(id) then 1 else 0) + Asking(id, ms[1..])
  }

  lemma {:induction false} AboutPush(id: Id, ms: seq<Reply>, m: Reply)
    ensures About(id, ms + [m]) == if m.id == id then About(id, ms) + [m] else About(id, ms)
  {
    if ms == [] {
      assert [m][1..] == [] && ms + [m] == [m];
    } else {
      AboutPush(id, ms[1..], m);
      assert (ms + [m])[1..] == ms[1..] + [m];
      var head := if ms[0].id == id then [ms[0]] else [];
      assert head + (About(id, ms[1..]) + [m]) == (head + About(id, ms[1..])) + [m];
    }
  }

  lemma {:induction false} AskingPush(id: Id, ms: seq<Request>, m: Request)
    ensures Asking(id, ms + [m]) == Asking(id, ms) + if m == Subscribe(id) then 1 else 0
  {
    if ms == [] {
      assert [m][1..] == [] && ms + [m] == [m];
    } else {
      AskingPush(id, ms[1..], m);
      assert (ms + [m])[1..] == ms[1..] + [m];
    }
  }

  /** One identifier across both sides. */
  datatype Slice = Slice(stage: Option<Stage>, entry: Option<bool>, asking: nat, received: bool, handle: Option<bool>,
                         tabled: bool, sent: seq<Reply>, down: seq<Reply>, arrived: seq<Reply>,
                         missed: bool, failed: bool)

  function SliceOf(x: System, id: Id): Slice {
    Slice(if id in x.sub.stages then Some(x.sub.stages[id]) else None,
          if id in x.sub.table then Some(x.sub.table[id]) else None,
          Asking(id, x.up), id in x.pub.received,
          if id in x.pub.handles then Some(x.pub.handles[id]) else None,
          id in x.pub.table, About(id, x.pub.sent), About(id, x.down), About(id, x.sub.arrived),
          id in x.sub.missed, id in x.sub.failed)
  }

  predicate Terminal(ms: seq<Reply>) {
    ms != [] && !ms[|ms| - 1].SubscribeOk?
  }

  /** The replies to one subscription in a given state of its handle. */
  predicate RepliesOk(x: Slice, id: Id) {
    match x.handle
    case Some(ok) => x.received && x.tabled && x.sent == if ok then [SubscribeOk(id)] else []
    case None =>
      && !x.tabled
      && (if x.received then x.sent == [SubscribeOk(id), SubscribeDone(id)] || x.sent == [SubscribeError(id)]
          else x.sent == [])
  }

  predicate EntryOk(x: Slice, id: Id) {
    && (x.entry.Some? ==> x.stage == Some(Entered) || x.stage == Some(Left))
    && (x.entry == Some(true) ==> x.arrived != [])
    && (x.entry.Some? && Terminal(x.arrived) ==> x.missed)
    && (x.entry.None? && (x.stage == Some(Entered) || x.stage == Some(Left)) ==> Terminal(x.arrived) || x.failed)
    && (x.missed ==> Terminal(x.arrived))
    && (x.missed && !x.failed && (x.stage == Some(Entered) || x.stage == Some(Left)) ==> x.entry.Some?)
    && (x.stage == Some(Queued) && Terminal(x.arrived) ==> x.missed)
    && (x.failed ==> x.stage == Some(Entered) || x.stage == Some(Left))
  }

  predicate SliceOk(x: Slice, id: Id) {
    && x.asking + (if x.received then 1 else 0)
       == (if x.stage.None? || x.stage == Some(Numbered) then 0 else 1)
    && RepliesOk(x, id)
    && x.sent == x.arrived + x.down
    && EntryOk(x, id)
  }

  /** As long as the 64-bit counter has not come round. */
  ghost predicate Inv(x: System) {
    && (forall id | id in x.sub.stages :: id < x.sub.taken)
    && (forall id :: SliceOk(SliceOf(x, id), id))
    && x.pub.duplicates == 0
  }

  // --- the steps on one subscription ---

  lemma NumberSlice(x: System, id: Id)
    requires Inv(x) && x.sub.taken < WORD
    ensures SliceOk(SliceOf(Apply(x, TakeNumber), id), id)
  {
    hide About, Asking;
    assert SliceOk(SliceOf(x, id), id);
    if id == x.sub.taken { assert id !in x.sub.stages; }
  }

  lemma QueueSlice(x: System, k: Id, id: Id)
    requires Inv(x) && Enabled(x, QueueSubscribe(k))
    ensures SliceOk(SliceOf(Apply(x, QueueSubscribe(k)), id), id)
  {
    AskingPush(id, x.up, Subscribe(k));
    hide About, Asking;
    assert SliceOk(SliceOf(x, id), id);
  }

  lemma EnterSlice(x: System, k: Id, id: Id)
    requires Inv(x) && Enabled(x, EnterTable(k))
    ensures SliceOk(SliceOf(Apply(x, EnterTable(k)), id), id)
  {
    hide About, Asking;
    assert SliceOk(SliceOf(x, id), id);
  }

  lemma LeaveSlice(x: System, k: Id, id: Id)
    requires Inv(x) && Enabled(x, Leave(k))
    ensures SliceOk(SliceOf(Apply(x, Leave(k)), id), id)
  {
    AskingPush(id, x.up, Unsubscribe(k));
    hide About, Asking;
    assert SliceOk(SliceOf(x, id), id);
  }

  lemma FailSlice(x: System, k: Id, id: Id)
    requires Inv(x) && Enabled(x, StreamFails(k))
    ensures SliceOk(SliceOf(Apply(x, StreamFails(k)), id), id)
  {
    hide About, Asking;
    assert SliceOk(SliceOf(x, id), id);
  }

  lemma RequestSlice(x: System, id: Id)
    requires Inv(x) && Enabled(x, ReceiveRequest)
    ensures SliceOk(SliceOf(Apply(x, ReceiveRequest), id), id)
    ensures Apply(x, ReceiveRequest).pub.duplicates == 0
  {
    assert Asking(id, x.up) == (if x.up[0] == Subscribe(id) then 1 else 0) + Asking(id, x.up[1..]);
    if x.up[0].Subscribe? { NeverTabled(x); }
    hide About, Asking;
    assert SliceOk(SliceOf(x, id), id);
  }

  /** A SUBSCRIBE that arrives never finds its identifier in the table. */
  lemma NeverTabled(x: System)
    requires Inv(x) && x.up != [] && x.up[0].Subscribe?
    ensures x.up[0].id !in x.pub.table && x.up[0].id !in x.pub.received
  {
    var id := x.up[0].id;
    assert Asking(id, x.up) >= 1;
    assert SliceOk(SliceOf(x, id), id);
  }

  lemma AcceptSlice(x: System, k: Id, id: Id)
    requires Inv(x) && Enabled(x, Accept(k))
    ensures SliceOk(SliceOf(Apply(x, Accept(k)), id), id)
  {
    AboutPush(id, x.pub.sent, SubscribeOk(k));
    AboutPush(id, x.down, SubscribeOk(k));
    hide About, Asking;
    assert SliceOk(SliceOf(x, id), id);
    assert About(id, x.sub.arrived) + About(id, x.down) + [SubscribeOk(k)]
        == About(id, x.sub.arrived) + (About(id, x.down) + [SubscribeOk(k)]);
  }

  lemma DropEffect(x: System, k: Id, id: Id)
    requires Enabled(x, DropHandle(k))
    ensures var s, m := SliceOf(x, id), Farewell(x.pub, k);
            SliceOf(Apply(x, DropHandle(k)), id)
            == if id == k then s.(handle := None, tabled := false, sent := s.sent + [m], down := s.down + [m]) else s
  {
    var m := Farewell(x.pub, k);
    AboutPush(id, x.pub.sent, m);
    AboutPush(id, x.down, m);
    hide About, Asking;
  }

  lemma SliceDrop(x: Slice, id: Id, m: Reply)
    requires SliceOk(x, id) && x.handle.Some?
    requires m == if x.handle.value then SubscribeDone(id) else SubscribeError(id)
    ensures SliceOk(x.(handle := None, tabled := false, sent := x.sent + [m], down := x.down + [m]), id)
  {
    assert x.arrived + x.down + [m] == x.arrived + (x.down + [m]);
  }

  lemma DropSlice(x: System, k: Id, id: Id)
    requires Inv(x) && Enabled(x, DropHandle(k))
    ensures SliceOk(SliceOf(Apply(x, DropHandle(k)), id), id)
  {
    assert SliceOk(SliceOf(x, id), id);
    DropEffect(x, k, id);
    hide SliceOk, Inv, Apply, About, Asking;
    if id == k { SliceDrop(SliceOf(x, id), id, Farewell(x.pub, k)); }
  }

  /** The replies that can have come, given what the next one is. */
  lemma NextReply(x: Slice, id: Id, m: Reply, rest: seq<Reply>)
    requires SliceOk(x, id) && m.id == id && x.down == [m] + rest
    ensures x.stage.Some? && x.stage != Some(Numbered) && x.received
    ensures m.SubscribeOk? ==> x.arrived == []
    ensures !m.SubscribeOk? ==> rest == [] && !Terminal(x.arrived)
  {
    assert x.sent[|x.arrived|] == m;
    assert |x.sent| == |x.arrived| + 1 + |rest|;
    assert x.arrived != [] ==> x.sent[0] == x.arrived[0];
  }

  /** What a reply does to the subscription it is about. */
  function AfterReply(x: Slice, m: Reply, rest: seq<Reply>): Slice {
    var y := x.(arrived := x.arrived + [m], down := rest);
    if m.SubscribeOk? then (if y.entry.Some? then y.(entry := Some(true)) else y)
    else if y.entry.Some? then y.(entry := None)
    else if y.stage == Some(Queued) then y.(missed := true) else y
  }

  lemma AboutPop(id: Id, ms: seq<Reply>)
    requires ms != []
    ensures About(id, ms) == if ms[0].id == id then [ms[0]] + About(id, ms[1..]) else About(id, ms[1..])
  {
    assert [] + About(id, ms[1..]) == About(id, ms[1..]);
  }

  lemma ReplyEffect(x: System, id: Id)
    requires Enabled(x, ReceiveReply)
    ensures x.down[0].id == id ==> About(id, x.down) == [x.down[0]] + About(id, x.down[1..])
    ensures SliceOf(Apply(x, ReceiveReply), id)
            == if x.down[0].id == id then AfterReply(SliceOf(x, id), x.down[0], About(id, x.down[1..])) else SliceOf(x, id)
  {
    hide About, Asking, Requested, Farewell;
    AboutPop(id, x.down);
    AboutPush(id, x.sub.arrived, x.down[0]);
  }

  lemma SliceReply(x: Slice, id: Id, m: Reply, rest: seq<Reply>)
    requires SliceOk(x, id) && m.id == id && x.down == [m] + rest
    ensures SliceOk(AfterReply(x, m, rest), id)
  {
    NextReply(x, id, m, rest);
    assert x.arrived + x.down == (x.arrived + [m]) + rest;
  }

  lemma ReplySlice(x: System, id: Id)
    requires Inv(x) && Enabled(x, ReceiveReply)
    ensures SliceOk(SliceOf(Apply(x, ReceiveReply), id), id)
  {
    assert SliceOk(SliceOf(x, id), id);
    ReplyEffect(x, id);
    hide SliceOk, Inv, Apply, About, Asking, AfterReply;
    if x.down[0].id == id { SliceReply(SliceOf(x, id), id, x.down[0], About(id, x.down[1..])); }
  }

  lemma StepKeeps(x: System, op: Op)
    requires Inv(x) && Enabled(x, op) && Apply(x, op).sub.taken <= WORD
    ensures Inv(Apply(x, op))
  {
    forall id ensures SliceOk(SliceOf(Apply(x, op), id), id) {
      match op
      case TakeNumber => NumberSlice(x, id);
      case QueueSubscribe(k) => QueueSlice(x, k, id);
      case EnterTable(k) => EnterSlice(x, k, id);
      case Leave(k) => LeaveSlice(x, k, id);
      case ReceiveReply => ReplySlice(x, id);
      case StreamFails(k) => FailSlice(x, k, id);
      case ReceiveRequest => RequestSlice(x, id);
      case Accept(k) => AcceptSlice(x, k, id);
      case DropHandle(k) => DropSlice(x, k, id);
    }
    if op.ReceiveRequest? { RequestSlice(x, 0); }
    hide SliceOk, SliceOf;
  }

  lemma {:induction false} RunKeeps(x: System, ops: seq<Op>)
    requires Inv(x)
    ensures Exec(x, ops).Some? ==> Exec(x, ops).value.sub.taken >= x.sub.taken
    ensures Exec(x, ops).Some? && Exec(x, ops).value.sub.taken <= WORD ==> Inv(Exec(x, ops).value)
    decreases |ops|
  {
    if ops != [] && Enabled(x, ops[0]) {
      var y := Apply(x, ops[0]);
      assert x.sub.taken <= y.sub.taken;
      hide Inv, Apply, Enabled;
      if y.sub.taken <= WORD {
        StepKeeps(x, ops[0]);
        RunKeeps(y, ops[1..]);
      } else {
        TakenGrows(y, ops[1..]);
      }
    }
  }

  lemma {:induction false} TakenGrows(x: System, ops: seq<Op>)
    ensures Exec(x, ops).Some? ==> Exec(x, ops).value.sub.taken >= x.sub.taken
    decreases |ops|
  {
    if ops != [] && Enabled(x, ops[0]) {
      assert x.sub.taken <= Apply(x, ops[0]).sub.taken;
      hide Apply, Enabled;
      TakenGrows(Apply(x, ops[0]), ops[1..]);
    }
  }

  // --- every run ---

  /** Some run ends here, in which the subscriber's 64-bit counter did not come round. */
  ghost predicate Reachable(x: System) {
    x.sub.taken <= WORD && exists ops :: Exec(INITIAL, ops) == Some(x)
  }

  lemma InitialOk()
    ensures Inv(INITIAL)
  {
  }

  lemma ReachableOk(x: System)
    requires Reachable(x)
    ensures Inv(x)
  {
    InitialOk();
    hide Inv, Exec, Apply, Enabled;
    var ops :| Exec(INITIAL, ops) == Some(x);
    RunKeeps(INITIAL, ops);
  }

  /** The publisher has never seen an identifier twice, and never will: the next request is not in its table either. */
  lemma NeverDuplicate(x: System)
    requires Reachable(x)
    ensures x.pub.duplicates == 0
    ensures x.up != [] && x.up[0].Subscribe? ==> x.up[0].id !in x.pub.table && x.up[0].id !in x.pub.received
  {
    ReachableOk(x);
    if x.up != [] && x.up[0].Subscribe? { NeverTabled(x); }
  }

  /**
   * For each identifier the publisher sends nothing before it is asked; then OK and DONE, or a lone ERROR, in
   * step with its handle; and the identifier is in the table exactly while the handle lives.
   */
  lemma RepliesFollowTheHandle(x: System, id: Id)
    requires Reachable(x)
    ensures id in x.pub.table <==> id in x.pub.handles
    ensures id !in x.pub.received ==> About(id, x.pub.sent) == []
    ensures id in x.pub.handles ==> About(id, x.pub.sent) == if x.pub.handles[id] then [SubscribeOk(id)] else []
    ensures id in x.pub.received && id !in x.pub.handles ==>
              About(id, x.pub.sent) == [SubscribeOk(id), SubscribeDone(id)] || About(id, x.pub.sent) == [SubscribeError(id)]
    ensures About(id, x.pub.sent) == About(id, x.sub.arrived) + About(id, x.down)
  {
    ReachableOk(x);
    assert SliceOk(SliceOf(x, id), id);
  }

  /** A subscriber is never told OK twice. */
  lemma OkComesOnce(x: System)
    requires Reachable(x) && x.down != [] && x.down[0].SubscribeOk?
    ensures x.down[0].id in x.sub.table ==> !x.sub.table[x.down[0].id]
  {
    ReachableOk(x);
    var m := x.down[0];
    assert About(m.id, x.down) == [m] + About(m.id, x.down[1..]);
    hide About, Asking;
    assert SliceOk(SliceOf(x, m.id), m.id);
    NextReply(SliceOf(x, m.id), m.id, m, About(m.id, x.down[1..]));
  }

  /**
   * Once a subscription has entered the subscriber's table and its last reply has come, it is out of the table
   * again, except exactly when that reply came before it had entered.
   */
  lemma EntryEndsWithReply(x: System, id: Id)
    requires Reachable(x) && Terminal(About(id, x.sub.arrived)) && id !in x.sub.failed
    requires AtStage(x.sub, id, Entered) || AtStage(x.sub, id, Left)
    ensures id in x.sub.table <==> id in x.sub.missed
  {
    ReachableOk(x);
    assert SliceOk(SliceOf(x, id), id);
  }

  /** That does happen: the request goes out before the entry is made, and an ERROR can be faster. */
  lemma ReplyCanOvertakeEntry()
    ensures var ops := [TakeNumber, QueueSubscribe(0), ReceiveRequest, DropHandle(0), ReceiveReply, EnterTable(0)];
            && Exec(INITIAL, ops).Some?
            && var x := Exec(INITIAL, ops).value;
               0 in x.sub.table && Terminal(x.sub.arrived) && x.up == [] && x.down == [] && x.pub.handles == map[]
  {
    var a := Apply(INITIAL, TakeNumber);
    var b := Apply(a, QueueSubscribe(0));
    var c := Apply(b, ReceiveRequest);
    var d := Apply(c, DropHandle(0));
    var e := Apply(d, ReceiveReply);
    var f := Apply(e, EnterTable(0));
    assert b.up == [Subscribe(0)] && c.up == [] && d.down == [SubscribeError(0)] && e.down == [];
    var ops := [TakeNumber, QueueSubscribe(0), ReceiveRequest, DropHandle(0), ReceiveReply, EnterTable(0)];
    assert ops[1..] == [QueueSubscribe(0), ReceiveRequest, DropHandle(0), ReceiveReply, EnterTable(0)];
    assert ops[1..][1..] == [ReceiveRequest, DropHandle(0), ReceiveReply, EnterTable(0)];
    assert ops[1..][1..][1..] == [DropHandle(0), ReceiveReply, EnterTable(0)];
    assert ops[1..][1..][1..][1..] == [ReceiveReply, EnterTable(0)];
    assert ops[1..][1..][1..][1..][1..] == [EnterTable(0)];
    assert ops[1..][1..][1..][1..][1..][1..] == [];
    assert Exec(f, []) == Some(f);
    assert Exec(e, [EnterTable(0)]) == Some(f);
    assert Exec(d, [ReceiveReply, EnterTable(0)]) == Some(f);
  }

  // --- when it happens, on the run itself ---

  lemma {:induction false} ExecSplit(x: System, ops: seq<Op>, k: nat)
    requires k <= |ops| && Exec(x, ops).Some?
    ensures Exec(x, ops[..k]).Some? && Exec(x, ops) == Exec(Exec(x, ops[..k]).value, ops[k..])
    decreases |ops|
  {
    hide Apply, Enabled;
    if k == 0 {
      assert ops[0..] == ops;
    } else {
      ExecSplit(Apply(x, ops[0]), ops[1..], k - 1);
      assert ops[..k][1..] == ops[1..][..k - 1] && ops[1..][k - 1..] == ops[k..];
    }
  }

  /** How far a subscription has come. */
  function Rank(s: Subscriber, id: Id): nat {
    if id !in s.stages then 0
    else match s.stages[id]
      case Numbered => 1
      case Queued => 2
      case Entered => 3
      case Left => 4
  }

  lemma RankStep(x: System, op: Op, id: Id)
    requires Inv(x) && Enabled(x, op) && Apply(x, op).sub.taken <= WORD
    ensures Rank(x.sub, id) <= Rank(Apply(x, op).sub, id)
    ensures x.sub.missed <= Apply(x, op).sub.missed
  {
    hide SliceOk, Requested, Farewell, TableAfter;
  }

  /** Subscriptions only move on, and what was missed stays so. */
  lemma {:induction false} RankGrows(x: System, ops: seq<Op>, id: Id)
    requires Inv(x) && Exec(x, ops).Some? && Exec(x, ops).value.sub.taken <= WORD
    ensures Inv(Exec(x, ops).value)
    ensures Rank(x.sub, id) <= Rank(Exec(x, ops).value.sub, id)
    ensures x.sub.missed <= Exec(x, ops).value.sub.missed
    decreases |ops|
  {
    if ops != [] {
      var y := Apply(x, ops[0]);
      TakenGrows(y, ops[1..]);
      RankStep(x, ops[0], id);
      StepKeeps(x, ops[0]);
      hide Inv, Apply, Enabled, Rank;
      RankGrows(y, ops[1..], id);
    }
  }

  /** The next message to arrive is the last reply to `id`. */
  predicate LastReplyNext(x: System, id: Id) {
    x.down != [] && x.down[0].id == id && !x.down[0].SubscribeOk?
  }

  /** The last reply: it finds a subscription that has been asked for, none of whose last replies came before. */
  lemma LastReplyStep(x: System, id: Id)
    requires Inv(x) && LastReplyNext(x, id)
    ensures id !in x.sub.missed && Rank(x.sub, id) >= 2
    ensures var y := Apply(x, ReceiveReply);
            && Terminal(About(id, y.sub.arrived))
            && (id in y.sub.missed <==> Rank(x.sub, id) == 2)
  {
    var m := x.down[0];
    AboutPop(id, x.down);
    AboutPush(id, x.sub.arrived, m);
    hide About, Asking, TableAfter;
    assert SliceOk(SliceOf(x, id), id);
    NextReply(SliceOf(x, id), id, m, About(id, x.down[1..]));
    AtTheEnd(About(id, x.sub.arrived), m);
  }

  lemma AtTheEnd(ms: seq<Reply>, m: Reply)
    ensures Terminal(ms + [m]) == !m.SubscribeOk?
  {
  }

  lemma OverStep(x: System, op: Op, id: Id)
    requires Inv(x) && Enabled(x, op) && Terminal(About(id, x.sub.arrived)) && id !in x.sub.missed
    ensures var y := Apply(x, op); Terminal(About(id, y.sub.arrived)) && id !in y.sub.missed
  {
    if op.ReceiveReply? {
      var m := x.down[0];
      AboutPop(id, x.down);
      AboutPush(id, x.sub.arrived, m);
      hide About, Asking, TableAfter;
      assert SliceOk(SliceOf(x, id), id);
      if m.id == id { NextReply(SliceOf(x, id), id, m, About(id, x.down[1..])); }
    }
    hide SliceOk, About, Requested, Farewell, TableAfter;
  }

  /** Once the last reply has come without being missed, it never is. */
  lemma {:induction false} StaysOver(x: System, ops: seq<Op>, id: Id)
    requires Inv(x) && Exec(x, ops).Some? && Exec(x, ops).value.sub.taken <= WORD
    requires Terminal(About(id, x.sub.arrived)) && id !in x.sub.missed
    ensures var y := Exec(x, ops).value; Terminal(About(id, y.sub.arrived)) && id !in y.sub.missed
    decreases |ops|
  {
    if ops != [] {
      var y := Apply(x, ops[0]);
      TakenGrows(y, ops[1..]);
      OverStep(x, ops[0], id);
      StepKeeps(x, ops[0]);
      hide Inv, Apply, Enabled, About, Terminal;
      StaysOver(y, ops[1..], id);
    }
  }

  /** The state of a run before a given step, and what led there and what follows. */
  lemma Before(ops: seq<Op>, k: nat) returns (x: System)
    requires k < |ops| && Exec(INITIAL, ops).Some? && Exec(INITIAL, ops).value.sub.taken <= WORD
    ensures Exec(INITIAL, ops[..k]) == Some(x) && Inv(x)
    ensures Enabled(x, ops[k]) && Apply(x, ops[k]).sub.taken <= WORD && Inv(Apply(x, ops[k]))
    ensures Exec(Apply(x, ops[k]), ops[k + 1..]) == Exec(INITIAL, ops)
  {
    InitialOk();
    ExecSplit(INITIAL, ops, k);
    x := Exec(INITIAL, ops[..k]).value;
    assert ops[k..][0] == ops[k] && ops[k..][1..] == ops[k + 1..];
    TakenGrows(x, ops[k..]);
    RunKeeps(INITIAL, ops[..k]);
    assert Enabled(x, ops[k]) && Exec(x, ops[k..]) == Exec(Apply(x, ops[k]), ops[k + 1..]);
    TakenGrows(Apply(x, ops[k]), ops[k + 1..]);
    hide Inv, Apply, Enabled;
    StepKeeps(x, ops[k]);
  }

  /**
   * The same on the run: if step `j` enters the subscription into the table and step `k` receives its last reply,
   * the entry is still there at the end exactly if the reply stands before the entering.
   */
  lemma StuckIfOvertaken(ops: seq<Op>, id: Id, j: nat, k: nat)
    requires Exec(INITIAL, ops).Some? && Exec(INITIAL, ops).value.sub.taken <= WORD
    requires j < |ops| && ops[j] == EnterTable(id)
    requires k < |ops| && ops[k] == ReceiveReply
    requires Exec(INITIAL, ops[..k]).Some? && LastReplyNext(Exec(INITIAL, ops[..k]).value, id)
    requires id !in Exec(INITIAL, ops).value.sub.failed
    ensures id in Exec(INITIAL, ops).value.sub.table <==> k < j
  {
    var x := Exec(INITIAL, ops).value;
    var a := Before(ops, j);
    var b := Before(ops, k);
    assert Rank(a.sub, id) == 2 && Rank(Apply(a, ops[j]).sub, id) == 3;
    LastReplyStep(b, id);
    hide Inv, Apply, Enabled, Rank, LastReplyNext, Terminal;
    RankGrows(Apply(a, ops[j]), ops[j + 1..], id);
    RankGrows(Apply(b, ops[k]), ops[k + 1..], id);
    if k < j {
      Later(ops, k, j, id);
    } else {
      Later(ops, j, k, id);
      StaysOver(Apply(b, ops[k]), ops[k + 1..], id);
    }
    AtTheTable(ops, x, id);
  }

  /** A later step finds the subscription no less far than an earlier one left it. */
  lemma Later(ops: seq<Op>, i: nat, k: nat, id: Id)
    requires i < k < |ops| && Exec(INITIAL, ops).Some? && Exec(INITIAL, ops).value.sub.taken <= WORD
    requires Exec(INITIAL, ops[..i]).Some? && Exec(INITIAL, ops[..k]).Some?
    ensures var a, b := Exec(INITIAL, ops[..i]).value, Exec(INITIAL, ops[..k]).value;
            && Enabled(a, ops[i]) && Rank(Apply(a, ops[i]).sub, id) <= Rank(b.sub, id)
            && Rank(a.sub, id) <= Rank(b.sub, id)
  {
    var b := Before(ops, k);
    InitialOk();
    assert ops[..k][..i] == ops[..i] && ops[..k][i] == ops[i];
    TakenOfPart(ops, k);
    var a := Before(ops[..k], i);
    RankStep(a, ops[i], id);
    hide Inv, Apply, Enabled, Rank;
    RankGrows(Apply(a, ops[i]), ops[..k][i + 1..], id);
  }

  lemma TakenOfPart(ops: seq<Op>, k: nat)
    requires k <= |ops| && Exec(INITIAL, ops).Some?
    ensures Exec(INITIAL, ops[..k]).Some?
    ensures Exec(INITIAL, ops[..k]).value.sub.taken <= Exec(INITIAL, ops).value.sub.taken
  {
    ExecSplit(INITIAL, ops, k);
    TakenGrows(Exec(INITIAL, ops[..k]).value, ops[k..]);
  }

  lemma AtTheTable(ops: seq<Op>, x: System, id: Id)
    requires Exec(INITIAL, ops) == Some(x) && x.sub.taken <= WORD && Inv(x) && Rank(x.sub, id) >= 3 && id !in x.sub.failed
    requires id in x.sub.missed || Terminal(About(id, x.sub.arrived))
    ensures id in x.sub.table <==> id in x.sub.missed
  {
    hide Exec;
    assert Reachable(x);
    assert SliceOk(SliceOf(x, id), id);
    EntryEndsWithReply(x, id);
  }

  // --- the objects ---

  /** The publisher's side of one session: a table of handles' other halves, and the queue to the wire. */
  class PublisherState {
    var subscribed: map<Id, SubscribedRecv>
    var outgoing: seq<Reply>

    constructor ()
      ensures subscribed == map[] && outgoing == []
    {
      subscribed, outgoing := map[], [];
    }

    /** A last reply takes its subscription out of the table before it is queued. */
    method SendMessage(m: Reply)
      modifies this
      ensures outgoing == old(outgoing) + [m]
      ensures subscribed == if m.SubscribeOk? then old(subscribed) else old(subscribed) - {m.id}
    {
      if !m.SubscribeOk? { subscribed := subscribed - {m.id}; }
      outgoing := outgoing + [m];
    }

    /** A new identifier gets a handle and a table entry that share their state; a known one is refused. */
    method RecvSubscribe(id: Id) returns (r: Option<Subscribed>)
      modifies this
      ensures r.None? <==> id in old(subscribed)
      ensures r.None? ==> subscribed == old(subscribed)
      ensures r.Some? ==>
                && fresh(r.value) && r.value.id == id && r.value.publisher == this && r.value.live
                && !r.value.ok && r.value.recv.closed.None? && fresh(r.value.recv)
                && subscribed == old(subscribed)[id := r.value.recv]
      ensures outgoing == old(outgoing)
    {
      if id in subscribed { return None; }
      var recv := new SubscribedRecv();
      var send := new Subscribed(this, id, recv);
      subscribed := subscribed[id := recv];
      return Some(send);
    }
  }

  /** The table's half: it only notes that the subscriber is gone, and leaves the rest to the handle. */
  class SubscribedRecv {
    var closed: Option<nat>

    constructor ()
      ensures closed == None
    {
      closed := None;
    }

    method RecvUnsubscribe(cancelled: nat)
      modifies this
      ensures closed == if old(closed).Some? then old(closed) else Some(cancelled)
    {
      if closed.None? { closed := Some(cancelled); }
    }
  }

  class Subscribed {
    const publisher: PublisherState
    const id: Id
    const recv: SubscribedRecv
    var ok: bool
    var live: bool

    constructor (publisher: PublisherState, id: Id, recv: SubscribedRecv)
      ensures this.publisher == publisher && this.id == id && this.recv == recv && !ok && live
    {
      this.publisher, this.id, this.recv := publisher, id, recv;
      ok, live := false, true;
    }

    /** In the table while it lives. */
    ghost predicate Valid()
      reads this, publisher
    {
      live ==> id in publisher.subscribed && publisher.subscribed[id] == recv
    }

    method Accept()
      requires Valid() && live && !ok
      modifies this`ok, publisher
      ensures Valid() && ok
      ensures publisher.outgoing == old(publisher.outgoing) + [SubscribeOk(id)]
      ensures publisher.subscribed == old(publisher.subscribed)
    {
      publisher.SendMessage(SubscribeOk(id));
      ok := true;
    }

    method Drop()
      requires Valid() && live
      modifies this`live, publisher
      ensures Valid() && !live && id !in publisher.subscribed
      ensures publisher.outgoing == old(publisher.outgoing) + [if ok then SubscribeDone(id) else SubscribeError(id)]
      ensures publisher.subscribed == old(publisher.subscribed) - {id}
    {
      live := false;
      if ok { publisher.SendMessage(SubscribeDone(id)); } else { publisher.SendMessage(SubscribeError(id)); }
    }
  }

  class SubscriberState {
    var subscribes: map<Id, bool>
    var next: nat
    var outgoing: seq<Request>

    constructor ()
      ensures subscribes == map[] && next == 0 && outgoing == []
    {
      subscribes, next, outgoing := map[], 0, [];
    }

    /** The number, the message and the entry, in this order. */
    method Subscribe() returns (id: Id)
      requires next < WORD
      modifies this
      ensures id == old(next) && next == (old(next) + 1) % WORD
      ensures outgoing == old(outgoing) + [Request.Subscribe(id)]
      ensures subscribes == old(subscribes)[id := false]
    {
      id := next;
      next := (next + 1) % WORD;
      outgoing := outgoing + [Request.Subscribe(id)];
      subscribes := subscribes[id := false];
    }

    /** What a reply does to the table; a second OK is an error, and a reply to nobody is ignored. */
    method RecvReply(m: Reply) returns (duplicate: bool)
      modifies this`subscribes
      ensures subscribes == TableAfter(old(subscribes), m)
      ensures m.SubscribeOk? ==>
                && subscribes.Keys == old(subscribes).Keys && (m.id in subscribes ==> subscribes[m.id])
                && forall id | id in subscribes && id != m.id :: subscribes[id] == old(subscribes)[id]
      ensures !m.SubscribeOk? ==> subscribes == old(subscribes) - {m.id}
      ensures duplicate <==> m.SubscribeOk? && m.id in old(subscribes) && old(subscribes)[m.id]
    {
      duplicate := false;
      match m
      case SubscribeOk(id) =>
        if id in subscribes {
          duplicate := subscribes[id];
          subscribes := subscribes[id := true];
        }
      case _ => subscribes := subscribes - {m.id};
    }
  }
}
