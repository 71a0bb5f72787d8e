/** The queue on top of the watched state: its steps are steps of that state, so its waits are too. */
module Queue {
  import opened Wire
  import W = Watch

  /** `accepted` logs every push that was taken in, `taken` what pops and closing drains took out, `refused` the rest. */
  datatype System<I> = System(base: W.System<seq<I>>, accepted: seq<I>, taken: seq<I>, refused: seq<I>)

  datatype Op<I> =
    | Push(half: nat, item: I)
    | Pop(half: nat, future: nat, task: W.Task)
    | Drain(half: nat)
    | Base(op: W.Op<seq<I>>)

  /** What one pass of the pop loop comes to. */
  datatype Popped<I> = Item(item: I) | Closed | Waits

  function Start<I>(): System<I> {
    System(W.Start([]), [], [], [])
  }

  predicate Enabled<I>(x: System<I>, op: Op<I>) {
    match op
    case Push(h, _) => W.Live(x.base, h)
    case Pop(h, f, _) => W.Live(x.base, h) && f !in x.base.futures
    case Drain(h) => W.Live(x.base, h)
    case Base(b) => !b.Modify? && !b.Look? && W.Enabled(x.base, b)
  }

  /** One pass of the pop loop, under one lock: take the front, or see that there is nothing and wait. */
  function PopStep<I>(s: W.Inner<seq<I>>): Popped<I> {
    if s.value != [] then (if s.dropped then Closed else Item(s.value[0]))
    else if s.dropped then Closed else Waits
  }

  function Apply<I>(x: System<I>, op: Op<I>): System<I>
    requires Enabled(x, op)
  {
    var s := x.base.inner;
    match op
    case Push(h, item) =>
      if s.dropped then x.(refused := x.refused + [item])
      else x.(base := W.Apply(x.base, W.Modify(h, s.value + [item])), accepted := x.accepted + [item])
    case Pop(h, f, t) =>
      (match PopStep(s)
       case Item(item) => x.(base := W.Apply(x.base, W.Modify(h, s.value[1..])), taken := x.taken + [item])
       case Closed => x
       case Waits => x.(base := W.Apply(x.base, W.Look(h, f, t))))
    case Drain(h) =>
      if s.dropped then x else x.(base := W.Apply(x.base, W.Modify(h, [])), taken := x.taken + s.value)
    case Base(b) => x.(base := W.Apply(x.base, b))
  }

  function Exec<I>(x: System<I>, ops: seq<Op<I>>): Option<System<I>>
    decreases |ops|
  {
    if ops == [] then Some(x)
    else if Enabled(x, ops[0]) then Exec(Apply(x, ops[0]), ops[1..]) else None
  }

  /** Nothing is lost, made up or reordered; and whoever waits has seen an empty queue. */
  ghost predicate Inv<I(!new)>(x: System<I>) {
    && W.Inv(x.base)
    && x.accepted == x.taken + x.base.inner.value
    && (forall f | f in x.base.futures :: x.base.futures[f].seen == [])
  }

  lemma ValueKept<I(!new)>(x: W.System<seq<I>>, op: W.Op<seq<I>>)
    requires W.Enabled(x, op) && !op.Modify? && !op.Look?
    ensures W.Apply(x, op).inner.value == x.inner.value
    ensures forall f | f in W.Apply(x, op).futures :: f in x.futures && W.Apply(x, op).futures[f].seen == x.futures[f].seen
  {
    hide W.Without;
  }

  lemma StepKeeps<I(!new)>(x: System<I>, op: Op<I>)
    requires Inv(x) && Enabled(x, op)
    ensures Inv(Apply(x, op))
  {
    var s := x.base.inner;
    match op
    case Push(h, item) =>
      W.StepKeeps(x.base, W.Modify(h, s.value + [item]));
      assert x.taken + s.value + [item] == x.taken + (s.value + [item]);
    case Pop(h, f, t) =>
      if s.value != [] {
        W.StepKeeps(x.base, W.Modify(h, s.value[1..]));
        assert x.taken + [s.value[0]] + s.value[1..] == x.taken + s.value;
      } else {
        W.StepKeeps(x.base, W.Look(h, f, t));
      }
    case Drain(h) =>
      W.StepKeeps(x.base, W.Modify(h, []));
      assert x.taken + s.value + [] == x.taken + s.value;
    case Base(b) =>
      W.StepKeeps(x.base, b);
      ValueKept(x.base, b);
  }

  lemma {:induction false} RunKeeps<I(!new)>(x: System<I>, ops: seq<Op<I>>)
    requires Inv(x)
    ensures Exec(x, ops).Some? ==> Inv(Exec(x, ops).value)
    decreases |ops|
  {
    hide Inv, Apply, Enabled;
    if ops != [] && Enabled(x, ops[0]) {
      StepKeeps(x, ops[0]);
      RunKeeps(Apply(x, ops[0]), ops[1..]);
    }
  }

  ghost predicate Reachable<I(!new)>(x: System<I>) {
    exists ops :: Exec(Start<I>(), ops) == Some(x)
  }

  lemma ReachableOk<I(!new)>(x: System<I>)
    requires Reachable(x)
    ensures Inv(x)
  {
    var ops :| Exec(Start<I>(), ops) == Some(x);
    RunKeeps(Start<I>(), ops);
  }

  /** Conservation: what was taken out and what is queued is, in order, what was let in. */
  lemma Conserved<I(!new)>(x: System<I>)
    requires Reachable(x)
    ensures x.accepted == x.taken + x.base.inner.value
  {
    ReachableOk(x);
  }

  /** A pop that sleeps and has not been woken has nothing to take, and both halves are there. */
  lemma PopSleepsOnEmpty<I(!new)>(x: System<I>, f: nat)
    requires Reachable(x) && f in x.base.futures
    requires x.base.futures[f].pending && x.base.futures[f].task !in x.base.woken
    ensures x.base.inner.value == [] && !x.base.inner.dropped && 0 !in x.base.halves
    ensures x.accepted == x.taken
  {
    ReachableOk(x);
    assert W.Fresh(x.base.inner, x.base.futures[f]) && W.Awaited(x.base, x.base.futures[f]);
  }

  /** Once a half is gone it stays gone: every later push hands its item back and every later pop ends. */
  lemma {:induction false} ClosedForGood<I(!new)>(x: System<I>, ops: seq<Op<I>>)
    requires x.base.inner.dropped && Exec(x, ops).Some?
    ensures var y := Exec(x, ops).value;
            && y.base.inner.dropped && y.accepted == x.accepted && y.taken == x.taken
            && y.refused == x.refused + Pushes(ops)
            && PopStep(y.base.inner) == Closed
    decreases |ops|
  {
    if ops == [] {
      assert x.refused + [] == x.refused;
    } else {
      var y := Apply(x, ops[0]);
      DroppedStays(x, ops[0]);
      ClosedForGood(y, ops[1..]);
      if ops[0].Push? { assert x.refused + [ops[0].item] + Pushes(ops[1..]) == x.refused + ([ops[0].item] + Pushes(ops[1..])); }
    }
  }

  /** The items of the pushes among some steps. */
  function Pushes<I>(ops: seq<Op<I>>): seq<I> {
    if ops == [] then []
    else if ops[0].Push? then [ops[0].item] + Pushes(ops[1..]) else Pushes(ops[1..])
  }

  lemma DroppedStays<I(!new)>(x: System<I>, op: Op<I>)
    requires x.base.inner.dropped && Enabled(x, op)
    ensures var y := Apply(x, op);
            && y.base.inner.dropped && y.accepted == x.accepted && y.taken == x.taken
            && y.refused == x.refused + if op.Push? then [op.item] else []
  {
    hide W.Without;
    assert x.refused + [] == x.refused;
  }

  /** While both halves are there every push is let in, in order. */
  lemma {:induction false} AllAccepted<I(!new)>(x: System<I>, ops: seq<Op<I>>)
    requires Exec(x, ops).Some? && !Exec(x, ops).value.base.inner.dropped
    ensures var y := Exec(x, ops).value;
            !x.base.inner.dropped && y.accepted == x.accepted + Pushes(ops) && y.refused == x.refused
    decreases |ops|
  {
    if ops == [] {
      assert x.accepted + [] == x.accepted;
    } else {
      var y := Apply(x, ops[0]);
      PushAccepts(x, ops[0]);
      AllAccepted(y, ops[1..]);
      if ops[0].Push? {
        assert x.accepted + [ops[0].item] + Pushes(ops[1..]) == x.accepted + ([ops[0].item] + Pushes(ops[1..]));
      }
    }
  }

  lemma PushAccepts<I(!new)>(x: System<I>, op: Op<I>)
    requires Enabled(x, op)
    ensures var y := Apply(x, op);
            && (x.base.inner.dropped ==> y.base.inner.dropped)
            && (!x.base.inner.dropped ==>
                  y.refused == x.refused && y.accepted == x.accepted + if op.Push? then [op.item] else [])
  {
    hide W.Without;
    assert x.accepted + [] == x.accepted;
  }

  /** A pop takes the front if there is one, and otherwise waits at the current epoch; a drain takes everything. */
  lemma PopTakes<I(!new)>(x: System<I>, h: nat, f: nat, t: W.Task)
    requires Inv(x) && Enabled(x, Pop(h, f, t)) && !x.base.inner.dropped
    ensures var queued, y := x.base.inner.value, Apply(x, Pop(h, f, t));
            && y.accepted == x.accepted
            && (queued != [] ==> y.taken == x.taken + [queued[0]] && y.base.inner.value == queued[1..]
                                 && y.base.futures == x.base.futures)
            && (queued == [] ==> y.taken == x.taken && f in y.base.futures
                                 && y.base.futures[f] == W.Future(t, x.base.inner.epoch, [], false))
    ensures var y := Apply(x, Drain(h));
            y.taken == x.taken + x.base.inner.value && y.base.inner.value == [] && y.accepted == x.accepted
  {
    hide W.Without;
  }

  // --- the object ---

  class Queue<T> {
    const state: W.StateInner<seq<T>>
    const drop: W.StateDrop<seq<T>>

    constructor (state: W.StateInner<seq<T>>, drop: W.StateDrop<seq<T>>)
      requires drop.state == state
      ensures this.state == state && this.drop == drop
    {
      this.state, this.drop := state, drop;
    }

    ghost predicate Valid() {
      drop.state == state
    }

    /** Hands the item back once a half is gone. */
    method Push(item: T) returns (r: Result<(), T>)
      modifies state
      ensures old(state.dropped) ==> r == Failure(item) && state.View() == old(state.View())
      ensures !old(state.dropped) ==>
                r == Success(()) && state.View() == W.Advanced(old(state.View()).(value := old(state.value) + [item]))
      ensures r.Success? ==> state.value == old(state.value) + [item] && state.epoch == old(state.epoch) + 1
    {
      if state.dropped { return Failure(item); }
      var _ := state.Replace(state.value + [item]);
      return Success(());
    }

    /** One pass of the pop loop; a wait comes with the epoch to wait on. */
    method TryPop() returns (r: Popped<T>, since: nat)
      modifies state
      ensures r == PopStep(old(state.View()))
      ensures r == if old(state.dropped) then Closed else if old(state.value) == [] then Waits else Item(old(state.value)[0])
      ensures r.Item? ==> state.value == old(state.value)[1..] && state.epoch == old(state.epoch) + 1
      ensures r.Item? ==> state.View() == W.Advanced(old(state.View()).(value := old(state.value)[1..]))
      ensures !r.Item? ==> state.View() == old(state.View())
      ensures r.Waits? ==> since == old(state.epoch)
    {
      since := 0;
      if state.value != [] {
        if state.dropped { return Closed, 0; }
        r := Item(state.value[0]);
        var _ := state.Replace(state.value[1..]);
      } else {
        var epoch := state.Modified();
        match epoch
        case None => r := Closed;
        case Some(e) => r, since := Waits, e;
      }
    }

    /** Drains what is left, then lets go of the handle. */
    method Close() returns (rest: seq<T>)
      requires Valid() && drop.handles > 0
      modifies state, drop
      ensures rest == if old(state.dropped) then [] else old(state.value)
      ensures !old(state.dropped) ==> state.value == []
      ensures old(state.dropped) ==> state.value == old(state.value)
      ensures drop.handles == old(drop.handles) - 1
      ensures state.dropped == (old(state.dropped) || drop.handles == 0)
    {
      rest := [];
      if !state.dropped {
        rest := state.value;
        var _ := state.Replace([]);
      }
      var _ := drop.Drop();
    }
  }
}
