/** The shared state that tasks watch: an epoch, registered wakers, and halves whose dropping is noticed. */
module Watch {
  import opened Wire

  type Task = nat

  /** What the lock guards. `dropped` is set once one of the halves is gone. */
  datatype Inner<T> = Inner(value: T, wakers: seq<Task>, epoch: nat, dropped: bool)

  function Without(wakers: seq<Task>, t: Task): seq<Task> {
    if wakers == [] then []
    else (if wakers[0] == t then [] else [wakers[0]]) + Without(wakers[1..], t)
  }

  function Registered<T>(s: Inner<T>, t: Task): Inner<T> {
    s.(wakers := Without(s.wakers, t) + [t])
  }

  /** Every registered waker is called and forgotten. */
  function Advanced<T>(s: Inner<T>): Inner<T> {
    s.(epoch := s.epoch + 1, wakers := [])
  }

  lemma {:induction false} WithoutMembers(wakers: seq<Task>, t: Task)
    ensures forall u :: u in Without(wakers, t) <==> u in wakers && u != t
    ensures forall u :: multiset(Without(wakers, t))[u] == if u == t then 0 else multiset(wakers)[u]
  {
    if wakers != [] {
      WithoutMembers(wakers[1..], t);
      assert wakers == [wakers[0]] + wakers[1..];
    }
  }

  /** A task that registers is in the list once, the others stand there as they did, and nothing else changes. */
  lemma RegisterMembers<T>(s: Inner<T>, t: Task)
    ensures forall u :: u in Registered(s, t).wakers <==> u in s.wakers || u == t
    ensures forall u :: multiset(Registered(s, t).wakers)[u] == if u == t then 1 else multiset(s.wakers)[u]
    ensures Registered(s, t) == Inner(s.value, Registered(s, t).wakers, s.epoch, s.dropped)
  {
    WithoutMembers(s.wakers, t);
  }

  // --- the shared state and those who wait on it ---

  /**
   * Somebody's wait for a change. `seen` is the value it looked at under the lock; `pending` says that its last
   * poll, by `task`, found nothing and that it has not run since.
   */
  datatype Future<T> = Future(task: Task, epoch: nat, seen: T, pending: bool)

  /** `halves` counts the handles of each half; `woken` holds those whose waker was called since they last ran. */
  datatype System<T> = System(inner: Inner<T>, halves: seq<nat>, futures: map<nat, Future<T>>, woken: set<Task>)

  datatype Op<T> =
    | Clone(half: nat) | Drop(half: nat) | Split(half: nat)
    | Modify(half: nat, value: T)
    | Look(half: nat, future: nat, task: Task)
    | Poll(future: nat, task: Task) | Cancel(future: nat)
    | Resume(task: Task)

  function Start<T>(value: T): System<T> {
    System(Inner(value, [], 0, false), [1], map[], {})
  }

  predicate Live<T>(x: System<T>, half: nat) {
    half < |x.halves| && x.halves[half] > 0
  }

  predicate Enabled<T>(x: System<T>, op: Op<T>) {
    match op
    case Clone(h) => Live(x, h)
    case Drop(h) => Live(x, h)
    case Split(h) => Live(x, h)
    case Modify(h, _) => Live(x, h)
    case Look(h, f, _) => Live(x, h) && f !in x.futures
    case Poll(f, _) => f in x.futures
    case Cancel(f) => f in x.futures
    case Resume(_) => true
  }

  /** A change that nobody can miss: the wakers that were registered are called. */
  function Notified<T>(x: System<T>, inner: Inner<T>): System<T> {
    x.(inner := Advanced(inner), woken := x.woken + (set t | t in inner.wakers))
  }

  function Idle<T>(f: Future<T>, t: Task): Future<T> {
    if f.task == t then f.(pending := false) else f
  }

  function Apply<T>(x: System<T>, op: Op<T>): System<T>
    requires Enabled(x, op)
  {
    match op
    case Clone(h) => x.(halves := x.halves[h := x.halves[h] + 1])
    case Drop(h) =>
      var y := x.(halves := x.halves[h := x.halves[h] - 1]);
      if y.halves[h] == 0 then Notified(y, y.inner.(dropped := true)) else y
    case Split(_) => x.(halves := x.halves + [1])
    case Modify(_, v) => if x.inner.dropped then x else Notified(x, x.inner.(value := v))
    case Look(_, f, t) =>
      if x.inner.dropped then x
      else x.(futures := x.futures[f := Future(t, x.inner.epoch, x.inner.value, false)])
    case Poll(f, t) =>
      if x.inner.epoch > x.futures[f].epoch then x.(futures := x.futures - {f})
      else x.(inner := Registered(x.inner, t), futures := x.futures[f := x.futures[f].(task := t, pending := true)])
    case Cancel(f) => x.(futures := x.futures - {f})
    case Resume(t) => x.(woken := x.woken - {t}, futures := map f | f in x.futures :: Idle(x.futures[f], t))
  }

  function Exec<T>(x: System<T>, ops: seq<Op<T>>): Option<System<T>>
    decreases |ops|
  {
    if ops == [] then Some(x)
    else if Enabled(x, ops[0]) then Exec(Apply(x, ops[0]), ops[1..]) else None
  }

  // --- what every step keeps ---

  /** A wait that is still at the current epoch has seen the current value, and nothing was dropped since. */
  ghost predicate Fresh<T(!new)>(s: Inner<T>, f: Future<T>) {
    f.epoch <= s.epoch && (f.epoch == s.epoch ==> f.seen == s.value && !s.dropped)
  }

  /** A task that sleeps on a wait and was not woken is registered, and the wait is still at the current epoch. */
  ghost predicate Awaited<T(!new)>(x: System<T>, f: Future<T>) {
    f.pending && f.task !in x.woken ==> f.task in x.inner.wakers && f.epoch == x.inner.epoch
  }

  ghost predicate Inv<T(!new)>(x: System<T>) {
    && (x.inner.dropped <==> 0 in x.halves)
    && (forall f | f in x.futures :: Fresh(x.inner, x.futures[f]) && Awaited(x, x.futures[f]))
  }

  lemma HalvesKept<T(!new)>(x: System<T>, op: Op<T>)
    requires Inv(x) && Enabled(x, op)
    ensures var y := Apply(x, op); y.inner.dropped <==> 0 in y.halves
  {
    hide Without, Idle;
    var y := Apply(x, op);
    match op
    case Clone(h) => HalfChanged(x.halves, h, x.halves[h] + 1);
    case Drop(h) => HalfChanged(x.halves, h, x.halves[h] - 1);
    case _ =>
  }

  lemma HalfChanged(halves: seq<nat>, h: nat, n: nat)
    requires h < |halves| && halves[h] > 0
    ensures 0 in halves[h := n] <==> n == 0 || 0 in halves
  {
    var after := halves[h := n];
    if n == 0 { assert after[h] == 0; }
    if k :| 0 <= k < |halves| && halves[k] == 0 { assert after[k] == 0; }
  }

  /** Every interleaving of looks, polls, changes, drops and wakeups keeps what waiting relies on. */
  lemma StepKeeps<T(!new)>(x: System<T>, op: Op<T>)
    requires Inv(x) && Enabled(x, op)
    ensures Inv(Apply(x, op))
  {
    HalvesKept(x, op);
    if op.Poll? { RegisterMembers(x.inner, op.task); }
    hide Registered;
    var y := Apply(x, op);
    forall f | f in y.futures ensures Fresh(y.inner, y.futures[f]) && Awaited(y, y.futures[f]) {
      if f in x.futures { assert Fresh(x.inner, x.futures[f]) && Awaited(x, x.futures[f]); }
    }
  }

  lemma {:induction false} RunKeeps<T(!new)>(x: System<T>, ops: seq<Op<T>>)
    requires Inv(x)
    ensures Exec(x, ops).Some? ==> Inv(Exec(x, ops).value)
    decreases |ops|
  {
    hide Inv, Apply, Enabled;
    if ops != [] && Enabled(x, ops[0]) {
      StepKeeps(x, ops[0]);
      RunKeeps(Apply(x, ops[0]), ops[1..]);
    }
  }

  /**
   * No lost wakeup: in every run, a task that sleeps on a wait and has not been woken is waiting for a change
   * that did not happen, and it is registered for the next one.
   */
  lemma NoLostWakeup<T(!new)>(value: T, ops: seq<Op<T>>, f: nat)
    requires var r := Exec(Start(value), ops);
             r.Some? && f in r.value.futures && r.value.futures[f].pending
             && r.value.futures[f].task !in r.value.woken
    ensures var x := Exec(Start(value), ops).value;
            && x.futures[f].epoch == x.inner.epoch
            && x.futures[f].seen == x.inner.value
            && !x.inner.dropped && (forall h | 0 <= h < |x.halves| :: x.halves[h] > 0)
            && x.futures[f].task in x.inner.wakers
  {
    RunKeeps(Start(value), ops);
    var x := Exec(Start(value), ops).value;
    assert Fresh(x.inner, x.futures[f]) && Awaited(x, x.futures[f]);
  }

  /** A change wakes every task that sleeps on a wait, and each of those waits is ready when it is polled again. */
  lemma ChangesWake<T(!new)>(x: System<T>, op: Op<T>, f: nat, t: Task)
    requires Inv(x) && Enabled(x, op) && !op.Poll? && !op.Cancel?
    requires f in x.futures && Apply(x, op).inner.epoch != x.inner.epoch
    ensures var y := Apply(x, op);
            && f in y.futures
            && (x.futures[f].pending ==> x.futures[f].task in y.woken)
            && f !in Apply(y, Poll(f, t)).futures
  {
    assert Fresh(x.inner, x.futures[f]) && Awaited(x, x.futures[f]);
    hide Registered;
  }

  /**
   * A poll is ready exactly if something changed since the look; else its task sleeps, registered. And what counts as
   * a change: every new value while both halves are there, and the end of a half.
   */
  lemma PollReady<T(!new)>(x: System<T>, f: nat, t: Task)
    requires Inv(x) && f in x.futures
    ensures Enabled(x, Poll(f, t))
    ensures var y := Apply(x, Poll(f, t));
            && y.inner.value == x.inner.value && y.inner.epoch == x.inner.epoch && y.woken == x.woken
            && (f !in y.futures <==> x.inner.epoch != x.futures[f].epoch)
            && (f in y.futures ==> y.futures[f] == x.futures[f].(task := t, pending := true) && t in y.inner.wakers)
            && (forall g | g in x.futures && g != f :: g in y.futures && y.futures[g] == x.futures[g])
  {
    assert Fresh(x.inner, x.futures[f]);
    RegisterMembers(x.inner, t);
    hide Registered;
  }

  lemma WhatChanges<T(!new)>(x: System<T>, op: Op<T>)
    requires Inv(x) && Enabled(x, op)
    ensures var y := Apply(x, op);
            var last := op.Drop? && x.halves[op.half] == 1;
            && (y.inner.epoch != x.inner.epoch <==> last || (op.Modify? && 0 !in x.halves))
            && y.inner.value == (if op.Modify? && 0 !in x.halves then op.value else x.inner.value)
            && (y.inner.dropped <==> x.inner.dropped || last)
            && (op.Look? && 0 !in x.halves ==>
                  op.future in y.futures && y.futures[op.future] == Future(op.task, x.inner.epoch, x.inner.value, false))
  {
    hide Without;
  }

  // --- the objects ---

  class StateInner<T> {
    var value: T
    var wakers: seq<Task>
    var epoch: nat
    var dropped: bool

    constructor (value: T)
      ensures View() == Inner(value, [], 0, false)
    {
      this.value := value;
      wakers, epoch, dropped := [], 0, false;
    }

    function View(): Inner<T>
      reads this
    {
      Inner(value, wakers, epoch, dropped)
    }

    /** Each task stands in the list at most once. */
    method Register(t: Task)
      modifies this`wakers
      ensures View() == Registered(old(View()), t)
      ensures forall u :: multiset(wakers)[u] == if u == t then 1 else multiset(old(wakers))[u]
    {
      var kept: seq<Task> := [];
      var i := 0;
      assert wakers[0..] == wakers;
      while i < |wakers|
        invariant 0 <= i <= |wakers| && wakers == old(wakers)
        invariant kept + Without(wakers[i..], t) == Without(wakers, t)
      {
        assert wakers[i..][0] == wakers[i] && wakers[i..][1..] == wakers[i + 1..];
        if wakers[i] != t {
          assert kept + ([wakers[i]] + Without(wakers[i + 1..], t)) == (kept + [wakers[i]]) + Without(wakers[i + 1..], t);
          kept := kept + [wakers[i]];
        }
        i := i + 1;
      }
      RegisterMembers(View(), t);
      wakers := kept + [t];
      assert View() == Registered(old(View()), t) && kept + [] == kept;
      hide Without;
    }

    method Notify() returns (woken: seq<Task>)
      modifies this`epoch, this`wakers
      ensures View() == Advanced(old(View())) && woken == old(wakers)
      ensures epoch == old(epoch) + 1 && wakers == []
    {
      epoch := epoch + 1;
      woken := wakers;
      wakers := [];
    }

    /** Under the lock that was looked through: the epoch to wait on, unless a half is gone. */
    method Modified() returns (r: Option<nat>)
      ensures r == if dropped then None else Some(epoch)
    {
      r := if dropped then None else Some(epoch);
    }

    /** The guard's change and its notification when it is let go. */
    method Replace(v: T) returns (woken: seq<Task>)
      requires !dropped
      modifies this
      ensures View() == Advanced(old(View()).(value := v)) && woken == old(wakers)
      ensures value == v && epoch == old(epoch) + 1 && wakers == [] && !dropped
    {
      value := v;
      woken := Notify();
    }

    method Poll(since: nat, t: Task) returns (ready: bool)
      modifies this`wakers
      ensures ready <==> epoch > since
      ensures View() == if epoch > since then old(View()) else Registered(old(View()), t)
      ensures ready ==> wakers == old(wakers)
      ensures !ready ==> forall u :: multiset(wakers)[u] == if u == t then 1 else multiset(old(wakers))[u]
    {
      ready := epoch > since;
      if !ready { Register(t); }
    }
  }

  /** One half: its handles share this object, and the last of them to go marks the state. */
  class StateDrop<T> {
    const state: StateInner<T>
    var handles: nat

    constructor (state: StateInner<T>)
      ensures this.state == state && handles == 1
    {
      this.state := state;
      handles := 1;
    }

    method Drop() returns (woken: seq<Task>)
      requires handles > 0
      modifies this, state
      ensures handles == old(handles) - 1
      ensures if handles == 0
              then state.View() == Advanced(old(state.View()).(dropped := true)) && woken == old(state.wakers)
              else state.View() == old(state.View()) && woken == []
      ensures state.value == old(state.value) && state.dropped == (old(state.dropped) || handles == 0)
      ensures handles == 0 ==> state.epoch == old(state.epoch) + 1 && state.wakers == [] && woken == old(state.wakers)
      ensures handles > 0 ==> state.epoch == old(state.epoch) && state.wakers == old(state.wakers)
    {
      handles := handles - 1;
      woken := [];
      if handles == 0 {
        state.dropped := true;
        woken := state.Notify();
      }
    }
  }
}
