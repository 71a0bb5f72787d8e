/** A log that one writer appends to and any number of cloned readers follow, each at its own pace. */
module FanOut {
  import opened Wire

  datatype ServeError = Done | Cancel | Size | Duplicate | NotFound | Mode | Closed(code: nat)

  /** A reader: where it was cloned, where it stands, what it returned, and how it ended if it did. */
  datatype Cursor<T> = Cursor(start: nat, index: nat, out: seq<T>, ended: Option<Result<(), ServeError>>)

  /** `closed` is the error the writer closed with. The writer is gone once it was dropped. */
  datatype Log<T> = Log(items: seq<T>, closed: Option<ServeError>, writerGone: bool, readers: map<nat, Cursor<T>>)

  datatype Next<T> = Item(item: T) | End | Failed(error: ServeError) | Waits

  datatype Op<T> =
    | Push(item: T) | Close(error: ServeError) | DropWriter
    | Clone(from: nat, to: nat) | DropReader(id: nat) | Read(id: nat)

  function Start<T>(): Log<T> {
    Log([], None, false, map[0 := Cursor(0, 0, [], None)])
  }

  /** One half of the shared state has no handle left. */
  predicate Dropped<T>(l: Log<T>) {
    l.writerGone || l.readers == map[]
  }

  /** What a reader at `index` gets: first the items, then the error, then the end. */
  function NextIn<T>(items: seq<T>, closed: Option<ServeError>, dropped: bool, index: nat): Next<T> {
    if index < |items| then Item(items[index])
    else if closed.Some? then Failed(closed.value)
    else if dropped then End else Waits
  }

  function NextAt<T>(l: Log<T>, index: nat): Next<T> {
    NextIn(l.items, l.closed, Dropped(l), index)
  }

  /** Closing and dropping use the writer up; only a reader that exists can be cloned. */
  predicate Enabled<T>(l: Log<T>, op: Op<T>) {
    match op
    case Push(_) => !l.writerGone && l.closed.None?
    case Close(_) => !l.writerGone && l.closed.None?
    case DropWriter => !l.writerGone
    case Clone(a, b) => a in l.readers && b !in l.readers
    case DropReader(r) => r in l.readers
    case Read(r) => r in l.readers
  }

  function AfterRead<T>(c: Cursor<T>, n: Next<T>): Cursor<T> {
    match n
    case Item(x) => c.(index := c.index + 1, out := c.out + [x])
    case End => c.(ended := Some(Success(())))
    case Failed(e) => c.(ended := Some(Failure(e)))
    case Waits => c
  }

  function Apply<T>(l: Log<T>, op: Op<T>): Log<T>
    requires Enabled(l, op)
  {
    match op
    case Push(x) => if Dropped(l) then l else l.(items := l.items + [x])
    case Close(e) => if Dropped(l) then l else l.(closed := Some(e))
    case DropWriter => l.(writerGone := true)
    case Clone(a, b) =>
      l.(readers := l.readers[b := Cursor(l.readers[a].index, l.readers[a].index, [], None)])
    case DropReader(r) => l.(readers := l.readers - {r})
    case Read(r) => l.(readers := l.readers[r := AfterRead(l.readers[r], NextAt(l, l.readers[r].index))])
  }

  function Exec<T>(l: Log<T>, ops: seq<Op<T>>): Option<Log<T>>
    decreases |ops|
  {
    if ops == [] then Some(l)
    else if Enabled(l, ops[0]) then Exec(Apply(l, ops[0]), ops[1..]) else None
  }

  /** A reader returned exactly the log from where it started to where it stands, and ended only at its end. */
  ghost predicate CursorOk<T(!new)>(l: Log<T>, c: Cursor<T>) {
    && c.start <= c.index <= |l.items|
    && c.out == l.items[c.start..c.index]
    && (c.ended.Some? ==> c.index == |l.items|)
    && (c.ended.Some? && c.ended.value.Success? ==> l.closed.None? && l.writerGone)
    && (c.ended.Some? && c.ended.value.Failure? ==> l.closed == Some(c.ended.value.error))
  }

  ghost predicate Inv<T(!new)>(l: Log<T>) {
    forall r | r in l.readers :: CursorOk(l, l.readers[r])
  }

  lemma PushKeeps<T(!new)>(l: Log<T>, x: T, c: Cursor<T>)
    requires CursorOk(l, c) && !l.writerGone && l.closed.None?
    ensures CursorOk(l.(items := l.items + [x]), c)
  {
    assert (l.items + [x])[c.start..c.index] == l.items[c.start..c.index];
  }

  lemma ReadKeeps<T(!new)>(l: Log<T>, c: Cursor<T>)
    requires CursorOk(l, c) && l.readers != map[]
    ensures CursorOk(l, AfterRead(c, NextAt(l, c.index)))
  {
    if c.index < |l.items| {
      assert l.items[c.start..c.index + 1] == l.items[c.start..c.index] + [l.items[c.index]];
    }
  }

  lemma OtherKeeps<T(!new)>(l: Log<T>, op: Op<T>, c: Cursor<T>)
    requires CursorOk(l, c) && Enabled(l, op) && !op.Push?
    ensures CursorOk(Apply(l, op), c)
  {
  }

  lemma StepKeeps<T(!new)>(l: Log<T>, op: Op<T>)
    requires Inv(l) && Enabled(l, op)
    ensures Inv(Apply(l, op))
  {
    var m := Apply(l, op);
    forall r | r in m.readers ensures CursorOk(m, m.readers[r]) {
      if r in l.readers && !(op.Read? && r == op.id) {
        if op.Push? { PushKeeps(l, op.item, l.readers[r]); } else { OtherKeeps(l, op, l.readers[r]); }
      } else if op.Read? {
        ReadKeeps(l, l.readers[r]);
        OtherKeeps(l, op, AfterRead(l.readers[r], NextAt(l, l.readers[r].index)));
      } else {
        assert CursorOk(l, l.readers[op.from]);
      }
    }
  }

  lemma {:induction false} RunKeeps<T(!new)>(l: Log<T>, ops: seq<Op<T>>)
    requires Inv(l)
    ensures Exec(l, ops).Some? ==> Inv(Exec(l, ops).value)
    decreases |ops|
  {
    hide Inv, Apply, Enabled;
    if ops != [] && Enabled(l, ops[0]) {
      StepKeeps(l, ops[0]);
      RunKeeps(Apply(l, ops[0]), ops[1..]);
    }
  }

  /**
   * Fan-out: in every run each reader, whenever it was cloned, has returned exactly the log from its clone index
   * on; one that ended returned all of it, and then the writer's error or the end.
   */
  lemma EveryReaderAgrees<T(!new)>(ops: seq<Op<T>>, r: nat)
    requires var l := Exec(Start<T>(), ops); l.Some? && r in l.value.readers
    ensures var l := Exec(Start<T>(), ops).value;
            var c := l.readers[r];
            && c.start <= c.index <= |l.items| && c.out == l.items[c.start..c.index]
            && (c.ended.Some? ==> c.out == l.items[c.start..]
                                  && (c.ended.value.Success? <==> l.closed.None?)
                                  && (c.ended.value.Failure? ==> l.closed == Some(c.ended.value.error)))
  {
    RunKeeps(Start<T>(), ops);
    var l := Exec(Start<T>(), ops).value;
    assert CursorOk(l, l.readers[r]);
    hide Exec;
  }

  /** One read: the next item, else the error, else the end if the writer is gone, else nothing changes. */
  lemma OneRead<T>(l: Log<T>, r: nat)
    requires r in l.readers
    ensures Enabled(l, Read(r))
    ensures var c, m := l.readers[r], Apply(l, Read(r));
            && m.items == l.items && m.closed == l.closed && m.writerGone == l.writerGone
            && m.readers.Keys == l.readers.Keys && (forall k | k in l.readers && k != r :: m.readers[k] == l.readers[k])
            && m.readers[r] ==
               if c.index < |l.items| then Cursor(c.start, c.index + 1, c.out + [l.items[c.index]], c.ended)
               else if l.closed.Some? then Cursor(c.start, c.index, c.out, Some(Failure(l.closed.value)))
               else if l.writerGone then Cursor(c.start, c.index, c.out, Some(Success(())))
               else c
  {
    assert l.readers != map[];
  }

  /**
   * Nothing is withheld: with one read for each item left and one more, any reader has the whole log from its start,
   * and it has ended exactly if the writer closed or is gone: with the error if there is one, else well.
   */
  lemma {:induction false} ReadsToTheEnd<T(!new)>(l: Log<T>, r: nat, n: nat)
    requires Inv(l) && r in l.readers && l.readers[r].ended.None? && n == |l.items| - l.readers[r].index + 1
    ensures var m := Exec(l, seq(n, i => Read(r)));
            && m.Some? && r in m.value.readers
            && var c := m.value.readers[r];
               && c.start == l.readers[r].start && c.out == l.items[c.start..]
               && c.ended == if l.closed.Some? then Some(Failure(l.closed.value))
                             else if l.writerGone then Some(Success(())) else None
    decreases n
  {
    var ops := seq(n, i => Read(r));
    assert CursorOk(l, l.readers[r]);
    OneRead(l, r);
    StepKeeps(l, Read(r));
    var m := Apply(l, Read(r));
    assert ops[0] == Op<T>.Read(r) && ops[1..] == seq((n - 1) as nat, i => Read(r));
    hide Apply, Inv;
    if n > 1 {
      ReadsToTheEnd(m, r, n - 1);
    } else {
      assert ops[1..] == [] && l.items[l.readers[r].start..] == l.items[l.readers[r].start..l.readers[r].index];
    }
  }

  /** A clone stands where the original stands and is given what the original is given next; it has returned nothing. */
  lemma CloneStandsThere<T(!new)>(l: Log<T>, a: nat, b: nat)
    requires a in l.readers && b !in l.readers
    ensures Enabled(l, Clone(a, b))
    ensures var m := Apply(l, Clone(a, b));
            && m.items == l.items && m.closed == l.closed && m.writerGone == l.writerGone
            && m.readers.Keys == l.readers.Keys + {b} && (forall k | k in l.readers :: m.readers[k] == l.readers[k])
            && m.readers[b].index == m.readers[b].start == l.readers[a].index
            && m.readers[b].out == [] && m.readers[b].ended.None?
            && Enabled(m, Read(a)) && Enabled(m, Read(b))
            && var c, d := Apply(m, Read(a)).readers[a], Apply(m, Read(b)).readers[b];
               && c.index == d.index && c.out == l.readers[a].out + d.out
               && (l.readers[a].ended.None? ==> c.ended == d.ended)
  {
    var m := Apply(l, Clone(a, b));
    OneRead(m, a);
    OneRead(m, b);
  }

  /** The error of the first close among some steps. */
  function Closes<T>(ops: seq<Op<T>>): Option<ServeError> {
    if ops == [] then None else if ops[0].Close? then Some(ops[0].error) else Closes(ops[1..])
  }

  /** While both halves are there the log is closed with exactly the error of the one close there was. */
  lemma {:induction false} ClosesOnce<T(!new)>(l: Log<T>, ops: seq<Op<T>>)
    requires Exec(l, ops).Some?
    ensures var m := Exec(l, ops).value;
            && (!Dropped(m) ==> m.closed == if l.closed.Some? then l.closed else Closes(ops))
            && (l.closed.Some? || Dropped(l) ==> m.closed == l.closed)
            && (Dropped(l) ==> Dropped(m))
            && (m.writerGone <==> l.writerGone || DropWriter in ops)
    decreases |ops|
  {
    if ops != [] {
      ClosesOnce(Apply(l, ops[0]), ops[1..]);
      assert ops == [ops[0]] + ops[1..];
    }
  }

  /** The items of the pushes among some steps. */
  function Pushes<T>(ops: seq<Op<T>>): seq<T> {
    if ops == [] then []
    else if ops[0].Push? then [ops[0].item] + Pushes(ops[1..]) else Pushes(ops[1..])
  }

  /**
   * Over any steps the log only grows at its end, by the items that were pushed, in order; while both halves are
   * there none is missing, and once one is gone no later one is taken in.
   */
  lemma {:induction false} OnlyAppends<T(!new)>(l: Log<T>, ops: seq<Op<T>>)
    requires Exec(l, ops).Some?
    ensures var m := Exec(l, ops).value;
            && l.items <= m.items && m.items[|l.items|..] <= Pushes(ops)
            && (!Dropped(m) ==> m.items == l.items + Pushes(ops))
            && (Dropped(l) ==> Dropped(m) && m.items == l.items)
    decreases |ops|
  {
    if ops == [] {
      assert l.items + [] == l.items;
    } else {
      var op := ops[0];
      var k := Apply(l, op);
      OnlyAppends(k, ops[1..]);
      var m := Exec(k, ops[1..]).value;
      assert Dropped(l) ==> Dropped(k) && k.items == l.items;
      if op.Push? && !Dropped(l) {
        assert k.items == l.items + [op.item];
        assert m.items[|l.items|..] == [op.item] + m.items[|k.items|..];
        assert l.items + ([op.item] + Pushes(ops[1..])) == k.items + Pushes(ops[1..]);
      } else {
        assert k.items == l.items;
        assert Dropped(l) ==> m.items[|l.items|..] == [];
      }
    }
  }
}
