/** A subgroup's objects: each announces its size, and readers may trust a whole read to have exactly that size. */
module Subgroup {
  import opened Wire
  import opened Data
  import opened Reader
  import F = FanOut

  /** An object under way: `remain` is what its writer still owes of the announced size. */
  datatype Obj = Obj(size: nat, remain: nat, log: F.Log<Bytes>)

  datatype Op =
    | Write(chunk: Bytes) | Close(error: F.ServeError) | DropWriter
    | Clone(from: nat, to: nat) | DropReader(id: nat) | Read(id: nat)

  function Start(size: nat): Obj {
    Obj(size, size, F.Start())
  }

  predicate Enabled(o: Obj, op: Op) {
    match op
    case Write(_) => !o.log.writerGone && o.log.closed.None?
    case Close(_) => !o.log.writerGone && o.log.closed.None?
    case DropWriter => !o.log.writerGone
    case Clone(a, b) => F.Enabled(o.log, F.Clone(a, b))
    case DropReader(r) => F.Enabled(o.log, F.DropReader(r))
    case Read(r) => F.Enabled(o.log, F.Read(r))
  }

  /** Dropping a writer that still owes bytes leaves an error behind. */
  function Dropping(o: Obj): Obj
    requires !o.log.writerGone
  {
    if o.remain != 0 && !F.Dropped(o.log)
    then o.(log := F.Apply(o.log.(closed := Some(F.Size)), F.DropWriter))
    else o.(log := F.Apply(o.log, F.DropWriter))
  }

  /** Closing is refused while bytes are owed; either way the writer is used up, and its drop is a step of its own. */
  function Apply(o: Obj, op: Op): Obj
    requires Enabled(o, op)
  {
    match op
    case Write(chunk) =>
      if |chunk| > o.remain then o else o.(remain := o.remain - |chunk|, log := F.Apply(o.log, F.Push(chunk)))
    case Close(e) => if o.remain != 0 then o else o.(log := F.Apply(o.log, F.Close(e)))
    case DropWriter => Dropping(o)
    case Clone(a, b) => o.(log := F.Apply(o.log, F.Clone(a, b)))
    case DropReader(r) => o.(log := F.Apply(o.log, F.DropReader(r)))
    case Read(r) => o.(log := F.Apply(o.log, F.Read(r)))
  }

  function Exec(o: Obj, ops: seq<Op>): Option<Obj>
    decreases |ops|
  {
    if ops == [] then Some(o)
    else if Enabled(o, ops[0]) then Exec(Apply(o, ops[0]), ops[1..]) else None
  }

  ghost predicate Inv(o: Obj) {
    && F.Inv(o.log)
    && (o.log.readers != map[] ==> |Flatten(o.log.items)| + o.remain == o.size)
    && (o.log.closed.Some? && !o.log.writerGone ==> o.remain == 0)
    && (o.log.closed.None? && o.log.writerGone && o.log.readers != map[] ==> o.remain == 0)
  }

  lemma {:induction false} FlattenPush(chunks: seq<Bytes>, chunk: Bytes)
    ensures Flatten(chunks + [chunk]) == Flatten(chunks) + chunk
  {
    FlattenSplit(chunks + [chunk], |chunks|);
    assert (chunks + [chunk])[..|chunks|] == chunks && (chunks + [chunk])[|chunks|..] == [chunk];
    assert [chunk][1..] == [] && Flatten([chunk]) == chunk;
  }

  /** An error on a log that nobody has ended at changes nothing for its readers. */
  lemma MarkKeeps(l: F.Log<Bytes>)
    requires F.Inv(l) && !l.writerGone && l.closed.None?
    ensures F.Inv(l.(closed := Some(F.Size)))
  {
    var m := l.(closed := Some(F.Size));
    forall r | r in m.readers ensures F.CursorOk(m, m.readers[r]) {
      assert F.CursorOk(l, l.readers[r]);
    }
  }

  lemma DroppingKeeps(o: Obj)
    requires Inv(o) && !o.log.writerGone
    ensures Inv(Dropping(o))
  {
    hide F.Inv, Flatten;
    if o.remain != 0 && !F.Dropped(o.log) {
      MarkKeeps(o.log);
      F.StepKeeps(o.log.(closed := Some(F.Size)), F.DropWriter);
    } else {
      F.StepKeeps(o.log, F.DropWriter);
    }
  }

  lemma StepKeeps(o: Obj, op: Op)
    requires Inv(o) && Enabled(o, op)
    ensures Inv(Apply(o, op))
  {
    hide F.Inv, Flatten, F.CursorOk;
    match op
    case Write(chunk) =>
      F.StepKeeps(o.log, F.Push(chunk));
      FlattenPush(o.log.items, chunk);
    case Close(e) => if o.remain == 0 { F.StepKeeps(o.log, F.Close(e)); }
    case DropWriter => DroppingKeeps(o);
    case Clone(a, b) => F.StepKeeps(o.log, F.Clone(a, b));
    case DropReader(r) => F.StepKeeps(o.log, F.DropReader(r));
    case Read(r) => F.StepKeeps(o.log, F.Read(r));
  }

  lemma {:induction false} RunKeeps(o: Obj, ops: seq<Op>)
    requires Inv(o)
    ensures Exec(o, ops).Some? ==> Inv(Exec(o, ops).value) && Exec(o, ops).value.size == o.size
    decreases |ops|
  {
    if ops != [] && Enabled(o, ops[0]) {
      StepKeeps(o, ops[0]);
      assert Apply(o, ops[0]).size == o.size;
      hide Inv, Apply, Enabled;
      RunKeeps(Apply(o, ops[0]), ops[1..]);
    }
  }

  lemma StartOk(size: nat)
    ensures Inv(Start(size))
  {
  }

  /**
   * Exact size: a reader that comes to a clean end has seen exactly as many bytes as were announced; one that
   * was cloned midway has seen the rest of them.
   */
  lemma ExactSize(size: nat, ops: seq<Op>, r: nat)
    requires var o := Exec(Start(size), ops);
             o.Some? && r in o.value.log.readers && o.value.log.readers[r].ended == Some(Success(()))
    ensures var o := Exec(Start(size), ops).value;
            var c := o.log.readers[r];
            && c.start <= |o.log.items| && c.out == o.log.items[c.start..]
            && |Flatten(o.log.items[..c.start])| + |Flatten(c.out)| == size
  {
    StartOk(size);
    RunKeeps(Start(size), ops);
    var o := Exec(Start(size), ops).value;
    var c := o.log.readers[r];
    assert F.CursorOk(o.log, c);
    FlattenSplit(o.log.items, c.start);
    hide Exec, Flatten;
  }

  /** A reader never ends cleanly on an object whose writer left before it had written everything. */
  lemma ShortObjectFails(size: nat, ops: seq<Op>, r: nat)
    requires var o := Exec(Start(size), ops);
             o.Some? && r in o.value.log.readers && o.value.remain != 0
    ensures var o := Exec(Start(size), ops).value;
            && (o.log.writerGone ==> o.log.closed.Some?)
            && (o.log.readers[r].ended.Some? ==> o.log.readers[r].ended.value.Failure?)
  {
    StartOk(size);
    RunKeeps(Start(size), ops);
    var o := Exec(Start(size), ops).value;
    assert F.CursorOk(o.log, o.log.readers[r]);
    hide Exec, Flatten;
  }

  lemma {:induction false} OnlyShortIsMarked(o: Obj, ops: seq<Op>)
    requires Exec(o, ops).Some? && forall i | 0 <= i < |ops| :: !ops[i].Close?
    requires o.log.closed.Some? ==> o.log.closed == Some(F.Size) && o.remain != 0 && o.log.writerGone
    ensures var p := Exec(o, ops).value.log.closed;
            p.Some? ==> p == Some(F.Size) && Exec(o, ops).value.remain != 0 && Exec(o, ops).value.log.writerGone
    decreases |ops|
  {
    if ops != [] {
      OnlyShortIsMarked(Apply(o, ops[0]), ops[1..]);
    }
  }

  /**
   * An object that its writer leaves without closing it ends for every reader: well if nothing is owed, and with a
   * size error otherwise; reading on gives all of its chunks first.
   */
  lemma EndsAsWritten(size: nat, ops: seq<Op>, r: nat)
    requires Exec(Start(size), ops).Some? && forall i | 0 <= i < |ops| :: !ops[i].Close?
    requires var o := Exec(Start(size), ops).value;
             o.log.writerGone && r in o.log.readers && o.log.readers[r].ended.None?
    ensures var o := Exec(Start(size), ops).value;
            var c := o.log.readers[r];
            && c.index <= |o.log.items|
            && var m := F.Exec(o.log, seq(|o.log.items| - c.index + 1, i => F.Read(r)));
               && m.Some? && r in m.value.readers && c.start <= |o.log.items|
               && m.value.readers[r].out == o.log.items[c.start..]
               && m.value.readers[r].ended == Some(if o.remain == 0 then Success(()) else Failure(F.Size))
  {
    StartOk(size);
    RunKeeps(Start(size), ops);
    OnlyShortIsMarked(Start(size), ops);
    hide Exec, F.Exec, Flatten, Start, F.Inv;
    ReadsOn(Exec(Start(size), ops).value.log, r);
  }

  lemma ReadsOn(l: F.Log<Bytes>, r: nat)
    requires F.Inv(l) && r in l.readers && l.readers[r].ended.None?
    ensures var c := l.readers[r];
            && c.start <= |l.items| && c.index <= |l.items|
            && var m := F.Exec(l, seq(|l.items| - c.index + 1, i => F.Read(r)));
               && m.Some? && r in m.value.readers
               && m.value.readers[r].out == l.items[c.start..]
               && m.value.readers[r].ended == if l.closed.Some? then Some(Failure(l.closed.value))
                                              else if l.writerGone then Some(Success(())) else None
  {
    assert F.CursorOk(l, l.readers[r]);
    hide F.Exec;
    F.ReadsToTheEnd(l, r, |l.items| - l.readers[r].index + 1);
  }

  // --- the objects of the program ---

  /** What a writer and its readers share; the halves tell each other when they are gone. */
  class Shared<T> {
    var items: seq<T>
    var closed: Option<F.ServeError>
    var writerGone: bool
    var readersGone: bool

    constructor ()
      ensures items == [] && closed == None && !writerGone && !readersGone
    {
      items, closed, writerGone, readersGone := [], None, false, false;
    }

    predicate Dropped()
      reads this
    {
      writerGone || readersGone
    }

    function NextAt(index: nat): F.Next<T>
      reads this
    {
      F.NextIn(items, closed, Dropped(), index)
    }

    method Push(item: T) returns (r: Result<(), F.ServeError>)
      modifies this`items
      ensures r == if Dropped() then Failure(F.Cancel) else Success(())
      ensures items == if Dropped() then old(items) else old(items) + [item]
    {
      if Dropped() { return Failure(F.Cancel); }
      items := items + [item];
      return Success(());
    }

    method Close(error: F.ServeError) returns (r: Result<(), F.ServeError>)
      modifies this`closed
      ensures old(closed).Some? ==> r == Failure(old(closed).value) && closed == old(closed)
      ensures old(closed).None? ==>
                if Dropped() then r == Failure(F.Cancel) && closed.None? else r == Success(()) && closed == Some(error)
    {
      if closed.Some? { return Failure(closed.value); }
      if Dropped() { return Failure(F.Cancel); }
      closed := Some(error);
      return Success(());
    }
  }

  /** What a subgroup's log holds of an object: its number, its announced size, its status and its data. */
  datatype ObjectInfo = ObjectInfo(id: nat, size: nat, status: ObjectStatus, data: Shared<Bytes>)

  class SubgroupWriter {
    const state: Shared<ObjectInfo>
    var next: nat

    constructor (state: Shared<ObjectInfo>)
      ensures this.state == state && next == 0
    {
      this.state := state;
      next := 0;
    }

    /** The objects are numbered from 0 in the order of the log, and none was lost while readers were there. */
    ghost predicate Valid()
      reads this, state
    {
      && (!state.Dropped() ==> next == |state.items|)
      && forall i | 0 <= i < |state.items| :: state.items[i].id == i && state.items[i].status == Object
    }

    method Create(size: nat) returns (r: Result<SubgroupObjectWriter, F.ServeError>)
      requires Valid()
      modifies this`next, state`items
      ensures Valid()
      ensures state.Dropped() ==> r == Failure(F.Cancel) && state.items == old(state.items)
      ensures !state.Dropped() ==>
                && r.Success? && fresh(r.value) && fresh(r.value.state)
                && r.value.size == size && r.value.remain == size && r.value.Valid()
                && r.value.state.items == [] && r.value.state.closed.None? && !r.value.state.Dropped()
                && state.items == old(state.items) + [ObjectInfo(old(next), size, Object, r.value.state)]
    {
      var data := new Shared<Bytes>();
      var writer := new SubgroupObjectWriter(data, size);
      var info := ObjectInfo(next, size, Object, data);
      next := next + 1;
      var pushed := state.Push(info);
      if pushed.Failure? { return Failure(pushed.error); }
      return Success(writer);
    }

    method Write(payload: Bytes) returns (r: Result<(), F.ServeError>)
      requires Valid()
      modifies this`next, state`items
      ensures Valid()
      ensures r.Success? <==> !state.Dropped()
      ensures r.Success? ==>
                |state.items| == |old(state.items)| + 1 && state.items[..|old(state.items)|] == old(state.items)
                && var info := state.items[|old(state.items)|];
                   && info.id == old(next) && info.size == |payload| && info.data.items == [payload]
                   && info.data.closed.None? && info.data.writerGone
    {
      var created := Create(|payload|);
      if created.Failure? { return Failure(created.error); }
      r := created.value.Write(payload);
      created.value.Drop();
    }
  }

  class SubgroupObjectWriter {
    const state: Shared<Bytes>
    const size: nat
    var remain: nat

    constructor (state: Shared<Bytes>, size: nat)
      requires state.items == [] && state.closed.None? && !state.writerGone
      ensures this.state == state && this.size == size && remain == size && Valid()
    {
      this.state, this.size, this.remain := state, size, size;
      new;
      assert Flatten(state.items) == [];
      assert F.Inv(Model().log);
    }

    /** The object under way, seen with one reader as long as there are any. */
    ghost function Model(): Obj
      reads this, state
    {
      Obj(size, remain, F.Log(state.items, state.closed, state.writerGone,
                              if state.readersGone then map[] else map[0 := F.Cursor(0, 0, [], None)]))
    }

    ghost predicate Valid()
      reads this, state
    {
      Inv(Model())
    }

    /** Takes a chunk that still fits the announced size. */
    method Write(chunk: Bytes) returns (r: Result<(), F.ServeError>)
      modifies this`remain, state`items
      ensures |chunk| > old(remain) ==> r == Failure(F.Size) && remain == old(remain) && state.items == old(state.items)
      ensures |chunk| <= old(remain) ==>
                && remain == old(remain) - |chunk|
                && (if state.Dropped() then r == Failure(F.Cancel) && state.items == old(state.items)
                    else r == Success(()) && state.items == old(state.items) + [chunk])
      ensures old(Enabled(Model(), Op.Write(chunk))) ==> Model() == Apply(old(Model()), Op.Write(chunk))
      ensures old(Valid() && Enabled(Model(), Op.Write(chunk))) ==> Valid()
    {
      ghost var before := Model();
      DroppedModel(this);
      if |chunk| > remain { return Failure(F.Size); }
      remain := remain - |chunk|;
      r := state.Push(chunk);
      if Inv(before) && Enabled(before, Op.Write(chunk)) { StepKeeps(before, Op.Write(chunk)); }
      hide Inv, F.Inv;
    }

    /** An error in place of the end, refused while bytes are owed; the writer is used up and goes. */
    method Close(error: F.ServeError) returns (r: Result<(), F.ServeError>)
      modifies state`closed, state`writerGone
      ensures state.writerGone
      ensures remain != 0 ==> r == Failure(F.Size)
                              && state.closed == if old(state.Dropped()) then old(state.closed) else Some(F.Size)
      ensures remain == 0 && old(state.closed).None? && !old(state.Dropped()) ==> r == Success(()) && state.closed == Some(error)
      ensures old(Enabled(Model(), Op.Close(error))) ==>
                Model() == Apply(Apply(old(Model()), Op.Close(error)), Op.DropWriter)
      ensures old(Valid() && Enabled(Model(), Op.Close(error))) ==> Valid()
    {
      ghost var before := Model();
      DroppedModel(this);
      if remain != 0 { r := Failure(F.Size); } else { r := state.Close(error); }
      ghost var middle := Model();
      DroppedModel(this);
      if Enabled(before, Op.Close(error)) { assert middle == Apply(before, Op.Close(error)); }
      if Inv(before) && Enabled(before, Op.Close(error)) { StepKeeps(before, Op.Close(error)); }
      hide Inv, F.Inv, Flatten;
      Drop();
    }

    /** The writer goes; readers of an object that is short are told so. */
    method Drop()
      modifies state`closed, state`writerGone
      ensures state.writerGone
      ensures state.closed == if remain != 0 && !old(state.Dropped()) then Some(F.Size) else old(state.closed)
      ensures old(Enabled(Model(), Op.DropWriter)) ==> Model() == Apply(old(Model()), Op.DropWriter)
      ensures old(Valid() && Enabled(Model(), Op.DropWriter)) ==> Valid()
    {
      ghost var before := Model();
      DroppedModel(this);
      if remain != 0 && !state.Dropped() { state.closed := Some(F.Size); }
      state.writerGone := true;
      if Inv(before) && Enabled(before, Op.DropWriter) { StepKeeps(before, Op.DropWriter); }
      hide Inv, F.Inv, Flatten;
    }
  }

  lemma DroppedModel(w: SubgroupObjectWriter)
    ensures F.Dropped(w.Model().log) == w.state.Dropped()
  {
    assert !w.state.readersGone ==> 0 in w.Model().log.readers;
  }

  /** A reader that is there, at an object that its writer left without an error, is at one with nothing owed. */
  lemma EndedIsWhole(w: SubgroupObjectWriter)
    requires w.Valid() && !w.state.readersGone && w.state.writerGone && w.state.closed.None?
    ensures |Flatten(w.state.items)| == w.size
  {
    assert 0 in w.Model().log.readers;
  }

  /** What such a reader has read and what is left add up to the announced size. */
  lemma Whole(w: SubgroupObjectWriter, state: Shared<Bytes>, from: nat)
    requires from <= |state.items|
    ensures w.Valid() && w.state == state && !state.readersGone && state.writerGone && state.closed.None? ==>
              |Flatten(state.items[..from])| + |Flatten(state.items[from..])| == w.size
  {
    hide Inv;
    FlattenSplit(state.items, from);
    if w.Valid() && w.state == state && !state.readersGone && state.writerGone && state.closed.None? { EndedIsWhole(w); }
  }

  /** Readers of objects and of their bytes differ only in what they read. */
  class LogReader<T> {
    const state: Shared<T>
    var index: nat

    constructor (state: Shared<T>, index: nat)
      ensures this.state == state && this.index == index
    {
      this.state, this.index := state, index;
    }

    /** A clone goes on from the same place, on its own. */
    method Clone() returns (clone: LogReader<T>)
      ensures fresh(clone) && clone.state == state && clone.index == index
    {
      clone := new LogReader(state, index);
    }

    /** The next item, else the error, else the end once the other half is gone, else nothing yet. */
    method Next() returns (r: F.Next<T>)
      modifies this`index
      ensures old(index) < |state.items| ==> r == F.Item(state.items[old(index)]) && index == old(index) + 1
      ensures old(index) >= |state.items| ==>
                && index == old(index)
                && r == if state.closed.Some? then F.Failed(state.closed.value)
                        else if state.writerGone || state.readersGone then F.End else F.Waits
      ensures r == state.NextAt(old(index))
    {
      if index < |state.items| {
        r := F.Item(state.items[index]);
        index := index + 1;
      } else if state.closed.Some? {
        r := F.Failed(state.closed.value);
      } else {
        r := if state.Dropped() then F.End else F.Waits;
      }
    }
  }

  /**
   * All that is left of an object, if its end has come; None while there is more to wait for. With what was read
   * before, a clean result is exactly as long as the object was announced.
   */
  method ReadAll(reader: LogReader<Bytes>, ghost writer: SubgroupObjectWriter) returns (r: Option<Result<Bytes, F.ServeError>>)
    requires reader.index <= |reader.state.items|
    modifies reader`index
    ensures reader.index == |reader.state.items|
    ensures var s := reader.state;
            r == if s.closed.Some? then Some(Failure(s.closed.value))
                 else if s.writerGone || s.readersGone then Some(Success(Flatten(s.items[old(reader.index)..])))
                 else None
    ensures writer.Valid() && writer.state == reader.state && !reader.state.readersGone && r.Some? && r.value.Success? ==>
              |Flatten(reader.state.items[..old(reader.index)])| + |r.value.value| == writer.size
  {
    hide Inv, SubgroupObjectWriter.Valid;
    Whole(writer, reader.state, reader.index);
    var chunks: Bytes := [];
    ghost var all := Flatten(reader.state.items[reader.index..]);
    while true
      invariant old(reader.index) <= reader.index <= |reader.state.items|
      invariant chunks + Flatten(reader.state.items[reader.index..]) == all
      decreases |reader.state.items| - reader.index
    {
      ghost var left := reader.state.items[reader.index..];
      var chunk := reader.Next();
      match chunk
      case Item(c) =>
        assert left[0] == c && left[1..] == reader.state.items[reader.index..];
        assert chunks + (c + Flatten(left[1..])) == (chunks + c) + Flatten(left[1..]);
        chunks := chunks + c;
      case End =>
        assert left == [] && chunks + [] == chunks;
        return Some(Success(chunks));
      case Failed(e) => return Some(Failure(e));
      case Waits => return None;
    }
  }
}
