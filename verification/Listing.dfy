/** The listing of a namespace as a track: a snapshot of the names, then one delta for each change. */
module Listing {
  import opened Wire
  import opened Coding
  import F = FanOut

  type Name = n: Bytes | NEWLINE !in n

  const NEWLINE: Byte := 10
  const PLUS: Byte := 43
  const MINUS: Byte := 45

  // --- what a reader of the track is to make of it ---

  function FirstNewline(p: Bytes): (k: nat)
    ensures k <= |p| && NEWLINE !in p[..k]
    ensures k < |p| ==> p[k] == NEWLINE
  {
    if p == [] || p[0] == NEWLINE then 0
    else
      var k := FirstNewline(p[1..]);
      assert p[..k + 1] == [p[0]] + p[1..][..k];
      k + 1
  }

  /** The lines of a snapshot, each ended by a newline. */
  function Lines(p: Bytes): set<Bytes> {
    var k := FirstNewline(p);
    if p == [] then {} else if k == |p| then {p} else {p[..k]} + Lines(p[k + 1..])
  }

  function Delta(names: set<Bytes>, p: Bytes): Option<set<Bytes>> {
    if p == [] then None
    else if p[0] == PLUS then Some(names + {p[1..]})
    else if p[0] == MINUS then Some(names - {p[1..]})
    else None
  }

  /** The names after reading a subgroup: its first object is a snapshot, each later one a delta. */
  function Replay(objects: seq<Bytes>): Option<set<Bytes>> {
    if objects == [] then None
    else if |objects| == 1 then (if objects[0] == [] then None else Some(Lines(objects[0])))
    else
      match Replay(objects[..|objects| - 1])
      case None => None
      case Some(names) => Delta(names, objects[|objects| - 1])
  }

  // --- the writer ---

  /** `subgroup` holds the objects of the current subgroup, none before the first change. */
  datatype State = State(current: set<Name>, subgroup: Option<seq<Bytes>>)

  function Snapshot(order: seq<Name>): Bytes {
    if order == [] then [] else order[0] + [NEWLINE] + Snapshot(order[1..])
  }

  /** A change is written as a delta while the set is less than twice as large as the subgroup is long. */
  function Publish(s: State, current: set<Name>, delta: Bytes, order: seq<Name>): State {
    if s.subgroup.Some? && |current| < 2 * |s.subgroup.value|
    then State(current, Some(s.subgroup.value + [delta]))
    else State(current, Some([Snapshot(order)]))
  }

  /** `order` is the order in which the set would be iterated for a snapshot. */
  datatype Op = Insert(name: Name, order: seq<Name>) | Remove(name: Name, order: seq<Name>)

  ghost predicate Enabled(s: State, op: Op) {
    match op
    case Insert(n, order) => Enumerates(order, s.current + {n})
    case Remove(n, order) => Enumerates(order, s.current - {n})
  }

  function Apply(s: State, op: Op): State {
    match op
    case Insert(n, order) => if n in s.current then s else Publish(s, s.current + {n}, [PLUS] + n, order)
    case Remove(n, order) => if n !in s.current then s else Publish(s, s.current - {n}, [MINUS] + n, order)
  }

  ghost function Exec(s: State, ops: seq<Op>): Option<State>
    decreases |ops|
  {
    if ops == [] then Some(s)
    else if Enabled(s, ops[0]) then Exec(Apply(s, ops[0]), ops[1..]) else None
  }

  ghost predicate Inv(s: State) {
    match s.subgroup
    case None => s.current == {}
    case Some(objects) =>
      && Replay(objects) == Some(s.current)
      && (forall i | 0 <= i < |objects| :: objects[i] != [])
  }

  lemma {:induction false} LinesOfSnapshot(order: seq<Name>)
    ensures forall n: Bytes :: n in Lines(Snapshot(order)) <==> n in order
    ensures order != [] ==> Snapshot(order) != []
  {
    if order != [] {
      var n: Bytes, rest := order[0], Snapshot(order[1..]);
      var p := Snapshot(order);
      assert p == n + ([NEWLINE] + rest);
      FirstNewlineAt(n, rest);
      assert p[|n| + 1..] == rest && p[..|n|] == n;
      LinesOfSnapshot(order[1..]);
      assert order == [order[0]] + order[1..];
    }
  }

  lemma {:induction false} FirstNewlineAt(n: Bytes, rest: Bytes)
    requires NEWLINE !in n
    ensures FirstNewline(n + ([NEWLINE] + rest)) == |n|
  {
    var p := n + ([NEWLINE] + rest);
    if n != [] {
      assert p[1..] == n[1..] + ([NEWLINE] + rest);
      FirstNewlineAt(n[1..], rest);
    }
  }

  lemma PublishKeeps(s: State, current: set<Name>, delta: Bytes, order: seq<Name>)
    requires Inv(s) && Enumerates(order, current) && delta != []
    requires s.subgroup.Some? ==> Delta(s.current, delta) == Some(current)
    requires s.subgroup.None? ==> current != {}
    ensures Inv(Publish(s, current, delta, order))
  {
    if s.subgroup.Some? && |current| < 2 * |s.subgroup.value| {
      var before := s.subgroup.value;
      var after := before + [delta];
      assert after[..|after| - 1] == before;
    } else {
      LinesOfSnapshot(order);
      assert Lines(Snapshot(order)) == current;
      var one := [Snapshot(order)];
      assert order == [] ==> current == {};
    }
  }

  lemma StepKeeps(s: State, op: Op)
    requires Inv(s) && Enabled(s, op)
    ensures Inv(Apply(s, op))
  {
    hide Publish, Replay, Enumerates;
    match op
    case Insert(n, order) =>
      if n !in s.current {
        assert ([PLUS] + n)[1..] == n;
        PublishKeeps(s, s.current + {n}, [PLUS] + n, order);
      }
    case Remove(n, order) =>
      if n in s.current {
        assert ([MINUS] + n)[1..] == n;
        PublishKeeps(s, s.current - {n}, [MINUS] + n, order);
      }
  }

  /**
   * After any run of inserts and removes on an open track, replaying the current subgroup gives exactly the
   * current set, and no object that was ever written into it is empty.
   */
  lemma {:induction false} ReplayAgrees(s: State, ops: seq<Op>)
    requires Inv(s)
    ensures Exec(s, ops).Some? ==>
              var r := Exec(s, ops).value;
              && (r.subgroup.None? ==> r.current == {})
              && (r.subgroup.Some? ==> Replay(r.subgroup.value) == Some(r.current)
                                       && forall i | 0 <= i < |r.subgroup.value| :: r.subgroup.value[i] != [])
    decreases |ops|
  {
    if ops != [] && Enabled(s, ops[0]) {
      StepKeeps(s, ops[0]);
      hide Apply, Enabled, Inv, Replay;
      ReplayAgrees(Apply(s, ops[0]), ops[1..]);
    } else {
      assert Inv(s);
    }
  }

  lemma StartOk()
    ensures Inv(State({}, None))
  {
  }

  /** The set of names after a run is what the inserts and removes alone make of it. */
  lemma {:induction false} TracksASet(s: State, ops: seq<Op>)
    ensures Exec(s, ops).Some? ==> Exec(s, ops).value.current == Changed(s.current, ops)
    decreases |ops|
  {
    if ops != [] && Enabled(s, ops[0]) {
      TracksASet(Apply(s, ops[0]), ops[1..]);
      var n := ops[0].name;
      assert n in s.current ==> s.current + {n} == s.current;
      assert n !in s.current ==> s.current - {n} == s.current;
    }
  }

  function Changed(names: set<Name>, ops: seq<Op>): set<Name>
    decreases |ops|
  {
    if ops == [] then names
    else Changed(if ops[0].Insert? then names + {ops[0].name} else names - {ops[0].name}, ops[1..])
  }

  // --- the object ---

  class ListingWriter {
    var current: set<Name>
    var subgroup: Option<seq<Bytes>>

    constructor ()
      ensures Valid() && View() == State({}, None)
    {
      current, subgroup := {}, None;
    }

    function View(): State
      reads this
    {
      State(current, subgroup)
    }

    ghost predicate Valid()
      reads this
    {
      Inv(View())
    }

    method TakeSnapshot() returns (msg: Bytes, ghost order: seq<Name>)
      ensures Enumerates(order, current) && msg == Snapshot(order)
    {
      msg, order := [], [];
      var left := current;
      while left != {}
        invariant left <= current
        invariant Enumerates(order, current - left)
        invariant msg == Snapshot(order)
        decreases |left|
      {
        var name :| name in left;
        SnapshotPush(order, name);
        msg := msg + name + [NEWLINE];
        order := order + [name];
        left := left - {name};
      }
      assert current - left == current;
    }

    method Insert(name: Name) returns (r: Result<(), F.ServeError>, ghost order: seq<Name>)
      requires Valid()
      modifies this
      ensures Valid()
      ensures name in old(current) ==> r == Failure(F.Duplicate) && View() == old(View())
      ensures name !in old(current) ==>
                && r == Success(()) && (Enabled(old(View()), Op.Insert(name, order)))
                && View() == Apply(old(View()), Op.Insert(name, order))
      ensures name !in old(current) ==>
                && current == old(current) + {name} && Enumerates(order, current)
                && subgroup == (if old(subgroup).Some? && |current| < 2 * |old(subgroup).value|
                                then Some(old(subgroup).value + [[PLUS] + name]) else Some([Snapshot(order)]))
    {
      order := [];
      if name in current { return Failure(F.Duplicate), order; }
      ghost var before := View();
      current := current + {name};
      if subgroup.Some? && |current| < 2 * |subgroup.value| {
        subgroup := Some(subgroup.value + [[PLUS] + name]);
        order := AnyOrder(current);
      } else {
        var msg;
        msg, order := TakeSnapshot();
        subgroup := Some([msg]);
      }
      StepKeeps(before, Op.Insert(name, order));
      return Success(()), order;
    }

    method Remove(name: Name) returns (r: Result<(), F.ServeError>, ghost order: seq<Name>)
      requires Valid()
      modifies this
      ensures Valid()
      ensures name !in old(current) ==> r == Failure(F.NotFound) && View() == old(View())
      ensures name in old(current) ==>
                && r == Success(()) && (Enabled(old(View()), Op.Remove(name, order)))
                && View() == Apply(old(View()), Op.Remove(name, order))
      ensures name in old(current) ==>
                && current == old(current) - {name} && Enumerates(order, current)
                && subgroup == (if old(subgroup).Some? && |current| < 2 * |old(subgroup).value|
                                then Some(old(subgroup).value + [[MINUS] + name]) else Some([Snapshot(order)]))
    {
      order := [];
      if name !in current { return Failure(F.NotFound), order; }
      ghost var before := View();
      current := current - {name};
      if subgroup.Some? && |current| < 2 * |subgroup.value| {
        subgroup := Some(subgroup.value + [[MINUS] + name]);
        order := AnyOrder(current);
      } else {
        var msg;
        msg, order := TakeSnapshot();
        subgroup := Some([msg]);
      }
      StepKeeps(before, Op.Remove(name, order));
      return Success(()), order;
    }
  }

  lemma {:induction false} SnapshotPush(order: seq<Name>, name: Name)
    ensures Snapshot(order + [name]) == Snapshot(order) + name + [NEWLINE]
  {
    if order == [] {
      assert [name][1..] == [] && order + [name] == [name];
    } else {
      SnapshotPush(order[1..], name);
      assert (order + [name])[1..] == order[1..] + [name];
      var head: Bytes, rest := order[0] + [NEWLINE], Snapshot(order[1..]);
      assert head + (rest + name + [NEWLINE]) == (head + rest) + name + [NEWLINE];
    }
  }

  lemma AnyOrder(names: set<Name>) returns (order: seq<Name>)
    ensures Enumerates(order, names)
    decreases |names|
  {
    if names == {} {
      order := [];
    } else {
      var n :| n in names;
      var rest := AnyOrder(names - {n});
      order := rest + [n];
    }
  }
}
