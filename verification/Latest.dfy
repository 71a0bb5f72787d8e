/** The latest subgroup of a track: what its writer may put there and what its readers see of it. */
module Latest {
  import opened Wire
  import F = FanOut

  const WORD: nat := 0x1_0000_0000_0000_0000

  /** Group and subgroup, both 64-bit. */
  datatype Id = Id(group: U64, subgroup: U64)

  predicate Before(a: Id, b: Id) {
    a.group < b.group || (a.group == b.group && a.subgroup < b.subgroup)
  }

  /** A reader and the subgroups it was given. */
  datatype Cursor = Cursor(epoch: nat, out: seq<Id>, epochs: seq<nat>)

  /** `history` logs every subgroup that became the latest; the writer's own counters stand outside the lock. */
  datatype Track = Track(latest: Option<Id>, epoch: nat, closed: Option<F.ServeError>, writerGone: bool,
                         readers: map<nat, Cursor>,
                         next: U64, nextGroup: U64, lastGroup: U64, history: seq<Id>)

  function Start(): Track {
    Track(None, 0, None, false, map[0 := Cursor(0, [], [])], 0, 0, 0, [])
  }

  datatype Op =
    | Create(id: Id) | Append | Close(error: F.ServeError) | DropWriter
    | Clone(from: nat, to: nat) | DropReader(reader: nat) | Next(reader: nat)

  datatype Created = Accepted | Late | Failed(error: F.ServeError)

  predicate Dropped(t: Track) {
    t.writerGone || t.readers == map[]
  }

  /** Becoming the latest takes a later group, or a later subgroup of the same group. */
  function CreateResult(t: Track, id: Id): Created {
    if Dropped(t) then Failed(F.Cancel)
    else if t.latest.None? then Accepted
    else
      var latest := t.latest.value;
      if id.group == latest.group then
        (if id.subgroup < latest.subgroup then Late
         else if id.subgroup == latest.subgroup then Failed(F.Duplicate) else Accepted)
      else if id.group > latest.group then Accepted else Late
  }

  /** The subgroup that appending starts: the first of the next group. */
  function AppendId(t: Track): Id {
    Id(t.nextGroup, 0)
  }

  function Accept(t: Track, id: Id): Track {
    t.(latest := Some(id), epoch := t.epoch + 1, history := t.history + [id],
       next := (id.subgroup + 1) % WORD, nextGroup := (id.group + 1) % WORD, lastGroup := id.group)
  }

  function Creating(t: Track, id: Id): Track {
    if CreateResult(t, id) == Accepted then Accept(t, id) else t
  }

  /** The reader that has not seen the current epoch gets the latest subgroup. */
  function AfterNext(t: Track, c: Cursor): Cursor {
    if c.epoch != t.epoch && t.latest.Some?
    then Cursor(t.epoch, c.out + [t.latest.value], c.epochs + [t.epoch]) else c
  }

  predicate Enabled(t: Track, op: Op) {
    match op
    case Create(_) => !t.writerGone
    case Append => !t.writerGone
    case Close(_) => !t.writerGone
    case DropWriter => !t.writerGone
    case Clone(a, b) => a in t.readers && b !in t.readers
    case DropReader(r) => r in t.readers
    case Next(r) => r in t.readers
  }

  function Apply(t: Track, op: Op): Track
    requires Enabled(t, op)
  {
    match op
    case Create(id) => Creating(t, id)
    case Append => Creating(t, AppendId(t))
    case Close(e) => if Dropped(t) || t.closed.Some? then t else t.(closed := Some(e))
    case DropWriter => t.(writerGone := true)
    case Clone(a, b) => t.(readers := t.readers[b := Cursor(t.readers[a].epoch, [], [])])
    case DropReader(r) => t.(readers := t.readers - {r})
    case Next(r) => t.(readers := t.readers[r := AfterNext(t, t.readers[r])])
  }

  function Exec(t: Track, ops: seq<Op>): Option<Track>
    decreases |ops|
  {
    if ops == [] then Some(t)
    else if Enabled(t, ops[0]) then Exec(Apply(t, ops[0]), ops[1..]) else None
  }

  // --- what every run keeps ---

  ghost predicate Increasing(ids: seq<Id>) {
    forall i, j | 0 <= i < j < |ids| :: Before(ids[i], ids[j])
  }

  /** A reader was given the entries of the history at strictly increasing epochs, the last being the one it is at. */
  ghost predicate CursorOk(history: seq<Id>, c: Cursor) {
    && c.epoch <= |history| && |c.out| == |c.epochs|
    && (forall i | 0 <= i < |c.epochs| :: 1 <= c.epochs[i] <= c.epoch && c.out[i] == history[c.epochs[i] - 1])
    && (forall i, j | 0 <= i < j < |c.epochs| :: c.epochs[i] < c.epochs[j])
  }

  ghost predicate Inv(t: Track) {
    && t.epoch == |t.history| && Increasing(t.history)
    && (t.latest == if t.history == [] then None else Some(t.history[|t.history| - 1]))
    && (t.latest.None? ==> t.nextGroup == 0)
    && (t.latest.Some? ==> t.lastGroup == t.latest.value.group && t.nextGroup == (t.latest.value.group + 1) % WORD)
    && (forall r | r in t.readers :: CursorOk(t.history, t.readers[r]))
  }

  lemma AcceptKeeps(t: Track, id: Id)
    requires Inv(t) && CreateResult(t, id) == Accepted
    ensures Inv(Accept(t, id))
  {
    var u := Accept(t, id);
    assert forall i | 0 <= i < |t.history| :: u.history[i] == t.history[i];
    if t.history != [] {
      var last := |t.history| - 1;
      assert forall i | 0 <= i < last :: Before(t.history[i], t.history[last]);
      assert Before(t.history[last], id);
    }
    forall r | r in u.readers ensures CursorOk(u.history, u.readers[r]) {
      assert CursorOk(t.history, t.readers[r]);
    }
  }

  lemma NextKeeps(t: Track, c: Cursor)
    requires Inv(t) && CursorOk(t.history, c)
    ensures CursorOk(t.history, AfterNext(t, c))
  {
  }

  lemma StepKeeps(t: Track, op: Op)
    requires Inv(t) && Enabled(t, op)
    ensures Inv(Apply(t, op))
  {
    hide Increasing, Accept;
    match op
    case Create(id) => if CreateResult(t, id) == Accepted { AcceptKeeps(t, id); }
    case Append => if CreateResult(t, AppendId(t)) == Accepted { AcceptKeeps(t, AppendId(t)); }
    case Clone(a, b) => assert CursorOk(t.history, t.readers[a]);
    case Next(r) => NextKeeps(t, t.readers[r]);
    case _ =>
  }

  lemma {:induction false} RunKeeps(t: Track, ops: seq<Op>)
    requires Inv(t)
    ensures Exec(t, ops).Some? ==> Inv(Exec(t, ops).value)
    decreases |ops|
  {
    hide Inv, Apply, Enabled;
    if ops != [] && Enabled(t, ops[0]) {
      StepKeeps(t, ops[0]);
      RunKeeps(Apply(t, ops[0]), ops[1..]);
    }
  }

  ghost predicate Reachable(t: Track) {
    exists ops :: Exec(Start(), ops) == Some(t)
  }

  lemma ReachableOk(t: Track)
    requires Reachable(t)
    ensures Inv(t)
  {
    var ops :| Exec(Start(), ops) == Some(t);
    RunKeeps(Start(), ops);
  }

  /** In every run the latest subgroup moves strictly forward with every epoch, and is the last of them. */
  lemma LatestIsMonotone(t: Track)
    requires Reachable(t)
    ensures t.epoch == |t.history|
    ensures forall i, j | 0 <= i < j < |t.history| :: Before(t.history[i], t.history[j])
    ensures t.latest == if t.history == [] then None else Some(t.history[|t.history| - 1])
  {
    ReachableOk(t);
  }

  /** What a create answers while both halves live, by the latest alone, and what it leaves. */
  lemma CreateAnswers(t: Track, id: Id)
    requires Inv(t) && !Dropped(t)
    ensures Enabled(t, Create(id))
    ensures t.latest == if t.history == [] then None else Some(t.history[|t.history| - 1])
    ensures CreateResult(t, id) == Accepted <==> t.latest.None? || Before(t.latest.value, id)
    ensures CreateResult(t, id) == Late <==> t.latest.Some? && Before(id, t.latest.value)
    ensures CreateResult(t, id) == Failed(F.Duplicate) <==> t.latest == Some(id)
    ensures var u := Apply(t, Create(id));
            if CreateResult(t, id) == Accepted then
              && u.latest == Some(id) && u.epoch == t.epoch + 1 && u.history == t.history + [id]
              && u.closed == t.closed && u.writerGone == t.writerGone && u.readers == t.readers
            else u == t
  {
    hide Increasing, CursorOk;
  }

  lemma ReachableAnswers(t: Track, id: Id)
    requires Reachable(t) && !Dropped(t)
    ensures CreateResult(t, id) == Accepted <==> t.latest.None? || Before(t.latest.value, id)
    ensures CreateResult(t, id) == Late <==> t.latest.Some? && Before(id, t.latest.value)
    ensures CreateResult(t, id) == Failed(F.Duplicate) <==> t.latest == Some(id)
  {
    ReachableOk(t);
    CreateAnswers(t, id);
  }

  /** What one step should add to the history: a created subgroup behind the last one, or the start of the next group. */
  function Added(history: seq<Id>, op: Op): seq<Id> {
    match op
    case Create(id) => if history == [] || Before(history[|history| - 1], id) then [id] else []
    case Append =>
      if history == [] then [Id(0, 0)]
      else if history[|history| - 1].group + 1 < WORD then [Id(history[|history| - 1].group + 1, 0)] else []
    case _ => []
  }

  function Kept(history: seq<Id>, ops: seq<Op>): seq<Id>
    decreases |ops|
  {
    if ops == [] then history else Kept(history + Added(history, ops[0]), ops[1..])
  }

  lemma AddsOne(t: Track, op: Op)
    requires Inv(t) && Enabled(t, op)
    ensures var u := Apply(t, op);
            && u.history == (if Dropped(t) then t.history else t.history + Added(t.history, op))
            && (Dropped(t) ==> Dropped(u))
  {
    hide Increasing, CursorOk;
    assert t.history + [] == t.history;
    if op.Create? && !Dropped(t) { CreateAnswers(t, op.id); }
    if op.Append? && !Dropped(t) { CreateAnswers(t, AppendId(t)); }
  }

  /**
   * Every create and append of a run: while both halves live the history grows by exactly those created subgroups that
   * come after the last one, and by the first of the next group for an append.
   */
  lemma {:induction false} AcceptsLater(t: Track, ops: seq<Op>)
    requires Inv(t) && Exec(t, ops).Some?
    ensures var m := Exec(t, ops).value;
            && (Dropped(t) ==> Dropped(m) && m.history == t.history)
            && (!Dropped(m) ==> m.history == Kept(t.history, ops))
    decreases |ops|
  {
    hide Apply, Inv, Enabled, Added, Dropped;
    if ops != [] {
      StepKeeps(t, ops[0]);
      AddsOne(t, ops[0]);
      AcceptsLater(Apply(t, ops[0]), ops[1..]);
    }
  }

  lemma AcceptedFromSteps(ops: seq<Op>)
    requires Exec(Start(), ops).Some? && !Dropped(Exec(Start(), ops).value)
    ensures var t := Exec(Start(), ops).value;
            t.history == Kept([], ops) && t.epoch == |Kept([], ops)|
  {
    AcceptsLater(Start(), ops);
    RunKeeps(Start(), ops);
    hide Exec;
  }

  /**
   * Appending never collides with an earlier subgroup and is never late, exactly as long as the group after
   * the latest is a 64-bit number.
   */
  lemma AppendAccepted(t: Track)
    requires Reachable(t) && !Dropped(t)
    ensures CreateResult(t, AppendId(t)) == Accepted <==> t.latest.None? || t.latest.value.group + 1 < WORD
    ensures CreateResult(t, AppendId(t)) == Accepted ==>
              AppendId(t).group == if t.latest.None? then 0 else t.latest.value.group + 1
  {
    ReachableOk(t);
    hide Increasing, CursorOk;
  }

  /** A track whose writer has come to the last group number: the next group to append would be group 0, which is late. */
  lemma LastGroupCannotAppend()
    ensures var t := Apply(Start(), Create(Id(WORD - 1, 0)));
            && Reachable(t) && !Dropped(t) && t.latest == Some(Id(WORD - 1, 0))
            && AppendId(t) == Id(0, 0) && CreateResult(t, AppendId(t)) == Late
            && Apply(t, Append) == t
  {
    var op := Create(Id(WORD - 1, 0));
    var t := Apply(Start(), op);
    assert 0 in t.readers;
    assert [op][1..] == [] && Exec(t, []) == Some(t);
    assert Exec(Start(), [op]) == Some(t);
  }

  /** Each reader is given a strictly increasing part of the history. */
  lemma ReadersSeeIncreasing(t: Track, r: nat)
    requires Reachable(t) && r in t.readers
    ensures var c := t.readers[r];
            && (forall i | 0 <= i < |c.out| :: c.out[i] in t.history)
            && (forall i, j | 0 <= i < j < |c.out| :: Before(c.out[i], c.out[j]))
  {
    ReachableOk(t);
    var c := t.readers[r];
    assert CursorOk(t.history, c);
    forall i, j | 0 <= i < j < |c.out| ensures Before(c.out[i], c.out[j]) {
      assert c.epochs[i] < c.epochs[j];
      assert Before(t.history[c.epochs[i] - 1], t.history[c.epochs[j] - 1]);
    }
  }

  /** A reader that asks is given the latest subgroup unless it has it already: it may skip, but not fall behind. */
  lemma NextIsLatest(t: Track, r: nat)
    requires Reachable(t) && r in t.readers
    ensures var before, after := t.readers[r], Apply(t, Next(r)).readers[r];
            && after.epoch == |t.history|
            && after.out == if before.epoch < |t.history| then before.out + [t.history[|t.history| - 1]] else before.out
  {
    ReachableOk(t);
    assert CursorOk(t.history, t.readers[r]);
    hide Increasing;
  }

  // --- the object ---

  class Shared {
    var latest: Option<Id>
    var epoch: nat
    var closed: Option<F.ServeError>
    var writerGone: bool
    var readersGone: bool

    constructor ()
      ensures latest == None && epoch == 0 && closed == None && !writerGone && !readersGone
    {
      latest, epoch, closed, writerGone, readersGone := None, 0, None, false, false;
    }
  }

  class SubgroupsWriter {
    const state: Shared
    var next: U64
    var nextGroup: U64
    var lastGroup: U64
    ghost var history: seq<Id>

    constructor (state: Shared)
      requires state.latest.None? && state.epoch == 0 && !state.writerGone
      ensures this.state == state && nextGroup == 0 && history == [] && Inv(Model())
    {
      this.state := state;
      next, nextGroup, lastGroup, history := 0, 0, 0, [];
    }

    /** The writer's side of the model; other readers are irrelevant to it. */
    ghost function Model(): Track
      reads this, state
    {
      Track(state.latest, state.epoch, state.closed, state.writerGone,
            if state.readersGone then map[] else map[0 := Cursor(0, [], [])], next, nextGroup, lastGroup, history)
    }

    method Create(id: Id) returns (r: Created)
      modifies this`next, this`nextGroup, this`lastGroup, this`history, state`latest, state`epoch
      ensures r == CreateResult(old(Model()), id) && Model() == Creating(old(Model()), id)
      ensures state.writerGone || state.readersGone ==> r == Failed(F.Cancel)
      ensures !state.writerGone && !state.readersGone ==>
                match old(state.latest)
                case None => r == Accepted
                case Some(latest) =>
                  && (r == Accepted <==> Before(latest, id)) && (r == Late <==> Before(id, latest))
                  && (r == Failed(F.Duplicate) <==> latest == id)
      ensures if r == Accepted then
                && state.latest == Some(id) && state.epoch == old(state.epoch) + 1 && history == old(history) + [id]
                && nextGroup == (id.group + 1) % WORD && lastGroup == id.group && next == (id.subgroup + 1) % WORD
              else
                && state.latest == old(state.latest) && state.epoch == old(state.epoch) && history == old(history)
                && nextGroup == old(nextGroup) && lastGroup == old(lastGroup) && next == old(next)
    {
      assert !state.readersGone ==> 0 in Model().readers;
      if state.writerGone || state.readersGone { return Failed(F.Cancel); }
      if state.latest.Some? {
        var latest := state.latest.value;
        if id.group == latest.group {
          if id.subgroup < latest.subgroup { return Late; }
          if id.subgroup == latest.subgroup { return Failed(F.Duplicate); }
          state.latest := Some(id);
        } else if id.group > latest.group {
          state.latest := Some(id);
        } else {
          return Late;
        }
      } else {
        state.latest := Some(id);
      }
      next := (id.subgroup + 1) % WORD;
      nextGroup := (id.group + 1) % WORD;
      lastGroup := id.group;
      history := history + [id];
      state.epoch := state.epoch + 1;
      r := Accepted;
    }

    method Append() returns (r: Created)
      modifies this`next, this`nextGroup, this`lastGroup, this`history, state`latest, state`epoch
      ensures r == CreateResult(old(Model()), AppendId(old(Model()))) && Model() == Creating(old(Model()), AppendId(old(Model())))
      ensures !state.writerGone && !state.readersGone && old(state.latest).None? ==> r == Accepted
      ensures r == Accepted ==> state.latest == Some(Id(old(nextGroup), 0)) && state.epoch == old(state.epoch) + 1
      ensures r != Accepted ==> state.latest == old(state.latest) && state.epoch == old(state.epoch)
    {
      r := Create(Id(nextGroup, 0));
    }
  }

  datatype NextResult = Given(id: Option<Id>) | End | Error(error: F.ServeError) | Waits

  class SubgroupsReader {
    const state: Shared
    var epoch: nat

    constructor (state: Shared)
      ensures this.state == state && epoch == 0
    {
      this.state := state;
      epoch := 0;
    }

    method Next() returns (r: NextResult)
      modifies this`epoch
      ensures old(epoch) != state.epoch ==> r == Given(state.latest)
      ensures old(epoch) == state.epoch ==>
                r == if state.closed.Some? then Error(state.closed.value)
                     else if state.writerGone || state.readersGone then End else Waits
      ensures epoch == state.epoch
    {
      if epoch != state.epoch {
        epoch := state.epoch;
        return Given(state.latest);
      }
      if state.closed.Some? { return Error(state.closed.value); }
      return if state.writerGone || state.readersGone then End else Waits;
    }
  }
}
