/** The objects of a track's newest group: a cache behind a log, and readers that take the most urgent first. */
module Objects {
  import opened Wire
  import F = FanOut

  datatype Object = Object(group: U64, object_id: U64, priority: Byte)

  // --- urgency ---

  datatype Ordering = Less | Equal | Greater

  function Order(a: int, b: int): Ordering {
    if a < b then Less else if a == b then Equal else Greater
  }

  /** Greater is sooner: by priority ascending, then group descending, then object ascending. */
  function Compare(a: Object, b: Object): Ordering {
    if Order(b.priority, a.priority) != Equal then Order(b.priority, a.priority)
    else if Order(a.group, b.group) != Equal then Order(a.group, b.group)
    else Order(b.object_id, a.object_id)
  }

  /** The order is total: so a queue has a best entry, and it is the one the rule in words asks for. */
  lemma CompareIsTotal(a: Object, b: Object, c: Object)
    ensures Compare(a, b) == Equal <==> a == b
    ensures Compare(a, b) == Less <==> Compare(b, a) == Greater
    ensures Compare(a, b) != Less && Compare(b, c) != Less ==> Compare(a, c) != Less
    ensures Compare(a, b) == Greater <==>
              || a.priority < b.priority
              || (a.priority == b.priority && a.group > b.group)
              || (a.priority == b.priority && a.group == b.group && a.object_id < b.object_id)
  {
  }

  // --- the cache and its readers ---

  /**
   * A reader: the epoch it caught up to, and the log entries, by position, that it has queued and that it has
   * returned. `start` is where it began to follow the log.
   */
  datatype Cursor = Cursor(start: nat, epoch: nat, pending: seq<nat>, out: seq<nat>)

  /** `history` logs every accepted object; the cache holds the end of it. */
  datatype Track = Track(objects: seq<Object>, epoch: nat, closed: Option<F.ServeError>, writerGone: bool,
                         readers: map<nat, Cursor>, history: seq<Object>)

  function Start(): Track {
    Track([], 0, None, false, map[0 := Cursor(0, 0, [], [])], [])
  }

  datatype Op =
    | Create(object_: Object) | Close(error: F.ServeError) | DropWriter
    | Clone(from: nat, to: nat) | DropReader(reader: nat)
    | CatchUp(reader: nat) | Take(reader: nat, at: nat)

  predicate Dropped(t: Track) {
    t.writerGone || t.readers == map[]
  }

  /** An object of an older group is dropped; one of a newer group empties the cache first. */
  function Creating(t: Track, o: Object): Track {
    if Dropped(t) then t
    else if t.objects != [] && o.group < t.objects[0].group then t
    else
      var kept := if t.objects != [] && o.group > t.objects[0].group then [] else t.objects;
      t.(objects := kept + [o], epoch := t.epoch + 1, history := t.history + [o])
  }

  /** The positions from `low` to before `high`. */
  function Positions(low: nat, high: nat): (s: seq<nat>)
    requires low <= high
    ensures |s| == high - low && forall i | 0 <= i < |s| :: s[i] == low + i
  {
    seq(high - low, i requires 0 <= i => low + i)
  }

  /** How much of the cache a reader has not seen, cut off at the cache's size. */
  function NewFrom(t: Track, c: Cursor): (index: nat)
    requires c.epoch <= t.epoch
    ensures index <= |t.objects|
  {
    var behind := t.epoch - c.epoch;
    if behind <= |t.objects| then |t.objects| - behind else 0
  }

  /** Queues the cached objects that are new to the reader; a cache entry is known by its place in the log. */
  function CaughtUp(t: Track, c: Cursor): Cursor {
    if c.epoch < t.epoch && |t.objects| <= |t.history| then
      var first := |t.history| - |t.objects|;
      c.(epoch := t.epoch, pending := c.pending + Positions(first + NewFrom(t, c), |t.history|))
    else c
  }

  predicate IsBest(t: Track, pending: seq<nat>, at: nat)
    requires at < |pending| && forall i | 0 <= i < |pending| :: pending[i] < |t.history|
  {
    forall i | 0 <= i < |pending| :: Compare(t.history[pending[at]], t.history[pending[i]]) != Less
  }

  predicate Enabled(t: Track, op: Op) {
    match op
    case Create(_) => !t.writerGone
    case Close(_) => !t.writerGone
    case DropWriter => !t.writerGone
    case Clone(a, b) => a in t.readers && b !in t.readers
    case DropReader(r) => r in t.readers
    case CatchUp(r) => r in t.readers
    case Take(r, at) =>
      && r in t.readers && at < |t.readers[r].pending|
      && (forall i | 0 <= i < |t.readers[r].pending| :: t.readers[r].pending[i] < |t.history|)
      && IsBest(t, t.readers[r].pending, at)
  }

  function TakeAt(c: Cursor, at: nat): Cursor
    requires at < |c.pending|
  {
    c.(pending := c.pending[..at] + c.pending[at + 1..], out := c.out + [c.pending[at]])
  }

  function Apply(t: Track, op: Op): Track
    requires Enabled(t, op)
  {
    match op
    case Create(o) => Creating(t, o)
    case Close(e) => if Dropped(t) || t.closed.Some? then t else t.(closed := Some(e))
    case DropWriter => t.(writerGone := true)
    case Clone(a, b) => t.(readers := t.readers[b := t.readers[a]])
    case DropReader(r) => t.(readers := t.readers - {r})
    case CatchUp(r) => t.(readers := t.readers[r := CaughtUp(t, t.readers[r])])
    case Take(r, at) => t.(readers := t.readers[r := TakeAt(t.readers[r], at)])
  }

  function Exec(t: Track, ops: seq<Op>): Option<Track>
    decreases |ops|
  {
    if ops == [] then Some(t)
    else if Enabled(t, ops[0]) then Exec(Apply(t, ops[0]), ops[1..]) else None
  }

  // --- what every run keeps ---

  /** The cache is the end of the log, all of one group, and no entry of the log is of a newer one. */
  ghost predicate CacheOk(t: Track) {
    && t.epoch == |t.history| && |t.objects| <= |t.history|
    && (t.history != [] ==> t.objects != [])
    && t.objects == t.history[|t.history| - |t.objects|..]
    && (forall i | 0 <= i < |t.objects| :: t.objects[i].group == t.objects[0].group)
    && (forall p | 0 <= p < |t.history| - |t.objects| :: t.history[p].group < t.objects[0].group)
  }

  ghost predicate Distinct(s: seq<nat>) {
    forall i, j | 0 <= i < j < |s| :: s[i] != s[j]
  }

  /** Queued and returned are different entries from the reader's part of the log; what is neither is of an older group. */
  ghost predicate CursorOk(history: seq<Object>, c: Cursor) {
    && c.start <= c.epoch <= |history|
    && Distinct(c.out + c.pending)
    && (forall p | p in c.out + c.pending :: c.start <= p < c.epoch)
    && (forall p | c.start <= p < c.epoch && p !in c.out + c.pending :: history[p].group < history[c.epoch - 1].group)
  }

  ghost predicate Inv(t: Track) {
    CacheOk(t) && forall r | r in t.readers :: CursorOk(t.history, t.readers[r])
  }

  /** What the cache says of the log, entry by entry. */
  lemma CacheEntries(t: Track)
    requires CacheOk(t)
    ensures forall p | 0 <= p < |t.history| ::
              if p < |t.history| - |t.objects| then t.history[p].group < t.objects[0].group
              else t.history[p] == t.objects[p - (|t.history| - |t.objects|)]
                   && t.history[p].group == t.objects[0].group
  {
    forall p | |t.history| - |t.objects| <= p < |t.history|
      ensures t.history[p] == t.objects[p - (|t.history| - |t.objects|)]
    {
      assert t.history[|t.history| - |t.objects|..][p - (|t.history| - |t.objects|)] == t.history[p];
    }
  }

  lemma CacheGrows(t: Track, o: Object)
    requires CacheOk(t) && (t.objects != [] ==> o.group == t.objects[0].group)
    ensures CacheOk(t.(objects := t.objects + [o], epoch := t.epoch + 1, history := t.history + [o]))
  {
    var history, objects, first := t.history + [o], t.objects + [o], |t.history| - |t.objects|;
    assert history[first..] == t.history[first..] + [o];
    assert forall p | 0 <= p < first :: history[p] == t.history[p];
  }

  lemma CacheStartsAnew(t: Track, o: Object)
    requires CacheOk(t) && t.objects != [] && o.group > t.objects[0].group
    ensures CacheOk(t.(objects := [o], epoch := t.epoch + 1, history := t.history + [o]))
  {
    CacheEntries(t);
    var history := t.history + [o];
    assert history[|t.history|..] == [o];
    assert forall p | 0 <= p < |t.history| :: history[p] == t.history[p];
  }

  lemma CacheKept(t: Track, o: Object)
    requires CacheOk(t)
    ensures CacheOk(Creating(t, o))
  {
    if !Dropped(t) {
      if t.objects == [] || o.group == t.objects[0].group {
        CacheGrows(t, o);
      } else if o.group > t.objects[0].group {
        CacheStartsAnew(t, o);
        assert [] + [o] == [o];
      }
    }
    hide CacheOk;
  }

  lemma CursorStays(t: Track, o: Object, c: Cursor)
    requires CursorOk(t.history, c)
    ensures CursorOk(Creating(t, o).history, c)
  {
    hide Distinct;
    var u := Creating(t, o);
    assert forall p | 0 <= p < |t.history| :: u.history[p] == t.history[p];
  }

  /** Catching up queues the new part of the cache; what it leaves out is of a group older than the cache's. */
  lemma CatchUpKeeps(t: Track, c: Cursor)
    requires CacheOk(t) && CursorOk(t.history, c)
    ensures CursorOk(t.history, CaughtUp(t, c))
  {
    var d := CaughtUp(t, c);
    if c.epoch < t.epoch {
      var first := |t.history| - |t.objects|;
      var low := first + NewFrom(t, c);
      var added := Positions(low, |t.history|);
      assert low == if c.epoch >= first then c.epoch else first;
      assert d.out + d.pending == (c.out + c.pending) + added;
      LastGroup(t);
      AddedDistinct(c.out + c.pending, added, c.epoch, low);
      forall p | c.start <= p < d.epoch && p !in d.out + d.pending
        ensures t.history[p].group < t.history[d.epoch - 1].group
      {
        NotAdded(p, added, low);
        assert p < low;
        if p < c.epoch { GroupsGrow(t, c.epoch - 1); }
      }
    }
  }

  lemma AddedDistinct(s: seq<nat>, added: seq<nat>, high: nat, low: nat)
    requires Distinct(s) && (forall p | p in s :: p < high) && high <= low
    requires forall i | 0 <= i < |added| :: added[i] == low + i
    ensures Distinct(s + added)
    ensures forall p | p in s + added :: p in s || low <= p < low + |added|
  {
    assert forall i | 0 <= i < |s| :: s[i] in s;
  }

  lemma NotAdded(p: nat, added: seq<nat>, low: nat)
    requires forall i | 0 <= i < |added| :: added[i] == low + i
    ensures low <= p < low + |added| ==> p in added
  {
    if low <= p < low + |added| { assert added[p - low] == p; }
  }

  lemma LastGroup(t: Track)
    requires CacheOk(t) && t.history != []
    ensures t.history[|t.history| - 1].group == t.objects[0].group
  {
    assert t.objects[|t.objects| - 1] == t.history[|t.history| - 1];
  }

  lemma GroupsGrow(t: Track, p: nat)
    requires CacheOk(t) && p < |t.history|
    ensures t.history[p].group <= t.history[|t.history| - 1].group
  {
    LastGroup(t);
    var first := |t.history| - |t.objects|;
    if p >= first { assert t.history[p] == t.objects[p - first]; }
  }

  lemma TakeKeeps(history: seq<Object>, c: Cursor, at: nat)
    requires CursorOk(history, c) && at < |c.pending|
    ensures CursorOk(history, TakeAt(c, at))
  {
    var d := TakeAt(c, at);
    var before, after := c.out + c.pending, d.out + d.pending;
    forall p ensures p in after <==> p in before {
      Moved(c, at, p);
    }
    forall i, j | 0 <= i < j < |after| ensures after[i] != after[j] {
      assert after[i] == before[Origin(|c.out|, at, i)] && after[j] == before[Origin(|c.out|, at, j)];
    }
  }

  /** Where an entry stood before the one at `at` was moved to the end of the returned ones. */
  function Origin(n: nat, at: nat, i: nat): nat {
    if i < n then i else if i == n then n + at else if i <= n + at then i - 1 else i
  }

  lemma Moved(c: Cursor, at: nat, p: nat)
    requires at < |c.pending|
    ensures p in TakeAt(c, at).out + TakeAt(c, at).pending <==> p in c.out + c.pending
  {
    assert c.pending == c.pending[..at] + [c.pending[at]] + c.pending[at + 1..];
  }

  lemma StepKeeps(t: Track, op: Op)
    requires Inv(t) && Enabled(t, op)
    ensures Inv(Apply(t, op))
  {
    hide CacheOk, CursorOk, Creating, CaughtUp, TakeAt, IsBest;
    var u := Apply(t, op);
    match op
    case Create(o) =>
      CacheKept(t, o);
      CreatingKeepsReaders(t, o);
      forall r | r in u.readers ensures CursorOk(u.history, u.readers[r]) { CursorStays(t, o, t.readers[r]); }
    case CatchUp(r) => CatchUpKeeps(t, t.readers[r]); SameCache(t, u);
    case Take(r, at) => TakeKeeps(t.history, t.readers[r], at); SameCache(t, u);
    case _ => SameCache(t, u);
  }

  lemma CreatingKeepsReaders(t: Track, o: Object)
    ensures Creating(t, o).readers == t.readers
  {
  }

  lemma SameCache(t: Track, u: Track)
    requires CacheOk(t) && u.objects == t.objects && u.epoch == t.epoch && u.history == t.history
    ensures CacheOk(u)
  {
  }

  lemma {:induction false} RunKeeps(t: Track, ops: seq<Op>)
    requires Inv(t)
    ensures Exec(t, ops).Some? ==> Inv(Exec(t, ops).value)
    decreases |ops|
  {
    hide Inv, Apply, Enabled;
    if ops != [] && Enabled(t, ops[0]) {
      StepKeeps(t, ops[0]);
      RunKeeps(Apply(t, ops[0]), ops[1..]);
    }
  }

  ghost predicate Reachable(t: Track) {
    exists ops :: Exec(Start(), ops) == Some(t)
  }

  lemma ReachableOk(t: Track)
    requires Reachable(t)
    ensures Inv(t)
  {
    StartOk();
    hide Inv, Apply, Enabled, Start;
    var ops :| Exec(Start(), ops) == Some(t);
    RunKeeps(Start(), ops);
  }

  lemma StartOk()
    ensures Inv(Start())
  {
    var none: seq<nat> := [];
    assert none + none == [];
    assert CursorOk([], Cursor(0, 0, none, none));
    hide CursorOk;
  }

  /** In every run the cache is a suffix of the log of accepted objects and holds only the largest group of it. */
  lemma CacheIsNewestGroup(t: Track)
    requires Reachable(t)
    ensures |t.objects| <= |t.history| && t.objects == t.history[|t.history| - |t.objects|..]
    ensures forall i, p | 0 <= i < |t.objects| && 0 <= p < |t.history| :: t.history[p].group <= t.objects[i].group
    ensures forall p | 0 <= p < |t.history| - |t.objects| :: t.history[p].group < t.history[|t.history| - 1].group
  {
    ReachableOk(t);
    if t.history != [] {
      LastGroup(t);
      forall p | 0 <= p < |t.history| ensures t.history[p].group <= t.objects[0].group { GroupsGrow(t, p); }
    }
  }

  /** No object accepted so far is of a newer group. */
  ghost predicate NotOlder(history: seq<Object>, o: Object) {
    forall p | 0 <= p < |history| :: history[p].group <= o.group
  }

  /** What the creates among some steps should add: every object that is of no older group than one accepted before. */
  ghost function Kept(history: seq<Object>, ops: seq<Op>): seq<Object>
    decreases |ops|
  {
    if ops == [] then []
    else if ops[0].Create? && NotOlder(history, ops[0].object_)
    then [ops[0].object_] + Kept(history + [ops[0].object_], ops[1..])
    else Kept(history, ops[1..])
  }

  /** A create while both halves live: an object of no older group goes last into the cache, any other is passed over. */
  lemma CreateKeepsNewest(t: Track, o: Object)
    requires Inv(t) && !Dropped(t)
    ensures Enabled(t, Create(o))
    ensures var u := Apply(t, Create(o));
            if NotOlder(t.history, o) then
              && u == t.(objects := u.objects, epoch := t.epoch + 1, history := t.history + [o])
              && u.objects != [] && u.objects[|u.objects| - 1] == o
              && (t.objects != [] && t.objects[0].group == o.group ==> u.objects == t.objects + [o])
            else u == t
  {
    CacheEntries(t);
    hide CursorOk;
    if t.history != [] { assert t.history[|t.history| - 1].group == t.objects[0].group; }
  }

  /**
   * Over any steps of a reachable track the log of accepted objects grows, while both halves live, by exactly those
   * created objects that are of no older group than one accepted before them; once a half is gone by none.
   */
  lemma {:induction false} AcceptsNewest(t: Track, ops: seq<Op>)
    requires Inv(t) && Exec(t, ops).Some?
    ensures var m := Exec(t, ops).value;
            && (Dropped(t) ==> Dropped(m) && m.history == t.history)
            && (!Dropped(m) ==> m.history == t.history + Kept(t.history, ops))
    decreases |ops|
  {
    hide Apply, Inv, Enabled, NotOlder, Dropped;
    if ops != [] {
      StepKeeps(t, ops[0]);
      AcceptsOne(t, ops[0]);
      AcceptsNewest(Apply(t, ops[0]), ops[1..]);
      KeptStep(t.history, ops);
    } else {
      assert t.history + [] == t.history;
    }
  }

  ghost function KeptOf(history: seq<Object>, op: Op): seq<Object> {
    if op.Create? && NotOlder(history, op.object_) then [op.object_] else []
  }

  lemma KeptStep(history: seq<Object>, ops: seq<Op>)
    requires ops != []
    ensures history + Kept(history, ops)
            == (history + KeptOf(history, ops[0])) + Kept(history + KeptOf(history, ops[0]), ops[1..])
  {
    hide NotOlder;
    assert history + [] == history;
  }

  lemma AcceptsOne(t: Track, op: Op)
    requires Inv(t) && Enabled(t, op)
    ensures var u := Apply(t, op);
            && u.history == (if Dropped(t) then t.history else t.history + KeptOf(t.history, op))
            && (Dropped(t) ==> Dropped(u))
  {
    OnlyCreatesAccept(t, op);
    if op.Create? && !Dropped(t) { CreateKeepsNewest(t, op.object_); }
    hide Apply, Inv, NotOlder, Dropped;
    assert t.history + [] == t.history;
  }

  lemma OnlyCreatesAccept(t: Track, op: Op)
    requires Enabled(t, op)
    ensures var u := Apply(t, op);
            && (!op.Create? || Dropped(t) ==> u.history == t.history && u.epoch == t.epoch && u.objects == t.objects)
            && (Dropped(t) ==> Dropped(u))
  {
    hide IsBest, CaughtUp, TakeAt;
  }

  /** From the start of a track on: what was accepted, and how often the epoch moved, follows from the creates alone. */
  lemma AcceptedFromCreates(ops: seq<Op>)
    requires Exec(Start(), ops).Some? && !Dropped(Exec(Start(), ops).value)
    ensures var t := Exec(Start(), ops).value;
            t.history == Kept([], ops) && t.epoch == |Kept([], ops)|
  {
    StartOk();
    AcceptsNewest(Start(), ops);
    RunKeeps(Start(), ops);
    assert [] + Kept([], ops) == Kept([], ops);
    hide Exec, CursorOk;
  }

  /** Catching up queues every entry of the newest group that the reader has not seen, and no other. */
  lemma CatchUpTakesNewest(t: Track, r: nat)
    requires Inv(t) && r in t.readers
    ensures Enabled(t, CatchUp(r))
    ensures var c, d := t.readers[r], Apply(t, CatchUp(r)).readers[r];
            && c.epoch <= |t.history| && d.epoch == |t.history| && d.out == c.out && d.start == c.start
            && c.pending <= d.pending
            && forall p :: p in d.pending[|c.pending|..]
                           <==> c.epoch <= p < |t.history| && t.history[p].group == t.history[|t.history| - 1].group
  {
    var c, d := t.readers[r], Apply(t, CatchUp(r)).readers[r];
    assert CursorOk(t.history, c);
    CaughtUpIs(t, c);
    CacheEntries(t);
    if c.epoch < t.epoch {
      LastGroup(t);
      var low := |t.history| - |t.objects| + NewFrom(t, c);
      var added := Positions(low, |t.history|);
      assert d.pending[|c.pending|..] == added;
      forall p | low <= p < |t.history| ensures p in added { NotAdded(p, added, low); }
    } else {
      assert d.pending[|c.pending|..] == [];
    }
  }

  /**
   * In every run a reader queues each entry of the log at most once, and passes over an entry only if it is of a
   * strictly older group than the last one the reader has seen.
   */
  lemma ReadersSkipOnlyOlder(t: Track, r: nat)
    requires Reachable(t) && r in t.readers
    ensures var c := t.readers[r];
            && c.epoch <= |t.history| && Distinct(c.out + c.pending)
            && (forall p | c.start <= p < c.epoch ::
                  p in c.out || p in c.pending || t.history[p].group < t.history[c.epoch - 1].group)
  {
    ReachableOk(t);
    assert CursorOk(t.history, t.readers[r]);
  }

  /** Entry `q` of the log is not more urgent than entry `p`. */
  predicate NotSooner(history: seq<Object>, p: nat, q: nat) {
    p < |history| && q < |history| && Compare(history[p], history[q]) != Less
  }

  /** Log entries, none of them more urgent than one before it. */
  ghost predicate InOrder(history: seq<Object>, taken: seq<nat>) {
    forall i, j | 0 <= i < j < |taken| :: NotSooner(history, taken[i], taken[j])
  }

  /** No entry of `later` is more urgent than one of `taken`. */
  ghost predicate NoneSooner(history: seq<Object>, taken: seq<nat>, later: seq<nat>) {
    forall p, q | p in taken && q in later :: NotSooner(history, p, q)
  }

  /** A step in which reader `r` neither catches up nor goes away. */
  predicate Between(r: nat, op: Op) {
    op != CatchUp(r) && op != DropReader(r)
  }

  /** What such a step does to the reader: nothing, or it takes the best of what is queued. */
  lemma OneBetween(t: Track, r: nat, op: Op)
    requires r in t.readers && Enabled(t, op) && Between(r, op)
    ensures var u := Apply(t, op);
            && r in u.readers && t.history <= u.history
            && (if op.Take? && op.reader == r then u.readers[r] == TakeAt(t.readers[r], op.at)
                else u.readers[r] == t.readers[r])
  {
    hide IsBest, CaughtUp, TakeAt;
  }

  lemma TakenOut(c: Cursor, at: nat)
    requires at < |c.pending|
    ensures multiset(c.pending) == multiset([c.pending[at]]) + multiset(TakeAt(c, at).pending)
    ensures forall p :: p in c.pending <==> p == c.pending[at] || p in TakeAt(c, at).pending
  {
    assert c.pending == c.pending[..at] + [c.pending[at]] + c.pending[at + 1..];
  }

  /** The best of a queue is not less urgent than any other entry of it, then and later. */
  lemma BestStays(t: Track, pending: seq<nat>, at: nat, p: nat, history: seq<Object>)
    requires at < |pending| && (forall i | 0 <= i < |pending| :: pending[i] < |t.history|)
    requires IsBest(t, pending, at) && t.history <= history && p in pending
    ensures NotSooner(history, pending[at], p)
  {
    hide Compare;
    var i :| 0 <= i < |pending| && pending[i] == p;
    assert history[p] == t.history[p] && history[pending[at]] == t.history[pending[at]];
  }

  /** What is taken first goes before what is taken later if nothing of that, and nothing left, is more urgent. */
  lemma FirstGoesFirst(history: seq<Object>, x: nat, later: seq<nat>, left: seq<nat>)
    requires InOrder(history, later) && NoneSooner(history, later, left)
    requires forall p | p in later + left :: NotSooner(history, x, p)
    ensures InOrder(history, [x] + later) && NoneSooner(history, [x] + later, left)
  {
    hide NotSooner;
    var taken := [x] + later;
    assert forall p | p in taken :: p == x || p in later;
    forall i, j | 0 <= i < j < |taken| ensures NotSooner(history, taken[i], taken[j]) {
      assert taken[j] == later[j - 1] && later[j - 1] in later + left;
      if i > 0 { assert taken[i] == later[i - 1]; }
    }
    forall p, q | p in taken && q in left ensures NotSooner(history, p, q) {
      assert q in later + left;
    }
  }

  /** One take, followed by takes that come sorted. */
  lemma TakeThen(t: Track, r: nat, at: nat, later: seq<nat>, left: seq<nat>, history: seq<Object>)
    requires Enabled(t, Take(r, at)) && t.history <= history
    requires InOrder(history, later) && NoneSooner(history, later, left)
    requires multiset(TakeAt(t.readers[r], at).pending) == multiset(later) + multiset(left)
    ensures var c := t.readers[r];
            && InOrder(history, [c.pending[at]] + later) && NoneSooner(history, [c.pending[at]] + later, left)
            && multiset(c.pending) == multiset([c.pending[at]] + later) + multiset(left)
            && TakeAt(c, at).out + later == c.out + ([c.pending[at]] + later)
  {
    var c := t.readers[r];
    TakenOut(c, at);
    SameMembers(TakeAt(c, at).pending, later, left);
    hide IsBest, InOrder, NoneSooner, NotSooner;
    forall p | p in later + left ensures NotSooner(history, c.pending[at], p) {
      BestStays(t, c.pending, at, p, history);
    }
    FirstGoesFirst(history, c.pending[at], later, left);
  }

  /**
   * Between two catch-ups a reader's objects come out sorted, whatever writer and other readers do meanwhile:
   * what it takes and what stays queued is what was queued, none of it taken after something less urgent, and
   * nothing left behind that is more urgent. So taking everything sorts the queue.
   */
  lemma {:induction false} TakesComeSorted(t: Track, r: nat, ops: seq<Op>) returns (taken: seq<nat>)
    requires r in t.readers && Exec(t, ops).Some?
    requires forall i | 0 <= i < |ops| :: Between(r, ops[i])
    ensures var u := Exec(t, ops).value;
            && r in u.readers && t.history <= u.history
            && u.readers[r].out == t.readers[r].out + taken
            && multiset(t.readers[r].pending) == multiset(taken) + multiset(u.readers[r].pending)
            && InOrder(u.history, taken) && NoneSooner(u.history, taken, u.readers[r].pending)
    decreases |ops|
  {
    hide Apply, Enabled, NotSooner, TakeAt;
    taken := [];
    assert t.readers[r].out + taken == t.readers[r].out;
    if ops != [] {
      var op := ops[0];
      OneBetween(t, r, op);
      assert forall i | 0 <= i < |ops[1..]| :: ops[1..][i] == ops[i + 1];
      hide InOrder, NoneSooner;
      taken := TakesComeSorted(Apply(t, op), r, ops[1..]);
      if op.Take? && op.reader == r {
        var u := Exec(t, ops).value;
        TakeThen(t, r, op.at, taken, u.readers[r].pending, u.history);
        AtIsQueued(t, op);
        taken := [t.readers[r].pending[op.at]] + taken;
      }
    }
  }

  lemma AtIsQueued(t: Track, op: Op)
    requires op.Take? && Enabled(t, op)
    ensures op.reader in t.readers && op.at < |t.readers[op.reader].pending|
  {
  }

  lemma SameMembers(s: seq<nat>, a: seq<nat>, b: seq<nat>)
    requires multiset(s) == multiset(a) + multiset(b)
    ensures forall p | p in a + b :: p in s
  {
    forall p | p in a + b ensures p in s {
      assert p in multiset(a) + multiset(b);
    }
  }

  // --- the objects of the program ---

  class Shared {
    var objects: seq<Object>
    var epoch: nat
    var closed: Option<F.ServeError>
    var writerGone: bool
    var readersGone: bool
    ghost var history: seq<Object>

    constructor ()
      ensures objects == [] && epoch == 0 && history == [] && !writerGone && !readersGone
    {
      objects, epoch, closed, writerGone, readersGone, history := [], 0, None, false, false, [];
    }

    ghost function Model(): Track
      reads this
    {
      Track(objects, epoch, closed, writerGone, if readersGone then map[] else map[0 := Cursor(0, 0, [], [])], history)
    }
  }

  method CreateObject(state: Shared, o: Object) returns (r: Result<(), F.ServeError>)
    modifies state`objects, state`epoch, state`history
    ensures state.writerGone || state.readersGone ==>
              && r == Failure(F.Cancel)
              && state.objects == old(state.objects) && state.epoch == old(state.epoch) && state.history == old(state.history)
    ensures !state.writerGone && !state.readersGone ==>
              && r == Success(())
              && var objects := old(state.objects);
                 if objects != [] && o.group < objects[0].group then
                   state.objects == objects && state.epoch == old(state.epoch) && state.history == old(state.history)
                 else
                   && state.objects == (if objects != [] && o.group > objects[0].group then [o] else objects + [o])
                   && state.epoch == old(state.epoch) + 1 && state.history == old(state.history) + [o]
    ensures state.Model() == Creating(old(state.Model()), o)
    ensures r == if Dropped(old(state.Model())) then Failure(F.Cancel) else Success(())
  {
    assert !state.readersGone ==> 0 in state.Model().readers;
    if state.writerGone || state.readersGone { return Failure(F.Cancel); }
    if state.objects != [] {
      var first := state.objects[0];
      if o.group < first.group { return Success(()); }
      if o.group > first.group { state.objects := []; }
    }
    state.objects := state.objects + [o];
    state.epoch := state.epoch + 1;
    state.history := state.history + [o];
    return Success(());
  }

  datatype NextResult = Item(object_: Object) | End | Error(error: F.ServeError) | Waits

  /** The place of the most urgent entry of a queue. */
  method Best(pending: seq<Object>) returns (at: nat)
    requires pending != []
    ensures at < |pending|
    ensures forall i | 0 <= i < |pending| :: Compare(pending[at], pending[i]) != Less
  {
    hide Compare;
    at := 0;
    CompareIsTotal(pending[0], pending[0], pending[0]);
    var i := 1;
    while i < |pending|
      invariant 1 <= i <= |pending| && at < i
      invariant forall j | 0 <= j < i :: Compare(pending[at], pending[j]) != Less
    {
      CompareIsTotal(pending[i], pending[i], pending[i]);
      if Compare(pending[at], pending[i]) == Less {
        forall j | 0 <= j < i ensures Compare(pending[i], pending[j]) != Less {
          CompareIsTotal(pending[at], pending[i], pending[j]);
          CompareIsTotal(pending[i], pending[at], pending[j]);
        }
        at := i;
      }
      i := i + 1;
    }
  }

  /** Queued objects and their places in the log. */
  ghost predicate Match(history: seq<Object>, pending: seq<Object>, positions: seq<nat>) {
    && |pending| == |positions|
    && (forall i | 0 <= i < |pending| :: positions[i] < |history| && pending[i] == history[positions[i]])
  }

  lemma MatchCached(t: Track, pending: seq<Object>, positions: seq<nat>, index: nat)
    requires CacheOk(t) && Match(t.history, pending, positions) && index <= |t.objects|
    ensures Match(t.history, pending + t.objects[index..],
                  positions + Positions(|t.history| - |t.objects| + index, |t.history|))
  {
    var first := |t.history| - |t.objects|;
    assert forall k | 0 <= k < |t.objects| :: t.objects[k] == t.history[first + k];
  }

  lemma CaughtUpIs(t: Track, c: Cursor)
    requires c.epoch <= t.epoch && |t.objects| <= |t.history|
    ensures c.epoch == t.epoch ==> CaughtUp(t, c) == c
    ensures c.epoch < t.epoch ==>
              var behind := t.epoch - c.epoch;
              var index := if behind <= |t.objects| then |t.objects| - behind else 0;
              CaughtUp(t, c) == c.(epoch := t.epoch,
                                   pending := c.pending + Positions(|t.history| - |t.objects| + index, |t.history|))
  {
  }

  lemma Bounds(t: Track, c: Cursor)
    requires CacheOk(t) && CursorOk(t.history, c)
    ensures c.epoch <= t.epoch && |t.objects| <= |t.history|
  {
  }

  lemma MatchRemove(history: seq<Object>, pending: seq<Object>, positions: seq<nat>, at: nat)
    requires Match(history, pending, positions) && at < |pending|
    ensures Match(history, pending[..at] + pending[at + 1..], positions[..at] + positions[at + 1..])
  {
  }

  class ObjectsReader {
    const state: Shared
    var epoch: nat
    var pending: seq<Object>
    /** Where the queued objects stand in the log, and what was returned. */
    ghost var positions: seq<nat>
    ghost var out: seq<nat>

    constructor (state: Shared)
      ensures this.state == state && Model() == Cursor(0, 0, [], []) && pending == []
    {
      this.state := state;
      epoch, pending, positions, out := 0, [], [], [];
    }

    ghost function Model(): Cursor
      reads this
    {
      Cursor(0, epoch, positions, out)
    }

    ghost predicate Valid()
      reads this, state
    {
      && CacheOk(state.Model()) && CursorOk(state.history, Model())
      && Match(state.history, pending, positions)
    }

    method CatchUp()
      requires Valid()
      modifies this`epoch, this`pending, this`positions
      ensures Valid() && Model() == CaughtUp(state.Model(), old(Model()))
    {
      hide CursorOk, CacheOk, Match, Positions, CaughtUp, NewFrom;
      CatchUpKeeps(state.Model(), Model());
      Bounds(state.Model(), Model());
      CaughtUpIs(state.Model(), Model());
      if epoch < state.epoch {
        var behind := state.epoch - epoch;
        var index := if behind <= |state.objects| then |state.objects| - behind else 0;
        ghost var first := |state.history| - |state.objects|;
        MatchCached(state.Model(), pending, positions, index);
        pending := pending + state.objects[index..];
        positions := positions + Positions(first + index, |state.history|);
        epoch := state.epoch;
      }
    }

    method Remove(at: nat)
      requires Valid() && at < |pending|
      modifies this`pending, this`positions, this`out
      ensures Valid() && Model() == TakeAt(old(Model()), at)
    {
      TakeKeeps(state.history, Model(), at);
      MatchRemove(state.history, pending, positions, at);
      assert |pending| == |positions|;
      hide CursorOk, CacheOk, Match;
      out := out + [positions[at]];
      pending := pending[..at] + pending[at + 1..];
      positions := positions[..at] + positions[at + 1..];
    }

    /** Catches up, then takes the best of the queue; with nothing queued, the error, the end, or a wait. */
    method Next() returns (r: NextResult, ghost at: nat)
      requires Valid()
      modifies this
      ensures Valid()
      ensures var c := CaughtUp(state.Model(), old(Model()));
              if c.pending == [] then
                && Model() == c
                && r == (if state.closed.Some? then Error(state.closed.value)
                         else if state.writerGone || state.readersGone then End else Waits)
              else
                && at < |c.pending| && (forall i | 0 <= i < |c.pending| :: c.pending[i] < |state.history|)
                && IsBest(state.Model(), c.pending, at)
                && Model() == TakeAt(c, at) && r == Item(state.history[c.pending[at]])
    {
      hide CacheOk, CursorOk, CaughtUp, Compare;
      CatchUp();
      at := 0;
      if pending != [] {
        var best := Best(pending);
        at := best;
        r := Item(pending[best]);
        Remove(best);
      } else if state.closed.Some? {
        r := Error(state.closed.value);
      } else {
        r := if state.writerGone || state.readersGone then End else Waits;
      }
    }
  }
}
