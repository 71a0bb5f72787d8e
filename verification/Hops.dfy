/** A subgroup on its way over any number of relays: each stores what it received and serves it on. */
module Hops {
  import opened Wire
  import opened Data
  import opened Reader
  import opened Relay
  import S = Subgroup

  /** What a receiving session has stored of an object that came whole, as it serves it on. */
  function Onward(r: Rebuilt): Stored {
    Stored(r.id, r.size, r.status, r.chunks, true)
  }

  function OnwardAll(got: seq<Rebuilt>): (objects: seq<Stored>)
    ensures |objects| == |got|
  {
    seq(|got|, i requires 0 <= i < |got| => Onward(got[i]))
  }

  /** The objects as a subgroup writer makes them: numbered from 0, with the ordinary status. */
  ghost predicate AsWritten(objects: seq<Stored>) {
    forall i | 0 <= i < |objects| :: objects[i].id == i && objects[i].status == Object
  }

  /** The same identifiers, sizes, statuses and payloads, in whatever chunks. */
  ghost predicate Same(a: seq<Stored>, b: seq<Stored>) {
    && |a| == |b|
    && forall i | 0 <= i < |a| ::
         && a[i].id == b[i].id && a[i].size == b[i].size && a[i].status == b[i].status
         && Flatten(a[i].chunks) == Flatten(b[i].chunks)
  }

  /** One hop: the stream carries what was served, cut anywhere, and `after` is what its receiver stores. */
  ghost predicate Hopped(header: Header, before: seq<Stored>, stream: seq<Bytes>, after: seq<Stored>) {
    && header.Subgroup? && EncodeHeader(header).Success?
    && NonEmpty(stream) && Flatten(stream) == ServeRun(header, before).sent
    && after == OnwardAll(RecvRun([], stream).1)
  }

  /** A chain of hops, each with a header and a cut of its own. */
  ghost predicate Chain(headers: seq<Header>, streams: seq<seq<Bytes>>, stored: seq<seq<Stored>>) {
    && |headers| == |streams| && |stored| == |streams| + 1
    && forall k | 0 <= k < |streams| :: Hopped(headers[k], stored[k], streams[k], stored[k + 1])
  }

  /** What one hop leaves behind is the same again, and fit for the next. */
  lemma OneHop(header: Header, before: seq<Stored>, stream: seq<Bytes>, after: seq<Stored>)
    requires Hopped(header, before, stream, after) && Sendable(before) && AsWritten(before)
    ensures Same(before, after) && Sendable(after) && AsWritten(after)
  {
    hide RecvRun, ServeRun, EncodeHeader, EncodeObject, Flatten, NonEmpty;
    Hop(header, before, stream);
    var got := RecvRun([], stream).1;
    forall i | 0 <= i < |before|
      ensures after[i].id == i && after[i].size == before[i].size && after[i].status == Object
      ensures Flatten(after[i].chunks) == Flatten(before[i].chunks)
      ensures FullyWritten(after[i]) && EncodeObject(HeaderOf(after[i])).Success?
    {
      assert got[0 + i].id == i;
      assert FullyWritten(before[i]) && EncodeObject(HeaderOf(before[i])).Success?;
      assert HeaderOf(after[i]) == HeaderOf(before[i]);
    }
  }

  lemma SameAgain(a: seq<Stored>, b: seq<Stored>, c: seq<Stored>)
    requires Same(a, b) && Same(b, c)
    ensures Same(a, c)
  {
  }

  /** However many hops: every object arrives with its identifier, size, status and payload. */
  lemma {:induction false} Survives(headers: seq<Header>, streams: seq<seq<Bytes>>, stored: seq<seq<Stored>>)
    requires Chain(headers, streams, stored) && Sendable(stored[0]) && AsWritten(stored[0])
    ensures Same(stored[0], stored[|streams|]) && Sendable(stored[|streams|]) && AsWritten(stored[|streams|])
    decreases |streams|
  {
    hide Hopped, Sendable, AsWritten;
    if streams != [] {
      var n := |streams| - 1;
      assert stored[..n + 1][n] == stored[n] && stored[..n + 1][0] == stored[0];
      Survives(headers[..n], streams[..n], stored[..n + 1]);
      OneHop(headers[n], stored[n], streams[n], stored[n + 1]);
      hide Same;
      SameAgain(stored[0], stored[n], stored[n + 1]);
    } else {
      SameAsItself(stored[0]);
    }
  }

  lemma SameAsItself(a: seq<Stored>)
    ensures Same(a, a)
  {
  }

  // --- from the writer on ---

  /** An object of a subgroup's log, as a reader that comes to its end finds it. */
  function Served(o: S.ObjectInfo): Stored
    reads o.data
  {
    Stored(o.id, o.size, o.status, o.data.items, o.data.closed.None? && o.data.writerGone)
  }

  /** The log of a subgroup. */
  function LogOf(w: S.SubgroupWriter): (objects: seq<Stored>)
    reads w.state, set o | o in w.state.items :: o.data
    ensures |objects| == |w.state.items|
  {
    seq(|w.state.items|, i requires 0 <= i < |w.state.items|
                           reads w.state, set o | o in w.state.items :: o.data => Served(w.state.items[i]))
  }

  /**
   * A subgroup written through its writer, each object in full, comes out of any chain of hops with the
   * identifiers it was given, and all else that was written.
   */
  lemma WrittenSurvives(w: S.SubgroupWriter, headers: seq<Header>, streams: seq<seq<Bytes>>, stored: seq<seq<Stored>>)
    requires w.Valid() && Sendable(LogOf(w))
    requires Chain(headers, streams, stored) && stored[0] == LogOf(w)
    ensures |stored[|streams|]| == |w.state.items|
    ensures forall i | 0 <= i < |w.state.items| ::
              var o := stored[|streams|][i];
              && o.id == i && o.status == Object && o.size == w.state.items[i].size
              && Flatten(o.chunks) == Flatten(w.state.items[i].data.items)
  {
    hide Chain, Sendable;
    assert AsWritten(LogOf(w));
    Survives(headers, streams, stored);
  }
}
