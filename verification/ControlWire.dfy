/**
 * Control messages byte by byte: what each message type puts on the wire, against the encoder; and what its decoder
 * refuses.
 */
module ControlWire {
  import opened Wire
  import opened Utf8
  import opened Coding
  import opened Control
  import VarInt

  // --- the pieces ---

  /** Pieces one after the other; the first that cannot be written fails the whole. */
  function All(parts: seq<Encoded>): Encoded {
    if parts == [] then Success([])
    else if parts[0].Failure? then Failure(parts[0].error)
    else
      var others := All(parts[1..]);
      if others.Failure? then others else Success(parts[0].value + others.value)
  }

  function Sized(v: Bytes): Encoded {
    All([VarInt.Encode(|v|), Success(v)])
  }

  function TupleBytes(ns: Names): Encoded {
    All([VarInt.Encode(|ns|)] + seq(|ns|, i requires 0 <= i < |ns| => Sized(ns[i])))
  }

  function ParamBytes(p: Params, order: seq<nat>): Encoded {
    All([VarInt.Encode(|order|)] + EntryBytes(p, order))
  }

  function EntryBytes(p: Params, order: seq<nat>): (r: seq<Encoded>)
    ensures |r| == |order|
  {
    seq(|order|, i requires 0 <= i < |order| => All([VarInt.Encode(order[i]), Sized(if order[i] in p then p[order[i]] else [])]))
  }

  function LocationBytes(l: Location): Encoded {
    match l
    case NoLocation => Success([0])
    case Absolute(v) => All([Success([1]), VarInt.Encode(v)])
    case Latest(v) => All([Success([2]), VarInt.Encode(v)])
    case Future(v) => All([Success([3]), VarInt.Encode(v)])
  }

  function PairBytes(p: Pair): Encoded {
    All([LocationBytes(p.group), LocationBytes(p.item)])
  }

  /** Either absolute filter is written with both pairs, and not at all without. */
  function WindowBytes(w: Window): Encoded {
    match w.filter
    case LatestGroup => Success([1])
    case LatestObject => Success([2])
    case AbsoluteStart =>
      if w.start.None? || w.end.None? then Failure(FieldMissing)
      else All([Success([3]), PairBytes(w.start.value), PairBytes(w.end.value)])
    case AbsoluteRange =>
      if w.start.None? || w.end.None? then Failure(FieldMissing)
      else All([Success([4]), PairBytes(w.start.value), PairBytes(w.end.value)])
  }

  function LargestBytes(l: Option<(nat, nat)>): Encoded {
    match l
    case None => Success([0])
    case Some((group, item)) => All([Success([1]), VarInt.Encode(group), VarInt.Encode(item)])
  }

  function OrderByte(o: GroupOrder): Encoded {
    match o
    case Publisher => Success([0])
    case Ascending => Success([1])
    case Descending => Success([2])
  }

  function StatusByte(c: TrackStatusCode): Encoded {
    match c
    case InProgress => Success([0])
    case DoesNotExist => Success([1])
    case NotYetBegun => Success([2])
    case Finished => Success([3])
    case Relay => Success([4])
  }

  /** The type and the pieces of the body of every message, in the order of the draft. */
  function Image(m: Message, o: seq<nat>): (Byte, seq<Encoded>) {
    match m
    case SubscribeUpdate(id, alias, namespace, name, priority, order, window, params) =>
      (0x02, [VarInt.Encode(id), VarInt.Encode(alias), TupleBytes(namespace), Sized(name), Success([priority]),
              OrderByte(order), WindowBytes(window), ParamBytes(params, o)])
    case Subscribe(id, alias, namespace, name, priority, order, window, params) =>
      (0x03, [VarInt.Encode(id), VarInt.Encode(alias), TupleBytes(namespace), Sized(name), Success([priority]),
              OrderByte(order), WindowBytes(window), ParamBytes(params, o)])
    case SubscribeOk(id, expires, order, latest) =>
      (0x04, [VarInt.Encode(id), VarInt.Encode(if expires.Some? then expires.value else 0), OrderByte(order),
              LargestBytes(latest), Success([0])])
    case SubscribeError(id, code, reason, alias) =>
      (0x05, [VarInt.Encode(id), VarInt.Encode(code), Sized(reason), VarInt.Encode(alias)])
    case Announce(namespace, params) => (0x06, [TupleBytes(namespace), ParamBytes(params, o)])
    case AnnounceOk(namespace) => (0x07, [TupleBytes(namespace)])
    case AnnounceError(namespace, code, reason) => (0x08, [TupleBytes(namespace), VarInt.Encode(code), Sized(reason)])
    case Unannounce(namespace) => (0x09, [TupleBytes(namespace)])
    case Unsubscribe(id) => (0x0a, [VarInt.Encode(id)])
    case SubscribeDone(id, code, reason, last) =>
      (0x0b, [VarInt.Encode(id), VarInt.Encode(code), Sized(reason), LargestBytes(last)])
    case AnnounceCancel(namespace, code, reason) => (0x0c, [TupleBytes(namespace), VarInt.Encode(code), Sized(reason)])
    case TrackStatusRequest(namespace, name) => (0x0d, [TupleBytes(namespace), Sized(name)])
    case TrackStatus(namespace, name, status, lastGroup, lastObject) =>
      (0x0e, [TupleBytes(namespace), Sized(name), StatusByte(status), VarInt.Encode(lastGroup), VarInt.Encode(lastObject)])
    case GoAway(url) => (0x10, [Sized(url)])
    case SubscribeNamespace(namespace, params) => (0x11, [TupleBytes(namespace), ParamBytes(params, o)])
    case SubscribeNamespaceOk(namespace) => (0x12, [TupleBytes(namespace)])
    case SubscribeNamespaceError(namespace, code, reason) =>
      (0x13, [TupleBytes(namespace), VarInt.Encode(code), Sized(reason)])
    case UnsubscribeNamespace(namespace) => (0x14, [TupleBytes(namespace)])
    case MaxSubscribeId(id) => (0x15, [VarInt.Encode(id)])
    case Fetch(id, namespace, name, priority, order, startGroup, startObject, endGroup, endObject, params) =>
      (0x16, [VarInt.Encode(id), TupleBytes(namespace), Sized(name), Success([priority]), OrderByte(order),
              VarInt.Encode(startGroup), VarInt.Encode(startObject), VarInt.Encode(endGroup), VarInt.Encode(endObject),
              ParamBytes(params, o)])
    case FetchCancel(id) => (0x17, [VarInt.Encode(id)])
    case FetchOk(id, groupOrder, endOfTrack, largestGroup, largestObject, params) =>
      (0x18, [VarInt.Encode(id), Success([groupOrder]), Success([endOfTrack]), VarInt.Encode(largestGroup),
              VarInt.Encode(largestObject), ParamBytes(params, o)])
    case FetchError(id, code, reason) => (0x19, [VarInt.Encode(id), VarInt.Encode(code), Sized(reason)])
  }

  // --- the encoder writes them ---

  lemma AllOne(a: Encoded)
    ensures All([a]) == a
  {
    assert [a][1..] == [];
    if a.Success? { assert a.value + [] == a.value; }
  }

  lemma AllTwo(a: Encoded, b: Encoded)
    ensures All([a, b]) == if a.Failure? then a else if b.Failure? then b else Success(a.value + b.value)
  {
    assert [a, b][1..] == [b];
    AllOne(b);
  }

  lemma AllThree(a: Encoded, b: Encoded, c: Encoded)
    ensures All([a, b, c]) == if a.Failure? then a else if b.Failure? then b else if c.Failure? then c
                              else Success(a.value + (b.value + c.value))
  {
    assert [a, b, c][1..] == [b, c];
    AllTwo(b, c);
  }

  lemma SizedAs(v: Bytes)
    ensures EncodeBlob(v) == Sized(v)
  {
    hide VarInt.Encode;
    AllTwo(VarInt.Encode(|v|), Success(v));
  }

  lemma {:induction false} BlobsAs(ns: Names)
    ensures EncodeBlobs(ns) == All(seq(|ns|, i requires 0 <= i < |ns| => Sized(ns[i])))
  {
    hide Sized, EncodeBlob;
    var parts := seq(|ns|, i requires 0 <= i < |ns| => Sized(ns[i]));
    if ns != [] {
      SizedAs(ns[0]);
      BlobsAs(ns[1..]);
      assert parts[1..] == seq(|ns[1..]|, i requires 0 <= i < |ns[1..]| => Sized(ns[1..][i]));
    }
  }

  lemma TupleAs(ns: Names)
    ensures EncodeTuple(ns) == TupleBytes(ns)
  {
    hide Sized, VarInt.Encode;
    BlobsAs(ns);
    var parts := seq(|ns|, i requires 0 <= i < |ns| => Sized(ns[i]));
    assert ([VarInt.Encode(|ns|)] + parts)[1..] == parts;
  }

  lemma {:induction false} EntriesAs(p: Params, order: seq<nat>)
    requires forall k | k in order :: k in p
    ensures EncodeEntries(p, order) == All(EntryBytes(p, order))
    decreases |order|
  {
    hide Sized, EncodeBlob, VarInt.Encode;
    if order != [] {
      var k := order[0];
      SizedAs(p[k]);
      AllTwo(VarInt.Encode(k), Sized(p[k]));
      EntriesAs(p, order[1..]);
      assert EntryBytes(p, order)[1..] == EntryBytes(p, order[1..]);
    }
  }

  lemma ParamsAs(p: Params, order: seq<nat>)
    requires forall k | k in order :: k in p
    ensures EncodeParams(p, order) == ParamBytes(p, order)
  {
    hide EntryBytes, EncodeEntries, VarInt.Encode;
    EntriesAs(p, order);
    assert ([VarInt.Encode(|order|)] + EntryBytes(p, order))[1..] == EntryBytes(p, order);
  }

  lemma Small(x: nat)
    requires x < 64
    ensures VarInt.Encode(x) == Success([x])
  {
    var high := VarInt.BigEndian(x / 256, 0);
    assert high == [];
    assert VarInt.BigEndian(x, 1) == high + [x % 256] == [x];
  }

  lemma LocationAs(l: Location)
    ensures EncodeLocation(l) == LocationBytes(l)
  {
    hide VarInt.Encode, All;
    Small(LocationId(l));
    match l
    case NoLocation =>
    case Absolute(v) => AllTwo(Success([1]), VarInt.Encode(v));
    case Latest(v) => AllTwo(Success([2]), VarInt.Encode(v));
    case Future(v) => AllTwo(Success([3]), VarInt.Encode(v));
  }

  lemma PairAs(p: Pair)
    ensures EncodePair(p) == PairBytes(p)
  {
    hide LocationBytes, EncodeLocation, All;
    LocationAs(p.group);
    LocationAs(p.item);
    AllTwo(LocationBytes(p.group), LocationBytes(p.item));
  }

  lemma WindowAs(w: Window)
    ensures EncodeWindow(w) == WindowBytes(w)
  {
    hide VarInt.Encode, PairBytes, EncodePair, All;
    Small(FilterId(w.filter));
    if w.start.Some? && w.end.Some? {
      PairAs(w.start.value);
      PairAs(w.end.value);
      AllThree(Success([3]), PairBytes(w.start.value), PairBytes(w.end.value));
      AllThree(Success([4]), PairBytes(w.start.value), PairBytes(w.end.value));
    }
  }

  lemma LargestAs(l: Option<(nat, nat)>)
    ensures EncodeLargest(l) == LargestBytes(l)
  {
    hide VarInt.Encode, All;
    if l.Some? { AllThree(Success([1]), VarInt.Encode(l.value.0), VarInt.Encode(l.value.1)); }
  }

  /** One field of a message. */
  function FieldBytes(f: Field, order: seq<nat>): Encoded {
    match f
    case Number(n) => VarInt.Encode(n)
    case Octet(o) => Success([o])
    case Str(t) => Sized(t)
    case Tuple(ns) => TupleBytes(ns)
    case Order(o) => OrderByte(o)
    case Status(c) => StatusByte(c)
    case Expiry(e) => VarInt.Encode(if e.Some? then e.value else 0)
    case Largest(l) => LargestBytes(l)
    case Range(w) => WindowBytes(w)
    case Parameters(p) => ParamBytes(p, order)
    case Reserved => Success([0])
  }

  lemma FieldAs(f: Field, order: seq<nat>)
    requires OrderFor(f, order)
    ensures EncodeField(f, order) == FieldBytes(f, order)
  {
    hide VarInt.Encode, EncodeBlob, Sized, EncodeTuple, TupleBytes, EncodeParams, ParamBytes, EncodeWindow, WindowBytes,
      EncodeLargest, LargestBytes;
    match f
    case Str(t) => SizedAs(t);
    case Tuple(ns) => TupleAs(ns);
    case Status(c) => Small(StatusId(c));
    case Largest(l) => LargestAs(l);
    case Range(w) => WindowAs(w);
    case Parameters(p) => ParamsAs(p, order);
    case _ =>
  }

  function AllBytes(fields: seq<Field>, order: seq<nat>): (r: seq<Encoded>)
    ensures |r| == |fields| && forall i | 0 <= i < |fields| :: r[i] == FieldBytes(fields[i], order)
  {
    seq(|fields|, i requires 0 <= i < |fields| => FieldBytes(fields[i], order))
  }

  lemma {:induction false} FieldsAs(fields: seq<Field>, order: seq<nat>)
    requires OrderForAll(fields, order)
    ensures EncodeFields(fields, order) == All(AllBytes(fields, order))
    decreases |fields|
  {
    hide EncodeField, FieldBytes;
    if fields != [] {
      FieldAs(fields[0], order);
      FieldsAs(fields[1..], order);
      assert AllBytes(fields, order)[1..] == AllBytes(fields[1..], order);
    }
  }

  lemma ImageLow(m: Message, order: seq<nat>)
    requires TypeId(m) <= 0x8
    ensures Image(m, order) == (TypeId(m), AllBytes(Fields(m), order))
  {
    hide VarInt.Encode, Sized, TupleBytes, OrderByte, StatusByte, LargestBytes, WindowBytes, ParamBytes;
    assert Image(m, order).1 == AllBytes(Fields(m), order);
  }

  lemma ImageHigh(m: Message, order: seq<nat>)
    requires TypeId(m) > 0x8
    ensures Image(m, order) == (TypeId(m), AllBytes(Fields(m), order))
  {
    hide VarInt.Encode, Sized, TupleBytes, OrderByte, StatusByte, LargestBytes, WindowBytes, ParamBytes;
    assert Image(m, order).1 == AllBytes(Fields(m), order);
  }

  /** What a message is on the wire: its type, the length of its body, and the body; or why it cannot be written. */
  lemma EncodesAs(m: Message, order: seq<nat>)
    requires OrderForAll(Fields(m), order)
    ensures var (code, parts) := Image(m, order);
            var body := All(parts);
            EncodeMessage(m, order)
            == if body.Failure? then body
               else if VarInt.Encode(|body.value|).Failure? then VarInt.Encode(|body.value|)
               else Success([code] + (VarInt.Encode(|body.value|).value + body.value))
  {
    hide Image, Fields, All, EncodeFields, VarInt.Encode, TypeId;
    if TypeId(m) <= 0x8 { ImageLow(m, order); } else { ImageHigh(m, order); }
    FieldsAs(Fields(m), order);
    CodesSmall(m);
    Small(TypeId(m));
  }

  lemma CodesSmall(m: Message)
    ensures TypeId(m) < 64
  {
  }

  /** What comes back is the message itself, but for the pairs of a latest filter and an expiry of zero. */
  lemma WiredKeeps(m: Message)
    ensures m.Subscribe? || m.SubscribeUpdate? ==>
              Wired(m) == if m.window.filter.LatestGroup? || m.window.filter.LatestObject?
                          then m.(window := Window(m.window.filter, None, None)) else m
    ensures m.SubscribeOk? ==> Wired(m) == if m.expires == Some(0) then m.(expires := None) else m
    ensures !m.Subscribe? && !m.SubscribeUpdate? && !m.SubscribeOk? ==> Wired(m) == m
  {
  }

  // --- what is refused ---

  /** Values that no field of their kind has. */
  lemma BadValues(id: nat, octet: Byte, v: Bytes, tail: Bytes)
    requires id <= VarInt.MAX && |v| <= VarInt.MAX
    ensures VarInt.Encode(id).Success? && VarInt.Encode(|v|).Success?
    ensures var b := VarInt.Encode(id).value + tail;
            && (id > 3 ==> DecodeLocation(b) == Err(InvalidSubscribeLocation))
            && (id !in {1, 2, 3, 4} ==> DecodeField(KRange, b) == Err(InvalidFilterType))
            && (id > 4 ==> DecodeField(KStatus, b) == Err(InvalidTrackStatusCode))
    ensures octet > 2 ==> DecodeField(KOrder, [octet] + tail) == Err(InvalidGroupOrder)
    ensures octet > 1 ==> DecodeField(KLargest, [octet] + tail) == Err(InvalidValue)
    ensures !Valid(v) ==> DecodeField(KStr, (VarInt.Encode(|v|).value + v) + tail) == Err(InvalidString)
  {
    hide VarInt.Encode, VarInt.Decode, Valid, DecodePair;
    VarInt.RoundTrip(id, tail);
    VarInt.RoundTrip(|v|, v + tail);
    var n := VarInt.Encode(|v|).value;
    assert (n + v) + tail == n + (v + tail);
    assert (v + tail)[..|v|] == v;
  }

  /** Parameters that name a kind twice, in whatever place, are refused before the second value is looked at. */
  lemma {:induction false} RepeatedKind(p: Params, order: seq<nat>, count: nat, k: nat, seen: Params, tail: Bytes)
    requires Pending(p, order, seen) && EncodeEntries(p, order).Success? && count > |order|
    requires k in p && k <= VarInt.MAX
    ensures DecodeEntries(count, seen, EncodeEntries(p, order).value + (VarInt.Encode(k).value + tail)) == Err(DuplicateParameter)
    decreases |order|
  {
    hide EncodeEntry, VarInt.Encode, VarInt.Decode;
    VarInt.RoundTrip(k, tail);
    var last := VarInt.Encode(k).value + tail;
    if order == [] {
      assert [] + last == last;
    } else {
      var kind := order[0];
      var first, others := EncodeEntry(kind, p[kind]).value, EncodeEntries(p, order[1..]).value;
      assert kind in order && kind !in seen;
      assert (first + others) + last == first + (others + last);
      WholeArrives(first, others + last);
      EntryReads(kind, p[kind], seen, first + (others + last));
      NextEntry(p, order, seen);
      RepeatedKind(p, order[1..], count - 1, k, seen[kind := p[kind]], tail);
    }
  }

  /** A message of an unknown type is refused, once its length is there. */
  lemma UnknownType(id: nat, length: nat, tail: Bytes)
    requires id <= VarInt.MAX && length <= VarInt.MAX && (id in {0, 1, 0xf} || id > 0x19)
    ensures VarInt.Encode(id).Success? && VarInt.Encode(length).Success?
    ensures DecodeMessage(VarInt.Encode(id).value + (VarInt.Encode(length).value + tail)) == Err(InvalidMessage(id))
  {
    hide VarInt.Encode, VarInt.Decode, Layout, DecodeFields;
    VarInt.RoundTrip(length, tail);
    VarInt.RoundTrip(id, VarInt.Encode(length).value + tail);
    NoLayout(id);
  }

  lemma NoLayout(id: nat)
    requires id in {0, 1, 0xf} || id > 0x19
    ensures Layout(id).None?
  {
  }

  /** Whatever is wrong with a field is what is wrong with the message, when the fields before are in order. */
  lemma FieldRefused(m: Message, i: nat, order: seq<nat>, length: nat, bad: Bytes)
    requires i < |Fields(m)| && OrderForAll(Fields(m), order) && length <= VarInt.MAX
    requires EncodeFields(Fields(m)[..i], order).Success? && OnlyLatest(Fields(m)[..i])
    requires DecodeField(KindOf(Fields(m)[i]), bad).Err?
    ensures DecodeMessage([Image(m, order).0] + (VarInt.Encode(length).value + (EncodeFields(Fields(m)[..i], order).value + bad)))
            == Err(DecodeField(KindOf(Fields(m)[i]), bad).error)
  {
    var rest := EncodeFields(Fields(m)[..i], order).value + bad;
    CodesSmall(m);
    Small(TypeId(m));
    VarInt.RoundTrip(TypeId(m), VarInt.Encode(length).value + rest);
    VarInt.RoundTrip(length, rest);
    hide Image, Fields, KindsOf, EncodeFields, VarInt.Encode, VarInt.Decode, DecodeField, DecodeFields, TypeId, Layout, KindOf;
    if TypeId(m) <= 0x8 { ImageLow(m, order); } else { ImageHigh(m, order); }
    LayoutFits(m);
    StopsAt(Fields(m), i, order, bad);
  }

  lemma {:induction false} StopsAt(f: seq<Field>, i: nat, order: seq<nat>, bad: Bytes)
    requires i < |f| && OrderForAll(f, order)
    requires EncodeFields(f[..i], order).Success? && OnlyLatest(f[..i]) && DecodeField(KindOf(f[i]), bad).Err?
    ensures DecodeFields(KindsOf(f), EncodeFields(f[..i], order).value + bad) == Err(DecodeField(KindOf(f[i]), bad).error)
    decreases i
  {
    hide EncodeField, DecodeField, KindOf, WireField;
    assert KindsOf(f)[1..] == KindsOf(f[1..]);
    if i == 0 {
      assert [] + bad == bad;
    } else {
      assert f[..i][0] == f[0] && f[..i][1..] == f[1..][..i - 1];
      var first, others := EncodeField(f[0], order).value, EncodeFields(f[1..][..i - 1], order).value;
      assert (first + others) + bad == first + (others + bad);
      WholeArrives(first, others + bad);
      FieldReads(f[0], order, first + (others + bad));
      OnlyLatestTail(f[..i]);
      StopsAt(f[1..], i - 1, order, bad);
    }
  }

  lemma OnlyLatestTail(f: seq<Field>)
    requires f != [] && OnlyLatest(f)
    ensures OnlyLatest(f[1..])
  {
  }
}
