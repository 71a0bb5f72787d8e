/**
 * Control messages of draft-ietf-moq-transport-07. Every decoder in the source is a straight line of
 * field reads, so a message type is given here by its list of fields, in wire order.
 */
module Control {
  import opened Wire
  import opened Utf8
  import opened Coding
  import VarInt

  datatype GroupOrder = Publisher | Ascending | Descending

  datatype FilterType = LatestGroup | LatestObject | AbsoluteStart | AbsoluteRange

  datatype TrackStatusCode = InProgress | DoesNotExist | NotYetBegun | Finished | Relay

  datatype Location = NoLocation | Absolute(at: nat) | Latest(back: nat) | Future(ahead: nat)

  datatype Pair = Pair(group: Location, item: Location)

  datatype Window = Window(filter: FilterType, start: Option<Pair>, end: Option<Pair>)

  type Names = seq<Bytes>

  datatype Message =
    | SubscribeUpdate(id: nat, alias: nat, namespace: Names, name: Text, priority: Byte, order: GroupOrder,
                      window: Window, params: Params)
    | Subscribe(id: nat, alias: nat, namespace: Names, name: Text, priority: Byte, order: GroupOrder,
                window: Window, params: Params)
    | Unsubscribe(id: nat)
    | SubscribeOk(id: nat, expires: Option<nat>, order: GroupOrder, latest: Option<(nat, nat)>)
    | SubscribeError(id: nat, code: nat, reason: Text, alias: nat)
    | SubscribeDone(id: nat, code: nat, reason: Text, last: Option<(nat, nat)>)
    | MaxSubscribeId(id: nat)
    | Announce(namespace: Names, params: Params)
    | Unannounce(namespace: Names)
    | AnnounceOk(namespace: Names)
    | AnnounceError(namespace: Names, code: nat, reason: Text)
    | AnnounceCancel(namespace: Names, code: nat, reason: Text)
    | TrackStatusRequest(namespace: Names, name: Text)
    | TrackStatus(namespace: Names, name: Text, status: TrackStatusCode, lastGroup: nat, lastObject: nat)
    | GoAway(url: Text)
    | SubscribeNamespace(namespace: Names, params: Params)
    | SubscribeNamespaceOk(namespace: Names)
    | SubscribeNamespaceError(namespace: Names, code: nat, reason: Text)
    | UnsubscribeNamespace(namespace: Names)
    | Fetch(id: nat, namespace: Names, name: Text, priority: Byte, order: GroupOrder, startGroup: nat,
            startObject: nat, endGroup: nat, endObject: nat, params: Params)
    | FetchCancel(id: nat)
    | FetchOk(id: nat, groupOrder: Byte, endOfTrack: Byte, largestGroup: nat, largestObject: nat, params: Params)
    | FetchError(id: nat, code: nat, reason: Text)

  datatype Field =
    | Number(n: nat)
    | Octet(octet: Byte)
    | Str(text: Text)
    | Tuple(names: Names)
    | Order(order: GroupOrder)
    | Status(status: TrackStatusCode)
    | Expiry(expires: Option<nat>)
    | Largest(largest: Option<(nat, nat)>)
    | Range(window: Window)
    | Parameters(params: Params)
    | Reserved

  datatype Kind =
    | KNumber | KOctet | KStr | KTuple | KOrder | KStatus | KExpiry | KLargest | KRange | KParameters | KReserved

  function KindOf(f: Field): Kind {
    match f
    case Number(_) => KNumber
    case Octet(_) => KOctet
    case Str(_) => KStr
    case Tuple(_) => KTuple
    case Order(_) => KOrder
    case Status(_) => KStatus
    case Expiry(_) => KExpiry
    case Largest(_) => KLargest
    case Range(_) => KRange
    case Parameters(_) => KParameters
    case Reserved => KReserved
  }

  function KindsOf(fields: seq<Field>): (kinds: seq<Kind>)
    ensures |kinds| == |fields|
    ensures forall i | 0 <= i < |fields| :: kinds[i] == KindOf(fields[i])
  {
    seq(|fields|, i requires 0 <= i < |fields| => KindOf(fields[i]))
  }

  // --- locations and filter windows ---

  function LocationId(l: Location): nat {
    match l case NoLocation => 0 case Absolute(_) => 1 case Latest(_) => 2 case Future(_) => 3
  }

  function EncodeLocation(l: Location): Encoded {
    var id :- VarInt.Encode(LocationId(l));
    if l.NoLocation? then Success(id)
    else
      var value :- VarInt.Encode(match l case Absolute(v) => v case Latest(v) => v case Future(v) => v);
      Success(id + value)
  }

  function DecodeLocation(b: Bytes): Decoded<Location> {
    var (id, b) :- VarInt.Decode(b);
    if id == 0 then Ok(NoLocation, b)
    else if id > 3 then Err(InvalidSubscribeLocation)
    else
      var (v, b) :- VarInt.Decode(b);
      Ok(if id == 1 then Absolute(v) else if id == 2 then Latest(v) else Future(v), b)
  }

  lemma LocationReads(l: Location, b: Bytes)
    requires EncodeLocation(l).Success? && Arrived(b, EncodeLocation(l).value)
    ensures Reads(DecodeLocation(b), b, EncodeLocation(l).value, l)
    ensures |EncodeLocation(l).value| >= 1
  {
    var id := VarInt.Encode(LocationId(l)).value;
    VarInt.Shape(LocationId(l));
    if l.NoLocation? {
      VarInt.DecodeReads(0, b);
    } else {
      var v := match l case Absolute(v) => v case Latest(v) => v case Future(v) => v;
      SplitArrival(b, id, VarInt.Encode(v).value);
      VarInt.DecodeReads(LocationId(l), b);
      if |id| <= |b| { VarInt.DecodeReads(v, b[|id|..]); }
    }
  }

  function EncodePair(p: Pair): Encoded {
    var group :- EncodeLocation(p.group);
    var item :- EncodeLocation(p.item);
    Success(group + item)
  }

  function DecodePair(b: Bytes): Decoded<Pair> {
    var (group, b) :- DecodeLocation(b);
    var (item, b) :- DecodeLocation(b);
    Ok(Pair(group, item), b)
  }

  lemma PairReads(p: Pair, b: Bytes)
    requires EncodePair(p).Success? && Arrived(b, EncodePair(p).value)
    ensures Reads(DecodePair(b), b, EncodePair(p).value, p)
    ensures |EncodePair(p).value| >= 2
  {
    hide DecodeLocation, EncodeLocation;
    var group, item := EncodeLocation(p.group).value, EncodeLocation(p.item).value;
    SplitArrival(b, group, item);
    LocationReads(p.group, b);
    if |group| <= |b| { LocationReads(p.item, b[|group|..]); }
    LocationReads(p.group, []);
    LocationReads(p.item, []);
    assert EncodePair(p).value == group + item;
  }

  function FilterId(f: FilterType): nat {
    match f case LatestGroup => 1 case LatestObject => 2 case AbsoluteStart => 3 case AbsoluteRange => 4
  }

  predicate IsLatest(f: FilterType) {
    f.LatestGroup? || f.LatestObject?
  }

  function EncodeWindow(w: Window): Encoded {
    var filter :- VarInt.Encode(FilterId(w.filter));
    if IsLatest(w.filter) then Success(filter)
    else if w.start.None? || w.end.None? then Failure(FieldMissing)
    else
      var start :- EncodePair(w.start.value);
      var end :- EncodePair(w.end.value);
      Success(filter + (start + end))
  }

  /** An object may only be given together with a group. */
  predicate GroupFirst(p: Pair) {
    p.group.NoLocation? ==> p.item.NoLocation?
  }

  function DecodeWindow(b: Bytes): Decoded<Window> {
    var (filter, b) :- VarInt.Decode(b);
    match filter
    case 1 => Ok(Window(LatestGroup, None, None), b)
    case 2 => Ok(Window(LatestObject, None, None), b)
    case 3 =>
      if |b| < 2 then Err(MissingField)
      else
        var (start, b) :- DecodePair(b);
        if !GroupFirst(start) then Err(InvalidSubscribeLocation)
        else Ok(Window(AbsoluteStart, Some(start), None), b)
    case 4 =>
      if |b| < 4 then Err(MissingField)
      else
        var (start, b) :- DecodePair(b);
        var (end, b) :- DecodePair(b);
        if !GroupFirst(start) || !GroupFirst(end) then Err(InvalidSubscribeLocation)
        else Ok(Window(AbsoluteRange, Some(start), Some(end)), b)
    case _ => Err(InvalidFilterType)
  }

  lemma PairThen(p: Pair, tail: Bytes)
    requires EncodePair(p).Success?
    ensures DecodePair(EncodePair(p).value + tail) == Ok(p, tail)
    ensures |EncodePair(p).value| >= 2
  {
    WholeArrives(EncodePair(p).value, tail);
    PairReads(p, EncodePair(p).value + tail);
  }

  /**
   * A whole absolute range is read back, and refused exactly if a pair has an object but no group; an absolute
   * start leaves the end pair it wrote unread, whatever that is.
   */
  lemma AbsoluteWindows(w: Window, tail: Bytes)
    requires !IsLatest(w.filter) && EncodeWindow(w).Success?
    ensures w.filter.AbsoluteRange? ==>
              DecodeWindow(EncodeWindow(w).value + tail)
              == if GroupFirst(w.start.value) && GroupFirst(w.end.value) then Ok(w, tail)
                 else Err(InvalidSubscribeLocation)
    ensures w.filter.AbsoluteStart? ==>
              DecodeWindow(EncodeWindow(w).value + tail)
              == if GroupFirst(w.start.value) then Ok(w.(end := None), EncodePair(w.end.value).value + tail)
                 else Err(InvalidSubscribeLocation)
  {
    hide EncodePair, DecodePair, VarInt.Encode, VarInt.Decode;
    var filter, start := VarInt.Encode(FilterId(w.filter)).value, EncodePair(w.start.value).value;
    var end := EncodePair(w.end.value).value;
    var b := EncodeWindow(w).value + tail;
    assert b == filter + (start + (end + tail));
    VarInt.RoundTrip(FilterId(w.filter), start + (end + tail));
    PairThen(w.start.value, end + tail);
    PairThen(w.end.value, tail);
  }

  // --- fields ---

  function StatusId(c: TrackStatusCode): nat {
    match c case InProgress => 0 case DoesNotExist => 1 case NotYetBegun => 2 case Finished => 3 case Relay => 4
  }

  function DecodeStatus(b: Bytes): Decoded<TrackStatusCode> {
    var (id, b) :- VarInt.Decode(b);
    match id
    case 0 => Ok(InProgress, b)
    case 1 => Ok(DoesNotExist, b)
    case 2 => Ok(NotYetBegun, b)
    case 3 => Ok(Finished, b)
    case 4 => Ok(Relay, b)
    case _ => Err(InvalidTrackStatusCode)
  }

  function OrderId(o: GroupOrder): Byte {
    match o case Publisher => 0 case Ascending => 1 case Descending => 2
  }

  function DecodeOrder(b: Bytes): Decoded<GroupOrder> {
    var (id, b) :- DecodeOctet(b);
    match id
    case 0 => Ok(Publisher, b)
    case 1 => Ok(Ascending, b)
    case 2 => Ok(Descending, b)
    case _ => Err(InvalidGroupOrder)
  }

  function EncodeLargest(l: Option<(nat, nat)>): Encoded {
    match l
    case None => Success([0])
    case Some((group, item)) =>
      var group :- VarInt.Encode(group);
      var item :- VarInt.Encode(item);
      Success([1] + (group + item))
  }

  function DecodeLargest(b: Bytes): Decoded<Option<(nat, nat)>> {
    var (flag, b) :- DecodeOctet(b);
    match flag
    case 0 => Ok(None, b)
    case 1 =>
      var (group, b) :- VarInt.Decode(b);
      var (item, b) :- VarInt.Decode(b);
      Ok(Some((group, item)), b)
    case _ => Err(InvalidValue)
  }

  lemma LargestReads(l: Option<(nat, nat)>, b: Bytes)
    requires EncodeLargest(l).Success? && Arrived(b, EncodeLargest(l).value)
    ensures Reads(DecodeLargest(b), b, EncodeLargest(l).value, l)
  {
    if l.Some? && |b| >= 1 {
      var group, item := VarInt.Encode(l.value.0).value, VarInt.Encode(l.value.1).value;
      SplitArrival(b, [1], group + item);
      SplitArrival(b[1..], group, item);
      VarInt.DecodeReads(l.value.0, b[1..]);
      if |group| <= |b[1..]| { VarInt.DecodeReads(l.value.1, b[1..][|group|..]); }
    }
  }

  /** `order` lists the parameter kinds in the order the map iterates; other fields do not use it. */
  function EncodeField(f: Field, order: seq<nat>): Encoded
    requires f.Parameters? ==> forall k | k in order :: k in f.params
  {
    match f
    case Number(n) => VarInt.Encode(n)
    case Octet(o) => Success([o])
    case Str(t) => EncodeBlob(t)
    case Tuple(ns) => EncodeTuple(ns)
    case Order(o) => Success([OrderId(o)])
    case Status(c) => VarInt.Encode(StatusId(c))
    case Expiry(e) => VarInt.Encode(if e.Some? then e.value else 0)
    case Largest(l) => EncodeLargest(l)
    case Range(w) => EncodeWindow(w)
    case Parameters(p) => EncodeParams(p, order)
    case Reserved => Success([0])
  }

  function DecodeField(kind: Kind, b: Bytes): Decoded<Field> {
    match kind
    case KNumber => var (n, b) :- VarInt.Decode(b); Ok(Number(n), b)
    case KOctet => var (o, b) :- DecodeOctet(b); Ok(Octet(o), b)
    case KStr => var (t, b) :- DecodeText(b); Ok(Str(t), b)
    case KTuple => var (ns, b) :- DecodeTuple(b); Ok(Tuple(ns), b)
    case KOrder => var (o, b) :- DecodeOrder(b); Ok(Order(o), b)
    case KStatus => var (c, b) :- DecodeStatus(b); Ok(Status(c), b)
    case KExpiry => var (n, b) :- VarInt.Decode(b); Ok(Expiry(if n == 0 then None else Some(n)), b)
    case KLargest => var (l, b) :- DecodeLargest(b); Ok(Largest(l), b)
    case KRange => var (w, b) :- DecodeWindow(b); Ok(Range(w), b)
    case KParameters => var (p, b) :- DecodeParams(b); Ok(Parameters(p), b)
    case KReserved => var (_, b) :- DecodeOctet(b); Ok(Reserved, b)
  }

  lemma FieldKind(kind: Kind, b: Bytes)
    ensures DecodeField(kind, b).Ok? ==> KindOf(DecodeField(kind, b).value) == kind
  {
    hide VarInt.Decode, DecodeText, DecodeTuple, DecodeOrder, DecodeStatus, DecodeLargest, DecodeWindow, DecodeParams;
  }

  function WireWindow(w: Window): Window {
    if IsLatest(w.filter) then Window(w.filter, None, None) else w
  }

  /** What the wire keeps of a field: zero expiry is no expiry, and a latest filter carries no pairs. */
  function WireField(f: Field): Field {
    match f
    case Expiry(Some(0)) => Expiry(None)
    case Range(w) => Range(WireWindow(w))
    case _ => f
  }

  ghost predicate OrderFor(f: Field, order: seq<nat>) {
    f.Parameters? ==> Enumerates(order, f.params.Keys)
  }

  lemma StatusReads(c: TrackStatusCode, b: Bytes)
    requires Arrived(b, VarInt.Encode(StatusId(c)).value)
    ensures Reads(DecodeStatus(b), b, VarInt.Encode(StatusId(c)).value, c)
  {
    VarInt.DecodeReads(StatusId(c), b);
  }

  lemma OrderReads(o: GroupOrder, b: Bytes)
    requires Arrived(b, [OrderId(o)])
    ensures Reads(DecodeOrder(b), b, [OrderId(o)], o)
  {
  }

  lemma LatestWindowReads(w: Window, b: Bytes)
    requires IsLatest(w.filter) && Arrived(b, VarInt.Encode(FilterId(w.filter)).value)
    ensures Reads(DecodeWindow(b), b, VarInt.Encode(FilterId(w.filter)).value, Window(w.filter, None, None))
  {
    VarInt.DecodeReads(FilterId(w.filter), b);
  }

  lemma TextReads(t: Text, b: Bytes)
    requires EncodeBlob(t).Success? && Arrived(b, EncodeBlob(t).value)
    ensures Reads(DecodeText(b), b, EncodeBlob(t).value, t)
  {
    BlobReads(t, b);
  }

  lemma FieldReads(f: Field, order: seq<nat>, b: Bytes)
    requires OrderFor(f, order) && EncodeField(f, order).Success?
    requires f.Range? ==> IsLatest(f.window.filter)
    requires Arrived(b, EncodeField(f, order).value)
    ensures Reads(DecodeField(KindOf(f), b), b, EncodeField(f, order).value, WireField(f))
  {
    hide VarInt.Decode, DecodeText, DecodeTuple, DecodeOrder, DecodeStatus, DecodeLargest, DecodeWindow, DecodeParams,
         VarInt.Encode, EncodeBlob, EncodeTuple, EncodeLargest, EncodeParams;
    match f
    case Number(n) => VarInt.DecodeReads(n, b);
    case Octet(_) =>
    case Str(t) => TextReads(t, b);
    case Tuple(ns) => TupleReads(ns, b);
    case Order(o) => OrderReads(o, b);
    case Status(c) => StatusReads(c, b);
    case Expiry(e) => VarInt.DecodeReads(if e.Some? then e.value else 0, b);
    case Largest(l) => LargestReads(l, b);
    case Range(w) => LatestWindowReads(w, b);
    case Parameters(p) => ParamsRead(p, order, b);
    case Reserved =>
  }

  // --- field lists ---

  function EncodeFields(fields: seq<Field>, order: seq<nat>): Encoded
    requires forall i | 0 <= i < |fields| :: fields[i].Parameters? ==> forall k | k in order :: k in fields[i].params
  {
    if fields == [] then Success([])
    else
      var first :- EncodeField(fields[0], order);
      var others :- EncodeFields(fields[1..], order);
      Success(first + others)
  }

  function DecodeFields(kinds: seq<Kind>, b: Bytes): (r: Decoded<seq<Field>>)
    ensures r.Ok? ==> KindsOf(r.value) == kinds
  {
    if kinds == [] then Ok([], b)
    else
      FieldKind(kinds[0], b);
      var (first, b) :- DecodeField(kinds[0], b);
      var (others, b) :- DecodeFields(kinds[1..], b);
      Ok([first] + others, b)
  }

  function WireFields(fields: seq<Field>): seq<Field> {
    seq(|fields|, i requires 0 <= i < |fields| => WireField(fields[i]))
  }

  ghost predicate OrderForAll(fields: seq<Field>, order: seq<nat>) {
    forall i | 0 <= i < |fields| :: OrderFor(fields[i], order)
  }

  predicate OnlyLatest(fields: seq<Field>) {
    forall i | 0 <= i < |fields| :: fields[i].Range? ==> IsLatest(fields[i].window.filter)
  }

  lemma {:induction false} FieldsRead(fields: seq<Field>, order: seq<nat>, b: Bytes)
    requires OrderForAll(fields, order) && EncodeFields(fields, order).Success? && OnlyLatest(fields)
    requires Arrived(b, EncodeFields(fields, order).value)
    ensures Reads(DecodeFields(KindsOf(fields), b), b, EncodeFields(fields, order).value, WireFields(fields))
  {
    hide EncodeField, DecodeField, KindOf, WireField;
    if fields != [] {
      var first, others := EncodeField(fields[0], order).value, EncodeFields(fields[1..], order).value;
      SplitArrival(b, first, others);
      FieldReads(fields[0], order, b);
      assert KindsOf(fields)[1..] == KindsOf(fields[1..]);
      if |first| <= |b| {
        FieldsRead(fields[1..], order, b[|first|..]);
        assert WireFields(fields) == [WireField(fields[0])] + WireFields(fields[1..]);
      }
    }
  }

  // --- messages ---

  function TypeId(m: Message): nat {
    match m
    case SubscribeUpdate(_, _, _, _, _, _, _, _) => 0x2
    case Subscribe(_, _, _, _, _, _, _, _) => 0x3
    case Unsubscribe(_) => 0xa
    case SubscribeOk(_, _, _, _) => 0x4
    case SubscribeError(_, _, _, _) => 0x5
    case SubscribeDone(_, _, _, _) => 0xb
    case MaxSubscribeId(_) => 0x15
    case Announce(_, _) => 0x6
    case Unannounce(_) => 0x9
    case AnnounceOk(_) => 0x7
    case AnnounceError(_, _, _) => 0x8
    case AnnounceCancel(_, _, _) => 0xc
    case TrackStatusRequest(_, _) => 0xd
    case TrackStatus(_, _, _, _, _) => 0xe
    case GoAway(_) => 0x10
    case SubscribeNamespace(_, _) => 0x11
    case SubscribeNamespaceOk(_) => 0x12
    case SubscribeNamespaceError(_, _, _) => 0x13
    case UnsubscribeNamespace(_) => 0x14
    case Fetch(_, _, _, _, _, _, _, _, _, _) => 0x16
    case FetchCancel(_) => 0x17
    case FetchOk(_, _, _, _, _, _) => 0x18
    case FetchError(_, _, _) => 0x19
  }

  /** The fields of each message type, in the order in which they are written and read. */
  function Layout(typ: nat): Option<seq<Kind>> {
    match typ
    case 0x2 => Some([KNumber, KNumber, KTuple, KStr, KOctet, KOrder, KRange, KParameters]) // SubscribeUpdate
    case 0x3 => Some([KNumber, KNumber, KTuple, KStr, KOctet, KOrder, KRange, KParameters]) // Subscribe
    case 0xa => Some([KNumber]) // Unsubscribe
    case 0x4 => Some([KNumber, KExpiry, KOrder, KLargest, KReserved]) // SubscribeOk
    case 0x5 => Some([KNumber, KNumber, KStr, KNumber]) // SubscribeError
    case 0xb => Some([KNumber, KNumber, KStr, KLargest]) // SubscribeDone
    case 0x15 => Some([KNumber]) // MaxSubscribeId
    case 0x6 => Some([KTuple, KParameters]) // Announce
    case 0x9 => Some([KTuple]) // Unannounce
    case 0x7 => Some([KTuple]) // AnnounceOk
    case 0x8 => Some([KTuple, KNumber, KStr]) // AnnounceError
    case 0xc => Some([KTuple, KNumber, KStr]) // AnnounceCancel
    case 0xd => Some([KTuple, KStr]) // TrackStatusRequest
    case 0xe => Some([KTuple, KStr, KStatus, KNumber, KNumber]) // TrackStatus
    case 0x10 => Some([KStr]) // GoAway
    case 0x11 => Some([KTuple, KParameters]) // SubscribeNamespace
    case 0x12 => Some([KTuple]) // SubscribeNamespaceOk
    case 0x13 => Some([KTuple, KNumber, KStr]) // SubscribeNamespaceError
    case 0x14 => Some([KTuple]) // UnsubscribeNamespace
    case 0x16 => Some([KNumber, KTuple, KStr, KOctet, KOrder, KNumber, KNumber, KNumber, KNumber, KParameters]) // Fetch
    case 0x17 => Some([KNumber]) // FetchCancel
    case 0x18 => Some([KNumber, KOctet, KOctet, KNumber, KNumber, KParameters]) // FetchOk
    case 0x19 => Some([KNumber, KNumber, KStr]) // FetchError
    case _ => None
  }

  function Fields(m: Message): seq<Field> {
    match m
    case SubscribeUpdate(id, alias, namespace, name, priority, order, window, params) =>
      [Number(id), Number(alias), Tuple(namespace), Str(name), Octet(priority), Order(order), Range(window), Parameters(params)]
    case Subscribe(id, alias, namespace, name, priority, order, window, params) =>
      [Number(id), Number(alias), Tuple(namespace), Str(name), Octet(priority), Order(order), Range(window), Parameters(params)]
    case Unsubscribe(id) =>
      [Number(id)]
    case SubscribeOk(id, expires, order, latest) =>
      [Number(id), Expiry(expires), Order(order), Largest(latest), Reserved]
    case SubscribeError(id, code, reason, alias) =>
      [Number(id), Number(code), Str(reason), Number(alias)]
    case SubscribeDone(id, code, reason, last) =>
      [Number(id), Number(code), Str(reason), Largest(last)]
    case MaxSubscribeId(id) =>
      [Number(id)]
    case Announce(namespace, params) =>
      [Tuple(namespace), Parameters(params)]
    case Unannounce(namespace) =>
      [Tuple(namespace)]
    case AnnounceOk(namespace) =>
      [Tuple(namespace)]
    case AnnounceError(namespace, code, reason) =>
      [Tuple(namespace), Number(code), Str(reason)]
    case AnnounceCancel(namespace, code, reason) =>
      [Tuple(namespace), Number(code), Str(reason)]
    case TrackStatusRequest(namespace, name) =>
      [Tuple(namespace), Str(name)]
    case TrackStatus(namespace, name, status, lastGroup, lastObject) =>
      [Tuple(namespace), Str(name), Status(status), Number(lastGroup), Number(lastObject)]
    case GoAway(url) =>
      [Str(url)]
    case SubscribeNamespace(namespace, params) =>
      [Tuple(namespace), Parameters(params)]
    case SubscribeNamespaceOk(namespace) =>
      [Tuple(namespace)]
    case SubscribeNamespaceError(namespace, code, reason) =>
      [Tuple(namespace), Number(code), Str(reason)]
    case UnsubscribeNamespace(namespace) =>
      [Tuple(namespace)]
    case Fetch(id, namespace, name, priority, order, startGroup, startObject, endGroup, endObject, params) =>
      [Number(id), Tuple(namespace), Str(name), Octet(priority), Order(order), Number(startGroup), Number(startObject), Number(endGroup), Number(endObject), Parameters(params)]
    case FetchCancel(id) =>
      [Number(id)]
    case FetchOk(id, groupOrder, endOfTrack, largestGroup, largestObject, params) =>
      [Number(id), Octet(groupOrder), Octet(endOfTrack), Number(largestGroup), Number(largestObject), Parameters(params)]
    case FetchError(id, code, reason) =>
      [Number(id), Number(code), Str(reason)]
  }

  function Assemble(typ: nat, f: seq<Field>): Message
    requires Layout(typ) == Some(KindsOf(f))
  {
    FieldKinds(typ, f);
    match typ
    case 0x2 =>
      SubscribeUpdate(f[0].n, f[1].n, f[2].names, f[3].text, f[4].octet, f[5].order, f[6].window, f[7].params)
    case 0x3 =>
      Subscribe(f[0].n, f[1].n, f[2].names, f[3].text, f[4].octet, f[5].order, f[6].window, f[7].params)
    case 0xa =>
      Unsubscribe(f[0].n)
    case 0x4 =>
      SubscribeOk(f[0].n, f[1].expires, f[2].order, f[3].largest)
    case 0x5 =>
      SubscribeError(f[0].n, f[1].n, f[2].text, f[3].n)
    case 0xb =>
      SubscribeDone(f[0].n, f[1].n, f[2].text, f[3].largest)
    case 0x15 =>
      MaxSubscribeId(f[0].n)
    case 0x6 =>
      Announce(f[0].names, f[1].params)
    case 0x9 =>
      Unannounce(f[0].names)
    case 0x7 =>
      AnnounceOk(f[0].names)
    case 0x8 =>
      AnnounceError(f[0].names, f[1].n, f[2].text)
    case 0xc =>
      AnnounceCancel(f[0].names, f[1].n, f[2].text)
    case 0xd =>
      TrackStatusRequest(f[0].names, f[1].text)
    case 0xe =>
      TrackStatus(f[0].names, f[1].text, f[2].status, f[3].n, f[4].n)
    case 0x10 =>
      GoAway(f[0].text)
    case 0x11 =>
      SubscribeNamespace(f[0].names, f[1].params)
    case 0x12 =>
      SubscribeNamespaceOk(f[0].names)
    case 0x13 =>
      SubscribeNamespaceError(f[0].names, f[1].n, f[2].text)
    case 0x14 =>
      UnsubscribeNamespace(f[0].names)
    case 0x16 =>
      Fetch(f[0].n, f[1].names, f[2].text, f[3].octet, f[4].order, f[5].n, f[6].n, f[7].n, f[8].n, f[9].params)
    case 0x17 =>
      FetchCancel(f[0].n)
    case 0x18 =>
      FetchOk(f[0].n, f[1].octet, f[2].octet, f[3].n, f[4].n, f[5].params)
    case _ =>
      FetchError(f[0].n, f[1].n, f[2].text)
  }

  lemma FieldKinds(typ: nat, f: seq<Field>)
    requires Layout(typ) == Some(KindsOf(f))
    ensures |f| == |Layout(typ).value|
    ensures forall i | 0 <= i < |f| :: KindOf(f[i]) == Layout(typ).value[i]
  {
  }

  function EncodeMessage(m: Message, order: seq<nat>): Encoded
    requires OrderForAll(Fields(m), order)
  {
    var typ :- VarInt.Encode(TypeId(m));
    var body :- EncodeFields(Fields(m), order);
    var length :- VarInt.Encode(|body|);
    Success(typ + (length + body))
  }

  /** The length is read but not used. */
  function DecodeMessage(b: Bytes): Decoded<Message> {
    var (typ, b) :- VarInt.Decode(b);
    var (_, b) :- VarInt.Decode(b);
    if Layout(typ).None? then Err(InvalidMessage(typ))
    else
      var (fields, b) :- DecodeFields(Layout(typ).value, b);
      Ok(Assemble(typ, fields), b)
  }

  /** What a message is after a trip over the wire. */
  function Wired(m: Message): Message {
    match m
    case SubscribeUpdate(id, alias, namespace, name, priority, order, w, params) =>
      SubscribeUpdate(id, alias, namespace, name, priority, order, WireWindow(w), params)
    case Subscribe(id, alias, namespace, name, priority, order, w, params) =>
      Subscribe(id, alias, namespace, name, priority, order, WireWindow(w), params)
    case SubscribeOk(id, Some(0), order, latest) => SubscribeOk(id, None, order, latest)
    case _ => m
  }

  /** The filter of the two message types that have one. */
  predicate FollowsLatest(m: Message) {
    (m.SubscribeUpdate? || m.Subscribe?) ==> IsLatest(m.window.filter)
  }

  lemma LayoutLow(m: Message)
    requires TypeId(m) <= 0x9
    ensures Layout(TypeId(m)) == Some(KindsOf(Fields(m)))
  {
    assert Layout(TypeId(m)).value == KindsOf(Fields(m));
  }

  lemma LayoutHigh(m: Message)
    requires TypeId(m) > 0x9
    ensures Layout(TypeId(m)) == Some(KindsOf(Fields(m)))
  {
    assert Layout(TypeId(m)).value == KindsOf(Fields(m));
  }

  lemma LayoutFits(m: Message)
    ensures Layout(TypeId(m)) == Some(KindsOf(Fields(m)))
  {
    hide Layout, KindsOf, Fields;
    if TypeId(m) <= 0x9 { LayoutLow(m); } else { LayoutHigh(m); }
  }

  lemma WireFits(m: Message)
    ensures KindsOf(WireFields(Fields(m))) == KindsOf(Fields(m))
    ensures Layout(TypeId(m)) == Some(KindsOf(WireFields(Fields(m))))
  {
    assert KindsOf(WireFields(Fields(m))) == KindsOf(Fields(m));
    LayoutFits(m);
  }

  lemma AssembleLow(m: Message)
    requires TypeId(m) <= 0x6 && Layout(TypeId(m)) == Some(KindsOf(WireFields(Fields(m))))
    ensures Assemble(TypeId(m), WireFields(Fields(m))) == Wired(m)
  {
    hide Layout, KindsOf, KindOf;
  }

  lemma AssembleMiddle(m: Message)
    requires 0x6 < TypeId(m) <= 0xe && Layout(TypeId(m)) == Some(KindsOf(WireFields(Fields(m))))
    ensures Assemble(TypeId(m), WireFields(Fields(m))) == Wired(m)
  {
    hide Layout, KindsOf, KindOf;
  }

  lemma AssembleHigh(m: Message)
    requires TypeId(m) > 0xe && Layout(TypeId(m)) == Some(KindsOf(WireFields(Fields(m))))
    ensures Assemble(TypeId(m), WireFields(Fields(m))) == Wired(m)
  {
    hide Layout, KindsOf, KindOf;
  }

  lemma AssembleInverse(m: Message)
    requires Layout(TypeId(m)) == Some(KindsOf(WireFields(Fields(m))))
    ensures Assemble(TypeId(m), WireFields(Fields(m))) == Wired(m)
  {
    hide Assemble, Wired, Layout, KindsOf, Fields, WireFields;
    if TypeId(m) <= 0x6 { AssembleLow(m); } else if TypeId(m) <= 0xe { AssembleMiddle(m); } else { AssembleHigh(m); }
  }

  lemma OnlyLatestWindow(m: Message)
    ensures FollowsLatest(m) <==> OnlyLatest(Fields(m))
  {
    if m.Subscribe? || m.SubscribeUpdate? {
      assert Fields(m)[6] == Range(m.window);
    }
  }

  lemma MessageReads(m: Message, order: seq<nat>, b: Bytes)
    requires OrderForAll(Fields(m), order) && EncodeMessage(m, order).Success?
    requires FollowsLatest(m)
    requires Arrived(b, EncodeMessage(m, order).value)
    ensures Reads(DecodeMessage(b), b, EncodeMessage(m, order).value, Wired(m))
  {
    hide VarInt.Encode, VarInt.Decode, EncodeFields, DecodeFields, Layout, Fields, WireFields, KindsOf, Assemble, Wired;
    var typ, body := VarInt.Encode(TypeId(m)).value, EncodeFields(Fields(m), order).value;
    var length := VarInt.Encode(|body|).value;
    SplitArrival(b, typ, length + body);
    VarInt.DecodeReads(TypeId(m), b);
    LayoutFits(m);
    WireFits(m);
    AssembleInverse(m);
    OnlyLatestWindow(m);
    if |typ| <= |b| {
      var b1 := b[|typ|..];
      SplitArrival(b1, length, body);
      VarInt.DecodeReads(|body|, b1);
      if |length| <= |b1| { FieldsRead(Fields(m), order, b1[|length|..]); }
    }
  }

  /** With an absolute filter, what has arrived up to the filter is refused instead of being waited for. */
  lemma AbsoluteRefused(m: Message, order: seq<nat>) returns (b: Bytes)
    requires OrderForAll(Fields(m), order) && EncodeMessage(m, order).Success?
    requires !FollowsLatest(m)
    ensures b < EncodeMessage(m, order).value && DecodeMessage(b) == Err(MissingField)
  {
    hide VarInt.Encode, VarInt.Decode, Layout, KindsOf, Assemble, Wired;
    var f := Fields(m);
    var typ, body := VarInt.Encode(TypeId(m)).value, EncodeFields(f, order).value;
    var length := VarInt.Encode(|body|).value;
    LayoutFits(m);
    var cut := RangeRefused(f, 6, order);
    b := typ + (length + cut);
    VarInt.RoundTrip(TypeId(m), length + cut);
    VarInt.RoundTrip(|body|, cut);
  }

  lemma WindowRefused(w: Window) returns (b: Bytes)
    requires !IsLatest(w.filter) && EncodeWindow(w).Success?
    ensures b < EncodeWindow(w).value && DecodeWindow(b) == Err(MissingField)
  {
    hide VarInt.Encode, VarInt.Decode, EncodePair, DecodePair;
    b := VarInt.Encode(FilterId(w.filter)).value;
    VarInt.RoundTrip(FilterId(w.filter), []);
    assert b + [] == b;
    PairThen(w.start.value, []);
  }

  /** Decoding a field list stops at an absolute window of which only the filter has arrived. */
  lemma {:induction false} RangeRefused(f: seq<Field>, at: nat, order: seq<nat>) returns (b: Bytes)
    requires at < |f| && f[at].Range? && !IsLatest(f[at].window.filter)
    requires forall i | 0 <= i < at :: !f[i].Range?
    requires OrderForAll(f, order) && EncodeFields(f, order).Success?
    ensures b < EncodeFields(f, order).value && DecodeFields(KindsOf(f), b) == Err(MissingField)
  {
    hide DecodeWindow, EncodeWindow;
    assert KindsOf(f)[1..] == KindsOf(f[1..]);
    if at == 0 {
      b := WindowRefused(f[0].window);
    } else {
      var rest := RangeRefused(f[1..], at - 1, order);
      b := AfterField(f[0], order, rest);
    }
  }

  lemma AfterField(f: Field, order: seq<nat>, rest: Bytes) returns (b: Bytes)
    requires OrderFor(f, order) && EncodeField(f, order).Success? && !f.Range?
    ensures b == EncodeField(f, order).value + rest
    ensures DecodeField(KindOf(f), b) == Ok(WireField(f), rest)
  {
    hide EncodeField, DecodeField, WireField;
    b := EncodeField(f, order).value + rest;
    WholeArrives(EncodeField(f, order).value, rest);
    FieldReads(f, order, b);
  }

  /**
   * A message survives every arrival of its bytes, however they are cut, exactly when it does not ask
   * for an absolute filter.
   */
  lemma MessageHonest(m: Message, order: seq<nat>)
    requires OrderForAll(Fields(m), order) && EncodeMessage(m, order).Success?
    ensures Honest(DecodeMessage, EncodeMessage(m, order).value, Wired(m)) <==> FollowsLatest(m)
  {
    if FollowsLatest(m) {
      forall b | Arrived(b, EncodeMessage(m, order).value)
        ensures Reads(DecodeMessage(b), b, EncodeMessage(m, order).value, Wired(m))
      {
        MessageReads(m, order, b);
      }
    } else {
      var b := AbsoluteRefused(m, order);
      assert Arrived(b, EncodeMessage(m, order).value);
    }
  }
}
