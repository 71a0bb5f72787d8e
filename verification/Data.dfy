/** Headers of data streams and of the objects in a subgroup stream. */
module Data {
  import opened Wire
  import opened Coding
  import VarInt

  datatype ObjectStatus = Object | ObjectDoesNotExist | EndOfGroup | EndOfTrack | EndOfSubgroup

  datatype Header =
    | Track(subscribeId: nat, trackAlias: nat, priority: Byte)
    | Subgroup(subscribeId: nat, trackAlias: nat, groupId: nat, subgroupId: nat, priority: Byte)

  datatype SubgroupObject = SubgroupObject(objectId: nat, size: nat, status: ObjectStatus)

  function EncodeHeader(h: Header): Encoded {
    var id :- VarInt.Encode(if h.Track? then 2 else 4);
    var subscribeId :- VarInt.Encode(h.subscribeId);
    var trackAlias :- VarInt.Encode(h.trackAlias);
    if h.Track? then Success(id + (subscribeId + (trackAlias + [h.priority])))
    else
      var groupId :- VarInt.Encode(h.groupId);
      var subgroupId :- VarInt.Encode(h.subgroupId);
      Success(id + (subscribeId + (trackAlias + (groupId + (subgroupId + [h.priority])))))
  }

  function DecodeTrackHeader(b: Bytes): Decoded<Header> {
    var (subscribeId, b) :- VarInt.Decode(b);
    var (trackAlias, b) :- VarInt.Decode(b);
    var (priority, b) :- DecodeOctet(b);
    Ok(Track(subscribeId, trackAlias, priority), b)
  }

  function DecodeSubgroupHeader(b: Bytes): Decoded<Header> {
    var (subscribeId, b) :- VarInt.Decode(b);
    var (trackAlias, b) :- VarInt.Decode(b);
    var (groupId, b) :- VarInt.Decode(b);
    var (subgroupId, b) :- VarInt.Decode(b);
    var (priority, b) :- DecodeOctet(b);
    Ok(Subgroup(subscribeId, trackAlias, groupId, subgroupId, priority), b)
  }

  function DecodeHeader(b: Bytes): Decoded<Header> {
    var (id, b) :- VarInt.Decode(b);
    match id
    case 2 => DecodeTrackHeader(b)
    case 4 => DecodeSubgroupHeader(b)
    case _ => Err(InvalidMessage(id))
  }

  lemma OctetReads(o: Byte, b: Bytes)
    requires Arrived(b, [o])
    ensures Reads(DecodeOctet(b), b, [o], o)
  {
  }

  lemma SubgroupHeaderReads(h: Header, b: Bytes)
    requires h.Subgroup? && EncodeHeader(h).Success? && Arrived(b, EncodeHeader(h).value)
    ensures Reads(DecodeHeader(b), b, EncodeHeader(h).value, h)
  {
    hide VarInt.Encode, VarInt.Decode, DecodeOctet;
    var e0, e1, e2 := VarInt.Encode(4).value, VarInt.Encode(h.subscribeId).value, VarInt.Encode(h.trackAlias).value;
    var e3, e4 := VarInt.Encode(h.groupId).value, VarInt.Encode(h.subgroupId).value;
    SplitArrival(b, e0, e1 + (e2 + (e3 + (e4 + [h.priority]))));
    VarInt.DecodeReads(4, b);
    if |e0| <= |b| {
      var b1 := b[|e0|..];
      SplitArrival(b1, e1, e2 + (e3 + (e4 + [h.priority])));
      VarInt.DecodeReads(h.subscribeId, b1);
      if |e1| <= |b1| {
        var b2 := b1[|e1|..];
        SplitArrival(b2, e2, e3 + (e4 + [h.priority]));
        VarInt.DecodeReads(h.trackAlias, b2);
        if |e2| <= |b2| {
          var b3 := b2[|e2|..];
          SplitArrival(b3, e3, e4 + [h.priority]);
          VarInt.DecodeReads(h.groupId, b3);
          if |e3| <= |b3| {
            var b4 := b3[|e3|..];
            SplitArrival(b4, e4, [h.priority]);
            VarInt.DecodeReads(h.subgroupId, b4);
            if |e4| <= |b4| { OctetReads(h.priority, b4[|e4|..]); }
          }
        }
      }
    }
  }

  lemma TrackHeaderReads(h: Header, b: Bytes)
    requires h.Track? && EncodeHeader(h).Success? && Arrived(b, EncodeHeader(h).value)
    ensures Reads(DecodeHeader(b), b, EncodeHeader(h).value, h)
  {
    hide VarInt.Encode, VarInt.Decode, DecodeOctet;
    var e0, e1, e2 := VarInt.Encode(2).value, VarInt.Encode(h.subscribeId).value, VarInt.Encode(h.trackAlias).value;
    SplitArrival(b, e0, e1 + (e2 + [h.priority]));
    VarInt.DecodeReads(2, b);
    if |e0| <= |b| {
      var b1 := b[|e0|..];
      SplitArrival(b1, e1, e2 + [h.priority]);
      VarInt.DecodeReads(h.subscribeId, b1);
      if |e1| <= |b1| {
        var b2 := b1[|e1|..];
        SplitArrival(b2, e2, [h.priority]);
        VarInt.DecodeReads(h.trackAlias, b2);
        if |e2| <= |b2| { OctetReads(h.priority, b2[|e2|..]); }
      }
    }
  }

  /** A stream starts with its type and two identifiers, and the type alone decides what follows; others are refused. */
  lemma StreamTypes(h: Header, id: nat, tail: Bytes)
    requires EncodeHeader(h).Success? && id <= VarInt.MAX
    ensures EncodeHeader(h).value[0] == if h.Track? then 2 else 4
    ensures id !in {2, 4} ==> DecodeHeader(VarInt.Encode(id).value + tail) == Err(InvalidMessage(id))
  {
    VarInt.RoundTrip(id, tail);
  }

  function StatusId(s: ObjectStatus): nat {
    match s
    case Object => 0
    case ObjectDoesNotExist => 1
    case EndOfGroup => 3
    case EndOfTrack => 4
    case EndOfSubgroup => 5
  }

  function DecodeStatus(b: Bytes): Decoded<ObjectStatus> {
    var (id, b) :- VarInt.Decode(b);
    match id
    case 0 => Ok(Object, b)
    case 1 => Ok(ObjectDoesNotExist, b)
    case 3 => Ok(EndOfGroup, b)
    case 4 => Ok(EndOfTrack, b)
    case 5 => Ok(EndOfSubgroup, b)
    case _ => Err(InvalidObjectStatus)
  }

  lemma StatusReads(s: ObjectStatus, b: Bytes)
    requires Arrived(b, VarInt.Encode(StatusId(s)).value)
    ensures Reads(DecodeStatus(b), b, VarInt.Encode(StatusId(s)).value, s)
  {
    VarInt.DecodeReads(StatusId(s), b);
  }

  /** The status is written only for an object without payload. */
  function EncodeObject(o: SubgroupObject): Encoded {
    var objectId :- VarInt.Encode(o.objectId);
    var size :- VarInt.Encode(o.size);
    var status :- if o.size == 0 then VarInt.Encode(StatusId(o.status)) else Success([]);
    Success(objectId + (size + status))
  }

  function DecodeObject(b: Bytes): Decoded<SubgroupObject> {
    var (objectId, b) :- VarInt.Decode(b);
    var (size, b) :- VarInt.Decode(b);
    if size == 0 then
      var (status, b) :- DecodeStatus(b);
      Ok(SubgroupObject(objectId, size, status), b)
    else Ok(SubgroupObject(objectId, size, Object), b)
  }

  /** An object without payload ends with a byte for its status; the codes are not consecutive, and others are refused. */
  lemma StatusCodes(o: SubgroupObject, id: nat, tail: Bytes)
    requires EncodeObject(o).Success? && o.size == 0 && id <= VarInt.MAX
    ensures VarInt.Encode(o.objectId).Success?
    ensures exists code: Byte ::
              && EncodeObject(o).value == VarInt.Encode(o.objectId).value + [0, code]
              && (code == 0 <==> o.status.Object?) && (code == 1 <==> o.status.ObjectDoesNotExist?)
              && (code == 3 <==> o.status.EndOfGroup?) && (code == 4 <==> o.status.EndOfTrack?)
              && (code == 5 <==> o.status.EndOfSubgroup?)
    ensures id !in {0, 1, 3, 4, 5} ==> DecodeStatus(VarInt.Encode(id).value + tail) == Err(InvalidObjectStatus)
  {
    VarInt.RoundTrip(id, tail);
    var code: Byte := StatusId(o.status);
    assert VarInt.Encode(0).value == [0] && VarInt.Encode(code).value == [code];
    assert EncodeObject(o).value == VarInt.Encode(o.objectId).value + [0, code];
  }

  function WireObject(o: SubgroupObject): SubgroupObject {
    if o.size == 0 then o else o.(status := Object)
  }

  lemma ObjectReads(o: SubgroupObject, b: Bytes)
    requires EncodeObject(o).Success? && Arrived(b, EncodeObject(o).value)
    ensures Reads(DecodeObject(b), b, EncodeObject(o).value, WireObject(o))
  {
    hide VarInt.Encode, VarInt.Decode, DecodeStatus;
    var objectId, size := VarInt.Encode(o.objectId).value, VarInt.Encode(o.size).value;
    var status := if o.size == 0 then VarInt.Encode(StatusId(o.status)).value else [];
    SplitArrival(b, objectId, size + status);
    VarInt.DecodeReads(o.objectId, b);
    if |objectId| <= |b| {
      var b1 := b[|objectId|..];
      SplitArrival(b1, size, status);
      VarInt.DecodeReads(o.size, b1);
      if |size| <= |b1| && o.size == 0 { StatusReads(o.status, b1[|size|..]); }
    }
  }

  lemma ObjectHonest(o: SubgroupObject)
    requires EncodeObject(o).Success?
    ensures Honest(DecodeObject, EncodeObject(o).value, WireObject(o))
  {
    forall b | Arrived(b, EncodeObject(o).value) ensures Reads(DecodeObject(b), b, EncodeObject(o).value, WireObject(o)) {
      ObjectReads(o, b);
    }
  }

  /** Every header whose numbers fit 62 bits can be written, and no other. */
  lemma Writable(h: Header, o: SubgroupObject)
    ensures EncodeHeader(h).Success? <==>
              h.subscribeId <= VarInt.MAX && h.trackAlias <= VarInt.MAX
              && (h.Subgroup? ==> h.groupId <= VarInt.MAX && h.subgroupId <= VarInt.MAX)
    ensures EncodeObject(o).Success? <==> o.objectId <= VarInt.MAX && o.size <= VarInt.MAX
  {
    hide VarInt.Encode;
    forall x: nat ensures VarInt.Encode(x).Success? <==> x <= VarInt.MAX { VarInt.RoundTrip(x, []); }
  }

  lemma HeaderHonest(h: Header)
    requires EncodeHeader(h).Success?
    ensures Honest(DecodeHeader, EncodeHeader(h).value, h)
  {
    forall b | Arrived(b, EncodeHeader(h).value) ensures Reads(DecodeHeader(b), b, EncodeHeader(h).value, h) {
      if h.Track? { TrackHeaderReads(h, b); } else { SubgroupHeaderReads(h, b); }
    }
  }
}
