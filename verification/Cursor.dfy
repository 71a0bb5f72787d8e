/** The decoders and encoders in the form the source has them: reads and writes on a buffer that moves. */
module Cursor {
  import opened Wire
  import opened Utf8
  import opened Coding
  import VarInt
  import opened Control

  /** A result agrees with a decoding function if it has its value and tail, or its error. */
  ghost predicate Agrees<T>(r: Result<T, DecodeError>, rest: Bytes, spec: Decoded<T>) {
    match r
    case Success(v) => spec == Ok(v, rest)
    case Failure(e) => spec == Err(e)
  }

  class Cursor {
    const data: Bytes
    var position: nat

    ghost predicate Valid()
      reads this
    {
      position <= |data|
    }

    function Rest(): Bytes
      reads this
      requires Valid()
    {
      data[position..]
    }

    constructor (data: Bytes)
      ensures Valid() && Rest() == data
    {
      this.data := data;
      position := 0;
    }

    method Take(n: nat) returns (r: Bytes)
      requires Valid() && n <= |Rest()|
      modifies this`position
      ensures Valid() && r + Rest() == old(Rest()) && |r| == n
    {
      r := data[position..position + n];
      position := position + n;
    }

    method DecodeRemaining(required: nat) returns (r: Result<(), DecodeError>)
      requires Valid()
      ensures r.Success? <==> required <= |Rest()|
      ensures r.Failure? ==> r.error == More(required - |Rest()|)
    {
      var remaining := |data| - position;
      var needed := if required > remaining then required - remaining else 0;
      r := if needed > 0 then Failure(More(needed)) else Success(());
    }

    method DecodeOctet() returns (r: Result<Byte, DecodeError>)
      requires Valid()
      modifies this`position
      ensures Valid() && Agrees(r, Rest(), Coding.DecodeOctet(old(Rest())))
    {
      var _ :- DecodeRemaining(1);
      var b := Take(1);
      r := Success(b[0]);
    }

    method DecodeVarInt() returns (r: Result<nat, DecodeError>)
      requires Valid()
      modifies this`position
      ensures Valid() && Agrees(r, Rest(), VarInt.Decode(old(Rest())))
    {
      var _ :- DecodeRemaining(1);
      var first := Take(1);
      var tag := first[0] / 64;
      var buf := [first[0] % 64];
      var more := match tag case 0 => 0 case 1 => 1 case 2 => 3 case _ => 7;
      ghost var before := Rest();
      assert before == old(Rest())[1..];
      var _ :- DecodeRemaining(more);
      var others := Take(more);
      assert old(Rest())[1..more + 1] == others;
      r := Success(VarInt.FromBigEndian(buf + others));
    }

    method DecodeBlob() returns (r: Result<Bytes, DecodeError>)
      requires Valid()
      modifies this`position
      ensures Valid() && Agrees(r, Rest(), Coding.DecodeBlob(old(Rest())))
    {
      var size :- DecodeVarInt();
      ghost var before := Rest();
      var _ :- DecodeRemaining(size);
      var v := Take(size);
      assert before[..size] == v && before[size..] == Rest();
      r := Success(v);
    }

    method DecodeString() returns (r: Result<Text, DecodeError>)
      requires Valid()
      modifies this`position
      ensures Valid() && Agrees(r, Rest(), Coding.DecodeText(old(Rest())))
    {
      var v :- DecodeBlob();
      if !Utf8.Valid(v) { return Failure(InvalidString); }
      r := Success(v);
    }

    method DecodeTuple() returns (r: Result<seq<Bytes>, DecodeError>)
      requires Valid()
      modifies this`position
      ensures Valid() && Agrees(r, Rest(), Coding.DecodeTuple(old(Rest())))
    {
      hide VarInt.Decode, Coding.DecodeBlob;
      var count :- DecodeVarInt();
      ghost var body := Rest();
      var fields := [];
      PrependNothing(DecodeBlobs(count, body));
      for i := 0 to count
        invariant Valid() && |fields| == i
        invariant DecodeBlobs(count, body) == Prepend(fields, DecodeBlobs(count - i, Rest()))
      {
        ghost var before := Rest();
        var field := DecodeBlob();
        if field.Failure? { return Failure(field.error); }
        PrependOne(fields, field.value, DecodeBlobs(count - i - 1, Rest()));
        fields := fields + [field.value];
      }
      PrependEnd(fields, Rest());
      r := Success(fields);
    }

    method DecodeParams() returns (r: Result<Params, DecodeError>)
      requires Valid()
      modifies this`position
      ensures Valid() && Agrees(r, Rest(), Coding.DecodeParams(old(Rest())))
    {
      hide VarInt.Decode, Coding.DecodeBlob;
      var params: Params := map[];
      var count :- DecodeVarInt();
      ghost var body := Rest();
      for i := 0 to count
        invariant Valid()
        invariant DecodeEntries(count, map[], body) == DecodeEntries(count - i, params, Rest())
      {
        var kind := DecodeVarInt();
        if kind.Failure? { return Failure(kind.error); }
        if kind.value in params { return Failure(DuplicateParameter); }
        var value := DecodeBlob();
        if value.Failure? { return Failure(value.error); }
        params := params[kind.value := value.value];
      }
      r := Success(params);
    }

    method DecodeOrder() returns (r: Result<GroupOrder, DecodeError>)
      requires Valid()
      modifies this`position
      ensures Valid() && Agrees(r, Rest(), Control.DecodeOrder(old(Rest())))
    {
      var id :- DecodeOctet();
      if id == 0 { r := Success(Publisher); }
      else if id == 1 { r := Success(Ascending); }
      else if id == 2 { r := Success(Descending); }
      else { r := Failure(InvalidGroupOrder); }
    }

    method DecodeLargest() returns (r: Result<Option<(nat, nat)>, DecodeError>)
      requires Valid()
      modifies this`position
      ensures Valid() && Agrees(r, Rest(), Control.DecodeLargest(old(Rest())))
    {
      hide VarInt.Decode;
      var flag :- DecodeOctet();
      if flag == 0 { return Success(None); }
      if flag != 1 { return Failure(InvalidValue); }
      var group :- DecodeVarInt();
      var item :- DecodeVarInt();
      r := Success(Some((group, item)));
    }

    method DecodeLocation() returns (r: Result<Location, DecodeError>)
      requires Valid()
      modifies this`position
      ensures Valid() && Agrees(r, Rest(), Control.DecodeLocation(old(Rest())))
    {
      hide VarInt.Decode;
      var kind :- DecodeVarInt();
      if kind == 0 { return Success(NoLocation); }
      if kind > 3 { return Failure(InvalidSubscribeLocation); }
      var at :- DecodeVarInt();
      r := Success(if kind == 1 then Absolute(at) else if kind == 2 then Latest(at) else Future(at));
    }

    method DecodePair() returns (r: Result<Pair, DecodeError>)
      requires Valid()
      modifies this`position
      ensures Valid() && Agrees(r, Rest(), Control.DecodePair(old(Rest())))
    {
      hide Control.DecodeLocation;
      var group :- DecodeLocation();
      var item :- DecodeLocation();
      r := Success(Pair(group, item));
    }

    /** The filter, and behind it the pairs that an absolute filter announces. */
    method DecodeWindow() returns (r: Result<Window, DecodeError>)
      requires Valid()
      modifies this`position
      ensures Valid() && Agrees(r, Rest(), Control.DecodeWindow(old(Rest())))
    {
      hide VarInt.Decode, Control.DecodePair;
      var id :- DecodeVarInt();
      var filter, start, end := LatestGroup, None, None;
      match id {
        case 1 => filter := LatestGroup;
        case 2 => filter := LatestObject;
        case 3 => filter := AbsoluteStart;
        case 4 => filter := AbsoluteRange;
        case _ => return Failure(InvalidFilterType);
      }
      if filter == AbsoluteStart {
        if |Rest()| < 2 { return Failure(MissingField); }
        var pair :- DecodePair();
        start := Some(pair);
      } else if filter == AbsoluteRange {
        if |Rest()| < 4 { return Failure(MissingField); }
        var first :- DecodePair();
        var last :- DecodePair();
        start, end := Some(first), Some(last);
      }
      if start.Some? && !GroupFirst(start.value) { return Failure(InvalidSubscribeLocation); }
      if end.Some? && !GroupFirst(end.value) { return Failure(InvalidSubscribeLocation); }
      r := Success(Window(filter, start, end));
    }

    method DecodeSubscribeOk() returns (r: Result<Message, DecodeError>)
      requires Valid()
      modifies this`position
      ensures Valid() && Agrees(r, Rest(), Body(0x4, old(Rest())))
    {
      hide VarInt.Decode, Control.DecodeOrder, Control.DecodeLargest, Coding.DecodeOctet, Remaining, Prepend,
           DecodeFields, AfterFields, KindsOf, KindOf, Assemble, Layout;
      LayoutSubscribeOk();
      ghost var b, kinds, f := Rest(), Layout(0x4).value, [];
      NextField(kinds, f, Rest());
      var id :- DecodeVarInt();
      f := f + [Number(id)];
      NextField(kinds, f, Rest());
      var expiry :- DecodeVarInt();
      var expires := if expiry == 0 then None else Some(expiry);
      f := f + [Expiry(expires)];
      NextField(kinds, f, Rest());
      var order :- DecodeOrder();
      f := f + [Order(order)];
      NextField(kinds, f, Rest());
      var latest :- DecodeLargest();
      f := f + [Largest(latest)];
      NextField(kinds, f, Rest());
      var _ :- DecodeOctet();
      f := f + [Reserved];
      NoFieldLeft(kinds, f, Rest());
      assert f == [Number(id), Expiry(expires), Order(order), Largest(latest), Reserved];
      AssembleSubscribeOk(id, expires, order, latest);
      r := Success(SubscribeOk(id, expires, order, latest));
    }

    method DecodeSubscribeDone() returns (r: Result<Message, DecodeError>)
      requires Valid()
      modifies this`position
      ensures Valid() && Agrees(r, Rest(), Body(0xb, old(Rest())))
    {
      hide VarInt.Decode, DecodeText, Control.DecodeLargest,
           DecodeFields, AfterFields, KindsOf, KindOf, Assemble, Layout;
      LayoutSubscribeDone();
      ghost var b, kinds, f := Rest(), Layout(0xb).value, [];
      NextField(kinds, f, Rest());
      var id :- DecodeVarInt();
      f := f + [Number(id)];
      NextField(kinds, f, Rest());
      var code :- DecodeVarInt();
      f := f + [Number(code)];
      NextField(kinds, f, Rest());
      var reason :- DecodeString();
      f := f + [Str(reason)];
      NextField(kinds, f, Rest());
      var last :- DecodeLargest();
      f := f + [Largest(last)];
      NoFieldLeft(kinds, f, Rest());
      assert f == [Number(id), Number(code), Str(reason), Largest(last)];
      AssembleSubscribeDone(id, code, reason, last);
      r := Success(SubscribeDone(id, code, reason, last));
    }

    method DecodeAnnounce() returns (r: Result<Message, DecodeError>)
      requires Valid()
      modifies this`position
      ensures Valid() && Agrees(r, Rest(), Body(0x6, old(Rest())))
    {
      hide Coding.DecodeTuple, Coding.DecodeParams,
           DecodeFields, AfterFields, KindsOf, KindOf, Assemble, Layout;
      LayoutAnnounce();
      ghost var b, kinds, f := Rest(), Layout(0x6).value, [];
      NextField(kinds, f, Rest());
      var namespace :- DecodeTuple();
      f := f + [Tuple(namespace)];
      NextField(kinds, f, Rest());
      var params :- DecodeParams();
      f := f + [Parameters(params)];
      NoFieldLeft(kinds, f, Rest());
      assert f == [Tuple(namespace), Parameters(params)];
      AssembleAnnounce(namespace, params);
      r := Success(Announce(namespace, params));
    }
  }

  /** What was read before, in front of whatever reading the others gives. */
  ghost function Prepend<T>(done: seq<T>, r: Decoded<seq<T>>): Decoded<seq<T>> {
    if r.Ok? then Ok(done + r.value, r.rest) else r
  }

  lemma PrependNothing<T>(r: Decoded<seq<T>>)
    ensures Prepend([], r) == r
  {
    if r.Ok? { assert [] + r.value == r.value; }
  }

  lemma PrependOne<T>(done: seq<T>, v: T, r: Decoded<seq<T>>)
    ensures Prepend(done, Prepend([v], r)) == Prepend(done + [v], r)
  {
    if r.Ok? { assert done + ([v] + r.value) == (done + [v]) + r.value; }
  }

  lemma PrependEnd<T>(done: seq<T>, b: Bytes)
    ensures Prepend(done, Ok([], b)) == Ok(done, b)
  {
    assert done + [] == done;
  }

  /** A message body read by its layout. */
  ghost function Body(typ: nat, b: Bytes): Decoded<Message>
    requires Layout(typ).Some?
  {
    var (f, b) :- DecodeFields(Layout(typ).value, b);
    Ok(Assemble(typ, f), b)
  }

  ghost function AfterFields(kinds: seq<Kind>, done: seq<Field>, b: Bytes): Decoded<seq<Field>>
    requires |done| <= |kinds|
  {
    Prepend(done, DecodeFields(kinds[|done|..], b))
  }

  lemma OneField(kinds: seq<Kind>, b: Bytes)
    requires kinds != []
    ensures match DecodeField(kinds[0], b)
            case Ok(f, rest) => DecodeFields(kinds, b) == Prepend([f], DecodeFields(kinds[1..], rest))
            case Err(e) => DecodeFields(kinds, b) == Err(e)
  {
    hide DecodeField, KindOf, KindsOf;
  }

  lemma NextField(kinds: seq<Kind>, done: seq<Field>, b: Bytes)
    requires |done| < |kinds|
    ensures done == [] ==> AfterFields(kinds, done, b) == DecodeFields(kinds, b)
    ensures match DecodeField(kinds[|done|], b)
            case Ok(f, rest) => AfterFields(kinds, done, b) == AfterFields(kinds, done + [f], rest)
            case Err(e) => AfterFields(kinds, done, b) == Err(e)
  {
    hide DecodeField, DecodeFields, KindOf, KindsOf;
    var ks := kinds[|done|..];
    OneField(ks, b);
    assert ks[1..] == kinds[|done| + 1..];
    if done == [] {
      assert ks == kinds;
      PrependNothing(DecodeFields(kinds, b));
    }
    match DecodeField(kinds[|done|], b)
    case Ok(f, rest) => PrependOne(done, f, DecodeFields(ks[1..], rest));
    case Err(_) =>
  }

  lemma NoFieldLeft(kinds: seq<Kind>, done: seq<Field>, b: Bytes)
    requires |done| == |kinds|
    ensures AfterFields(kinds, done, b) == Ok(done, b)
  {
    PrependEnd(done, b);
  }

  lemma LayoutSubscribeOk()
    ensures Layout(0x4) == Some([KNumber, KExpiry, KOrder, KLargest, KReserved])
  {
  }

  lemma AssembleSubscribeOk(id: nat, expires: Option<nat>, order: GroupOrder, latest: Option<(nat, nat)>)
    ensures var f := [Number(id), Expiry(expires), Order(order), Largest(latest), Reserved];
            Layout(0x4) == Some(KindsOf(f)) && Assemble(0x4, f) == SubscribeOk(id, expires, order, latest)
  {
    var f := [Number(id), Expiry(expires), Order(order), Largest(latest), Reserved];
    assert Layout(0x4).value == KindsOf(f);
  }

  lemma LayoutSubscribeDone()
    ensures Layout(0xb) == Some([KNumber, KNumber, KStr, KLargest])
  {
  }

  lemma AssembleSubscribeDone(id: nat, code: nat, reason: Text, last: Option<(nat, nat)>)
    ensures var f := [Number(id), Number(code), Str(reason), Largest(last)];
            Layout(0xb) == Some(KindsOf(f)) && Assemble(0xb, f) == SubscribeDone(id, code, reason, last)
  {
    var f := [Number(id), Number(code), Str(reason), Largest(last)];
    assert Layout(0xb).value == KindsOf(f);
  }

  lemma LayoutAnnounce()
    ensures Layout(0x6) == Some([KTuple, KParameters])
  {
  }

  lemma AssembleAnnounce(namespace: Names, params: Params)
    ensures var f := [Tuple(namespace), Parameters(params)];
            Layout(0x6) == Some(KindsOf(f)) && Assemble(0x6, f) == Announce(namespace, params)
  {
    var f := [Tuple(namespace), Parameters(params)];
    assert Layout(0x6).value == KindsOf(f);
  }
}
