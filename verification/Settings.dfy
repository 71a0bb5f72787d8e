/** The SETTINGS exchange that opens a control stream. */
module Settings {
  import opened Wire
  import opened Coding
  import opened H3Frame
  import opened Reader
  import VarInt

  const CONTROL: nat := 0x00
  const U32: int := 0x1_0000_0000

  datatype SettingsError = UnexpectedEnd | UnexpectedStreamType(typ: nat) | UnexpectedFrame(frame: nat) | InvalidSize

  type Values = map<nat, nat>

  ghost predicate Sound(m: Values) {
    forall k | k in m :: k <= VarInt.MAX && m[k] <= VarInt.MAX
  }

  // --- decoding ---

  /** Pairs up to the end of the payload; the identifiers that are there to be ignored are not kept. */
  function DecodePairs(b: Bytes, settings: Values): Result<Values, SettingsError>
    decreases |b|
  {
    if b == [] then Success(settings)
    else
      var id := VarInt.Decode(b);
      if id.Err? then Failure(InvalidSize)
      else
        var value := VarInt.Decode(id.rest);
        if value.Err? then Failure(InvalidSize)
        else DecodePairs(value.rest, if IsGrease(id.value) then settings else settings[id.value := value.value])
  }

  function Decode(b: Bytes): Result<Values, SettingsError> {
    var typ := VarInt.Decode(b);
    if typ.Err? then Failure(UnexpectedEnd)
    else if typ.value != CONTROL then Failure(UnexpectedStreamType(typ.value))
    else match H3Frame.Read(typ.rest)
      case None => Failure(UnexpectedEnd)
      case Some(f) => if f.typ != SETTINGS then Failure(UnexpectedFrame(f.typ)) else DecodePairs(f.payload, map[])
  }

  method DecodeSettings(b: Bytes) returns (r: Result<Values, SettingsError>)
    ensures r == Decode(b)
  {
    hide VarInt.Decode, H3Frame.Read;
    var typ := VarInt.Decode(b);
    if typ.Err? { return Failure(UnexpectedEnd); }
    if typ.value != CONTROL { return Failure(UnexpectedStreamType(typ.value)); }
    var frame := H3Frame.Read(typ.rest);
    if frame.None? { return Failure(UnexpectedEnd); }
    if frame.value.typ != SETTINGS { return Failure(UnexpectedFrame(frame.value.typ)); }
    var data := frame.value.payload;
    var settings: Values := map[];
    while data != []
      invariant DecodePairs(frame.value.payload, map[]) == DecodePairs(data, settings)
      decreases |data|
    {
      PairTakes(data);
      var id := VarInt.Decode(data);
      if id.Err? { return Failure(InvalidSize); }
      var value := VarInt.Decode(id.rest);
      if value.Err? { return Failure(InvalidSize); }
      if !IsGrease(id.value) { settings := settings[id.value := value.value]; }
      data := value.rest;
    }
    return Success(settings);
  }

  lemma PairTakes(b: Bytes)
    ensures VarInt.Decode(b).Ok? ==> |VarInt.Decode(b).rest| < |b|
    ensures VarInt.Decode(b).Ok? && VarInt.Decode(VarInt.Decode(b).rest).Ok? ==>
              |VarInt.Decode(VarInt.Decode(b).rest).rest| < |b|
  {
  }

  /** Reading from a stream: every read adds to the buffer, and the whole buffer is tried again. */
  function ReadRun(buffer: Bytes, stream: seq<Bytes>): Result<Values, SettingsError>
    decreases |stream|
  {
    if stream == [] || stream[0] == [] then Failure(UnexpectedEnd)
    else
      var buffer := buffer + stream[0];
      if Decode(buffer) == Failure(UnexpectedEnd) then ReadRun(buffer, stream[1..]) else Decode(buffer)
  }

  method Read(stream: seq<Bytes>) returns (r: Result<Values, SettingsError>)
    ensures r == ReadRun([], stream)
  {
    hide Decode;
    var buf, left := [], stream;
    while true
      invariant ReadRun([], stream) == ReadRun(buf, left)
      decreases |left|
    {
      if left == [] || left[0] == [] { return Failure(UnexpectedEnd); }
      buf, left := buf + left[0], left[1..];
      r := DecodeSettings(buf);
      if r != Failure(UnexpectedEnd) { return; }
    }
  }

  // --- encoding ---

  function Pair(id: nat, value: nat): Bytes
    requires id <= VarInt.MAX && value <= VarInt.MAX
  {
    Var(id) + Var(value)
  }

  function Pairs(m: Values, order: seq<nat>): Bytes
    requires Sound(m) && forall k | k in order :: k in m
  {
    if order == [] then [] else Pair(order[0], m[order[0]]) + Pairs(m, order[1..])
  }

  /** The length is cut to 32 bits. */
  function Encode(m: Values, order: seq<nat>): Bytes
    requires Sound(m) && Enumerates(order, m.Keys)
  {
    var body := Pairs(m, order);
    Var(CONTROL) + Wrap(SETTINGS, |body| % U32, body)
  }

  method EncodeSettings(buf: Bytes, m: Values, order: seq<nat>) returns (r: Bytes)
    requires Sound(m) && Enumerates(order, m.Keys)
    ensures r == buf + Encode(m, order)
  {
    hide Var;
    var tmp: Bytes := [];
    var i := 0;
    assert order[0..] == order;
    while i < |order|
      invariant 0 <= i <= |order|
      invariant forall k | k in order :: k in m
      invariant tmp + Pairs(m, order[i..]) == Pairs(m, order)
    {
      var id := order[i];
      assert order[i..][0] == id && order[i..][1..] == order[i + 1..];
      assert tmp + (Pair(id, m[id]) + Pairs(m, order[i + 1..])) == (tmp + Pair(id, m[id])) + Pairs(m, order[i + 1..]);
      tmp := tmp + Pair(id, m[id]);
      i := i + 1;
    }
    assert order[i..] == [] && tmp == Pairs(m, order);
    r := buf + Var(CONTROL) + Var(SETTINGS) + Var(|tmp| % U32) + tmp;
    assert r == buf + (Var(CONTROL) + (Var(SETTINGS) + (Var(|tmp| % U32) + tmp)));
  }

  // --- the map comes back ---

  /** What survives: the settings that are not there to be ignored. */
  ghost function Kept(m: Values): Values {
    map k | k in m && !IsGrease(k) :: m[k]
  }

  ghost function Adding(m: Values, order: seq<nat>, before: Values): Values
    requires forall k | k in order :: k in m
  {
    if order == [] then before
    else Adding(m, order[1..], if IsGrease(order[0]) then before else before[order[0] := m[order[0]]])
  }

  lemma {:induction false} AddingAll(m: Values, order: seq<nat>, before: Values)
    requires forall k | k in order :: k in m
    ensures var r := Adding(m, order, before);
            && (forall k :: k in r <==> k in before || (k in order && !IsGrease(k)))
            && (forall k | k in r :: r[k] == if k in order && !IsGrease(k) then m[k] else before[k])
    decreases |order|
  {
    hide IsGrease;
    if order != [] {
      assert order == [order[0]] + order[1..];
      AddingAll(m, order[1..], if IsGrease(order[0]) then before else before[order[0] := m[order[0]]]);
    }
  }

  lemma PairDecodes(id: nat, value: nat, rest: Bytes)
    requires id <= VarInt.MAX && value <= VarInt.MAX
    ensures Pair(id, value) != []
    ensures var b := Pair(id, value) + rest;
            VarInt.Decode(b).Ok? && VarInt.Decode(b).value == id
            && VarInt.Decode(VarInt.Decode(b).rest) == Ok(value, rest)
  {
    hide VarInt.Encode, VarInt.Decode;
    VarInt.Shape(id) by { VarInt.RoundTrip(id, []); }
    assert Var(id) + Var(value) + rest == Var(id) + (Var(value) + rest);
    VarInt.RoundTrip(id, Var(value) + rest);
    VarInt.RoundTrip(value, rest);
  }

  lemma {:induction false} PairsDecode(m: Values, order: seq<nat>, before: Values)
    requires Sound(m) && forall k | k in order :: k in m
    ensures DecodePairs(Pairs(m, order), before) == Success(Adding(m, order, before))
    decreases |order|
  {
    hide VarInt.Decode, Pair, IsGrease;
    if order != [] {
      PairDecodes(order[0], m[order[0]], Pairs(m, order[1..]));
      PairsDecode(m, order[1..], if IsGrease(order[0]) then before else before[order[0] := m[order[0]]]);
    }
  }

  /** The settings frame on the wire, behind any greasing frames. */
  function OnWire(fs: seq<Grease>, m: Values, order: seq<nat>): Bytes
    requires Sound(m) && Enumerates(order, m.Keys)
  {
    var body := Pairs(m, order);
    Var(CONTROL) + (Greases(fs) + Wrap(SETTINGS, |body| % U32, body))
  }

  /** Every arrival of the settings either gives the map, or is found to be short; no other error can come up. */
  lemma DecodeReads(fs: seq<Grease>, m: Values, order: seq<nat>, b: Bytes)
    requires Sound(m) && Enumerates(order, m.Keys) && |Pairs(m, order)| < U32
    requires Arrived(b, OnWire(fs, m, order))
    ensures Decode(b) == if |OnWire(fs, m, order)| <= |b| then Success(Kept(m)) else Failure(UnexpectedEnd)
  {
    hide Var, VarInt.Decode, VarInt.Encode, H3Frame.Read, Greases, Wrap, DecodePairs, Pairs;
    var body := Pairs(m, order);
    var frames := Greases(fs) + Wrap(SETTINGS, |body|, body);
    SplitArrival(b, Var(CONTROL), frames);
    VarReads(CONTROL, b);
    if |Var(CONTROL)| <= |b| {
      ReadSkips(fs, SETTINGS, body, b[|Var(CONTROL)|..]);
      PairsDecode(m, order, map[]);
      AddingAll(m, order, map[]);
      assert Adding(m, order, map[]) == Kept(m);
    }
  }

  /** For any map, any greasing frames in front and any split of the stream into reads: reading gives the map. */
  lemma {:induction false} ReadsAcrossReads(fs: seq<Grease>, m: Values, order: seq<nat>, buffer: Bytes, stream: seq<Bytes>,
                                            tail: Bytes)
    requires Sound(m) && Enumerates(order, m.Keys) && |Pairs(m, order)| < U32
    requires forall i | 0 <= i < |stream| :: stream[i] != []
    requires buffer + Flatten(stream) == OnWire(fs, m, order) + tail && |buffer| < |OnWire(fs, m, order)|
    ensures ReadRun(buffer, stream) == Success(Kept(m))
    decreases |stream|
  {
    hide Decode, OnWire, Kept, Sound, Pairs;
    var e := OnWire(fs, m, order);
    assert stream == [] ==> buffer + Flatten(stream) == buffer;
    if stream != [] {
      var now := buffer + stream[0];
      assert now + Flatten(stream[1..]) == e + tail by {
        assert buffer + (stream[0] + Flatten(stream[1..])) == now + Flatten(stream[1..]);
      }
      assert (e + tail)[..|now|] == now;
      assert if |now| <= |e| then now == e[..|now|] else now[..|e|] == e;
      DecodeReads(fs, m, order, now);
      if |now| < |e| { ReadsAcrossReads(fs, m, order, now, stream[1..], tail); }
    }
  }

  /** What one side writes the other reads, in any pieces: a map without greasing identifiers comes back unchanged. */
  lemma RoundTrip(m: Values, order: seq<nat>, stream: seq<Bytes>)
    requires Sound(m) && Enumerates(order, m.Keys) && |Pairs(m, order)| < U32
    requires forall i | 0 <= i < |stream| :: stream[i] != []
    requires Flatten(stream) == Encode(m, order)
    requires forall k | k in m :: !IsGrease(k)
    ensures ReadRun([], stream) == Success(m)
  {
    hide Pairs, Wrap, Var, ReadRun;
    assert Greases([]) + Wrap(SETTINGS, |Pairs(m, order)|, Pairs(m, order)) == Wrap(SETTINGS, |Pairs(m, order)|, Pairs(m, order));
    assert OnWire([], m, order) == Encode(m, order);
    VarIsNotEmpty(CONTROL);
    assert [] + Flatten(stream) == OnWire([], m, order) + [];
    ReadsAcrossReads([], m, order, [], stream, []);
    assert Kept(m) == m;
  }

  // --- what is refused ---

  /** Settings start with the type of a control stream and that of a frame of settings; another stream type is refused. */
  lemma OtherStream(m: Values, order: seq<nat>, typ: nat, rest: Bytes)
    requires Sound(m) && Enumerates(order, m.Keys) && typ <= VarInt.MAX
    ensures |Encode(m, order)| >= 2 && Encode(m, order)[..2] == [0x00, 0x04]
    ensures typ != 0x00 ==> Decode(Var(typ) + rest) == Failure(UnexpectedStreamType(typ))
  {
    assert Var(CONTROL) == [0] && Var(SETTINGS) == [4];
    VarInt.RoundTrip(typ, rest);
    hide Var, VarInt.Decode, H3Frame.Read, Pairs;
  }

  /** A first frame that is neither of settings nor there to be ignored is refused by its type. */
  lemma OtherFrame(fs: seq<Grease>, typ: nat, payload: Bytes, rest: Bytes)
    requires typ <= VarInt.MAX && |payload| <= VarInt.MAX && !IsGrease(typ) && typ != 0x04
    ensures Decode(Var(CONTROL) + ((Greases(fs) + Wrap(typ, |payload|, payload)) + rest)) == Failure(UnexpectedFrame(typ))
  {
    var frames := Greases(fs) + Wrap(typ, |payload|, payload);
    hide Var, VarInt.Decode, VarInt.Encode, H3Frame.Read, Greases, Wrap, DecodePairs, IsGrease;
    VarFirst(CONTROL, frames + rest);
    WholeArrives(frames, rest);
    ReadSkips(fs, typ, payload, frames + rest);
  }

  lemma VarFirst(x: nat, rest: Bytes)
    requires x <= VarInt.MAX
    ensures VarInt.Decode(Var(x) + rest) == Ok(x, rest)
  {
    hide VarInt.Decode, VarInt.Encode;
    VarInt.RoundTrip(x, rest);
  }

  /** A payload that ends inside a pair is refused, whatever pairs stand in front. */
  lemma {:induction false} BrokenPair(m: Values, order: seq<nat>, id: nat, value: nat, part: Bytes, before: Values)
    requires Sound(m) && (forall k | k in order :: k in m) && id <= VarInt.MAX && value <= VarInt.MAX
    requires part <= Pair(id, value) && 0 < |part| < |Pair(id, value)|
    ensures DecodePairs(Pairs(m, order) + part, before) == Failure(InvalidSize)
    decreases |order|
  {
    if order == [] {
      assert [] + part == part;
      PartOfPair(id, value, part);
    } else {
      hide VarInt.Decode, Pair, IsGrease;
      assert (Pair(order[0], m[order[0]]) + Pairs(m, order[1..])) + part
          == Pair(order[0], m[order[0]]) + (Pairs(m, order[1..]) + part);
      PairDecodes(order[0], m[order[0]], Pairs(m, order[1..]) + part);
      BrokenPair(m, order[1..], id, value, part, if IsGrease(order[0]) then before else before[order[0] := m[order[0]]]);
    }
  }

  lemma PartOfPair(id: nat, value: nat, part: Bytes)
    requires id <= VarInt.MAX && value <= VarInt.MAX && part <= Pair(id, value) && |part| < |Pair(id, value)|
    ensures VarInt.Decode(part).Ok? ==> VarInt.Decode(VarInt.Decode(part).rest).Err?
  {
    hide Var, VarInt.Decode;
    SplitArrival(part, Var(id), Var(value));
    VarReads(id, part);
    if |Var(id)| <= |part| { VarReads(value, part[|Var(id)|..]); }
  }

  /** Such settings are refused as a whole. */
  lemma BrokenSettings(fs: seq<Grease>, m: Values, order: seq<nat>, id: nat, value: nat, part: Bytes, rest: Bytes)
    requires Sound(m) && (forall k | k in order :: k in m) && id <= VarInt.MAX && value <= VarInt.MAX
    requires part <= Pair(id, value) && 0 < |part| < |Pair(id, value)| && |Pairs(m, order) + part| <= VarInt.MAX
    ensures var p := Pairs(m, order) + part;
            Decode(Var(CONTROL) + ((Greases(fs) + Wrap(SETTINGS, |p|, p)) + rest)) == Failure(InvalidSize)
  {
    var p := Pairs(m, order) + part;
    var frames := Greases(fs) + Wrap(SETTINGS, |p|, p);
    hide Var, VarInt.Decode, VarInt.Encode, H3Frame.Read, Greases, Wrap, DecodePairs, Pair, Pairs;
    VarFirst(CONTROL, frames + rest);
    WholeArrives(frames, rest);
    ReadSkips(fs, SETTINGS, p, frames + rest);
    BrokenPair(m, order, id, value, part, map[]);
  }

  /** A stream that ends before its settings do is found short, however it was cut. */
  lemma {:induction false} EndsEarly(fs: seq<Grease>, m: Values, order: seq<nat>, buffer: Bytes, stream: seq<Bytes>)
    requires Sound(m) && Enumerates(order, m.Keys) && |Pairs(m, order)| < U32
    requires buffer + Flatten(stream) <= OnWire(fs, m, order) && |buffer + Flatten(stream)| < |OnWire(fs, m, order)|
    ensures ReadRun(buffer, stream) == Failure(UnexpectedEnd)
    decreases |stream|
  {
    hide Decode, OnWire, Kept, Sound, Pairs;
    if stream != [] && stream[0] != [] {
      var now := buffer + stream[0];
      assert buffer + (stream[0] + Flatten(stream[1..])) == now + Flatten(stream[1..]);
      DecodeReads(fs, m, order, now);
      EndsEarly(fs, m, order, now, stream[1..]);
    }
  }

  /** A payload cut off before its end never yields the last of its settings. */
  lemma {:induction false} CutPairs(m: Values, order: seq<nat>, p: Bytes, before: Values)
    requires Sound(m) && order != [] && (forall k | k in order :: k in m)
    requires p <= Pairs(m, order) && p != Pairs(m, order)
    requires forall i, j | 0 <= i < j < |order| :: order[i] != order[j]
    requires order[|order| - 1] !in before
    ensures var r := DecodePairs(p, before); r.Success? ==> order[|order| - 1] !in r.value
    decreases |order|
  {
    hide Var, VarInt.Decode, IsGrease;
    if p != [] {
      var id, others := order[0], Pairs(m, order[1..]);
      var first, second := Var(id), Var(m[id]);
      assert Pairs(m, order) == first + (second + others) by { assert Pair(id, m[id]) == first + second; }
      SplitArrival(p, first, second + others);
      VarReads(id, p);
      if |first| <= |p| {
        SplitArrival(p[|first|..], second, others);
        VarReads(m[id], p[|first|..]);
        if |second| <= |p[|first|..]| {
          var q := p[|first|..][|second|..];
          CutTail(p, first, second, others);
          assert |order| == 1 ==> others == [];
          CutPairs(m, order[1..], q, if IsGrease(id) then before else before[id := m[id]]);
        }
      }
    }
  }

  lemma CutTail(p: Bytes, first: Bytes, second: Bytes, others: Bytes)
    requires p <= first + (second + others) && p != first + (second + others) && |first| + |second| <= |p|
    ensures p[|first|..][|second|..] <= others && p[|first|..][|second|..] != others && others != []
  {
    var e := first + (second + others);
    var q := p[|first|..][|second|..];
    assert p == e[..|p|];
    assert forall i | 0 <= i < |q| :: q[i] == p[|first| + |second| + i] == e[|first| + |second| + i] == others[i];
    assert |p| < |e|;
  }

  /**
   * The settings come back exactly as long as their payload is shorter than 2^32 bytes: a longer one is
   * announced with its length cut to 32 bits.
   */
  lemma ComesBack(m: Values, order: seq<nat>)
    requires Sound(m) && Enumerates(order, m.Keys) && forall k | k in m :: !IsGrease(k)
    ensures Decode(Encode(m, order)) == Success(m) <==> |Pairs(m, order)| < U32
  {
    hide Pairs, Wrap, Var, DecodePairs, VarInt.Decode, VarInt.Encode, H3Frame.Read;
    var body := Pairs(m, order);
    if |body| < U32 {
      assert Greases([]) + Wrap(SETTINGS, |body|, body) == Wrap(SETTINGS, |body|, body);
      assert OnWire([], m, order) == Encode(m, order);
      DecodeReads([], m, order, Encode(m, order));
      assert Kept(m) == m;
    } else {
      var n := |body| % U32;
      LongFrame(n, body);
      VarReads(CONTROL, Encode(m, order));
      NoPairs(m, order);
      CutPairs(m, order, body[..n], map[]);
      assert order[|order| - 1] in m;
    }
  }

  lemma NoPairs(m: Values, order: seq<nat>)
    requires Sound(m) && (forall k | k in order :: k in m) && Pairs(m, order) != []
    ensures order != []
  {
  }

  lemma LongFrame(n: nat, body: Bytes)
    requires n <= |body| && n <= VarInt.MAX
    ensures H3Frame.Read(Wrap(SETTINGS, n, body)) == Some(Framed(SETTINGS, body[..n], body[n..]))
  {
    hide Var;
    var w := Wrap(SETTINGS, n, body[..n]);
    assert body == body[..n] + body[n..];
    assert Wrap(SETTINGS, n, body) == w + body[n..];
    hide Wrap, One;
    WholeArrives(w, body[n..]);
    OneReads(SETTINGS, body[..n], Wrap(SETTINGS, n, body));
  }

  lemma {:induction false} PairsAreLong(m: Values, order: seq<nat>)
    requires Sound(m) && forall k | k in order :: k in m
    ensures |Pairs(m, order)| >= 2 * |order|
  {
    hide Var;
    if order != [] {
      assert order[0] in m;
      VarIsNotEmpty(order[0]);
      VarIsNotEmpty(m[order[0]]);
      PairsAreLong(m, order[1..]);
    }
  }

  const MANY: nat := 0x8000_0000

  /** As many settings as the length field cannot hold, none of them a greasing one. */
  ghost function ManySettings(): Values {
    map k: nat | 0 <= k < 0x1f * MANY && k % 0x1f == 0 :: 0
  }

  function ManyOrder(): seq<nat> {
    seq(MANY, i requires 0 <= i => 0x1f * i)
  }

  lemma ManyEnumerated()
    ensures Sound(ManySettings()) && Enumerates(ManyOrder(), ManySettings().Keys)
    ensures forall k | k in ManySettings() :: !IsGrease(k)
  {
    forall k ensures k in ManyOrder() <==> k in ManySettings().Keys {
      if k in ManySettings() { assert ManyOrder()[k / 0x1f] == k; }
    }
  }

  /** A map that does not come back. */
  lemma TooManySettings()
    ensures Sound(ManySettings()) && Enumerates(ManyOrder(), ManySettings().Keys)
    ensures |Pairs(ManySettings(), ManyOrder())| >= U32
    ensures Decode(Encode(ManySettings(), ManyOrder())) != Success(ManySettings())
  {
    ManyEnumerated();
    hide ManySettings, ManyOrder, Sound, Enumerates, Decode, Encode, Pairs;
    assert |ManyOrder()| == MANY by { ManyLength(); }
    PairsOfMany();
    ComesBack(ManySettings(), ManyOrder());
  }

  lemma ManyLength()
    ensures |ManyOrder()| == MANY
  {
  }

  lemma PairsOfMany()
    requires Sound(ManySettings()) && Enumerates(ManyOrder(), ManySettings().Keys)
    ensures |Pairs(ManySettings(), ManyOrder())| >= 2 * |ManyOrder()|
  {
    hide ManySettings, ManyOrder, Pairs, Sound;
    PairsAreLong(ManySettings(), ManyOrder());
  }

  lemma VarIsNotEmpty(x: nat)
    requires x <= VarInt.MAX
    ensures Var(x) != []
  {
    hide VarInt.Encode, VarInt.Decode;
    VarInt.Shape(x) by { VarInt.RoundTrip(x, []); }
  }
}
