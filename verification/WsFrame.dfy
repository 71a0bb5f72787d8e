/** The frames that one WebSocket message carries each. */
module WsFrame {
  import opened Wire
  import opened Utf8
  import VarInt

  const RESET_STREAM: Byte := 0x04
  const STOP_SENDING: Byte := 0x05
  const STREAM: Byte := 0x08
  const STREAM_FIN: Byte := 0x09
  const APPLICATION_CLOSE: Byte := 0x1d

  datatype Stream = Stream(id: nat, data: Bytes, fin: bool)

  datatype Frame =
    | ResetStream(id: nat, code: nat)
    | StopSending(id: nat, code: nat)
    | ConnectionClose(code: nat, reason: Bytes)
    | StreamFrame(stream: Stream)

  datatype FrameError = Short | VarIntEnd | InvalidFrameType(typ: Byte)

  /** Identifiers and codes are varints by type. */
  predicate Sound(f: Frame) {
    match f
    case ResetStream(id, code) => id <= VarInt.MAX && code <= VarInt.MAX
    case StopSending(id, code) => id <= VarInt.MAX && code <= VarInt.MAX
    case ConnectionClose(code, _) => code <= VarInt.MAX
    case StreamFrame(s) => s.id <= VarInt.MAX
  }

  function Var(x: nat): Bytes
    requires x <= VarInt.MAX
  {
    VarInt.RoundTrip(x, []);
    VarInt.Encode(x).value
  }

  function Encode(f: Frame): Bytes
    requires Sound(f)
  {
    match f
    case ResetStream(id, code) => [RESET_STREAM] + (Var(id) + Var(code))
    case StopSending(id, code) => [STOP_SENDING] + (Var(id) + Var(code))
    case ConnectionClose(code, reason) => [APPLICATION_CLOSE] + (Var(code) + reason)
    case StreamFrame(s) => [if s.fin then STREAM_FIN else STREAM] + (Var(s.id) + s.data)
  }

  function Two(b: Bytes): Result<(nat, nat), FrameError> {
    var first := VarInt.Decode(b);
    if first.Err? then Failure(VarIntEnd)
    else
      var second := VarInt.Decode(first.rest);
      if second.Err? then Failure(VarIntEnd) else Success((first.value, second.value))
  }

  function One(b: Bytes): Result<(nat, Bytes), FrameError> {
    var first := VarInt.Decode(b);
    if first.Err? then Failure(VarIntEnd) else Success((first.value, first.rest))
  }

  function Decode(b: Bytes): Result<Frame, FrameError> {
    if b == [] then Failure(Short)
    else if b[0] == RESET_STREAM then
      var (id, code) :- Two(b[1..]);
      Success(ResetStream(id, code))
    else if b[0] == STOP_SENDING then
      var (id, code) :- Two(b[1..]);
      Success(StopSending(id, code))
    else if b[0] == STREAM || b[0] == STREAM_FIN then
      var (id, data) :- One(b[1..]);
      Success(StreamFrame(Stream(id, data, b[0] == STREAM_FIN)))
    else if b[0] == APPLICATION_CLOSE then
      var (code, reason) :- One(b[1..]);
      Success(ConnectionClose(code, reason))
    else Failure(InvalidFrameType(b[0]))
  }

  /** The first byte tells the kind of frame, and a FIN is told by its last bit. */
  lemma Tags(f: Frame)
    requires Sound(f)
    ensures f.ResetStream? ==> Encode(f) == [0x04] + (Var(f.id) + Var(f.code))
    ensures f.StopSending? ==> Encode(f) == [0x05] + (Var(f.id) + Var(f.code))
    ensures f.ConnectionClose? ==> Encode(f) == [0x1d] + (Var(f.code) + f.reason)
    ensures f.StreamFrame? ==> Encode(f) == [if f.stream.fin then 0x09 else 0x08] + (Var(f.stream.id) + f.stream.data)
  {
  }

  /** Any message: its first byte, one or two numbers, and all the rest; else why it carries no frame. */
  lemma DecodesAny(b: Bytes)
    ensures Decode(b) == Failure(Short) <==> b == []
    ensures b != [] && b[0] !in {0x04, 0x05, 0x08, 0x09, 0x1d} ==> Decode(b) == Failure(InvalidFrameType(b[0]))
    ensures b != [] && b[0] in {0x08, 0x09, 0x1d} ==>
              var first := VarInt.Decode(b[1..]);
              Decode(b) == if first.Err? then Failure(VarIntEnd)
                           else Success(if b[0] == 0x1d then ConnectionClose(first.value, first.rest)
                                        else StreamFrame(Stream(first.value, first.rest, b[0] == 0x09)))
    ensures b != [] && b[0] in {0x04, 0x05} ==>
              var first := VarInt.Decode(b[1..]);
              if first.Err? || VarInt.Decode(first.rest).Err? then Decode(b) == Failure(VarIntEnd)
              else
                var code := VarInt.Decode(first.rest).value;
                Decode(b) == Success(if b[0] == 0x04 then ResetStream(first.value, code) else StopSending(first.value, code))
  {
    hide VarInt.Decode;
  }

  /** A message boundary delimits the frame: no length is needed to get the payload back. */
  lemma RoundTrip(f: Frame)
    requires Sound(f)
    ensures Decode(Encode(f)) == Success(f)
  {
    hide VarInt.Encode, VarInt.Decode;
    var b := Encode(f);
    match f
    case ResetStream(id, code) =>
      assert b[1..] == Var(id) + Var(code);
      assert Var(code) + [] == Var(code);
      VarInt.RoundTrip(id, Var(code));
      VarInt.RoundTrip(code, []);
    case StopSending(id, code) =>
      assert b[1..] == Var(id) + Var(code);
      assert Var(code) + [] == Var(code);
      VarInt.RoundTrip(id, Var(code));
      VarInt.RoundTrip(code, []);
    case ConnectionClose(code, reason) =>
      assert b[1..] == Var(code) + reason;
      VarInt.RoundTrip(code, reason);
    case StreamFrame(s) =>
      assert b[1..] == Var(s.id) + s.data;
      VarInt.RoundTrip(s.id, s.data);
  }
}
