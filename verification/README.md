# A verified model of the relay

This project models a Media-over-QUIC relay and proves properties of the model with Dafny. `dafny verify
dfyconfig.toml` checks all of it. It follows the program file by file:

- **Wire format and incremental reading** (`Wire`, `Utf8`, `VarInt`, `Coding`, `Control`, `ControlWire`, `Cursor`, `Data`,
  `Reader`, `Relay`, `Hops`). The decoders of draft-ietf-moq-transport-07 report how many bytes they still need, and a reader
  retries with more. One law, `Reads`, says what a decoder owes its caller for every part of a message that may have
  arrived; it is proved for every codec and carried through the reader's loop to a whole relay hop, and on over any number of hops. `ControlWire`
  holds the messages against their bytes and says what is refused; `Cursor` has the decoders in the form in which they
  move through a buffer.
- **Streams over one WebSocket** (`StreamIds`, `WsFrame`, `WsSession`, `Mux`, `MuxProof`, `MuxRuns`, `WsStreams`, `WsSteps`).
  Two sessions and the ordered wire between them are a step system; one step is a poll of an application call or a turn
  of a session's biased loop. `Mux` defines it, `MuxProof` shows that each step keeps one invariant for every stream
  and each endpoint, `MuxRuns` draws the conclusions, `WsStreams` has the session and its streams as objects, and `WsSteps`
  shows that these objects move as the model does.
- **Header compression and codes** (`BitStrings`, `HuffmanTable`, `Huffman`, `PrefixInt`, `StaticTable`, `Qpack`,
  `ErrorMap`, `H3Frame`, `Settings`). The Huffman decoder's tree of tables is checked entry by entry against Appendix B of
  RFC 7541, and its windows of bits against plain strings of bits; prefix integers, field lines, error codes and the
  SETTINGS exchange follow.
- **Shared state** (`Watch`, `Queue`, `FanOut`, `Subgroup`, `Latest`, `Objects`). An epoch with registered wakers and
  halves that notice each other's end, the queue on top of it, and the logs and caches that fan objects out.
- **State machines on top** (`Subscription`, `Listing`). The life of a subscription on both sides, and the listing of
  a namespace as snapshot and deltas.

Most modules have three layers: functions on values say what a step does, lemmas prove what every run of such steps
keeps, and classes carry the methods that change state in place, each held by its contract to the functions. Loops
stand where the program has them.

Where the program does not do what it is for, the model keeps the program's behaviour and states the exact condition
under which the property holds:

- Control messages with an absolute filter cannot be read incrementally: short input is refused as a missing field,
  and an absolute start leaves its encoded end unread (`Control.MessageHonest`, `Control.AbsoluteWindows`).
- A relay hop numbers the objects anew and gives them the ordinary status: ids survive exactly when they were
  0, 1, ..., statuses exactly when all were ordinary (`Relay.Hop`). Both hold of what a subgroup writer makes
  (`Hops.WrittenSurvives`).
- SETTINGS announce their length modulo 2^32 (`Settings.ComesBack`, `Settings.TooManySettings`).
- A reserved HTTP/3 code does not survive the error map (`ErrorMap.BackAndForth`, `ErrorMap.FirstReserved`).
- Appending a group stops working after group 2^64-1 (`Latest.AppendAccepted`, `Latest.LastGroupCannotAppend`).
- A subscription's message is queued before its entry is made, so a fast reply can be missed
  (`Subscription.EntryEndsWithReply`, `Subscription.StuckIfOvertaken`, `Subscription.ReplyCanOvertakeEntry`).

## Model

| member | source | states |
|---|---|---|
| Wire.Remaining | moq-transport/src/coding/decode.rs:9-16 | a read is allowed exactly when enough bytes are there; else the request is for exactly the missing ones |
| VarInt.DecodeReads | moq-transport/src/coding/varint.rs:166-199 | whatever part of an encoded varint has arrived, decoding either gives the value and the exact tail or asks for at least one byte and none past its end (RFC 9000, section 16) |
| VarInt.RoundTrip | moq-transport/src/coding/varint.rs:201-223 | encoding fails exactly above 2^62-1, and decoding inverts it in front of any bytes |
| VarInt.Shape | moq-transport/src/coding/varint.rs:203-222 | the length of an encoding is the one its two top bits announce, and its other bits are the value |
| VarInt.Shortest | moq-transport/src/coding/varint.rs:203-222 | the encoder takes the shortest of the four forms |
| VarInt.DecodesAny | moq-transport/src/coding/varint.rs:166-199 | what any bytes decode to: the top bits of the first give the width, the others are the number, whether or not it is the shortest form; short input asks for exactly the missing bytes |
| Coding.BlobReads | moq-transport/src/coding/tuple.rs:24-41 | a length-prefixed field reads back from any arrival of its bytes |
| Coding.TupleReads | moq-transport/src/coding/tuple.rs:86-105 | a tuple of fields reads back from any arrival of its bytes |
| Coding.EntryReads | moq-transport/src/coding/params.rs:14-30 | one parameter reads back unless its key was seen before, which is the duplicate error |
| Coding.ParamsRead | moq-transport/src/coding/params.rs:9-49 | a parameter map reads back from any arrival of its bytes, in whatever order the map was iterated |
| Control.LocationReads | moq-transport/src/message/subscribe.rs:165-201 | a subscribe location reads back from any arrival |
| Control.PairReads | moq-transport/src/message/subscribe.rs:139-156 | a pair of locations reads back from any arrival |
| Control.AbsoluteWindows | moq-transport/src/message/subscribe.rs:43-81 | what the absolute filters decode to: a range comes back whole and a start leaves its encoded end unread; either is refused exactly if a pair that is read has an object without a group |
| Control.LargestReads | moq-transport/src/message/subscribe_ok.rs:28-49 | the optional group and object of OK and DONE read back from any arrival |
| Control.FieldReads | moq-transport/src/message/subscribe.rs:33-130 | every kind of field of a control message reads back from any arrival, windows modulo what Latest filters do not write |
| Control.FieldsRead | moq-transport/src/message/mod.rs:104-141 | a sequence of fields reads back from any arrival of its bytes |
| Control.MessageReads | moq-transport/src/message/mod.rs:104-141 | each of the 23 control messages that has no absolute filter reads back from any arrival of its bytes |
| Control.AbsoluteRefused | moq-transport/src/message/subscribe.rs:47-66 | for every message with an absolute filter some proper part of its bytes is refused with MissingField where more bytes should be asked for |
| Control.MessageHonest | moq-transport/src/message/mod.rs:104-141 | a control message can be decoded incrementally if and only if it has no absolute filter |
| ControlWire.EncodesAs | moq-transport/src/message/mod.rs:122-141 | each of the 23 messages, byte by byte: its type, the length of its body, and its fields in the order of the draft; and when it cannot be written |
| ControlWire.WiredKeeps | moq-transport/src/message/subscribe.rs:100-131 | what comes back is the message itself, but for the pairs of a Latest filter and an expiry of 0 |
| ControlWire.BadValues | moq-transport/src/message/subscribe.rs:166-177 | unknown locations, filters, orders, flags and statuses, and strings that are not UTF-8, are refused each with its error |
| ControlWire.RepeatedKind | moq-transport/src/coding/params.rs:14-30 | a parameter kind that comes twice, in any place, is refused |
| ControlWire.UnknownType | moq-transport/src/message/mod.rs:105-119 | a message of an unknown type is refused by its type |
| ControlWire.FieldRefused | moq-transport/src/message/mod.rs:105-119 | what is wrong with a field, behind fields that are in order, is what the message is refused for |
| Cursor.Cursor.DecodeRemaining | moq-transport/src/coding/decode.rs:9-16 | the check before each read, on a cursor that moves |
| Cursor.Cursor.DecodeVarInt | moq-transport/src/coding/varint.rs:166-199 | the in-place decoder agrees with the varint law on value, tail and error |
| Cursor.Cursor.DecodeString | moq-transport/src/coding/string.rs:12-24 | the in-place decoder agrees on value, tail, and the errors of short and malformed strings |
| Cursor.Cursor.DecodeTuple | moq-transport/src/coding/tuple.rs:86-95 | the counted loop agrees with the tuple law |
| Cursor.Cursor.DecodeParams | moq-transport/src/coding/params.rs:9-34 | the counted loop agrees with the parameter law, duplicates included |
| Cursor.Cursor.DecodeLocation | moq-transport/src/message/subscribe.rs:165-177 | the in-place decoder agrees with the location law |
| Cursor.Cursor.DecodePair | moq-transport/src/message/subscribe.rs:139-146 | the in-place decoder agrees with the pair law |
| Cursor.Cursor.DecodeWindow | moq-transport/src/message/subscribe.rs:43-81 | the in-place decoder of filter, start and end agrees with the window function, MissingField included |
| Cursor.Cursor.DecodeSubscribeOk | moq-transport/src/message/subscribe_ok.rs:20-49 | the field-by-field decoder agrees with the layout of the message |
| Cursor.Cursor.DecodeSubscribeDone | moq-transport/src/message/subscribe_done.rs:19-39 | the field-by-field decoder agrees with the layout of the message |
| Cursor.Cursor.DecodeAnnounce | moq-transport/src/message/announce.rs:13-20 | the field-by-field decoder agrees with the layout of the message |
| Data.SubgroupHeaderReads | moq-transport/src/data/subgroup.rs:22-45 | a subgroup stream header reads back from any arrival |
| Data.TrackHeaderReads | moq-transport/src/data/track.rs:16-34 | a track stream header reads back from any arrival |
| Data.StreamTypes | moq-transport/src/data/header.rs:17-40 | a stream starts with byte 2 or 4 by its type, and other types are refused |
| Data.StatusCodes | moq-transport/src/data/object.rs:12-35 | an object without payload ends with the code of its status, 0, 1, 3, 4 or 5; others are refused |
| Data.Writable | moq-transport/src/data/subgroup.rs:36-87 | headers can be written exactly when their numbers fit 62 bits |
| Data.ObjectReads | moq-transport/src/data/subgroup.rs:53-87 | an object header reads back from any arrival; a status is on the wire exactly when the size is 0 |
| Data.ObjectHonest | moq-transport/src/data/subgroup.rs:53-87 | object headers can be decoded incrementally |
| Data.HeaderHonest | moq-transport/src/data/header.rs:17-40 | stream headers can be decoded incrementally, the stream type first |
| Reader.Reader.Decode | moq-transport/src/session/reader.rs:23-54 | the nested read loop computes the specified run on buffer and stream |
| Reader.Reader.ReadChunk | moq-transport/src/session/reader.rs:56-67 | a chunk comes from the buffer first, else from the transport, and is at most as large as asked for |
| Reader.Reader.Done | moq-transport/src/session/reader.rs:69-79 | the stream is done only when buffer and transport are exhausted |
| Reader.DecodesAcrossReads | moq-transport/src/session/reader.rs:23-54 | for any split into reads, decoding gives the value, leaves exactly the unread tail, and takes no piece beyond the one in which the value ends |
| Reader.StreamTooShort | moq-transport/src/session/reader.rs:41-47 | a stream that ends inside a value is read to its end, and the error tells of missing bytes of that value |
| Reader.DecodesSequence | moq-transport/src/session/reader.rs:23-54 | a sequence of values decodes to the same values as whole-buffer decoding, for any split |
| Relay.ControlStream | moq-transport/src/message/mod.rs:104-141 | a sequence of control messages with Latest filters survives any split and leaves the exact tail |
| Relay.Writer.Write | moq-transport/src/session/writer.rs:36-51 | the loop over partial writes sends exactly the bytes given |
| Relay.Writer.ServeSubgroup | moq-transport/src/session/subscribed.rs:296-356 | serving sends the header, then each object header with its chunks, and finishes only if every object ended well; what that means for ids, sizes and statuses is Relay.HeadersArrive |
| Relay.HeadersArrive | moq-transport/src/session/subscribed.rs:319-325 | on any cut of the stream the headers that are decoded carry, one for each object, its own id, its size, and its status if the size is 0 |
| Relay.ServeStops | moq-transport/src/session/subscribed.rs:315-350 | serving stops before the first object whose header cannot be written, or behind the chunks of the first that fails, and does not finish |
| Relay.PayloadLaw | moq-transport/src/session/subscriber.rs:279-291 | reading a payload takes exactly its announced bytes off the stream, in order, and fails exactly if there are fewer |
| Relay.RecvSubgroup | moq-transport/src/session/subscriber.rs:269-294 | the receive loop computes the specified run |
| Relay.RecvStream | moq-transport/src/session/subscriber.rs:181-201 | receiving decodes the stream header and then the objects |
| Relay.ObjectsRebuilt | moq-transport/src/session/subscriber.rs:269-294 | the objects behind any point of the stream are rebuilt, each header parsed at its boundary |
| Relay.OneTurn | moq-transport/src/session/subscriber.rs:275-292 | one turn of the receive loop takes exactly one object off the stream, at its boundary |
| Relay.EndsInHeader | moq-transport/src/session/subscriber.rs:275-276 | a stream that ends inside an object header gives the objects before it and a request for missing header bytes |
| Relay.EndsInPayload | moq-transport/src/session/subscriber.rs:282-291 | a stream that ends inside a payload gives WrongSize, and the object with the bytes that came |
| Relay.BrokenHop | moq-transport/src/session/subscribed.rs:315-350 | a subgroup whose object breaks off short: every object before it arrives, then the bytes written of it, then a size error |
| Relay.Hop | moq-transport/src/session/subscribed.rs:296-356 | relay transparency: for every fully written subgroup, chunking and split into reads, header, sizes and payloads are rebuilt and headers are parsed at the object boundaries; ids come back if and only if they were numbered 0, 1, ..., statuses if and only if all were Object |
| Hops.OneHop | moq-transport/src/session/subscriber.rs:269-294 | what a hop stores of a subgroup numbered by its writer is the same subgroup again, and can be served on |
| Hops.Survives | moq-transport/src/session/subscriber.rs:269-294 | over any number of hops, each cut its own way, ids, sizes, statuses and payloads arrive |
| Hops.WrittenSurvives | moq-transport/src/serve/subgroup.rs:310-325 | so does every subgroup written through its writer, with the numbers the writer gave |
| StreamIds.New | internal_crates/web-transport-ws/src/stream.rs:15-24 | an identifier carries its counter, direction and side, and fits 62 bits |
| StreamIds.Unique | internal_crates/web-transport-ws/src/stream.rs:15-36 | counter, direction and side determine the identifier, both ways |
| StreamIds.Kinds | internal_crates/web-transport-ws/src/stream.rs:15-50 | the two low bits of the four kinds of streams, and who may send on them |
| StreamIds.SendersFaceReceivers | internal_crates/web-transport-ws/src/stream.rs:38-50 | one side may send on a stream exactly when the other may receive on it; both may exactly on two-way streams |
| WsFrame.RoundTrip | internal_crates/web-transport-ws/src/frame.rs:112-141 | each of the four frames decodes from its own message |
| WsFrame.Tags | internal_crates/web-transport-ws/src/frame.rs:21-109 | the first byte of a message tells its frame, and a FIN; then come its numbers and data |
| WsFrame.DecodesAny | internal_crates/web-transport-ws/src/frame.rs:125-141 | what any message decodes to, and why it is refused: empty, unknown first byte, or ending inside a number |
| WsSession.DispatchRules | internal_crates/web-transport-ws/src/session.rs:163-273 | refusals depend on who may send and receive, deliveries on the tables: each action exactly when its case holds |
| MuxProof.OnlyAppend | internal_crates/web-transport-ws/src/session.rs:163-241 | frames of one stream keep their order in a queue with others |
| MuxProof.SliceQueue | internal_crates/web-transport-ws/src/session.rs:563-591 | writing on an open stream keeps what holds of its pipeline |
| MuxProof.SliceClose | internal_crates/web-transport-ws/src/session.rs:609-636 | finishing keeps it, whether the FIN is queued, waits for room, or is lost on drop |
| MuxProof.HeadOfWire | internal_crates/web-transport-ws/src/session.rs:163-241 | a frame that arrives follows only frames without FIN, and the receiving table knows its stream exactly if one came before |
| MuxProof.SliceArrive | internal_crates/web-transport-ws/src/session.rs:171-241 | taking a frame in keeps it, for known and for new streams |
| MuxProof.SlicePull | internal_crates/web-transport-ws/src/session.rs:705-709 | taking a frame off the channel keeps it |
| MuxProof.HeadWelcome | internal_crates/web-transport-ws/src/session.rs:163-176 | the frame at the head of the wire is never refused and never silently ignored |
| MuxProof.NewMeansFirst | internal_crates/web-transport-ws/src/session.rs:170-176 | a frame opens a stream exactly when it is the first of a peer stream |
| MuxProof.EndpointsKept | internal_crates/web-transport-ws/src/session.rs:66-122 | each step keeps the tables, counters and accept order of the endpoint that takes it |
| MuxProof.SlicesKept | internal_crates/web-transport-ws/src/session.rs:66-122 | each step keeps both directions of every stream |
| MuxProof.StepKeeps | internal_crates/web-transport-ws/src/session.rs:66-122 | every step of a session or an application keeps the whole invariant |
| MuxProof.RunKeeps | internal_crates/web-transport-ws/src/session.rs:66-122 | so does every interleaving of steps of both sides |
| MuxRuns.Delivery | internal_crates/web-transport-ws/src/session.rs:563-591 | in every run, for each stream direction: bytes written equal bytes read, buffered, in the channel, on the wire, queued and waiting, in order |
| MuxRuns.EndAfterEveryByte | internal_crates/web-transport-ws/src/session.rs:689-716 | end of stream is seen only after every byte of a finished sender |
| MuxRuns.QuietMeansDelivered | internal_crates/web-transport-ws/src/session.rs:689-716 | with nothing under way, the reader has all that was written and no more |
| MuxRuns.AcceptOnce | internal_crates/web-transport-ws/src/session.rs:378-394 | accepted streams are the peer streams of which a frame came, in first-frame order, none twice |
| MuxRuns.AcceptedMeansKnown | internal_crates/web-transport-ws/src/session.rs:171-232 | a peer stream is known here exactly if it was or will be returned by accept |
| MuxRuns.NeverIgnored | internal_crates/web-transport-ws/src/session.rs:166-176 | no run reaches the branch that ignores a frame or the one that refuses it |
| MuxRuns.OpensAreNew | internal_crates/web-transport-ws/src/session.rs:396-463 | an identifier made by opening is new to both sides |
| MuxRuns.WireCarriesFrames | internal_crates/web-transport-ws/src/session.rs:151-160 | every frame in flight can be encoded and decodes to itself |
| WsStreams.ReadIsARun | internal_crates/web-transport-ws/src/session.rs:689-716 | a whole read call is a run of the model, so its invariants hold between calls |
| WsStreams.ReadGives | internal_crates/web-transport-ws/src/session.rs:689-716 | a read gives the next bytes in order, at most as many as asked for, or the end behind them; it waits only with no byte and no end to give |
| WsStreams.SendStream.WriteBuf | internal_crates/web-transport-ws/src/session.rs:563-591 | a successful write queues exactly one frame with the bytes; errors and stops queue none |
| WsStreams.SendStream.Finish | internal_crates/web-transport-ws/src/session.rs:609-636 | the FIN goes behind all queued frames, or waits |
| WsStreams.SendStream.Reset | internal_crates/web-transport-ws/src/session.rs:597-607 | a reset is sent once, and never after a finish |
| WsStreams.SendStream.Drop | internal_crates/web-transport-ws/src/session.rs:536-552 | dropping an open stream finishes it if the queue has room, and never waits |
| WsStreams.RecvStream.ReadChunk | internal_crates/web-transport-ws/src/session.rs:689-716 | the read loop computes the run of the model; buffered bytes and a seen end go before errors |
| WsStreams.RecvStream.ReadBuf | internal_crates/web-transport-ws/src/session.rs:718-736 | reading into a buffer reads as ReadChunk does |
| WsStreams.SessionState.RecvStreamFrame | internal_crates/web-transport-ws/src/session.rs:165-241 | a stream frame reaches the known stream, opens a new one, or changes nothing, as the dispatch says |
| WsStreams.SessionState.Open | internal_crates/web-transport-ws/src/session.rs:171-232 | a new peer stream enters the tables and its accept queue; one that ends with its first frame stays out of the receiving table |
| WsStreams.SessionState.Deliver | internal_crates/web-transport-ws/src/session.rs:163-241 | the turn that takes in a frame moves the session object exactly as the delivery step of the model moves its endpoint |
| WsStreams.Session.OpenUni | internal_crates/web-transport-ws/src/session.rs:396-420 | a stream under the next number, queued for registration or waiting for room |
| WsStreams.Session.OpenBi | internal_crates/web-transport-ws/src/session.rs:422-463 | likewise for two-way streams, both halves under one number |
| WsStreams.Session.AcceptUni | internal_crates/web-transport-ws/src/session.rs:378-385 | the peer stream that waited longest |
| WsStreams.Session.AcceptBi | internal_crates/web-transport-ws/src/session.rs:387-394 | likewise for two-way streams |
| WsStreams.SessionState.RecvControl | internal_crates/web-transport-ws/src/session.rs:242-273 | resets, stops and closes reach exactly their stream |
| WsStreams.SessionState.SendFrame | internal_crates/web-transport-ws/src/session.rs:124-161 | sending encodes the frame and forgets the stream it ends |
| WsStreams.SessionState.Receive | internal_crates/web-transport-ws/src/session.rs:72-77 | what every message does to tables, accept queues and the channels of its stream, by its frame; undecodable ones change nothing |
| WsStreams.SessionState.Work | internal_crates/web-transport-ws/src/session.rs:98-119 | a turn without a message registers, one-way before two-way, then sends, urgent frames before stream data, and idles only with nothing to do |
| WsStreams.SessionState.Turn | internal_crates/web-transport-ws/src/session.rs:66-122 | one turn of the biased loop, with or without a message: what becomes of tables, queues and channels in every case; stream data leaves only when no message, registration or urgent frame is there |
| WsSteps.WriteStep | internal_crates/web-transport-ws/src/session.rs:563-591 | writing moves the objects of a side as the model's write moves its endpoint, and waits without a change when the queue is full |
| WsSteps.FinishStep | internal_crates/web-transport-ws/src/session.rs:609-636 | finishing moves them as the model's finish does, with room or without |
| WsSteps.DropStep | internal_crates/web-transport-ws/src/session.rs:536-552 | dropping an unfinished stream moves them as the model's drop does |
| WsSteps.EnqueueStep | internal_crates/web-transport-ws/src/session.rs:620-631 | a waiting FIN that finds room moves them as the model's enqueueing does |
| WsSteps.RegisterUniStep | internal_crates/web-transport-ws/src/session.rs:98-100 | registering a one-way stream moves them as the model's registration does |
| WsSteps.RegisterBiStep | internal_crates/web-transport-ws/src/session.rs:101-104 | registering a two-way stream moves them as the model's registration does |
| WsSteps.SendStep | internal_crates/web-transport-ws/src/session.rs:111-116 | sending puts the frame at the head of the queue on the wire and moves them as the model's sending does |
| WsSteps.WorkStep | internal_crates/web-transport-ws/src/session.rs:98-119 | a turn of the loop without a message is the step of the model that the bias picks |
| WsSteps.DeliverStep | internal_crates/web-transport-ws/src/session.rs:163-241 | receiving, through a whole turn, moves them as the model's receive does, with one sender more for a new two-way stream |
| WsSteps.TurnStep | internal_crates/web-transport-ws/src/session.rs:66-122 | every turn, with the message of the frame at the head of the wire or without one, is the step of the model that the bias picks, and the objects stand where it leads |
| WsSteps.OpenUniStep | internal_crates/web-transport-ws/src/session.rs:396-420 | opening moves handle and objects as the model's opening does, to the same identifier |
| WsSteps.OpenBiStep | internal_crates/web-transport-ws/src/session.rs:422-463 | likewise for two-way streams |
| WsSteps.AcceptUniStep | internal_crates/web-transport-ws/src/session.rs:378-385 | accepting gives the stream the model gives, and nothing exactly while none waits |
| WsSteps.AcceptBiStep | internal_crates/web-transport-ws/src/session.rs:387-394 | likewise for two-way streams |
| WsSteps.ReadStep | internal_crates/web-transport-ws/src/session.rs:689-716 | reading on the objects is a run of the model's reading steps |
| BitStrings.CutOut | internal_crates/web-transport-proto/src/huffman.rs:120-138 | shifting left and right cuts out exactly the addressed bits |
| BitStrings.SliceNum | internal_crates/web-transport-proto/src/huffman.rs:120-138 | the number that a run of input bits makes, out of the one or two bytes it lies in |
| HuffmanTable.Entries | internal_crates/web-transport-proto/src/huffman.rs:216-334 | every entry of every table agrees with Appendix B of RFC 7541: a byte is where its code leads, a table where its bits lead |
| HuffmanTable.Homes | internal_crates/web-transport-proto/src/huffman.rs:216-334 | every byte has an entry |
| HuffmanTable.Parents | internal_crates/web-transport-proto/src/huffman.rs:216-334 | every table but the root is reached from an earlier one |
| Huffman.Walk | internal_crates/web-transport-proto/src/huffman.rs:96-115 | the bit position grows with every byte and stays within the input |
| Huffman.WalkReaches | internal_crates/web-transport-proto/src/huffman.rs:96-115 | the bits that lead to a table lead the walk there |
| Huffman.WalkIsPrefixDecoding | internal_crates/web-transport-proto/src/huffman.rs:96-115 | the walk gives a byte if and only if its code comes next, and stops right behind it |
| Huffman.PrefixFree | internal_crates/web-transport-proto/src/huffman.rs:216-334 | no code is the start of another |
| Huffman.PaddingStops | internal_crates/web-transport-proto/src/huffman.rs:61-87 | fewer than eight ones at the end of the input are padding |
| Huffman.DecodesCodes | internal_crates/web-transport-proto/src/huffman.rs:341-364 | codes followed by fewer than eight ones decode to exactly their bytes, then stop |
| Huffman.RoundTrip | internal_crates/web-transport-proto/src/huffman.rs:341-364 | for every byte string the encoding of section 5.2 of RFC 7541 decodes to it |
| Huffman.WalkStops | internal_crates/web-transport-proto/src/huffman.rs:61-115 | a walk without a byte: the input was too short for some table that its bits led to, or thirty ones were taken for the end of strings |
| Huffman.WalkEndsIff | internal_crates/web-transport-proto/src/huffman.rs:61-87 | the string ends at a place if and only if what is left leads to a table and stops there with at most ones left in the last byte |
| Huffman.RunIs | internal_crates/web-transport-proto/src/huffman.rs:341-364 | for every input: it decodes to a string if and only if the codes of the string come first and the input ends well behind them |
| Huffman.ReadBits | internal_crates/web-transport-proto/src/huffman.rs:120-138 | reads exactly the addressed bits, and fails exactly past the end or for no or too many bits |
| Huffman.BitWindow.Forwards | internal_crates/web-transport-proto/src/huffman.rs:19-26 | moves the window to where it ended, within a byte |
| Huffman.CheckEofAt | internal_crates/web-transport-proto/src/huffman.rs:61-87 | the end is accepted past the last byte or when only ones are left in it |
| Huffman.DecodeNext | internal_crates/web-transport-proto/src/huffman.rs:96-115 | the recursive decoder computes the walk and leaves its window |
| Huffman.Decode | internal_crates/web-transport-proto/src/huffman.rs:341-364 | the iterator computes the run |
| PrefixInt.RoundTrip | internal_crates/web-transport-proto/src/qpack.rs:244-311 | for sizes 1 to 8, fitting flags and every 64-bit value, decoding inverts encoding, consumes exactly the bytes written and never exceeds bounds (RFC 7541, section 5.1) |
| PrefixInt.GroupsDecode | internal_crates/web-transport-proto/src/qpack.rs:264-311 | the continuation bytes decode to the remaining value, whatever follows |
| PrefixInt.FlagsFit | internal_crates/web-transport-proto/src/qpack.rs:287-300 | shifted flags and prefix bits do not overlap |
| PrefixInt.EncodePrefix | internal_crates/web-transport-proto/src/qpack.rs:287-311 | the encoding loop appends the specified bytes |
| PrefixInt.Shortest | internal_crates/web-transport-proto/src/qpack.rs:300-311 | the groups of an encoding are no more than the number needs |
| PrefixInt.PrefixBytes | internal_crates/web-transport-proto/src/qpack.rs:287-300 | a value below the full prefix takes one byte, flags above and value below; any other the full prefix and groups |
| PrefixInt.DecodePrefix | internal_crates/web-transport-proto/src/qpack.rs:244-281 | the decoding loop computes the specified value, tail or error |
| PrefixInt.DecodesAny | internal_crates/web-transport-proto/src/qpack.rs:244-281 | what any bytes decode to: flags, value, tail, or the error; ten marked groups exceed the bounds, fewer with none to follow end too soon |
| StaticTable.FindAgrees | internal_crates/web-transport-proto/src/qpack.rs:349-627 | a lookup by name and value finds an entry that has them, and finds one if there is one |
| StaticTable.FindNameAgrees | internal_crates/web-transport-proto/src/qpack.rs:459-627 | a lookup by name finds the first entry with it, and finds one if there is one |
| Qpack.PseudoFirstSorts | internal_crates/web-transport-proto/src/qpack.rs:171-174 | the sorted order has the same names once each, pseudo-headers before all others |
| Qpack.PlainString | internal_crates/web-transport-proto/src/qpack.rs:313-335 | a plain string literal decodes from its own bytes |
| Qpack.HuffmanString | internal_crates/web-transport-proto/src/qpack.rs:313-335 | a Huffman-coded string literal decodes to the string |
| Qpack.FieldTakes | internal_crates/web-transport-proto/src/qpack.rs:63-104 | decoding a field line consumes input |
| Qpack.FieldDecodes | internal_crates/web-transport-proto/src/qpack.rs:176-184 | each field decodes to itself in whichever of the three forms it is written |
| Qpack.FormChosen | internal_crates/web-transport-proto/src/qpack.rs:176-235 | a field that the table has goes by its index, one whose name it has by that, any other in full, and nothing is Huffman-coded |
| Qpack.RoundTrip | internal_crates/web-transport-proto/src/qpack.rs:54-184 | for every header map and iteration order, decoding the encoding gives the map |
| Qpack.SectionSorted | internal_crates/web-transport-proto/src/qpack.rs:166-185 | a section starts with two zero bytes, and its pseudo-headers stand before all others |
| Qpack.DynamicRefused | internal_crates/web-transport-proto/src/qpack.rs:63-104 | a line is refused for needing the dynamic table exactly by its first bits, wherever it stands |
| Qpack.LaterLineWins | internal_crates/web-transport-proto/src/qpack.rs:54-107 | of two lines with one name the later stands |
| Qpack.UnknownIndex | internal_crates/web-transport-proto/src/qpack.rs:109-141 | an index past the table is refused, for a field and for a name |
| Qpack.BadLiteral | internal_crates/web-transport-proto/src/qpack.rs:143-164 | a literal that is not UTF-8, or longer than the input, is refused |
| Qpack.EncodeHeaders | internal_crates/web-transport-proto/src/qpack.rs:166-185 | the encoding loop appends the specified section |
| Qpack.DecodeHeaders | internal_crates/web-transport-proto/src/qpack.rs:54-107 | the decoding loop computes the specified map or error |
| ErrorMap.FromHttp3 | internal_crates/web-transport-proto/src/error.rs:5-14 | a code is mapped exactly if it lies in the range |
| ErrorMap.RoundTrip | internal_crates/web-transport-proto/src/error.rs:5-18 | every application code maps into the range and back to itself |
| ErrorMap.Increasing | internal_crates/web-transport-proto/src/error.rs:16-18 | the map is strictly increasing and avoids every reserved code |
| ErrorMap.BackAndForth | internal_crates/web-transport-proto/src/error.rs:5-18 | mapping a code in range back and forth is the identity if and only if it is not reserved |
| ErrorMap.FirstReserved | internal_crates/web-transport-proto/src/error.rs:5-18 | the first reserved code of the range, which comes back as the code after it |
| H3Frame.OneReads | internal_crates/web-transport-proto/src/frame.rs:30-41 | one frame is read exactly when all of it has arrived |
| H3Frame.ReadSkips | internal_crates/web-transport-proto/src/frame.rs:30-48 | any number of greasing frames is skipped, and the frame behind them is read exactly when it has arrived |
| H3Frame.GreaseTypes | internal_crates/web-transport-proto/src/frame.rs:18-27 | the types that are skipped are every 31st number from 33 on |
| Settings.DecodeSettings | internal_crates/web-transport-proto/src/settings.rs:117-140 | the decoding loop computes the specified map or error |
| Settings.Read | internal_crates/web-transport-proto/src/settings.rs:142-159 | the read loop retries the whole buffer after each read |
| Settings.EncodeSettings | internal_crates/web-transport-proto/src/settings.rs:161-175 | the encoding loop appends the specified frame |
| Settings.DecodeReads | internal_crates/web-transport-proto/src/settings.rs:117-140 | every arrival of the settings either gives the map without greasing identifiers or is found short; no other error can arise |
| Settings.ReadsAcrossReads | internal_crates/web-transport-proto/src/settings.rs:142-159 | for any map, any greasing frames in front and any split into reads, reading gives the map |
| Settings.RoundTrip | internal_crates/web-transport-proto/src/settings.rs:142-175 | a map without greasing identifiers comes back unchanged |
| Settings.ComesBack | internal_crates/web-transport-proto/src/settings.rs:161-175 | it does so if and only if the payload is shorter than 2^32 bytes, because the length is cut to 32 bits |
| Settings.TooManySettings | internal_crates/web-transport-proto/src/settings.rs:161-175 | a map with 2^31 settings, whose payload is too long and which does not come back |
| Settings.OtherStream | internal_crates/web-transport-proto/src/settings.rs:117-122 | settings start with the control stream's type and the frame's; another stream type is refused by its type |
| Settings.OtherFrame | internal_crates/web-transport-proto/src/settings.rs:123-127 | another first frame, behind any greasing ones, is refused by its type |
| Settings.BrokenSettings | internal_crates/web-transport-proto/src/settings.rs:128-139 | a payload that ends inside a pair is refused |
| Settings.EndsEarly | internal_crates/web-transport-proto/src/settings.rs:142-159 | a stream that ends before its settings do is found short, however it was cut |
| Watch.StepKeeps | moq-transport/src/watch/state.rs:27-37 | every look, poll, change, clone, drop and run of a task keeps what waiting relies on |
| Watch.NoLostWakeup | moq-transport/src/watch/state.rs:135-217 | in every run a sleeping task that was not woken waits at an unchanged epoch, has seen the current value, nothing was dropped, and it is registered |
| Watch.ChangesWake | moq-transport/src/watch/state.rs:32-37 | a change wakes every sleeping task, whose waits are then ready |
| Watch.PollReady | moq-transport/src/watch/state.rs:204-218 | a poll is ready if and only if something changed since the look; else its task is registered |
| Watch.WhatChanges | moq-transport/src/watch/state.rs:32-37 | what counts as a change: every new value while both halves are there, and the end of a half |
| Watch.RegisterMembers | moq-transport/src/watch/state.rs:27-30 | a task that registers is in the list once, and the others stand there as they did |
| Watch.StateInner.Register | moq-transport/src/watch/state.rs:27-30 | each task stands in the list at most once |
| Watch.StateInner.Notify | moq-transport/src/watch/state.rs:32-37 | the epoch advances and every registered waker is called |
| Watch.StateInner.Poll | moq-transport/src/watch/state.rs:204-218 | ready exactly if the epoch advanced, else registered |
| Watch.StateDrop.Drop | moq-transport/src/watch/state.rs:248-254 | the last handle of a half marks the state and notifies |
| Queue.StepKeeps | moq-transport/src/watch/queue.rs:10-44 | every step keeps conservation and that waiters saw an empty queue |
| Queue.Conserved | moq-transport/src/watch/queue.rs:10-44 | in every run, what was taken out followed by what is queued is what was accepted, in order |
| Queue.PopSleepsOnEmpty | moq-transport/src/watch/queue.rs:19-30 | a pop that sleeps unwoken faces an empty queue with both halves alive |
| Queue.ClosedForGood | moq-transport/src/watch/queue.rs:10-30 | once a half is gone every push hands its item back and every pop ends |
| Queue.AllAccepted | moq-transport/src/watch/queue.rs:10-17 | while both halves are there every push is let in, in order |
| Queue.PopTakes | moq-transport/src/watch/queue.rs:19-44 | a pop takes the front or waits at the current epoch, a drain takes everything |
| Queue.Queue.Push | moq-transport/src/watch/queue.rs:10-17 | appends and notifies, or hands the item back |
| Queue.Queue.TryPop | moq-transport/src/watch/queue.rs:19-30 | one pass of the pop loop |
| Queue.Queue.Close | moq-transport/src/watch/queue.rs:33-44 | drains what is left and lets go of the handle |
| FanOut.EveryReaderAgrees | moq-transport/src/serve/subgroup.rs:394-413 | in every run each reader has returned exactly the log from its clone index on; one that ended has returned all of it and then the close error or the end |
| FanOut.StepKeeps | moq-transport/src/serve/subgroup.rs:310-325 | every push, close, clone, drop and read keeps that |
| FanOut.OnlyAppends | moq-transport/src/serve/subgroup.rs:310-325 | over any run the log grows only at its end, by a prefix of the pushes, by all of them while both halves live, and by none after |
| FanOut.OneRead | moq-transport/src/serve/subgroup.rs:394-413 | a read gives the next item, else the error, else the end if the writer is gone, else changes nothing |
| FanOut.ReadsToTheEnd | moq-transport/src/serve/subgroup.rs:394-413 | nothing is withheld: one read for each item left and one more give a reader all of the log, and it has ended exactly if the writer closed or is gone |
| FanOut.CloneStandsThere | moq-transport/src/serve/subgroup.rs:355-366 | a clone stands where the original stands, and is given next what the original is given |
| FanOut.ClosesOnce | moq-transport/src/serve/subgroup.rs:328-335 | while both halves are there the log is closed with exactly the error of the one close there was |
| Subgroup.StepKeeps | moq-transport/src/serve/subgroup.rs:510-548 | every step keeps written plus owed equal to the announced size while anyone reads |
| Subgroup.ExactSize | moq-transport/src/serve/subgroup.rs:582-610 | a reader that ends cleanly has seen exactly the announced number of bytes |
| Subgroup.ShortObjectFails | moq-transport/src/serve/subgroup.rs:538-548 | a reader never ends cleanly on an object whose writer owes bytes |
| Subgroup.EndsAsWritten | moq-transport/src/serve/subgroup.rs:538-610 | an object whose writer left ends for every reader who reads on: after all its chunks, well if nothing is owed, else with a size error |
| Subgroup.SubgroupWriter.Create | moq-transport/src/serve/subgroup.rs:310-325 | objects are numbered from 0 in the order of the log, with the ordinary status |
| Subgroup.SubgroupWriter.Write | moq-transport/src/serve/subgroup.rs:301-305 | a written object is complete and has its payload as its one chunk |
| Subgroup.SubgroupObjectWriter.Write | moq-transport/src/serve/subgroup.rs:510-520 | a chunk larger than what is owed is refused; the writer moves as the model does |
| Subgroup.SubgroupObjectWriter.Close | moq-transport/src/serve/subgroup.rs:523-548 | closing is refused while bytes are owed, and leaves a size error with the drop that follows; the writer moves as the model does |
| Subgroup.SubgroupObjectWriter.Drop | moq-transport/src/serve/subgroup.rs:538-548 | a short object is marked with a size error; the writer moves as the model does |
| Subgroup.LogReader.Next | moq-transport/src/serve/subgroup.rs:394-413 | the item at the reader's place, else the error, else the end once the other half is gone, else a wait |
| Subgroup.LogReader.Clone | moq-transport/src/serve/subgroup.rs:355-366 | a clone goes on from the same place, on its own |
| Subgroup.ReadAll | moq-transport/src/serve/subgroup.rs:603-610 | with an error set, that error; with the writer gone, all the chunks left, in order; else a wait. A clean result and what was read before have the announced size |
| Latest.LatestIsMonotone | moq-transport/src/serve/subgroup.rs:100-134 | in every run the latest subgroup strictly increases with each epoch |
| Latest.CreateAnswers | moq-transport/src/serve/subgroup.rs:100-134 | while both halves live a create is accepted if and only if there is no latest or it comes after the latest, late if and only if before it, a duplicate if and only if it is the latest; and what each leaves |
| Latest.AcceptsLater | moq-transport/src/serve/subgroup.rs:78-134 | over any run the history grows by exactly those created subgroups that come after the last one, and by the first of the next group for an append |
| Latest.AcceptedFromSteps | moq-transport/src/serve/subgroup.rs:78-134 | so history and epoch of a track follow from its creates and appends alone |
| Latest.AppendAccepted | moq-transport/src/serve/subgroup.rs:78-98 | appending is never a duplicate or late, exactly while the next group number fits 64 bits |
| Latest.LastGroupCannotAppend | moq-transport/src/serve/subgroup.rs:78-134 | a reachable track at the last group number, where appending is late and changes nothing |
| Latest.ReadersSeeIncreasing | moq-transport/src/serve/subgroup.rs:172-190 | each reader is given a strictly increasing part of the history |
| Latest.NextIsLatest | moq-transport/src/serve/subgroup.rs:172-190 | a reader that asks gets the latest unless it has it |
| Latest.SubgroupsWriter.Create | moq-transport/src/serve/subgroup.rs:100-134 | accepts, drops or refuses exactly by the order of group and subgroup, and an accepted subgroup becomes the latest with a new epoch |
| Latest.SubgroupsWriter.Append | moq-transport/src/serve/subgroup.rs:78-98 | creates the first subgroup of the next group |
| Latest.SubgroupsReader.Next | moq-transport/src/serve/subgroup.rs:172-190 | a new epoch goes before the error, the end and waiting |
| Objects.CompareIsTotal | moq-transport/src/serve/object.rs:352-360 | the order is total, and greater means priority ascending, then group descending, then object ascending |
| Objects.CacheIsNewestGroup | moq-transport/src/serve/object.rs:70-96 | in every run the cache is a suffix of the accepted objects and holds only the largest group |
| Objects.CreateKeepsNewest | moq-transport/src/serve/object.rs:70-96 | while both halves live an object of no older group than any accepted goes last into the cache and advances the epoch; any other changes nothing |
| Objects.AcceptsNewest | moq-transport/src/serve/object.rs:70-96 | over any run the log of accepted objects grows by exactly those created objects that are of no older group than one accepted before |
| Objects.AcceptedFromCreates | moq-transport/src/serve/object.rs:70-96 | so log and epoch of a track follow from its creates alone |
| Objects.CatchUpTakesNewest | moq-transport/src/serve/object.rs:141-149 | catching up queues every entry of the newest group that the reader has not seen, and no other |
| Objects.ReadersSkipOnlyOlder | moq-transport/src/serve/object.rs:137-163 | a reader queues each entry at most once and passes over only strictly older groups |
| Objects.TakesComeSorted | moq-transport/src/serve/object.rs:137-163 | between two catch-ups, whatever else happens, what a reader takes comes out in order of urgency, nothing left queued is more urgent, and taken and left together are what was queued |
| Objects.CatchUpKeeps | moq-transport/src/serve/object.rs:141-149 | catching up queues exactly the new part of the cache |
| Objects.CreateObject | moq-transport/src/serve/object.rs:70-96 | an older group is dropped, a newer one empties the cache, and the object goes last with a new epoch |
| Objects.Best | moq-transport/src/serve/object.rs:151-153 | finds a queued object that none is more urgent than |
| Objects.ObjectsReader.Next | moq-transport/src/serve/object.rs:137-163 | catches up, takes the best, else gives error, end or a wait |
| Subscription.StepKeeps | moq-transport/src/session/publisher.rs:222-303 | every step of subscriber and publisher keeps what holds of every identifier |
| Subscription.NeverDuplicate | moq-transport/src/session/publisher.rs:226-233 | the publisher never sees an identifier twice |
| Subscription.RepliesFollowTheHandle | moq-transport/src/session/subscribed.rs:69-164 | per identifier the replies are OK then DONE, or a lone ERROR, in step with the handle; the table holds it exactly while the handle lives |
| Subscription.OkComesOnce | moq-transport/src/session/subscribe.rs:131-142 | the subscriber is never told OK twice |
| Subscription.EntryEndsWithReply | moq-transport/src/session/subscriber.rs:63-70 | an entry is gone once its last reply came, except exactly when the reply came before the entry was made |
| Subscription.ReplyCanOvertakeEntry | moq-transport/src/session/subscriber.rs:63-70 | a run in which that exception happens: the message goes out before the entry is made |
| Subscription.StuckIfOvertaken | moq-transport/src/session/subscriber.rs:63-70 | on the run itself: the entry stays behind if and only if the step that receives the last reply stands before the step that makes the entry |
| Subscription.PublisherState.SendMessage | moq-transport/src/session/publisher.rs:289-303 | a last reply takes its subscription out of the table |
| Subscription.PublisherState.RecvSubscribe | moq-transport/src/session/publisher.rs:222-253 | a new identifier gets a handle and an entry, a known one is refused |
| Subscription.SubscribedRecv.RecvUnsubscribe | moq-transport/src/session/subscribed.rs:453-464 | unsubscribing marks the state and leaves the entry to the handle |
| Subscription.Subscribed.Accept | moq-transport/src/session/subscribed.rs:78-93 | sends OK and remembers it |
| Subscription.Subscribed.Drop | moq-transport/src/session/subscribed.rs:136-164 | says DONE after OK, else ERROR, and leaves the table |
| Subscription.SubscriberState.Subscribe | moq-transport/src/session/subscriber.rs:63-70 | takes the next number, queues the message, then makes the entry |
| Subscription.SubscriberState.RecvReply | moq-transport/src/session/subscriber.rs:135-157 | OK marks the entry, the last reply removes it |
| Listing.ReplayAgrees | moq-dir/src/listing.rs:28-83 | after any run, replaying the current subgroup gives exactly the current set, and no object is empty |
| Listing.TracksASet | moq-dir/src/listing.rs:28-61 | the current set is what the inserts and removes alone make of it |
| Listing.LinesOfSnapshot | moq-dir/src/listing.rs:73-77 | a snapshot holds exactly the names, in whatever order the set is iterated |
| Listing.StepKeeps | moq-dir/src/listing.rs:28-61 | every insert and remove keeps the agreement |
| Listing.ListingWriter.TakeSnapshot | moq-dir/src/listing.rs:64-83 | writes every name once, in some order |
| Listing.ListingWriter.Insert | moq-dir/src/listing.rs:28-44 | a known name is refused; a new one is published as delta or snapshot |
| Listing.ListingWriter.Remove | moq-dir/src/listing.rs:46-62 | an unknown name is refused; a known one is published as delta or snapshot |

## Left out

- TLS, QUIC endpoints, HTTP APIs, storage, command lines, media files, URLs, clocks and logging: input and output, or libraries.
- MuxRuns.Delivery: speaks of runs without RESET_STREAM, STOP_SENDING, ConnectionClose or a second finish, because urgent frames overtake stream data there and a late frame opens a removed stream anew; what resets and stops do to one session is in `WsStreams`.
- MuxRuns.AcceptOnce: the same runs, for the same reason; writes that are cancelled while they wait are not modelled.
- StreamIds.New: a counter of 2^60 or more is a panic in the program (and from 2^62 on a silent overflow); opening such a stream is not a step of the model.
- Mux.Apply: opening a stream takes its number and its place in the registration queue in one step (`WsStreams.Session` has the wait between them), and a session whose accept queue is full takes no message, where the program would hold the one it took.
- WsStreams.SessionState.Turn: pings, texts and the closing of the WebSocket are not modelled.
- Relay.Writer.WriteBuf: the transport takes at least one byte of a write, and a successful read brings at least one.
- Relay.Hop: the update of the largest group sent is not modelled; it never leaves its initial value in the program.
- Control.FieldReads: with Latest filters start and end are not written, so they are compared without them, and an expiry of 0 is the same as none.
- Cursor.Cursor: in-place decoders of the messages other than SUBSCRIBE_OK, SUBSCRIBE_DONE and ANNOUNCE would repeat the same reads; those messages are covered by their layouts.
- Control.DecodeMessage: the program reads a message's length and ignores it, and so does the model.
- Utf8.Valid: well-formed UTF-8 is the only thing the model knows of strings; decoding that replaces malformed input is not modelled.
- Huffman.Walk: the program's window counts in 32 bits, which strings of 512 MiB or more would overflow; the model's does not.
- Huffman.RunIs: a partial code that ends with the last byte is accepted, where RFC 7541 asks for an error; the condition says so and does not judge.
- PrefixInt.Decode: sums beyond 64 bits wrap around, as the program's do without overflow checks.
- Qpack: the dynamic table, which the program refuses, and the accessors of the map.
- Settings: asynchronous writing, and which settings enable WebTransport.
- Watch: epochs do not overflow; weak handles can only become strong ones, which is a clone.
- Queue.Queue.TryPop: one pass of the loop in `pop`; the wait between passes is a step of `Watch`.
- Subgroup.SubgroupWriter: priorities are passed through, not modelled.
- WsSteps.TurnStep: speaks of sides that have no reset, stop or close under way; what these do to the objects is stated by `WsStreams`.
- WsStreams.Session: a session that has ended answers waiting calls with an error, which is not modelled.
- Objects.Best: the program's heap is a library; the model looks for the best entry in a list.
- Objects.ObjectsReader: an entry's bytes are read as in `Subgroup`.
- Subscription: datagrams, announcements and track status; a session that ends while messages are queued; the counter coming round after 2^64 subscriptions.
- Listing.ListingWriter: writing to a track whose readers are gone, after which the writer cannot be used again; the reader, which keeps an empty last name and does not apply deltas to its own set, so replaying is defined by the specification.
- Broadcasts, the object reader of whole-track streams, capsules and role negotiation.
- Liveness, fairness, timers and back-pressure, except where a full queue guards a step.
