/** Stream identifiers: a counter with two low bits that name the direction and the side that opened it. */
module StreamIds {
  datatype StreamDir = Bi | Uni

  type StreamId = nat

  /** The counter value must leave room for the two bits below 2^62; a larger one is a panic in the source. */
  function New(id: nat, dir: StreamDir, isServer: bool): (r: StreamId)
    requires id < 0x1000_0000_0000_0000
    ensures Dir(r) == dir && ServerInitiated(r) == isServer && Counter(r) == id
    ensures r < 0x4000_0000_0000_0000
  {
    4 * id + (if dir.Uni? then 2 else 0) + (if isServer then 1 else 0)
  }

  function Dir(s: StreamId): StreamDir {
    if (s / 2) % 2 != 0 then Uni else Bi
  }

  predicate ServerInitiated(s: StreamId) {
    s % 2 != 0
  }

  /** The counter value an identifier was made from. */
  function Counter(s: StreamId): nat {
    s / 4
  }

  predicate CanRecv(s: StreamId, isServer: bool) {
    Dir(s).Uni? ==> ServerInitiated(s) != isServer
  }

  predicate CanSend(s: StreamId, isServer: bool) {
    Dir(s).Uni? ==> ServerInitiated(s) == isServer
  }

  /** The four kinds of section 2.1 of RFC 9000, in their order; one way means from the side that opened the stream. */
  lemma Kinds(id: nat, isServer: bool)
    requires id < 0x1000_0000_0000_0000
    ensures New(id, Bi, false) == 4 * id && New(id, Bi, true) == 4 * id + 1
    ensures New(id, Uni, false) == 4 * id + 2 && New(id, Uni, true) == 4 * id + 3
    ensures CanSend(New(id, Uni, isServer), isServer) && !CanRecv(New(id, Uni, isServer), isServer)
    ensures CanSend(New(id, Bi, isServer), isServer) && CanRecv(New(id, Bi, isServer), isServer)
  {
  }

  /** Counter, direction and side determine the identifier, so the two sides never make the same one. */
  lemma Unique(s: StreamId, t: StreamId)
    ensures s == t <==> Counter(s) == Counter(t) && Dir(s) == Dir(t) && ServerInitiated(s) == ServerInitiated(t)
  {
    assert s == 4 * Counter(s) + 2 * ((s / 2) % 2) + s % 2;
    assert t == 4 * Counter(t) + 2 * ((t / 2) % 2) + t % 2;
  }

  /** A stream can be received on exactly by the side opposite to one that can send on it. */
  lemma SendersFaceReceivers(s: StreamId, isServer: bool)
    ensures CanSend(s, isServer) <==> CanRecv(s, !isServer)
    ensures CanSend(s, isServer) && CanRecv(s, isServer) <==> Dir(s).Bi?
  {
  }
}
