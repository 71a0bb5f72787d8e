/** Bytes, decoding results, and the law that every incremental decoder of the relay obeys. */
module Wire {

  type Byte = x: int | 0 <= x < 256

  type Bytes = seq<Byte>

  type U64 = x: int | 0 <= x < 0x1_0000_0000_0000_0000

  datatype Option<+T> = None | Some(value: T)

  datatype Result<+T, +E> = Success(value: T) | Failure(error: E) {
    predicate IsFailure() { Failure? }

    function PropagateFailure<U>(): Result<U, E>
      requires Failure?
    {
      Failure(error)
    }

    function Extract(): T
      requires Success?
    {
      value
    }
  }

  datatype DecodeError =
    | More(needed: nat)
    | InvalidString
    | InvalidMessage(typ: nat)
    | InvalidSubscribeLocation
    | InvalidFilterType
    | InvalidGroupOrder
    | InvalidObjectStatus
    | InvalidTrackStatusCode
    | MissingField
    | InvalidValue
    | DuplicateParameter

  datatype EncodeError = BoundsExceeded | FieldMissing

  type Encoded = Result<Bytes, EncodeError>

  /** A decoded value together with the bytes that decoding left unread. */
  datatype Decoded<+T> = Ok(value: T, rest: Bytes) | Err(error: DecodeError) {
    predicate IsFailure() { Err? }

    function PropagateFailure<U>(): Decoded<U>
      requires Err?
    {
      Err(error)
    }

    function Extract(): (T, Bytes)
      requires Ok?
    {
      (value, rest)
    }
  }

  /** The check in front of every fixed-size read: how many bytes are missing, if any. */
  function Remaining(b: Bytes, required: nat): (r: Option<DecodeError>)
    ensures r == None <==> required <= |b|
    ensures r.Some? ==> r.value == More(required - |b|)
  {
    if |b| < required then Some(More(required - |b|)) else None
  }

  /** `b` is what has arrived of a stream that starts with `e`: a part of `e`, or all of `e` and more. */
  ghost predicate Arrived(b: Bytes, e: Bytes) {
    b <= e || e <= b
  }

  /**
   * What decoding the arrived bytes `b` must give when the stream starts with `e`, an encoding of `v`:
   * the value and the exact tail once all of `e` is there, and before that a request for at least one
   * byte that never reaches past the end of `e`.
   */
  ghost predicate Reads<T(!new)>(r: Decoded<T>, b: Bytes, e: Bytes, v: T) {
    if |e| <= |b| then r == Ok(v, b[|e|..])
    else r.Err? && r.error.More? && 1 <= r.error.needed <= |e| - |b|
  }

  /** A decoder that treats every arrival of `e` as an arrival of `v`. */
  ghost predicate Honest<T(!new)>(decode: Bytes -> Decoded<T>, e: Bytes, v: T) {
    forall b | Arrived(b, e) :: Reads(decode(b), b, e, v)
  }

  lemma SplitArrival(b: Bytes, first: Bytes, second: Bytes)
    requires Arrived(b, first + second)
    ensures Arrived(b, first)
    ensures |first| <= |b| ==> Arrived(b[|first|..], second)
  {
    var e := first + second;
    assert e[..|first|] == first && e[|first|..] == second;
    if |first| <= |b| {
      if b <= e {
        assert b[|first|..] <= second;
      } else {
        assert b[|first|..][..|second|] == second;
      }
    } else {
      assert b <= e;
      assert b <= first;
    }
  }

  lemma WholeArrives(e: Bytes, tail: Bytes)
    ensures Arrived(e + tail, e)
    ensures (e + tail)[|e|..] == tail
  {
  }
}
