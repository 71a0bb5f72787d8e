/** HTTP/3 frames with the greasing types skipped: section 7.2.8 of RFC 9114. */
module H3Frame {
  import opened Wire
  import VarInt

  const SETTINGS: nat := 0x04

  predicate IsGrease(v: nat) {
    v >= 0x21 && (v - 0x21) % 0x1f == 0
  }

  /** The reserved types of section 7.2.8: every 31st number from 33 on. */
  lemma GreaseTypes(v: nat)
    ensures IsGrease(v) <==> exists k: nat :: v == 0x1f * k + 0x21
  {
    if IsGrease(v) { assert v == 0x1f * ((v - 0x21) / 0x1f) + 0x21; }
  }

  /** A frame's type and payload, and what follows it. */
  datatype Framed = Framed(typ: nat, payload: Bytes, rest: Bytes)

  /** One frame, whatever its type; None if it is not all there. */
  function One(b: Bytes): Option<Framed> {
    var typ := VarInt.Decode(b);
    if typ.Err? then None
    else
      var size := VarInt.Decode(typ.rest);
      if size.Err? || |size.rest| < size.value then None
      else Some(Framed(typ.value, size.rest[..size.value], size.rest[size.value..]))
  }

  lemma OneTakes(b: Bytes)
    ensures One(b).Some? ==> |One(b).value.rest| < |b|
  {
  }

  /** The first frame that is not there to be ignored. */
  function Read(b: Bytes): Option<Framed>
    decreases |b|
  {
    OneTakes(b);
    match One(b)
    case None => None
    case Some(f) => if IsGrease(f.typ) then Read(f.rest) else Some(f)
  }

  function Var(x: nat): Bytes
    requires x <= VarInt.MAX
  {
    VarInt.RoundTrip(x, []);
    VarInt.Encode(x).value
  }

  /** A frame as it is written when its length field holds `size`. */
  function Wrap(typ: nat, size: nat, payload: Bytes): Bytes
    requires typ <= VarInt.MAX && size <= VarInt.MAX
  {
    Var(typ) + (Var(size) + payload)
  }

  type Grease = f: (nat, Bytes) | IsGrease(f.0) && f.0 <= VarInt.MAX && |f.1| <= VarInt.MAX witness (0x21, [])

  function Greases(fs: seq<Grease>): Bytes {
    if fs == [] then [] else Wrap(fs[0].0, |fs[0].1|, fs[0].1) + Greases(fs[1..])
  }

  /** Either all of `e` has arrived and `r` is its frame with the exact tail, or some has not and there is none. */
  ghost predicate ReadsFrame(r: Option<Framed>, b: Bytes, e: Bytes, typ: nat, payload: Bytes) {
    r == if |e| <= |b| then Some(Framed(typ, payload, b[|e|..])) else None
  }

  lemma VarReads(x: nat, b: Bytes)
    requires x <= VarInt.MAX && Arrived(b, Var(x))
    ensures var r := VarInt.Decode(b);
            if |Var(x)| <= |b| then r == Ok(x, b[|Var(x)|..]) else r.Err?
  {
    hide VarInt.Encode, VarInt.Decode;
    VarInt.RoundTrip(x, []);
    VarInt.DecodeReads(x, b);
  }

  lemma OneReads(typ: nat, payload: Bytes, b: Bytes)
    requires typ <= VarInt.MAX && |payload| <= VarInt.MAX && Arrived(b, Wrap(typ, |payload|, payload))
    ensures ReadsFrame(One(b), b, Wrap(typ, |payload|, payload), typ, payload)
  {
    hide Var, VarInt.Decode;
    var first, second := Var(typ), Var(|payload|);
    SplitArrival(b, first, second + payload);
    VarReads(typ, b);
    if |first| <= |b| {
      var c := b[|first|..];
      SplitArrival(c, second, payload);
      VarReads(|payload|, c);
      if |second| <= |c| {
        var d := c[|second|..];
        assert |payload| <= |d| ==> d[..|payload|] == payload && d[|payload|..] == b[|first + (second + payload)|..];
      }
    }
  }

  /** However many greasing frames stand in front, reading gives the frame behind them, and waits until it is whole. */
  lemma {:induction false} ReadSkips(fs: seq<Grease>, typ: nat, payload: Bytes, b: Bytes)
    requires typ <= VarInt.MAX && |payload| <= VarInt.MAX && !IsGrease(typ)
    requires Arrived(b, Greases(fs) + Wrap(typ, |payload|, payload))
    ensures ReadsFrame(Read(b), b, Greases(fs) + Wrap(typ, |payload|, payload), typ, payload)
    decreases |fs|
  {
    hide One, Wrap, IsGrease;
    var last := Wrap(typ, |payload|, payload);
    if fs == [] {
      assert Greases(fs) + last == last;
      OneReads(typ, payload, b);
    } else {
      var f := fs[0];
      var first, others := Wrap(f.0, |f.1|, f.1), Greases(fs[1..]) + last;
      assert Greases(fs) + last == first + others;
      SplitArrival(b, first, others);
      OneReads(f.0, f.1, b);
      if |first| <= |b| {
        OneTakes(b);
        ReadSkips(fs[1..], typ, payload, b[|first|..]);
        assert |first| + |others| <= |b| ==> b[|first|..][|others|..] == b[|first + others|..];
      }
    }
  }
}
