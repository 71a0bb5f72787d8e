/** The QUIC variable-length integer: section 16 of RFC 9000. */
module VarInt {
  import opened Wire

  const MAX: nat := 0x4000_0000_0000_0000 - 1

  function Pow256(n: nat): (p: nat)
    ensures p > 0
  {
    if n == 0 then 1 else 256 * Pow256(n - 1)
  }

  /** The `n` low bytes of `x`, most significant first. */
  function BigEndian(x: nat, n: nat): (s: Bytes)
    ensures |s| == n
    decreases n
  {
    if n == 0 then [] else BigEndian(x / 256, n - 1) + [x % 256]
  }

  function FromBigEndian(s: Bytes): nat {
    if s == [] then 0 else 256 * FromBigEndian(s[..|s| - 1]) + s[|s| - 1]
  }

  lemma {:induction false} BigEndianInverse(x: nat, n: nat)
    requires x < Pow256(n)
    ensures FromBigEndian(BigEndian(x, n)) == x
    decreases n
  {
    if n > 0 {
      BigEndianInverse(x / 256, n - 1);
      assert BigEndian(x, n)[..n - 1] == BigEndian(x / 256, n - 1);
    }
  }

  /** The leading byte carries the top of the number, the others are below one unit of it. */
  lemma {:induction false} Leading(h: Byte, t: Bytes)
    ensures FromBigEndian([h] + t) == h * Pow256(|t|) + FromBigEndian(t)
    ensures FromBigEndian(t) < Pow256(|t|)
  {
    var s := [h] + t;
    if t == [] {
      assert s[..0] == [];
    } else {
      var t' := t[..|t| - 1];
      Leading(h, t');
      assert s[..|s| - 1] == [h] + t';
      Regroup(h, Pow256(|t'|), FromBigEndian(t'), t[|t| - 1]);
    }
  }

  lemma Regroup(h: nat, p: nat, v: nat, low: nat)
    ensures 256 * (h * p + v) + low == h * (256 * p) + (256 * v + low)
  {
  }

  lemma Powers()
    ensures Pow256(0) == 1 && Pow256(1) == 0x100 && Pow256(2) == 0x1_0000 && Pow256(3) == 0x100_0000
    ensures Pow256(4) == 0x1_0000_0000
    ensures Pow256(7) == 0x100_0000_0000_0000
    ensures Pow256(8) == 0x1_0000_0000_0000_0000
  {
    assert Pow256(5) == 256 * Pow256(4);
    assert Pow256(6) == 256 * Pow256(5);
  }

  /** The length in bytes of the encoding whose first byte carries this two-bit tag. */
  function Width(tag: nat): (w: nat)
    requires tag < 4
    ensures w in {1, 2, 4, 8}
  {
    if tag == 0 then 1 else if tag == 1 then 2 else if tag == 2 then 4 else 8
  }

  function Encode(x: nat): Encoded {
    if x < 0x40 then Success(BigEndian(x, 1))
    else if x < 0x4000 then Success(BigEndian(0x4000 + x, 2))
    else if x < 0x4000_0000 then Success(BigEndian(0x8000_0000 + x, 4))
    else if x < 0x4000_0000_0000_0000 then Success(BigEndian(0xC000_0000_0000_0000 + x, 8))
    else Failure(BoundsExceeded)
  }

  function Decode(b: Bytes): Decoded<nat> {
    if Remaining(b, 1).Some? then Err(Remaining(b, 1).value)
    else
      var w := Width(b[0] / 64);
      if Remaining(b[1..], w - 1).Some? then Err(Remaining(b[1..], w - 1).value)
      else Ok(FromBigEndian([b[0] % 64] + b[1..w]), b[w..])
  }

  /** An encoding is its tagged first byte followed by the low bytes; its length is what the tag says. */
  lemma Shape(x: nat)
    requires Encode(x).Success?
    ensures var e := Encode(x).value;
            && |e| >= 1
            && |e| == Width(e[0] / 64)
            && FromBigEndian([e[0] % 64] + e[1..]) == x
  {
    Powers();
    var e := Encode(x).value;
    if x < 0x40 { Tagged(x, 0, 1, 1, e); }
    else if x < 0x4000 { Tagged(x, 1, 2, 0x100, e); }
    else if x < 0x4000_0000 { Tagged(x, 2, 4, 0x100_0000, e); }
    else { Tagged(x, 3, 8, 0x100_0000_0000_0000, e); }
  }

  lemma Tagged(x: nat, tag: nat, n: nat, p: nat, e: Bytes)
    requires tag < 4 && n == Width(tag) && p == Pow256(n - 1) && Pow256(n) == 256 * p
    requires x < 64 * p && tag * (64 * p) + x < 256 * p && e == BigEndian(tag * (64 * p) + x, n)
    ensures e[0] / 64 == tag && FromBigEndian([e[0] % 64] + e[1..]) == x
  {
    hide BigEndian, Pow256, Width;
    var y := tag * (64 * p) + x;
    BigEndianInverse(y, n);
    var h, t := e[0], e[1..];
    assert e == [h] + t;
    Leading(h, t);
    Leading(h % 64, t);
    TopBits(x, tag, h, p, FromBigEndian(t));
  }

  /** If `h` units of `p` and a rest are `64 * tag` units and less than 64 more, `tag` is the top of `h`. */
  lemma TopBits(x: nat, tag: nat, h: Byte, p: nat, low: nat)
    requires tag < 4 && x < 64 * p && low < p
    requires tag * (64 * p) + x == h * p + low
    ensures h / 64 == tag && (h % 64) * p + low == x
  {
    assert (h - 64 * tag) * p == x - low;
    Sign(h - 64 * tag, p);
    assert (64 * tag + 63 - h) * p == 63 * p + low - x;
    Sign(64 * tag + 63 - h, p);
    assert h % 64 == h - 64 * tag;
  }

  lemma Sign(a: int, p: nat)
    ensures a * p + p > 0 ==> a >= 0
  {
    if a < 0 {
      NonPositive(a + 1, p);
      assert (a + 1) * p == a * p + p;
    }
  }

  lemma NonPositive(a: int, p: nat)
    requires a <= 0
    ensures a * p <= 0
  {
  }

  /** Every arrival of an encoded integer decodes to that integer, or asks for bytes of its own encoding. */
  lemma DecodeReads(x: nat, b: Bytes)
    requires Encode(x).Success?
    requires Arrived(b, Encode(x).value)
    ensures Reads(Decode(b), b, Encode(x).value, x)
  {
    var e := Encode(x).value;
    Shape(x);
    if |b| >= 1 {
      assert b[0] == e[0];
      if |e| <= |b| {
        assert b[1..|e|] == e[1..];
      }
    }
  }

  /** Any bytes: the two top bits of the first give the width, the others are the number, least or not. */
  lemma DecodesAny(b: Bytes)
    ensures b == [] ==> Decode(b) == Err(More(1))
    ensures b != [] && b[0] < 64 ==> Decode(b) == Ok(b[0], b[1..])
    ensures b != [] && 64 <= b[0] < 128 ==>
              Decode(b) == if |b| < 2 then Err(More(2 - |b|)) else Ok((b[0] as int - 64) * 0x100 + b[1], b[2..])
    ensures b != [] && 128 <= b[0] < 192 ==>
              Decode(b) == if |b| < 4 then Err(More(4 - |b|))
                           else Ok((b[0] as int - 128) * 0x100_0000 + b[1] as int * 0x1_0000 + b[2] as int * 0x100 + b[3], b[4..])
    ensures b != [] && 192 <= b[0] ==>
              Decode(b) == if |b| < 8 then Err(More(8 - |b|))
                           else Ok((b[0] as int - 192) * 0x100_0000_0000_0000 + b[1] as int * 0x1_0000_0000_0000
                                   + b[2] as int * 0x100_0000_0000 + b[3] as int * 0x1_0000_0000 + b[4] as int * 0x100_0000
                                   + b[5] as int * 0x1_0000 + b[6] as int * 0x100 + b[7], b[8..])
  {
    if b != [] {
      var w := Width(b[0] / 64);
      if |b| >= w {
        var s := [b[0] % 64] + b[1..w];
        if w == 2 { Two(s); } else if w == 4 { Four(s); } else if w == 8 { Eight(s); } else { One(s); }
      }
    }
  }

  lemma One(s: Bytes)
    requires |s| == 1
    ensures FromBigEndian(s) == s[0]
  {
    var none := s[..|s| - 1];
    assert none == [];
    assert FromBigEndian(none) == 0;
  }

  /** Two bytes, four, and eight, spelled out. */
  lemma Two(s: Bytes)
    requires |s| == 2
    ensures FromBigEndian(s) == s[0] as int * 0x100 + s[1]
  {
    One(s[..1]);
    assert s[..|s| - 1] == s[..1];
  }

  lemma Four(s: Bytes)
    requires |s| == 4
    ensures FromBigEndian(s) == s[0] as int * 0x100_0000 + s[1] as int * 0x1_0000 + s[2] as int * 0x100 + s[3]
  {
    Two(s[..2]);
    Two(s[2..]);
    Powers();
    hide FromBigEndian, Pow256;
    assert s == s[..2] + s[2..];
    Concat(s[..2], s[2..]);
  }

  lemma Eight(s: Bytes)
    requires |s| == 8
    ensures FromBigEndian(s)
            == s[0] as int * 0x100_0000_0000_0000 + s[1] as int * 0x1_0000_0000_0000 + s[2] as int * 0x100_0000_0000
               + s[3] as int * 0x1_0000_0000 + s[4] as int * 0x100_0000 + s[5] as int * 0x1_0000 + s[6] as int * 0x100 + s[7]
  {
    Four(s[..4]);
    Four(s[4..]);
    Powers();
    hide FromBigEndian, Pow256;
    assert s == s[..4] + s[4..];
    Concat(s[..4], s[4..]);
  }

  lemma {:induction false} Concat(h: Bytes, t: Bytes)
    ensures FromBigEndian(h + t) == FromBigEndian(h) * Pow256(|t|) + FromBigEndian(t)
    decreases |t|
  {
    if t == [] {
      assert h + t == h;
    } else {
      var t' := t[..|t| - 1];
      Concat(h, t');
      assert (h + t)[..|h + t| - 1] == h + t';
      Regroup(FromBigEndian(h), Pow256(|t'|), FromBigEndian(t'), t[|t| - 1]);
    }
  }

  /** The encoder takes the shortest of the four forms that holds the number. */
  lemma Shortest(x: nat)
    requires x <= MAX
    ensures Encode(x).Success?
    ensures |Encode(x).value| == if x < 0x40 then 1 else if x < 0x4000 then 2 else if x < 0x4000_0000 then 4 else 8
  {
  }

  lemma RoundTrip(x: nat, tail: Bytes)
    ensures Encode(x).Success? <==> x <= MAX
    ensures x <= MAX ==> Decode(Encode(x).value + tail) == Ok(x, tail)
  {
    if x <= MAX {
      WholeArrives(Encode(x).value, tail);
      DecodeReads(x, Encode(x).value + tail);
    }
  }
}
