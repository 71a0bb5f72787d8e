/** Integers with a prefix of 1 to 8 bits: section 5.1 of RFC 7541, in 64-bit arithmetic. */
module PrefixInt {
  import opened Wire
  import opened BitStrings
  import Huffman

  datatype QpackError =
    | UnexpectedEnd
    | BoundsExceeded
    | DynamicEntry
    | UnknownEntry
    | HuffmanError(error: Huffman.Error)
    | Utf8Error

  const MAX_POWER: nat := 70
  const WORD: int := 0x1_0000_0000_0000_0000

  /** Flag bits and value, and what is left of the input. */
  datatype Prefixed = Prefixed(flags: Byte, value: U64, rest: Bytes)

  function TwoTo(k: nat): (p: nat)
    ensures p >= 1
  {
    if k == 0 then 1 else 2 * TwoTo(k - 1)
  }

  /** The largest value that the prefix alone cannot hold. */
  function Mask(size: nat): (m: Byte)
    requires 1 <= size <= 8
    ensures m == Power(size) - 1
  {
    Power(size) - 1
  }

  // --- encoding ---

  /** Seven bits at a time, least significant first, all but the last byte marked. */
  function Groups(r: nat): Bytes {
    if r < 128 then [r] else [r % 128 + 128] + Groups(r / 128)
  }

  function Encode(size: nat, flags: Byte, value: U64): Bytes
    requires 1 <= size <= 8
  {
    var mask, top := Mask(size), (flags * Power(size)) % 256;
    hide Power;
    FlagsFit(size, flags);
    if value < mask then [top + value] else [mask + top] + Groups(value - mask)
  }

  /** Shifted flags leave the low bits free, so that or-ing is adding. */
  lemma FlagsFit(size: nat, flags: Byte)
    requires 1 <= size <= 8
    ensures (flags * Power(size)) % 256 == (flags % Power(8 - size)) * Power(size)
    ensures (flags * Power(size)) % 256 <= 256 - Power(size)
    ensures flags < Power(8 - size) ==> (flags * Power(size)) % 256 == flags * Power(size)
  {
    var p, q := Power(size), Power(8 - size);
    assert p * q == 256;
    hide Power;
    var d, m := flags / q, flags % q;
    assert flags == d * q + m;
    assert (d * q + m) * p == d * (p * q) + m * p;
    Within(m, p, q);
    assert flags * p == 256 * d + m * p;
    assert (256 * d + m * p) % 256 == m * p;
  }

  lemma Within(m: nat, p: nat, q: nat)
    requires m < q && p >= 1
    ensures 0 <= m * p <= p * q - p
  {
    var e := q - 1 - m;
    assert e * p >= 0 && m * p >= 0;
    assert p * (e + 1 + m) == e * p + p + m * p;
  }

  method EncodeGroups(buf: Bytes, value: nat) returns (r: Bytes)
    ensures r == buf + Groups(value)
  {
    r := buf;
    var remaining := value;
    while remaining >= 128
      invariant r + Groups(remaining) == buf + Groups(value)
    {
      var rest := remaining % 128;
      assert r + ([rest + 128] + Groups(remaining / 128)) == (r + [rest + 128]) + Groups(remaining / 128);
      r := r + [rest + 128];
      remaining := remaining / 128;
    }
    r := r + [remaining];
  }

  method EncodePrefix(buf: Bytes, size: nat, flags: Byte, value: U64) returns (r: Bytes)
    requires 1 <= size <= 8
    ensures r == buf + Encode(size, flags, value)
  {
    hide Power, Groups;
    var mask, top := Mask(size), (flags * Power(size)) % 256;
    FlagsFit(size, flags);
    if value < mask { return buf + [top + value]; }
    r := EncodeGroups(buf + [mask + top], value - mask);
    assert (buf + [mask + top]) + Groups(value - mask) == buf + ([mask + top] + Groups(value - mask));
  }

  // --- decoding ---

  /** Adds a group where it belongs; bits past the 64th are lost, as the source's arithmetic loses them. */
  function AddGroup(value: U64, byte: Byte, power: nat): U64 {
    (value + ((byte % 128) * TwoTo(power)) % WORD) % WORD
  }

  function DecodeGroups(b: Bytes, value: U64, power: nat): Result<(U64, Bytes), QpackError>
    decreases |b|
  {
    if b == [] then Failure(UnexpectedEnd)
    else
      var v := AddGroup(value, b[0], power);
      if b[0] < 128 then Success((v, b[1..]))
      else if power + 7 >= MAX_POWER then Failure(QpackError.BoundsExceeded)
      else DecodeGroups(b[1..], v, power + 7)
  }

  function Decode(b: Bytes, size: nat): Result<Prefixed, QpackError>
    requires 1 <= size <= 8
  {
    if b == [] then Failure(UnexpectedEnd)
    else
      var flags, first := b[0] / Power(size), b[0] % Power(size);
      if first < Mask(size) then Success(Prefixed(flags, first, b[1..]))
      else
        var (value, rest) :- DecodeGroups(b[1..], Mask(size), 0);
        Success(Prefixed(flags, value, rest))
  }

  method DecodePrefix(b: Bytes, size: nat) returns (r: Result<Prefixed, QpackError>)
    requires 1 <= size <= 8
    ensures r == Decode(b, size)
  {
    hide Power, AddGroup;
    if b == [] { return Failure(UnexpectedEnd); }
    var flags, first := b[0] / Power(size), b[0] % Power(size);
    if first < Mask(size) { return Success(Prefixed(flags, first, b[1..])); }
    var rest: Bytes, value: U64, power: nat := b[1..], Mask(size), 0;
    while true
      invariant DecodeGroups(b[1..], Mask(size), 0) == DecodeGroups(rest, value, power)
      decreases |rest|
    {
      if rest == [] { return Failure(UnexpectedEnd); }
      var byte := rest[0];
      rest := rest[1..];
      value := AddGroup(value, byte, power);
      power := power + 7;
      if byte < 128 { break; }
      if power >= MAX_POWER { return Failure(QpackError.BoundsExceeded); }
    }
    return Success(Prefixed(flags, value, rest));
  }

  // --- inverse ---

  lemma TwoToSeven(k: nat)
    ensures TwoTo(k + 7) == 128 * TwoTo(k)
  {
    assert TwoTo(k + 7) == 2 * TwoTo(k + 6) == 4 * TwoTo(k + 5) == 8 * TwoTo(k + 4) == 16 * TwoTo(k + 3);
    assert TwoTo(k + 3) == 2 * TwoTo(k + 2) == 4 * TwoTo(k + 1) == 8 * TwoTo(k);
  }

  lemma {:induction false} TwoToGrows(j: nat, k: nat)
    requires j <= k
    ensures TwoTo(j) <= TwoTo(k)
  {
    if j < k { TwoToGrows(j, k - 1); }
  }

  lemma TwoToWord()
    ensures TwoTo(64) == WORD
  {
    assert TwoTo(64) == 2 * TwoTo(63) && TwoTo(0) == 1;
    hide TwoTo;
    TwoToSeven(0);
    assert TwoTo(7) == 128;
    TwoToSeven(7);
    assert TwoTo(14) == 0x4000;
    TwoToSeven(14);
    assert TwoTo(21) == 0x20_0000;
    TwoToSeven(21);
    assert TwoTo(28) == 0x1000_0000;
    TwoToSeven(28);
    TwoToSeven(35);
    assert TwoTo(42) == 0x400_0000_0000;
    TwoToSeven(42);
    TwoToSeven(49);
    assert TwoTo(56) == 0x100_0000_0000_0000;
    TwoToSeven(56);
  }

  /** A group splits off its seven bits. */
  lemma SplitGroup(r: nat, power: nat)
    ensures r * TwoTo(power) == (r % 128) * TwoTo(power) + (r / 128) * TwoTo(power + 7)
    ensures (r / 128) * TwoTo(power + 7) >= 0 && (r % 128) * TwoTo(power) >= 0
  {
    TwoToSeven(power);
    var q, m, t := r / 128, r % 128, TwoTo(power);
    assert r == 128 * q + m;
    assert (128 * q + m) * t == 128 * q * t + m * t;
    assert q * (128 * t) == 128 * q * t;
    assert q * t >= 0 && m * t >= 0;
  }

  lemma AtLeast(r: nat, k: nat)
    requires r >= 128
    ensures k >= 57 ==> r * TwoTo(k) >= WORD
  {
    if k >= 57 {
      TwoToGrows(57, k);
      TwoToSeven(57);
      TwoToWord();
      Scale(r, TwoTo(k));
    }
  }

  lemma Scale(r: nat, t: nat)
    requires r >= 128
    ensures r * t >= 128 * t
  {
  }

  lemma AddExact(value: U64, byte: Byte, power: nat)
    ensures value + (byte % 128) * TwoTo(power) < WORD
            ==> AddGroup(value, byte, power) == value + (byte % 128) * TwoTo(power)
  {
    hide TwoTo;
    assert (byte % 128) * TwoTo(power) >= 0;
  }

  /** Groups decode to the number they were made from, with no byte more, whatever follows. */
  lemma {:induction false} GroupsDecode(r: nat, rest: Bytes, value: U64, power: nat)
    requires value + r * TwoTo(power) < WORD
    ensures DecodeGroups(Groups(r) + rest, value, power) == Success((value + r * TwoTo(power), rest))
    decreases r
  {
    hide TwoTo, AddGroup;
    SplitGroup(r, power);
    var b := Groups(r) + rest;
    AddExact(value, b[0], power);
    if r < 128 {
      assert b[1..] == rest;
      assert r / 128 == 0 && r % 128 == r;
    } else {
      AtLeast(r, power);
      assert b[1..] == Groups(r / 128) + rest;
      assert b[0] % 128 == r % 128;
      var v := AddGroup(value, b[0], power);
      GroupsDecode(r / 128, rest, v, power + 7);
    }
  }

  /** The encoder takes no group more than the number needs: all but the last are marked, and the last is not zero. */
  lemma {:induction false} Shortest(r: nat)
    ensures var g := Groups(r);
            && g != [] && g[|g| - 1] < 128 && (|g| > 1 ==> g[|g| - 1] > 0)
            && (forall i | 0 <= i < |g| - 1 :: g[i] >= 128)
            && (|g| == 1 <==> r < 128)
    decreases r
  {
    if r >= 128 { Shortest(r / 128); }
  }

  /** A value below the full prefix takes one byte, flags above and value below; any other takes the prefix and groups. */
  lemma PrefixBytes(size: nat, flags: Byte, value: U64)
    requires 1 <= size <= 8 && flags < Power(8 - size)
    ensures var e := Encode(size, flags, value);
            && (|e| == 1 <==> value < Power(size) - 1)
            && e[0] == flags * Power(size) + (if value < Power(size) - 1 then value else Power(size) - 1)
            && (value >= Power(size) - 1 ==> e[1..] == Groups(value - (Power(size) - 1)))
  {
    FlagsFit(size, flags);
    if value >= Power(size) - 1 { Shortest(value - (Power(size) - 1)); }
    hide Groups, Power;
  }

  // --- any input ---

  /** The first byte that is not marked as having another behind it. */
  function Stop(b: Bytes): (j: nat)
    ensures j <= |b| && (j < |b| ==> b[j] < 128) && forall l | 0 <= l < j :: b[l] >= 128
  {
    if b == [] || b[0] < 128 then 0 else 1 + Stop(b[1..])
  }

  /** The number that groups stand for, the first of them at this power. */
  function Sum(b: Bytes, power: nat): nat {
    if b == [] then 0
    else
      NotNegative(b[0] % 128, TwoTo(power));
      (b[0] % 128) * TwoTo(power) + Sum(b[1..], power + 7)
  }

  lemma NotNegative(a: nat, b: nat)
    ensures a * b >= 0
  {
  }

  /** Sums may be cut to a word at any point. */
  lemma Wraps(value: U64, group: nat, rest: nat)
    ensures ((value + group % WORD) % WORD + rest) % WORD == (value + (group + rest)) % WORD
  {
    var g := group / WORD;
    assert group == WORD * g + group % WORD;
    var s := value + group % WORD;
    var h := s / WORD;
    assert s == WORD * h + s % WORD;
    assert value + (group + rest) == (s % WORD + rest) + WORD * (g + h);
    assert ((s % WORD + rest) + WORD * (g + h)) % WORD == (s % WORD + rest) % WORD;
  }

  /**
   * Groups of any shape: up to ten are taken, and make the sum of their places, cut to 64 bits; ten marked ones exceed
   * the bounds, and fewer with none to follow end too soon.
   */
  lemma {:induction false} GroupsAny(b: Bytes, value: U64, i: nat)
    requires i < 10
    ensures var j := Stop(b);
            DecodeGroups(b, value, 7 * i)
            == if j >= 10 - i then Failure(QpackError.BoundsExceeded)
               else if j == |b| then Failure(UnexpectedEnd)
               else Success(((value + Sum(b[..j + 1], 7 * i)) % WORD, b[j + 1..]))
    decreases |b|
  {
    hide TwoTo, AddGroup, Sum;
    if b != [] {
      if b[0] < 128 {
        assert b[..1][1..] == [];
        AddHead(b[..1], value, 7 * i);
        SumNothing(7 * i + 7);
      } else if i < 9 {
        var v := AddGroup(value, b[0], 7 * i);
        GroupsAny(b[1..], v, i + 1);
        var j := Stop(b[1..]);
        if j < |b[1..]| {
          assert b[..j + 2][1..] == b[1..][..j + 1] && b[1..][j + 1..] == b[j + 2..];
          AddHead(b[..j + 2], value, 7 * i);
        }
      }
    }
  }

  lemma SumNothing(power: nat)
    ensures Sum([], power) == 0
  {
  }

  /** Adding the first group, and then the others. */
  lemma AddHead(b: Bytes, value: U64, power: nat)
    requires b != []
    ensures (AddGroup(value, b[0], power) + Sum(b[1..], power + 7)) % WORD == (value + Sum(b, power)) % WORD
  {
    hide TwoTo;
    NotNegative(b[0] % 128, TwoTo(power));
    Wraps(value, (b[0] % 128) * TwoTo(power), Sum(b[1..], power + 7));
  }

  /** Any input: the flags above the prefix, and the prefix, or what the groups behind a full prefix add to it. */
  lemma DecodesAny(b: Bytes, size: nat)
    requires 1 <= size <= 8
    ensures b == [] ==> Decode(b, size) == Failure(UnexpectedEnd)
    ensures b != [] ==>
              var flags, first, j := b[0] / Power(size), b[0] % Power(size), Stop(b[1..]);
              Decode(b, size)
              == if first < Power(size) - 1 then Success(Prefixed(flags, first, b[1..]))
                 else if j >= 10 then Failure(QpackError.BoundsExceeded)
                 else if j == |b| - 1 then Failure(UnexpectedEnd)
                 else Success(Prefixed(flags, (first + Sum(b[1..j + 2], 0)) % WORD, b[j + 2..]))
  {
    if b != [] {
      GroupsAny(b[1..], Mask(size), 0);
      hide DecodeGroups, Sum, Power;
      var j := Stop(b[1..]);
      if j < |b| - 1 { assert b[1..][..j + 1] == b[1..j + 2] && b[1..][j + 1..] == b[j + 2..]; }
    }
  }

  lemma TopBits(size: nat, flags: Byte, low: nat)
    requires 1 <= size <= 8 && flags < Power(8 - size) && low < Power(size)
    ensures var first := (flags * Power(size)) % 256 + low;
            first < 256 && first / Power(size) == flags && first % Power(size) == low
  {
    FlagsFit(size, flags);
    Quotient(flags * Power(size) + low, Power(size), flags, low);
  }

  /**
   * For every prefix size, all flags that fit and every 64-bit value: decoding inverts encoding, takes exactly
   * the bytes written, and so never reports exceeded bounds.
   */
  lemma RoundTrip(size: nat, flags: Byte, value: U64, rest: Bytes)
    requires 1 <= size <= 8 && flags < Power(8 - size)
    ensures Decode(Encode(size, flags, value) + rest, size) == Success(Prefixed(flags, value, rest))
  {
    hide Power, Groups, DecodeGroups;
    var b, mask := Encode(size, flags, value) + rest, Mask(size);
    FlagsFit(size, flags);
    if value < mask {
      TopBits(size, flags, value);
      assert b[1..] == rest;
    } else {
      TopBits(size, flags, mask);
      assert b[1..] == Groups(value - mask) + rest;
      assert (value - mask) * TwoTo(0) == value - mask;
      GroupsDecode(value - mask, rest, mask, 0);
    }
  }
}
