/** Bytes as strings of bits, numbers as bits, and the shifts that cut a few bits out of one or two bytes. */
module BitStrings {
  import opened Wire

  type Bits = seq<bool>

  /** Two to the `l`, as far as a shift of two bytes goes. */
  function Power(l: int): (p: int)
    ensures 0 < p
  {
    match l
    case 0 => 1 case 1 => 2 case 2 => 4 case 3 => 8 case 4 => 16 case 5 => 32 case 6 => 64 case 7 => 128
    case 8 => 256 case 9 => 512 case 10 => 1024 case 11 => 2048 case 12 => 4096 case 13 => 8192
    case 14 => 16384 case 15 => 32768 case _ => 65536
  }

  // --- bits and numbers ---

  predicate BitOf(x: Byte, j: nat)
    requires j < 8
  {
    (x / Power(7 - j)) % 2 == 1
  }

  function BitsIn(src: Bytes): (b: Bits)
    ensures |b| == 8 * |src|
  {
    seq(8 * |src|, k requires 0 <= k < 8 * |src| => BitOf(src[k / 8], k % 8))
  }

  function Num(b: Bits): nat {
    if b == [] then 0 else 2 * Num(b[..|b| - 1]) + (if b[|b| - 1] then 1 else 0)
  }

  /** The lowest `l` bits of a number. */
  function Low(i: nat, l: nat): (b: Bits)
    ensures |b| == l
  {
    if l == 0 then [] else Low(i / 2, l - 1) + [i % 2 == 1]
  }

  /** The bits after the leading 1 of a code. */
  function Path(m: int): Bits {
    if m <= 1 then [] else Path(m / 2) + [m % 2 == 1]
  }

  lemma {:induction false} LowNum(b: Bits)
    ensures Low(Num(b), |b|) == b
  {
    if b != [] {
      LowNum(b[..|b| - 1]);
      assert b == b[..|b| - 1] + [b[|b| - 1]];
    }
  }

  lemma Double(a: int, l: int)
    requires 0 < l <= 16
    ensures a * Power(l) == 2 * (a * Power(l - 1))
  {
    assert Power(l) == 2 * Power(l - 1);
  }

  lemma {:induction false} NumBound(b: Bits)
    requires |b| <= 16
    ensures Num(b) < Power(|b|)
  {
    if b != [] {
      NumBound(b[..|b| - 1]);
      assert Power(|b|) == 2 * Power(|b| - 1);
    }
  }

  lemma {:induction false} NumLow(i: nat, l: nat)
    requires l <= 16 && i < Power(l)
    ensures Num(Low(i, l)) == i
  {
    if l > 0 {
      assert Power(l) == 2 * Power(l - 1);
      NumLow(i / 2, l - 1);
      var b := Low(i, l);
      assert b[..|b| - 1] == Low(i / 2, l - 1);
    }
  }

  /** A code and then the bits of an index. */
  lemma {:induction false} PathAppend(m: int, l: nat, i: nat)
    requires m >= 1 && l <= 16 && i < Power(l)
    ensures Path(m * Power(l) + i) == Path(m) + Low(i, l)
  {
    if l == 0 {
      assert m * 1 == m;
      assert Path(m) + [] == Path(m);
    } else {
      Double(m, l);
      assert Power(l) == 2 * Power(l - 1);
      var c := m * Power(l) + i;
      assert c == 2 * (m * Power(l - 1)) + i;
      assert m * Power(l - 1) >= 1 by { Positive(m, Power(l - 1)); }
      assert c / 2 == m * Power(l - 1) + i / 2 && c % 2 == i % 2;
      PathAppend(m, l - 1, i / 2);
      assert Path(m) + Low(i / 2, l - 1) + [i % 2 == 1] == Path(m) + (Low(i / 2, l - 1) + [i % 2 == 1]);
    }
  }

  lemma Positive(a: int, b: int)
    requires a >= 1 && b >= 1
    ensures a * b >= 1
  {
  }

  // --- reading a few bits with shifts ---

  /** The first `k` of the 16 bits of two bytes, as a number. */
  function Top(hi: Byte, lo: Byte, k: nat): int
    requires k <= 16
  {
    if k <= 8 then hi / Power(8 - k) else hi * Power(k - 8) + lo / Power(16 - k)
  }

  predicate BitAt(hi: Byte, lo: Byte, k: nat)
    requires k < 16
  {
    if k < 8 then BitOf(hi, k) else BitOf(lo, k - 8)
  }

  lemma TopStep(hi: Byte, lo: Byte, k: nat)
    requires k < 16
    ensures Top(hi, lo, k + 1) == 2 * Top(hi, lo, k) + if BitAt(hi, lo, k) then 1 else 0
  {
    if k < 8 { ByteStep(hi, k); } else { ByteStep(lo, k - 8); }
  }

  lemma ByteStep(x: Byte, k: nat)
    requires k < 8
    ensures x / Power(7 - k) == 2 * (x / Power(8 - k)) + if BitOf(x, k) then 1 else 0
  {
  }

  /** The second byte of a window, where there is one. */
  function Second(src: Bytes, b: nat): Byte {
    if b + 1 < |src| then src[b + 1] else 0
  }

  lemma {:induction false} SliceNum(src: Bytes, b: nat, o: nat, len: nat)
    requires b < |src| && o < 8 && len <= 8 && 8 * b + o + len <= 8 * |src|
    ensures var hi, lo, pos := src[b], Second(src, b), 8 * b + o;
            Num(BitsIn(src)[pos..pos + len]) == Top(hi, lo, o + len) - Top(hi, lo, o) * Power(len)
  {
    hide BitOf, Top;
    var hi, lo, pos := src[b], Second(src, b), 8 * b + o;
    var s := BitsIn(src)[pos..pos + len];
    if len == 0 {
      assert Top(hi, lo, o) * 1 == Top(hi, lo, o);
    } else {
      SliceNum(src, b, o, len - 1);
      assert s[..len - 1] == BitsIn(src)[pos..pos + (len - 1)];
      TopStep(hi, lo, o + len - 1);
      var k := pos + len - 1;
      assert s[len - 1] == BitsIn(src)[k] == BitOf(src[k / 8], k % 8);
      assert BitAt(hi, lo, o + len - 1) == BitOf(src[k / 8], k % 8);
      Double(Top(hi, lo, o), len);
    }
  }

  /** One byte, shifted left as a u8 and then right. */
  function ShiftByte(x: Byte, o: nat, len: nat): int
    requires o < 8 && 0 < len <= 8
  {
    ((x * Power(o)) % 256) / Power(8 - len)
  }

  /** Two bytes, shifted left as a u16, then right, and cut to a u8. */
  function ShiftPair(hi: Byte, lo: Byte, o: nat, len: nat): int
    requires o < 8 && 0 < len <= 8
  {
    (((hi * 256 + lo) * Power(o)) % 65536) / Power(16 - len) % 256
  }

  /** The first `k` bits of a word of `width` bits. */
  function First(w: int, width: int, k: int): int {
    w / Power(width - k)
  }

  predicate IsSet(w: int, width: int, k: int) {
    (w / Power(width - 1 - k)) % 2 == 1
  }

  lemma FirstStep(w: int, width: int, k: int)
    requires (width == 8 || width == 16) && 0 <= w && 0 <= k < width
    ensures First(w, width, k + 1) == 2 * First(w, width, k) + if IsSet(w, width, k) then 1 else 0
  {
  }

  function Shifted(w: int, width: int, o: int): int {
    (w * Power(o)) % Power(width)
  }

  /** Shifting a word left by one drops its first bit and moves the others up. */
  lemma ShiftBit(w: int, width: int, k: int)
    requires (width == 8 || width == 16) && 0 <= w < Power(width) && 0 <= k < width - 1
    ensures IsSet((2 * w) % Power(width), width, k) == IsSet(w, width, k + 1)
  {
    var half, v := Power(width - 1), (2 * w) % Power(width);
    assert Power(width) == 2 * half && v == if w < half then 2 * w else 2 * (w - half);
    hide IsSet;
    DoubledBit(if w < half then w else w - half, width, k);
    if w >= half { DropFirst(w, width, k + 1); }
  }

  lemma DoubledBit(v: int, width: int, k: int)
    requires (width == 8 || width == 16) && 0 <= v && 0 <= k < width - 1
    ensures IsSet(2 * v, width, k) == IsSet(v, width, k + 1)
  {
    var q := Power(width - 2 - k);
    assert Power(width - 1 - k) == 2 * q;
    HalfBoth(v, q);
  }

  lemma HalfBoth(v: int, q: int)
    requires 0 <= v && 0 < q
    ensures (2 * v) / (2 * q) == v / q
  {
    var d, r := v / q, v % q;
    assert v == d * q + r;
    assert 2 * v == d * (2 * q) + 2 * r;
    Quotient(2 * v, 2 * q, d, 2 * r);
  }

  lemma Quotient(a: int, b: int, d: int, r: int)
    requires 0 <= r < b && a == d * b + r
    ensures a / b == d
  {
    var e := a / b - d;
    assert a / b * b + a % b == a;
    assert e * b == r - a % b && (-e) * b == a % b - r;
    if e > 0 { Larger(e, b); }
    if e < 0 { Larger(-e, b); }
  }

  lemma Larger(a: int, b: int)
    requires a >= 1 && b >= 1
    ensures a * b >= b
  {
  }

  lemma DropFirst(w: int, width: int, k: int)
    requires (width == 8 || width == 16) && Power(width - 1) <= w && 0 < k < width
    ensures IsSet(w - Power(width - 1), width, k) == IsSet(w, width, k)
  {
    var q, n := Power(width - 1 - k), Power(k - 1);
    assert Power(width - 1) == (2 * n) * q;
    var v := w - Power(width - 1);
    assert v == v / q * q + v % q;
    assert w == (v / q + 2 * n) * q + v % q;
    Quotient(w, q, v / q + 2 * n, v % q);
  }

  lemma ShiftOnce(w: int, width: int, o: nat)
    requires (width == 8 || width == 16) && o < 8
    ensures Shifted(w, width, o + 1) == (2 * Shifted(w, width, o)) % Power(width)
  {
    Double(w, o + 1);
    TwiceModulo(w * Power(o), Power(width));
  }

  lemma TwiceModulo(v: int, m: int)
    requires m == 256 || m == 65536
    ensures (2 * (v % m)) % m == (2 * v) % m
  {
    var d, r := v / m, v % m;
    assert v == d * m + r;
    if 2 * r < m {
      Quotient(2 * v, m, 2 * d, 2 * r);
    } else {
      Quotient(2 * v, m, 2 * d + 1, 2 * r - m);
    }
  }

  lemma {:induction false} ShiftedBit(w: int, width: int, o: nat, k: nat)
    requires (width == 8 || width == 16) && 0 <= w < Power(width) && o <= 8 && o + k < width
    ensures IsSet(Shifted(w, width, o), width, k) == IsSet(w, width, o + k)
  {
    hide IsSet, Shifted;
    if o == 0 {
      assert Shifted(w, width, 0) == w by { Unshifted(w, width); }
    } else {
      ShiftOnce(w, width, o - 1);
      ShiftBit(Shifted(w, width, o - 1), width, k) by { ShiftedRange(w, width, o - 1); }
      ShiftedBit(w, width, o - 1, k + 1);
    }
  }

  lemma Unshifted(w: int, width: int)
    requires 0 <= w < Power(width)
    ensures Shifted(w, width, 0) == w
  {
    assert w * Power(0) == w;
  }

  lemma ShiftedRange(w: int, width: int, o: nat)
    ensures 0 <= Shifted(w, width, o) < Power(width)
  {
  }

  /** Shifting left by `o` and keeping the first `len` bits cuts out the bits from `o` on. */
  lemma {:induction false} CutOut(w: int, width: int, o: nat, len: nat)
    requires (width == 8 || width == 16) && 0 <= w < Power(width) && o < 8 && len <= 8 && o + len <= width
    ensures First(Shifted(w, width, o), width, len) == First(w, width, o + len) - First(w, width, o) * Power(len)
  {
    hide First, Shifted, IsSet;
    ShiftedRange(w, width, o);
    if len == 0 {
      assert First(w, width, o) * Power(0) == First(w, width, o);
      NoBits(Shifted(w, width, o), width);
    } else {
      CutOut(w, width, o, len - 1);
      FirstStep(Shifted(w, width, o), width, len - 1);
      FirstStep(w, width, o + len - 1);
      ShiftedBit(w, width, o, len - 1);
      Double(First(w, width, o), len);
    }
  }

  lemma NoBits(w: int, width: int)
    requires 0 <= w < Power(width) && (width == 8 || width == 16)
    ensures First(w, width, 0) == 0
  {
  }

  lemma TopOfPair(hi: Byte, lo: Byte, k: nat)
    requires k <= 16
    ensures First(hi * 256 + lo, 16, k) == Top(hi, lo, k)
  {
    var w := hi * 256 + lo;
    if k <= 8 {
      var q := Power(8 - k);
      assert Power(16 - k) == q * 256;
      assert hi == hi / q * q + hi % q;
      assert w == (hi / q) * (q * 256) + ((hi % q) * 256 + lo);
      Quotient(w, q * 256, hi / q, (hi % q) * 256 + lo);
    } else {
      var q := Power(16 - k);
      assert 256 == Power(k - 8) * q;
      assert lo == lo / q * q + lo % q;
      assert w == (hi * Power(k - 8) + lo / q) * q + lo % q;
      Quotient(w, q, hi * Power(k - 8) + lo / q, lo % q);
    }
  }

  lemma FirstRange(w: int, width: int, len: nat)
    requires (width == 8 || width == 16) && 0 <= w < Power(width) && len <= 8
    ensures 0 <= First(w, width, len) < Power(len)
  {
  }

  lemma ShiftOne(x: Byte, lo: Byte, o: nat, len: nat)
    requires o < 8 && 0 < len && o + len <= 8
    ensures ShiftByte(x, o, len) == Top(x, lo, o + len) - Top(x, lo, o) * Power(len)
  {
    CutOut(x, 8, o, len);
  }

  lemma ShiftTwo(hi: Byte, lo: Byte, o: nat, len: nat)
    requires o < 8 && len <= 8 < o + len
    ensures ShiftPair(hi, lo, o, len) == Top(hi, lo, o + len) - Top(hi, lo, o) * Power(len)
  {
    var w := hi * 256 + lo;
    CutOut(w, 16, o, len);
    TopOfPair(hi, lo, o);
    TopOfPair(hi, lo, o + len);
    ShiftedRange(w, 16, o);
    FirstRange(Shifted(w, 16, o), 16, len);
    assert ShiftPair(hi, lo, o, len) == First(Shifted(w, 16, o), 16, len) % 256;
    hide Shifted, First, Top, ShiftPair;
  }
}
