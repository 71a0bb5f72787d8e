/** The Huffman decoder of QPACK strings: tables walked by a window of bits, against Appendix B of RFC 7541. */
module Huffman {
  import opened Wire
  import opened BitStrings
  import opened HuffmanTable

  datatype Window = Window(byte: nat, bit: nat, count: nat)

  datatype Error = MissingBits(window: Window) | Unhandled(window: Window, value: nat)

  /** Where the bits of a window start, and where the bits after it start. */
  function Start(w: Window): nat {
    8 * w.byte + w.bit
  }

  function Next(w: Window): nat {
    Start(w) + w.count
  }

  function At(pos: nat, count: nat): (w: Window)
    ensures Start(w) == pos && w.bit < 8 && w.count == count
  {
    Window(pos / 8, pos % 8, count)
  }

  /** The bits of a byte's code. */
  function CodeBits(x: Byte): Bits {
    Path(CodeOf(x))
  }

  function Codes(s: Bytes): Bits {
    if s == [] then [] else CodeBits(s[0]) + Codes(s[1..])
  }

  function Ones(k: nat): (b: Bits)
    ensures |b| == k && forall i | 0 <= i < k :: b[i]
  {
    seq(k, i => true)
  }

  /** The bits `b` stand in `src` from position `pos` on. */
  predicate Here(src: Bytes, pos: nat, b: Bits) {
    pos + |b| <= 8 * |src| && BitsIn(src)[pos..pos + |b|] == b
  }

  lemma LookupRange(n: int)
    ensures 1 <= Lookup(n) <= 8
  {
  }

  lemma TableRange(n: int, i: nat)
    requires 0 <= n
    ensures Entry(n, i).Some? && Entry(n, i).value.Partial? ==> 0 <= Entry(n, i).value.table < TABLES
  {
    hide Raw, Prefix, CodeOf, Lookup, Power;
    Entries(n, i);
  }

  // --- the walk ---

  datatype Walked = Walked(result: Result<Option<Byte>, Error>, window: Window)

  /** The end of the input: it is well ended past its last byte, or within it if only ones are left. */
  function CheckEof(w: Window, src: Bytes): Result<Option<Byte>, Error>
    requires w.bit < 8
  {
    if w.byte + 1 > |src| then Success(None)
    else if w.byte + 1 == |src| && BitsIn(src)[Start(w)..] == Ones(8 - w.bit) then Success(None)
    else Failure(MissingBits(w))
  }

  /** From table `n` with the next bits at `pos`: the next byte, the end, or an error, and the last window. */
  function Walk(n: int, src: Bytes, pos: nat): (k: Walked)
    requires 0 <= n
    ensures k.result.Success? && k.result.value.Some? ==> pos < Next(k.window) <= 8 * |src|
    decreases 8 * |src| - pos
  {
    LookupRange(n);
    var l: nat := Lookup(n);
    var w := At(pos, l);
    if 8 * |src| < pos + l then Walked(CheckEof(w, src), w)
    else
      var i := Num(BitsIn(src)[pos..pos + l]);
      TableRange(n, i);
      match Entry(n, i)
      case None => Walked(Failure(Unhandled(w, i)), w)
      case Some(Sym(x)) => Walked(Success(Some(x)), w)
      case Some(Partial(m)) => Walk(m, src, pos + l)
  }

  /** All the bytes that the walks from `pos` give, up to the end. */
  function Run(src: Bytes, pos: nat): Result<Bytes, Error>
    decreases 8 * |src| - pos
  {
    var k := Walk(0, src, pos);
    match k.result
    case Failure(e) => Failure(e)
    case Success(None) => Success([])
    case Success(Some(x)) =>
      var rest :- Run(src, Next(k.window));
      Success([x] + rest)
  }

  // --- the tables are the codes ---

  lemma PrefixPositive(n: int)
    requires 0 <= n < TABLES
    ensures Prefix(n) >= 1
    decreases n
  {
    hide Raw, Prefix, Lookup, Parent, ParentIndex, CodeOf, Power;
    if n == 0 {
      RootPath();
    } else {
      Parents(n);
      var p, i := Parent(n), ParentIndex(n);
      PrefixPositive(p);
      Entries(p, i);
      Positive(Prefix(p), Power(Lookup(p)));
    }
  }

  lemma HereSplit(src: Bytes, pos: nat, a: Bits, b: Bits)
    ensures Here(src, pos, a + b) <==> Here(src, pos, a) && Here(src, pos + |a|, b)
  {
    if pos + |a + b| <= 8 * |src| {
      var s := BitsIn(src)[pos..pos + |a + b|];
      assert s[..|a|] == BitsIn(src)[pos..pos + |a|];
      assert s[|a|..] == BitsIn(src)[pos + |a|..pos + |a| + |b|];
      assert s == s[..|a|] + s[|a|..];
      assert (a + b)[..|a|] == a && (a + b)[|a|..] == b;
    }
  }

  /** The bits of an index take the walk through that entry. */
  lemma WalkEntry(n: int, src: Bytes, pos: nat, i: nat)
    requires 0 <= n && i < Power(Lookup(n)) && Lookup(n) >= 1 && Here(src, pos, Low(i, Lookup(n)))
    ensures var l: nat := Lookup(n);
            Walk(n, src, pos)
            == match Entry(n, i)
               case None => Walked(Failure(Unhandled(At(pos, l), i)), At(pos, l))
               case Some(Sym(x)) => Walked(Success(Some(x)), At(pos, l))
               case Some(Partial(m)) => if m >= 0 then Walk(m, src, pos + l) else Walk(n, src, pos)
  {
    hide Raw, Lookup, Entry, Num, Low, Power, BitsIn;
    LookupRange(n);
    NumLow(i, Lookup(n));
    TableRange(n, i);
  }

  /** The bits that lead to a table lead the walk there. */
  lemma {:induction false} WalkReaches(n: int, src: Bytes, s: nat)
    requires 0 <= n < TABLES && Here(src, s, Path(Prefix(n)))
    ensures Walk(0, src, s) == Walk(n, src, s + |Path(Prefix(n))|)
    decreases n
  {
    hide Raw, Lookup, Prefix, Parent, ParentIndex, Walk, Power, Path, Low;
    if n == 0 {
      RootPath();
    } else {
      Parents(n);
      var p, i := Parent(n), ParentIndex(n);
      LookupRange(p);
      var l: nat := Lookup(p);
      Entries(p, i);
      PrefixPositive(p);
      PathAppend(Prefix(p), l, i);
      HereSplit(src, s, Path(Prefix(p)), Low(i, l));
      WalkReaches(p, src, s);
      WalkEntry(p, src, s + |Path(Prefix(p))|, i);
    }
  }

  lemma RootPath()
    ensures Prefix(0) == 1 && Path(1) == []
  {
  }

  /** A code in the input is decoded to its byte, and the window ends where the code does. */
  lemma WalkFinds(x: Byte, src: Bytes, s: nat)
    requires Here(src, s, CodeBits(x))
    ensures Walk(0, src, s).result == Success(Some(x)) && Next(Walk(0, src, s).window) == s + |CodeBits(x)|
  {
    hide Raw, Lookup, Prefix, Home, HomeIndex, Walk, Power, Path, Low, CodeOf;
    Homes(x);
    var n, i := Home(x), HomeIndex(x);
    LookupRange(n);
    var l: nat := Lookup(n);
    Entries(n, i);
    PrefixPositive(n);
    PathAppend(Prefix(n), l, i);
    HereSplit(src, s, Path(Prefix(n)), Low(i, l));
    WalkReaches(n, src, s);
    WalkEntry(n, src, s + |Path(Prefix(n))|, i);
  }

  lemma WalkShort(n: int, src: Bytes, pos: nat)
    requires 0 <= n && 8 * |src| < pos + Lookup(n)
    ensures Walk(n, src, pos) == Walked(CheckEof(At(pos, Lookup(n)), src), At(pos, Lookup(n)))
  {
    hide Lookup, Entry, Num, BitsIn;
  }

  /** The index that the next bits make. */
  lemma NextIndex(n: int, src: Bytes, pos: nat) returns (i: nat)
    requires 0 <= n && Lookup(n) >= 1 && pos + Lookup(n) <= 8 * |src|
    ensures i < Power(Lookup(n)) && Here(src, pos, Low(i, Lookup(n)))
    ensures i == Num(BitsIn(src)[pos..pos + Lookup(n)])
  {
    hide Lookup, Low, BitsIn, Power, Num;
    LookupRange(n);
    var v := BitsIn(src)[pos..pos + Lookup(n)];
    i := Num(v);
    LowNum(v);
    NumBound(v);
  }

  lemma {:induction false} WalkFrom(n: int, src: Bytes, s: nat, pos: nat)
    requires 0 <= n < TABLES && pos == s + |Path(Prefix(n))| && Here(src, s, Path(Prefix(n)))
    ensures var k := Walk(n, src, pos);
            k.result.Success? && k.result.value.Some? ==>
              Here(src, s, CodeBits(k.result.value.value)) && Next(k.window) == s + |CodeBits(k.result.value.value)|
    decreases 8 * |src| - pos
  {
    hide Raw, Lookup, Prefix, Power, Path, Low, CodeOf, Walk, Here;
    LookupRange(n);
    var l: nat := Lookup(n);
    if pos + l > 8 * |src| {
      WalkShort(n, src, pos);
    } else {
      var i := NextIndex(n, src, pos);
      Entries(n, i);
      TableRange(n, i);
      PrefixPositive(n);
      PathAppend(Prefix(n), l, i);
      HereSplit(src, s, Path(Prefix(n)), Low(i, l));
      WalkEntry(n, src, pos, i);
      if Entry(n, i).Some? && Entry(n, i).value.Partial? {
        WalkFrom(Entry(n, i).value.table, src, s, pos + l);
      }
    }
  }

  /**
   * The walk through the tables is prefix decoding: it gives a byte exactly when that byte's code comes next,
   * and stops right behind the code.
   */
  lemma WalkIsPrefixDecoding(x: Byte, src: Bytes, s: nat)
    ensures Walk(0, src, s).result == Success(Some(x)) <==> Here(src, s, CodeBits(x))
    ensures Here(src, s, CodeBits(x)) ==> Next(Walk(0, src, s).window) == s + |CodeBits(x)|
  {
    RootPath();
    if s <= 8 * |src| { WalkFrom(0, src, s, s); }
    hide CodeBits, Walk;
    if Here(src, s, CodeBits(x)) { WalkFinds(x, src, s); }
  }

  /** No code is the start of another. */
  lemma PrefixFree(x: Byte, y: Byte, src: Bytes, s: nat)
    requires Here(src, s, CodeBits(x)) && Here(src, s, CodeBits(y))
    ensures x == y
  {
    hide CodeBits, Walk;
    WalkFinds(x, src, s);
    WalkFinds(y, src, s);
  }

  // --- whole strings ---

  /** Fewer than eight ones at the end of the input are padding. */
  lemma PaddingStops(src: Bytes, pos: nat, k: nat)
    requires k < 8 && pos + k == 8 * |src| && Here(src, pos, Ones(k))
    ensures Walk(0, src, pos).result == Success(None)
  {
    hide Lookup, Raw, Entry, Low, Power, Num, BitsIn, Ones, Walk;
    OnesLookup();
    if k < 5 {
      PaddingShort(0, src, pos, k);
    } else {
      OnesPrefix(src, pos, 5, k - 5);
      WalkEntry(0, src, pos, 31);
      if k < 7 {
        PaddingShort(22, src, pos + 5, k - 5);
      } else {
        OnesPrefix(src, pos + 5, 2, 0);
        WalkEntry(22, src, pos + 5, 3);
        PaddingShort(26, src, pos + 7, 0);
      }
    }
  }

  lemma OnesPrefix(src: Bytes, pos: nat, a: nat, b: nat)
    requires Here(src, pos, Ones(a + b))
    ensures Here(src, pos, Ones(a)) && Here(src, pos + a, Ones(b))
  {
    assert Ones(a + b) == Ones(a) + Ones(b);
    HereSplit(src, pos, Ones(a), Ones(b));
  }

  /** The way five and then two ones take from the root. */
  lemma OnesLookup()
    ensures Lookup(0) == 5 && Entry(0, 31) == Some(Partial(22)) && Low(31, 5) == Ones(5) && Power(5) == 32
    ensures Lookup(22) == 2 && Entry(22, 3) == Some(Partial(26)) && Low(3, 2) == Ones(2) && Power(2) == 4
    ensures Lookup(26) == 1
  {
    LowOnes(5);
    LowOnes(2);
  }

  lemma {:induction false} LowOnes(k: nat)
    requires k <= 8
    ensures Low(Power(k) - 1, k) == Ones(k)
  {
    if k > 0 {
      assert Power(k) == 2 * Power(k - 1);
      LowOnes(k - 1);
      assert Ones(k) == Ones(k - 1) + [true];
    }
  }

  lemma PaddingShort(n: int, src: Bytes, pos: nat, k: nat)
    requires 0 <= n && k < 8 && k < Lookup(n) && pos + k == 8 * |src| && Here(src, pos, Ones(k))
    ensures Walk(n, src, pos).result == Success(None)
  {
    hide Lookup, Entry, Num, BitsIn, Ones;
    if k > 0 {
      assert pos / 8 + 1 == |src| && 8 - pos % 8 == k;
      assert BitsIn(src)[pos..] == BitsIn(src)[pos..pos + k];
    }
  }

  /**
   * Round trip: codes one after the other, padded with fewer than eight ones, decode to exactly their bytes
   * and then the decoder stops.
   */
  lemma {:induction false} DecodesCodes(src: Bytes, pos: nat, s: Bytes, k: nat)
    requires k < 8 && pos + |Codes(s)| + k == 8 * |src| && Here(src, pos, Codes(s) + Ones(k))
    ensures Run(src, pos) == Success(s)
    decreases |s|
  {
    hide Walk, CodeBits, Ones;
    HereSplit(src, pos, Codes(s), Ones(k));
    if s == [] {
      assert Codes(s) + Ones(k) == Ones(k);
      PaddingStops(src, pos, k);
    } else {
      assert s == [s[0]] + s[1..];
      HereSplit(src, pos, CodeBits(s[0]), Codes(s[1..]));
      HereSplit(src, pos + |CodeBits(s[0])|, Codes(s[1..]), Ones(k));
      WalkFinds(s[0], src, pos);
      DecodesCodes(src, pos + |CodeBits(s[0])|, s[1..], k);
    }
  }

  // --- where the walk ends ---

  /** The bits from `s` on lead to table `m`, which then stands at `pos`. */
  predicate Reached(m: int, src: Bytes, s: nat, pos: nat) {
    0 <= m < TABLES && Here(src, s, Path(Prefix(m))) && pos == s + |Path(Prefix(m))|
  }

  /** The input may end at `pos`: nothing is left, or part of its last byte and only ones. */
  predicate MayEnd(src: Bytes, pos: nat) {
    pos >= 8 * |src| || (pos / 8 + 1 == |src| && forall i | pos <= i < 8 * |src| :: BitsIn(src)[i])
  }

  lemma EofIs(src: Bytes, pos: nat, count: nat)
    ensures CheckEof(At(pos, count), src) == if MayEnd(src, pos) then Success(None) else Failure(MissingBits(At(pos, count)))
  {
    hide BitOf;
    if pos / 8 + 1 == |src| {
      var left := BitsIn(src)[pos..];
      var ones := Ones(8 - pos % 8);
      assert |left| == |ones|;
      if MayEnd(src, pos) { assert left == ones; }
      if left == ones { forall i | pos <= i < 8 * |src| ensures BitsIn(src)[i] { assert left[i - pos] == ones[i - pos]; } }
    }
  }

  /** A walk that gives no byte came to a table that the input is too short for, or took the code for the end of strings. */
  lemma {:induction false} WalkStops(n: int, src: Bytes, s: nat, pos: nat) returns (m: int, end: nat)
    requires Reached(n, src, s, pos)
    ensures var r := Walk(n, src, pos).result;
            if r.Success? && r.value.Some? then true
            else if r.Failure? && r.error.Unhandled? then Here(src, s, Ones(30))
            else Reached(m, src, s, end) && 8 * |src| < end + Lookup(m)
                 && r == if MayEnd(src, end) then Success(None) else Failure(MissingBits(At(end, Lookup(m))))
    decreases 8 * |src| - pos
  {
    hide Raw, Lookup, Prefix, Power, Path, Low, CodeOf, Walk, Here, At, MayEnd, Ones;
    LookupRange(n);
    m, end := n, pos;
    var l: nat := Lookup(n);
    if pos + l > 8 * |src| {
      WalkShort(n, src, pos);
      EofIs(src, pos, l);
    } else {
      var i := NextIndex(n, src, pos);
      Entries(n, i);
      TableRange(n, i);
      WalkEntry(n, src, pos, i);
      PrefixPositive(n);
      PathAppend(Prefix(n), l, i);
      HereSplit(src, s, Path(Prefix(n)), Low(i, l));
      if Entry(n, i).Some? && Entry(n, i).value.Partial? {
        m, end := WalkStops(Entry(n, i).value.table, src, s, pos + l);
      } else if Entry(n, i).None? {
        EndOfStrings();
      }
    }
  }

  lemma EndOfStrings()
    ensures Path(Prefix(TABLES - 1)) == Ones(30)
  {
    LastTable();
    hide Path, Prefix, Marked;
    OnesPath(30);
  }

  lemma LastTable()
    ensures Prefix(TABLES - 1) == Marked(30)
  {
    assert Prefix(TABLES - 1) == 0x7fff_ffff;
    hide Prefix, Path;
    ThirtyMarked();
  }

  lemma ThirtyMarked()
    ensures Marked(30) == 0x7fff_ffff
  {
    assert Marked(10) == 0x7ff;
    assert Marked(20) == 0x1f_ffff;
  }

  /** So many ones, behind the 1 that marks where they start. */
  function Marked(k: nat): (m: nat)
    ensures m >= 1 && (k > 0 ==> m >= 3)
  {
    if k == 0 then 1 else 2 * Marked(k - 1) + 1
  }

  lemma {:induction false} OnesPath(k: nat)
    ensures Path(Marked(k)) == Ones(k)
  {
    if k > 0 {
      OnesPath(k - 1);
      assert Marked(k) / 2 == Marked(k - 1) && Marked(k) % 2 == 1;
      assert Ones(k) == Ones(k - 1) + [true];
    }
  }

  /** The string ends at `s`: what is left leads to a table and stops there where the input may end. */
  ghost predicate EndsWell(src: Bytes, s: nat) {
    exists m, pos: nat :: Reached(m, src, s, pos) && 8 * |src| < pos + Lookup(m) && MayEnd(src, pos)
  }

  lemma WalkEndsIff(src: Bytes, s: nat)
    requires s <= 8 * |src|
    ensures Walk(0, src, s).result == Success(None) <==> EndsWell(src, s)
  {
    RootPath();
    hide Raw, Lookup, Prefix, Power, Path, Walk, At, MayEnd;
    assert Reached(0, src, s, s);
    var m, pos := WalkStops(0, src, s, s);
    forall m', pos': nat | Reached(m', src, s, pos') && 8 * |src| < pos' + Lookup(m') && MayEnd(src, pos')
      ensures Walk(0, src, s).result == Success(None)
    {
      WalkReaches(m', src, s);
      WalkShort(m', src, pos');
      LookupRange(m');
      EofIs(src, pos', Lookup(m'));
    }
  }

  /**
   * What decodes to what, for every input: the codes of the string come first, and behind them the input ends well.
   */
  lemma {:induction false} RunIs(src: Bytes, pos: nat, s: Bytes)
    requires pos <= 8 * |src|
    ensures Run(src, pos) == Success(s) <==> Here(src, pos, Codes(s)) && EndsWell(src, pos + |Codes(s)|)
    decreases |s|
  {
    hide Walk, CodeBits, EndsWell;
    var k := Walk(0, src, pos);
    if s == [] {
      WalkEndsIff(src, pos);
    } else {
      var x := s[0];
      WalkIsPrefixDecoding(x, src, pos);
      HereSplit(src, pos, CodeBits(x), Codes(s[1..]));
      if Here(src, pos, CodeBits(x)) { RunIs(src, pos + |CodeBits(x)|, s[1..]); }
      if k.result.Success? && k.result.value.Some? { RunHead(src, pos, s); }
    }
  }

  lemma RunHead(src: Bytes, pos: nat, s: Bytes)
    requires s != [] && Walk(0, src, pos).result.Success? && Walk(0, src, pos).result.value.Some?
    ensures var k := Walk(0, src, pos);
            Run(src, pos) == Success(s) <==> k.result.value.value == s[0] && Run(src, Next(k.window)) == Success(s[1..])
  {
    hide Walk;
    assert s == [s[0]] + s[1..];
  }

  /** How many bits fill up the last byte. */
  function Padding(n: nat): (k: nat)
    ensures k < 8 && (n + k) % 8 == 0
  {
    if n % 8 == 0 then 0 else 8 - n % 8
  }

  /** The encoder of section 5.2 of RFC 7541. */
  function Encode(s: Bytes): Bytes {
    Pack(Codes(s) + Ones(Padding(|Codes(s)|)))
  }

  /** Whole bytes out of bits. */
  function Pack(b: Bits): (r: Bytes)
    requires |b| % 8 == 0
    ensures 8 * |r| == |b|
  {
    if b == [] then [] else
      NumBound(b[..8]);
      [Num(b[..8])] + Pack(b[8..])
  }

  lemma {:induction false} PackBit(b: Bits, k: nat)
    requires |b| == 8 && k < 8 && Num(b) < 256
    ensures BitOf(Num(b), k) == b[k]
  {
    var (x, c) := (Num(b), b);
    assert b[..7][..6] == b[..6] && b[..6][..5] == b[..5] && b[..5][..4] == b[..4];
    assert b[..4][..3] == b[..3] && b[..3][..2] == b[..2] && b[..2][..1] == b[..1] && b[..1][..0] == [];
    NumAt(b, k);
  }

  /** The number of a string's first bits, out of the number of the whole. */
  lemma {:induction false} NumAt(b: Bits, k: nat)
    requires |b| == 8 && k < 8
    ensures Num(b[..k + 1]) == Num(b) / Power(7 - k)
    decreases 7 - k
  {
    if k == 7 {
      assert b[..8] == b;
    } else {
      NumAt(b, k + 1);
      var c := b[..k + 2];
      assert c[..|c| - 1] == b[..k + 1];
      HalfPower(Num(b), k);
    }
  }

  lemma HalfPower(x: nat, k: nat)
    requires k < 7
    ensures (x / Power(6 - k)) / 2 == x / Power(7 - k)
  {
  }

  lemma BitsOfFirst(x: Byte, rest: Bytes, k: nat)
    requires k < 8 + 8 * |rest|
    ensures BitsIn([x] + rest)[k] == if k < 8 then BitOf(x, k) else BitsIn(rest)[k - 8]
  {
    hide BitOf;
    assert k >= 8 ==> ([x] + rest)[k / 8] == rest[(k - 8) / 8];
  }

  lemma {:induction false} Unpack(b: Bits)
    requires |b| % 8 == 0
    ensures BitsIn(Pack(b)) == b
    decreases |b|
  {
    hide BitOf, BitsIn, Num;
    if b != [] {
      NumBound(b[..8]);
      Unpack(b[8..]);
      var x, rest := Num(b[..8]), Pack(b[8..]);
      assert Pack(b) == [x] + rest;
      forall k | 0 <= k < |b| ensures BitsIn([x] + rest)[k] == b[k] {
        BitsOfFirst(x, rest, k);
        if k < 8 { PackBit(b[..8], k); }
      }
    }
  }

  /** For every byte string: what the encoder of RFC 7541 makes of it, the decoder turns back. */
  lemma RoundTrip(s: Bytes)
    ensures Run(Encode(s), 0) == Success(s)
  {
    hide Run, Codes, Pack, Ones, Padding;
    var c := Codes(s);
    var k := Padding(|c|);
    Unpack(c + Ones(k));
    DecodesCodes(Encode(s), 0, s, k);
  }

  // --- the decoder as it runs ---

  lemma {:induction false} AllOnes(b: Bits)
    requires |b| <= 8
    ensures Num(b) == Power(|b|) - 1 <==> b == Ones(|b|)
  {
    LowNum(b);
    LowOnes(|b|);
    NumLow(Power(|b|) - 1, |b|);
  }

  lemma NumSmall(b: Bits)
    requires |b| <= 8
    ensures Num(b) < 256
  {
    NumBound(b);
  }

  /** Up to eight bits from a position; None past the end. */
  method ReadBits(src: Bytes, byteOffset: nat, bitOffset: nat, len: nat) returns (r: Option<Byte>)
    ensures r == None <==> len == 0 || len > 8 || 8 * |src| < 8 * byteOffset + bitOffset + len
    ensures r.Some? ==> var pos := 8 * byteOffset + bitOffset; r.value == Num(BitsIn(src)[pos..pos + len])
  {
    if len == 0 || len > 8 || |src| * 8 < byteOffset * 8 + bitOffset + len { return None; }
    hide BitsIn, Num, ShiftByte, ShiftPair, Top, Power;
    var b, o := byteOffset + bitOffset / 8, bitOffset - (bitOffset / 8) * 8;
    SliceNum(src, b, o, len);
    NumSmall(BitsIn(src)[8 * b + o..8 * b + o + len]);
    if o + len <= 8 {
      ShiftOne(src[b], Second(src, b), o, len);
      return Some(ShiftByte(src[b], o, len));
    } else {
      ShiftTwo(src[b], src[b + 1], o, len);
      return Some(ShiftPair(src[b], src[b + 1], o, len));
    }
  }

  class BitWindow {
    var byte: nat
    var bit: nat
    var count: nat

    constructor ()
      ensures View() == Window(0, 0, 0)
    {
      byte, bit, count := 0, 0, 0;
    }

    function View(): Window
      reads this
    {
      Window(byte, bit, count)
    }

    /** Moves past the window and opens one of `step` bits there. */
    method Forwards(step: nat)
      modifies this
      ensures View() == At(Next(old(View())), step)
    {
      bit := bit + count;
      byte := byte + bit / 8;
      bit := bit % 8;
      count := step;
    }
  }

  method CheckEofAt(w: BitWindow, src: Bytes) returns (r: Result<Option<Byte>, Error>)
    requires w.bit < 8
    ensures r == CheckEof(w.View(), src)
  {
    hide BitsIn, Num, Power, Ones;
    if w.byte + 1 > |src| { return Success(None); }
    if w.byte + 1 == |src| {
      var count := 8 - w.bit;
      var rest := ReadBits(src, w.byte, w.bit, count);
      ghost var left := BitsIn(src)[8 * w.byte + w.bit..];
      assert left == BitsIn(src)[8 * w.byte + w.bit..8 * w.byte + w.bit + count];
      AllOnes(left);
      if rest.Some? && rest.value == Power(count) - 1 { return Success(None); }
    }
    return Failure(MissingBits(w.View()));
  }

  /** One byte: the window goes down the tables, a lookup at a time. */
  method DecodeNext(n: nat, w: BitWindow, src: Bytes) returns (r: Result<Option<Byte>, Error>)
    modifies w
    ensures var k := Walk(n, src, Next(old(w.View()))); r == k.result && w.View() == k.window
    decreases 8 * |src| - Next(w.View())
  {
    hide Lookup, Raw, Num, BitsIn, CheckEof, Entry, Power, At, Walk, Low, Here;
    LookupRange(n);
    ghost var pos := Next(w.View());
    w.Forwards(Lookup(n));
    assert Start(w.View()) == pos && w.count == Lookup(n);
    var bits := ReadBits(src, w.byte, w.bit, w.count);
    if bits.None? {
      WalkShort(n, src, pos);
      r := CheckEofAt(w, src);
      return;
    }
    ghost var i := NextIndex(n, src, pos);
    WalkEntry(n, src, pos, i);
    TableRange(n, i);
    match Entry(n, bits.value)
    case None => return Failure(Unhandled(w.View(), bits.value));
    case Some(Sym(x)) => return Success(Some(x));
    case Some(Partial(m)) => r := DecodeNext(m, w, src);
  }

  /** What is decoded so far stands before what is still to come. */
  function Behind(done: Bytes, r: Result<Bytes, Error>): Result<Bytes, Error> {
    match r
    case Failure(e) => Failure(e)
    case Success(v) => Success(done + v)
  }

  lemma NoneBehind(r: Result<Bytes, Error>)
    ensures Behind([], r) == r
  {
    if r.Success? { assert [] + r.value == r.value; }
  }

  /** The whole string, as the iterator gives it; the position in bits grows with every byte. */
  method Decode(src: Bytes) returns (r: Result<Bytes, Error>)
    ensures r == Run(src, 0)
  {
    hide Walk;
    var w := new BitWindow();
    var done: Bytes := [];
    NoneBehind(Run(src, 0));
    while true
      invariant Run(src, 0) == Behind(done, Run(src, Next(w.View())))
      decreases 8 * |src| - Next(w.View())
    {
      var k := DecodeNext(0, w, src);
      match k
      case Failure(e) => return Failure(e);
      case Success(None) =>
        assert done + [] == done;
        return Success(done);
      case Success(Some(x)) =>
        ghost var rest := Run(src, Next(w.View()));
        if rest.Success? { assert done + ([x] + rest.value) == (done + [x]) + rest.value; }
        done := done + [x];
    }
  }
}
