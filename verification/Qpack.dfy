/** Field sections of headers: section 4.5 of RFC 9204 with the static table and literals only. */
module Qpack {
  import opened Wire
  import opened BitStrings
  import opened Utf8
  import opened Coding
  import opened PrefixInt
  import Huffman
  import StaticTable

  type Field = (Bytes, Bytes)

  const COLON: Byte := 58

  predicate Fits(s: Bytes) {
    |s| < WORD
  }

  /** A name and a value as the source's strings: valid UTF-8 whose length is a 64-bit number. */
  predicate Sound(f: Field) {
    Utf8.Valid(f.0) && Utf8.Valid(f.1) && Fits(f.0) && Fits(f.1)
  }

  predicate IsPseudo(name: Bytes) {
    name != [] && name[0] == COLON
  }

  // --- encoding ---

  function EncodeIndex(index: nat): Bytes
    requires index < WORD
  {
    PrefixInt.Encode(6, 3, index)
  }

  function EncodeLiteralValue(index: nat, value: Bytes): Bytes
    requires index < WORD && Fits(value)
  {
    PrefixInt.Encode(4, 5, index) + (PrefixInt.Encode(7, 0, |value|) + value)
  }

  function EncodeLiteral(name: Bytes, value: Bytes): Bytes
    requires Fits(name) && Fits(value)
  {
    (PrefixInt.Encode(3, 4, |name|) + name) + (PrefixInt.Encode(7, 0, |value|) + value)
  }

  lemma IndexFits(name: Bytes, value: Bytes)
    ensures StaticTable.Find(name, value).Some? ==> StaticTable.Find(name, value).value < StaticTable.SIZE
    ensures StaticTable.FindName(name).Some? ==> StaticTable.FindName(name).value < StaticTable.SIZE
  {
    hide StaticTable.Find, StaticTable.FindName;
    StaticTable.FindAgrees(name, value);
    StaticTable.FindNameAgrees(name);
  }

  function EncodeField(f: Field): Bytes
    requires Fits(f.0) && Fits(f.1)
  {
    IndexFits(f.0, f.1);
    var both, name := StaticTable.Find(f.0, f.1), StaticTable.FindName(f.0);
    if both.Some? then EncodeIndex(both.value)
    else if name.Some? then EncodeLiteralValue(name.value, f.1)
    else EncodeLiteral(f.0, f.1)
  }

  predicate AllSound(fields: map<Bytes, Bytes>, order: seq<Bytes>) {
    forall k | k in order :: k in fields && Sound((k, fields[k]))
  }

  function EncodeFields(fields: map<Bytes, Bytes>, order: seq<Bytes>): Bytes
    requires AllSound(fields, order)
  {
    if order == [] then [] else EncodeField((order[0], fields[order[0]])) + EncodeFields(fields, order[1..])
  }

  /** A stable sort that puts the pseudo-headers in front. */
  function PseudoFirst(order: seq<Bytes>): seq<Bytes> {
    Keep(order, true) + Keep(order, false)
  }

  function Keep(order: seq<Bytes>, pseudo: bool): seq<Bytes> {
    if order == [] then []
    else (if IsPseudo(order[0]) == pseudo then [order[0]] else []) + Keep(order[1..], pseudo)
  }

  lemma {:induction false} KeepMembers(order: seq<Bytes>, pseudo: bool)
    ensures forall k :: k in Keep(order, pseudo) <==> k in order && IsPseudo(k) == pseudo
  {
    if order != [] {
      KeepMembers(order[1..], pseudo);
      assert order == [order[0]] + order[1..];
    }
  }

  lemma {:induction false} KeepOnce(order: seq<Bytes>, pseudo: bool)
    requires forall i, j | 0 <= i < j < |order| :: order[i] != order[j]
    ensures forall i, j | 0 <= i < j < |Keep(order, pseudo)| :: Keep(order, pseudo)[i] != Keep(order, pseudo)[j]
  {
    hide IsPseudo;
    if order != [] {
      KeepOnce(order[1..], pseudo);
      KeepMembers(order[1..], pseudo);
      assert forall j | 0 <= j < |order[1..]| :: order[1..][j] == order[j + 1] != order[0];
    }
  }

  /** Sorting keeps each name once, and no other name stands before a pseudo-header. */
  lemma PseudoFirstSorts(order: seq<Bytes>, keys: set<Bytes>)
    requires Enumerates(order, keys)
    ensures Enumerates(PseudoFirst(order), keys)
    ensures forall i, j | 0 <= i < j < |PseudoFirst(order)| && IsPseudo(PseudoFirst(order)[j]) ::
              IsPseudo(PseudoFirst(order)[i])
  {
    hide IsPseudo;
    var a, b := Keep(order, true), Keep(order, false);
    KeepMembers(order, true);
    KeepMembers(order, false);
    KeepOnce(order, true);
    KeepOnce(order, false);
    hide Keep;
    var s := PseudoFirst(order);
    assert forall i | 0 <= i < |a| :: a[i] in a;
    assert forall i | 0 <= i < |b| :: b[i] in b;
    assert forall i | 0 <= i < |s| :: s[i] == if i < |a| then a[i] else b[i - |a|];
  }

  /** The whole field section, for the order in which the map happens to be iterated. */
  function Encode(fields: map<Bytes, Bytes>, order: seq<Bytes>): Bytes
    requires Enumerates(order, fields.Keys)
    requires forall k | k in fields :: Sound((k, fields[k]))
  {
    PseudoFirstSorts(order, fields.Keys);
    assert AllSound(fields, PseudoFirst(order));
    (PrefixInt.Encode(8, 0, 0) + PrefixInt.Encode(7, 0, 0)) + EncodeFields(fields, PseudoFirst(order))
  }

  // --- decoding ---

  /** A string whose length has one bit less than `size` and whose flag bit says whether it is Huffman-coded. */
  function DecodeString(b: Bytes, size: nat): Result<(Bytes, Bytes), QpackError>
    requires 2 <= size <= 8
  {
    if b == [] then Failure(UnexpectedEnd)
    else
      var p :- PrefixInt.Decode(b, size - 1);
      if |p.rest| < p.value then Failure(UnexpectedEnd)
      else
        var payload, rest := p.rest[..p.value], p.rest[p.value..];
        if p.flags % 2 == 0 then Success((payload, rest))
        else match Huffman.Run(payload, 0)
          case Failure(e) => Failure(HuffmanError(e))
          case Success(decoded) => Success((decoded, rest))
  }

  function DecodeText(b: Bytes, size: nat): Result<(Bytes, Bytes), QpackError>
    requires 2 <= size <= 8
  {
    var r :- DecodeString(b, size);
    if Utf8.Valid(r.0) then Success(r) else Failure(Utf8Error)
  }

  function GetEntry(index: nat): Result<Field, QpackError> {
    match StaticTable.Get(index)
    case None => Failure(UnknownEntry)
    case Some(f) => Success(f)
  }

  function DecodeIndex(b: Bytes): Result<(Field, Bytes), QpackError> {
    var p :- PrefixInt.Decode(b, 6);
    var f :- GetEntry(p.value);
    Success((f, p.rest))
  }

  function DecodeLiteralValue(b: Bytes): Result<(Field, Bytes), QpackError> {
    var p :- PrefixInt.Decode(b, 4);
    var f :- GetEntry(p.value);
    var v :- DecodeString(p.rest, 8);
    if Utf8.Valid(v.0) then Success(((f.0, v.0), v.1)) else Failure(Utf8Error)
  }

  function DecodeLiteral(b: Bytes): Result<(Field, Bytes), QpackError> {
    var n :- DecodeText(b, 4);
    var v :- DecodeText(n.1, 8);
    Success(((n.0, v.0), v.1))
  }

  /** One field line; its first bits say which of the forms it has. */
  function DecodeField(b: Bytes): Result<(Field, Bytes), QpackError>
    requires b != []
  {
    var peek := b[0];
    if peek / 64 == 3 then DecodeIndex(b)
    else if peek / 64 == 2 then Failure(DynamicEntry)
    else if peek / 64 == 1 then (if (peek / 16) % 2 == 1 then DecodeLiteralValue(b) else Failure(DynamicEntry))
    else if peek / 32 == 1 then DecodeLiteral(b)
    else Failure(DynamicEntry)
  }

  /** Field lines to the end of the input; each takes at least a byte. */
  function DecodeFields(b: Bytes, fields: map<Bytes, Bytes>): Result<map<Bytes, Bytes>, QpackError>
    decreases |b|
  {
    if b == [] then Success(fields)
    else
      var r :- DecodeField(b);
      FieldTakes(b);
      DecodeFields(r.1, fields[r.0.0 := r.0.1])
  }

  function Decode(b: Bytes): Result<map<Bytes, Bytes>, QpackError> {
    var count :- PrefixInt.Decode(b, 8);
    var base :- PrefixInt.Decode(count.rest, 7);
    DecodeFields(base.rest, map[])
  }

  lemma {:induction false} GroupsTake(b: Bytes, value: U64, power: nat)
    ensures var r := DecodeGroups(b, value, power); r.Success? ==> |r.value.1| < |b|
    decreases |b|
  {
    hide AddGroup;
    if b != [] { GroupsTake(b[1..], AddGroup(value, b[0], power), power + 7); }
  }

  lemma PrefixTakes(b: Bytes, size: nat)
    requires 1 <= size <= 8
    ensures var r := PrefixInt.Decode(b, size); r.Success? ==> |r.value.rest| < |b|
  {
    hide DecodeGroups, Power;
    if b != [] { GroupsTake(b[1..], Mask(size), 0); }
  }

  lemma StringTakes(b: Bytes, size: nat)
    requires 2 <= size <= 8
    ensures var r := DecodeString(b, size); r.Success? ==> |r.value.1| < |b|
  {
    hide PrefixInt.Decode, Huffman.Run;
    PrefixTakes(b, size - 1);
  }

  lemma FieldTakes(b: Bytes)
    requires b != []
    ensures DecodeField(b).Success? ==> |DecodeField(b).value.1| < |b|
  {
    hide PrefixInt.Decode, DecodeString, StaticTable.Get;
    PrefixTakes(b, 6);
    PrefixTakes(b, 4);
    if PrefixInt.Decode(b, 4).Success? { StringTakes(PrefixInt.Decode(b, 4).value.rest, 8); }
    StringTakes(b, 4);
    if DecodeString(b, 4).Success? { StringTakes(DecodeString(b, 4).value.1, 8); }
  }

  // --- round trip ---

  /** The flags stand in the first byte, above the bits of the prefix. */
  lemma FirstByte(size: nat, flags: Byte, value: U64)
    requires 1 <= size <= 8 && flags < Power(8 - size)
    ensures var e := PrefixInt.Encode(size, flags, value);
            e != [] && flags * Power(size) <= e[0] < (flags + 1) * Power(size)
  {
    FlagsFit(size, flags);
    assert (flags + 1) * Power(size) == flags * Power(size) + Power(size);
    hide Power, Groups;
  }

  lemma PlainString(s: Bytes, rest: Bytes, size: nat, flags: Byte)
    requires 2 <= size <= 8 && Fits(s) && flags < Power(9 - size) && flags % 2 == 0
    ensures DecodeString(PrefixInt.Encode(size - 1, flags, |s|) + s + rest, size) == Success((s, rest))
  {
    hide PrefixInt.Encode, PrefixInt.Decode, Huffman.Run;
    var e := PrefixInt.Encode(size - 1, flags, |s|);
    FirstByteExists(size - 1, flags, |s|);
    PrefixInt.RoundTrip(size - 1, flags, |s|, s + rest);
    assert e + s + rest == e + (s + rest);
    assert (s + rest)[..|s|] == s && (s + rest)[|s|..] == rest;
  }

  lemma FirstByteExists(size: nat, flags: Byte, value: U64)
    requires 1 <= size <= 8 && flags < Power(8 - size)
    ensures PrefixInt.Encode(size, flags, value) != []
  {
    FirstByte(size, flags, value);
  }

  /** A string that a peer Huffman-coded decodes to what it was. */
  lemma HuffmanString(s: Bytes, rest: Bytes, size: nat, flags: Byte)
    requires 2 <= size <= 8 && flags < Power(9 - size) && flags % 2 == 1 && Fits(Huffman.Encode(s))
    ensures var coded := Huffman.Encode(s);
            DecodeString(PrefixInt.Encode(size - 1, flags, |coded|) + coded + rest, size) == Success((s, rest))
  {
    hide PrefixInt.Encode, PrefixInt.Decode, Huffman.Run, Huffman.Encode;
    var coded := Huffman.Encode(s);
    var e := PrefixInt.Encode(size - 1, flags, |coded|);
    FirstByteExists(size - 1, flags, |coded|);
    PrefixInt.RoundTrip(size - 1, flags, |coded|, coded + rest);
    Huffman.RoundTrip(s);
    assert e + coded + rest == e + (coded + rest);
    assert (coded + rest)[..|coded|] == coded && (coded + rest)[|coded|..] == rest;
  }

  lemma IndexDecodes(f: Field, index: nat, rest: Bytes)
    requires StaticTable.Get(index) == Some(f) && index < StaticTable.SIZE
    ensures EncodeIndex(index) != []
    ensures DecodeField(EncodeIndex(index) + rest) == Success((f, rest))
  {
    hide PrefixInt.Encode, PrefixInt.Decode, StaticTable.Get;
    FirstByte(6, 3, index);
    PrefixInt.RoundTrip(6, 3, index, rest);
  }

  lemma LiteralValueDecodes(f: Field, index: nat, rest: Bytes)
    requires Sound(f) && index < StaticTable.SIZE
    requires StaticTable.Get(index).Some? && StaticTable.Get(index).value.0 == f.0
    ensures EncodeLiteralValue(index, f.1) != []
    ensures DecodeField(EncodeLiteralValue(index, f.1) + rest) == Success((f, rest))
  {
    hide PrefixInt.Encode, PrefixInt.Decode, StaticTable.Get, DecodeString, Utf8.Valid;
    FirstByte(4, 5, index);
    var head, value := PrefixInt.Encode(4, 5, index), PrefixInt.Encode(7, 0, |f.1|) + f.1;
    assert head + value + rest == head + (value + rest);
    PrefixInt.RoundTrip(4, 5, index, value + rest);
    PlainString(f.1, rest, 8, 0);
  }

  lemma LiteralDecodes(f: Field, rest: Bytes)
    requires Sound(f)
    ensures EncodeLiteral(f.0, f.1) != []
    ensures DecodeField(EncodeLiteral(f.0, f.1) + rest) == Success((f, rest))
  {
    hide PrefixInt.Encode, PrefixInt.Decode, StaticTable.Get, DecodeString, Utf8.Valid;
    FirstByte(3, 4, |f.0|);
    var name, value := PrefixInt.Encode(3, 4, |f.0|) + f.0, PrefixInt.Encode(7, 0, |f.1|) + f.1;
    assert name + value + rest == name + (value + rest);
    PlainString(f.0, value + rest, 4, 4);
    PlainString(f.1, rest, 8, 0);
  }

  /** Every field decodes to itself from its own bytes, in whichever of the three forms it was written. */
  lemma FieldDecodes(f: Field, rest: Bytes)
    requires Sound(f)
    ensures EncodeField(f) != []
    ensures DecodeField(EncodeField(f) + rest) == Success((f, rest))
  {
    hide PrefixInt.Encode, DecodeField, StaticTable.Get, StaticTable.Find, StaticTable.FindName, Utf8.Valid,
      EncodeIndex, EncodeLiteralValue, EncodeLiteral;
    StaticTable.FindAgrees(f.0, f.1);
    StaticTable.FindNameAgrees(f.0);
    IndexFits(f.0, f.1);
    var both, name := StaticTable.Find(f.0, f.1), StaticTable.FindName(f.0);
    if both.Some? { IndexDecodes(f, both.value, rest); }
    else if name.Some? { LiteralValueDecodes(f, name.value, rest); }
    else { LiteralDecodes(f, rest); }
  }

  /** The fields of `order` on top of `before`. */
  function Adding(fields: map<Bytes, Bytes>, order: seq<Bytes>, before: map<Bytes, Bytes>): map<Bytes, Bytes>
    requires forall k | k in order :: k in fields
  {
    if order == [] then before else Adding(fields, order[1..], before[order[0] := fields[order[0]]])
  }

  lemma {:induction false} AddingAll(fields: map<Bytes, Bytes>, order: seq<Bytes>, before: map<Bytes, Bytes>)
    requires forall k | k in order :: k in fields
    ensures var r := Adding(fields, order, before);
            && (forall k :: k in r <==> k in before || k in order)
            && (forall k | k in r :: r[k] == if k in order then fields[k] else before[k])
    decreases |order|
  {
    if order != [] {
      assert order == [order[0]] + order[1..];
      AddingAll(fields, order[1..], before[order[0] := fields[order[0]]]);
    }
  }

  lemma {:induction false} FieldsDecode(fields: map<Bytes, Bytes>, order: seq<Bytes>, before: map<Bytes, Bytes>)
    requires AllSound(fields, order)
    ensures DecodeFields(EncodeFields(fields, order), before) == Success(Adding(fields, order, before))
    decreases |order|
  {
    hide DecodeField, EncodeField, Utf8.Valid;
    if order != [] {
      var f := (order[0], fields[order[0]]);
      assert order[0] in order && Sound(f);
      assert forall k | k in order[1..] :: k in order;
      FieldDecodes(f, EncodeFields(fields, order[1..]));
      FieldsDecode(fields, order[1..], before[f.0 := f.1]);
    }
  }

  /** For every header map and every order the map may be iterated in, decoding gives back the map. */
  lemma RoundTrip(fields: map<Bytes, Bytes>, order: seq<Bytes>)
    requires Enumerates(order, fields.Keys)
    requires forall k | k in fields :: Sound((k, fields[k]))
    ensures Decode(Encode(fields, order)) == Success(fields)
  {
    hide PrefixInt.Encode, PrefixInt.Decode, DecodeFields, EncodeFields, Adding, PseudoFirst, Utf8.Valid;
    PseudoFirstSorts(order, fields.Keys);
    var sorted := PseudoFirst(order);
    var body := EncodeFields(fields, sorted);
    var one, two := PrefixInt.Encode(8, 0, 0), PrefixInt.Encode(7, 0, 0);
    assert (one + two) + body == one + (two + body);
    PrefixInt.RoundTrip(8, 0, 0, two + body);
    PrefixInt.RoundTrip(7, 0, 0, body);
    FieldsDecode(fields, sorted, map[]);
    AddingAll(fields, sorted, map[]);
    assert Adding(fields, sorted, map[]) == fields;
  }

  // --- what is written, and what is refused ---

  /** A field that the table has goes by its index, one whose name it has by that, any other in full; nothing is coded. */
  lemma FormChosen(f: Field, i: nat)
    requires Sound(f)
    ensures StaticTable.Get(i) == Some(f) ==>
              exists k: nat :: k < StaticTable.SIZE && StaticTable.Get(k) == Some(f) && EncodeField(f) == PrefixInt.Encode(6, 3, k)
    ensures (forall k: nat :: StaticTable.Get(k) != Some(f)) && StaticTable.Get(i).Some? && StaticTable.Get(i).value.0 == f.0
            && (forall k: nat :: k < i && StaticTable.Get(k).Some? ==> StaticTable.Get(k).value.0 != f.0) ==>
              EncodeField(f) == PrefixInt.Encode(4, 5, i) + (PrefixInt.Encode(7, 0, |f.1|) + f.1)
    ensures (forall k: nat :: StaticTable.Get(k).Some? ==> StaticTable.Get(k).value.0 != f.0) ==>
              EncodeField(f) == (PrefixInt.Encode(3, 4, |f.0|) + f.0) + (PrefixInt.Encode(7, 0, |f.1|) + f.1)
  {
    hide StaticTable.Get, StaticTable.Find, StaticTable.FindName, Utf8.Valid;
    StaticTable.FindAgrees(f.0, f.1);
    StaticTable.FindNameAgrees(f.0);
    IndexFits(f.0, f.1);
    assert StaticTable.Get(i).Some? ==> i < StaticTable.SIZE by { Known(i); }
    hide PrefixInt.Encode, Power;
  }

  lemma Known(i: nat)
    ensures StaticTable.Get(i).Some? ==> i < StaticTable.SIZE
  {
  }

  /** A section starts with two zero bytes, and its pseudo-headers stand before all others. */
  lemma SectionSorted(fields: map<Bytes, Bytes>, order: seq<Bytes>) returns (sorted: seq<Bytes>)
    requires Enumerates(order, fields.Keys)
    requires forall k | k in fields :: Sound((k, fields[k]))
    ensures Enumerates(sorted, fields.Keys) && AllSound(fields, sorted)
    ensures forall i, j | 0 <= i < j < |sorted| && IsPseudo(sorted[j]) :: IsPseudo(sorted[i])
    ensures Encode(fields, order) == [0, 0] + EncodeFields(fields, sorted)
  {
    PseudoFirstSorts(order, fields.Keys);
    sorted := PseudoFirst(order);
    assert PrefixInt.Encode(8, 0, 0) == [0] && PrefixInt.Encode(7, 0, 0) == [0];
    hide PseudoFirst, EncodeFields, Utf8.Valid, IsPseudo;
    assert AllSound(fields, sorted);
  }

  /** The line is of a form that needs the dynamic table, by its first bits. */
  predicate NeedsDynamic(b: Bytes) {
    b != [] && (b[0] < 32 || 64 <= b[0] < 80 || 96 <= b[0] < 112 || 128 <= b[0] < 192)
  }

  /** Such a line is refused, wherever it stands in a section, and no field line is refused for it that is not. */
  lemma DynamicRefused(fields: map<Bytes, Bytes>, order: seq<Bytes>, b: Bytes, before: map<Bytes, Bytes>)
    requires AllSound(fields, order) && b != []
    ensures DecodeField(b) == Failure(DynamicEntry) <==> NeedsDynamic(b)
    ensures NeedsDynamic(b) ==> DecodeFields(EncodeFields(fields, order) + b, before) == Failure(DynamicEntry)
  {
    LineRefused(b);
    hide EncodeFields, DecodeField, NeedsDynamic, StaticTable.Get, Utf8.Valid, EncodeField, Adding;
    LinesInFront(fields, order, b, before);
  }

  lemma LineRefused(b: Bytes)
    requires b != []
    ensures DecodeField(b) == Failure(DynamicEntry) <==> NeedsDynamic(b)
  {
    hide DecodeIndex, DecodeLiteralValue, DecodeLiteral, PrefixInt.Decode;
    NotForOthers(b);
    var q, r := b[0] / 32, b[0] / 16;
    assert b[0] / 64 == q / 2 && q == r / 2 && 16 * r <= b[0] <= 16 * r + 15;
  }

  lemma NotForOthers(b: Bytes)
    requires b != []
    ensures PrefixInt.Decode(b, 6) != Failure(DynamicEntry) && PrefixInt.Decode(b, 4) != Failure(DynamicEntry)
    ensures DecodeLiteralValue(b) != Failure(DynamicEntry) && DecodeLiteral(b) != Failure(DynamicEntry)
    ensures DecodeIndex(b) != Failure(DynamicEntry)
  {
    hide StaticTable.Get, Huffman.Run, Utf8.Valid, Power, DecodeGroups, Sum;
    forall c: Bytes, size: nat | 1 <= size <= 8 ensures PrefixInt.Decode(c, size) != Failure(DynamicEntry) {
      DecodesAny(c, size);
    }
    hide PrefixInt.Decode;
  }

  /** The lines in front are decoded first, whatever follows. */
  lemma {:induction false} LinesInFront(fields: map<Bytes, Bytes>, order: seq<Bytes>, rest: Bytes, before: map<Bytes, Bytes>)
    requires AllSound(fields, order)
    ensures DecodeFields(EncodeFields(fields, order) + rest, before) == DecodeFields(rest, Adding(fields, order, before))
    decreases |order|
  {
    hide DecodeField, EncodeField, Utf8.Valid;
    if order == [] {
      assert [] + rest == rest;
    } else {
      var f := (order[0], fields[order[0]]);
      assert order[0] in order && Sound(f);
      assert forall k | k in order[1..] :: k in order;
      var more := EncodeFields(fields, order[1..]);
      assert (EncodeField(f) + more) + rest == EncodeField(f) + (more + rest);
      FieldDecodes(f, more + rest);
      LinesInFront(fields, order[1..], rest, before[f.0 := f.1]);
    }
  }

  /** Of two lines with one name the later stands. */
  lemma LaterLineWins(name: Bytes, first: Bytes, second: Bytes, before: map<Bytes, Bytes>)
    requires Sound((name, first)) && Sound((name, second))
    ensures DecodeFields(EncodeField((name, first)) + EncodeField((name, second)), before) == Success(before[name := second])
  {
    hide DecodeField, EncodeField, Utf8.Valid;
    var line := EncodeField((name, second));
    FieldDecodes((name, first), line);
    FieldDecodes((name, second), []);
    assert line + [] == line;
    assert before[name := first][name := second] == before[name := second];
    assert DecodeFields(line, before[name := first]) == DecodeFields([], before[name := first][name := second]);
  }

  /** An index past the end of the table is refused, for a whole field and for a name. */
  lemma UnknownIndex(index: U64, rest: Bytes)
    requires index >= StaticTable.SIZE
    ensures DecodeField(PrefixInt.Encode(6, 3, index) + rest) == Failure(UnknownEntry)
    ensures DecodeField(PrefixInt.Encode(4, 5, index) + rest) == Failure(UnknownEntry)
  {
    FirstByte(6, 3, index);
    FirstByte(4, 5, index);
    PrefixInt.RoundTrip(6, 3, index, rest);
    PrefixInt.RoundTrip(4, 5, index, rest);
    assert StaticTable.Get(index).None?;
    hide PrefixInt.Encode, PrefixInt.Decode, StaticTable.Get, DecodeString;
  }

  /** A literal whose value is not UTF-8 is refused, and so is one that announces more bytes than there are. */
  lemma BadLiteral(name: Bytes, value: Bytes, n: U64, rest: Bytes)
    requires Utf8.Valid(name) && Fits(name) && Fits(value)
    ensures !Utf8.Valid(value) ==> DecodeField(EncodeLiteral(name, value) + rest) == Failure(Utf8Error)
    ensures |value| < n ==>
              DecodeField((PrefixInt.Encode(3, 4, |name|) + name) + (PrefixInt.Encode(7, 0, n) + value)) == Failure(UnexpectedEnd)
  {
    hide PrefixInt.Encode, PrefixInt.Decode, DecodeString, DecodeField, Utf8.Valid;
    var head := PrefixInt.Encode(3, 4, |name|) + name;
    var whole, short := PrefixInt.Encode(7, 0, |value|) + value, PrefixInt.Encode(7, 0, n) + value;
    assert head + whole + rest == head + (whole + rest);
    LiteralStarts(name, whole + rest);
    LiteralStarts(name, short);
    PlainString(value, rest, 8, 0);
    if |value| < n { ShortString(n, value); }
  }

  /** A literal with a sound name fails with its value. */
  lemma LiteralStarts(name: Bytes, tail: Bytes)
    requires Utf8.Valid(name) && Fits(name)
    ensures var b := (PrefixInt.Encode(3, 4, |name|) + name) + tail;
            && b != []
            && var value := DecodeText(tail, 8);
               DecodeField(b) == if value.Failure? then Failure(value.error)
                                 else Success(((name, value.value.0), value.value.1))
  {
    hide PrefixInt.Encode, PrefixInt.Decode, DecodeString, StaticTable.Get, Utf8.Valid;
    FirstByte(3, 4, |name|);
    PlainString(name, tail, 4, 4);
  }

  lemma ShortString(n: U64, s: Bytes)
    requires |s| < n
    ensures DecodeString(PrefixInt.Encode(7, 0, n) + s, 8) == Failure(UnexpectedEnd)
  {
    hide PrefixInt.Encode, PrefixInt.Decode;
    FirstByteExists(7, 0, n);
    PrefixInt.RoundTrip(7, 0, n, s);
  }

  // --- as the source runs it ---

  method EncodeHeaders(buf: Bytes, fields: map<Bytes, Bytes>, order: seq<Bytes>) returns (r: Bytes)
    requires Enumerates(order, fields.Keys)
    requires forall k | k in fields :: Sound((k, fields[k]))
    ensures r == buf + Encode(fields, order)
  {
    hide PrefixInt.Encode, EncodeField, Utf8.Valid, PseudoFirst, Power;
    PseudoFirstSorts(order, fields.Keys);
    r := EncodePrefix(buf, 8, 0, 0);
    r := EncodePrefix(r, 7, 0, 0);
    var headers := PseudoFirst(order);
    ghost var start := r;
    var i := 0;
    assert headers[0..] == headers && AllSound(fields, headers);
    ghost var one, two := PrefixInt.Encode(8, 0, 0), PrefixInt.Encode(7, 0, 0);
    assert start + EncodeFields(fields, headers) == buf + ((one + two) + EncodeFields(fields, headers));
    while i < |headers|
      invariant 0 <= i <= |headers|
      invariant AllSound(fields, headers)
      invariant r + EncodeFields(fields, headers[i..]) == start + EncodeFields(fields, headers)
    {
      var name := headers[i];
      assert headers[i..][0] == name && headers[i..][1..] == headers[i + 1..];
      ghost var before, rest := r, EncodeFields(fields, headers[i + 1..]);
      var line := EncodeField((name, fields[name]));
      assert before + (line + rest) == (before + line) + rest;
      r := r + line;
      i := i + 1;
    }
    assert headers[i..] == [];
  }

  method DecodeHeaders(b: Bytes) returns (r: Result<map<Bytes, Bytes>, QpackError>)
    ensures r == Decode(b)
  {
    hide PrefixInt.Decode, DecodeField;
    var count :- DecodePrefix(b, 8);
    var base :- DecodePrefix(count.rest, 7);
    var buf := base.rest;
    var fields: map<Bytes, Bytes> := map[];
    while buf != []
      invariant DecodeFields(base.rest, map[]) == DecodeFields(buf, fields)
      decreases |buf|
    {
      FieldTakes(buf);
      var line :- DecodeField(buf);
      fields := fields[line.0.0 := line.0.1];
      buf := line.1;
    }
    return Success(fields);
  }
}
