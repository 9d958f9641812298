/**
 The BER-TLV encoder and streaming parser of the eSIM profile assistant (X.690 sections 8.1.2 and 8.1.3).
 */
module EsimTlv {
  import opened Bytes
  import opened Sequences
  import opened Wrappers

  /** Python's longest possible bytes object. */
  const PY_SSIZE_MAX := 0x7FFF_FFFF_FFFF_FFFF

  /** One element of a parse, with the position of its first byte and of the byte after it. */
  datatype Tlv = Tlv(tag: nat, value: seq<Byte>, start: nat, end: nat)

  // ----- Big-endian numbers -----

  function FromBigEndian(s: seq<Byte>): nat {
    if s == [] then 0 else FromBigEndian(s[..|s| - 1]) * 0x100 + s[|s| - 1]
  }

  /** The minimal big-endian bytes of a number; none for zero. */
  function BigEndian(n: nat): seq<Byte> {
    if n == 0 then [] else BigEndian(n / 0x100) + [n % 0x100]
  }

  lemma {:induction false} BigEndianRoundTrip(n: nat)
    ensures FromBigEndian(BigEndian(n)) == n
  {
    if n > 0 {
      BigEndianRoundTrip(n / 0x100);
      var s := BigEndian(n / 0x100);
      assert (s + [n % 0x100])[..|s|] == s;
    }
  }

  lemma {:induction false} BigEndianLength(n: nat, k: nat)
    requires n < Pow256(k)
    ensures |BigEndian(n)| <= k
  {
    if n > 0 {
      BigEndianLength(n / 0x100, k - 1);
    }
  }

  /** The first byte weighs most. */
  lemma {:induction false} FirstByteWeighs(b: Byte, s: seq<Byte>)
    ensures FromBigEndian([b] + s) == b as nat * Pow256(|s|) + FromBigEndian(s)
  {
    if s == [] {
      assert FromBigEndian([b]) == FromBigEndian([]) * 0x100 + b;
    } else {
      var init, n := s[..|s| - 1], Pow256(|s| - 1);
      FirstByteWeighs(b, init);
      assert ([b] + s)[..|s|] == [b] + init;
      assert (b as nat * n + FromBigEndian(init)) * 0x100 == b as nat * (0x100 * n) + FromBigEndian(init) * 0x100;
    }
  }

  /** No byte is wasted: the first is not zero, so fewer would not do. */
  lemma {:induction false} BigEndianIsMinimal(n: nat)
    requires n > 0
    ensures BigEndian(n) != [] && BigEndian(n)[0] != 0 && n >= Pow256(|BigEndian(n)| - 1)
  {
    if n >= 0x100 {
      BigEndianIsMinimal(n / 0x100);
    } else {
      assert BigEndian(n) == [] + [n];
    }
  }

  // ----- Encoding -----

  function EncodeTag(tag: nat): seq<Byte> {
    if tag > 255 then [tag / 0x100 % 0x100, tag % 0x100] else [tag]
  }

  function EncodeLength(len: nat): seq<Byte>
    requires len <= PY_SSIZE_MAX
  {
    if len <= 127 then [len]
    else
      LengthFits(len);
      [0x80 + |BigEndian(len)|] + BigEndian(len)
  }

  lemma {:induction false} LengthFits(len: nat)
    requires len <= PY_SSIZE_MAX
    ensures |BigEndian(len)| <= 8
  {
    assert Pow256(4) == 0x1_0000_0000;
    assert Pow256(8) == 0x1_0000_0000_0000_0000;
    BigEndianLength(len, 8);
  }

  function EncodeTlv(tag: nat, value: seq<Byte>): seq<Byte>
    requires |value| <= PY_SSIZE_MAX
  {
    EncodeTag(tag) + EncodeLength(|value|) + value
  }

  /** The tag's bytes, high byte first. */
  lemma TagForm(tag: nat)
    requires IsTag(tag)
    ensures var s := EncodeTag(tag);
            if tag <= 0xFF then |s| == 1 && s[0] == tag else |s| == 2 && s[0] as nat * 0x100 + s[1] == tag
  {
  }

  /** The length's bytes: one up to 127, and else a count with the high bit, and as few digits as there can be. */
  lemma LengthForm(len: nat)
    requires len <= PY_SSIZE_MAX
    ensures var s := EncodeLength(len);
            if len <= 127 then |s| == 1 && s[0] == len
            else
              && 2 <= |s| <= 9 && s[0] as nat == 0x80 + |s| - 1
              && FromBigEndian(s[1..]) == len && s[1] != 0
  {
    if len > 127 {
      LengthFits(len);
      BigEndianRoundTrip(len);
      BigEndianIsMinimal(len);
      assert EncodeLength(len)[1..] == BigEndian(len);
    }
  }

  // ----- Parsing -----

  /** The rest of a multi-byte tag from `idx`: up to and including a byte below 0x80, or the end. */
  function TagRest(data: seq<Byte>, idx: nat, tag: nat): (r: (nat, nat))
    requires idx <= |data|
    ensures idx <= r.1 <= |data|
    decreases |data| - idx
  {
    if idx == |data| then (tag, idx)
    else if data[idx] < 0x80 then (tag * 0x100 + data[idx], idx + 1)
    else TagRest(data, idx + 1, tag * 0x100 + data[idx])
  }

  /** The tag at `start` and the position after it. */
  function TagAt(data: seq<Byte>, start: nat): (r: (nat, nat))
    requires start < |data|
    ensures start < r.1 <= |data|
  {
    if data[start] % 0x20 == 0x1F then TagRest(data, start + 1, data[start]) else (data[start], start + 1)
  }

  /** The length field at `idx`: the size it gives and the position after it, if it is all there. */
  function LengthAt(data: seq<Byte>, idx: nat): (r: Option<(nat, nat)>)
    requires idx <= |data|
    ensures r.Some? ==> idx < r.value.1 <= |data|
  {
    if idx == |data| then None
    else if data[idx] < 0x80 then Some((data[idx], idx + 1))
    else
      var first := idx + 1;
      var past := first + (data[idx] - 0x80);
      if past > |data| then None else Some((FromBigEndian(data[first..past]), past))
  }

  /** The element that starts at a position, if it is complete. */
  function ElementAt(data: seq<Byte>, start: nat): (r: Option<Tlv>)
    requires start < |data|
    ensures r.Some? ==> start + 2 <= r.value.end <= |data|
  {
    var (tag, idx) := TagAt(data, start);
    match LengthAt(data, idx)
    case None => None
    case Some((size, first)) =>
      if first + size > |data| then None
      else Some(Tlv(tag, data[first..first + size], start, first + size))
  }

  /** All complete elements from a position on; the parse stops at the first incomplete one. */
  function Elements(data: seq<Byte>, start: nat): seq<Tlv>
    requires start <= |data|
    decreases |data| - start
  {
    if start == |data| then []
    else
      match ElementAt(data, start)
      case None => []
      case Some(t) => [t] + Elements(data, t.end)
  }

  /** Reads the tag at `start`, byte by byte. */
  method ReadTag(data: seq<Byte>, start: nat) returns (tag: nat, idx: nat)
    requires start < |data|
    ensures (tag, idx) == TagAt(data, start)
  {
    tag, idx := data[start], start + 1;
    if tag % 0x20 == 0x1F {
      var more := true;
      while more && idx < |data|
        invariant idx <= |data|
        invariant if more then TagRest(data, idx, tag) == TagAt(data, start) else (tag, idx) == TagAt(data, start)
        decreases |data| - idx
      {
        var nextByte := data[idx];
        idx := idx + 1;
        tag := tag * 0x100 + nextByte;
        more := nextByte >= 0x80;
      }
    }
  }

  /** One turn of the generator: the element at `start`, or none when the data runs out before its end. */
  method ReadElement(data: seq<Byte>, start: nat) returns (t: Option<Tlv>)
    requires start < |data|
    ensures t == ElementAt(data, start)
  {
    var tag, idx := ReadTag(data, start);
    if idx >= |data| {
      return None;
    }
    var size: nat := data[idx];
    idx := idx + 1;
    if size >= 0x80 {
      var numBytes := size - 0x80;
      if idx + numBytes > |data| {
        return None;
      }
      size := FromBigEndian(data[idx..idx + numBytes]);
      idx := idx + numBytes;
    }
    if idx + size > |data| {
      return None;
    }
    return Some(Tlv(tag, data[idx..idx + size], start, idx + size));
  }

  /** The generator, collected: it yields exactly the elements from the front. */
  method IterTlv(data: seq<Byte>) returns (items: seq<Tlv>)
    ensures items == Elements(data, 0)
  {
    var idx := 0;
    items := [];
    while idx < |data|
      invariant idx <= |data|
      invariant items + Elements(data, idx) == Elements(data, 0)
      decreases |data| - idx
    {
      var t := ReadElement(data, idx);
      if t.None? {
        break;
      }
      ConcatAssociates(items, [t.value], Elements(data, t.value.end));
      items, idx := items + [t.value], t.value.end;
    }
    assert items + [] == items;
  }

  // ----- Parsing what was encoded -----

  /** Tags with a canonical one-byte form, or two bytes in the multi-byte form. */
  predicate IsTag(tag: nat) {
    if tag <= 255 then tag % 0x20 != 0x1F
    else tag <= 0xFFFF && tag / 0x100 % 0x20 == 0x1F && tag % 0x100 < 0x80
  }

  /** Parsing sees only the bytes of its own element: it can be moved and followed by anything. */
  lemma {:induction false} TagRestMoves(a: seq<Byte>, s: seq<Byte>, b: seq<Byte>, idx: nat, tag: nat)
    requires idx <= |s| && (TagRest(s, idx, tag).1 < |s| || b == [])
    ensures TagRest(a + s + b, |a| + idx, tag) == (TagRest(s, idx, tag).0, |a| + TagRest(s, idx, tag).1)
    decreases |s| - idx
  {
    if idx < |s| && s[idx] >= 0x80 {
      TagRestMoves(a, s, b, idx + 1, tag * 0x100 + s[idx]);
    }
  }

  function Shift(t: Tlv, offset: int): Tlv
    requires t.start + offset >= 0 && t.end + offset >= 0
  {
    t.(start := t.start + offset, end := t.end + offset)
  }

  lemma TagMoves(a: seq<Byte>, s: seq<Byte>, b: seq<Byte>, start: nat)
    requires start < |s| && TagAt(s, start).1 < |s|
    ensures TagAt(a + s + b, |a| + start) == (TagAt(s, start).0, |a| + TagAt(s, start).1)
  {
    if s[start] % 0x20 == 0x1F {
      TagRestMoves(a, s, b, start + 1, s[start]);
    }
  }

  lemma SliceMoves<T>(a: seq<T>, s: seq<T>, b: seq<T>, i: nat, j: nat)
    requires i <= j <= |s|
    ensures (a + s + b)[|a| + i..|a| + j] == s[i..j]
  {
  }

  lemma LengthMoves(a: seq<Byte>, s: seq<Byte>, b: seq<Byte>, idx: nat)
    requires idx < |s| && LengthAt(s, idx).Some?
    ensures LengthAt(a + s + b, |a| + idx) == Some((LengthAt(s, idx).value.0, |a| + LengthAt(s, idx).value.1))
  {
    if s[idx] >= 0x80 {
      var first := LengthAt(s, idx).value.1;
      SliceMoves(a, s, b, idx + 1, first);
    }
  }

  lemma ElementMoves(a: seq<Byte>, s: seq<Byte>, b: seq<Byte>, start: nat)
    requires start < |s| && ElementAt(s, start).Some?
    ensures ElementAt(a + s + b, |a| + start) == Some(Shift(ElementAt(s, start).value, |a|))
  {
    var (tag, idx) := TagAt(s, start);
    var (size, first) := LengthAt(s, idx).value;
    TagMoves(a, s, b, start);
    LengthMoves(a, s, b, idx);
    SliceMoves(a, s, b, first, first + size);
  }

  /** The two forms of a length field. */
  predicate IsLengthField(field: seq<Byte>, len: nat, digits: seq<Byte>) {
    if len <= 127 then field == [len]
    else |digits| < 0x80 && field == [0x80 + |digits|] + digits && FromBigEndian(digits) == len
  }

  /** The parser takes a counted length of any size, minimal or not. */
  lemma CountedLengthAt(data: seq<Byte>, at: nat, count: nat)
    requires count < 0x80 && at + 1 + count <= |data| && data[at] == 0x80 + count
    ensures LengthAt(data, at) == Some((FromBigEndian(data[at + 1..at + 1 + count]), at + 1 + count))
  {
  }

  lemma EncodedLength(len: nat) returns (digits: seq<Byte>)
    requires len <= PY_SSIZE_MAX
    ensures IsLengthField(EncodeLength(len), len, digits)
  {
    LengthFits(len);
    BigEndianRoundTrip(len);
    digits := BigEndian(len);
  }

  lemma LengthFieldAt(data: seq<Byte>, at: nat, field: seq<Byte>, len: nat, digits: seq<Byte>)
    requires IsLengthField(field, len, digits)
    requires at + |field| <= |data| && data[at..at + |field|] == field
    ensures LengthAt(data, at) == Some((len, at + |field|))
  {
    assert data[at] == field[0];
    if len > 127 {
      var inner := data[at..at + |field|];
      assert inner[1..] == digits;
      assert data[at + 1..at + 1 + |digits|] == inner[1..];
    }
  }

  /** A complete multi-byte tag ends in a byte below 0x80 and is at least its leading part, shifted. */
  lemma {:induction false} TagRestShape(data: seq<Byte>, idx: nat, tag: nat)
    requires idx < |data| && TagRest(data, idx, tag).1 < |data|
    ensures TagRest(data, idx, tag).0 % 0x100 < 0x80 && TagRest(data, idx, tag).0 >= tag * 0x100
    decreases |data| - idx
  {
    if data[idx] >= 0x80 {
      TagRestShape(data, idx + 1, tag * 0x100 + data[idx]);
    }
  }

  lemma EncodedTag(tag: nat, rest: seq<Byte>)
    requires IsTag(tag) && rest != []
    ensures TagAt(EncodeTag(tag) + rest, 0) == (tag, |EncodeTag(tag)|)
  {
  }

  lemma EncodedElement(tag: nat, value: seq<Byte>)
    requires IsTag(tag) && |value| <= PY_SSIZE_MAX
    ensures ElementAt(EncodeTlv(tag, value), 0) == Some(Tlv(tag, value, 0, |EncodeTlv(tag, value)|))
  {
    var head, len := EncodeTag(tag), EncodeLength(|value|);
    var s := EncodeTlv(tag, value);
    assert s == head + (len + value);
    EncodedTag(tag, len + value);
    var digits := EncodedLength(|value|);
    assert s[|head|..|head| + |len|] == len;
    LengthFieldAt(s, |head|, len, |value|, digits);
    assert s[|head| + |len|..|head| + |len| + |value|] == value;
  }

  /** Encoding then parsing gives the element back exactly for the canonical tags. */
  lemma EncodeRoundTrip(tag: nat, value: seq<Byte>)
    requires |value| <= PY_SSIZE_MAX
    ensures var s := EncodeTlv(tag, value);
            ElementAt(s, 0) == Some(Tlv(tag, value, 0, |s|)) <==> IsTag(tag)
  {
    var s := EncodeTlv(tag, value);
    if IsTag(tag) {
      EncodedElement(tag, value);
    } else if ElementAt(s, 0).Some? && s[0] % 0x20 == 0x1F {
      TagRestShape(s, 1, s[0]);
    }
  }

  // ----- Lists of elements -----

  datatype Field = Field(tag: nat, value: seq<Byte>)

  predicate IsField(f: Field) {
    IsTag(f.tag) && |f.value| <= PY_SSIZE_MAX
  }

  function EncodeAll(fields: seq<Field>): seq<Byte>
    requires forall f :: f in fields ==> IsField(f)
  {
    if fields == [] then []
    else
      assert IsField(fields[0]);
      EncodeTlv(fields[0].tag, fields[0].value) + EncodeAll(fields[1..])
  }

  function FieldsOf(items: seq<Tlv>): seq<Field> {
    if items == [] then [] else [Field(items[0].tag, items[0].value)] + FieldsOf(items[1..])
  }

  /** The elements lie end to end from `start`, each inside the data and carrying its own value bytes. */
  predicate Tiles(data: seq<Byte>, items: seq<Tlv>, start: nat) {
    if items == [] then true
    else
      var t := items[0];
      && t.start == start && start + 2 + |t.value| <= t.end <= |data|
      && t.value == data[t.end - |t.value|..t.end]
      && Tiles(data, items[1..], t.end)
  }

  /** On any bytes at all the parse yields elements that tile a prefix of the data. */
  lemma {:induction false} ElementsTile(data: seq<Byte>, start: nat)
    requires start <= |data|
    ensures Tiles(data, Elements(data, start), start)
    decreases |data| - start
  {
    if start < |data| && ElementAt(data, start).Some? {
      var t := ElementAt(data, start).value;
      ElementsTile(data, t.end);
      assert ([t] + Elements(data, t.end))[1..] == Elements(data, t.end);
    }
  }

  /** Where a run of elements stops. */
  function EndOf(items: seq<Tlv>, start: nat): nat {
    if items == [] then start else items[|items| - 1].end
  }

  /** A parse sees the fields and reaches the end of the data. */
  predicate Reads(data: seq<Byte>, start: nat, fields: seq<Field>)
    requires start <= |data|
  {
    FieldsOf(Elements(data, start)) == fields && EndOf(Elements(data, start), start) == |data|
  }

  lemma {:induction false} ElementsStep(data: seq<Byte>, start: nat, t: Tlv)
    requires start < |data| && ElementAt(data, start) == Some(t)
    ensures Elements(data, start) == [t] + Elements(data, t.end)
  {
  }

  lemma FieldsOfCons(t: Tlv, items: seq<Tlv>, start: nat)
    ensures FieldsOf([t] + items) == [Field(t.tag, t.value)] + FieldsOf(items)
    ensures EndOf([t] + items, start) == EndOf(items, t.end)
  {
    assert ([t] + items)[1..] == items;
  }

  lemma {:induction false} ReadsOneMore(data: seq<Byte>, start: nat, t: Tlv, fields: seq<Field>)
    requires start <= |data| && t.end <= |data|
    requires Elements(data, start) == [t] + Elements(data, t.end) && Reads(data, t.end, fields)
    ensures Reads(data, start, [Field(t.tag, t.value)] + fields)
  {
    FieldsOfCons(t, Elements(data, t.end), start);
  }

  lemma EncodedInPlace(data: seq<Byte>, prefix: seq<Byte>, f: Field, rest: seq<Byte>) returns (t: Tlv)
    requires IsField(f) && data == prefix + EncodeTlv(f.tag, f.value) + rest
    ensures t == Tlv(f.tag, f.value, |prefix|, |prefix| + |EncodeTlv(f.tag, f.value)|)
    ensures |prefix| < |data| && ElementAt(data, |prefix|) == Some(t)
  {
    EncodedElement(f.tag, f.value);
    ElementMoves(prefix, EncodeTlv(f.tag, f.value), rest, 0);
    t := Tlv(f.tag, f.value, |prefix|, |prefix| + |EncodeTlv(f.tag, f.value)|);
  }

  lemma EncodedFirst(data: seq<Byte>, prefix: seq<Byte>, f: Field, rest: seq<Byte>) returns (t: Tlv)
    requires IsField(f) && data == prefix + EncodeTlv(f.tag, f.value) + rest
    ensures t.tag == f.tag && t.value == f.value && t.end == |prefix + EncodeTlv(f.tag, f.value)| <= |data|
    ensures |prefix| <= |data| && Elements(data, |prefix|) == [t] + Elements(data, t.end)
  {
    t := EncodedInPlace(data, prefix, f, rest);
    ElementsStep(data, |prefix|, t);
  }

  lemma ReadsFirst(data: seq<Byte>, prefix: seq<Byte>, f: Field, rest: seq<Byte>, fields: seq<Field>)
    requires IsField(f) && data == prefix + EncodeTlv(f.tag, f.value) + rest
    requires Reads(data, |prefix + EncodeTlv(f.tag, f.value)|, fields)
    ensures Reads(data, |prefix|, [f] + fields)
  {
    var t := EncodedFirst(data, prefix, f, rest);
    ReadsOneMore(data, |prefix|, t, fields);
  }

  lemma {:induction false} EncodeFirst(fields: seq<Field>)
    requires fields != [] && forall f :: f in fields ==> IsField(f)
    ensures IsField(fields[0]) && forall f :: f in fields[1..] ==> IsField(f)
    ensures EncodeAll(fields) == EncodeTlv(fields[0].tag, fields[0].value) + EncodeAll(fields[1..])
  {
    assert fields[0] in fields;
  }

  /** Parsing a concatenation of encodings yields exactly the encoded list, up to the end of the data. */
  lemma {:induction false} ListRoundTrip(data: seq<Byte>, prefix: seq<Byte>, fields: seq<Field>)
    requires forall f :: f in fields ==> IsField(f)
    requires data == prefix + EncodeAll(fields)
    ensures Reads(data, |prefix|, fields)
    decreases |fields|
  {
    if fields != [] {
      EncodeFirst(fields);
      var f, rest := fields[0], EncodeAll(fields[1..]);
      var s := EncodeTlv(f.tag, f.value);
      ConcatAssociates(prefix, s, rest);
      ListRoundTrip(data, prefix + s, fields[1..]);
      ReadsFirst(data, prefix, f, rest, fields[1..]);
      assert [f] + fields[1..] == fields;
    }
  }
}
