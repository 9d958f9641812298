/**
 Splitting a BoundProfilePackage into the chunks sent to the eUICC (SGP.22 section 5.7.6), and when the
 chunks together are the package.
 */
module BppSplitter {
  import opened Bytes
  import opened EsimTlv
  import opened Sequences
  import opened Wrappers

  const TAG_BPP := 0xBF36
  const TAG_BPP_COMMAND := 0xBF23

  // ----- The header length helper -----

  function TagLen(data: seq<Byte>): nat
    requires data != []
  {
    if data[0] % 0x20 == 0x1F then 2 else 1
  }

  function HeaderLen(data: seq<Byte>): nat
    requires data != [] && TagLen(data) < |data|
  {
    var lengthByte := data[TagLen(data)];
    TagLen(data) + (if lengthByte >= 0x80 then 1 + (lengthByte - 0x80) else 1)
  }

  /** `t` is what the parser reads at its own start. */
  predicate IsElement(data: seq<Byte>, t: Tlv) {
    t.start < |data| && ElementAt(data, t.start) == Some(t)
  }

  /** The element is in the data, with its value at its end. */
  predicate InPlace(data: seq<Byte>, t: Tlv) {
    t.start + 2 + |t.value| <= t.end <= |data| && t.value == data[t.end - |t.value|..t.end]
  }

  function ValueStart(t: Tlv): nat
    requires |t.value| <= t.end
  {
    t.end - |t.value|
  }

  /** The helper, asked for the header of this element, ends it where the parser starts the value. */
  predicate HelperFinds(data: seq<Byte>, t: Tlv)
    requires InPlace(data, t)
  {
    var raw := data[t.start..t.end];
    TagLen(raw) < |raw| && t.start + HeaderLen(raw) == ValueStart(t)
  }

  lemma ElementInPlace(data: seq<Byte>, t: Tlv)
    requires IsElement(data, t)
    ensures InPlace(data, t)
  {
  }

  /** The helper agrees with the parser on every element whose tag has at most two bytes. */
  lemma HeaderLenAgrees(data: seq<Byte>, t: Tlv)
    requires IsElement(data, t) && t.tag <= 0xFFFF
    ensures InPlace(data, t) && HelperFinds(data, t)
  {
    ElementInPlace(data, t);
    var raw := data[t.start..t.end];
    assert raw[0] == data[t.start] && raw[1] == data[t.start + 1];
    if data[t.start] % 0x20 == 0x1F && data[t.start + 1] >= 0x80 {
      var first: nat := data[t.start];
      TagRestShape(data, t.start + 2, first * 0x100 + data[t.start + 1]);
      assert false;
    }
    assert TagAt(data, t.start).1 == t.start + TagLen(raw);
  }

  // ----- The splitter -----

  function FindRoot(items: seq<Tlv>): Option<Tlv> {
    if items == [] then None
    else if items[0].tag == TAG_BPP then Some(items[0])
    else FindRoot(items[1..])
  }

  predicate IsWhole(tag: nat) {
    tag == 0xA0 || tag == 0xA2
  }

  predicate IsSequence(tag: nat) {
    tag == 0xA1 || tag == 0xA3
  }

  /** The root's value is where the package says: a stretch of it from `valStart` on. */
  predicate RootAt(bpp: seq<Byte>, valStart: nat, root: seq<Byte>) {
    valStart + |root| <= |bpp| && bpp[valStart..valStart + |root|] == root
  }

  predicate AllInPlace(data: seq<Byte>, items: seq<Tlv>) {
    forall i :: 0 <= i < |items| ==> InPlace(data, items[i])
  }

  function Pieces(value: seq<Byte>, items: seq<Tlv>): seq<seq<Byte>>
    requires AllInPlace(value, items)
  {
    if items == [] then [] else [value[items[0].start..items[0].end]] + Pieces(value, items[1..])
  }

  /** A sequence goes out as its header, then each of its children. */
  function SequenceChunks(header: seq<Byte>, value: seq<Byte>): seq<seq<Byte>> {
    ElementsInPlace(value, 0);
    [header] + Pieces(value, Elements(value, 0))
  }

  /** The chunks one child of the root contributes; only BF23 takes in what is outside the root's value. */
  function ChildChunks(bpp: seq<Byte>, valStart: nat, root: seq<Byte>, t: Tlv): seq<seq<Byte>>
    requires RootAt(bpp, valStart, root) && InPlace(root, t)
  {
    if t.tag == TAG_BPP_COMMAND then [bpp[0..valStart + t.end]]
    else if IsWhole(t.tag) then [root[t.start..t.end]]
    else if IsSequence(t.tag) then SequenceChunks(root[t.start..ValueStart(t)], t.value)
    else []
  }

  function Chunks(bpp: seq<Byte>, valStart: nat, root: seq<Byte>, items: seq<Tlv>): seq<seq<Byte>>
    requires RootAt(bpp, valStart, root) && AllInPlace(root, items)
  {
    if items == [] then []
    else ChildChunks(bpp, valStart, root, items[0]) + Chunks(bpp, valStart, root, items[1..])
  }

  lemma {:induction false} ElementsInPlace(data: seq<Byte>, start: nat)
    requires start <= |data|
    ensures AllInPlace(data, Elements(data, start))
    ensures forall i :: 0 <= i < |Elements(data, start)| ==> IsElement(data, Elements(data, start)[i])
    decreases |data| - start
  {
    if start < |data| && ElementAt(data, start).Some? {
      ElementsInPlace(data, ElementAt(data, start).value.end);
      ElementInPlace(data, ElementAt(data, start).value);
    }
  }

  lemma {:induction false} RootIsFound(items: seq<Tlv>)
    ensures FindRoot(items).Some? ==> FindRoot(items).value in items && FindRoot(items).value.tag == TAG_BPP
  {
    if items != [] && items[0].tag != TAG_BPP {
      RootIsFound(items[1..]);
    }
  }

  /** The chunks of a package whose root element is given. */
  function SplitAt(bpp: seq<Byte>, t: Tlv): seq<seq<Byte>>
    requires InPlace(bpp, t)
  {
    ElementsInPlace(t.value, 0);
    Chunks(bpp, ValueStart(t), t.value, Elements(t.value, 0))
  }

  lemma {:induction false} RootIsElement(bpp: seq<Byte>, t: Tlv)
    requires FindRoot(Elements(bpp, 0)) == Some(t)
    ensures IsElement(bpp, t) && InPlace(bpp, t) && t.tag == TAG_BPP
  {
    ElementsInPlace(bpp, 0);
    RootIsFound(Elements(bpp, 0));
  }

  /** The chunks of a package; none stands for the error raised when it has no root element. */
  function Split(bpp: seq<Byte>): Option<seq<seq<Byte>>> {
    match FindRoot(Elements(bpp, 0))
    case None => None
    case Some(t) =>
      RootIsElement(bpp, t);
      Some(SplitAt(bpp, t))
  }

  /** The loop over the children of a sequence: one piece for each. */
  method PiecesOf(value: seq<Byte>) returns (pieces: seq<seq<Byte>>)
    requires AllInPlace(value, Elements(value, 0))
    ensures pieces == Pieces(value, Elements(value, 0))
  {
    pieces := [];
    var items := IterTlv(value);
    var i := 0;
    while i < |items|
      invariant i <= |items|
      invariant pieces + Pieces(value, items[i..]) == Pieces(value, items)
    {
      var piece := value[items[i].start..items[i].end];
      assert items[i..][1..] == items[i + 1..];
      ConcatAssociates(pieces, [piece], Pieces(value, items[i + 1..]));
      pieces, i := pieces + [piece], i + 1;
    }
  }

  /** A sequence goes out as its header, then each of its children. */
  method ChunksOfSequence(header: seq<Byte>, value: seq<Byte>) returns (chunks: seq<seq<Byte>>)
    ensures chunks == SequenceChunks(header, value)
  {
    ElementsInPlace(value, 0);
    var pieces := PiecesOf(value);
    chunks := [header] + pieces;
  }

  /** A stretch of the package that lies in the root's value. */
  method RootSlice(bpp: seq<Byte>, valStart: nat, root: seq<Byte>, i: nat, j: nat) returns (s: seq<Byte>)
    requires RootAt(bpp, valStart, root) && i <= j <= |root|
    ensures s == root[i..j]
  {
    InRoot(bpp, valStart, root, i, j);
    s := bpp[valStart + i..valStart + j];
  }

  /** The loop body for one child of the root. */
  method ChunksOfChild(bpp: seq<Byte>, valStart: nat, root: seq<Byte>, t: Tlv) returns (chunks: seq<seq<Byte>>)
    requires RootAt(bpp, valStart, root) && InPlace(root, t) && (IsSequence(t.tag) ==> HelperFinds(root, t))
    ensures chunks == ChildChunks(bpp, valStart, root, t)
  {
    chunks := [];
    if t.tag == TAG_BPP_COMMAND {
      chunks := [bpp[0..valStart + t.end]];
    } else if IsWhole(t.tag) {
      var whole := RootSlice(bpp, valStart, root, t.start, t.end);
      chunks := [whole];
    } else if IsSequence(t.tag) {
      var headerLen := HeaderLen(root[t.start..t.end]);
      var header := RootSlice(bpp, valStart, root, t.start, t.start + headerLen);
      chunks := ChunksOfSequence(header, t.value);
    }
  }

  /** The helper finds the value of every A1 and A3 child. */
  predicate HelperServes(root: seq<Byte>, items: seq<Tlv>)
    requires AllInPlace(root, items)
  {
    forall i :: 0 <= i < |items| && IsSequence(items[i].tag) ==> HelperFinds(root, items[i])
  }

  lemma {:induction false} HelperServesAll(root: seq<Byte>)
    ensures AllInPlace(root, Elements(root, 0)) && HelperServes(root, Elements(root, 0))
  {
    ElementsInPlace(root, 0);
    var items := Elements(root, 0);
    forall i | 0 <= i < |items| && IsSequence(items[i].tag)
      ensures HelperFinds(root, items[i])
    {
      HeaderLenAgrees(root, items[i]);
    }
  }

  /** The loop over the children of the root. */
  method ChunksOf(bpp: seq<Byte>, valStart: nat, root: seq<Byte>) returns (chunks: seq<seq<Byte>>)
    requires RootAt(bpp, valStart, root)
    requires AllInPlace(root, Elements(root, 0)) && HelperServes(root, Elements(root, 0))
    ensures chunks == Chunks(bpp, valStart, root, Elements(root, 0))
  {
    chunks := [];
    var items := IterTlv(root);
    var i := 0;
    while i < |items|
      invariant i <= |items|
      invariant chunks + Chunks(bpp, valStart, root, items[i..]) == Chunks(bpp, valStart, root, items)
    {
      var more := ChunksOfChild(bpp, valStart, root, items[i]);
      ChunksFromHere(bpp, valStart, root, items, i, chunks);
      chunks, i := chunks + more, i + 1;
    }
  }

  lemma {:induction false} ChunksFromHere(
    bpp: seq<Byte>, valStart: nat, root: seq<Byte>, items: seq<Tlv>, i: nat, chunks: seq<seq<Byte>>)
    requires RootAt(bpp, valStart, root) && AllInPlace(root, items) && i < |items|
    ensures chunks + Chunks(bpp, valStart, root, items[i..])
         == chunks + ChildChunks(bpp, valStart, root, items[i]) + Chunks(bpp, valStart, root, items[i + 1..])
  {
    assert items[i..][1..] == items[i + 1..];
    ConcatAssociates(chunks, ChildChunks(bpp, valStart, root, items[i]), Chunks(bpp, valStart, root, items[i + 1..]));
  }

  /** The search for the root element. */
  method RootOf(bpp: seq<Byte>) returns (root: Option<Tlv>)
    ensures root == FindRoot(Elements(bpp, 0))
  {
    var items := IterTlv(bpp);
    var i := 0;
    while i < |items|
      invariant i <= |items|
      invariant FindRoot(items[i..]) == FindRoot(items)
    {
      if items[i].tag == TAG_BPP {
        return Some(items[i]);
      }
      assert items[i..][1..] == items[i + 1..];
      i := i + 1;
    }
    return None;
  }

  method SplitFrom(bpp: seq<Byte>, root: Tlv) returns (chunks: seq<seq<Byte>>)
    requires InPlace(bpp, root) && HelperFinds(bpp, root)
    ensures chunks == SplitAt(bpp, root)
  {
    var valStart := root.start + HeaderLen(bpp[root.start..root.end]);
    assert valStart == ValueStart(root) && RootAt(bpp, valStart, root.value);
    chunks := ChunksFrom(bpp, valStart, root.value);
    ElementsInPlace(root.value, 0);
  }

  method ChunksFrom(bpp: seq<Byte>, valStart: nat, root: seq<Byte>) returns (chunks: seq<seq<Byte>>)
    requires RootAt(bpp, valStart, root)
    ensures AllInPlace(root, Elements(root, 0)) && chunks == Chunks(bpp, valStart, root, Elements(root, 0))
  {
    HelperServesAll(root);
    chunks := ChunksOf(bpp, valStart, root);
  }

  method SplitBpp(bpp: seq<Byte>) returns (r: Option<seq<seq<Byte>>>)
    ensures r == Split(bpp)
  {
    var root := RootOf(bpp);
    match root
    case None => return None;
    case Some(t) =>
      RootIsElement(bpp, t);
      HeaderLenAgrees(bpp, t);
      var chunks := SplitFrom(bpp, t);
      return Some(chunks);
  }

  // ----- What the chunks add up to -----

  lemma SlicesJoin<T>(s: seq<T>, a: nat, b: nat, c: nat)
    requires a <= b <= c <= |s|
    ensures s[a..b] + s[b..c] == s[a..c]
  {
  }

  /** Elements that tile give back the stretch they tile. */
  lemma {:induction false} PiecesTile(value: seq<Byte>, items: seq<Tlv>, start: nat)
    requires start <= |value| && Tiles(value, items, start) && AllInPlace(value, items)
    ensures start <= EndOf(items, start) <= |value|
    ensures Flatten(Pieces(value, items)) == value[start..EndOf(items, start)]
  {
    if items != [] {
      PiecesTile(value, items[1..], items[0].end);
      FlattenHead(value[items[0].start..items[0].end], Pieces(value, items[1..]));
      SlicesJoin(value, start, items[0].end, EndOf(items, start));
    }
  }

  /** A child that is sent on its own, in full or in part. */
  predicate IsSent(t: Tlv) {
    IsWhole(t.tag) || IsSequence(t.tag)
  }

  /** How far the elements of a value can be read. */
  function ReadTo(value: seq<Byte>): nat {
    EndOf(Elements(value, 0), 0)
  }

  /** A child that contributes all of its bytes. */
  predicate IsKept(t: Tlv) {
    IsWhole(t.tag) || (IsSequence(t.tag) && ReadTo(t.value) == |t.value|)
  }

  /** All the bytes of a stretch, or fewer. */
  predicate Gives(out: seq<Byte>, s: seq<Byte>, start: nat, end: nat, whole: bool) {
    start <= end <= |s| && if whole then out == s[start..end] else |out| < end - start
  }

  lemma GivesConcat(
    out1: seq<Byte>, out2: seq<Byte>, s: seq<Byte>, a: nat, b: nat, c: nat, whole1: bool, whole2: bool)
    requires Gives(out1, s, a, b, whole1) && Gives(out2, s, b, c, whole2)
    ensures Gives(out1 + out2, s, a, c, whole1 && whole2)
  {
  }

  lemma InRoot(bpp: seq<Byte>, valStart: nat, root: seq<Byte>, i: nat, j: nat)
    requires RootAt(bpp, valStart, root) && i <= j <= |root|
    ensures bpp[valStart + i..valStart + j] == root[i..j]
  {
    SliceOfSlice(bpp, valStart, valStart + |root|, i, j);
  }

  lemma SliceOfSlice<T>(s: seq<T>, a: nat, b: nat, i: nat, j: nat)
    requires a <= b <= |s| && i <= j <= b - a
    ensures s[a..b][i..j] == s[a + i..a + j]
  {
    var whole := s[a..b];
    assert forall k :: 0 <= k < j - i ==> whole[i..j][k] == whole[i + k] == s[a + i..a + j][k];
  }

  /** What a sequence sends: its header and its children as far as they can be read. */
  lemma SequenceOutput(header: seq<Byte>, value: seq<Byte>)
    ensures ReadTo(value) <= |value| && Flatten(SequenceChunks(header, value)) == header + value[..ReadTo(value)]
  {
    ElementsInPlace(value, 0);
    ElementsTile(value, 0);
    PiecesTile(value, Elements(value, 0), 0);
    FlattenHead(header, Pieces(value, Elements(value, 0)));
  }

  lemma HeaderAndValue(root: seq<Byte>, t: Tlv, n: nat)
    requires InPlace(root, t) && n <= |t.value|
    ensures Gives(root[t.start..ValueStart(t)] + t.value[..n], root, t.start, t.end, n == |t.value|)
    ensures (root[t.start..ValueStart(t)] + t.value[..n])[0] == root[t.start]
  {
    assert root[t.start..ValueStart(t)] + root[ValueStart(t)..t.end] == root[t.start..t.end];
  }

  /** A child of the root, whether it is kept, and what is sent for it. */
  datatype Child = Child(t: Tlv, kept: bool, out: seq<Byte>)

  function ChildOf(bpp: seq<Byte>, valStart: nat, root: seq<Byte>, t: Tlv): Child
    requires RootAt(bpp, valStart, root) && InPlace(root, t)
  {
    Child(t, IsKept(t), Flatten(ChildChunks(bpp, valStart, root, t)))
  }

  function Children(bpp: seq<Byte>, valStart: nat, root: seq<Byte>, items: seq<Tlv>): (cs: seq<Child>)
    requires RootAt(bpp, valStart, root) && AllInPlace(root, items)
    ensures |cs| == |items|
  {
    if items == [] then []
    else [ChildOf(bpp, valStart, root, items[0])] + Children(bpp, valStart, root, items[1..])
  }

  function Joined(cs: seq<Child>): seq<Byte> {
    if cs == [] then [] else cs[0].out + Joined(cs[1..])
  }

  lemma {:induction false} ChunksJoin(bpp: seq<Byte>, valStart: nat, root: seq<Byte>, items: seq<Tlv>)
    requires RootAt(bpp, valStart, root) && AllInPlace(root, items)
    ensures Flatten(Chunks(bpp, valStart, root, items)) == Joined(Children(bpp, valStart, root, items))
  {
    if items != [] {
      ChunksJoin(bpp, valStart, root, items[1..]);
      FlattenConcat(ChildChunks(bpp, valStart, root, items[0]), Chunks(bpp, valStart, root, items[1..]));
      JoinedHead(ChildOf(bpp, valStart, root, items[0]), Children(bpp, valStart, root, items[1..]));
    }
  }

  lemma {:induction false} JoinedHead(c: Child, rest: seq<Child>)
    ensures Joined([c] + rest) == c.out + Joined(rest)
  {
    assert ([c] + rest)[1..] == rest;
  }

  /** What is sent for a child, in terms of the root's bytes. */
  predicate IsOutput(bpp: seq<Byte>, valStart: nat, root: seq<Byte>, c: Child) {
    && c.t.start + 2 <= c.t.end <= |root| && valStart + |root| <= |bpp|
    && if c.t.tag == TAG_BPP_COMMAND then c.out == bpp[0..valStart + c.t.end] && !c.kept
       else if IsSent(c.t) then
         && Gives(c.out, root, c.t.start, c.t.end, c.kept) && c.out != [] && c.out[0] == root[c.t.start]
         && (IsWhole(c.t.tag) ==> c.kept)
       else c.out == [] && !c.kept
  }

  lemma ChildOutput(bpp: seq<Byte>, valStart: nat, root: seq<Byte>, t: Tlv)
    requires RootAt(bpp, valStart, root) && InPlace(root, t)
    ensures IsOutput(bpp, valStart, root, ChildOf(bpp, valStart, root, t))
  {
    if IsWhole(t.tag) {
      FlattenOne(root[t.start..t.end]);
    } else if IsSequence(t.tag) {
      SequenceChild(root, t, ChildOf(bpp, valStart, root, t).out);
    } else if t.tag == TAG_BPP_COMMAND {
      FlattenOne(bpp[0..valStart + t.end]);
    }
  }

  lemma SequenceChild(root: seq<Byte>, t: Tlv, out: seq<Byte>)
    requires InPlace(root, t) && out == Flatten(SequenceChunks(root[t.start..ValueStart(t)], t.value))
    ensures Gives(out, root, t.start, t.end, ReadTo(t.value) == |t.value|) && out != [] && out[0] == root[t.start]
  {
    SequenceOutput(root[t.start..ValueStart(t)], t.value);
    HeaderAndValue(root, t, ReadTo(t.value));
  }

  predicate AllKept(cs: seq<Child>) {
    cs == [] || (cs[0].kept && AllKept(cs[1..]))
  }

  predicate NoCommand(cs: seq<Child>) {
    cs == [] || (cs[0].t.tag != TAG_BPP_COMMAND && NoCommand(cs[1..]))
  }

  /** Where the children stop that start one after the other from `start`. */
  function ChildrenEnd(cs: seq<Child>, start: nat): nat {
    if cs == [] then start else ChildrenEnd(cs[1..], cs[0].t.end)
  }

  /** Children one after the other, each with what is sent for it. */
  predicate InOrder(bpp: seq<Byte>, valStart: nat, root: seq<Byte>, cs: seq<Child>, start: nat) {
    if cs == [] then start <= |root|
    else
      && cs[0].t.start == start && IsOutput(bpp, valStart, root, cs[0])
      && InOrder(bpp, valStart, root, cs[1..], cs[0].t.end)
  }

  /** The children of a run without BF23 add up to its bytes when each is kept, and to fewer otherwise. */
  lemma {:induction false} RunBytes(bpp: seq<Byte>, valStart: nat, root: seq<Byte>, cs: seq<Child>, start: nat)
    requires InOrder(bpp, valStart, root, cs, start) && NoCommand(cs)
    ensures Gives(Joined(cs), root, start, ChildrenEnd(cs, start), AllKept(cs))
  {
    if cs != [] {
      var c, rest := cs[0], cs[1..];
      RunBytes(bpp, valStart, root, rest, c.t.end);
      GivesConcat(c.out, Joined(rest), root, start, c.t.end, ChildrenEnd(rest, c.t.end), c.kept, AllKept(rest));
    }
  }

  // ----- Where the chunks are cut -----

  datatype Stretch = Stretch(start: nat, end: nat)

  function ElementStretches(at: nat, items: seq<Tlv>): seq<Stretch> {
    seq(|items|, k requires 0 <= k < |items| => Stretch(at + items[k].start, at + items[k].end))
  }

  function SequenceStretches(header: Stretch, value: seq<Byte>): seq<Stretch> {
    [header] + ElementStretches(header.end, Elements(value, 0))
  }

  /**
   Where in the package the chunks of a child lie: one for BF23, from the package's start on; one for A0 and A2; for A1
   and A3 one for the header and one for each element of the value; and none for any other.
   */
  function ChildStretches(valStart: nat, t: Tlv): seq<Stretch>
    requires |t.value| <= t.end
  {
    if t.tag == TAG_BPP_COMMAND then [Stretch(0, valStart + t.end)]
    else if IsWhole(t.tag) then [Stretch(valStart + t.start, valStart + t.end)]
    else if IsSequence(t.tag) then
      SequenceStretches(Stretch(valStart + t.start, valStart + ValueStart(t)), t.value)
    else []
  }

  function Stretches(valStart: nat, items: seq<Tlv>): seq<Stretch>
    requires forall i :: 0 <= i < |items| ==> |items[i].value| <= items[i].end
  {
    if items == [] then [] else ChildStretches(valStart, items[0]) + Stretches(valStart, items[1..])
  }

  predicate IsStretch(bpp: seq<Byte>, s: Stretch, chunk: seq<Byte>) {
    s.start <= s.end <= |bpp| && chunk == bpp[s.start..s.end]
  }

  /** The chunks are these stretches of the package, one for one. */
  predicate AreCut(bpp: seq<Byte>, stretches: seq<Stretch>, chunks: seq<seq<Byte>>) {
    && |chunks| == |stretches|
    && (chunks == [] || (IsStretch(bpp, stretches[0], chunks[0]) && AreCut(bpp, stretches[1..], chunks[1..])))
  }

  lemma {:induction false} CutsJoin(
    bpp: seq<Byte>, a: seq<Stretch>, x: seq<seq<Byte>>, b: seq<Stretch>, y: seq<seq<Byte>>)
    requires AreCut(bpp, a, x) && AreCut(bpp, b, y)
    ensures AreCut(bpp, a + b, x + y)
    decreases |x|
  {
    if x == [] {
      assert a + b == b && x + y == y;
    } else {
      assert (a + b)[1..] == a[1..] + b && (x + y)[1..] == x[1..] + y;
      CutsJoin(bpp, a[1..], x[1..], b, y);
    }
  }

  lemma {:induction false} CutAt(bpp: seq<Byte>, stretches: seq<Stretch>, chunks: seq<seq<Byte>>, k: nat)
    requires AreCut(bpp, stretches, chunks) && k < |chunks|
    ensures IsStretch(bpp, stretches[k], chunks[k])
  {
    if k > 0 {
      CutAt(bpp, stretches[1..], chunks[1..], k - 1);
    }
  }

  /** The elements of a value that lies at `at` in the package. */
  lemma {:induction false} PiecesAreCut(bpp: seq<Byte>, at: nat, value: seq<Byte>, items: seq<Tlv>)
    requires RootAt(bpp, at, value) && AllInPlace(value, items)
    ensures AreCut(bpp, ElementStretches(at, items), Pieces(value, items))
    decreases |items|
  {
    if items != [] {
      PiecesAreCut(bpp, at, value, items[1..]);
      InRoot(bpp, at, value, items[0].start, items[0].end);
      assert ElementStretches(at, items)[1..] == ElementStretches(at, items[1..]);
      assert Pieces(value, items)[1..] == Pieces(value, items[1..]);
    }
  }

  /** A header, and the elements of the value behind it. */
  lemma {:induction false} SequenceIsCut(bpp: seq<Byte>, s: Stretch, header: seq<Byte>, value: seq<Byte>)
    requires IsStretch(bpp, s, header) && RootAt(bpp, s.end, value)
    ensures AreCut(bpp, SequenceStretches(s, value), SequenceChunks(header, value))
  {
    var items := Elements(value, 0);
    ElementsInPlace(value, 0);
    PiecesAreCut(bpp, s.end, value, items);
    assert ([s] + ElementStretches(s.end, items))[1..] == ElementStretches(s.end, items);
    assert ([header] + Pieces(value, items))[1..] == Pieces(value, items);
  }

  lemma {:induction false} HeaderAndElementsAreCut(bpp: seq<Byte>, valStart: nat, root: seq<Byte>, t: Tlv)
    requires RootAt(bpp, valStart, root) && InPlace(root, t)
    ensures var s := Stretch(valStart + t.start, valStart + ValueStart(t));
            AreCut(bpp, SequenceStretches(s, t.value), SequenceChunks(root[t.start..ValueStart(t)], t.value))
  {
    InRoot(bpp, valStart, root, t.start, ValueStart(t));
    InRoot(bpp, valStart, root, ValueStart(t), t.end);
    var s, header := Stretch(valStart + t.start, valStart + ValueStart(t)), root[t.start..ValueStart(t)];
    SequenceIsCut(bpp, s, header, t.value);
  }

  lemma {:induction false} OneIsCut(bpp: seq<Byte>, s: Stretch, chunk: seq<Byte>)
    requires IsStretch(bpp, s, chunk)
    ensures AreCut(bpp, [s], [chunk])
  {
    assert [chunk][1..] == [] && [s][1..] == [];
  }

  lemma {:induction false} SequenceChildIsCut(bpp: seq<Byte>, valStart: nat, root: seq<Byte>, t: Tlv)
    requires RootAt(bpp, valStart, root) && InPlace(root, t) && IsSequence(t.tag)
    ensures AreCut(bpp, ChildStretches(valStart, t), ChildChunks(bpp, valStart, root, t))
  {
    HeaderAndElementsAreCut(bpp, valStart, root, t);
  }

  lemma {:induction false} WholeChildIsCut(bpp: seq<Byte>, valStart: nat, root: seq<Byte>, t: Tlv)
    requires RootAt(bpp, valStart, root) && InPlace(root, t) && IsWhole(t.tag)
    ensures AreCut(bpp, ChildStretches(valStart, t), ChildChunks(bpp, valStart, root, t))
  {
    InRoot(bpp, valStart, root, t.start, t.end);
    OneIsCut(bpp, Stretch(valStart + t.start, valStart + t.end), root[t.start..t.end]);
  }

  lemma {:induction false} ChildIsCut(bpp: seq<Byte>, valStart: nat, root: seq<Byte>, t: Tlv)
    requires RootAt(bpp, valStart, root) && InPlace(root, t)
    ensures AreCut(bpp, ChildStretches(valStart, t), ChildChunks(bpp, valStart, root, t))
  {
    if t.tag == TAG_BPP_COMMAND {
      OneIsCut(bpp, Stretch(0, valStart + t.end), bpp[0..valStart + t.end]);
    } else if IsWhole(t.tag) {
      WholeChildIsCut(bpp, valStart, root, t);
    } else if IsSequence(t.tag) {
      SequenceChildIsCut(bpp, valStart, root, t);
    }
  }

  lemma {:induction false} RunIsCut(bpp: seq<Byte>, valStart: nat, root: seq<Byte>, items: seq<Tlv>)
    requires RootAt(bpp, valStart, root) && AllInPlace(root, items)
    ensures AreCut(bpp, Stretches(valStart, items), Chunks(bpp, valStart, root, items))
    decreases |items|
  {
    if items != [] {
      RunIsCut(bpp, valStart, root, items[1..]);
      ChildIsCut(bpp, valStart, root, items[0]);
      CutsJoin(bpp, ChildStretches(valStart, items[0]), ChildChunks(bpp, valStart, root, items[0]),
               Stretches(valStart, items[1..]), Chunks(bpp, valStart, root, items[1..]));
    }
  }

  /** Every package is cut at the stated places, chunk by chunk. */
  lemma CutPlaces(bpp: seq<Byte>, root: Tlv)
    requires InPlace(bpp, root)
    ensures AllInPlace(root.value, Elements(root.value, 0))
    ensures var stretches := Stretches(ValueStart(root), Elements(root.value, 0));
            && |SplitAt(bpp, root)| == |stretches|
            && forall k :: 0 <= k < |stretches| ==> IsStretch(bpp, stretches[k], SplitAt(bpp, root)[k])
  {
    ElementsInPlace(root.value, 0);
    RunIsCut(bpp, ValueStart(root), root.value, Elements(root.value, 0));
    var stretches := Stretches(ValueStart(root), Elements(root.value, 0));
    forall k | 0 <= k < |stretches|
      ensures IsStretch(bpp, stretches[k], SplitAt(bpp, root)[k])
    {
      CutAt(bpp, stretches, SplitAt(bpp, root), k);
    }
  }

  /** How many chunks a child comes to. */
  function ChunkCount(t: Tlv): nat {
    if t.tag == TAG_BPP_COMMAND || IsWhole(t.tag) then 1
    else if IsSequence(t.tag) then 1 + |Elements(t.value, 0)|
    else 0
  }

  function ChunkCounts(items: seq<Tlv>): nat {
    if items == [] then 0 else ChunkCount(items[0]) + ChunkCounts(items[1..])
  }

  lemma {:induction false} StretchCount(valStart: nat, items: seq<Tlv>)
    requires forall i :: 0 <= i < |items| ==> |items[i].value| <= items[i].end
    ensures |Stretches(valStart, items)| == ChunkCounts(items)
  {
    if items != [] {
      StretchCount(valStart, items[1..]);
    }
  }

  /** The number of chunks is the sum over the root's children. */
  lemma CutCount(bpp: seq<Byte>, root: Tlv)
    requires InPlace(bpp, root)
    ensures |SplitAt(bpp, root)| == ChunkCounts(Elements(root.value, 0))
  {
    CutPlaces(bpp, root);
    StretchCount(ValueStart(root), Elements(root.value, 0));
  }

  // ----- Conservation -----

  /** What the first bytes of an element say about its tag. */
  predicate TagShows(data: seq<Byte>, t: Tlv)
    requires InPlace(data, t)
  {
    && (if t.tag <= 0xFF then data[t.start] == t.tag else data[t.start] % 0x20 == 0x1F)
    && (t.tag == TAG_BPP ==> data[t.start] == 0xBF && data[t.start + 1] == 0x36)
    && (t.tag == TAG_BPP_COMMAND ==> data[t.start] == 0xBF && data[t.start + 1] == 0x23)
  }

  lemma TagBytes(data: seq<Byte>, t: Tlv)
    requires IsElement(data, t)
    ensures InPlace(data, t) && TagShows(data, t)
  {
    ElementInPlace(data, t);
    var first: nat := data[t.start];
    if first % 0x20 == 0x1F {
      TagRestShape(data, t.start + 1, first);
      if data[t.start + 1] >= 0x80 {
        TagRestShape(data, t.start + 2, first * 0x100 + data[t.start + 1]);
      }
    }
  }

  /** A stretch of the package that does not start as the package does, up to its root's value. */
  predicate StartsElsewise(bpp: seq<Byte>, valStart: nat, at: nat) {
    valStart + at <= |bpp| ==> bpp[at..at + valStart] != bpp[..valStart]
  }

  /** The rest that conservation needs to know of a child. */
  predicate IsShown(bpp: seq<Byte>, valStart: nat, root: seq<Byte>, t: Tlv) {
    InPlace(root, t) && TagShows(root, t) && StartsElsewise(bpp, valStart, valStart + t.start)
  }

  predicate AllShown(bpp: seq<Byte>, valStart: nat, root: seq<Byte>, cs: seq<Child>) {
    cs == [] || (IsShown(bpp, valStart, root, cs[0].t) && AllShown(bpp, valStart, root, cs[1..]))
  }

  /** The package starts with its root's tag, and the root's value is at `valStart`. */
  predicate Leads(bpp: seq<Byte>, valStart: nat, root: seq<Byte>) {
    3 <= valStart && RootAt(bpp, valStart, root) && bpp[0] == 0xBF && bpp[1] == 0x36
  }

  /** Two elements whose headers start alike, the first with a two-byte tag and its header in full. */
  lemma SameHeader(a: seq<Byte>, t: Tlv, b: seq<Byte>, u: Tlv)
    requires IsElement(a, t) && t.start == 0 && t.tag == TAG_BPP && |t.value| <= t.end
    requires IsElement(b, u) && forall i :: 0 <= i < ValueStart(t) && u.start + i < |b| ==> b[u.start + i] == a[i]
    ensures |u.value| == |t.value|
  {
    TagBytes(a, t);
    ElementInPlace(b, u);
    assert b[u.start] == a[0] && b[u.start + 1] == a[1];
    assert TagAt(a, 0) == (TAG_BPP, 2) && TagAt(b, u.start) == (TAG_BPP, u.start + 2);
    assert b[u.start + 2] == a[2];
    if a[2] >= 0x80 {
      var n := a[2] - 0x80;
      assert b[u.start + 3..u.start + 3 + n] == a[3..3 + n];
    }
  }

  lemma CopiedBytes(bpp: seq<Byte>, v: nat, value: seq<Byte>, at: nat)
    requires RootAt(bpp, v, value) && v + at + v <= |bpp| && bpp[v + at..v + at + v] == bpp[..v]
    ensures forall i :: 0 <= i < v && at + i < |value| ==> value[at + i] == bpp[i]
  {
    forall i | 0 <= i < v && at + i < |value|
      ensures value[at + i] == bpp[i]
    {
      assert value[at + i] == bpp[v..v + |value|][at + i] == bpp[v + at + i];
      assert bpp[v + at + i] == bpp[v + at..v + at + v][i] == bpp[..v][i];
    }
  }

  lemma CopyIsAsLong(bpp: seq<Byte>, root: Tlv, t: Tlv)
    requires IsElement(bpp, root) && root.start == 0 && root.tag == TAG_BPP && |root.value| <= root.end
    requires IsElement(root.value, t) && RootAt(bpp, ValueStart(root), root.value)
    requires var v := ValueStart(root);
             v + t.start + v <= |bpp| && bpp[v + t.start..v + t.start + v] == bpp[..v]
    ensures |t.value| == |root.value|
  {
    CopiedBytes(bpp, ValueStart(root), root.value, t.start);
    SameHeader(bpp, root, root.value, t);
  }

  lemma ChildIsShorter(value: seq<Byte>, t: Tlv)
    requires IsElement(value, t)
    ensures |t.value| < |value|
  {
    ElementInPlace(value, t);
  }

  lemma ValueInPlace(bpp: seq<Byte>, root: Tlv)
    requires InPlace(bpp, root)
    ensures RootAt(bpp, ValueStart(root), root.value)
  {
  }

  /** No child's bytes start as the package does: it would be as long as the root it is in. */
  lemma ChildIsNotRoot(bpp: seq<Byte>, root: Tlv, t: Tlv)
    requires IsElement(bpp, root) && root.start == 0 && root.tag == TAG_BPP && InPlace(bpp, root)
    requires IsElement(root.value, t)
    ensures StartsElsewise(bpp, ValueStart(root), ValueStart(root) + t.start)
  {
    ChildIsShorter(root.value, t);
    ValueInPlace(bpp, root);
    if !StartsElsewise(bpp, ValueStart(root), ValueStart(root) + t.start) {
      CopyIsAsLong(bpp, root, t);
      assert false;
    }
  }

  /** What children send starts with the first byte of an A0..A3 child, or with the package up to its root's value. */
  predicate StartsAsSent(bpp: seq<Byte>, valStart: nat, out: seq<Byte>) {
    || out == [] || 0xA0 <= out[0] <= 0xA3
    || (valStart <= |out| && valStart <= |bpp| && out[..valStart] == bpp[..valStart])
  }

  /** What is sent for a child, and what tells it from what stands in the package from its start on. */
  predicate Behaves(bpp: seq<Byte>, valStart: nat, c: Child) {
    && c.t.start + 2 <= c.t.end && valStart + c.t.end <= |bpp|
    && var at := valStart + c.t.start;
       if c.t.tag == TAG_BPP_COMMAND then
         !c.kept && c.out == bpp[0..valStart + c.t.end] && bpp[at + 1] != bpp[1]
       else if IsSent(c.t) then
         && c.out != [] && 0xA0 <= c.out[0] <= 0xA3 && (IsWhole(c.t.tag) ==> c.kept)
         && (if c.kept then c.out == bpp[at..valStart + c.t.end] else |c.out| < c.t.end - c.t.start)
       else
         !c.kept && c.out == [] && !(0xA0 <= bpp[at] <= 0xA3) && StartsElsewise(bpp, valStart, at)
  }

  lemma ChildBehaves(bpp: seq<Byte>, valStart: nat, root: seq<Byte>, c: Child)
    requires Leads(bpp, valStart, root) && IsShown(bpp, valStart, root, c.t) && IsOutput(bpp, valStart, root, c)
    ensures Behaves(bpp, valStart, c)
  {
    var at := valStart + c.t.start;
    assert bpp[at] == bpp[valStart..valStart + |root|][c.t.start] == root[c.t.start];
    assert bpp[at + 1] == bpp[valStart..valStart + |root|][c.t.start + 1] == root[c.t.start + 1];
    if IsSent(c.t) {
      InRoot(bpp, valStart, root, c.t.start, c.t.end);
    }
  }

  /** Children one after the other from `start` on. */
  predicate AllBehave(bpp: seq<Byte>, valStart: nat, cs: seq<Child>, start: nat) {
    if cs == [] then valStart + start <= |bpp|
    else cs[0].t.start == start && Behaves(bpp, valStart, cs[0]) && AllBehave(bpp, valStart, cs[1..], cs[0].t.end)
  }

  lemma {:induction false} ChildrenBehave(
    bpp: seq<Byte>, valStart: nat, root: seq<Byte>, cs: seq<Child>, start: nat)
    requires Leads(bpp, valStart, root)
    requires InOrder(bpp, valStart, root, cs, start) && AllShown(bpp, valStart, root, cs)
    ensures AllBehave(bpp, valStart, cs, start)
  {
    if cs != [] {
      ChildBehaves(bpp, valStart, root, cs[0]);
      ChildrenBehave(bpp, valStart, root, cs[1..], cs[0].t.end);
    }
  }

  lemma {:induction false} SentStarts(bpp: seq<Byte>, valStart: nat, cs: seq<Child>, start: nat)
    requires AllBehave(bpp, valStart, cs, start)
    ensures StartsAsSent(bpp, valStart, Joined(cs))
  {
    if cs != [] {
      SentStarts(bpp, valStart, cs[1..], cs[0].t.end);
      assert [] + Joined(cs[1..]) == Joined(cs[1..]);
      if cs[0].t.tag == TAG_BPP_COMMAND {
        assert Joined(cs)[..valStart] == bpp[..valStart];
      }
    }
  }

  /** Without BF23 never more is sent than stands in the package. */
  lemma {:induction false} SentLength(bpp: seq<Byte>, valStart: nat, cs: seq<Child>, start: nat)
    requires AllBehave(bpp, valStart, cs, start) && NoCommand(cs)
    ensures start + |Joined(cs)| <= ChildrenEnd(cs, start) && valStart + ChildrenEnd(cs, start) <= |bpp|
  {
    if cs != [] {
      SentLength(bpp, valStart, cs[1..], cs[0].t.end);
    }
  }

  /** What is sent from a kept child on makes the rest of the package exactly if what comes after it does. */
  lemma KeptThenRest(s: seq<Byte>, i: nat, j: nat, more: seq<Byte>)
    requires i <= j <= |s|
    ensures s[i..j] + more == s[i..] <==> more == s[j..]
  {
    assert s[i..] == s[i..j] + s[j..];
    if s[i..j] + more == s[i..] {
      assert more == (s[i..j] + more)[j - i..];
    }
  }

  /** An A1 or A3 child whose own children stop short of its end is followed by no BF23. */
  predicate PartialsLast(cs: seq<Child>) {
    cs == [] || ((IsSequence(cs[0].t.tag) && !cs[0].kept ==> NoCommand(cs[1..])) && PartialsLast(cs[1..]))
  }

  /** A run of children that is all kept and reaches the end of the package. */
  predicate Completes(bpp: seq<Byte>, valStart: nat, cs: seq<Child>, start: nat) {
    NoCommand(cs) && AllKept(cs) && valStart + ChildrenEnd(cs, start) == |bpp|
  }

  /** A child in front of others, given what is known of all that is sent for the others: `more`. */
  lemma HeadExact(bpp: seq<Byte>, valStart: nat, c: Child, more: seq<Byte>)
    requires Behaves(bpp, valStart, c) && StartsAsSent(bpp, valStart, more)
    requires IsSequence(c.t.tag) && !c.kept ==> valStart + c.t.end + |more| <= |bpp|
    ensures c.out + more == bpp[valStart + c.t.start..] <==> c.kept && more == bpp[valStart + c.t.end..]
  {
    var there := bpp[valStart + c.t.start..];
    if c.t.tag == TAG_BPP_COMMAND {
      assert (c.out + more)[1] == bpp[1] && there[1] == bpp[valStart + c.t.start + 1];
    } else if !IsSent(c.t) {
      assert [] + more == more && there[0] == bpp[valStart + c.t.start];
      if valStart <= |there| {
        assert there[..valStart] == bpp[valStart + c.t.start..valStart + c.t.start + valStart];
      }
    } else if c.kept {
      KeptThenRest(bpp, valStart + c.t.start, valStart + c.t.end, more);
    } else {
      assert |c.out + more| < |there|;
    }
  }

  /** What is sent is all of the package from a place on. */
  predicate Remains(out: seq<Byte>, bpp: seq<Byte>, at: nat) {
    at <= |bpp| && out == bpp[at..]
  }

  lemma {:induction false} FirstExact(bpp: seq<Byte>, valStart: nat, c: Child, rest: seq<Child>)
    requires Behaves(bpp, valStart, c) && AllBehave(bpp, valStart, rest, c.t.end)
    requires IsSequence(c.t.tag) && !c.kept ==> NoCommand(rest)
    ensures Remains(c.out + Joined(rest), bpp, valStart + c.t.start)
      <==> c.kept && Remains(Joined(rest), bpp, valStart + c.t.end)
  {
    SentStarts(bpp, valStart, rest, c.t.end);
    if NoCommand(rest) {
      SentLength(bpp, valStart, rest, c.t.end);
    }
    HeadExact(bpp, valStart, c, Joined(rest));
  }

  lemma {:induction false} CompletesStep(bpp: seq<Byte>, valStart: nat, cs: seq<Child>, start: nat)
    requires AllBehave(bpp, valStart, cs, start) && cs != []
    ensures Completes(bpp, valStart, cs, start) <==> cs[0].kept && Completes(bpp, valStart, cs[1..], cs[0].t.end)
  {
  }

  /** After the first BF23, the children make the rest of the package exactly if all are kept and reach its end. */
  lemma {:induction false} SuffixExact(bpp: seq<Byte>, valStart: nat, cs: seq<Child>, start: nat)
    requires AllBehave(bpp, valStart, cs, start) && PartialsLast(cs)
    ensures Remains(Joined(cs), bpp, valStart + start) <==> Completes(bpp, valStart, cs, start)
  {
    if cs != [] {
      SuffixExact(bpp, valStart, cs[1..], cs[0].t.end);
      FirstExact(bpp, valStart, cs[0], cs[1..]);
      CompletesStep(bpp, valStart, cs, start);
    }
  }

  /** One BF23, nothing before it that is sent on its own, and nothing but kept children after it. */
  predicate WellFormed(cs: seq<Child>) {
    && cs != []
    && if cs[0].t.tag == TAG_BPP_COMMAND then NoCommand(cs[1..]) && AllKept(cs[1..])
       else !IsSent(cs[0].t) && WellFormed(cs[1..])
  }

  /**
   Where conservation is decided by the children's form: there is no BF23, or the first child that is sent is one and
   no other comes after it. With the root first, more: nothing matters after another child is sent, and other BF23 may
   come as long as none comes after an A1 or A3 child that stops short.
   */
  predicate IsDecided(cs: seq<Child>, first: bool) {
    || NoCommand(cs)
    || (if cs[0].t.tag == TAG_BPP_COMMAND then NoCommand(cs[1..]) || (first && PartialsLast(cs[1..]))
        else if IsSent(cs[0].t) then first
        else IsDecided(cs[1..], first))
  }

  lemma {:induction false} NoCommandFacts(cs: seq<Child>)
    requires NoCommand(cs)
    ensures PartialsLast(cs) && !WellFormed(cs)
  {
    if cs != [] {
      NoCommandFacts(cs[1..]);
    }
  }

  /** With one BF23, wherever the root is. */
  lemma {:induction false} OneExact(bpp: seq<Byte>, valStart: nat, root: seq<Byte>, cs: seq<Child>, start: nat)
    requires RootAt(bpp, valStart, root) && 0 < valStart
    requires InOrder(bpp, valStart, root, cs, start) && IsDecided(cs, false)
    ensures Joined(cs) == bpp <==> WellFormed(cs) && valStart + ChildrenEnd(cs, start) == |bpp|
  {
    if NoCommand(cs) {
      NoCommandFacts(cs);
      RunBytes(bpp, valStart, root, cs, start);
    } else if cs[0].t.tag == TAG_BPP_COMMAND {
      RunBytes(bpp, valStart, root, cs[1..], cs[0].t.end);
      AfterCommand(bpp, valStart, root, cs[0].t.end, ChildrenEnd(cs, start), Joined(cs[1..]), AllKept(cs[1..]));
    } else {
      OneExact(bpp, valStart, root, cs[1..], cs[0].t.end);
      assert [] + Joined(cs[1..]) == Joined(cs[1..]);
    }
  }

  lemma AfterCommand(
    bpp: seq<Byte>, valStart: nat, root: seq<Byte>, i: nat, j: nat, out: seq<Byte>, whole: bool)
    requires RootAt(bpp, valStart, root) && i <= |root| && Gives(out, root, i, j, whole)
    ensures bpp[0..valStart + i] + out == bpp <==> whole && valStart + j == |bpp|
  {
    assert bpp == bpp[0..valStart + i] + bpp[valStart + i..];
    if whole {
      InRoot(bpp, valStart, root, i, j);
    }
    if bpp[0..valStart + i] + out == bpp {
      assert out == bpp[valStart + i..];
    }
  }

  lemma {:induction false} WholeExact(bpp: seq<Byte>, valStart: nat, cs: seq<Child>, start: nat)
    requires AllBehave(bpp, valStart, cs, start) && IsDecided(cs, true) && |bpp| > 0 && bpp[0] == 0xBF
    ensures Joined(cs) == bpp <==> WellFormed(cs) && valStart + ChildrenEnd(cs, start) == |bpp|
  {
    if cs != [] {
      var c, rest := cs[0], cs[1..];
      if c.t.tag == TAG_BPP_COMMAND {
        if NoCommand(rest) {
          NoCommandFacts(rest);
        }
        SuffixExact(bpp, valStart, rest, c.t.end);
        KeptThenRest(bpp, 0, valStart + c.t.end, Joined(rest));
      } else if !IsSent(c.t) {
        WholeExact(bpp, valStart, rest, c.t.end);
        assert [] + Joined(rest) == Joined(rest);
      }
    }
  }

  /** The children of a root, as the parser reads them. */
  function RootChildren(bpp: seq<Byte>, root: Tlv): seq<Child>
    requires InPlace(bpp, root)
  {
    ElementsInPlace(root.value, 0);
    Children(bpp, ValueStart(root), root.value, Elements(root.value, 0))
  }

  lemma {:induction false} ChildrenInOrder(bpp: seq<Byte>, valStart: nat, root: seq<Byte>, items: seq<Tlv>, start: nat)
    requires RootAt(bpp, valStart, root) && start <= |root| && Tiles(root, items, start) && AllInPlace(root, items)
    ensures InOrder(bpp, valStart, root, Children(bpp, valStart, root, items), start)
    ensures ChildrenEnd(Children(bpp, valStart, root, items), start) == EndOf(items, start) <= |root|
    decreases |items|
  {
    if items != [] {
      ChildOutput(bpp, valStart, root, items[0]);
      ChildrenInOrder(bpp, valStart, root, items[1..], items[0].end);
      var rest := Children(bpp, valStart, root, items[1..]);
      assert Children(bpp, valStart, root, items)[1..] == rest;
    }
  }

  lemma {:induction false} ChildrenShown(bpp: seq<Byte>, valStart: nat, root: seq<Byte>, items: seq<Tlv>)
    requires RootAt(bpp, valStart, root) && AllInPlace(root, items)
    requires forall i :: 0 <= i < |items| ==> IsShown(bpp, valStart, root, items[i])
    ensures AllShown(bpp, valStart, root, Children(bpp, valStart, root, items))
    decreases |items|
  {
    if items != [] {
      assert IsShown(bpp, valStart, root, items[0]);
      ChildrenShown(bpp, valStart, root, items[1..]);
      assert Children(bpp, valStart, root, items)[1..] == Children(bpp, valStart, root, items[1..]);
    }
  }

  lemma ElementsShown(bpp: seq<Byte>, root: Tlv)
    requires root.start == 0 && IsElement(bpp, root) && root.tag == TAG_BPP
    ensures InPlace(bpp, root) && Leads(bpp, ValueStart(root), root.value)
    ensures forall i :: 0 <= i < |Elements(root.value, 0)| ==>
              IsShown(bpp, ValueStart(root), root.value, Elements(root.value, 0)[i])
  {
    TagBytes(bpp, root);
    ElementsInPlace(root.value, 0);
    var items := Elements(root.value, 0);
    forall i | 0 <= i < |items|
      ensures IsShown(bpp, ValueStart(root), root.value, items[i])
    {
      ElementShown(bpp, root, items[i]);
    }
  }

  lemma ElementShown(bpp: seq<Byte>, root: Tlv, t: Tlv)
    requires root.start == 0 && IsElement(bpp, root) && root.tag == TAG_BPP && InPlace(bpp, root)
    requires IsElement(root.value, t)
    ensures IsShown(bpp, ValueStart(root), root.value, t)
  {
    TagBytes(root.value, t);
    ChildIsNotRoot(bpp, root, t);
  }

  /**
   The chunks of a package add up to it exactly when it has one BF23, nothing before it is sent on its own, everything
   after it is an A0..A3 child read to its end, and root and package end with the last child. This is so for any number
   of BF23 and any place of the root, but for the packages whose form does not decide it.
   */
  lemma Conservation(bpp: seq<Byte>, root: Tlv)
    requires IsElement(bpp, root) && root.tag == TAG_BPP && InPlace(bpp, root)
    requires IsDecided(RootChildren(bpp, root), root.start == 0)
    ensures Flatten(SplitAt(bpp, root)) == bpp
      <==> WellFormed(RootChildren(bpp, root)) && ReadTo(root.value) == |root.value| && root.end == |bpp|
  {
    if root.start == 0 {
      LedConservation(bpp, root);
    } else {
      var valStart, items := ValueStart(root), Elements(root.value, 0);
      RootJoins(bpp, root);
      OneExact(bpp, valStart, root.value, RootChildren(bpp, root), 0);
    }
  }

  lemma LedConservation(bpp: seq<Byte>, root: Tlv)
    requires root.start == 0 && IsElement(bpp, root) && root.tag == TAG_BPP && InPlace(bpp, root)
    requires IsDecided(RootChildren(bpp, root), true)
    ensures Flatten(SplitAt(bpp, root)) == bpp
      <==> WellFormed(RootChildren(bpp, root)) && ReadTo(root.value) == |root.value| && root.end == |bpp|
  {
    var valStart, items := ValueStart(root), Elements(root.value, 0);
    RootJoins(bpp, root);
    ElementsShown(bpp, root);
    ChildrenShown(bpp, valStart, root.value, items);
    ChildrenBehave(bpp, valStart, root.value, RootChildren(bpp, root), 0);
    WholeExact(bpp, valStart, RootChildren(bpp, root), 0);
  }

  /** What the root's children send is what is sent, and they stop where the root's value can be read no further. */
  lemma {:induction false} RootJoins(bpp: seq<Byte>, root: Tlv)
    requires InPlace(bpp, root)
    ensures Flatten(SplitAt(bpp, root)) == Joined(RootChildren(bpp, root))
    ensures InOrder(bpp, ValueStart(root), root.value, RootChildren(bpp, root), 0)
    ensures ChildrenEnd(RootChildren(bpp, root), 0) == ReadTo(root.value) <= |root.value|
  {
    ElementsInPlace(root.value, 0);
    ElementsTile(root.value, 0);
    ChunksJoin(bpp, ValueStart(root), root.value, Elements(root.value, 0));
    ChildrenInOrder(bpp, ValueStart(root), root.value, Elements(root.value, 0), 0);
  }

  lemma {:induction false} WellFormedIsDecided(cs: seq<Child>, first: bool)
    requires WellFormed(cs)
    ensures IsDecided(cs, first)
  {
    if cs[0].t.tag != TAG_BPP_COMMAND {
      WellFormedIsDecided(cs[1..], first);
    }
  }

  /** A package of the right form is conserved, wherever its root is. */
  lemma WellFormedIsConserved(bpp: seq<Byte>, root: Tlv)
    requires IsElement(bpp, root) && root.tag == TAG_BPP && InPlace(bpp, root)
    requires WellFormed(RootChildren(bpp, root)) && ReadTo(root.value) == |root.value| && root.end == |bpp|
    ensures Flatten(SplitAt(bpp, root)) == bpp
  {
    WellFormedIsDecided(RootChildren(bpp, root), root.start == 0);
    Conservation(bpp, root);
  }

  /** Without a BF23 child the chunks never add up to the package, wherever its root is. */
  lemma NothingWithoutCommand(bpp: seq<Byte>, root: Tlv)
    requires InPlace(bpp, root) && NoCommand(RootChildren(bpp, root))
    ensures |Flatten(SplitAt(bpp, root))| < |bpp|
  {
    RootJoins(bpp, root);
    RunLength(bpp, ValueStart(root), root.value, RootChildren(bpp, root));
  }

  lemma {:induction false} RunLength(bpp: seq<Byte>, valStart: nat, root: seq<Byte>, cs: seq<Child>)
    requires InOrder(bpp, valStart, root, cs, 0) && NoCommand(cs)
    ensures |Joined(cs)| <= |root|
  {
    RunBytes(bpp, valStart, root, cs, 0);
  }

  /** The split of a package that starts with its root is the split at that root. */
  lemma FirstIsRoot(bpp: seq<Byte>, root: Tlv)
    requires root.start == 0 && IsElement(bpp, root) && root.tag == TAG_BPP
    ensures InPlace(bpp, root) && Split(bpp) == Some(SplitAt(bpp, root))
  {
    ElementInPlace(bpp, root);
    ElementsStep(bpp, 0, root);
  }

  // ----- Packages made by the encoder -----

  ghost predicate AreFields(fields: seq<Field>) {
    forall f :: f in fields ==> IsField(f)
  }

  /** A child that is kept as made: an A0 or A2, or an A1 or A3 around encoded fields. */
  ghost predicate IsMadeToKeep(f: Field) {
    || IsWhole(f.tag)
    || (IsSequence(f.tag) && exists inner: seq<Field> :: AreFields(inner) && f.value == EncodeAll(inner))
  }

  ghost predicate IsEncodable(fields: seq<Field>) {
    AreFields(fields) && |EncodeAll(fields)| <= PY_SSIZE_MAX
  }

  function Package(fields: seq<Field>): seq<Byte>
    requires IsEncodable(fields)
  {
    EncodeTlv(TAG_BPP, EncodeAll(fields))
  }

  lemma {:induction false} ParsesAll(fields: seq<Field>)
    requires AreFields(fields)
    ensures Reads(EncodeAll(fields), 0, fields)
  {
    assert EncodeAll(fields) == [] + EncodeAll(fields);
    ListRoundTrip(EncodeAll(fields), [], fields);
  }

  lemma MadeIsKept(f: Field, t: Tlv)
    requires IsMadeToKeep(f) && t.tag == f.tag && t.value == f.value
    ensures IsKept(t)
  {
    if !IsWhole(f.tag) {
      var inner: seq<Field> :| AreFields(inner) && f.value == EncodeAll(inner);
      ParsesAll(inner);
    }
  }

  lemma {:induction false} MadeAreKept(
    bpp: seq<Byte>, valStart: nat, root: seq<Byte>, items: seq<Tlv>, fields: seq<Field>)
    requires RootAt(bpp, valStart, root) && AllInPlace(root, items)
    requires FieldsOf(items) == fields && forall i :: 0 <= i < |fields| ==> IsMadeToKeep(fields[i])
    ensures NoCommand(Children(bpp, valStart, root, items)) && AllKept(Children(bpp, valStart, root, items))
    decreases |items|
  {
    if items != [] {
      assert FieldsOf(items)[0] == fields[0];
      MadeIsKept(fields[0], items[0]);
      assert FieldsOf(items[1..]) == fields[1..];
      MadeAreKept(bpp, valStart, root, items[1..], fields[1..]);
      assert Children(bpp, valStart, root, items)[1..] == Children(bpp, valStart, root, items[1..]);
    }
  }

  lemma PackageRoot(fields: seq<Field>) returns (root: Tlv)
    requires IsEncodable(fields)
    ensures root.start == 0 && IsElement(Package(fields), root) && root.tag == TAG_BPP && root.end == |Package(fields)|
    ensures root.value == EncodeAll(fields) && Reads(root.value, 0, fields) && InPlace(Package(fields), root)
  {
    root := PackageElement(fields);
    ParsesAll(fields);
  }

  lemma PackageElement(fields: seq<Field>) returns (root: Tlv)
    requires IsEncodable(fields)
    ensures root.start == 0 && IsElement(Package(fields), root) && root.tag == TAG_BPP && root.end == |Package(fields)|
    ensures root.value == EncodeAll(fields) && InPlace(Package(fields), root)
  {
    EncodedElement(TAG_BPP, EncodeAll(fields));
    root := Tlv(TAG_BPP, EncodeAll(fields), 0, |Package(fields)|);
    ElementInPlace(Package(fields), root);
  }

  /** A package that is its root, which reads to its end as the given fields, with BF23 first. */
  ghost predicate IsLed(bpp: seq<Byte>, root: Tlv, fields: seq<Field>) {
    && root.start == 0 && IsElement(bpp, root) && root.tag == TAG_BPP && InPlace(bpp, root) && root.end == |bpp|
    && Reads(root.value, 0, fields) && fields != [] && fields[0].tag == TAG_BPP_COMMAND
  }

  /** The children after the first. */
  function LaterChildren(bpp: seq<Byte>, root: Tlv): seq<Child>
    requires InPlace(bpp, root) && Elements(root.value, 0) != []
  {
    ElementsInPlace(root.value, 0);
    Children(bpp, ValueStart(root), root.value, Elements(root.value, 0)[1..])
  }

  /** Such a package without another BF23 is conserved exactly if what follows is all kept. */
  lemma LedByCommand(bpp: seq<Byte>, root: Tlv, fields: seq<Field>)
    requires IsLed(bpp, root, fields) && Elements(root.value, 0) != [] && NoCommand(LaterChildren(bpp, root))
    ensures Split(bpp).Some?
    ensures Flatten(Split(bpp).value) == bpp <==> AllKept(LaterChildren(bpp, root))
  {
    ElementsInPlace(root.value, 0);
    var items := Elements(root.value, 0);
    assert FieldsOf(items)[0] == fields[0];
    var rest := LaterChildren(bpp, root);
    RootChildrenStep(bpp, root);
    Conservation(bpp, root);
    FirstIsRoot(bpp, root);
  }

  lemma RootChildrenStep(bpp: seq<Byte>, root: Tlv)
    requires InPlace(bpp, root) && Elements(root.value, 0) != []
    ensures RootChildren(bpp, root) != [] && RootChildren(bpp, root)[1..] == LaterChildren(bpp, root)
    ensures RootChildren(bpp, root)[0].t == Elements(root.value, 0)[0]
  {
  }

  lemma {:induction false} FieldsOfTail(items: seq<Tlv>)
    ensures |FieldsOf(items)| == |items|
    ensures items != [] ==> FieldsOf(items[1..]) == FieldsOf(items)[1..]
  {
    if items != [] {
      FieldsOfTail(items[1..]);
    }
  }

  lemma LedAndKept(bpp: seq<Byte>, root: Tlv, fields: seq<Field>)
    requires IsLed(bpp, root, fields) && forall i :: 1 <= i < |fields| ==> IsMadeToKeep(fields[i])
    ensures Split(bpp).Some? && Flatten(Split(bpp).value) == bpp
  {
    LaterAreKept(bpp, root, fields);
    LedByCommand(bpp, root, fields);
  }

  lemma LaterAreKept(bpp: seq<Byte>, root: Tlv, fields: seq<Field>)
    requires InPlace(bpp, root) && FieldsOf(Elements(root.value, 0)) == fields && fields != []
    requires forall i :: 1 <= i < |fields| ==> IsMadeToKeep(fields[i])
    ensures Elements(root.value, 0) != []
    ensures NoCommand(LaterChildren(bpp, root)) && AllKept(LaterChildren(bpp, root))
  {
    ElementsInPlace(root.value, 0);
    var items := Elements(root.value, 0);
    FieldsOfTail(items);
    ValueInPlace(bpp, root);
    var rest := fields[1..];
    assert forall i :: 0 <= i < |rest| ==> IsMadeToKeep(rest[i]);
    MadeAreKept(bpp, ValueStart(root), root.value, items[1..], rest);
  }

  lemma LedAndLost(bpp: seq<Byte>, root: Tlv, fields: seq<Field>)
    requires IsLed(bpp, root, fields) && |fields| == 2 && fields[1].tag != TAG_BPP_COMMAND
    requires !IsWhole(fields[1].tag) && !IsSequence(fields[1].tag)
    ensures Split(bpp).Some? && Flatten(Split(bpp).value) != bpp
  {
    ElementsInPlace(root.value, 0);
    var items := Elements(root.value, 0);
    TwoFields(items);
    SecondChild(bpp, root);
    LedByCommand(bpp, root, fields);
  }

  lemma {:induction false} TwoFields(items: seq<Tlv>)
    requires |FieldsOf(items)| == 2
    ensures |items| == 2 && FieldsOf(items)[1].tag == items[1].tag
  {
    FieldsOfTail(items);
    assert FieldsOf(items[1..])[0] == FieldsOf(items)[1];
  }

  lemma {:induction false} SecondChild(bpp: seq<Byte>, root: Tlv)
    requires InPlace(bpp, root) && |Elements(root.value, 0)| == 2
    ensures var rest := LaterChildren(bpp, root);
            |rest| == 1 && rest[0].t == Elements(root.value, 0)[1] && rest[1..] == []
  {
    var items := Elements(root.value, 0);
    assert items[1..][0] == items[1] && items[1..][1..] == [];
  }

  /** BF23 and then any A0..A3 fields, encoded into a package: its chunks add up to it. */
  lemma MadePackageIsConserved(fields: seq<Field>)
    requires IsEncodable(fields) && fields != [] && fields[0].tag == TAG_BPP_COMMAND
    requires forall i :: 1 <= i < |fields| ==> IsMadeToKeep(fields[i])
    ensures Split(Package(fields)).Some? && Flatten(Split(Package(fields)).value) == Package(fields)
  {
    var root := PackageRoot(fields);
    LedAndKept(Package(fields), root, fields);
  }

  /** A field of any other tag after BF23 is lost. */
  lemma OtherFieldIsLost(command: Field, other: Field)
    requires command.tag == TAG_BPP_COMMAND && other.tag != TAG_BPP_COMMAND
    requires !IsWhole(other.tag) && !IsSequence(other.tag) && IsEncodable([command, other])
    ensures Split(Package([command, other])).Some?
    ensures Flatten(Split(Package([command, other])).value) != Package([command, other])
  {
    var root := PackageRoot([command, other]);
    LedAndLost(Package([command, other]), root, [command, other]);
  }

  // ----- The chunks of packages made by the encoder -----

  function EncodeHead(tag: nat, size: nat): seq<Byte>
    requires size <= PY_SSIZE_MAX
  {
    EncodeTag(tag) + EncodeLength(size)
  }

  /** The encoder's bytes stand where the element was read. */
  predicate IsEncoded(data: seq<Byte>, t: Tlv) {
    InPlace(data, t) && |t.value| <= PY_SSIZE_MAX && data[t.start..t.end] == EncodeTlv(t.tag, t.value)
  }

  lemma MadeFirst(data: seq<Byte>, prefix: seq<Byte>, f: Field, rest: seq<Byte>) returns (t: Tlv)
    requires IsField(f) && data == prefix + EncodeTlv(f.tag, f.value) + rest
    ensures t.tag == f.tag && t.value == f.value && t.start == |prefix|
    ensures t.end == |prefix + EncodeTlv(f.tag, f.value)| <= |data|
    ensures IsEncoded(data, t) && Elements(data, |prefix|) == [t] + Elements(data, t.end)
  {
    t := EncodedInPlace(data, prefix, f, rest);
    assert data[t.start..t.end] == EncodeTlv(f.tag, f.value);
    ElementInPlace(data, t);
    ElementsStep(data, |prefix|, t);
  }

  lemma FrontOfSlice<T>(data: seq<T>, i: nat, j: nat, k: nat, front: seq<T>, back: seq<T>)
    requires i <= j <= k <= |data| && data[i..k] == front + back && k - j == |back|
    ensures data[i..j] == front
  {
    assert data[i..j] == data[i..k][..j - i] && (front + back)[..|front|] == front;
  }

  lemma HeadOfEncoded(data: seq<Byte>, t: Tlv)
    requires IsEncoded(data, t)
    ensures data[t.start..ValueStart(t)] == EncodeHead(t.tag, |t.value|)
  {
    FrontOfSlice(data, t.start, ValueStart(t), t.end, EncodeHead(t.tag, |t.value|), t.value);
  }

  ghost function EncodeEach(fields: seq<Field>): seq<seq<Byte>>
    requires AreFields(fields)
  {
    if fields == [] then []
    else
      assert IsField(fields[0]);
      [EncodeTlv(fields[0].tag, fields[0].value)] + EncodeEach(fields[1..])
  }

  /** The elements of a value made of fields, from the end of some prefix on, are the fields' encodings. */
  lemma {:induction false} PiecesAreEncoded(data: seq<Byte>, prefix: seq<Byte>, fields: seq<Field>)
    requires AreFields(fields) && data == prefix + EncodeAll(fields)
    ensures AllInPlace(data, Elements(data, |prefix|))
    ensures Pieces(data, Elements(data, |prefix|)) == EncodeEach(fields)
    decreases |fields|
  {
    ElementsInPlace(data, |prefix|);
    if fields != [] {
      assert IsField(fields[0]);
      var s, rest := EncodeTlv(fields[0].tag, fields[0].value), EncodeAll(fields[1..]);
      ConcatAssociates(prefix, s, rest);
      var t := MadeFirst(data, prefix, fields[0], rest);
      PiecesAreEncoded(data, prefix + s, fields[1..]);
      PiecesCons(data, t, Elements(data, t.end));
    }
  }

  lemma {:induction false} PiecesCons(value: seq<Byte>, t: Tlv, items: seq<Tlv>)
    requires InPlace(value, t) && AllInPlace(value, items)
    ensures AllInPlace(value, [t] + items)
    ensures Pieces(value, [t] + items) == [value[t.start..t.end]] + Pieces(value, items)
  {
    assert ([t] + items)[1..] == items;
  }

  lemma {:induction false} EncodedSequence(header: seq<Byte>, inner: seq<Field>)
    requires IsEncodable(inner)
    ensures SequenceChunks(header, EncodeAll(inner)) == [header] + EncodeEach(inner)
  {
    assert EncodeAll(inner) == [] + EncodeAll(inner);
    PiecesAreEncoded(EncodeAll(inner), [], inner);
  }

  /** A child of a made root: BF23, an A0 or A2, an A1 or A3 around fields of its own, or any other. */
  datatype Part =
    | Command(value: seq<Byte>)
    | Whole(tag: nat, value: seq<Byte>)
    | Sequence(tag: nat, inner: seq<Field>)
    | Other(tag: nat, value: seq<Byte>)

  ghost predicate IsPart(p: Part) {
    match p
    case Command(value) => |value| <= PY_SSIZE_MAX
    case Whole(tag, value) => IsWhole(tag) && |value| <= PY_SSIZE_MAX
    case Sequence(tag, inner) => IsSequence(tag) && IsEncodable(inner)
    case Other(tag, value) =>
      IsTag(tag) && tag != TAG_BPP_COMMAND && !IsWhole(tag) && !IsSequence(tag) && |value| <= PY_SSIZE_MAX
  }

  ghost function FieldOf(p: Part): (f: Field)
    requires IsPart(p)
    ensures IsField(f)
  {
    match p
    case Command(value) => Field(TAG_BPP_COMMAND, value)
    case Whole(tag, value) => Field(tag, value)
    case Sequence(tag, inner) => Field(tag, EncodeAll(inner))
    case Other(tag, value) => Field(tag, value)
  }

  ghost function EncodePart(p: Part): seq<Byte>
    requires IsPart(p)
  {
    EncodeTlv(FieldOf(p).tag, FieldOf(p).value)
  }

  /** What is sent for a part, in the encoder's terms; `before` is all of the package in front of it. */
  ghost function PartChunks(before: seq<Byte>, p: Part): seq<seq<Byte>>
    requires IsPart(p)
  {
    match p
    case Command(value) => [before + EncodePart(p)]
    case Whole(tag, value) => [EncodeTlv(tag, value)]
    case Sequence(tag, inner) => [EncodeHead(tag, |EncodeAll(inner)|)] + EncodeEach(inner)
    case Other(tag, value) => []
  }

  ghost predicate AreParts(parts: seq<Part>) {
    parts == [] || (IsPart(parts[0]) && AreParts(parts[1..]))
  }

  ghost function EncodeParts(parts: seq<Part>): seq<Byte>
    requires AreParts(parts)
  {
    if parts == [] then [] else EncodePart(parts[0]) + EncodeParts(parts[1..])
  }

  ghost function AllPartChunks(before: seq<Byte>, parts: seq<Part>): seq<seq<Byte>>
    requires AreParts(parts)
    decreases |parts|
  {
    if parts == [] then []
    else PartChunks(before, parts[0]) + AllPartChunks(before + EncodePart(parts[0]), parts[1..])
  }

  lemma PartIsSent(bpp: seq<Byte>, valStart: nat, root: seq<Byte>, t: Tlv, p: Part, before: seq<Byte>)
    requires RootAt(bpp, valStart, root) && IsEncoded(root, t) && IsPart(p) && Field(t.tag, t.value) == FieldOf(p)
    requires bpp[0..valStart + t.end] == before + EncodePart(p)
    ensures ChildChunks(bpp, valStart, root, t) == PartChunks(before, p)
  {
    match p
    case Command(value) =>
    case Whole(tag, value) =>
    case Sequence(tag, inner) =>
      HeadOfEncoded(root, t);
      EncodedSequence(root[t.start..ValueStart(t)], inner);
    case Other(tag, value) =>
  }

  /** All of a package in front of the part after `s`. */
  lemma Forward(bpp: seq<Byte>, valStart: nat, root: seq<Byte>, prefix: seq<Byte>, s: seq<Byte>, rest: seq<Byte>)
    requires RootAt(bpp, valStart, root) && root == prefix + s + rest
    ensures bpp[..valStart] + prefix + s == bpp[0..valStart + |prefix + s|]
    ensures bpp[..valStart] + (prefix + s) == bpp[..valStart] + prefix + s
  {
    assert root[..|prefix + s|] == prefix + s;
    InRoot(bpp, valStart, root, 0, |prefix + s|);
    assert bpp[..valStart] + bpp[valStart..valStart + |prefix + s|] == bpp[0..valStart + |prefix + s|];
    ConcatAssociates(bpp[..valStart], prefix, s);
  }

  /** The parts of a root, from the end of some prefix on. */
  lemma {:induction false} PartsAreSent(
    bpp: seq<Byte>, valStart: nat, root: seq<Byte>, prefix: seq<Byte>, parts: seq<Part>)
    requires RootAt(bpp, valStart, root) && AreParts(parts) && root == prefix + EncodeParts(parts)
    ensures AllInPlace(root, Elements(root, |prefix|))
    ensures Chunks(bpp, valStart, root, Elements(root, |prefix|)) == AllPartChunks(bpp[..valStart] + prefix, parts)
    decreases |parts|
  {
    ElementsInPlace(root, |prefix|);
    if parts != [] {
      var s, rest := EncodePart(parts[0]), EncodeParts(parts[1..]);
      ConcatAssociates(prefix, s, rest);
      var t := MadeFirst(root, prefix, FieldOf(parts[0]), rest);
      PartsAreSent(bpp, valStart, root, prefix + s, parts[1..]);
      Forward(bpp, valStart, root, prefix, s, rest);
      PartIsSent(bpp, valStart, root, t, parts[0], bpp[..valStart] + prefix);
      ChunksCons(bpp, valStart, root, t, Elements(root, t.end));
    }
  }

  /**
   The chunks of every package the encoder makes, in the encoder's terms: each BF23 with all that is in front of it,
   each A0 and A2 as made, each A1 and A3 as its head and then its fields one by one, and nothing for any other.
   */
  lemma {:induction false} MadePackageChunks(parts: seq<Part>, value: seq<Byte>)
    requires AreParts(parts) && value == EncodeParts(parts) && |value| <= PY_SSIZE_MAX
    ensures Split(EncodeTlv(TAG_BPP, value)) == Some(AllPartChunks(EncodeHead(TAG_BPP, |value|), parts))
  {
    var bpp, head := EncodeTlv(TAG_BPP, value), EncodeHead(TAG_BPP, |value|);
    MadeRoot(bpp, value);
    assert [] + value == value && bpp[..|head|] + [] == head;
    PartsAreSent(bpp, |head|, value, [], parts);
  }

  lemma {:induction false} MadeRoot(bpp: seq<Byte>, value: seq<Byte>)
    requires |value| <= PY_SSIZE_MAX && bpp == EncodeTlv(TAG_BPP, value)
    ensures var valStart := |EncodeHead(TAG_BPP, |value|)|;
            && RootAt(bpp, valStart, value) && AllInPlace(value, Elements(value, 0))
            && Split(bpp) == Some(Chunks(bpp, valStart, value, Elements(value, 0)))
  {
    EncodedElement(TAG_BPP, value);
    var root := Tlv(TAG_BPP, value, 0, |bpp|);
    FirstIsRoot(bpp, root);
    ElementsInPlace(value, 0);
  }

  // ----- Packages whose form does not decide it -----

  lemma TwoByteTagElement(data: seq<Byte>, at: nat)
    requires at + 3 <= |data| && data[at] % 0x20 == 0x1F && data[at + 1] < 0x80 && data[at + 2] < 0x80
    ensures var first: nat, end: nat := data[at], at + 3 + data[at + 2];
            ElementAt(data, at) == if end > |data| then None
                                   else Some(Tlv(first * 0x100 + data[at + 1], data[at + 3..end], at, end))
  {
    assert TagAt(data, at).1 == at + 2;
  }

  lemma OneByteTagElement(data: seq<Byte>, at: nat)
    requires at + 2 <= |data| && data[at] % 0x20 != 0x1F && data[at + 1] < 0x80
    ensures var end := at + 2 + data[at + 1];
            ElementAt(data, at) == if end > |data| then None else Some(Tlv(data[at], data[at + 2..end], at, end))
  {
  }

  lemma {:induction false} ElementsEnd(data: seq<Byte>, t: Tlv)
    requires IsElement(data, t) && t.end == |data|
    ensures Elements(data, t.start) == [t]
  {
    ElementsStep(data, t.start, t);
  }

  /** The value of a root with BF23, an A1 that stops short at once, and BF23 again. */
  function RepeatedValue(): seq<Byte> {
    [0xBF, 0x23, 0x00, 0xA1, 0x03, 0xBF, 0x36, 0x0B, 0xBF, 0x23, 0x00]
  }

  const REPEATED := [
    Tlv(TAG_BPP_COMMAND, [], 0, 3), Tlv(0xA1, [0xBF, 0x36, 0x0B], 3, 8), Tlv(TAG_BPP_COMMAND, [], 8, 11)]

  lemma RepeatedElements()
    ensures Elements(RepeatedValue(), 0) == REPEATED
  {
    var v := RepeatedValue();
    TwoByteTagElement(v, 0);
    OneByteTagElement(v, 3);
    TwoByteTagElement(v, 8);
    assert v[3..3] == [] && v[5..8] == [0xBF, 0x36, 0x0B] && v[11..11] == [];
    ElementsEnd(v, REPEATED[2]);
    ElementsStep(v, 3, REPEATED[1]);
    ElementsStep(v, 0, REPEATED[0]);
  }

  /** Its header looks like an element that does not fit. */
  lemma {:induction false} HeaderIsNoElement(s: seq<Byte>)
    requires s == [0xBF, 0x36, 0x0B]
    ensures Elements(s, 0) == []
  {
    TwoByteTagElement(s, 0);
  }

  lemma {:induction false} ChunksCons(bpp: seq<Byte>, valStart: nat, root: seq<Byte>, t: Tlv, rest: seq<Tlv>)
    requires RootAt(bpp, valStart, root) && AllInPlace(root, [t] + rest) && AllInPlace(root, rest)
    ensures InPlace(root, t)
    ensures Chunks(bpp, valStart, root, [t] + rest)
         == ChildChunks(bpp, valStart, root, t) + Chunks(bpp, valStart, root, rest)
  {
    assert ([t] + rest)[0] == t && ([t] + rest)[1..] == rest;
  }

  lemma {:induction false} ThreeSent(bpp: seq<Byte>, valStart: nat, root: seq<Byte>, a: Tlv, b: Tlv, c: Tlv)
    requires RootAt(bpp, valStart, root) && InPlace(root, a) && InPlace(root, b) && InPlace(root, c)
    requires a.tag == c.tag == TAG_BPP_COMMAND && IsSequence(b.tag) && Elements(b.value, 0) == []
    ensures AllInPlace(root, [a, b, c])
    ensures Chunks(bpp, valStart, root, [a, b, c])
         == [bpp[0..valStart + a.end], root[b.start..ValueStart(b)], bpp[0..valStart + c.end]]
  {
    assert [c] + [] == [c] && [b] + [c] == [b, c] && [a] + [b, c] == [a, b, c];
    ChunksCons(bpp, valStart, root, c, []);
    ChunksCons(bpp, valStart, root, b, [c]);
    ChunksCons(bpp, valStart, root, a, [b, c]);
  }

  lemma {:induction false} SentForRepeated(bpp: seq<Byte>)
    requires RootAt(bpp, 3, RepeatedValue())
    ensures AllInPlace(RepeatedValue(), REPEATED)
    ensures Chunks(bpp, 3, RepeatedValue(), REPEATED) == [bpp[0..6], [0xA1, 0x03], bpp[0..14]]
  {
    var v, a, b, c := RepeatedValue(), REPEATED[0], REPEATED[1], REPEATED[2];
    HeaderIsNoElement(b.value);
    assert v[3..3] == [] && v[5..8] == b.value && v[11..11] == [] && v[3..5] == [0xA1, 0x03];
    ThreeSent(bpp, 3, v, a, b, c);
    assert REPEATED == [a, b, c];
  }

  lemma {:induction false} SecondCommand(cs: seq<Child>)
    requires |cs| >= 2 && cs[0].t.tag == TAG_BPP_COMMAND && cs[|cs| - 1].t.tag == TAG_BPP_COMMAND
    ensures !WellFormed(cs)
  {
    LastIsCommand(cs[1..]);
  }

  lemma {:induction false} LastIsCommand(cs: seq<Child>)
    requires cs != [] && cs[|cs| - 1].t.tag == TAG_BPP_COMMAND
    ensures !NoCommand(cs)
  {
    if |cs| > 1 {
      LastIsCommand(cs[1..]);
    }
  }

  function RepeatedPackage(): seq<Byte> {
    [0xBF, 0x36, 0x0B] + RepeatedValue() + [0xA1, 0x03, 0xBF, 0x36, 0x0B, 0xBF, 0x23, 0x00]
  }

  lemma RepeatedRoot(bpp: seq<Byte>, root: Tlv)
    requires bpp == RepeatedPackage() && root == Tlv(TAG_BPP, RepeatedValue(), 0, 14)
    ensures IsElement(bpp, root) && RootAt(bpp, 3, RepeatedValue())
  {
    assert bpp[3..14] == RepeatedValue();
    TwoByteTagElement(bpp, 0);
  }

  lemma RepeatedBytes(bpp: seq<Byte>)
    requires bpp == RepeatedPackage()
    ensures |bpp| == 22 && bpp[0..6] + [0xA1, 0x03] + bpp[0..14] == bpp
  {
  }

  /**
   A package that starts with its root and whose chunks add up to it, although it has two BF23. The A1 between them
   stops short at bytes that look like the package's own header, and the package goes on after its root as it began.
   */
  lemma RepetitionIsConserved() returns (bpp: seq<Byte>, root: Tlv)
    ensures root.start == 0 && IsElement(bpp, root) && root.tag == TAG_BPP && InPlace(bpp, root)
    ensures Flatten(SplitAt(bpp, root)) == bpp && !WellFormed(RootChildren(bpp, root))
  {
    bpp := RepeatedPackage();
    root := Tlv(TAG_BPP, RepeatedValue(), 0, 14);
    RepeatedRoot(bpp, root);
    RepeatedBytes(bpp);
    RepeatedElements();
    SentForRepeated(bpp);
    FlattenThree(bpp[0..6], [0xA1, 0x03], bpp[0..14]);
    ChildrenTags(bpp, 3, RepeatedValue(), REPEATED);
    SecondCommand(RootChildren(bpp, root));
  }

  lemma {:induction false} ChildrenTags(bpp: seq<Byte>, valStart: nat, root: seq<Byte>, items: seq<Tlv>)
    requires RootAt(bpp, valStart, root) && AllInPlace(root, items)
    ensures forall i :: 0 <= i < |items| ==> Children(bpp, valStart, root, items)[i].t == items[i]
  {
    if items != [] {
      ChildrenTags(bpp, valStart, root, items[1..]);
    }
  }

  lemma FlattenTwo<T>(a: seq<T>, b: seq<T>)
    ensures Flatten([a, b]) == a + b
  {
    FlattenOneMore([a], b);
    FlattenOne(a);
    assert [a, b] == [a] + [b];
  }

  lemma FlattenThree<T>(a: seq<T>, b: seq<T>, c: seq<T>)
    ensures Flatten([a, b, c]) == a + b + c
  {
    FlattenTwo(a, b);
    FlattenOneMore([a, b], c);
    assert [a, b, c] == [a, b] + [c];
  }

  // With the root not first, a BF23 in front of it may look like one inside it.

  function TwiceValue(): seq<Byte> {
    [0xBF, 0x23, 0x00, 0xBF, 0x23, 0x00]
  }

  const TWICE := [Tlv(TAG_BPP_COMMAND, [], 0, 3), Tlv(TAG_BPP_COMMAND, [], 3, 6)]

  lemma TwiceElements()
    ensures Elements(TwiceValue(), 0) == TWICE
  {
    var v := TwiceValue();
    TwoByteTagElement(v, 0);
    TwoByteTagElement(v, 3);
    assert v[3..3] == [] && v[6..6] == [];
    ElementsEnd(v, TWICE[1]);
    ElementsStep(v, 0, TWICE[0]);
  }

  lemma {:induction false} SentForTwice(bpp: seq<Byte>)
    requires RootAt(bpp, 6, TwiceValue())
    ensures AllInPlace(TwiceValue(), TWICE)
    ensures Chunks(bpp, 6, TwiceValue(), TWICE) == [bpp[0..9], bpp[0..12]]
  {
    var v, a, b := TwiceValue(), TWICE[0], TWICE[1];
    TwiceElements();
    ElementsInPlace(v, 0);
    assert [b] + [] == [b] && TWICE == [a] + [b];
    ChunksCons(bpp, 6, v, b, []);
    ChunksCons(bpp, 6, v, a, [b]);
  }

  /** A package whose root comes after a BF23, and whose chunks add up to it, although the root has two more. */
  lemma LaterRootIsConserved() returns (bpp: seq<Byte>, root: Tlv)
    ensures root.start > 0 && IsElement(bpp, root) && root.tag == TAG_BPP && InPlace(bpp, root)
    ensures Split(bpp) == Some(SplitAt(bpp, root))
    ensures Flatten(SplitAt(bpp, root)) == bpp && !WellFormed(RootChildren(bpp, root))
  {
    bpp := TwicePackage();
    root := Tlv(TAG_BPP, TwiceValue(), 3, 12);
    TwiceBytes(bpp);
    RootComesSecond(bpp, root);
    TwiceElements();
    SentForTwice(bpp);
    FlattenTwo(bpp[0..9], bpp[0..12]);
    ChildrenTags(bpp, 6, TwiceValue(), TWICE);
    SecondCommand(RootChildren(bpp, root));
  }

  function TwicePackage(): seq<Byte> {
    [0xBF, 0x23, 0x00, 0xBF, 0x36, 0x06] + TwiceValue() + [0xBF, 0x36, 0x06, 0xBF, 0x23, 0x00, 0xBF, 0x23, 0x00]
  }

  lemma TwiceBytes(bpp: seq<Byte>)
    requires bpp == TwicePackage()
    ensures |bpp| == 21 && bpp[0..9] + bpp[0..12] == bpp
    ensures bpp[..6] == [0xBF, 0x23, 0x00, 0xBF, 0x36, 0x06] && bpp[6..12] == TwiceValue()
  {
  }

  lemma {:induction false} RootComesSecond(bpp: seq<Byte>, root: Tlv)
    requires |bpp| > 12 && bpp[..6] == [0xBF, 0x23, 0x00, 0xBF, 0x36, 0x06]
    requires root == Tlv(TAG_BPP, bpp[6..12], 3, 12)
    ensures IsElement(bpp, root) && FindRoot(Elements(bpp, 0)) == Some(root)
  {
    assert forall i :: 0 <= i < 6 ==> bpp[i] == bpp[..6][i];
    TwoByteTagElement(bpp, 0);
    TwoByteTagElement(bpp, 3);
    assert bpp[3..3] == [];
    var t := Tlv(TAG_BPP_COMMAND, [], 0, 3);
    ElementsStep(bpp, 0, t);
    ElementsStep(bpp, 3, root);
    assert ([t] + ([root] + Elements(bpp, 12)))[1..] == [root] + Elements(bpp, 12);
  }
}
