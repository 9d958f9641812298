/**
 The CAN wire codec of pandad: packing messages into bounded writes, and reassembling
 frames from arbitrarily cut chunks in a fixed receive buffer.
 */
module PandaCan {
  import opened Bytes
  import opened Sequences

  const USB_TX_SOFT_LIMIT := 0x100
  const RECV_SIZE := 0x4000
  const CAN_HEADER_SIZE := 6
  const MAX_DATA_LEN := 64
  const RECEIVE_BUFFER_SIZE := RECV_SIZE + CAN_HEADER_SIZE + MAX_DATA_LEN
  const PANDA_BUS_OFFSET := 4
  const CAN_REJECTED_BUS_OFFSET := 0xC0
  const CAN_RETURNED_BUS_OFFSET := 0x80
  const SIZE_T_MODULUS := 0x1_0000_0000_0000_0000

  /** The addresses that fit the header's 29-bit field. */
  const ADDRESS_LIMIT := 0x2000_0000

  datatype CanMessage = CanMessage(address: nat, dat: seq<Byte>, src: Byte)

  datatype CanFrame = CanFrame(address: nat, dat: seq<Byte>, src: nat)

  /** The packed bit-field header, without its reserved bit (always zero) and its checksum byte. */
  datatype CanHeader = CanHeader(
    bus: nat, dataLenCode: nat, rejected: bool, returned: bool, extended: bool, addr: nat)

  // ----- Data length codes (ISO 11898-1) -----

  function DlcToLen(dlc: nat): (len: nat)
    ensures len <= MAX_DATA_LEN
  {
    if dlc <= 8 then dlc
    else if dlc <= 12 then 4 * (dlc - 6)
    else if dlc == 13 then 32
    else if dlc == 14 then 48
    else 64
  }

  function LenToDlc(len: nat): nat {
    if len <= 8 then len
    else if len <= 24 then 8 + (len - 8) / 4 + (if len % 4 != 0 then 1 else 0)
    else 11 + len / 16 + (if len % 16 != 0 then 1 else 0)
  }

  predicate IsCanFdLength(len: nat) {
    len <= 8 || len == 12 || len == 16 || len == 20 || len == 24 || len == 32 || len == 48 || len == 64
  }

  /** The length code round-trips exactly on the CAN FD lengths; every other length is rounded up. */
  lemma LenToDlcRoundTrip(len: nat)
    requires len <= MAX_DATA_LEN
    ensures len <= DlcToLen(LenToDlc(len))
    ensures DlcToLen(LenToDlc(len)) == len <==> IsCanFdLength(len)
    ensures LenToDlc(len) <= 15
  {
  }

  /** The codes grow with their lengths, so they are numbered from the shortest up. */
  lemma DlcGrows(a: nat, b: nat)
    requires a < b <= 15
    ensures DlcToLen(a) < DlcToLen(b)
  {
  }

  // ----- Header layout -----

  function LittleEndian(n: nat, bytes: nat): (s: seq<Byte>)
    ensures |s| == bytes
  {
    if bytes == 0 then [] else [n % 0x100] + LittleEndian(n / 0x100, bytes - 1)
  }

  function FromLittleEndian(s: seq<Byte>): nat {
    if s == [] then 0 else s[0] + 0x100 * FromLittleEndian(s[1..])
  }

  lemma {:induction false} LittleEndianRoundTrip(n: nat, bytes: nat)
    requires n < Pow256(bytes)
    ensures FromLittleEndian(LittleEndian(n, bytes)) == n
  {
    if bytes > 0 {
      LittleEndianRoundTrip(n / 0x100, bytes - 1);
      assert LittleEndian(n, bytes)[1..] == LittleEndian(n / 0x100, bytes - 1);
    }
  }

  function Bit(b: bool): nat {
    if b then 1 else 0
  }

  /** The 32 bits behind the first byte: three flags below the address. */
  function HeaderWord(h: CanHeader): nat {
    8 * (h.addr % ADDRESS_LIMIT) + (4 * Bit(h.extended) + 2 * Bit(h.returned) + Bit(h.rejected))
  }

  /**
   The layout: reserved bit, bus and length code in the first byte; flags and address; the checksum, still
   zero. Bit fields keep their low bits only: 3 of the bus, 4 of the length code, 29 of the address.
   */
  function EncodeHeader(h: CanHeader): (s: seq<Byte>)
    ensures |s| == CAN_HEADER_SIZE && s[5] == 0
  {
    [16 * (h.dataLenCode % 16) + 2 * (h.bus % 8)] + LittleEndian(HeaderWord(h), 4) + [0]
  }

  function HeaderFields(first: nat, word: nat): CanHeader {
    CanHeader(first / 2 % 8, first / 16, word % 2 == 1, word / 2 % 2 == 1, word / 4 % 2 == 1, word / 8)
  }

  function DecodeHeader(s: seq<Byte>): (h: CanHeader)
    requires |s| >= CAN_HEADER_SIZE
    ensures h.dataLenCode == s[0] / 16
  {
    HeaderFields(s[0], FromLittleEndian(s[1..5]))
  }

  lemma FlagsRoundTrip(high: nat, c2: nat, c1: nat, c0: nat)
    requires c2 < 2 && c1 < 2 && c0 < 2
    ensures var w := 8 * high + (4 * c2 + 2 * c1 + c0);
            w / 8 == high && w % 2 == c0 && w / 2 % 2 == c1 && w / 4 % 2 == c2
  {
    var w := 8 * high + (4 * c2 + 2 * c1 + c0);
    var a := 2 * high + c2;
    var b := 2 * a + c1;
    Halve(b, c0);
    Halve(a, c1);
    Halve(high, c2);
    assert w == 2 * b + c0 && w / 4 == w / 2 / 2 && w / 8 == w / 4 / 2;
  }

  lemma Halve(n: nat, bit: nat)
    requires bit < 2
    ensures (2 * n + bit) / 2 == n && (2 * n + bit) % 2 == bit
  {
  }

  lemma FieldsRoundTrip(h: CanHeader)
    requires h.bus < 8 && h.dataLenCode < 16 && h.addr < ADDRESS_LIMIT
    ensures HeaderFields(16 * h.dataLenCode + 2 * h.bus, HeaderWord(h)) == h
  {
    assert (16 * h.dataLenCode + 2 * h.bus) / 2 == 8 * h.dataLenCode + h.bus;
    FlagsRoundTrip(h.addr, Bit(h.extended), Bit(h.returned), Bit(h.rejected));
  }

  lemma WordRoundTrip(h: CanHeader)
    ensures FromLittleEndian(LittleEndian(HeaderWord(h), 4)) == HeaderWord(h)
  {
    assert Pow256(2) == 0x1_0000 && Pow256(4) == 0x1_0000_0000;
    LittleEndianRoundTrip(HeaderWord(h), 4);
  }

  /** The first five bytes of a message fix every header field, whatever its checksum byte. */
  lemma HeaderRoundTrip(h: CanHeader, s: seq<Byte>)
    requires h.bus < 8 && h.dataLenCode < 16 && h.addr < ADDRESS_LIMIT
    requires |s| >= CAN_HEADER_SIZE && s[..5] == EncodeHeader(h)[..5]
    ensures DecodeHeader(s) == h
  {
    var e := EncodeHeader(h);
    assert s[0] == s[..5][0] == e[..5][0] == e[0];
    assert s[1..5] == s[..5][1..] == e[..5][1..] == LittleEndian(HeaderWord(h), 4);
    FieldsRoundTrip(h);
    WordRoundTrip(h);
  }

  /** A 32-bit number from its bytes, the lowest first. */
  function Word(a: nat, b: nat, c: nat, d: nat): nat {
    a + 0x100 * b + 0x1_0000 * c + 0x100_0000 * d
  }

  lemma {:induction false} FourBytes(s: seq<Byte>)
    requires |s| == 4
    ensures FromLittleEndian(s) == Word(s[0], s[1], s[2], s[3])
  {
    var c: nat, d: nat := s[2], s[3];
    assert s[1..][1..] == s[2..] && s[2..][1..] == s[3..] && s[3..][1..] == [];
    assert FromLittleEndian(s[3..]) == d;
    assert FromLittleEndian(s[2..]) == c + 0x100 * d;
    assert FromLittleEndian(s[1..]) == s[1] + 0x100 * FromLittleEndian(s[2..]);
  }

  /** The lowest three bits of a number, seen in its lowest byte. */
  lemma LowBits(a: nat, b: nat, c: nat, d: nat)
    ensures var w := Word(a, b, c, d);
            w % 2 == a % 2 && w / 2 % 2 == a / 2 % 2 && w / 4 % 2 == a / 4 % 2
  {
    var k := 0x20 * b + 0x2000 * c + 0x20_0000 * d;
    assert Word(a, b, c, d) == a + 8 * k;
    EvenAdded(a, 4 * k);
    EvenAdded(a / 2, 2 * k);
    EvenAdded(a / 4, k);
    assert (a + 8 * k) / 4 == a / 4 + 2 * k;
  }

  lemma EvenAdded(a: nat, k: nat)
    ensures (a + 2 * k) % 2 == a % 2 && (a + 2 * k) / 2 == a / 2 + k
  {
  }

  /** Which bits of the first five bytes are which field, on any bytes. */
  lemma DecodedBits(s: seq<Byte>)
    requires |s| >= CAN_HEADER_SIZE
    ensures var h, first: nat, flags: nat := DecodeHeader(s), s[0], s[1];
            && h.dataLenCode == first / 16 && h.bus == first / 2 % 8
            && (h.rejected <==> flags % 2 == 1) && (h.returned <==> flags / 2 % 2 == 1)
            && (h.extended <==> flags / 4 % 2 == 1)
            && h.addr == Word(s[1], s[2], s[3], s[4]) / 8
  {
    FourBytes(s[1..5]);
    LowBits(s[1], s[2], s[3], s[4]);
  }

  /** The same bits of an encoded header; the lowest bit of the first byte, and the checksum, are zero. */
  lemma EncodedBits(h: CanHeader)
    requires h.bus < 8 && h.dataLenCode < 16 && h.addr < ADDRESS_LIMIT
    ensures var s := EncodeHeader(h);
            var first: nat, flags: nat := s[0], s[1];
            && first % 2 == 0 && first / 2 % 8 == h.bus && first / 16 == h.dataLenCode && s[5] == 0
            && (flags % 2 == 1 <==> h.rejected) && (flags / 2 % 2 == 1 <==> h.returned)
            && (flags / 4 % 2 == 1 <==> h.extended)
            && Word(s[1], s[2], s[3], s[4]) / 8 == h.addr
  {
    var s := EncodeHeader(h);
    HeaderRoundTrip(h, s);
    DecodedBits(s);
    ReservedIsZero(h, s[0]);
  }

  lemma ReservedIsZero(h: CanHeader, first: nat)
    requires first == EncodeHeader(h)[0]
    ensures first % 2 == 0
  {
    assert first == 2 * (8 * (h.dataLenCode % 16) + h.bus % 8);
  }

  // ----- Checksum -----

  function Xor(s: seq<Byte>): Byte {
    if s == [] then 0 else XorByte(Xor(s[..|s| - 1]), s[|s| - 1])
  }

  lemma {:induction false} XorConcat(a: seq<Byte>, b: seq<Byte>)
    ensures Xor(a + b) == XorByte(Xor(a), Xor(b))
  {
    if b == [] {
      assert a + b == a;
      XorUnits(Xor(a));
    } else {
      var b' := b[..|b| - 1];
      assert (a + b)[..|a + b| - 1] == a + b';
      XorConcat(a, b');
      XorAssociates(Xor(a), Xor(b'), b[|b| - 1]);
    }
  }

  /** Storing the checksum of a zero-checksum message makes the whole message sum to zero. */
  lemma ChecksumCancels(s: seq<Byte>, k: nat)
    requires k < |s| && s[k] == 0
    ensures Xor(s[k := Xor(s)]) == 0
  {
    var c := Xor(s);
    var a, b := s[..k], s[k + 1..];
    var x, y := Xor(a), Xor(b);
    assert s == a + ([0] + b) && s[k := c] == a + ([c] + b);
    XorOfThree(a, 0, b);
    XorOfThree(a, c, b);
    XorUnits(y);
    assert c == XorByte(x, y);
    XorCommutes(c, y);
    XorAssociates(x, y, c);
    XorUnits(c);
  }

  lemma {:induction false} XorOfThree(a: seq<Byte>, e: Byte, b: seq<Byte>)
    ensures Xor(a + ([e] + b)) == XorByte(Xor(a), XorByte(e, Xor(b)))
  {
    XorConcat(a, [e] + b);
    XorConcat([e], b);
    XorUnits(e);
    assert Xor([e]) == XorByte(Xor([]), e);
  }

  // ----- The wire image of a list of messages -----

  predicate Accepted(m: CanMessage) {
    m.src < PANDA_BUS_OFFSET
  }

  /** What the packer's two assertions demand of a message meant for this panda. */
  predicate Sendable(m: CanMessage) {
    Accepted(m) ==> |m.dat| <= MAX_DATA_LEN && IsCanFdLength(|m.dat|)
  }

  function MessageHeader(m: CanMessage): CanHeader
    requires |m.dat| <= MAX_DATA_LEN
  {
    CanHeader(m.src, LenToDlc(|m.dat|), false, false, m.address >= 0x800, m.address)
  }

  function EncodeMessage(m: CanMessage): (s: seq<Byte>)
    requires |m.dat| <= MAX_DATA_LEN
    ensures |s| == CAN_HEADER_SIZE + |m.dat|
  {
    var raw := EncodeHeader(MessageHeader(m)) + m.dat;
    raw[5 := Xor(raw)]
  }

  /** The bytes a message contributes: none if it is meant for another panda. */
  function Encoded(m: CanMessage): seq<Byte>
    requires Sendable(m)
  {
    if Accepted(m) then EncodeMessage(m) else []
  }

  function WireImage(msgs: seq<CanMessage>): seq<Byte>
    requires forall m :: m in msgs ==> Sendable(m)
  {
    if msgs == [] then [] else WireImage(msgs[..|msgs| - 1]) + Encoded(msgs[|msgs| - 1])
  }

  // ----- The byte-stream decoder the receive path implements -----

  /** The bytes of one frame: a header and the data it announces. */
  type RawFrame = s: seq<Byte> | |s| >= CAN_HEADER_SIZE witness [0, 0, 0, 0, 0, 0]

  datatype Decoded = Decoded(ok: bool, raws: seq<RawFrame>, rest: seq<Byte>)

  function FrameLen(s: seq<Byte>): (n: nat)
    requires |s| >= CAN_HEADER_SIZE
    ensures CAN_HEADER_SIZE <= n <= CAN_HEADER_SIZE + MAX_DATA_LEN
  {
    CAN_HEADER_SIZE + DlcToLen(s[0] / 16)
  }

  predicate HasFrame(s: seq<Byte>) {
    |s| >= CAN_HEADER_SIZE && FrameLen(s) <= |s|
  }

  /** A decoding result with frames taken off earlier put in front. */
  function Prepend(raws: seq<RawFrame>, d: Decoded): Decoded {
    d.(raws := raws + d.raws)
  }

  /** Frames are taken off the front while complete; a bad checksum discards everything left. */
  function Decode(s: seq<Byte>): (d: Decoded)
    ensures |d.rest| < CAN_HEADER_SIZE + MAX_DATA_LEN
    ensures |d.rest| <= |s| && !HasFrame(d.rest)
    ensures !d.ok ==> d.rest == []
  {
    if !HasFrame(s) then Decoded(true, [], s)
    else if Xor(s[..FrameLen(s)]) != 0 then Decoded(false, [], [])
    else Prepend([s[..FrameLen(s)]], Decode(s[FrameLen(s)..]))
  }

  /** A complete frame whose bytes sum to zero. */
  predicate IsSound(raw: RawFrame) {
    |raw| == FrameLen(raw) && Xor(raw) == 0
  }

  /** A complete frame in front whose bytes do not. */
  predicate StartsDamaged(s: seq<Byte>) {
    HasFrame(s) && Xor(s[..FrameLen(s)]) != 0
  }

  /** What decoding comes to on any bytes: sound frames end to end, up to an incomplete or a damaged one. */
  lemma {:induction false} DecodedParts(s: seq<Byte>) returns (left: seq<Byte>)
    ensures var d := Decode(s);
            && s == Flatten(d.raws) + left && (forall raw :: raw in d.raws ==> IsSound(raw))
            && (if d.ok then left == d.rest && !HasFrame(left) else StartsDamaged(left))
    decreases |s|
  {
    if HasFrame(s) && !StartsDamaged(s) {
      var raw: RawFrame, rest := s[..FrameLen(s)], s[FrameLen(s)..];
      left := DecodedParts(rest);
      FirstIsSound(s);
      FirstPart(raw, Decode(rest).raws, left);
    } else {
      left := s;
      assert [] + s == s;
    }
  }

  lemma FirstIsSound(s: seq<Byte>)
    requires HasFrame(s) && !StartsDamaged(s)
    ensures IsSound(s[..FrameLen(s)]) && s == s[..FrameLen(s)] + s[FrameLen(s)..]
  {
    assert s[..FrameLen(s)][0] == s[0];
  }

  lemma {:induction false} FirstPart(raw: RawFrame, raws: seq<RawFrame>, left: seq<Byte>)
    requires IsSound(raw) && forall r :: r in raws ==> IsSound(r)
    ensures raw + (Flatten(raws) + left) == Flatten([raw] + raws) + left
    ensures forall r :: r in [raw] + raws ==> IsSound(r)
  {
    FlattenHead(raw, raws);
    ConcatAssociates(raw, Flatten(raws), left);
  }

  predicate Resumed(d: Decoded, e: Decoded, whole: Decoded) {
    if d.ok then whole == Prepend(d.raws, e) else !whole.ok
  }

  lemma ResumedAfter(raw: RawFrame, d: Decoded, e: Decoded, whole: Decoded)
    requires Resumed(d, e, whole)
    ensures Resumed(Prepend([raw], d), e, Prepend([raw], whole))
  {
    ConcatAssociates([raw], d.raws, e.raws);
  }

  /** The first frame of some bytes is also that of more bytes. */
  lemma {:induction false} FirstFrame(s: seq<Byte>, t: seq<Byte>)
    requires HasFrame(s)
    ensures var raw: RawFrame, rest := s[..FrameLen(s)], s[FrameLen(s)..];
            Decode(s + t) == if Xor(raw) != 0 then Decoded(false, [], []) else Prepend([raw], Decode(rest + t))
  {
    var n := FrameLen(s);
    assert (s + t)[0] == s[0];
    assert (s + t)[..n] == s[..n] && (s + t)[n..] == s[n..] + t;
  }

  /** Decoding can be suspended anywhere: the leftover carries all that later bytes need. */
  lemma {:induction false} DecodeResumes(s: seq<Byte>, t: seq<Byte>)
    ensures Resumed(Decode(s), Decode(Decode(s).rest + t), Decode(s + t))
    decreases |s|
  {
    if !HasFrame(s) {
      NothingYet(s, Decode(s + t));
    } else {
      var raw: RawFrame, rest := s[..FrameLen(s)], s[FrameLen(s)..];
      FirstFrame(s, t);
      if Xor(raw) == 0 {
        DecodeResumes(rest, t);
        ResumedAfter(raw, Decode(rest), Decode(Decode(rest).rest + t), Decode(rest + t));
      }
    }
  }

  lemma {:induction false} NothingYet(s: seq<Byte>, e: Decoded)
    requires !HasFrame(s)
    ensures Resumed(Decode(s), e, e) && Decode(s).rest == s
  {
    assert [] + e.raws == e.raws;
  }

  /** What the receiver reports for the bytes of a frame. */
  function FrameOfRaw(raw: RawFrame): CanFrame {
    var h := DecodeHeader(raw);
    CanFrame(h.addr, raw[CAN_HEADER_SIZE..],
             h.bus + (if h.rejected then CAN_REJECTED_BUS_OFFSET else 0)
                   + (if h.returned then CAN_RETURNED_BUS_OFFSET else 0))
  }

  /** What a frame's bytes say: its bus and how it came back as one number, the upper 29 bits, and the data. */
  lemma FrameBits(raw: RawFrame)
    ensures var f, first: nat, flags: nat := FrameOfRaw(raw), raw[0], raw[1];
            && f.src == first / 2 % 8 + (if flags % 2 == 1 then 0xC0 else 0) + (if flags / 2 % 2 == 1 then 0x80 else 0)
            && f.address == Word(raw[1], raw[2], raw[3], raw[4]) / 8
            && f.dat == raw[6..]
  {
    DecodedBits(raw);
  }

  /** The reported source tells bus, rejected and returned apart. */
  lemma SourceTells(raw: RawFrame)
    ensures var src, first: nat, flags: nat := FrameOfRaw(raw).src, raw[0], raw[1];
            && src % 0x40 == first / 2 % 8
            && (flags % 2 == 1 <==> src / 0x40 == 3 || src / 0x40 == 5)
            && (flags / 2 % 2 == 1 <==> src / 0x40 == 2 || src / 0x40 == 5)
  {
    FrameBits(raw);
    var first: nat, flags: nat := raw[0], raw[1];
    SourceParts(first / 2 % 8, flags % 2 == 1, flags / 2 % 2 == 1, FrameOfRaw(raw).src);
  }

  lemma SourceParts(bus: nat, rejected: bool, returned: bool, src: nat)
    requires bus < 8 && src == bus + (if rejected then 0xC0 else 0) + (if returned then 0x80 else 0)
    ensures src % 0x40 == bus && (rejected <==> src / 0x40 == 3 || src / 0x40 == 5)
    ensures returned <==> src / 0x40 == 2 || src / 0x40 == 5
  {
  }

  function FramesOfRaws(raws: seq<RawFrame>): seq<CanFrame> {
    if raws == [] then [] else FramesOfRaws(raws[..|raws| - 1]) + [FrameOfRaw(raws[|raws| - 1])]
  }

  lemma {:induction false} FramesOfRawsConcat(a: seq<RawFrame>, b: seq<RawFrame>)
    ensures FramesOfRaws(a + b) == FramesOfRaws(a) + FramesOfRaws(b)
  {
    if b == [] {
      assert a + b == a;
    } else {
      assert (a + b)[..|a + b| - 1] == a + b[..|b| - 1];
      FramesOfRawsConcat(a, b[..|b| - 1]);
    }
  }

  // ----- Round trip of messages -----

  /** The frame a message stands for. */
  function FrameOf(m: CanMessage): CanFrame {
    CanFrame(m.address, m.dat, m.src)
  }

  /** The frames a list of messages stands for: those addressed to this panda, in order. */
  function FramesOf(msgs: seq<CanMessage>): seq<CanFrame> {
    if msgs == [] then []
    else
      var last := msgs[|msgs| - 1];
      FramesOf(msgs[..|msgs| - 1]) + (if Accepted(last) then [FrameOf(last)] else [])
  }

  /** A panda is sent what is for its buses 0 to 3, all of it and nothing else. */
  lemma {:induction false} OwnBuses(msgs: seq<CanMessage>, m: CanMessage)
    ensures forall f :: f in FramesOf(msgs) ==> f.src < 4
    ensures m in msgs && m.src < 4 ==> FrameOf(m) in FramesOf(msgs)
  {
    if msgs != [] {
      OwnBuses(msgs[..|msgs| - 1], m);
    }
  }

  predicate Has29BitAddress(m: CanMessage) {
    m.address < ADDRESS_LIMIT
  }

  /** An encoded message keeps its header fields and its data, and sums to zero. */
  lemma EncodedFields(m: CanMessage)
    requires Accepted(m) && Sendable(m) && Has29BitAddress(m)
    ensures var s := EncodeMessage(m);
            DecodeHeader(s) == MessageHeader(m) && s[CAN_HEADER_SIZE..] == m.dat && Xor(s) == 0
  {
    var raw := EncodeHeader(MessageHeader(m)) + m.dat;
    LenToDlcRoundTrip(|m.dat|);
    assert EncodeMessage(m)[..5] == raw[..5] == EncodeHeader(MessageHeader(m))[..5];
    HeaderRoundTrip(MessageHeader(m), EncodeMessage(m));
    ChecksumCancels(raw, 5);
  }

  /** A packed message, bit by bit: sent neither rejected nor returned, and extended from 0x800 on. */
  lemma MessageBits(m: CanMessage)
    requires Accepted(m) && Sendable(m) && Has29BitAddress(m)
    ensures var s := EncodeMessage(m);
            var first: nat, flags: nat := s[0], s[1];
            && |s| == 6 + |m.dat| && s[6..] == m.dat
            && first / 16 == LenToDlc(|m.dat|) && first % 16 == 2 * m.src
            && flags % 4 == 0 && (flags / 4 % 2 == 1 <==> m.address >= 0x800)
            && Word(s[1], s[2], s[3], s[4]) / 8 == m.address
  {
    var h, e := MessageHeader(m), EncodeHeader(MessageHeader(m));
    LenToDlcRoundTrip(|m.dat|);
    EncodedFields(m);
    EncodedBits(h);
    var raw := e + m.dat;
    assert forall i :: 0 <= i < 5 ==> EncodeMessage(m)[i] == raw[i] == e[i];
    TwoFlags(e[1]);
    BusBits(e[0]);
  }

  lemma TwoFlags(flags: nat)
    requires flags % 2 == 0 && flags / 2 % 2 == 0
    ensures flags % 4 == 0
  {
  }

  lemma BusBits(first: nat)
    requires first % 2 == 0
    ensures first % 16 == 2 * (first / 2 % 8)
  {
  }

  lemma MessageRoundTrip(m: CanMessage)
    requires Accepted(m) && Sendable(m) && Has29BitAddress(m)
    ensures Decode(EncodeMessage(m)) == Decoded(true, [EncodeMessage(m)], [])
    ensures FrameOfRaw(EncodeMessage(m)) == FrameOf(m)
  {
    LenToDlcRoundTrip(|m.dat|);
    EncodedFields(m);
    DecodeExactFrame(EncodeMessage(m));
  }

  lemma {:induction false} DecodeExactFrame(s: RawFrame)
    requires FrameLen(s) == |s| && Xor(s) == 0
    ensures Decode(s) == Decoded(true, [s], [])
  {
    assert s[..|s|] == s && s[|s|..] == [];
  }

  lemma {:induction false} WireRoundTrip(msgs: seq<CanMessage>)
    requires forall m :: m in msgs ==> Sendable(m)
    requires forall m :: m in msgs && Accepted(m) ==> Has29BitAddress(m)
    ensures var d := Decode(WireImage(msgs));
            d.ok && d.rest == [] && FramesOfRaws(d.raws) == FramesOf(msgs)
  {
    if msgs != [] {
      var init, last := msgs[..|msgs| - 1], msgs[|msgs| - 1];
      WireRoundTrip(init);
      if Accepted(last) {
        var s: RawFrame := EncodeMessage(last);
        MessageRoundTrip(last);
        DecodeResumes(WireImage(init), s);
        assert [] + s == s;
        var raws := Decode(WireImage(init)).raws;
        FramesOfRawsConcat(raws, [s]);
      } else {
        assert WireImage(init) + [] == WireImage(init);
      }
    }
  }

  // ----- Receiving in chunks -----

  /** One call of the receive path: the leftover of the previous calls, then a new chunk. */
  function Receive(left: seq<Byte>, chunk: seq<Byte>): Decoded {
    if chunk == [] then Decoded(true, [], left) else Decode(left + chunk)
  }

  /** The outcome of a receive call that comes after others. */
  function AfterOthers(r: Decoded, d: Decoded): Decoded {
    Decoded(r.ok && d.ok, r.raws + d.raws, d.rest)
  }

  function ReceiveAll(left: seq<Byte>, chunks: seq<seq<Byte>>): Decoded {
    if chunks == [] then Decoded(true, [], left)
    else
      var r := ReceiveAll(left, chunks[..|chunks| - 1]);
      AfterOthers(r, Receive(r.rest, chunks[|chunks| - 1]))
  }

  lemma {:induction false} ReceiveStep(left: seq<Byte>, chunks: seq<seq<Byte>>, i: nat)
    requires i < |chunks|
    ensures ReceiveAll(left, chunks[..i + 1]) ==
            AfterOthers(ReceiveAll(left, chunks[..i]), Receive(ReceiveAll(left, chunks[..i]).rest, chunks[i]))
  {
    assert chunks[..i + 1][..i] == chunks[..i];
  }

  /** However a stream is cut, if it decodes as a whole then the calls together decode it the same. */
  lemma {:induction false} ChunkingIsInvisible(chunks: seq<seq<Byte>>)
    requires Decode(Flatten(chunks)).ok
    ensures ReceiveAll([], chunks) == Decode(Flatten(chunks))
  {
    if chunks != [] {
      var n := |chunks| - 1;
      var s := Flatten(chunks[..n]);
      DecodeResumes(s, chunks[n]);
      ChunkingIsInvisible(chunks[..n]);
      if chunks[n] == [] {
        assert s + chunks[n] == s;
        assert Decode(s).raws + [] == Decode(s).raws;
      }
    }
  }

  lemma {:induction false} AllCallsSucceed(left: seq<Byte>, chunks: seq<seq<Byte>>, k: nat)
    requires ReceiveAll(left, chunks).ok && k < |chunks|
    ensures Receive(ReceiveAll(left, chunks[..k]).rest, chunks[k]).ok
    decreases |chunks|
  {
    var n := |chunks| - 1;
    if k < n {
      assert chunks[..n][..k] == chunks[..k];
      AllCallsSucceed(left, chunks[..n], k);
    }
  }

  /**
   The codec's promise: cut the packed bytes anywhere and every call succeeds, nothing is left over,
   and the frames of all calls together are exactly the messages meant for this panda.
   */
  lemma {:induction false} TransportRoundTrip(msgs: seq<CanMessage>, chunks: seq<seq<Byte>>)
    requires forall m :: m in msgs ==> Sendable(m)
    requires forall m :: m in msgs && Accepted(m) ==> Has29BitAddress(m)
    requires Flatten(chunks) == WireImage(msgs)
    ensures var r := ReceiveAll([], chunks);
            r.ok && r.rest == [] && FramesOfRaws(r.raws) == FramesOf(msgs)
    ensures forall k :: 0 <= k < |chunks| ==> Receive(ReceiveAll([], chunks[..k]).rest, chunks[k]).ok
  {
    WireRoundTrip(msgs);
    ChunkingIsInvisible(chunks);
    forall k | 0 <= k < |chunks|
      ensures Receive(ReceiveAll([], chunks[..k]).rest, chunks[k]).ok
    {
      AllCallsSucceed([], chunks, k);
    }
  }

  // ----- The imperative code -----

  /** Folds the XOR over a stretch of a buffer. */
  method CalculateChecksum(data: array<Byte>, start: nat, len: nat) returns (checksum: Byte)
    requires start + len <= data.Length
    ensures checksum == Xor(data[start..start + len])
  {
    checksum := 0;
    var i := 0;
    while i < len
      invariant i <= len
      invariant checksum == Xor(data[start..start + i])
    {
      checksum := XorByte(checksum, data[start + i]);
      assert data[start..start + i + 1][..i] == data[start..start + i];
      i := i + 1;
    }
  }

  /** memcpy to position `pos`. */
  method CopyInto(buf: array<Byte>, pos: nat, bytes: seq<Byte>)
    requires pos + |bytes| <= buf.Length
    modifies buf
    ensures buf[..pos + |bytes|] == old(buf[..pos]) + bytes
  {
    forall k | 0 <= k < |bytes| { buf[pos + k] := bytes[k]; }
  }

  /** Writes one message at `pos` in the send buffer and returns its size. */
  method PutMessage(sendBuf: array<Byte>, pos: nat, m: CanMessage) returns (size: nat)
    requires Accepted(m) && Sendable(m)
    requires pos + CAN_HEADER_SIZE + |m.dat| <= sendBuf.Length
    modifies sendBuf
    ensures size == CAN_HEADER_SIZE + |m.dat|
    ensures sendBuf[..pos + size] == old(sendBuf[..pos]) + EncodeMessage(m)
  {
    var header := EncodeHeader(MessageHeader(m));
    ghost var before, raw := sendBuf[..pos], header + m.dat;
    CopyInto(sendBuf, pos, header);
    CopyInto(sendBuf, pos + CAN_HEADER_SIZE, m.dat);
    size := CAN_HEADER_SIZE + |m.dat|;
    assert sendBuf[..pos + size] == before + raw;
    var checksum := CalculateChecksum(sendBuf, pos, size);
    assert sendBuf[pos..pos + size] == sendBuf[..pos + size][pos..] == raw;
    sendBuf[pos + 5] := checksum;
    assert sendBuf[..pos + size] == (before + raw)[pos + 5 := checksum] == before + raw[5 := checksum];
  }

  /** Hands the filled part of the send buffer over to the write function. */
  method Flush(writes: seq<seq<Byte>>, sendBuf: array<Byte>, pos: nat) returns (writes': seq<seq<Byte>>)
    requires pos <= sendBuf.Length
    ensures writes' == writes + [sendBuf[..pos]]
    ensures Flatten(writes') == Flatten(writes) + sendBuf[..pos]
  {
    writes' := writes + [sendBuf[..pos]];
    assert writes'[..|writes|] == writes;
  }

  /** One turn of the packing loop: append a message meant for this panda, flush at the soft limit. */
  method AppendMessage(writes: seq<seq<Byte>>, sendBuf: array<Byte>, pos: nat, m: CanMessage)
    returns (writes': seq<seq<Byte>>, pos': nat)
    requires Sendable(m) && pos < USB_TX_SOFT_LIMIT && sendBuf.Length == 2 * USB_TX_SOFT_LIMIT
    requires FullWrites(writes)
    modifies sendBuf
    ensures pos' < USB_TX_SOFT_LIMIT && FullWrites(writes')
    ensures Flatten(writes') + sendBuf[..pos'] == Flatten(writes) + old(sendBuf[..pos]) + Encoded(m)
  {
    writes', pos' := writes, pos;
    ghost var sent, before, bytes := Flatten(writes), sendBuf[..pos], Encoded(m);
    if m.src >= PANDA_BUS_OFFSET {
      assert sent + before + [] == sent + before;
      return;
    }
    var size := PutMessage(sendBuf, pos, m);
    ConcatAssociates(sent, before, bytes);
    pos' := pos + size;
    if pos' >= USB_TX_SOFT_LIMIT {
      writes' := Flush(writes, sendBuf, pos');
      pos' := 0;
      assert Flatten(writes') + sendBuf[..0] == Flatten(writes');
    }
  }

  /** Writes made at the soft limit: full enough, yet within the send buffer. */
  ghost predicate FullWrites(writes: seq<seq<Byte>>) {
    forall w :: w in writes ==> USB_TX_SOFT_LIMIT <= |w| < USB_TX_SOFT_LIMIT + CAN_HEADER_SIZE + MAX_DATA_LEN
  }

  /**
   Packs the messages for this panda into a fixed send buffer, handing it over (`writes`) whenever
   the soft limit is reached. The writes together are the wire image, none is empty or overruns the
   buffer, and only the last may be short.
   */
  method PackCanBuffer(msgs: seq<CanMessage>) returns (writes: seq<seq<Byte>>)
    requires forall m :: m in msgs ==> Sendable(m)
    ensures Flatten(writes) == WireImage(msgs)
    ensures forall w :: w in writes ==> 0 < |w| < USB_TX_SOFT_LIMIT + CAN_HEADER_SIZE + MAX_DATA_LEN
    ensures forall k :: 0 <= k < |writes| - 1 ==> USB_TX_SOFT_LIMIT <= |writes[k]|
  {
    var pos: nat := 0;
    var sendBuf := new Byte[2 * USB_TX_SOFT_LIMIT];
    writes := [];
    ghost var image := WireImage(msgs[..0]);
    for i := 0 to |msgs|
      invariant pos < USB_TX_SOFT_LIMIT && FullWrites(writes)
      invariant Flatten(writes) + sendBuf[..pos] == image == WireImage(msgs[..i])
    {
      writes, pos := AppendMessage(writes, sendBuf, pos, msgs[i]);
      WireStep(msgs, i);
      image := image + Encoded(msgs[i]);
    }
    assert msgs[..|msgs|] == msgs;
    if pos > 0 {
      writes := Flush(writes, sendBuf, pos);
    }
  }

  lemma WireStep(msgs: seq<CanMessage>, i: nat)
    requires i < |msgs| && forall m :: m in msgs ==> Sendable(m)
    ensures Sendable(msgs[i]) && WireImage(msgs[..i + 1]) == WireImage(msgs[..i]) + Encoded(msgs[i])
  {
    assert msgs[..i + 1][..i] == msgs[..i];
    assert Sendable(msgs[i]);
  }

  /** `size - sizeof(can_header)` in unsigned 64-bit arithmetic: it wraps for sizes under a header. */
  function SizeMinusHeader(size: nat): (r: nat)
    requires size < SIZE_T_MODULUS / 2
    ensures r == size - CAN_HEADER_SIZE || (size < CAN_HEADER_SIZE && size < r)
  {
    (size + SIZE_T_MODULUS - CAN_HEADER_SIZE) % SIZE_T_MODULUS
  }

  /** The size a frame at `pos` claims; the header may lie beyond the `size` bytes received so far. */
  method FrameSizeAt(data: array<Byte>, pos: nat, ghost size: nat) returns (n: nat)
    requires pos + CAN_HEADER_SIZE <= data.Length && pos <= size <= data.Length
    ensures CAN_HEADER_SIZE <= n
    ensures HasFrame(data[pos..size]) <==> pos + n <= size
    ensures HasFrame(data[pos..size]) ==> n == FrameLen(data[pos..size])
  {
    var header := DecodeHeader(data[pos..pos + CAN_HEADER_SIZE]);
    n := CAN_HEADER_SIZE + DlcToLen(header.dataLenCode);
  }

  /** memmove of the unread bytes to the start of the buffer. */
  method MoveToFront(data: array<Byte>, pos: nat, size: nat)
    requires pos <= size <= data.Length
    modifies data
    ensures data[..size - pos] == old(data[pos..size])
  {
    forall k | 0 <= k < size - pos { data[k] := data[pos + k]; }
  }

  /** Checks the frame in `data[pos..pos + n]` and reads it field by field. */
  method ReadFrame(data: array<Byte>, pos: nat, n: nat) returns (ok: bool, frame: CanFrame)
    requires CAN_HEADER_SIZE <= n && pos + n <= data.Length
    ensures ok <==> Xor(data[pos..pos + n]) == 0
    ensures ok ==> frame == FrameOfRaw(data[pos..pos + n])
  {
    ghost var raw := data[pos..pos + n];
    assert data[pos..pos + CAN_HEADER_SIZE] == raw[..CAN_HEADER_SIZE];
    HeaderIsAtFront(raw);
    var checksum := CalculateChecksum(data, pos, n);
    var header := DecodeHeader(data[pos..pos + CAN_HEADER_SIZE]);
    var src := header.bus;
    if header.rejected {
      src := src + CAN_REJECTED_BUS_OFFSET;
    }
    if header.returned {
      src := src + CAN_RETURNED_BUS_OFFSET;
    }
    ok, frame := checksum == 0, CanFrame(header.addr, data[pos + CAN_HEADER_SIZE..pos + n], src);
    assert data[pos + CAN_HEADER_SIZE..pos + n] == raw[CAN_HEADER_SIZE..];
  }

  lemma HeaderIsAtFront(raw: RawFrame)
    ensures DecodeHeader(raw[..CAN_HEADER_SIZE]) == DecodeHeader(raw)
  {
    assert raw[..CAN_HEADER_SIZE][1..5] == raw[1..5];
  }

  /**
   The parsing loop: takes the frames off the first `size` bytes of `data` and stops at `pos`. A header
   is copied before it is known to be complete, hence the bound on the buffer.
   */
  method UnpackFrames(data: array<Byte>, size: nat) returns (ok: bool, pos: nat, frames: seq<CanFrame>)
    requires CAN_HEADER_SIZE <= data.Length && size <= data.Length < 0x8000_0000
    ensures pos <= size
    ensures var d := Decode(data[..size]);
            ok == d.ok && frames == FramesOfRaws(d.raws) && (ok ==> data[pos..size] == d.rest)
  {
    ok, pos, frames := true, 0, [];
    ghost var raws: seq<RawFrame>, tail := [], data[..size];
    ghost var d := Decode(tail);
    while pos <= SizeMinusHeader(size)
      invariant ok && pos <= size && tail == data[pos..size]
      invariant Parsing(d, raws, tail, frames)
      invariant size < CAN_HEADER_SIZE ==> pos == 0
      decreases size - pos
    {
      var n := FrameSizeAt(data, pos, size);
      if pos + n > size {
        break;
      }
      var frame;
      ok, frame := TakeFrame(data, pos, size, n, d, raws, tail, frames);
      if !ok {
        return;
      }
      frames := frames + [frame];
      pos, tail, raws := pos + n, tail[n..], raws + [tail[..n]];
    }
    DecodeNone(raws, tail);
  }

  /** Part of a decoding is done: its frames so far, and the bytes still to be decoded. */
  predicate Parsing(d: Decoded, raws: seq<RawFrame>, tail: seq<Byte>, frames: seq<CanFrame>) {
    d == Prepend(raws, Decode(tail)) && frames == FramesOfRaws(raws)
  }

  lemma FrameTaken(
    d: Decoded, raws: seq<RawFrame>, tail: seq<Byte>, frames: seq<CanFrame>, ok: bool, frame: CanFrame)
    requires Parsing(d, raws, tail, frames) && HasFrame(tail) && (ok <==> Xor(tail[..FrameLen(tail)]) == 0)
    requires ok ==> frame == FrameOfRaw(tail[..FrameLen(tail)])
    ensures var n := FrameLen(tail);
            if ok then Parsing(d, raws + [tail[..n]], tail[n..], frames + [frame]) else d == Decoded(false, raws, [])
  {
    DecodeOne(raws, tail);
  }

  /** One complete frame taken: checked, read and accounted for. */
  method TakeFrame(
    data: array<Byte>, pos: nat, size: nat, n: nat,
    ghost d: Decoded, ghost raws: seq<RawFrame>, ghost tail: seq<Byte>, ghost frames: seq<CanFrame>)
    returns (ok: bool, frame: CanFrame)
    requires pos + n <= size <= data.Length && tail == data[pos..size] && HasFrame(tail) && n == FrameLen(tail)
    requires Parsing(d, raws, tail, frames)
    ensures data[pos + n..size] == tail[n..]
    ensures if ok then Parsing(d, raws + [tail[..n]], tail[n..], frames + [frame]) else d == Decoded(false, raws, [])
  {
    SplitSlice(data[..], pos, size, n);
    ok, frame := ReadFrame(data, pos, n);
    FrameTaken(d, raws, tail, frames, ok, frame);
  }

  lemma SplitSlice<T>(s: seq<T>, pos: nat, size: nat, n: nat)
    requires pos + n <= size <= |s|
    ensures s[pos..size][..n] == s[pos..pos + n] && s[pos..size][n..] == s[pos + n..size]
  {
  }

  lemma {:induction false} DecodeOne(raws: seq<RawFrame>, s: seq<Byte>)
    requires HasFrame(s)
    ensures var raw: RawFrame, d := s[..FrameLen(s)], Prepend(raws, Decode(s));
            if Xor(raw) != 0 then d == Decoded(false, raws, [])
            else d == Prepend(raws + [raw], Decode(s[FrameLen(s)..])) &&
                 FramesOfRaws(raws + [raw]) == FramesOfRaws(raws) + [FrameOfRaw(raw)]
  {
    var raw: RawFrame := s[..FrameLen(s)];
    ConcatAssociates(raws, [raw], Decode(s[FrameLen(s)..]).raws);
    assert (raws + [raw])[..|raws|] == raws;
  }

  lemma {:induction false} DecodeNone(raws: seq<RawFrame>, s: seq<Byte>)
    requires !HasFrame(s)
    ensures Prepend(raws, Decode(s)) == Decoded(true, raws, s)
  {
  }

  /** What a bulk read does to the buffer. */
  method BulkRead(data: array<Byte>, at: nat, incoming: seq<Byte>)
    requires at + |incoming| <= data.Length
    modifies data
    ensures data[..at] == old(data[..at]) && data[at..at + |incoming|] == incoming
  {
    forall k | 0 <= k < |incoming| { data[at + k] := incoming[k]; }
  }

  lemma ReadInto(data: seq<Byte>, left: seq<Byte>, incoming: seq<Byte>, recv: nat)
    requires |left| + |incoming| <= |data| && recv <= |incoming|
    requires data[..|left|] == left && data[|left|..|left| + |incoming|] == incoming
    ensures data[..|left| + recv] == left + incoming[..recv]
  {
    assert data[|left|..|left| + recv] == data[|left|..|left| + |incoming|][..recv];
  }

  class Panda {
    var receiveBuffer: array<Byte>
    var receiveBufferSize: nat
    /** How often the panda was told to reset its communication. */
    var resets: nat

    ghost predicate Valid()
      reads this
    {
      receiveBuffer.Length == RECEIVE_BUFFER_SIZE && receiveBufferSize < CAN_HEADER_SIZE + MAX_DATA_LEN
    }

    /** The bytes carried over to the next receive call. */
    ghost function Leftover(): seq<Byte>
      requires Valid()
      reads this, receiveBuffer
    {
      receiveBuffer[..receiveBufferSize]
    }

    constructor ()
      ensures Valid() && fresh(receiveBuffer) && Leftover() == [] && resets == 0
    {
      receiveBuffer := new Byte[RECEIVE_BUFFER_SIZE];
      receiveBufferSize, resets := 0, 0;
    }

    /**
     Unpacks the frames and moves the overflowing bytes to the front for the next round; a checksum that fails drops
     all the bytes and resets the communication.
     */
    method UnpackCanBuffer(data: array<Byte>, size: nat)
      returns (ok: bool, size': nat, frames: seq<CanFrame>)
      requires CAN_HEADER_SIZE <= data.Length && size <= data.Length < 0x8000_0000
      modifies this`resets, data
      ensures size' <= size
      ensures var d := Decode(old(data[..size]));
              ok == d.ok && frames == FramesOfRaws(d.raws) && data[..size'] == d.rest
      ensures resets == if ok then old(resets) else old(resets) + 1
    {
      var pos;
      ok, pos, frames := UnpackFrames(data, size);
      if !ok {
        resets := resets + 1;
        return false, 0, frames;
      }
      MoveToFront(data, pos, size);
      size' := size - pos;
    }

    /**
     One receive call. `incoming` is what the bulk read stored in the buffer, `recv` its return value (negative on an
     error), `healthy` the link state. An unhealthy link leaves the carried bytes alone. With `maxout` the rest of a
     full read is then asked for and thrown away: `junk` bytes.
     */
    method CanReceive(incoming: seq<Byte>, recv: int, healthy: bool, maxout: bool)
      returns (ok: bool, frames: seq<CanFrame>, junk: int)
      requires Valid()
      requires |incoming| <= RECV_SIZE && recv <= |incoming|
      modifies this`receiveBufferSize, this`resets, receiveBuffer
      ensures Valid()
      ensures !healthy ==> !ok && frames == [] && Leftover() == old(Leftover()) && resets == old(resets)
      ensures healthy ==>
        var d := Receive(old(Leftover()), if recv > 0 then incoming[..recv] else []);
        && ok == d.ok && frames == FramesOfRaws(d.raws) && Leftover() == d.rest
        && resets == if ok then old(resets) else old(resets) + 1
      ensures junk == if healthy && maxout then RECV_SIZE - recv else 0
    {
      // A whole read always fits behind the leftover.
      assert receiveBufferSize + RECV_SIZE <= receiveBuffer.Length;
      ghost var left := Leftover();
      BulkRead(receiveBuffer, receiveBufferSize, incoming);
      frames, junk := [], 0;
      if !healthy {
        return false, frames, junk;
      }
      if maxout {
        junk := RECV_SIZE - recv;
      }
      ok := true;
      if recv > 0 {
        ReadInto(receiveBuffer[..], left, incoming, recv);
        receiveBufferSize := receiveBufferSize + recv;
        ok, frames := Unpack(left, incoming[..recv]);
      }
    }

    /** Unpacks what was carried over and what has just been read behind it. */
    method Unpack(ghost left: seq<Byte>, ghost chunk: seq<Byte>) returns (ok: bool, frames: seq<CanFrame>)
      requires receiveBufferSize <= receiveBuffer.Length == RECEIVE_BUFFER_SIZE
      requires chunk != [] && receiveBuffer[..receiveBufferSize] == left + chunk
      modifies this`receiveBufferSize, this`resets, receiveBuffer
      ensures Valid()
      ensures var d := Receive(left, chunk);
              ok == d.ok && frames == FramesOfRaws(d.raws) && Leftover() == d.rest
      ensures resets == if ok then old(resets) else old(resets) + 1
    {
      ok, receiveBufferSize, frames := UnpackCanBuffer(receiveBuffer, receiveBufferSize);
    }

    /** The receive loop on a healthy link. */
    method ReceiveStream(chunks: seq<seq<Byte>>, maxout: bool) returns (ok: bool, frames: seq<CanFrame>)
      requires Valid()
      requires forall c :: c in chunks ==> |c| <= RECV_SIZE
      modifies this`receiveBufferSize, this`resets, receiveBuffer
      ensures Valid()
      ensures var d := ReceiveAll(old(Leftover()), chunks);
              ok == d.ok && frames == FramesOfRaws(d.raws) && Leftover() == d.rest
      ensures ok ==> resets == old(resets)
    {
      ghost var left := Leftover();
      ghost var done := ReceiveAll(left, chunks[..0]);
      ok, frames := true, [];
      for i := 0 to |chunks|
        invariant Valid() && done == ReceiveAll(left, chunks[..i])
        invariant ok == done.ok && frames == FramesOfRaws(done.raws) && Leftover() == done.rest
        invariant ok ==> resets == old(resets)
      {
        ghost var next := Receive(done.rest, chunks[i]);
        assert chunks[i][..|chunks[i]|] == chunks[i];
        var ok', frames', _ := CanReceive(chunks[i], |chunks[i]|, true, maxout);
        ReceiveStep(left, chunks, i);
        FramesOfRawsConcat(done.raws, next.raws);
        ok, frames := ok && ok', frames + frames';
        done := AfterOthers(done, next);
      }
      assert chunks[..|chunks|] == chunks;
    }

    /**
     End to end: messages packed, their bytes cut anew in any way into reads, and the reads received. What comes out
     is the messages meant for this panda, each with its address and data, in order; nothing is left over or reset.
     */
    method PackAndReceive(msgs: seq<CanMessage>, chunks: seq<seq<Byte>>, maxout: bool)
      returns (writes: seq<seq<Byte>>, ok: bool, frames: seq<CanFrame>)
      requires Valid() && Leftover() == []
      requires forall m :: m in msgs ==> Sendable(m)
      requires forall m :: m in msgs && Accepted(m) ==> Has29BitAddress(m)
      requires Flatten(chunks) == WireImage(msgs) && forall c :: c in chunks ==> |c| <= RECV_SIZE
      modifies this`receiveBufferSize, this`resets, receiveBuffer
      ensures Valid() && Flatten(writes) == Flatten(chunks)
      ensures ok && frames == FramesOf(msgs) && Leftover() == [] && resets == old(resets)
    {
      writes := PackCanBuffer(msgs);
      TransportRoundTrip(msgs, chunks);
      ok, frames := ReceiveStream(chunks, maxout);
    }
  }
}
