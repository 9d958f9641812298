/**
 Cutting an ES10x command into APDUs a card can put together again, and telephony BCD digits.
 */
module EsimCommands {
  import opened Bytes
  import opened Wrappers

  // ----- Segments -----

  const ES10X_MSS := 120

  function ChunkLength(data: seq<Byte>, offset: nat): (n: nat)
    requires offset < |data|
    ensures 0 < n <= ES10X_MSS && offset + n <= |data|
  {
    if |data| - offset < ES10X_MSS then |data| - offset else ES10X_MSS
  }

  /** A STORE DATA command: P1 tells the last one, P2 is the sequence number. */
  function StoreData(last: bool, sequence: nat, chunk: seq<Byte>): seq<Byte>
    requires |chunk| <= ES10X_MSS
  {
    [0x80, 0xE2, if last then 0x91 else 0x11, sequence % 0x100, |chunk|] + chunk
  }

  function SegmentsFrom(data: seq<Byte>, offset: nat, sequence: nat): seq<seq<Byte>>
    requires offset <= |data|
    decreases |data| - offset
  {
    if offset == |data| then []
    else
      var n := ChunkLength(data, offset);
      [StoreData(offset + n == |data|, sequence, data[offset..offset + n])]
        + SegmentsFrom(data, offset + n, sequence + 1)
  }

  method Segments(data: seq<Byte>) returns (apdus: seq<seq<Byte>>)
    ensures apdus == SegmentsFrom(data, 0, 0)
  {
    apdus := [];
    var sequence, offset := 0, 0;
    while offset < |data|
      invariant offset <= |data| && 0 <= sequence
      invariant apdus + SegmentsFrom(data, offset, sequence) == SegmentsFrom(data, 0, 0)
    {
      var chunk := data[offset..if offset + ES10X_MSS < |data| then offset + ES10X_MSS else |data|];
      ghost var rest := SegmentsFrom(data, offset + |chunk|, sequence + 1);
      offset := offset + |chunk|;
      var apdu := StoreData(offset == |data|, sequence, chunk);
      assert apdus + ([apdu] + rest) == apdus + [apdu] + rest;
      apdus := apdus + [apdu];
      sequence := sequence + 1;
    }
    assert apdus + [] == apdus;
  }

  /** A card's side: commands in sequence, complete, and with the last one marked and only it. */
  function Reassemble(apdus: seq<seq<Byte>>, sequence: nat): Option<seq<Byte>> {
    if apdus == [] then Some([])
    else
      var a := apdus[0];
      if |a| < 5 || a[0] != 0x80 || a[1] != 0xE2 || a[3] != sequence % 0x100 || a[4] != |a| - 5 then None
      else if a[2] != (if |apdus| == 1 then 0x91 else 0x11) then None
      else
        match Reassemble(apdus[1..], sequence + 1)
        case None => None
        case Some(rest) => Some(a[5..] + rest)
  }

  /** A card that checks every header gets back exactly the data. */
  lemma {:induction false} SegmentsReassemble(data: seq<Byte>, offset: nat, sequence: nat)
    requires offset <= |data|
    ensures Reassemble(SegmentsFrom(data, offset, sequence), sequence) == Some(data[offset..])
    ensures SegmentsFrom(data, offset, sequence) == [] <==> offset == |data|
    decreases |data| - offset
  {
    if offset < |data| {
      var n := ChunkLength(data, offset);
      SegmentsReassemble(data, offset + n, sequence + 1);
      var rest := SegmentsFrom(data, offset + n, sequence + 1);
      ReassembleOne(offset + n == |data|, sequence, data[offset..offset + n], rest);
      assert data[offset..offset + n] + data[offset + n..] == data[offset..];
    } else {
      assert data[offset..] == [];
    }
  }

  lemma {:induction false} ReassembleOne(last: bool, sequence: nat, chunk: seq<Byte>, rest: seq<seq<Byte>>)
    requires |chunk| <= ES10X_MSS && (last <==> rest == []) && Reassemble(rest, sequence + 1).Some?
    ensures Reassemble([StoreData(last, sequence, chunk)] + rest, sequence)
            == Some(chunk + Reassemble(rest, sequence + 1).value)
  {
    var a := StoreData(last, sequence, chunk);
    assert a[0] == 0x80 && a[1] == 0xE2 && a[2] == (if last then 0x91 else 0x11) && a[3] == sequence % 0x100
           && a[4] == |chunk|;
    assert a[5..] == chunk && ([a] + rest)[1..] == rest;
  }

  /** As many commands as it takes, all but the last with a full chunk. */
  lemma {:induction false} SegmentsAreFull(data: seq<Byte>, offset: nat, sequence: nat)
    requires offset <= |data|
    ensures var segments, size := SegmentsFrom(data, offset, sequence), |data| - offset;
            && |segments| == (size + 119) / 120
            && (forall i :: 0 <= i < |segments| - 1 ==> |segments[i]| == 5 + 120)
            && (segments != [] ==> |segments[|segments| - 1]| == 5 + size - 120 * (|segments| - 1))
    decreases |data| - offset
  {
    if offset < |data| {
      SegmentsAreFull(data, offset + ChunkLength(data, offset), sequence + 1);
    }
  }

  // ----- Telephony BCD -----

  type Digit = d: int | 0 <= d < 10

  function Pair(low: nat, high: nat): (b: Byte)
    requires low < 0x10 && high < 0x10
    ensures b % 0x10 == low && b / 0x10 == high
  {
    low + 0x10 * high
  }

  /** Two digits to a byte, the first in the low half; an odd last one is filled up with 0xF. */
  function Pack(digits: seq<Digit>): seq<Byte> {
    if digits == [] then []
    else if |digits| == 1 then [Pair(digits[0], 0xF)]
    else [Pair(digits[0], digits[1])] + Pack(digits[2..])
  }

  function Half(n: nat): seq<Digit> {
    if n <= 9 then [n] else []
  }

  /** The digits of the halves; whatever is no digit is dropped. */
  function Unpack(raw: seq<Byte>): seq<Digit> {
    if raw == [] then [] else Half(raw[0] % 0x10) + Half(raw[0] / 0x10) + Unpack(raw[1..])
  }

  /** Digits in both halves, but for a filler in the high half of the last byte. */
  predicate IsPacked(raw: seq<Byte>) {
    raw == [] ||
    (raw[0] % 0x10 <= 9 && (raw[0] / 0x10 <= 9 || (|raw| == 1 && raw[0] / 0x10 == 0xF)) && IsPacked(raw[1..]))
  }

  lemma {:induction false} PackUnpack(digits: seq<Digit>)
    ensures Unpack(Pack(digits)) == digits && IsPacked(Pack(digits))
    decreases |digits|
  {
    if |digits| > 1 {
      PackUnpack(digits[2..]);
      var b := Pair(digits[0], digits[1]);
      assert b % 0x10 == digits[0] && b / 0x10 == digits[1];
      assert ([b] + Pack(digits[2..]))[1..] == Pack(digits[2..]);
      assert digits == [digits[0]] + [digits[1]] + digits[2..];
    } else if |digits| == 1 {
      var b := Pair(digits[0], 0xF);
      assert b % 0x10 == digits[0] && b / 0x10 == 0xF;
      assert [b][1..] == [];
      assert digits == [digits[0]] + [] + [];
    }
  }

  /** Which half of which byte holds which digit. */
  lemma {:induction false} PackedHalves(digits: seq<Digit>, i: nat)
    ensures |Pack(digits)| == (|digits| + 1) / 2
    ensures i < |digits| ==> digits[i] == if i % 2 == 0 then Pack(digits)[i / 2] % 0x10 else Pack(digits)[i / 2] / 0x10
    ensures |digits| % 2 == 1 ==> Pack(digits)[|digits| / 2] / 0x10 == 0xF
    decreases |digits|
  {
    if |digits| > 1 {
      PackedHalves(digits[2..], if i >= 2 then i - 2 else 0);
      var b := Pair(digits[0], digits[1]);
      assert Pack(digits) == [b] + Pack(digits[2..]);
      assert b % 0x10 == digits[0] && b / 0x10 == digits[1];
    } else if |digits| == 1 {
      var b := Pair(digits[0], 0xF);
      assert b % 0x10 == digits[0] && b / 0x10 == 0xF;
    }
  }

  /** Unpacking then packing gives the bytes back exactly when they are digits with at most the one filler. */
  lemma {:induction false} UnpackPack(raw: seq<Byte>)
    ensures Pack(Unpack(raw)) == raw <==> IsPacked(raw)
    decreases |raw|
  {
    PackUnpack(Unpack(raw));
    if IsPacked(raw) && raw != [] {
      UnpackPack(raw[1..]);
      UnpackPackOne(raw[0], raw[1..]);
      assert raw == [raw[0]] + raw[1..];
    }
  }

  lemma {:induction false} UnpackPackOne(b: Byte, rest: seq<Byte>)
    requires b % 0x10 <= 9 && (b / 0x10 <= 9 || (rest == [] && b / 0x10 == 0xF))
    requires Pack(Unpack(rest)) == rest
    ensures Pack(Unpack([b] + rest)) == [b] + rest
  {
    var low, high := b % 0x10, b / 0x10;
    assert ([b] + rest)[1..] == rest && Pair(low, high) == b;
    if high <= 9 {
      var all := Unpack([b] + rest);
      assert all == [low] + [high] + Unpack(rest);
      assert all[2..] == Unpack(rest) && all[0] == low && all[1] == high;
    } else {
      assert Unpack([b] + rest) == [low] + [] + [];
    }
  }
}
