/** The byte frame of the CALIN meter protocol: masking, checksum, building and checking. */
module CalinFrame {
  import opened Domain

  type Byte = b: int | 0 <= b < 256

  const HEADER_BYTE: Byte := 0x68
  const END_BYTE: Byte := 0x16

  function Mask(b: Byte): Byte {
    (b + 0x33) % 256
  }

  function Unmask(b: Byte): Byte {
    (b - 0x33 + 256) % 256
  }

  lemma UnmaskMask(b: Byte)
    ensures Unmask(Mask(b)) == b && Mask(Unmask(b)) == b
  {
  }

  function MaskAll(bytes: seq<Byte>): (r: seq<Byte>)
    ensures |r| == |bytes| && forall i :: 0 <= i < |bytes| ==> r[i] == Mask(bytes[i])
  {
    seq(|bytes|, i requires 0 <= i < |bytes| => Mask(bytes[i]))
  }

  function UnmaskAll(bytes: seq<Byte>): (r: seq<Byte>)
    ensures |r| == |bytes| && forall i :: 0 <= i < |bytes| ==> r[i] == Unmask(bytes[i])
  {
    seq(|bytes|, i requires 0 <= i < |bytes| => Unmask(bytes[i]))
  }

  function Reverse(bytes: seq<Byte>): (r: seq<Byte>)
    ensures |r| == |bytes| && forall i :: 0 <= i < |bytes| ==> r[i] == bytes[|bytes| - 1 - i]
  {
    seq(|bytes|, i requires 0 <= i < |bytes| => bytes[|bytes| - 1 - i])
  }

  lemma ReverseReverse(bytes: seq<Byte>)
    ensures Reverse(Reverse(bytes)) == bytes
  {
  }

  function Sum(bytes: seq<nat>): nat {
    if bytes == [] then 0 else Sum(bytes[..|bytes| - 1]) + bytes[|bytes| - 1]
  }

  lemma {:induction false} SumAfterChange(bytes: seq<Byte>, i: nat, v: Byte)
    requires i < |bytes|
    ensures Sum(bytes[i := v]) == Sum(bytes) - bytes[i] + v
    decreases |bytes|
  {
    var n := |bytes| - 1;
    if i == n {
      assert bytes[i := v][..n] == bytes[..n];
    } else {
      assert bytes[i := v][..n] == bytes[..n][i := v];
      SumAfterChange(bytes[..n], i, v);
    }
  }

  /** Two bytes that differ change a sum modulo 256. */
  lemma ByteChangesChecksum(total: nat, a: Byte, b: Byte)
    requires a != b && total >= a
    ensures (total - a + b) % 256 != total % 256
  {
    var changed := total - a + b;
    assert changed == 256 * (changed / 256) + changed % 256 && total == 256 * (total / 256) + total % 256;
  }

  function Checksum(bytes: seq<nat>): Byte {
    Sum(bytes) % 256
  }

  /** What a frame carries, in the sender's order: nothing is masked or reversed. */
  datatype Frame = Frame(address: seq<Byte>, control: Byte, identifier: seq<Byte>, data: seq<Byte>)

  predicate ValidFrame(f: Frame) {
    |f.address| == 6 && |f.identifier| == 2 && |f.data| <= 253
  }

  /** Everything before the checksum; `size` is the declared data size. */
  function FrameBody(address: seq<Byte>, control: Byte, size: Byte, identifier: seq<Byte>,
                     written: seq<Byte>): seq<Byte>
  {
    [HEADER_BYTE] + Reverse(address) + [HEADER_BYTE, control, size] + Reverse(MaskAll(identifier)) + written
  }

  function Seal(body: seq<Byte>): seq<Byte> {
    body + [Checksum(body), END_BYTE]
  }

  /** A frame on the wire: `written` is the data area as sent. */
  function Build(address: seq<Byte>, control: Byte, identifier: seq<Byte>, written: seq<Byte>): seq<Byte>
    requires |written| <= 253
  {
    Seal(FrameBody(address, control, 2 + |written|, identifier, written))
  }

  /** The reader's part of a byte array, cut off at its end as the runtime does. */
  function Slice(bytes: seq<Byte>, from: nat, to: nat): seq<Byte>
    requires from <= to
  {
    var last := if to <= |bytes| then to else |bytes|;
    if from <= last then bytes[from..last] else []
  }

  /** The checks the decoder makes on a frame before it looks at what it means. */
  predicate HeadersMatch(bytes: seq<Byte>) {
    |bytes| > 7 && bytes[0] == HEADER_BYTE && bytes[7] == HEADER_BYTE && bytes[|bytes| - 1] == END_BYTE
  }

  predicate ChecksumMatches(bytes: seq<Byte>)
    requires |bytes| >= 2
  {
    Checksum(bytes[..|bytes| - 2]) == bytes[|bytes| - 2]
  }

  predicate LengthSuffices(bytes: seq<Byte>)
    requires |bytes| >= 10
  {
    |bytes| >= 12 + (bytes[9] as int)
  }

  /** Reading a frame back: its parts unmasked and put in the sender's order. */
  function Read(bytes: seq<Byte>): Option<Frame> {
    if |bytes| < 14 || !HeadersMatch(bytes) || !ChecksumMatches(bytes) || !LengthSuffices(bytes) then None
    else Some(Frame(
      Reverse(bytes[1..7]), bytes[8], Reverse(UnmaskAll(bytes[10..12])), Reverse(UnmaskAll(bytes[12..|bytes| - 2]))))
  }

  lemma BuildShape(address: seq<Byte>, control: Byte, identifier: seq<Byte>, written: seq<Byte>)
    requires |address| == 6 && |identifier| == 2 && |written| <= 253
    ensures var bytes := Build(address, control, identifier, written);
      && |bytes| == 14 + |written| == 12 + (bytes[9] as int)
      && bytes[0] == HEADER_BYTE && bytes[1..7] == Reverse(address) && bytes[7] == HEADER_BYTE && bytes[8] == control
      && bytes[10..12] == Reverse(MaskAll(identifier)) && bytes[12..|bytes| - 2] == written
      && bytes[|bytes| - 1] == END_BYTE && ChecksumMatches(bytes)
  {
    var body := FrameBody(address, control, 2 + |written|, identifier, written);
    var bytes := Build(address, control, identifier, written);
    assert bytes[..|bytes| - 2] == body;
    assert body[1..7] == Reverse(address);
    assert body[10..12] == Reverse(MaskAll(identifier));
    assert body[12..] == written;
    assert bytes[1..7] == body[1..7] && bytes[10..12] == body[10..12] && bytes[12..|bytes| - 2] == body[12..];
  }

  /** Frame round trip: a frame reads back as what it carries, whatever the address, codes and data. */
  lemma ReadBuilt(f: Frame)
    requires ValidFrame(f)
    ensures Read(Build(f.address, f.control, f.identifier, Reverse(MaskAll(f.data)))) == Some(f)
  {
    var written := Reverse(MaskAll(f.data));
    var bytes := Build(f.address, f.control, f.identifier, written);
    BuildShape(f.address, f.control, f.identifier, written);
    UnmaskReversed(f.identifier);
    UnmaskReversed(f.data);
    ReverseReverse(f.address);
  }

  lemma UnmaskReversed(bytes: seq<Byte>)
    ensures Reverse(UnmaskAll(Reverse(MaskAll(bytes)))) == bytes
  {
    var masked := Reverse(MaskAll(bytes));
    forall i | 0 <= i < |bytes| ensures Reverse(UnmaskAll(masked))[i] == bytes[i] {
      UnmaskMask(bytes[i]);
    }
  }

  lemma {:induction false} SumAppend(a: seq<Byte>, b: seq<Byte>)
    ensures Sum(a + b) == Sum(a) + Sum(b)
    decreases |b|
  {
    if b == [] {
      assert a + b == a;
    } else {
      assert (a + b)[..|a + b| - 1] == a + b[..|b| - 1];
      SumAppend(a, b[..|b| - 1]);
    }
  }

  /** Changing one byte of a sealed frame before its end byte breaks the checksum. */
  lemma ChangeBreaksChecksum(bytes: seq<Byte>, i: nat, v: Byte)
    requires |bytes| >= 2 && ChecksumMatches(bytes) && i < |bytes| - 1 && v != bytes[i]
    ensures !ChecksumMatches(bytes[i := v])
  {
    var n := |bytes| - 2;
    var changed := bytes[i := v];
    if i == n {
      assert changed[..n] == bytes[..n];
    } else {
      assert changed[..n] == bytes[..n][i := v];
      SumAfterChange(bytes[..n], i, v);
      SumIsAtLeast(bytes[..n], i);
      ByteChangesChecksum(Sum(bytes[..n]), bytes[i], v);
    }
  }

  lemma {:induction false} SumIsAtLeast(bytes: seq<Byte>, i: nat)
    requires i < |bytes|
    ensures Sum(bytes) >= bytes[i]
    decreases |bytes|
  {
    if i < |bytes| - 1 {
      SumIsAtLeast(bytes[..|bytes| - 1], i);
    }
  }
}
