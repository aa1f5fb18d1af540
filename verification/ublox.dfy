/** The UBX frame that `Ublox::send` writes to the GPS receiver's serial
    port, and the 8-bit Fletcher checksum (RFC 1145) that the UBX protocol
    puts at its end.

    A frame is: the sync characters 0xB5 0x62, the message class, the
    message id, the payload length as two bytes (least significant first),
    the payload, and the two checksum bytes CK_A, CK_B computed over every
    byte from the class up to the end of the payload. */
module UbxFrame {
  import opened Bytes

  const SYNC_CHAR_1: Byte := 0xB5
  const SYNC_CHAR_2: Byte := 0x62

  /** Number of bytes a frame adds around its payload. */
  const FRAME_OVERHEAD: nat := 8

  datatype Checksum = Checksum(a: Byte, b: Byte)

  /** A message as a receiver sees it once a frame has been accepted. */
  datatype Message = Message(cls: Byte, id: Byte, payload: seq<Byte>)

  /** The running accumulators crcA and crcB after feeding the bytes of `s`
      one at a time, front to back: crcA += x; crcB += crcA, both in bytes. */
  function Fletcher(s: seq<Byte>): Checksum
    decreases |s|
  {
    if s == [] then Checksum(0, 0) else Feed(Fletcher(s[..|s| - 1]), s[|s| - 1])
  }

  /** One byte fed to the accumulators: crcA += x; crcB += crcA. */
  function Feed(crc: Checksum, x: Byte): Checksum
  {
    var a := AddBytes(crc.a, x);
    Checksum(a, AddBytes(crc.b, a))
  }

  /** One more byte fed to the accumulators. */
  lemma FletcherStep(s: seq<Byte>, n: nat)
    requires n < |s|
    ensures Fletcher(s[..n + 1]) == Feed(Fletcher(s[..n]), s[n])
  {
    assert s[..n + 1][..n] == s[..n];
  }

  lemma FletcherOfHeader(s: seq<Byte>)
    requires 4 <= |s|
    ensures Fletcher(s[..4]) == Feed(Feed(Feed(Feed(Checksum(0, 0), s[0]), s[1]), s[2]), s[3])
  {
    assert s[..0] == [];
    FletcherStep(s, 0);
    FletcherStep(s, 1);
    FletcherStep(s, 2);
    FletcherStep(s, 3);
  }

  /** The plain sum of the bytes, without wrap-around. */
  function Sum(s: seq<Byte>): nat
    decreases |s|
  {
    if s == [] then 0 else Sum(s[..|s| - 1]) + s[|s| - 1]
  }

  /** The sum of the sums of every non-empty prefix of `s`: the value crcB
      would have if neither accumulator wrapped. */
  function PrefixSums(s: seq<Byte>): nat
    decreases |s|
  {
    if s == [] then 0 else PrefixSums(s[..|s| - 1]) + Sum(s)
  }

  /** `(len >> 0) & 0xFF` */
  function LengthLow(len: Byte): Byte
  {
    Truncate(len)
  }

  /** `(len >> 8) & 0xFF`; `len` is declared `byte`, so nothing is left. */
  function LengthHigh(len: Byte): (hi: Byte)
    ensures hi == 0
  {
    Truncate(len / 256)
  }

  /** The bytes that `send` feeds to the checksum, in order. */
  function ChecksummedBytes(cls: Byte, id: Byte, len: Byte, payload: seq<Byte>): (s: seq<Byte>)
    requires len <= |payload|
    ensures |s| == len + 4
  {
    [cls, id, LengthLow(len), LengthHigh(len)] + payload[..len]
  }

  /** The bytes `send` writes to the port, in order. */
  function Frame(cls: Byte, id: Byte, len: Byte, payload: seq<Byte>): (f: seq<Byte>)
    requires len <= |payload|
    ensures |f| == len + FRAME_OVERHEAD
    ensures f[0] == SYNC_CHAR_1 && f[1] == SYNC_CHAR_2
    ensures f[2] == cls && f[3] == id
    ensures f[4] == len && f[5] == 0
    ensures f[6..len + 6] == payload[..len]
    ensures f[2..len + 6] == ChecksummedBytes(cls, id, len, payload)
  {
    var crc := Fletcher(ChecksummedBytes(cls, id, len, payload));
    [SYNC_CHAR_1, SYNC_CHAR_2] + ChecksummedBytes(cls, id, len, payload) + [crc.a, crc.b]
  }

  /** A receiver's check of one complete frame: the sync characters, a
      length field that matches the frame's size, and a checksum over bytes
      2 .. len+5 that matches the last two bytes. */
  function Parse(f: seq<Byte>): (r: Option<Message>)
    ensures r.Some? ==> |f| == |r.value.payload| + FRAME_OVERHEAD
    ensures r.Some? ==> f[0] == SYNC_CHAR_1 && f[1] == SYNC_CHAR_2
  {
    if |f| < FRAME_OVERHEAD || f[0] != SYNC_CHAR_1 || f[1] != SYNC_CHAR_2 then None
    else
      var n := f[4] as int + 256 * (f[5] as int);
      if |f| != n + FRAME_OVERHEAD then None
      else if Fletcher(f[2..n + 6]) != Checksum(f[n + 6], f[n + 7]) then None
      else Some(Message(f[2], f[3], f[6..n + 6]))
  }

  datatype Option<T> = None | Some(value: T)

  // ---------------------------------------------------------------------
  // The checksum

  lemma {:induction false} SumAppend(s: seq<Byte>, t: seq<Byte>)
    ensures Sum(s + t) == Sum(s) + Sum(t)
    decreases |t|
  {
    if t == [] {
      assert s + t == s;
    } else {
      var t' := t[..|t| - 1];
      assert (s + t)[..|s + t| - 1] == s + t';
      SumAppend(s, t');
    }
  }

  /** Fletcher's first byte is the byte sum modulo 256 and its second the
      sum of the prefix sums modulo 256: the wrap-around of the running
      `byte` accumulators loses nothing. */
  lemma {:induction false} FletcherClosedForm(s: seq<Byte>)
    ensures Fletcher(s) == Checksum(Sum(s) % 256, PrefixSums(s) % 256)
    decreases |s|
  {
    if s != [] {
      var p := s[..|s| - 1];
      FletcherClosedForm(p);
      var a := Fletcher(s).a;
      assert Fletcher(s) == Feed(Fletcher(p), s[|s| - 1]);
      AddBytesIsModular(Fletcher(p).a, s[|s| - 1]);
      AddBytesIsModular(Fletcher(p).b, a);
      ModOfSum(Sum(p), s[|s| - 1]);
      assert a == Sum(s) % 256;
      ModOfSum(PrefixSums(p), Sum(s));
      ModOfSum(Sum(s), PrefixSums(p) % 256);
      assert Fletcher(s).b == (PrefixSums(p) % 256 + a) % 256;
    }
  }

  /** Reducing one summand modulo 256 first does not change the sum's
      residue. */
  lemma ModOfSum(x: nat, y: nat)
    ensures (x % 256 + y) % 256 == (x + y) % 256
  {
    var q := x / 256;
    assert x == 256 * q + x % 256;
    assert x + y == 256 * q + (x % 256 + y);
  }

  /** CK_A of a frame is class + id + both length bytes + the payload bytes,
      modulo 256. */
  lemma FrameChecksumA(cls: Byte, id: Byte, len: Byte, payload: seq<Byte>)
    requires len <= |payload|
    ensures Frame(cls, id, len, payload)[len + 6]
            == (cls + id + len + 0 + Sum(payload[..len])) % 256
  {
    var s := ChecksummedBytes(cls, id, len, payload);
    FletcherClosedForm(s);
    SumAppend([cls, id, len, 0], payload[..len]);
    var h: seq<Byte> := [cls, id, len, 0];
    assert h[..1][..0] == [] && h[..2][..1] == h[..1];
    assert h[..3][..2] == h[..2] && h[..4][..3] == h[..3] && h[..4] == h;
    assert Sum(h[..1]) == cls;
    assert Sum(h[..2]) == cls + id;
    assert Sum(h[..3]) == cls + id + len;
  }

  /** CK_B of a frame is the sum, modulo 256, of the value CK_A held after
      each checksummed byte. */
  lemma FrameChecksumB(cls: Byte, id: Byte, len: Byte, payload: seq<Byte>)
    requires len <= |payload|
    ensures Frame(cls, id, len, payload)[len + 7]
            == PrefixSums(ChecksummedBytes(cls, id, len, payload)) % 256
  {
    FletcherClosedForm(ChecksummedBytes(cls, id, len, payload));
  }

  /** The checksum at the end of a frame covers exactly bytes 2 .. len+5:
      the sync characters are outside it. */
  lemma FrameChecksumCoverage(cls: Byte, id: Byte, len: Byte, payload: seq<Byte>)
    requires len <= |payload|
    ensures var f := Frame(cls, id, len, payload);
            Fletcher(f[2..len + 6]) == Checksum(f[len + 6], f[len + 7])
  {
  }

  // ---------------------------------------------------------------------
  // Round trips

  /** Every frame `send` produces is accepted by a receiver, which recovers
      the class, the id and the first `len` payload bytes. */
  lemma ParseFrame(cls: Byte, id: Byte, len: Byte, payload: seq<Byte>)
    requires len <= |payload|
    ensures Parse(Frame(cls, id, len, payload)) == Some(Message(cls, id, payload[..len]))
  {
    var f := Frame(cls, id, len, payload);
    assert f[4] + 256 * f[5] == len;
  }

  /** Conversely, a frame that a receiver accepts and whose payload fits the
      one-byte length `send` takes is exactly what `send` writes for it. */
  lemma FrameOfParse(f: seq<Byte>)
    requires Parse(f).Some? && |Parse(f).value.payload| < 256
    ensures var m := Parse(f).value;
            Frame(m.cls, m.id, |m.payload|, m.payload) == f
  {
    var m := Parse(f).value;
    var g := Frame(m.cls, m.id, |m.payload|, m.payload);
    var n := |m.payload|;
    assert f[5] == 0;
    assert f[2..n + 6] == g[2..n + 6];
    assert f[n + 6] == g[n + 6] && f[n + 7] == g[n + 7];
    EqualByParts(f, g, n);
  }

  /** Two frames of the same size agree when their sync characters, their
      checksummed bytes and their checksums agree. */
  lemma EqualByParts(f: seq<Byte>, g: seq<Byte>, n: nat)
    requires |f| == n + FRAME_OVERHEAD && |g| == n + FRAME_OVERHEAD
    requires f[0] == g[0] && f[1] == g[1] && f[2..n + 6] == g[2..n + 6]
    requires f[n + 6] == g[n + 6] && f[n + 7] == g[n + 7]
    ensures f == g
  {
    assert f == f[..2] + f[2..n + 6] + f[n + 6..];
    assert g == g[..2] + g[2..n + 6] + g[n + 6..];
  }

  /** Replacing one byte of a window changes its sum by the difference. */
  lemma {:induction false} SumUpdate(s: seq<Byte>, k: nat, b: Byte)
    requires k < |s|
    ensures Sum(s[k := b]) == Sum(s) - s[k] + b
    decreases |s|
  {
    var t := s[k := b];
    if k == |s| - 1 {
      assert t[..|t| - 1] == s[..|s| - 1];
    } else {
      assert t[..|t| - 1] == s[..|s| - 1][k := b];
      SumUpdate(s[..|s| - 1], k, b);
    }
  }

  /** Trading one byte of a sum for a different byte changes the sum's
      residue modulo 256, since the two bytes differ by less than 256. */
  lemma ReplacedByteChangesResidue(x: int, u: Byte, b: Byte)
    requires u != b
    ensures (x - u + b) % 256 != x % 256
  {
    var y := x - u + b;
    assert y == 256 * (y / 256) + y % 256;
    assert x == 256 * (x / 256) + x % 256;
  }

  /** Any single corrupted byte anywhere in a frame makes a receiver reject
      it: the checksum detects every single-byte error. */
  lemma SingleByteErrorDetected(cls: Byte, id: Byte, len: Byte, payload: seq<Byte>, k: nat, b: Byte)
    requires len <= |payload|
    requires k < len + FRAME_OVERHEAD
    requires b != Frame(cls, id, len, payload)[k]
    ensures Parse(Frame(cls, id, len, payload)[k := b]) == None
  {
    var f := Frame(cls, id, len, payload);
    var g := f[k := b];
    if k == 4 || k == 5 {
      assert g[4] + 256 * g[5] != len;
    } else if 2 <= k < len + 6 {
      var s, t := f[2..len + 6], g[2..len + 6];
      assert t == s[k - 2 := b];
      SumUpdate(s, k - 2, b);
      FletcherClosedForm(s);
      FletcherClosedForm(t);
      ReplacedByteChangesResidue(Sum(s), s[k - 2], b);
    } else if k >= len + 6 {
      assert g[2..len + 6] == f[2..len + 6];
    }
  }

  /** Writing a header, a payload and two checksum bytes one after the
      other appends them as one frame. */
  lemma WritesInOrder(port: seq<Byte>, header: seq<Byte>, body: seq<Byte>, a: Byte, b: Byte)
    ensures port + header + body + [a] + [b] == port + (header + body + [a, b])
  {
  }

  /** Serial1 of the board: the bytes written to the GPS receiver so far.
      `Ublox::send` is the only operation of the class modelled here. */
  class Ublox {
    var serial1: seq<Byte>

    constructor ()
      ensures serial1 == []
    {
      serial1 := [];
    }

    /** The checksum half of `Ublox::send`: the two `byte` accumulators
        fed with the class, the id, both length bytes and `len` payload
        bytes. */
    static method FrameChecksum(cls: Byte, id: Byte, len: Byte, payload: seq<Byte>) returns (crcA: Byte, crcB: Byte)
      requires len <= |payload|
      ensures Checksum(crcA, crcB) == Fletcher(ChecksummedBytes(cls, id, len, payload))
    {
      ghost var input := ChecksummedBytes(cls, id, len, payload);
      crcA := 0;
      crcB := 0;

      crcA := AddBytes(crcA, cls);
      crcB := AddBytes(crcB, crcA);

      crcA := AddBytes(crcA, id);
      crcB := AddBytes(crcB, crcA);

      crcA := AddBytes(crcA, LengthLow(len));
      crcB := AddBytes(crcB, crcA);
      crcA := AddBytes(crcA, LengthHigh(len));
      crcB := AddBytes(crcB, crcA);

      assert Checksum(crcA, crcB) == Fletcher(input[..4]) by {
        FletcherOfHeader(input);
      }

      for i := 0 to len
        invariant Checksum(crcA, crcB) == Fletcher(input[..4 + i])
      {
        assert input[4 + i] == payload[i];
        FletcherStep(input, 4 + i);
        crcA := AddBytes(crcA, payload[i]);
        crcB := AddBytes(crcB, crcA);
      }
      assert input[..4 + len] == input;
    }

    /** `Ublox::send`: frames `len` bytes of `payload` as a UBX message of
        class `cls` and id `id` and writes the frame to the port; it reads
        exactly `len` payload bytes. */
    method Send(cls: Byte, id: Byte, len: Byte, payload: seq<Byte>)
      requires len <= |payload|
      modifies this
      ensures serial1 == old(serial1) + Frame(cls, id, len, payload)
    {
      var crcA, crcB := FrameChecksum(cls, id, len, payload);
      ghost var header := [SYNC_CHAR_1, SYNC_CHAR_2, cls, id, LengthLow(len), LengthHigh(len)];
      assert Frame(cls, id, len, payload) == header + payload[..len] + [crcA, crcB];

      serial1 := serial1 + [SYNC_CHAR_1];
      serial1 := serial1 + [SYNC_CHAR_2];
      serial1 := serial1 + [cls];
      serial1 := serial1 + [id];
      serial1 := serial1 + [LengthLow(len)];
      serial1 := serial1 + [LengthHigh(len)];
      assert serial1 == old(serial1) + header;
      serial1 := serial1 + payload[..len];
      serial1 := serial1 + [crcA];
      serial1 := serial1 + [crcB];
      WritesInOrder(old(serial1), header, payload[..len], crcA, crcB);
    }
  }
}
