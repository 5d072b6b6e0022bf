/** The package format of the TCP connection: two bytes of version, a big-endian int16 with the length of the
    whole package, and the message. */
module Packages {
  type Byte = b: int | 0 <= b < 256
  type Bytes = seq<Byte>
  type Version = v: Bytes | |v| == 2 witness [0, 0]

  const VERSION_LENGTH: nat := 2
  const LENGTH_LENGTH: nat := 2
  const TCP_HEADER_LENGTH: nat := VERSION_LENGTH + LENGTH_LENGTH
  const VERSION_CONTENT: Version := [118, 49]
  const MAX_BODY: nat := 32763

  /** The fields of a StickPackage. */
  datatype Fields = Fields(version: Version, length: int, msg: Bytes)

  predicate IsInt16(n: int) { -0x8000 <= n < 0x8000 }

  /** Conversion to int16, and so also the int16 result of int16 addition and subtraction. */
  function Int16(n: int): (r: int)
    ensures IsInt16(r)
  {
    (n + 0x8000) % 0x1_0000 - 0x8000
  }

  function PackageLength(msg: Bytes): int {
    Int16(4 + Int16(|msg|))
  }

  function BigEndian(n: int): Bytes {
    [n % 0x1_0000 / 0x100, n % 0x100]
  }

  function FromBigEndian(hi: Byte, lo: Byte): int {
    Int16(0x100 * hi + lo)
  }

  function Packed(p: Fields): Bytes {
    p.version + BigEndian(p.length) + p.msg
  }

  datatype Status = Done | ShortRead | Panicked

  datatype Unpacking = Unpacking(fields: Fields, status: Status)

  /** Unpack on the bytes that the reader has. A header that is cut short leaves its fields as they are;
      a negative size for the body is a run-time panic. */
  function Unpacked(p: Fields, bytes: Bytes): Unpacking {
    var version := if |bytes| >= 2 then bytes[..2] else p.version;
    var length := if |bytes| >= 4 then FromBigEndian(bytes[2], bytes[3]) else p.length;
    var size := Int16(length - 4);
    if size < 0 then Unpacking(Fields(version, length, p.msg), Panicked)
    else
      var body := if |bytes| >= 4 then bytes[4..] else [];
      if |body| >= size then Unpacking(Fields(version, length, body[..size]), Done)
      else Unpacking(Fields(version, length, seq(size, _ => 0)), ShortRead)
  }

  class Writer {
    var written: Bytes

    constructor ()
      ensures written == []
    {
      written := [];
    }

    method Write(bytes: Bytes)
      modifies this
      ensures written == old(written) + bytes
    {
      written := written + bytes;
    }
  }

  class StickPackage {
    var version: Version
    var length: int
    var msg: Bytes

    function Contents(): Fields
      reads this
    {
      Fields(version, length, msg)
    }

    constructor (version: Version)
      ensures Contents() == Fields(version, 0, [])
    {
      this.version, length, msg := version, 0, [];
    }

    method GetPackageLength() returns (n: int)
      modifies `length
      ensures n == length == PackageLength(msg)
      ensures n == |Packed(Contents())| <==> |msg| <= MAX_BODY
    {
      length := Int16(4 + Int16(|msg|));
      n := length;
      LengthIsExact(msg);
    }

    method Pack(writer: Writer)
      modifies writer
      ensures writer.written == old(writer.written) + Packed(Contents())
    {
      writer.Write(version);
      writer.Write(BigEndian(length));
      writer.Write(msg);
    }

    method Unpack(reader: Bytes) returns (status: Status)
      modifies this
      ensures Unpacking(Contents(), status) == Unpacked(old(Contents()), reader)
    {
      var at := if |reader| < 2 then |reader| else 2;
      if at == 2 {
        version := reader[..2];
      }
      if |reader| - at >= 2 {
        length := FromBigEndian(reader[2], reader[3]);
        at := 4;
      } else {
        at := |reader|;
      }
      var size := Int16(length - 4);
      if size < 0 {
        return Panicked;
      }
      msg := seq(size, _ => 0);
      if |reader| - at < size {
        return ShortRead;
      }
      msg := reader[at..at + size];
      return Done;
    }
  }

  // ---------- laws ----------

  lemma Int16Identity(n: int)
    ensures Int16(n) == n <==> IsInt16(n)
  {
  }

  lemma RemainderIsUnique(n: int, q: int, r: int)
    requires n == 0x1_0000 * q + r && 0 <= r < 0x1_0000
    ensures n % 0x1_0000 == r
  {
  }

  lemma Int16Sum(a: int, b: int)
    ensures Int16(a + Int16(b)) == Int16(a + b)
  {
    var wraps := (b + 0x8000) / 0x1_0000;
    var n := a + Int16(b) + 0x8000;
    assert a + b + 0x8000 == n + 0x1_0000 * wraps;
    RemainderIsUnique(a + b + 0x8000, n / 0x1_0000 + wraps, n % 0x1_0000);
  }

  lemma BigEndianRoundTrip(n: int)
    requires IsInt16(n)
    ensures FromBigEndian(BigEndian(n)[0], BigEndian(n)[1]) == n
  {
    var w := n % 0x1_0000;
    assert n % 0x100 == w % 0x100 by {
      assert n == 0x1_0000 * (n / 0x1_0000) + w;
      assert n == 0x100 * (0x100 * (n / 0x1_0000) + w / 0x100) + w % 0x100;
    }
  }

  /** The declared length is the number of bytes written exactly for messages of at most 32763 bytes. */
  lemma LengthIsExact(msg: Bytes)
    ensures PackageLength(msg) == 4 + |msg| <==> |msg| <= MAX_BODY
  {
    Int16Sum(4, |msg|);
    Int16Identity(4 + |msg|);
  }

  /** Unpack after Pack restores version, length and message exactly for messages of at most 32767 bytes:
      up to there, the wrapped length less four is the true size again. */
  lemma RoundTripExactly(version: Version, msg: Bytes, q: Fields)
    ensures var sent := Fields(version, PackageLength(msg), msg);
            Unpacked(q, Packed(sent)) == Unpacking(sent, Done) <==> |msg| < 0x8000
  {
    var sent := Fields(version, PackageLength(msg), msg);
    var bytes := Packed(sent);
    BigEndianRoundTrip(sent.length);
    assert bytes[..2] == version && bytes[2] == BigEndian(sent.length)[0] && bytes[3] == BigEndian(sent.length)[1];
    assert bytes[4..] == msg;
    Int16Sum(4, |msg|);
    Int16Sum(-4, 4 + |msg|);
    Int16Identity(|msg|);
    assert msg[..|msg|] == msg;
  }
}
