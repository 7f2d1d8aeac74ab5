/**
 The wire format of the file server: seven longs, the used parts of the name and of the data, and a flag, one after
 the other at offsets that depend on the two lengths. Integers are little-endian two's complement, as in the memory of
 the machines it runs on.
 */
module Message {
  import opened Words

  const SL := 8
  const INT := 4
  const MAX_PATH := 255
  const BUF_SIZE := 1024
  const HEADER := 7 * SL
  /** sizeof(struct message), with the padding behind the flag. */
  const SIZEOF := 1344

  type s64 = x: int | -0x8000_0000_0000_0000 <= x < 0x8000_0000_0000_0000

  // ---------- integers as bytes ----------

  function Pow256(n: nat): (p: nat)
    ensures p > 0
  {
    if n == 0 then 1 else 256 * Pow256(n - 1)
  }

  /** The `n` low bytes of `u`, the least significant first. */
  function Bytes(u: nat, n: nat): (b: seq<u8>)
    ensures |b| == n
  {
    if n == 0 then [] else [u % 256] + Bytes(u / 256, n - 1)
  }

  function Number(b: seq<u8>): nat {
    if b == [] then 0 else b[0] + 256 * Number(b[1..])
  }

  lemma {:induction false} NumberOfBytes(u: nat, n: nat)
    requires u < Pow256(n)
    ensures Number(Bytes(u, n)) == u
    decreases n
  {
    if n > 0 {
      NumberOfBytes(u / 256, n - 1);
    }
  }

  /** The unsigned reading of `x` modulo `m`, for `x` not below `-m`. */
  function Modulo(x: int, m: nat): nat {
    if x >= 0 then x else if x + m >= 0 then x + m else 0
  }

  /** Two's complement in `n` bytes. */
  function Signed(x: int, n: nat): seq<u8> {
    Bytes(Modulo(x, Pow256(n)), n)
  }

  function Unsigned(b: seq<u8>): int {
    var u: int := Number(b);
    if 2 * u < Pow256(|b|) then u else u - Pow256(|b|)
  }

  lemma SignedRoundTrip(x: int, n: nat)
    requires 0 <= 2 * x + Pow256(n) && 2 * x < Pow256(n)
    ensures Unsigned(Signed(x, n)) == x
  {
    NumberOfBytes(Modulo(x, Pow256(n)), n);
  }

  lemma LongRoundTrip(x: s64)
    ensures |Signed(x, SL)| == SL && Unsigned(Signed(x, SL)) == x
  {
    assert Pow256(8) == 0x1_0000_0000_0000_0000;
    SignedRoundTrip(x, SL);
  }

  lemma IntRoundTrip(x: s32)
    ensures |Signed(x, INT)| == INT && Unsigned(Signed(x, INT)) == x
  {
    assert Pow256(4) == 0x1_0000_0000;
    SignedRoundTrip(x, INT);
  }

  // ---------- messages as values ----------

  datatype Header = Header(source: s64, dest: s64, opcode: s64, count: s64, offset: s64, result: s64, nameLen: s64)

  datatype Value = Value(header: Header, name: seq<u8>, data: seq<u8>, sendFileContent: s32)

  /** The two arrays have their declared sizes, and the lengths stay inside them. */
  predicate WellFormed(v: Value) {
    && |v.name| == MAX_PATH && |v.data| == BUF_SIZE
    && 0 <= v.header.nameLen <= MAX_PATH && 0 <= v.header.count <= BUF_SIZE
  }

  function HeaderBytes(h: Header): seq<u8> {
    Signed(h.source, SL) + Signed(h.dest, SL) + Signed(h.opcode, SL) + Signed(h.count, SL)
    + Signed(h.offset, SL) + Signed(h.result, SL) + Signed(h.nameLen, SL)
  }

  /** What the sender writes; the rest of its buffer is not initialized. */
  function Wire(v: Value): seq<u8>
    requires WellFormed(v)
  {
    HeaderBytes(v.header) + v.name[..v.header.nameLen] + v.data[..v.header.count] + Signed(v.sendFileContent, INT)
  }

  /** The `i`-th long of a header. */
  function Long(b: seq<u8>, i: nat): int
    requires (i + 1) * SL <= |b|
  {
    Unsigned(b[i * SL..(i + 1) * SL])
  }

  /** The receiver's structure was zeroed before the used parts were copied in. */
  function ZeroPadded(b: seq<u8>, n: nat): seq<u8>
    requires |b| <= n
  {
    b + seq(n - |b|, _ => 0)
  }

  ghost predicate Readable(b: seq<u8>) {
    |b| == SIZEOF && 0 <= Long(b, 6) <= MAX_PATH && 0 <= Long(b, 3) <= BUF_SIZE
  }

  lemma LongInRange(b: seq<u8>, i: nat)
    requires (i + 1) * SL <= |b|
    ensures -0x8000_0000_0000_0000 <= Long(b, i) < 0x8000_0000_0000_0000
  {
    NumberInRange(b[i * SL..(i + 1) * SL]);
    assert Pow256(8) == 0x1_0000_0000_0000_0000;
  }

  lemma {:induction false} NumberInRange(b: seq<u8>)
    ensures Number(b) < Pow256(|b|)
  {
    if b != [] {
      NumberInRange(b[1..]);
    }
  }

  function LongField(b: seq<u8>, i: nat): s64
    requires (i + 1) * SL <= |b|
  {
    LongInRange(b, i);
    Long(b, i)
  }

  function ReadHeader(b: seq<u8>): Header
    requires |b| >= HEADER
  {
    Header(LongField(b, 0), LongField(b, 1), LongField(b, 2), LongField(b, 3),
           LongField(b, 4), LongField(b, 5), LongField(b, 6))
  }

  function IntField(b: seq<u8>, at: nat): s32
    requires at + INT <= |b|
  {
    NumberInRange(b[at..at + INT]);
    assert Pow256(4) == 0x1_0000_0000;
    Unsigned(b[at..at + INT])
  }

  /** What the receiver makes of a buffer. */
  function Decode(b: seq<u8>): Value
    requires Readable(b)
  {
    var h := ReadHeader(b);
    var nameEnd := HEADER + h.nameLen;
    var dataEnd := nameEnd + h.count;
    Value(h, ZeroPadded(b[HEADER..nameEnd], MAX_PATH), ZeroPadded(b[nameEnd..dataEnd], BUF_SIZE), IntField(b, dataEnd))
  }

  // ---------- the round trip ----------

  lemma HeaderSlices(h: Header, i: nat)
    requires i < 7
    ensures |HeaderBytes(h)| == HEADER
    ensures HeaderBytes(h)[i * SL..(i + 1) * SL]
            == Signed([h.source, h.dest, h.opcode, h.count, h.offset, h.result, h.nameLen][i], SL)
  {
  }

  lemma LongOfHeader(h: Header, b: seq<u8>, i: nat)
    requires i < 7 && |b| >= HEADER && b[..HEADER] == HeaderBytes(h)
    ensures LongField(b, i) == [h.source, h.dest, h.opcode, h.count, h.offset, h.result, h.nameLen][i]
  {
    HeaderSlices(h, i);
    assert b[i * SL..(i + 1) * SL] == b[..HEADER][i * SL..(i + 1) * SL];
    LongRoundTrip([h.source, h.dest, h.opcode, h.count, h.offset, h.result, h.nameLen][i]);
  }

  lemma HeaderRoundTrip(h: Header, b: seq<u8>)
    requires |b| >= HEADER && b[..HEADER] == HeaderBytes(h)
    ensures ReadHeader(b) == h
  {
    LongOfHeader(h, b, 0);
    LongOfHeader(h, b, 1);
    LongOfHeader(h, b, 2);
    LongOfHeader(h, b, 3);
    LongOfHeader(h, b, 4);
    LongOfHeader(h, b, 5);
    LongOfHeader(h, b, 6);
  }

  /** All offsets stay inside the buffer. */
  lemma WireFits(v: Value)
    requires WellFormed(v)
    ensures |Wire(v)| == HEADER + v.header.nameLen + v.header.count + INT <= SIZEOF
  {
    HeaderSlices(v.header, 0);
  }

  /** The message as far as it is sent: zeros behind the used parts of the name and the data. */
  function Sent(v: Value): Value
    requires WellFormed(v)
  {
    v.(name := ZeroPadded(v.name[..v.header.nameLen], MAX_PATH), data := ZeroPadded(v.data[..v.header.count], BUF_SIZE))
  }

  /**
   Whatever the unused end of the sender's buffer holds, the receiver recovers every header field, the used parts of
   the name and the data with zeros behind them, and the flag.
   */
  lemma RoundTrip(v: Value, rest: seq<u8>)
    requires WellFormed(v) && |Wire(v)| + |rest| == SIZEOF
    ensures Readable(Wire(v) + rest) && Decode(Wire(v) + rest) == Sent(v)
  {
    var b := Wire(v) + rest;
    WireFits(v);
    HeaderSlices(v.header, 0);
    assert b[..HEADER] == HeaderBytes(v.header);
    HeaderRoundTrip(v.header, b);
    var nameEnd := HEADER + v.header.nameLen;
    var dataEnd := nameEnd + v.header.count;
    assert b[HEADER..nameEnd] == v.name[..v.header.nameLen];
    assert b[nameEnd..dataEnd] == v.data[..v.header.count];
    assert b[dataEnd..dataEnd + INT] == Signed(v.sendFileContent, INT);
    IntRoundTrip(v.sendFileContent);
    assert LongField(b, 6) == v.header.nameLen && LongField(b, 3) == v.header.count;
  }

  // ---------- sending and receiving in place ----------

  class Message {
    var source: s64
    var dest: s64
    var opcode: s64
    var count: s64
    var offset: s64
    var result: s64
    var nameLen: s64
    const name: array<u8>
    const data: array<u8>
    var sendFileContent: s32

    constructor ()
      ensures Valid() && fresh(name) && fresh(data)
    {
      source, dest, opcode, count, offset, result, nameLen, sendFileContent := 0, 0, 0, 0, 0, 0, 0, 0;
      name := new u8[MAX_PATH];
      data := new u8[BUF_SIZE];
    }

    ghost predicate Valid()
      reads this
    {
      name.Length == MAX_PATH && data.Length == BUF_SIZE && name != data
    }

    function HeaderOf(): Header
      reads this
    {
      Header(source, dest, opcode, count, offset, result, nameLen)
    }

    function View(): Value
      reads this, name, data
    {
      Value(HeaderOf(), name[..], data[..], sendFileContent)
    }
  }

  method Memcpy(dst: array<u8>, at: nat, src: seq<u8>)
    requires at + |src| <= dst.Length
    modifies dst
    ensures dst[..] == old(dst[..])[..at] + src + old(dst[..])[at + |src|..]
    ensures dst[..at + |src|] == old(dst[..at]) + src
  {
    forall i | 0 <= i < |src| {
      dst[at + i] := src[i];
    }
  }

  method Memset(dst: array<u8>)
    modifies dst
    ensures dst[..] == ZeroPadded([], dst.Length)
  {
    forall i | 0 <= i < dst.Length {
      dst[i] := 0;
    }
  }

  method PutLong(buff: array<u8>, at: nat, x: s64)
    requires at + SL <= buff.Length
    modifies buff
    ensures buff[..at + SL] == old(buff[..at]) + Signed(x, SL)
  {
    Memcpy(buff, at, Signed(x, SL));
  }

  /** The seven longs of `ifri_send`. */
  method PutHeader(m: Message, buff: array<u8>)
    requires buff.Length == SIZEOF
    modifies buff
    ensures buff[..HEADER] == HeaderBytes(m.HeaderOf())
  {
    PutLong(buff, 0, m.source);
    PutLong(buff, SL, m.dest);
    PutLong(buff, 2 * SL, m.opcode);
    PutLong(buff, 3 * SL, m.count);
    PutLong(buff, 4 * SL, m.offset);
    PutLong(buff, 5 * SL, m.result);
    PutLong(buff, 6 * SL, m.nameLen);
  }

  /** `ifri_send` up to the call of `send`. */
  method Marshal(m: Message, buff: array<u8>)
    requires m.Valid() && WellFormed(m.View()) && buff.Length == SIZEOF && buff != m.name && buff != m.data
    modifies buff
    ensures |Wire(m.View())| <= SIZEOF && buff[..|Wire(m.View())|] == Wire(m.View())
  {
    WireFits(m.View());
    PutHeader(m, buff);
    Memcpy(buff, HEADER, m.name[..m.nameLen]);
    Memcpy(buff, HEADER + m.nameLen, m.data[..m.count]);
    Memcpy(buff, HEADER + m.nameLen + m.count, Signed(m.sendFileContent, INT));
  }

  /** Zeroes an array and copies `src` to its beginning. */
  method Fill(dst: array<u8>, src: seq<u8>)
    requires |src| <= dst.Length
    modifies dst
    ensures dst[..] == ZeroPadded(src, dst.Length)
  {
    Memset(dst);
    CopyPads(src, dst.Length);
    Memcpy(dst, 0, src);
  }

  lemma CopyPads(src: seq<u8>, n: nat)
    requires |src| <= n
    ensures ZeroPadded([], n)[..0] + src + ZeroPadded([], n)[|src|..] == ZeroPadded(src, n)
  {
  }

  /** The seven longs of `ifri_receive`. */
  method GetHeader(b: seq<u8>, m: Message)
    requires |b| >= HEADER
    modifies m
    ensures m.HeaderOf() == ReadHeader(b)
  {
    m.source, m.dest, m.opcode := LongField(b, 0), LongField(b, 1), LongField(b, 2);
    m.count, m.offset, m.result := LongField(b, 3), LongField(b, 4), LongField(b, 5);
    m.nameLen := LongField(b, 6);
  }

  /** `ifri_receive` from the return of `recv`. */
  method Unmarshal(buff: array<u8>, m: Message)
    requires m.Valid() && buff != m.name && buff != m.data && Readable(buff[..])
    modifies m, m.name, m.data
    ensures m.Valid() && m.View() == Decode(buff[..])
  {
    var b := buff[..];
    GetHeader(b, m);
    var nameEnd := HEADER + m.nameLen;
    var dataEnd := nameEnd + m.count;
    Fill(m.name, b[HEADER..nameEnd]);
    Fill(m.data, b[nameEnd..dataEnd]);
    m.sendFileContent := IntField(b, dataEnd);
  }

  /** A message that goes through the wire arrives as it was sent. */
  method SendAndReceive(m: Message, n: Message)
    requires m.Valid() && WellFormed(m.View()) && n.Valid()
    requires m != n && m.name != n.name && m.name != n.data && m.data != n.name && m.data != n.data
    modifies n, n.name, n.data
    ensures n.Valid() && n.View() == Sent(m.View())
  {
    var buff := new u8[SIZEOF];
    Marshal(m, buff);
    ghost var k := |Wire(m.View())|;
    assert buff[..] == Wire(m.View()) + buff[k..];
    RoundTrip(m.View(), buff[k..]);
    Unmarshal(buff, n);
  }
}
