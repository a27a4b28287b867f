/** The byte buffer (muduo/net/Buffer.h, muduo/net/Buffer.cpp, muduo/net/Endian.h).

    A vector with a reader and a writer index; what callers see is the sequence of bytes between
    them.  The vector's size is bounded by what was ever asked of it. */
module Buffers {
  type Byte = c: char | c as int < 256 witness 'a'

  const CHEAP_PREPEND: nat := 8
  const INITIAL_SIZE: nat := 1024
  const EXTRA_BUFFER_SIZE: nat := 65536

  function Max(a: nat, b: nat): nat {
    if a < b then b else a
  }

  // ---- CRLF -----------------------------------------------------------------------------------------

  predicate CrlfAt(s: string, i: int) {
    0 <= i && i + 1 < |s| && s[i] == '\r' && s[i + 1] == '\n'
  }

  /** std::search for "\r\n": where the first one starts, or -1. */
  function FirstCrlf(s: string): (i: int)
    ensures i == -1 || CrlfAt(s, i)
    ensures forall j | CrlfAt(s, j) :: i != -1 && i <= j
  {
    FirstCrlfFrom(s, 0)
  }

  function FirstCrlfFrom(s: string, k: nat): (i: int)
    ensures i == -1 || (k <= i && CrlfAt(s, i))
    ensures forall j | k <= j && CrlfAt(s, j) :: i != -1 && i <= j
    decreases |s| - k
  {
    if |s| <= k + 1 then -1 else if CrlfAt(s, k) then k else FirstCrlfFrom(s, k + 1)
  }

  // ---- Integers in network order ------------------------------------------------------------------------

  function Pow256(n: nat): (p: nat)
    ensures p > 0
  {
    if n == 0 then 1 else 256 * Pow256(n - 1)
  }

  /** The `n` bytes of `x`, most significant first: what hostToNetwork and the copy produce. */
  function BigEndian(x: nat, n: nat): (s: seq<Byte>)
    ensures |s| == n
  {
    if n == 0 then [] else BigEndian(x / 256, n - 1) + [(x % 256) as char]
  }

  function Unsigned(s: seq<Byte>): nat {
    if s == [] then 0 else 256 * Unsigned(s[..|s| - 1]) + s[|s| - 1] as int
  }

  lemma {:induction false} BigEndianReadsBack(x: nat, n: nat)
    requires x < Pow256(n)
    ensures Unsigned(BigEndian(x, n)) == x
  {
    if n > 0 {
      var s := BigEndian(x / 256, n - 1);
      BigEndianReadsBack(x / 256, n - 1);
      assert BigEndian(x, n)[..n - 1] == s;
    }
  }

  /** Two's complement in `n` bytes: the conversion of an integer to the argument's type, as bits. */
  function ToBits(x: int, n: nat): (b: nat)
    ensures b < Pow256(n)
  {
    x % Pow256(n)
  }

  function FromBits(b: nat, n: nat): int {
    if 2 * b < Pow256(n) then b else b - Pow256(n)
  }

  predicate Fits(x: int, n: nat) {
    0 <= 2 * x + Pow256(n) < 2 * Pow256(n)
  }

  function EncodeInt(x: int, n: nat): (s: seq<Byte>)
    ensures |s| == n
  {
    BigEndian(ToBits(x, n), n)
  }

  function DecodeInt(s: seq<Byte>): int {
    FromBits(Unsigned(s), |s|)
  }

  lemma ModFacts(x: int, p: nat)
    requires p > 0
    ensures 0 <= x < p ==> x % p == x
    ensures 0 <= x + p < p ==> x % p == x + p
    ensures 0 <= x % p < p
  {
    if 0 <= x + p < p {
      assert (x + p) % p == x % p by { ModShift(x, p); }
    }
  }

  lemma ModShift(x: int, p: nat)
    requires p > 0
    ensures (x + p) % p == x % p
  {
    var q, r := x / p, x % p;
    assert x + p == (q + 1) * p + r;
    ModUnique(x + p, p, q + 1, r);
  }

  lemma ModUnique(x: int, p: nat, q: int, r: int)
    requires p > 0 && x == q * p + r && 0 <= r < p
    ensures x % p == r
  {
    var d := x / p - q;
    assert d * p == r - x % p;
    assert d >= 1 ==> d * p >= p;
    assert d <= -1 ==> d * p + p <= 0;
  }

  lemma Pow256Even(n: nat)
    requires n > 0
    ensures Pow256(n) % 2 == 0
  {
  }

  /** Writing an integer in `n` bytes and reading it back gives it again exactly when it fits; the
      only caller that can pass one that does not is appendInt16, whose argument has 64 bits. */
  lemma IntRoundTripExactly(x: int, n: nat)
    requires n > 0
    ensures DecodeInt(EncodeInt(x, n)) == x <==> Fits(x, n)
  {
    var p := Pow256(n);
    BigEndianReadsBack(ToBits(x, n), n);
    Pow256Even(n);
    ModFacts(x, p);
  }

  /** appendInt16(40000), read back. */
  lemma FortyThousandDoesNotReadBack()
    ensures DecodeInt(EncodeInt(40000, 2)) == -25536
  {
    assert Pow256(1) == 256 && Pow256(2) == 65536;
    BigEndianReadsBack(40000, 2);
  }

  // ---- The class -------------------------------------------------------------------------------------------

  class Buffer {
    var buffer: seq<Byte>
    var readerIndex: nat
    var writerIndex: nat
    ghost var initial: nat   // the size the vector started with
    ghost var demand: nat    // the largest readable-plus-requested length so far

    ghost predicate Valid()
      reads this
    {
      && readerIndex <= writerIndex <= |buffer|
      && CHEAP_PREPEND <= |buffer|
      && |buffer| <= Max(initial, 2 * demand + 7)
    }

    /** What the buffer holds for its readers. */
    function Contents(): seq<Byte>
      requires readerIndex <= writerIndex <= |buffer|
      reads this
    {
      buffer[readerIndex..writerIndex]
    }

    function ReadableBytes(): int reads this { writerIndex - readerIndex }

    function WritableBytes(): int reads this { |buffer| - writerIndex }

    function PrependableBytes(): int reads this { readerIndex }

    constructor (initialSize: nat)
      ensures Valid() && Contents() == []
      ensures WritableBytes() == initialSize && PrependableBytes() == CHEAP_PREPEND
      ensures initial == CHEAP_PREPEND + initialSize && demand == 0
    {
      buffer := seq(CHEAP_PREPEND + initialSize, _ => '\0');
      readerIndex, writerIndex := CHEAP_PREPEND, CHEAP_PREPEND;
      initial, demand := CHEAP_PREPEND + initialSize, 0;
    }

    method FindCRLF() returns (i: int)
      requires Valid()
      ensures i == FirstCrlf(Contents())
    {
      i := FirstCrlf(Contents());
    }

    method Retrieve(len: nat)
      requires Valid() && len <= ReadableBytes()
      modifies this`readerIndex, this`writerIndex
      ensures Valid() && Contents() == old(Contents())[len..]
    {
      if len < ReadableBytes() {
        readerIndex := readerIndex + len;
      } else {
        RetrieveAll();
      }
    }

    method RetrieveAll()
      requires Valid()
      modifies this`readerIndex, this`writerIndex
      ensures Valid() && Contents() == []
    {
      readerIndex, writerIndex := CHEAP_PREPEND, CHEAP_PREPEND;
    }

    method RetrieveAsString(len: nat) returns (result: seq<Byte>)
      requires Valid() && len <= ReadableBytes()
      modifies this`readerIndex, this`writerIndex
      ensures Valid() && old(Contents()) == result + Contents() && |result| == len
    {
      result := Contents()[..len];
      Retrieve(len);
    }

    method RetrieveAllAsString() returns (result: seq<Byte>)
      requires Valid()
      modifies this`readerIndex, this`writerIndex
      ensures Valid() && result == old(Contents()) && Contents() == []
    {
      result := RetrieveAsString(ReadableBytes());
    }

    /** Grows, or moves the readable bytes down; in the second case its assertion holds. */
    method MakeSpace(len: nat)
      requires Valid() && WritableBytes() < len
      modifies this
      ensures Valid() && Contents() == old(Contents()) && WritableBytes() >= len
      ensures initial == old(initial) && demand == Max(old(demand), |old(Contents())| + len)
      ensures |buffer| == if old(WritableBytes() + PrependableBytes()) < len + CHEAP_PREPEND
                          then old(writerIndex) + len else |old(buffer)|
    {
      demand := Max(demand, ReadableBytes() + len);
      if WritableBytes() + PrependableBytes() < len + CHEAP_PREPEND {
        var more := writerIndex + len - |buffer|;
        buffer := buffer + seq(more, _ => '\0');
      } else {
        assert CHEAP_PREPEND < readerIndex;
        var readable := ReadableBytes();
        buffer := buffer[..CHEAP_PREPEND] + Contents() + buffer[CHEAP_PREPEND + readable..];
        readerIndex := CHEAP_PREPEND;
        writerIndex := readerIndex + readable;
        assert readable == ReadableBytes();
      }
    }

    method EnsureWritableBytes(len: nat)
      requires Valid()
      modifies this
      ensures Valid() && Contents() == old(Contents()) && WritableBytes() >= len
      ensures initial == old(initial) && old(demand) <= demand <= Max(old(demand), |old(Contents())| + len)
      ensures len <= old(WritableBytes()) ==> unchanged(this)
    {
      if WritableBytes() < len {
        MakeSpace(len);
      }
    }

    method Append(data: seq<Byte>)
      requires Valid()
      modifies this
      ensures Valid() && Contents() == old(Contents()) + data
      ensures initial == old(initial) && old(demand) <= demand <= Max(old(demand), |old(Contents())| + |data|)
      ensures |data| <= old(WritableBytes()) ==>
                WritableBytes() == old(WritableBytes()) - |data| && demand == old(demand)
    {
      EnsureWritableBytes(|data|);
      buffer := buffer[..writerIndex] + data + buffer[writerIndex + |data|..];
      HasWritten(|data|);
    }

    method HasWritten(len: nat)
      requires Valid() && len <= WritableBytes()
      modifies this`writerIndex
      ensures Valid() && writerIndex == old(writerIndex) + len
    {
      writerIndex := writerIndex + len;
    }

    method Unwrite(len: nat)
      requires Valid() && len <= ReadableBytes()
      modifies this`writerIndex
      ensures Valid() && Contents() == old(Contents())[..|old(Contents())| - len]
    {
      writerIndex := writerIndex - len;
    }

    method Prepend(data: seq<Byte>)
      requires Valid() && |data| <= PrependableBytes()
      modifies this`buffer, this`readerIndex
      ensures Valid() && Contents() == data + old(Contents())
    {
      readerIndex := readerIndex - |data|;
      buffer := buffer[..readerIndex] + data + buffer[readerIndex + |data|..];
    }

    method Swap(rhs: Buffer)
      requires Valid() && rhs.Valid()
      modifies this, rhs
      ensures Valid() && rhs.Valid()
      ensures Contents() == old(rhs.Contents()) && rhs.Contents() == old(Contents())
      ensures initial == old(rhs.initial) && demand == old(rhs.demand)
      ensures WritableBytes() == old(rhs.WritableBytes())
    {
      buffer, rhs.buffer := rhs.buffer, buffer;
      readerIndex, rhs.readerIndex := rhs.readerIndex, readerIndex;
      writerIndex, rhs.writerIndex := rhs.writerIndex, writerIndex;
      initial, rhs.initial := rhs.initial, initial;
      demand, rhs.demand := rhs.demand, demand;
    }

    /** shrink: into a fresh buffer of the default size, with room for `reserve` more. */
    method Shrink(reserve: nat)
      requires Valid()
      modifies this
      ensures Valid() && Contents() == old(Contents()) && WritableBytes() >= reserve
      ensures |buffer| <= Max(CHEAP_PREPEND + INITIAL_SIZE, 2 * (|Contents()| + reserve) + 7)
    {
      var other := new Buffer(INITIAL_SIZE);
      other.EnsureWritableBytes(ReadableBytes() + reserve);
      other.Append(Contents());
      Swap(other);
    }

    /** readFd: readv into the writable space and then a stack buffer, `incoming` being what the
        kernel delivers (at most what the two segments take), or None for an error. */
    method ReadFd(incoming: seq<Byte>, failed: bool) returns (n: int)
      requires Valid()
      requires |incoming| <=
        if WritableBytes() < EXTRA_BUFFER_SIZE then WritableBytes() + EXTRA_BUFFER_SIZE else WritableBytes()
      modifies this
      ensures Valid() && initial == old(initial) && demand <= Max(old(demand), |Contents()|)
      ensures failed ==> n == -1 && Contents() == old(Contents())
      ensures !failed ==> n == |incoming| && Contents() == old(Contents()) + incoming
    {
      if failed {
        return -1;
      }
      n := |incoming|;
      var writable := WritableBytes();
      if n <= writable {
        buffer := buffer[..writerIndex] + incoming + buffer[writerIndex + n..];
        writerIndex := writerIndex + n;
      } else {
        buffer := buffer[..writerIndex] + incoming[..writable];
        writerIndex := |buffer|;
        var extrabuf := incoming[writable..];
        Append(extrabuf);
        assert incoming == incoming[..writable] + incoming[writable..];
      }
    }

    // The integers, of 1, 2, 4 or 8 bytes.

    method AppendInt(x: int, width: nat)
      requires Valid() && width in {1, 2, 4, 8}
      modifies this
      ensures Valid() && Contents() == old(Contents()) + EncodeInt(x, width)
    {
      Append(EncodeInt(x, width));
    }

    method PeekInt(width: nat) returns (x: int)
      requires Valid() && width in {1, 2, 4, 8} && width <= ReadableBytes()
      ensures x == DecodeInt(Contents()[..width])
    {
      x := DecodeInt(Contents()[..width]);
    }

    method ReadInt(width: nat) returns (x: int)
      requires Valid() && width in {1, 2, 4, 8} && width <= ReadableBytes()
      modifies this`readerIndex, this`writerIndex
      ensures Valid() && x == DecodeInt(old(Contents())[..width]) && Contents() == old(Contents())[width..]
    {
      x := PeekInt(width);
      Retrieve(width);
    }

    method PrependInt(x: int, width: nat)
      requires Valid() && width in {1, 2, 4, 8} && width <= PrependableBytes()
      modifies this`buffer, this`readerIndex
      ensures Valid() && Contents() == EncodeInt(x, width) + old(Contents())
    {
      Prepend(EncodeInt(x, width));
    }
  }
}
