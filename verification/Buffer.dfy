/** The in-place byte queue of networker/net/Buffer.h and Buffer.cpp.

    A vector is split by two indices into prependable, readable and writable bytes.
    `Contents` is the readable part; every operation is specified by what it does to
    that sequence, however the storage is shifted, compacted or regrown underneath. */
module Buffers {
  import opened Options

  newtype Byte = x: int | 0 <= x < 256

  const CHEAP_PREPEND: nat := 8
  const INITIAL_SIZE: nat := 1024
  const EXTRA_BUF: nat := 65536

  // ---------------------------------------------------------------- network byte order

  /** 2^(8 n): the number of values an n-byte integer can take. */
  function Range(n: nat): (r: nat)
    ensures r > 0
  {
    if n == 0 then 1 else 256 * Range(n - 1)
  }

  /** The n bytes of x in two's complement, most significant first. */
  function BigEndian(x: int, n: nat): (s: seq<Byte>)
    ensures |s| == n
    decreases n
  {
    if n == 0 then [] else BigEndian(x / 256, n - 1) + [(x % 256) as Byte]
  }

  function Unsigned(s: seq<Byte>): (x: nat)
  {
    if s == [] then 0 else 256 * Unsigned(s[..|s| - 1]) + s[|s| - 1] as nat
  }

  /** The signed integer whose big-endian two's complement is s. */
  function FromBigEndian(s: seq<Byte>): (x: int)
  {
    var u := Unsigned(s);
    if 2 * u < Range(|s|) then u else u - Range(|s|)
  }

  lemma {:induction false} UnsignedOfBigEndian(x: int, n: nat)
    ensures Unsigned(BigEndian(x, n)) == x % Range(n)
    decreases n
  {
    if n > 0 {
      UnsignedOfBigEndian(x / 256, n - 1);
      var s := BigEndian(x, n);
      assert s[..n - 1] == BigEndian(x / 256, n - 1);
      ModSplit(x, Range(n - 1));
    }
  }

  lemma ModSplit(x: int, m: int)
    requires m > 0
    ensures 256 * ((x / 256) % m) + x % 256 == x % (256 * m)
  {
    var h, l := x / 256, x % 256;
    var q, r := h / m, h % m;
    assert x == (256 * m) * q + (256 * r + l) by {
      assert h == m * q + r;
      assert 256 * (m * q) == (256 * m) * q;
    }
    DivModUnique(x, 256 * m, q, 256 * r + l);
  }

  lemma DivModUnique(x: int, d: int, q: int, r: int)
    requires d > 0 && 0 <= r < d && x == d * q + r
    ensures x / d == q && x % d == r
  {
    var q', r' := x / d, x % d;
    assert d * q' + r' == d * q + r;
    MultiplesApart(d, q, q');
    MultiplesApart(d, q', q);
  }

  lemma {:induction false} MultiplesApart(d: int, a: int, b: int)
    requires d > 0
    ensures a > b ==> d * a >= d * b + d
    decreases a - b
  {
    if a > b + 1 {
      MultiplesApart(d, a - 1, b);
    }
  }

  /** What was appended in network order is what a reader on either side gets back, for
      every value of the width, negative ones included. */
  lemma IntegerRoundTrip(x: int, n: nat)
    requires n > 0 && -(Range(n) / 2) <= x < Range(n) / 2
    ensures FromBigEndian(BigEndian(x, n)) == x
  {
    UnsignedOfBigEndian(x, n);
    assert Range(n) == 256 * Range(n - 1);
    if x >= 0 {
      DivModUnique(x, Range(n), 0, x);
    } else {
      DivModUnique(x, Range(n), -1, x + Range(n));
    }
  }

  // ---------------------------------------------------------------- the buffer object

  ghost predicate CrlfAt(s: seq<Byte>, i: nat) {
    i + 1 < |s| && s[i] == 13 && s[i + 1] == 10
  }

  class Buffer {
    var buffer: array<Byte>
    var readerIndex: nat
    var writerIndex: nat

    ghost predicate Valid()
      reads this
    {
      readerIndex <= writerIndex <= buffer.Length && CHEAP_PREPEND <= buffer.Length
    }

    ghost function Contents(): (s: seq<Byte>)
      reads this, buffer
      requires Valid()
      ensures |s| == writerIndex - readerIndex
    {
      buffer[readerIndex..writerIndex]
    }

    constructor (initialSize: nat := INITIAL_SIZE)
      ensures Valid() && fresh(buffer)
      ensures Contents() == []
      ensures WritableBytes() == initialSize && PrependableBytes() == CHEAP_PREPEND
    {
      buffer := new Byte[CHEAP_PREPEND + initialSize];
      readerIndex := CHEAP_PREPEND;
      writerIndex := CHEAP_PREPEND;
    }

    function ReadableBytes(): (n: nat)
      reads this, buffer
      requires Valid()
      ensures n == |Contents()|
    {
      writerIndex - readerIndex
    }

    function WritableBytes(): nat
      reads this
      requires Valid()
    {
      buffer.Length - writerIndex
    }

    function PrependableBytes(): nat
      reads this
    {
      readerIndex
    }

    /** The first CR LF at or after `start`, counted from the first readable byte. */
    method FindCRLF(start: nat) returns (r: Option<nat>)
      requires Valid() && start <= ReadableBytes()
      ensures r.Some? ==> start <= r.value && CrlfAt(Contents(), r.value)
                          && forall i :: start <= i < r.value ==> !CrlfAt(Contents(), i)
      ensures r.None? ==> forall i :: start <= i ==> !CrlfAt(Contents(), i)
    {
      var i := start;
      while readerIndex + i + 1 < writerIndex
        invariant start <= i <= ReadableBytes()
        invariant forall j :: start <= j < i ==> !CrlfAt(Contents(), j)
      {
        if buffer[readerIndex + i] == 13 && buffer[readerIndex + i + 1] == 10 {
          return Some(i);
        }
        i := i + 1;
      }
      return None;
    }

    method FindEOL(start: nat) returns (r: Option<nat>)
      requires Valid() && start <= ReadableBytes()
      ensures r.Some? ==> start <= r.value < ReadableBytes() && Contents()[r.value] == 10
                          && forall i :: start <= i < r.value ==> Contents()[i] != 10
      ensures r.None? ==> forall i :: start <= i < |Contents()| ==> Contents()[i] != 10
    {
      var i := start;
      while readerIndex + i < writerIndex
        invariant start <= i <= ReadableBytes()
        invariant forall j :: start <= j < i ==> Contents()[j] != 10
      {
        if buffer[readerIndex + i] == 10 {
          return Some(i);
        }
        i := i + 1;
      }
      return None;
    }

    method RetrieveAll()
      requires Valid()
      modifies this
      ensures Valid() && buffer == old(buffer)
      ensures Contents() == [] && PrependableBytes() == CHEAP_PREPEND
    {
      readerIndex := CHEAP_PREPEND;
      writerIndex := CHEAP_PREPEND;
    }

    method Retrieve(len: nat)
      requires Valid() && len <= ReadableBytes()
      modifies this
      ensures Valid() && buffer == old(buffer)
      ensures Contents() == old(Contents())[len..]
      ensures Contents() == [] ==> PrependableBytes() == CHEAP_PREPEND
    {
      if len < ReadableBytes() {
        readerIndex := readerIndex + len;
      } else {
        RetrieveAll();
      }
    }

    method RetrieveAsString(len: nat) returns (s: seq<Byte>)
      requires Valid() && len <= ReadableBytes()
      modifies this
      ensures Valid() && buffer == old(buffer)
      ensures s + Contents() == old(Contents()) && |s| == len
    {
      s := buffer[readerIndex..readerIndex + len];
      Retrieve(len);
    }

    /** The storage regrown, with room for `len` more bytes at its end. */
    method Grow(len: nat)
      requires Valid() && WritableBytes() < len
      modifies this`buffer
      ensures Valid() && fresh(buffer) && buffer.Length == writerIndex + len
      ensures Contents() == old(Contents())
    {
      var grown := new Byte[writerIndex + len];
      var i := 0;
      while i < buffer.Length
        invariant i <= buffer.Length <= grown.Length
        invariant grown[..i] == buffer[..i]
        modifies grown
      {
        grown[i] := buffer[i];
        i := i + 1;
      }
      buffer := grown;
    }

    /** The readable bytes moved down to the front. */
    method Compact()
      requires Valid() && CHEAP_PREPEND < readerIndex
      modifies this`readerIndex, this`writerIndex, buffer
      ensures Valid() && Contents() == old(Contents()) && readerIndex == CHEAP_PREPEND
      ensures WritableBytes() == old(WritableBytes()) + old(readerIndex) - CHEAP_PREPEND
    {
      var readable := ReadableBytes();
      ghost var was := buffer[..];
      var i := 0;
      while i < readable
        invariant i <= readable
        invariant buffer[CHEAP_PREPEND..CHEAP_PREPEND + i] == was[readerIndex..readerIndex + i]
        invariant forall j :: CHEAP_PREPEND + i <= j < buffer.Length ==> buffer[j] == was[j]
        modifies buffer
      {
        buffer[CHEAP_PREPEND + i] := buffer[readerIndex + i];
        i := i + 1;
      }
      readerIndex := CHEAP_PREPEND;
      writerIndex := readerIndex + readable;
    }

    /** Called only when the writable part is too small; grows the storage, or compacts it when
        that frees enough room. The assertion before the compaction follows from its guard. */
    method MakeSpace(len: nat)
      requires Valid() && WritableBytes() < len
      modifies this, buffer
      ensures Valid() && (buffer == old(buffer) || fresh(buffer))
      ensures Contents() == old(Contents()) && WritableBytes() >= len
      ensures readerIndex == old(readerIndex) || readerIndex == CHEAP_PREPEND < old(readerIndex)
    {
      if WritableBytes() + PrependableBytes() < len + CHEAP_PREPEND {
        Grow(len);
      } else {
        assert CHEAP_PREPEND < readerIndex;
        Compact();
      }
    }

    method EnsureWritableBytes(len: nat)
      requires Valid()
      modifies this, buffer
      ensures Valid() && (buffer == old(buffer) || fresh(buffer))
      ensures Contents() == old(Contents()) && WritableBytes() >= len
      ensures readerIndex == old(readerIndex) || readerIndex == CHEAP_PREPEND < old(readerIndex)
    {
      if WritableBytes() < len {
        MakeSpace(len);
      }
    }

    method HasWritten(len: nat)
      requires Valid() && len <= WritableBytes()
      modifies this`writerIndex
      ensures Valid() && writerIndex == old(writerIndex) + len
      ensures Contents() == old(Contents()) + buffer[old(writerIndex)..writerIndex]
    {
      writerIndex := writerIndex + len;
    }

    /** Copies bytes into the storage from position `at` on. */
    method CopyIn(data: seq<Byte>, at: nat)
      requires at + |data| <= buffer.Length
      modifies buffer
      ensures buffer[..] == old(buffer[..at]) + data + old(buffer[at + |data|..])
    {
      var i := 0;
      while i < |data|
        invariant i <= |data|
        invariant forall j :: 0 <= j < i ==> buffer[at + j] == data[j]
        invariant forall j :: 0 <= j < buffer.Length && !(at <= j < at + i) ==> buffer[j] == old(buffer[j])
      {
        buffer[at + i] := data[i];
        i := i + 1;
      }
    }

    method Append(data: seq<Byte>)
      requires Valid()
      modifies this, buffer
      ensures Valid() && (buffer == old(buffer) || fresh(buffer))
      ensures Contents() == old(Contents()) + data
      ensures readerIndex == old(readerIndex) || readerIndex == CHEAP_PREPEND < old(readerIndex)
    {
      EnsureWritableBytes(|data|);
      ghost var kept := Contents();
      ghost var was := buffer[..];
      CopyIn(data, writerIndex);
      assert buffer[..][readerIndex..writerIndex] == kept;
      assert buffer[..][writerIndex..writerIndex + |data|] == data;
      HasWritten(|data|);
    }

    method Unwrite(len: nat)
      requires Valid() && len <= ReadableBytes()
      modifies this`writerIndex
      ensures Valid()
      ensures Contents() == old(Contents())[..old(ReadableBytes()) - len]
    {
      writerIndex := writerIndex - len;
    }

    method Prepend(data: seq<Byte>)
      requires Valid() && |data| <= PrependableBytes()
      modifies this`readerIndex, buffer
      ensures Valid()
      ensures Contents() == data + old(Contents())
      ensures PrependableBytes() == old(PrependableBytes()) - |data|
    {
      ghost var was := Contents();
      readerIndex := readerIndex - |data|;
      CopyIn(data, readerIndex);
      assert buffer[..][readerIndex..readerIndex + |data|] == data;
      assert buffer[..][readerIndex + |data|..writerIndex] == was;
    }

    method Shrink(reserve: nat)
      requires Valid()
      modifies this
      ensures Valid() && fresh(buffer)
      ensures Contents() == old(Contents())
      ensures WritableBytes() >= reserve && PrependableBytes() == CHEAP_PREPEND
    {
      var other := new Buffer();
      other.EnsureWritableBytes(ReadableBytes() + reserve);
      ghost var room := other.WritableBytes();
      var all := buffer[readerIndex..writerIndex];
      other.AppendWithin(all);
      buffer, readerIndex, writerIndex := other.buffer, other.readerIndex, other.writerIndex;
    }

    /** `Append` when the room is already there: nothing moves. */
    method AppendWithin(data: seq<Byte>)
      requires Valid() && |data| <= WritableBytes()
      modifies this, buffer
      ensures Valid() && buffer == old(buffer)
      ensures Contents() == old(Contents()) + data
      ensures readerIndex == old(readerIndex) && WritableBytes() == old(WritableBytes()) - |data|
    {
      ghost var kept := Contents();
      CopyIn(data, writerIndex);
      assert buffer[..][readerIndex..writerIndex] == kept;
      assert buffer[..][writerIndex..writerIndex + |data|] == data;
      HasWritten(|data|);
    }

    /** How many bytes one readFd offers to the kernel: the writable part, and the overflow
        area on the stack when that part is smaller than it. */
    function ReadCapacity(): nat
      reads this
      requires Valid()
    {
      WritableBytes() + if WritableBytes() < EXTRA_BUF then EXTRA_BUF else 0
    }

    /** `got` is what readv delivered, None its error return. The kernel fills the writable
        part first and only then the overflow area. */
    method ReadFd(got: Option<seq<Byte>>) returns (n: int)
      requires Valid() && (got.Some? ==> |got.value| <= ReadCapacity())
      modifies this, buffer
      ensures Valid() && (buffer == old(buffer) || fresh(buffer))
      ensures n == if got.Some? then |got.value| else -1
      ensures Contents() == old(Contents()) + if got.Some? then got.value else []
    {
      if got.None? {
        return -1;
      }
      var writable := WritableBytes();
      n := |got.value|;
      if n <= writable {
        AppendWithin(got.value);
      } else {
        var extrabuf := got.value[writable..];
        AppendWithin(got.value[..writable]);
        assert writerIndex == buffer.Length;
        Append(extrabuf);
        assert got.value == got.value[..writable] + extrabuf;
      }
    }

    // The integer operations take the width in bytes: 8, 4, 2 or 1.

    method AppendInt(x: int, width: nat)
      requires Valid()
      modifies this, buffer
      ensures Valid() && (buffer == old(buffer) || fresh(buffer))
      ensures Contents() == old(Contents()) + BigEndian(x, width)
    {
      Append(BigEndian(x, width));
    }

    method PrependInt(x: int, width: nat)
      requires Valid() && width <= PrependableBytes()
      modifies this`readerIndex, buffer
      ensures Valid()
      ensures Contents() == BigEndian(x, width) + old(Contents())
    {
      Prepend(BigEndian(x, width));
    }

    method PeekInt(width: nat) returns (x: int)
      requires Valid() && width <= ReadableBytes()
      ensures x == FromBigEndian(Contents()[..width])
    {
      assert buffer[readerIndex..readerIndex + width] == Contents()[..width];
      x := FromBigEndian(buffer[readerIndex..readerIndex + width]);
    }

    method ReadInt(width: nat) returns (x: int)
      requires Valid() && width <= ReadableBytes()
      modifies this
      ensures Valid() && buffer == old(buffer)
      ensures x == FromBigEndian(old(Contents())[..width])
      ensures Contents() == old(Contents())[width..]
    {
      x := PeekInt(width);
      Retrieve(width);
    }
  }
}
