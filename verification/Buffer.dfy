/** Integers in network byte order, two's complement. */
module NetworkOrder {
  import opened Common

  type Byte = x: int | 0 <= x < 256

  function Pow256(n: nat): (p: nat)
    ensures p >= 1
  {
    if n == 0 then 1 else 256 * Pow256(n - 1)
  }

  /** The low `n` bytes of x, most significant first. */
  function BigEndian(x: nat, n: nat): (bytes: seq<Byte>)
    ensures |bytes| == n
  {
    if n == 0 then [] else BigEndian(x / 256, n - 1) + [x % 256]
  }

  function FromBigEndian(bytes: seq<Byte>): nat {
    if bytes == [] then 0 else FromBigEndian(bytes[..|bytes| - 1]) * 256 + bytes[|bytes| - 1]
  }

  lemma {:induction false} BigEndianRoundTrip(x: nat, n: nat)
    requires x < Pow256(n)
    ensures FromBigEndian(BigEndian(x, n)) == x
  {
    if n > 0 {
      BigEndianRoundTrip(x / 256, n - 1);
      var bytes := BigEndian(x, n);
      assert bytes[..n - 1] == BigEndian(x / 256, n - 1);
    }
  }

  lemma DivideTwice(x: nat, p: nat)
    requires p > 0
    ensures x / 256 / p == x / (256 * p)
  {
    var h: nat := x / 256;
    var q := h / p;
    DivMod(h, p);
    QuotientIsNatural(h, p);
    assert q * (256 * p) == 256 * (q * p) && (q + 1) * (256 * p) == 256 * (q * p + p);
    QuotientUnique(x, 256 * p, q);
  }

  /** Network order: the byte at `i` is the one of weight 256 to the (n - 1 - i), most significant first. */
  lemma {:induction false} MostSignificantFirst(x: nat, n: nat, i: nat)
    requires i < n
    ensures BigEndian(x, n)[i] == x / Pow256(n - 1 - i) % 256
  {
    if i < n - 1 {
      MostSignificantFirst(x / 256, n - 1, i);
      DivideTwice(x, Pow256(n - 2 - i));
    }
  }

  lemma {:induction false} FromBigEndianBound(bytes: seq<Byte>)
    ensures FromBigEndian(bytes) < Pow256(|bytes|)
  {
    if bytes != [] {
      FromBigEndianBound(bytes[..|bytes| - 1]);
    }
  }

  /** htobe16/32/64 of a signed integer of n bytes: two's complement, then big-endian. */
  function Encoded(x: int, n: nat): (bytes: seq<Byte>)
    ensures |bytes| == n
  {
    BigEndian(x % Pow256(n), n)
  }

  function Decoded(bytes: seq<Byte>): int {
    var u := FromBigEndian(bytes);
    if 2 * u < Pow256(|bytes|) then u else u - Pow256(|bytes|)
  }

  predicate FitsIn(x: int, n: nat) {
    0 <= 2 * x + Pow256(n) < 2 * Pow256(n)
  }

  /** Every value of the signed type comes back. */
  lemma IntRoundTrip(x: int, n: nat)
    requires FitsIn(x, n)
    ensures Decoded(Encoded(x, n)) == x
  {
    var p := Pow256(n);
    if x < 0 {
      ModNegative(x, p);
    } else {
      ModSmall(x, p);
    }
    BigEndianRoundTrip(x % p, n);
  }

  lemma {:induction false} FromBigEndianInjective(a: seq<Byte>, b: seq<Byte>)
    requires |a| == |b| && FromBigEndian(a) == FromBigEndian(b)
    ensures a == b
  {
    if a != [] {
      var n := |a| - 1;
      assert a[n] == FromBigEndian(a) % 256 && b[n] == FromBigEndian(b) % 256;
      FromBigEndianInjective(a[..n], b[..n]);
      assert a == a[..n] + [a[n]] && b == b[..n] + [b[n]];
    }
  }

  /** Different bytes are different values. */
  lemma DecodedInjective(a: seq<Byte>, b: seq<Byte>)
    requires |a| == |b| && Decoded(a) == Decoded(b)
    ensures a == b
  {
    FromBigEndianBound(a);
    FromBigEndianBound(b);
    FromBigEndianInjective(a, b);
  }

  lemma ModSmall(x: nat, p: nat)
    requires x < p
    ensures x % p == x
  {
  }

  lemma ModNegative(x: int, p: nat)
    requires 0 <= x + p < p
    ensures x % p == x + p
  {
    ModUnique(x, p, -1, x + p);
  }

  lemma ModUnique(x: int, p: nat, q: int, r: nat)
    requires x == q * p + r && r < p
    ensures x % p == r
  {
    var q', r' := x / p, x % p;
    assert x == q' * p + r' && 0 <= r' < p;
    assert (q - q') * p == r' - r;
    if q > q' {
      MulAtLeast(q - q', p);
    } else if q < q' {
      MulAtLeast(q' - q, p);
    }
  }

  lemma MulAtLeast(k: nat, p: nat)
    requires k >= 1
    ensures k * p >= p && (0 - k) * p + p <= 0
  {
  }
}

/** The network buffer: one array, two indices, room at the front for headers.  Every operation acts on the readable
    region as the matching operation on a byte sequence. */
module ByteBuffers {
  import opened Common
  import opened NetworkOrder

  const CHEAP_PREPEND: nat := 8
  const INITIAL_SIZE: nat := 1024
  const EXTRA_SIZE: nat := 65536

  const CR: Byte := 13
  const LF: Byte := 10

  /** What readv returned: an errno, or the bytes it scattered over the segments. */
  datatype ReadResult = Failed(errno: int) | Got(data: seq<Byte>)

  /** std::copy of `data` into the array at `at`. */
  method CopyInto(a: array<Byte>, at: nat, data: seq<Byte>)
    requires at + |data| <= a.Length
    modifies a
    ensures a[at..at + |data|] == data
    ensures forall k :: 0 <= k < at || at + |data| <= k < a.Length ==> a[k] == old(a[k])
  {
    var i := at;
    while i < at + |data|
      invariant at <= i <= at + |data|
      invariant forall k :: at <= k < i ==> a[k] == data[k - at]
      invariant forall k :: 0 <= k < at || i <= k < a.Length ==> a[k] == old(a[k])
    {
      a[i] := data[i - at];
      i := i + 1;
    }
  }

  /** std::copy within one array, towards the front: front to back, so the overlap is safe. */
  method CopyDown(a: array<Byte>, from: nat, to_: nat, n: nat)
    requires to_ <= from && from + n <= a.Length
    modifies a
    ensures a[to_..to_ + n] == old(a[from..from + n])
  {
    var i := to_;
    while i < to_ + n
      invariant to_ <= i <= to_ + n
      invariant forall k :: to_ <= k < i ==> a[k] == old(a[k + (from - to_)])
      invariant forall k :: i + (from - to_) <= k < a.Length ==> a[k] == old(a[k])
    {
      a[i] := a[i + (from - to_)];
      i := i + 1;
    }
  }

  class Buffer {
    var buffer: array<Byte>
    var readerIndex: nat
    var writerIndex: nat

    ghost predicate Valid()
      reads this
    {
      readerIndex <= writerIndex <= buffer.Length && CHEAP_PREPEND <= buffer.Length
    }

    /** The readable bytes. */
    ghost function Readable(): seq<Byte>
      requires Valid()
      reads this, buffer
    {
      buffer[readerIndex..writerIndex]
    }

    constructor (initialSize: nat)
      ensures Valid() && fresh(buffer) && Readable() == []
      ensures readerIndex == 8 && buffer.Length == 8 + initialSize
    {
      buffer := new Byte[CHEAP_PREPEND + initialSize](_ => 0);
      readerIndex, writerIndex := CHEAP_PREPEND, CHEAP_PREPEND;
    }

    // ---- taking bytes out

    method RetrieveAll()
      requires Valid()
      modifies this`readerIndex, this`writerIndex
      ensures Valid() && Readable() == [] && readerIndex == CHEAP_PREPEND
    {
      readerIndex, writerIndex := CHEAP_PREPEND, CHEAP_PREPEND;
    }

    method Retrieve(len: nat)
      requires Valid() && len <= |Readable()|
      modifies this`readerIndex, this`writerIndex
      ensures Valid() && Readable() == old(Readable())[len..]
      ensures readerIndex == if len < |old(Readable())| then old(readerIndex) + len else 8
    {
      if len < writerIndex - readerIndex {
        readerIndex := readerIndex + len;
      } else {
        RetrieveAll();
      }
    }

    method RetrieveAsString(len: nat) returns (result: seq<Byte>)
      requires Valid() && len <= |Readable()|
      modifies this`readerIndex, this`writerIndex
      ensures Valid() && result + Readable() == old(Readable()) && |result| == len
    {
      result := buffer[readerIndex..readerIndex + len];
      Retrieve(len);
    }

    method Unwrite(len: nat)
      requires Valid() && len <= |Readable()|
      modifies this`writerIndex
      ensures Valid() && Readable() == old(Readable())[..|old(Readable())| - len]
    {
      writerIndex := writerIndex - len;
    }

    // ---- making room

    /** buffer_.resize: a larger vector with the same bytes at the front. */
    method Resize(size: nat)
      requires Valid() && size >= buffer.Length
      modifies this`buffer
      ensures Valid() && fresh(buffer) && buffer.Length == size && Readable() == old(Readable())
    {
      var larger := new Byte[size](_ => 0);
      CopyInto(larger, 0, buffer[..]);
      ghost var copied := larger[0..0 + |buffer[..]|];
      assert forall k :: 0 <= k < buffer.Length ==> larger[k] == copied[k] && copied[k] == buffer[..][k];
      buffer := larger;
    }

    /** The compaction: std::copy of the readable bytes down to the cheap-prepend mark, front to back. */
    method MoveToFront()
      requires Valid() && CHEAP_PREPEND < readerIndex
      modifies this`readerIndex, this`writerIndex, buffer
      ensures Valid() && Readable() == old(Readable()) && readerIndex == CHEAP_PREPEND
      ensures writerIndex - readerIndex == old(writerIndex - readerIndex)
    {
      var readable := writerIndex - readerIndex;
      CopyDown(buffer, readerIndex, CHEAP_PREPEND, readable);
      readerIndex := CHEAP_PREPEND;
      writerIndex := readerIndex + readable;
    }

    /** makeSpace: grow, or compact -- and compaction is reached only with the reader past the mark, as asserted. */
    method MakeSpace(len: nat)
      requires Valid() && buffer.Length - writerIndex < len
      modifies this, buffer
      ensures Valid() && Readable() == old(Readable()) && buffer.Length - writerIndex >= len
      ensures if old(buffer.Length - writerIndex) + old(readerIndex) < len + 8 then
                fresh(buffer) && buffer.Length == writerIndex + len && readerIndex == old(readerIndex)
              else buffer == old(buffer) && readerIndex == 8
    {
      if buffer.Length - writerIndex + readerIndex < len + CHEAP_PREPEND {
        Resize(writerIndex + len);
      } else {
        assert CHEAP_PREPEND < readerIndex;
        MoveToFront();
      }
    }

    method EnsureWritableBytes(len: nat)
      requires Valid()
      modifies this, buffer
      ensures Valid() && Readable() == old(Readable()) && buffer.Length - writerIndex >= len
      ensures buffer == old(buffer) || fresh(buffer)
      ensures readerIndex == old(readerIndex) || readerIndex == CHEAP_PREPEND
      ensures old(buffer.Length - writerIndex) >= len ==> unchanged(this)
    {
      if buffer.Length - writerIndex < len {
        MakeSpace(len);
      }
    }

    // ---- putting bytes in

    method Append(data: seq<Byte>)
      requires Valid()
      modifies this, buffer
      ensures Valid() && Readable() == old(Readable()) + data
      ensures buffer == old(buffer) || fresh(buffer)
      ensures readerIndex == old(readerIndex) || readerIndex == CHEAP_PREPEND
    {
      EnsureWritableBytes(|data|);
      Write(data);
    }

    /** std::copy to beginWrite(), then hasWritten. */
    method Write(data: seq<Byte>)
      requires Valid() && |data| <= buffer.Length - writerIndex
      modifies this`writerIndex, buffer
      ensures Valid() && Readable() == old(Readable()) + data
    {
      CopyInto(buffer, writerIndex, data);
      assert buffer[readerIndex..writerIndex] == old(buffer[readerIndex..writerIndex]);
      assert buffer[readerIndex..writerIndex + |data|] == buffer[readerIndex..writerIndex] + buffer[writerIndex..writerIndex + |data|];
      writerIndex := writerIndex + |data|;
    }

    method Prepend(data: seq<Byte>)
      requires Valid() && |data| <= readerIndex
      modifies this`readerIndex, buffer
      ensures Valid() && Readable() == data + old(Readable())
    {
      ghost var before := buffer[readerIndex..writerIndex];
      readerIndex := readerIndex - |data|;
      CopyInto(buffer, readerIndex, data);
      assert buffer[readerIndex + |data|..writerIndex] == before;
      assert buffer[readerIndex..writerIndex] == buffer[readerIndex..readerIndex + |data|] + buffer[readerIndex + |data|..writerIndex];
    }

    /** shrink: a new buffer with just the readable bytes and the reserve, swapped in. */
    method Shrink(reserve: nat)
      requires Valid()
      modifies this
      ensures Valid() && fresh(buffer) && Readable() == old(Readable()) && buffer.Length - writerIndex >= reserve
      ensures readerIndex == CHEAP_PREPEND
    {
      var other := new Buffer(INITIAL_SIZE);
      other.EnsureWritableBytes(writerIndex - readerIndex + reserve);
      other.Write(buffer[readerIndex..writerIndex]);
      buffer, readerIndex, writerIndex := other.buffer, other.readerIndex, other.writerIndex;
    }

    /** readFd: whatever readv puts into the tail and the spill area ends up readable, in order. */
    method ReadFd(result: ReadResult) returns (n: int, savedErrno: Option<int>)
      requires Valid()
      requires result.Got? ==> |result.data| <= (buffer.Length - writerIndex) +
                                                (if buffer.Length - writerIndex < EXTRA_SIZE then EXTRA_SIZE else 0)
      modifies this, buffer
      ensures Valid()
      ensures result.Failed? ==> n < 0 && savedErrno == Some(result.errno) && Readable() == old(Readable())
      ensures result.Got? ==> n == |result.data| && savedErrno == None && Readable() == old(Readable()) + result.data
    {
      var writable := buffer.Length - writerIndex;
      if result.Failed? {
        return -1, Some(result.errno);
      }
      n, savedErrno := |result.data|, None;
      if n <= writable {
        Write(result.data);
      } else {
        Write(result.data[..writable]);
        assert result.data == result.data[..writable] + result.data[writable..];
        Append(result.data[writable..]);
      }
    }

    // ---- integers

    /** appendInt8/16/32/64: `width` is the size of the type. */
    method AppendInt(x: int, width: nat)
      requires Valid()
      modifies this, buffer
      ensures Valid() && Readable() == old(Readable()) + Encoded(x, width)
      ensures buffer == old(buffer) || fresh(buffer)
      ensures readerIndex == old(readerIndex) || readerIndex == CHEAP_PREPEND
    {
      Append(Encoded(x, width));
    }

    method PrependInt(x: int, width: nat)
      requires Valid() && width <= readerIndex
      modifies this`readerIndex, buffer
      ensures Valid() && Readable() == Encoded(x, width) + old(Readable())
    {
      Prepend(Encoded(x, width));
    }

    method PeekInt(width: nat) returns (x: int)
      requires Valid() && width <= |Readable()|
      ensures x == Decoded(Readable()[..width])
      ensures forall y :: FitsIn(y, width) && Encoded(y, width) <= Readable() ==> x == y
    {
      x := Decoded(buffer[readerIndex..readerIndex + width]);
      assert buffer[readerIndex..readerIndex + width] == Readable()[..width];
      forall y | FitsIn(y, width) && Encoded(y, width) <= Readable() ensures x == y {
        assert Encoded(y, width) == Readable()[..width];
        IntRoundTrip(y, width);
      }
    }

    /** readInt8/16/32/64: an integer appended or prepended in front comes back, and the rest is untouched. */
    method ReadInt(width: nat) returns (x: int)
      requires Valid() && width <= |Readable()|
      modifies this`readerIndex, this`writerIndex
      ensures Valid() && Readable() == old(Readable())[width..]
      ensures forall y :: FitsIn(y, width) && Encoded(y, width) <= old(Readable()) ==> x == y
    {
      x := PeekInt(width);
      Retrieve(width);
    }

    // ---- searching

    /** findCRLF from an offset into the readable bytes: the first CR LF at or after it, if any. */
    method FindCRLF(start: nat) returns (found: Option<nat>)
      requires Valid() && start <= |Readable()|
      ensures found.Some? ==> start <= found.value && IsCRLF(Readable(), found.value) &&
                              forall k :: start <= k < found.value ==> !IsCRLF(Readable(), k)
      ensures found.None? ==> forall k :: start <= k ==> !IsCRLF(Readable(), k)
    {
      var i := start;
      while readerIndex + i + 1 < writerIndex
        invariant start <= i
        invariant forall k :: start <= k < i ==> !IsCRLF(Readable(), k)
      {
        if buffer[readerIndex + i] == CR && buffer[readerIndex + i + 1] == LF {
          return Some(i);
        }
        i := i + 1;
      }
      return None;
    }
  }

  predicate IsCRLF(bytes: seq<Byte>, k: nat) {
    k + 1 < |bytes| && bytes[k] == CR && bytes[k + 1] == LF
  }
}
