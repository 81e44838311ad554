/** The connection's byte buffer: one array, a read index and a write index. */
module Buffers {
  import opened Bytes

  const INITIAL_SIZE: nat := 1024
  const SIDE_BUFFER: nat := 65536
  const SIZE_T: nat := 0x1_0000_0000_0000_0000

  class Buffer {
    var buf: array<Byte>
    var readIdx: nat
    var writeIdx: nat

    // Size the buffer was built with, and the largest readable count it was ever asked to hold.
    ghost const initialSize: nat
    ghost var peak: nat

    /** Index order, and the memory bound: never more than twice the largest queue ever held. */
    ghost predicate Valid()
      reads this, buf
    {
      && readIdx <= writeIdx <= buf.Length
      && writeIdx - readIdx <= peak
      && buf.Length <= Max(initialSize, 2 * peak)
    }

    /** The byte queue that the buffer stands for. */
    ghost function Contents(): (s: Data)
      requires Valid()
      reads this, buf
      ensures |s| <= peak
    {
      buf[readIdx..writeIdx]
    }

    constructor (size: nat)
      ensures Valid() && fresh(buf)
      ensures Contents() == [] && buf.Length == size && initialSize == size && peak == 0
    {
      buf := new Byte[size];
      readIdx, writeIdx := 0, 0;
      initialSize, peak := size, 0;
    }

    function ReadableBytes(): (n: nat)
      requires Valid()
      reads this, buf
      ensures n == |Contents()|
    {
      writeIdx - readIdx
    }

    function WritableBytes(): nat
      requires Valid()
      reads this, buf
    {
      buf.Length - writeIdx
    }

    function PrependableBytes(): nat
      requires Valid()
      reads this, buf
    {
      readIdx
    }

    method Retrieve(len: nat)
      requires Valid() && len <= |Contents()|
      modifies this`readIdx
      ensures Valid()
      ensures Contents() == old(Contents())[len..]
    {
      readIdx := readIdx + len;
    }

    method RetrieveAll()
      requires Valid()
      modifies this`readIdx, this`writeIdx
      ensures Valid()
      ensures Contents() == []
    {
      readIdx, writeIdx := 0, 0;
    }

    method RetrieveAsString(len: nat) returns (s: Data)
      requires Valid() && len <= |Contents()|
      modifies this`readIdx
      ensures Valid()
      ensures s == old(Contents())[..len] && Contents() == old(Contents())[len..]
    {
      s := buf[readIdx..readIdx + len];
      Retrieve(len);
    }

    /** Slides the unread bytes to the front when that is enough, otherwise grows the array. */
    method MakeSpace(len: nat)
      requires Valid() && WritableBytes() < len
      modifies this`buf, this`readIdx, this`writeIdx, this`peak, buf
      ensures Valid() && (buf == old(buf) || fresh(buf))
      ensures Contents() == old(Contents()) && WritableBytes() >= len
      ensures peak == Max(old(peak), |Contents()| + len)
    {
      ghost var queue := Contents();
      peak := Max(peak, |queue| + len);
      if PrependableBytes() + WritableBytes() >= len {
        var readable := ReadableBytes();
        CopyDown(readable);
        readIdx, writeIdx := 0, readable;
      } else {
        var grown := new Byte[writeIdx + len];
        forall i | 0 <= i < writeIdx {
          grown[i] := buf[i];
        }
        assert grown[readIdx..writeIdx] == queue;
        buf := grown;
      }
    }

    /** std::copy towards the front of the same array; the ranges may overlap. */
    method CopyDown(count: nat)
      requires readIdx + count <= buf.Length
      modifies buf
      ensures buf[..count] == old(buf[readIdx..readIdx + count])
    {
      for i := 0 to count
        invariant buf[..i] == old(buf[readIdx..readIdx + i])
        invariant forall j :: i <= j < buf.Length ==> buf[j] == old(buf[j])
      {
        buf[i] := buf[readIdx + i];
      }
    }

    /** std::copy of outside bytes into the array at `pos`. */
    method Store(pos: nat, data: Data)
      requires pos + |data| <= buf.Length
      modifies buf
      ensures buf[pos..pos + |data|] == data
      ensures forall i :: 0 <= i < buf.Length && !(pos <= i < pos + |data|) ==> buf[i] == old(buf[i])
    {
      for i := 0 to |data|
        invariant buf[pos..pos + i] == data[..i]
        invariant forall j :: 0 <= j < buf.Length && !(pos <= j < pos + i) ==> buf[j] == old(buf[j])
      {
        buf[pos + i] := data[i];
      }
    }

    method EnsureWritableBytes(len: nat)
      requires Valid()
      modifies this`buf, this`readIdx, this`writeIdx, this`peak, buf
      ensures Valid() && (buf == old(buf) || fresh(buf))
      ensures Contents() == old(Contents()) && WritableBytes() >= len
      ensures peak == Max(old(peak), |Contents()| + len)
    {
      if WritableBytes() >= len {
        peak := Max(peak, ReadableBytes() + len);
        return;
      }
      MakeSpace(len);
    }

    method HasWritten(len: nat)
      requires Valid() && len <= WritableBytes()
      modifies this`writeIdx, this`peak
      ensures Valid()
      ensures Contents() == old(Contents()) + buf[old(writeIdx)..old(writeIdx) + len]
      ensures peak == Max(old(peak), |Contents()|)
    {
      writeIdx := writeIdx + len;
      peak := Max(peak, writeIdx - readIdx);
    }

    /** Bytes written into free tail space and counted as readable. */
    method FillTail(data: Data)
      requires Valid() && |data| <= WritableBytes()
      modifies this`writeIdx, this`peak, buf
      ensures Valid()
      ensures Contents() == old(Contents()) + data
      ensures WritableBytes() == old(WritableBytes()) - |data|
      ensures peak == Max(old(peak), |Contents()|)
    {
      ghost var queue := Contents();
      Store(writeIdx, data);
      assert Contents() == queue;
      HasWritten(|data|);
    }

    method Append(data: Data)
      requires Valid()
      modifies this`buf, this`readIdx, this`writeIdx, this`peak, buf
      ensures Valid() && (buf == old(buf) || fresh(buf))
      ensures Contents() == old(Contents()) + data
      ensures peak == Max(old(peak), |Contents()|)
    {
      EnsureWritableBytes(|data|);
      FillTail(data);
    }

    method Prepend(data: Data)
      requires Valid() && |data| <= PrependableBytes()
      modifies this`readIdx, this`peak, buf
      ensures Valid()
      ensures Contents() == data + old(Contents())
      ensures peak == Max(old(peak), |Contents()|)
    {
      ghost var queue := Contents();
      readIdx := readIdx - |data|;
      Store(readIdx, data);
      assert buf[readIdx + |data|..writeIdx] == queue;
      peak := Max(peak, writeIdx - readIdx);
    }

    /** What one readv call may return: the free tail, and the side buffer when the tail is short. */
    function ScatterCapacity(): nat
      requires Valid()
      reads this, buf
    {
      WritableBytes() + if WritableBytes() < SIDE_BUFFER then SIDE_BUFFER else 0
    }

    /** `received` is what the kernel delivered, tail first and then the side buffer; None if it failed,
        in which case the Windows branch returns early. */
    method ReadFromFd(received: Option<Data>) returns (n: int)
      requires Valid() && (received.Some? ==> |received.value| <= ScatterCapacity())
      modifies this`buf, this`readIdx, this`writeIdx, this`peak, buf
      ensures Valid() && (buf == old(buf) || fresh(buf))
      ensures n == if received.Some? then |received.value| else -1
      ensures Contents() == old(Contents()) + if received.Some? then received.value else []
      ensures peak == Max(old(peak), |Contents()|)
    {
      if received.None? {
        return -1;
      }
      var incoming := received.value;
      n := |incoming|;
      var writable := WritableBytes();
      if n <= writable {
        FillTail(incoming);
      } else {
        FillTail(incoming[..writable]);
        var side := incoming[writable..];
        assert |side| <= SIDE_BUFFER;
        Append(side);
        assert incoming == incoming[..writable] + side;
      }
    }

    /** Hands the kernel the readable bytes; it takes the first `accepted` of them. */
    method WriteToFd(accepted: nat) returns (n: nat, sent: Data)
      requires Valid() && accepted <= |Contents()|
      modifies this`readIdx
      ensures Valid()
      ensures n == accepted && sent == old(Contents())[..n] && Contents() == old(Contents())[n..]
    {
      if ReadableBytes() == 0 {
        return 0, [];
      }
      sent := buf[readIdx..readIdx + accepted];
      n := accepted;
      if n > 0 {
        Retrieve(n);
      }
    }

    function PeekInt32(): (x: int)
      requires Valid() && |Contents()| >= 4
      reads this, buf
      ensures x == Signed32(Unsigned32(Contents()))
      ensures -HALF_WORD <= x < HALF_WORD
    {
      Signed32(Unsigned32(buf[readIdx..writeIdx]))
    }

    method AppendInt32(x: int)
      requires Valid() && -HALF_WORD <= x < HALF_WORD
      modifies this`buf, this`readIdx, this`writeIdx, this`peak, buf
      ensures Valid() && (buf == old(buf) || fresh(buf))
      ensures Contents() == old(Contents()) + BigEndian(x % WORD)
      ensures peak == Max(old(peak), |Contents()|)
    {
      Append(BigEndian(x % WORD));
    }
  }

  /** Bytes that ReadFromFd asks Append to take from the side buffer, in size_t arithmetic,
      when readv returned `n`. */
  function SideBufferRequest(n: int, writable: nat): nat {
    if n % SIZE_T <= writable then 0 else (n - writable) % SIZE_T
  }

  /** The side buffer is over-read exactly when readv failed: there is no early return for -1. */
  lemma SideBufferIsSafeIffReadSucceeded(n: int, writable: nat)
    requires writable < SIZE_T / 2
    requires n == -1 || 0 <= n <= writable + if writable < 65_536 then 65_536 else 0
    ensures SideBufferRequest(n, writable) <= 65_536 <==> n >= 0
  {
  }
}
