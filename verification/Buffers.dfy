/** The byte buffer of netlib: one array with a read and a write index, compacted in place or grown on
    demand (netlib/include/netlib/Buffer.h, netlib/src/Buffer.cpp). To its user it is a byte queue. */
module Buffers {

  const PREPEND: nat := 8
  const EXTRA: nat := 65536

  class Buffer {
    var data: array<bv8>
    var readIdx: nat
    var writeIdx: nat

    ghost predicate Valid()
      reads this
    {
      PREPEND <= readIdx <= writeIdx <= data.Length
    }

    /** The queue: what was appended and not yet retrieved. */
    ghost function Contents(): seq<bv8>
      requires Valid()
      reads this, data
    {
      data[readIdx..writeIdx]
    }

    constructor (init: nat)
      ensures Valid() && fresh(data) && Contents() == []
    {
      data := new bv8[PREPEND + init];
      readIdx, writeIdx := PREPEND, PREPEND;
    }

    function ReadableBytes(): nat
      requires Valid()
      reads this
    {
      writeIdx - readIdx
    }

    function WritableBytes(): nat
      requires Valid()
      reads this
    {
      data.Length - writeIdx
    }

    /** The bytes from some offset of the readable part on. */
    method Peek(offset: nat) returns (bytes: seq<bv8>)
      requires Valid() && offset <= ReadableBytes()
      ensures bytes == Contents()[offset..]
    {
      bytes := data[readIdx + offset..writeIdx];
    }

    /** Takes n bytes off the front, or all there are. */
    method Retrieve(n: nat)
      requires Valid()
      modifies this
      ensures Valid() && data == old(data)
      ensures Contents() == old(Contents())[if n < |old(Contents())| then n else |old(Contents())|..]
    {
      if n < ReadableBytes() {
        readIdx := readIdx + n;
      } else {
        RetrieveAll();
      }
    }

    method RetrieveAll()
      modifies this
      requires Valid()
      ensures Valid() && data == old(data) && Contents() == []
    {
      readIdx, writeIdx := PREPEND, PREPEND;
    }

    /** The array grows, and its readable part stays where it is. */
    method Resize(size: nat)
      requires Valid() && writeIdx <= size
      modifies this
      ensures Valid() && fresh(data) && data.Length == size
      ensures readIdx == old(readIdx) && writeIdx == old(writeIdx) && Contents() == old(Contents())
    {
      var bigger := new bv8[size];
      var i := 0;
      while i < writeIdx
        invariant 0 <= i <= writeIdx && writeIdx == old(writeIdx) && readIdx == old(readIdx) && data == old(data)
        invariant data[..] == old(data[..])
        invariant bigger[..i] == data[..i]
      {
        bigger[i] := data[i];
        i := i + 1;
      }
      assert bigger[..writeIdx] == data[..writeIdx];
      assert bigger[readIdx..writeIdx] == bigger[..writeIdx][readIdx..];
      assert data[readIdx..writeIdx] == data[..writeIdx][readIdx..];
      data := bigger;
    }

    /** The readable part moves to the front of the array; source and target may overlap. */
    method Compact()
      requires Valid()
      modifies this, data
      ensures Valid() && data == old(data) && readIdx == PREPEND
      ensures Contents() == old(Contents())
    {
      var readable := ReadableBytes();
      ghost var was := Contents();
      var i := 0;
      while i < readable
        invariant 0 <= i <= readable && Valid()
        invariant readIdx == old(readIdx) && writeIdx == old(writeIdx) && data == old(data)
        invariant forall k :: PREPEND <= k < PREPEND + i ==> data[k] == was[k - PREPEND]
        invariant forall k :: readIdx + i <= k < writeIdx ==> data[k] == was[k - readIdx]
      {
        data[PREPEND + i] := data[readIdx + i];
        i := i + 1;
      }
      readIdx := PREPEND;
      writeIdx := readIdx + readable;
      assert Contents() == was;
    }

    method MakeSpace(len: nat)
      requires Valid()
      modifies this, data
      ensures Valid() && (data == old(data) || fresh(data))
      ensures len <= WritableBytes() && Contents() == old(Contents())
    {
      if WritableBytes() + readIdx < len + PREPEND {
        Resize(writeIdx + len);
      } else {
        Compact();
      }
    }

    method Append(bytes: seq<bv8>)
      requires Valid()
      modifies this, data
      ensures Valid() && (data == old(data) || fresh(data))
      ensures Contents() == old(Contents()) + bytes
    {
      if WritableBytes() < |bytes| { MakeSpace(|bytes|); }
      assert Contents() == old(Contents());
      CopyIn(bytes);
      writeIdx := writeIdx + |bytes|;
      assert data[readIdx..writeIdx] == data[readIdx..writeIdx - |bytes|] + data[writeIdx - |bytes|..writeIdx];
    }

    /** memcpy into the writable part. */
    method CopyIn(bytes: seq<bv8>)
      requires Valid() && |bytes| <= WritableBytes()
      modifies data
      ensures data[readIdx..writeIdx] == old(data[readIdx..writeIdx])
      ensures data[writeIdx..writeIdx + |bytes|] == bytes
    {
      var i := 0;
      while i < |bytes|
        invariant 0 <= i <= |bytes|
        invariant data[readIdx..writeIdx] == old(data[readIdx..writeIdx])
        invariant data[writeIdx..writeIdx + i] == bytes[..i]
      {
        data[writeIdx + i] := bytes[i];
        i := i + 1;
      }
    }

    /** How much one readv may deliver: the writable part, and an overflow area when that is small. */
    function Capacity(): nat
      requires Valid()
      reads this
    {
      if WritableBytes() < EXTRA then WritableBytes() + EXTRA else WritableBytes()
    }

    /** readFd, where `got` is what the kernel delivered into the two areas: it fills the writable part
        first, and what spilled over is appended. */
    method ReadFd(got: seq<bv8>) returns (n: nat)
      requires Valid() && |got| <= Capacity()
      modifies this, data
      ensures Valid() && (data == old(data) || fresh(data))
      ensures n == |got| && Contents() == old(Contents()) + got
    {
      var writable := WritableBytes();
      n := |got|;
      if n <= writable {
        CopyIn(got);
        writeIdx := writeIdx + n;
        assert data[readIdx..writeIdx] == data[readIdx..writeIdx - n] + data[writeIdx - n..writeIdx];
      } else {
        var spilled := got[writable..];
        CopyIn(got[..writable]);
        ghost var mid := writeIdx;
        writeIdx := data.Length;
        assert data[readIdx..writeIdx] == data[readIdx..mid] + data[mid..writeIdx];
        Append(spilled);
        assert got == got[..writable] + spilled;
      }
    }
  }
}
