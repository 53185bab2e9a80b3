/** The file client: reads and writes of any range, cut into chunks that daemons store. */
module AggfsClient {
  import opened Prelude
  import opened Bits
  import opened AggfsStore

  /** The daemon that owns a chunk. */
  function Route(path: nat, index: nat, daemons: nat): (d: nat)
    requires daemons > 0
    ensures d < daemons
  {
    (path + index) % U64 % daemons
  }

  predicate ClusterInv(daemons: seq<Store>) {
    |daemons| > 0 && forall d :: 0 <= d < |daemons| ==> StoreInv(daemons[d])
  }

  /** The valid byte at an offset of a chunk, wherever it is stored. */
  function ChunkByte(daemons: seq<Store>, k: Key, o: nat): Option<Byte>
    requires |daemons| > 0
  {
    ByteAt(daemons[Route(k.0, k.1, |daemons|)], k, o)
  }

  /** The flat file: the byte at a position, if it is there. */
  function FileByte(daemons: seq<Store>, chunkSize: nat, path: nat, pos: nat): Option<Byte>
    requires |daemons| > 0 && chunkSize > 0
  {
    ChunkByte(daemons, (path, pos / chunkSize), pos % chunkSize)
  }

  /** A write request, as a daemon serves it. */
  function ServeWrite(daemons: seq<Store>, k: Key, off: nat, data: Bytes): Option<seq<Store>>
    requires |daemons| > 0
  {
    var d := Route(k.0, k.1, |daemons|);
    var r := Write(daemons[d], k, off, data);
    if r.None? then None else Some(daemons[d := r.value])
  }

  function ServeRead(daemons: seq<Store>, k: Key, off: nat, len: nat): Bytes
    requires |daemons| > 0
  {
    Read(daemons[Route(k.0, k.1, |daemons|)], k, off, len)
  }

  /** Whether offset `o` of chunk `index` is one of the positions from `first` up to `end`. */
  predicate InRange(chunkSize: nat, index: nat, o: nat, first: nat, end: nat) {
    o < chunkSize && first <= index * chunkSize + o < end
  }

  /** Every byte that was there is still there, except in the given range of the given file. */
  ghost predicate Preserved(before: seq<Store>, after: seq<Store>, chunkSize: nat, path: nat, first: nat, end: nat) {
    && |before| == |after| > 0
    && forall k: Key, o: nat {:trigger ChunkByte(after, k, o)} ::
         ChunkByte(before, k, o).Some? && !(k.0 == path && InRange(chunkSize, k.1, o, first, end))
         ==> ChunkByte(after, k, o) == ChunkByte(before, k, o)
  }

  /** The file holds `data` from position `first` on. */
  ghost predicate HoldsData(daemons: seq<Store>, chunkSize: nat, path: nat, first: nat, data: Bytes)
    requires |daemons| > 0 && chunkSize > 0
  {
    forall i {:trigger data[i]} :: 0 <= i < |data| ==> FileByte(daemons, chunkSize, path, first + i) == Some(data[i])
  }

  // One request.

  /** Positions within one chunk. */
  lemma SameChunk(chunkSize: nat, pos: nat, i: nat)
    requires chunkSize > 0 && pos % chunkSize + i < chunkSize
    ensures (pos + i) / chunkSize == pos / chunkSize && (pos + i) % chunkSize == pos % chunkSize + i
  {
    DivModSplit(pos, chunkSize);
    DivModUnique(pos + i, chunkSize, pos / chunkSize, pos % chunkSize + i);
  }

  lemma ServeWriteStores(daemons: seq<Store>, k: Key, off: nat, data: Bytes, l: Key, o: nat)
    requires ClusterInv(daemons) && ServeWrite(daemons, k, off, data).Some?
    ensures var after := ServeWrite(daemons, k, off, data).value;
            && |after| == |daemons|
            && (l == k && off <= o < off + |data| ==> ChunkByte(after, l, o) == Some(data[o - off]))
            && (!(l == k && off <= o < off + |data|) && ChunkByte(daemons, l, o).Some? ==>
                  ChunkByte(after, l, o) == ChunkByte(daemons, l, o))
  {
    var d := Route(k.0, k.1, |daemons|);
    WriteStores(daemons[d], k, off, data, l, o);
    if Route(l.0, l.1, |daemons|) != d {
      assert l != k;
    }
  }

  lemma ServeWriteInv(daemons: seq<Store>, k: Key, off: nat, data: Bytes)
    requires ClusterInv(daemons) && ServeWrite(daemons, k, off, data).Some?
    ensures ClusterInv(ServeWrite(daemons, k, off, data).value)
  {
    WriteInv(daemons[Route(k.0, k.1, |daemons|)], k, off, data);
  }

  lemma WritePreserves(daemons: seq<Store>, chunkSize: nat, path: nat, pos: nat, data: Bytes, after: seq<Store>)
    requires ClusterInv(daemons) && chunkSize > 0 && pos % chunkSize + |data| <= chunkSize
    requires ServeWrite(daemons, (path, pos / chunkSize), pos % chunkSize, data) == Some(after)
    ensures Preserved(daemons, after, chunkSize, path, pos, pos + |data|)
  {
    var k, off := (path, pos / chunkSize), pos % chunkSize;
    DivModSplit(pos, chunkSize);
    forall l: Key, o: nat
      | ChunkByte(daemons, l, o).Some? && !(l.0 == path && InRange(chunkSize, l.1, o, pos, pos + |data|))
      ensures ChunkByte(after, l, o) == ChunkByte(daemons, l, o)
    {
      ServeWriteStores(daemons, k, off, data, l, o);
    }
  }

  /** One request of the loop: its part of the file is written, and nothing else is lost. */
  lemma WritePart(daemons: seq<Store>, chunkSize: nat, path: nat, pos: nat, data: Bytes, after: seq<Store>)
    requires ClusterInv(daemons) && chunkSize > 0 && pos % chunkSize + |data| <= chunkSize
    requires ServeWrite(daemons, (path, pos / chunkSize), pos % chunkSize, data) == Some(after)
    ensures ClusterInv(after) && |after| == |daemons|
    ensures HoldsData(after, chunkSize, path, pos, data)
    ensures Preserved(daemons, after, chunkSize, path, pos, pos + |data|)
  {
    var k, off := (path, pos / chunkSize), pos % chunkSize;
    ServeWriteInv(daemons, k, off, data);
    forall i | 0 <= i < |data| ensures FileByte(after, chunkSize, path, pos + i) == Some(data[i]) {
      SameChunk(chunkSize, pos, i);
      ServeWriteStores(daemons, k, off, data, k, off + i);
    }
    WritePreserves(daemons, chunkSize, path, pos, data, after);
  }

  // The loops.

  lemma ProductSign(k: int, d: nat)
    ensures k >= 0 ==> k * d >= 0
  {
  }

  /** What is in the file stays there when a later part is written. */
  lemma HoldsMore(before: seq<Store>, after: seq<Store>, chunkSize: nat, path: nat, first: nat, data: Bytes,
                  part: Bytes)
    requires |before| > 0 && chunkSize > 0 && HoldsData(before, chunkSize, path, first, data)
    requires Preserved(before, after, chunkSize, path, first + |data|, first + |data| + |part|)
    requires HoldsData(after, chunkSize, path, first + |data|, part)
    ensures HoldsData(after, chunkSize, path, first, data + part)
  {
  }

  lemma PartWritten(before: seq<Store>, after: seq<Store>, chunkSize: nat, path: nat, first: nat, data: Bytes,
                    part: Bytes)
    requires chunkSize > 0 && ClusterInv(before) && HoldsData(before, chunkSize, path, first, data)
    requires var pos := first + |data|;
             pos % chunkSize + |part| <= chunkSize
             && ServeWrite(before, (path, pos / chunkSize), pos % chunkSize, part) == Some(after)
    ensures ClusterInv(after) && |after| == |before|
    ensures HoldsData(after, chunkSize, path, first, data + part)
    ensures Preserved(before, after, chunkSize, path, first + |data|, first + |data| + |part|)
  {
    WritePart(before, chunkSize, path, first + |data|, part, after);
    HoldsMore(before, after, chunkSize, path, first, data, part);
  }

  datatype IoResult = Done(count: nat) | NoSuchFd | ServerError

  class FsClient {
    const chunkSize: nat
    /** The size of the buffer that is shared with the daemon. */
    const dataCapacity: nat
    /** The open files, by descriptor. */
    var fdTable: seq<Option<nat>>
    /** The stores of the daemons that serve the requests. */
    var daemons: seq<Store>

    ghost predicate Valid()
      reads this
    {
      0 < chunkSize < U32 && dataCapacity > 0 && ClusterInv(daemons)
    }

    predicate IsOpen(fd: nat)
      reads this
    {
      fd < |fdTable| && fdTable[fd].Some?
    }

    constructor (chunkSize: nat, dataCapacity: nat, daemons: seq<Store>)
      requires 0 < chunkSize < U32 && dataCapacity > 0 && ClusterInv(daemons)
      ensures Valid() && this.daemons == daemons && fdTable == []
    {
      this.chunkSize, this.dataCapacity, this.daemons, fdTable := chunkSize, dataCapacity, daemons, [];
    }

    /** Takes the first free descriptor. */
    method Open(path: nat) returns (fd: nat)
      modifies this`fdTable
      ensures IsOpen(fd) && fdTable[fd] == Some(path) && !old(IsOpen(fd))
      ensures forall f: nat :: f < fd ==> old(IsOpen(f))
      ensures forall f: nat :: f != fd && f < |old(fdTable)| ==> f < |fdTable| && fdTable[f] == old(fdTable)[f]
    {
      fd := 0;
      while fd < |fdTable| && fdTable[fd].Some?
        invariant fd <= |fdTable| && forall f: nat :: f < fd ==> IsOpen(f)
      {
        fd := fd + 1;
      }
      fdTable := if fd < |fdTable| then fdTable[fd := Some(path)] else fdTable + [Some(path)];
    }

    method Close(fd: nat) returns (r: IoResult)
      modifies this`fdTable
      ensures r == (if old(IsOpen(fd)) then Done(0) else NoSuchFd) && !IsOpen(fd)
      ensures |fdTable| == |old(fdTable)| && forall f: nat :: f != fd && f < |fdTable| ==> fdTable[f] == old(fdTable)[f]
    {
      if !IsOpen(fd) {
        return NoSuchFd;
      }
      fdTable := fdTable[fd := None];
      return Done(0);
    }

    /**
     * Writes all of `buf` at `offset`. Chunk indices are 32-bit words. Whatever the outcome, no
     * byte outside the range changes, in this file or another.
     */
    method Pwrite(fd: nat, buf: Bytes, offset: nat) returns (r: IoResult)
      requires Valid() && (offset + |buf|) / chunkSize < U32
      modifies this`daemons
      ensures Valid() && |daemons| == |old(daemons)| && (r.NoSuchFd? <==> !IsOpen(fd))
      ensures r.NoSuchFd? ==> daemons == old(daemons)
      ensures r.Done? ==> r.count == |buf| && HoldsData(daemons, chunkSize, fdTable[fd].value, offset, buf)
      ensures IsOpen(fd) ==> Preserved(old(daemons), daemons, chunkSize, fdTable[fd].value, offset, offset + |buf|)
    {
      if !IsOpen(fd) {
        return NoSuchFd;
      }
      var path, written, fileOffset := fdTable[fd].value, 0, offset;
      while written < |buf|
        invariant Valid() && |daemons| == |old(daemons)| && written <= |buf| && fileOffset == offset + written
        invariant HoldsData(daemons, chunkSize, path, offset, buf[..written])
        invariant Preserved(old(daemons), daemons, chunkSize, path, offset, offset + written)
      {
        var thisLen;
        thisLen, r := WriteNext(path, buf, offset, written);
        if r.ServerError? {
          Widen(old(daemons), daemons, path, offset, offset + written, offset + |buf|);
          return;
        }
        written := written + thisLen;
        fileOffset := fileOffset + thisLen;
      }
      assert buf[..written] == buf;
      return Done(written);
    }

    /** One turn of the loop of `Pwrite`. */
    method WriteNext(path: nat, buf: Bytes, offset: nat, written: nat) returns (thisLen: nat, r: IoResult)
      requires Valid() && written < |buf| && (offset + |buf|) / chunkSize < U32
      requires HoldsData(daemons, chunkSize, path, offset, buf[..written])
      modifies this`daemons
      ensures Valid() && |daemons| == |old(daemons)| && 0 < thisLen <= |buf| - written && !r.NoSuchFd?
      ensures r.ServerError? ==> daemons == old(daemons)
      ensures r.Done? ==> HoldsData(daemons, chunkSize, path, offset, buf[..written + thisLen])
      ensures r.Done? ==>
                Preserved(old(daemons), daemons, chunkSize, path, offset + written, offset + written + thisLen)
    {
      var fileOffset := offset + written;
      DivModSplit(fileOffset, chunkSize);
      var chunkIndex := fileOffset / chunkSize % U32;
      var chunkOffset := fileOffset % chunkSize;
      thisLen := Min(Min(|buf| - written, chunkSize - chunkOffset), dataCapacity);
      var part := buf[written..written + thisLen];
      IndexFits(fileOffset, offset + |buf|);
      var served := ServeWrite(daemons, (path, chunkIndex), chunkOffset, part);
      if served.None? {
        return thisLen, ServerError;
      }
      PartWritten(daemons, served.value, chunkSize, path, offset, buf[..written], part);
      assert buf[..written] + part == buf[..written + thisLen];
      daemons := served.value;
      return thisLen, Done(thisLen);
    }

    lemma IndexFits(pos: nat, end: nat)
      requires chunkSize > 0 && pos <= end && end / chunkSize < U32
      ensures pos / chunkSize % U32 == pos / chunkSize
    {
      DivModSplit(pos, chunkSize);
      DivModSplit(end, chunkSize);
      ProductSign(pos / chunkSize - end / chunkSize - 1, chunkSize);
    }

    lemma Widen(before: seq<Store>, after: seq<Store>, path: nat, first: nat, mid: nat, end: nat)
      requires Preserved(before, after, chunkSize, path, first, mid) && mid <= end
      ensures Preserved(before, after, chunkSize, path, first, end)
    {
    }

    /** Reads up to `len` bytes at `offset`, as from a flat file. */
    method Pread(fd: nat, len: nat, offset: nat) returns (r: IoResult, data: Bytes)
      requires Valid() && (offset + len) / chunkSize < U32
      ensures r.NoSuchFd? <==> !IsOpen(fd)
      ensures !r.ServerError? && (r.Done? ==> r.count == |data|)
      ensures r.Done? ==> data == FlatRead(daemons, chunkSize, fdTable[fd].value, offset, len)
    {
      data := [];
      if !IsOpen(fd) {
        return NoSuchFd, data;
      }
      var path, fileOffset := fdTable[fd].value, offset;
      while |data| < len
        invariant |data| <= len && fileOffset == offset + |data|
        invariant HoldsData(daemons, chunkSize, path, offset, data)
      {
        DivModSplit(fileOffset, chunkSize);
        IndexFits(fileOffset, offset + len);
        var chunkIndex := fileOffset / chunkSize % U32;
        var chunkOffset := fileOffset % chunkSize;
        var thisLen := Min(Min(len - |data|, chunkSize - chunkOffset), dataCapacity);
        var part := ServeRead(daemons, (path, chunkIndex), chunkOffset, thisLen);
        ReadPart(daemons, chunkSize, path, fileOffset, thisLen);
        HoldsConcat(daemons, chunkSize, path, offset, data, part);
        data := data + part;
        fileOffset := fileOffset + |part|;
        if |part| < thisLen {
          break;
        }
      }
      FlatReadIs(daemons, chunkSize, path, offset, len, data);
      return Done(|data|), data;
    }
  }

  lemma ReadPart(daemons: seq<Store>, chunkSize: nat, path: nat, pos: nat, len: nat)
    requires ClusterInv(daemons) && chunkSize > 0 && pos % chunkSize + len <= chunkSize
    ensures var part := ServeRead(daemons, (path, pos / chunkSize), pos % chunkSize, len);
            && |part| <= len && HoldsData(daemons, chunkSize, path, pos, part)
            && (|part| < len ==> FileByte(daemons, chunkSize, path, pos + |part|) == None)
  {
    var k, off := (path, pos / chunkSize), pos % chunkSize;
    var s := daemons[Route(k.0, k.1, |daemons|)];
    ReadReturns(s, k, off, len);
    var part := ServeRead(daemons, k, off, len);
    forall i | 0 <= i < |part| ensures FileByte(daemons, chunkSize, path, pos + i) == Some(part[i]) {
      SameChunk(chunkSize, pos, i);
    }
    if |part| < len {
      SameChunk(chunkSize, pos, |part|);
    }
  }

  lemma HoldsConcat(daemons: seq<Store>, chunkSize: nat, path: nat, first: nat, data: Bytes, part: Bytes)
    requires |daemons| > 0 && chunkSize > 0 && HoldsData(daemons, chunkSize, path, first, data)
    requires HoldsData(daemons, chunkSize, path, first + |data|, part)
    ensures HoldsData(daemons, chunkSize, path, first, data + part)
  {
  }

  /** A read of the flat file: the bytes from `pos` on, up to `len` or the first that is not there. */
  function FlatRead(daemons: seq<Store>, chunkSize: nat, path: nat, pos: nat, len: nat): Bytes
    requires |daemons| > 0 && chunkSize > 0
    decreases len
  {
    var b := FileByte(daemons, chunkSize, path, pos);
    if len == 0 || b.None? then [] else [b.value] + FlatRead(daemons, chunkSize, path, pos + 1, len - 1)
  }

  lemma {:induction false} FlatReadIs(daemons: seq<Store>, chunkSize: nat, path: nat, pos: nat, len: nat, data: Bytes)
    requires |daemons| > 0 && chunkSize > 0 && |data| <= len && HoldsData(daemons, chunkSize, path, pos, data)
    requires |data| < len ==> FileByte(daemons, chunkSize, path, pos + |data|) == None
    ensures FlatRead(daemons, chunkSize, path, pos, len) == data
    decreases len
  {
    if data != [] {
      var rest := data[1..];
      assert FileByte(daemons, chunkSize, path, pos + 0) == Some(data[0]);
      forall i | 0 <= i < |rest| ensures FileByte(daemons, chunkSize, path, pos + 1 + i) == Some(rest[i]) {
        assert rest[i] == data[i + 1];
        assert pos + 1 + i == pos + (i + 1);
      }
      FlatReadIs(daemons, chunkSize, path, pos + 1, len - 1, rest);
    }
  }

  /** Write, then read: the flat file gives back exactly the bytes that a write has put there. */
  lemma ReadsBack(daemons: seq<Store>, chunkSize: nat, path: nat, offset: nat, buf: Bytes)
    requires |daemons| > 0 && chunkSize > 0 && HoldsData(daemons, chunkSize, path, offset, buf)
    ensures FlatRead(daemons, chunkSize, path, offset, |buf|) == buf
  {
    FlatReadIs(daemons, chunkSize, path, offset, |buf|, buf);
  }
}
