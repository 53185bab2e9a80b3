/** The chunk store: chunks of files, placed in one region by a bump allocator. */
module AggfsStore {
  import opened Prelude

  type Key = (nat, nat)

  /** `capacity` is history: the bytes set aside when the chunk was allocated. */
  datatype Chunk = Chunk(offset: nat, validLen: nat, capacity: nat)

  /** Chunks by path hash and chunk index, and the chunk sizes of registered files. */
  datatype Store = Store(
    region: Bytes, table: map<Key, Chunk>, nextOffset: nat, sizes: map<nat, nat>, maxCapacity: nat)

  function EffectiveSize(s: Store, path: nat): nat {
    if path in s.sizes then s.sizes[path] else s.maxCapacity
  }

  predicate ChunkOk(s: Store, k: Key)
    requires k in s.table
  {
    var c := s.table[k];
    c.offset + c.capacity <= s.nextOffset && c.validLen <= c.capacity && EffectiveSize(s, k.0) <= c.capacity
  }

  predicate Apart(c: Chunk, d: Chunk) {
    c.offset + c.capacity <= d.offset || d.offset + d.capacity <= c.offset
  }

  predicate StoreInv(s: Store) {
    && s.nextOffset <= |s.region|
    && (forall k :: k in s.table ==> ChunkOk(s, k))
    && (forall k, l :: k in s.table && l in s.table && k != l ==> Apart(s.table[k], s.table[l]))
  }

  /** The byte at an offset of a chunk, if that part of the chunk is valid. */
  function ByteAt(s: Store, k: Key, o: nat): Option<Byte> {
    if k in s.table && o < s.table[k].validLen && s.table[k].offset + o < |s.region|
    then Some(s.region[s.table[k].offset + o]) else None
  }

  // The operations.

  function Fresh(regionLen: nat, maxCapacity: nat): Store {
    Store(seq(regionLen, _ => 0), map[], 0, map[], maxCapacity)
  }

  /** `register_file`. */
  function RegisterFile(s: Store, path: nat, size: nat): Store {
    s.(sizes := s.sizes[path := size])
  }

  /** `ensure_chunk`; none if the region is exhausted. */
  function EnsureChunk(s: Store, k: Key, capacity: nat): Option<Store> {
    if k in s.table then Some(s)
    else if s.nextOffset + capacity > |s.region| then None
    else Some(s.(table := s.table[k := Chunk(s.nextOffset, 0, capacity)], nextOffset := s.nextOffset + capacity))
  }

  function Overwritten(region: Bytes, off: nat, data: Bytes): (r: Bytes)
    requires off + |data| <= |region|
    ensures |r| == |region|
    ensures forall i :: 0 <= i < |r| ==> r[i] == (if off <= i < off + |data| then data[i - off] else region[i])
  {
    region[..off] + data + region[off + |data|..]
  }

  /** Data goes into an allocated chunk. */
  function Put(s: Store, k: Key, off: nat, data: Bytes): Store
    requires k in s.table && s.table[k].offset + off + |data| <= |s.region|
  {
    var c := s.table[k];
    var validLen := if off + |data| > c.validLen then off + |data| else c.validLen;
    s.(table := s.table[k := c.(validLen := validLen)], region := Overwritten(s.region, c.offset + off, data))
  }

  /** `write`; none if it exceeds the chunk, the region is exhausted, or it would leave the region. */
  function Write(s: Store, k: Key, off: nat, data: Bytes): Option<Store> {
    var capacity := EffectiveSize(s, k.0);
    if off + |data| > capacity then None
    else
      var r := EnsureChunk(s, k, capacity);
      if r.None? then None
      else
        var s1 := r.value;
        if s1.table[k].offset + off + |data| > |s1.region| then None else Some(Put(s1, k, off, data))
  }

  /** The write passes the checks of the code, which then writes outside the region; `Write` gives none. */
  predicate Escapes(s: Store, k: Key, off: nat, data: Bytes) {
    && k in s.table && off + |data| <= EffectiveSize(s, k.0)
    && s.table[k].offset + off + |data| > |s.region|
  }

  /** `read` of up to `len` bytes. */
  function Read(s: Store, k: Key, off: nat, len: nat): Bytes {
    if k !in s.table || off >= s.table[k].validLen || s.table[k].offset + s.table[k].validLen > |s.region| then []
    else
      var c := s.table[k];
      var n := if len < c.validLen - off then len else c.validLen - off;
      s.region[c.offset + off..c.offset + off + n]
  }

  /** `remove`; with chunk 0 the registered chunk size goes too. */
  function Remove(s: Store, k: Key): Store {
    s.(table := s.table - {k}, sizes := if k.1 == 0 then s.sizes - {k.0} else s.sizes)
  }

  // What they keep.

  /** The chunk size of a file may change as long as its chunks are large enough. */
  predicate FitsChunks(s: Store, path: nat, size: nat) {
    forall k :: k in s.table && k.0 == path ==> size <= s.table[k].capacity
  }

  /** Registering a size changes no byte, and keeps the store exactly if the file's chunks are large enough. */
  lemma RegisterKeeps(s: Store, path: nat, size: nat)
    ensures forall k, o: nat :: ByteAt(RegisterFile(s, path, size), k, o) == ByteAt(s, k, o)
    ensures StoreInv(s) ==> (StoreInv(RegisterFile(s, path, size)) <==> FitsChunks(s, path, size))
  {
    var s' := RegisterFile(s, path, size);
    forall k | k in s.table ensures StoreInv(s) && FitsChunks(s, path, size) ==> ChunkOk(s', k) {
      assert StoreInv(s) ==> ChunkOk(s, k);
    }
    forall k | k in s.table && k.0 == path ensures StoreInv(s') ==> size <= s.table[k].capacity {
      assert StoreInv(s') ==> ChunkOk(s', k);
    }
  }

  /**
   * Removing a chunk removes its bytes and no others. It keeps the store exactly if the chunks that
   * are left are large enough for the default size, which chunk 0 leaves behind for its file.
   */
  lemma RemoveKeeps(s: Store, k: Key)
    ensures forall l, o: nat :: ByteAt(Remove(s, k), l, o) == (if l == k then None else ByteAt(s, l, o))
    ensures StoreInv(s) ==>
              (StoreInv(Remove(s, k)) <==> (k.1 == 0 ==> FitsChunks(Remove(s, k), k.0, s.maxCapacity)))
  {
    var s' := Remove(s, k);
    forall l | l in s'.table
      ensures StoreInv(s) && (k.1 == 0 ==> FitsChunks(s', k.0, s.maxCapacity)) ==> ChunkOk(s', l)
    {
      assert StoreInv(s) ==> ChunkOk(s, l);
    }
    forall l | l in s'.table && l.0 == k.0 && k.1 == 0 ensures StoreInv(s') ==> s.maxCapacity <= s.table[l].capacity {
      assert StoreInv(s') ==> ChunkOk(s', l);
    }
  }

  lemma EnsureKeeps(s: Store, k: Key)
    requires StoreInv(s) && EnsureChunk(s, k, EffectiveSize(s, k.0)).Some?
    ensures var s' := EnsureChunk(s, k, EffectiveSize(s, k.0)).value;
            && StoreInv(s') && k in s'.table && s'.region == s.region && s'.sizes == s.sizes
            && (forall l, o: nat :: ByteAt(s', l, o) == ByteAt(s, l, o))
  {
    var s' := EnsureChunk(s, k, EffectiveSize(s, k.0)).value;
    forall l | l in s'.table ensures ChunkOk(s', l) {
      assert l in s.table ==> ChunkOk(s, l);
    }
    forall l, m | l in s'.table && m in s'.table && l != m ensures Apart(s'.table[l], s'.table[m]) {
      assert l in s.table ==> ChunkOk(s, l);
      assert m in s.table ==> ChunkOk(s, m);
    }
  }

  /** Writing to a chunk keeps the layout. */
  lemma WriteInv(s: Store, k: Key, off: nat, data: Bytes)
    requires StoreInv(s) && Write(s, k, off, data).Some?
    ensures StoreInv(Write(s, k, off, data).value)
  {
    EnsureKeeps(s, k);
    var s1, s' := EnsureChunk(s, k, EffectiveSize(s, k.0)).value, Write(s, k, off, data).value;
    assert ChunkOk(s1, k);
    forall l | l in s'.table ensures ChunkOk(s', l) {
      assert ChunkOk(s1, l);
    }
    forall l, m | l in s'.table && m in s'.table && l != m ensures Apart(s'.table[l], s'.table[m]) {
      assert Apart(s1.table[l], s1.table[m]);
    }
  }

  /**
   * A write stores its data, and no other valid byte of any chunk changes; in the written chunk
   * bytes may become valid, in other chunks none do.
   */
  lemma WriteStores(s: Store, k: Key, off: nat, data: Bytes, l: Key, o: nat)
    requires StoreInv(s) && Write(s, k, off, data).Some?
    ensures var s' := Write(s, k, off, data).value;
            && (l == k && off <= o < off + |data| ==> ByteAt(s', l, o) == Some(data[o - off]))
            && (l != k ==> ByteAt(s', l, o) == ByteAt(s, l, o))
            && (!(off <= o < off + |data|) && ByteAt(s, l, o).Some? ==> ByteAt(s', l, o) == ByteAt(s, l, o))
  {
  }

  /** A read returns the longest run of valid bytes, up to its length. */
  lemma ReadReturns(s: Store, k: Key, off: nat, len: nat)
    requires StoreInv(s)
    ensures var r := Read(s, k, off, len);
            && |r| <= len
            && (forall i :: 0 <= i < |r| ==> ByteAt(s, k, off + i) == Some(r[i]))
            && (|r| < len ==> ByteAt(s, k, off + |r|) == None)
  {
  }

  /** A write within the chunk size fails only for want of space. */
  lemma WriteFailsExactly(s: Store, k: Key, off: nat, data: Bytes)
    requires off + |data| <= EffectiveSize(s, k.0)
    ensures Write(s, k, off, data).None? <==>
              (k !in s.table && s.nextOffset + EffectiveSize(s, k.0) > |s.region|) || Escapes(s, k, off, data)
    ensures StoreInv(s) ==> !Escapes(s, k, off, data)
  {
    assert StoreInv(s) && k in s.table ==> ChunkOk(s, k);
  }
}
