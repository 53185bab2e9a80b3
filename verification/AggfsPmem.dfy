/** The chunk store, updated in place. */
module AggfsPmem {
  import opened Prelude
  import opened AggfsStore
  import Spec = AggfsStore

  class PmemStore {
    const region: array<Byte>
    const maxCapacity: nat
    var table: map<Key, Chunk>
    var nextOffset: nat
    var sizes: map<nat, nat>

    ghost function State(): Store
      reads this, region
    {
      Store(region[..], table, nextOffset, sizes, maxCapacity)
    }

    constructor (regionLen: nat, maxCapacity: nat)
      ensures fresh(region) && State() == Fresh(regionLen, maxCapacity)
    {
      region := new Byte[regionLen](_ => 0);
      this.maxCapacity := maxCapacity;
      table, nextOffset, sizes := map[], 0, map[];
      new;
      assert region[..] == seq(regionLen, _ => 0);
    }

    method RegisterFile(path: nat, size: nat)
      modifies this`sizes
      ensures State() == Spec.RegisterFile(old(State()), path, size)
    {
      sizes := sizes[path := size];
    }

    method EffectiveChunkSize(path: nat) returns (size: nat)
      ensures size == EffectiveSize(State(), path)
    {
      size := if path in sizes then sizes[path] else maxCapacity;
    }

    /** False if the region is exhausted, where the source panics. */
    method EnsureChunk(k: Key, capacity: nat) returns (ok: bool)
      modifies this`table, this`nextOffset
      ensures ok == Spec.EnsureChunk(old(State()), k, capacity).Some?
      ensures ok ==> k in table && Some(State()) == Spec.EnsureChunk(old(State()), k, capacity)
      ensures !ok ==> State() == old(State())
    {
      if k in table {
        return true;
      }
      if nextOffset + capacity > region.Length {
        return false;
      }
      table := table[k := Chunk(nextOffset, 0, capacity)];
      nextOffset := nextOffset + capacity;
      return true;
    }

    method CopyIn(at: nat, data: Bytes)
      requires at + |data| <= region.Length
      modifies region
      ensures region[..] == Overwritten(old(region[..]), at, data)
    {
      var i := 0;
      while i < |data|
        invariant 0 <= i <= |data|
        invariant forall j :: 0 <= j < region.Length ==>
                    region[j] == (if at <= j < at + i then data[j - at] else old(region[j]))
      {
        region[at + i] := data[i];
        i := i + 1;
      }
    }

    method Put(k: Key, off: nat, data: Bytes)
      requires k in table && table[k].offset + off + |data| <= region.Length
      modifies this`table, region
      ensures State() == Spec.Put(old(State()), k, off, data)
    {
      var chunk, end := table[k], off + |data|;
      assert table[k := chunk] == table;
      if end > chunk.validLen {
        table := table[k := chunk.(validLen := end)];
      }
      CopyIn(chunk.offset + off, data);
    }

    /**
     * False where the source panics: the write exceeds the chunk, or the region is exhausted. The
     * copy itself is unchecked, so the caller must not let a grown chunk leave the region.
     */
    method Write(k: Key, off: nat, data: Bytes) returns (ok: bool)
      requires !Escapes(State(), k, off, data)
      modifies this, region
      ensures ok == Spec.Write(old(State()), k, off, data).Some?
      ensures ok ==> Some(State()) == Spec.Write(old(State()), k, off, data)
      ensures !ok ==> State() == old(State())
      ensures old(StoreInv(State())) ==> StoreInv(State())
    {
      ghost var before := State();
      if StoreInv(before) && Spec.Write(before, k, off, data).Some? {
        WriteInv(before, k, off, data);
      }
      var capacity := EffectiveChunkSize(k.0);
      var end := off + |data|;
      if end > capacity {
        return false;
      }
      ok := EnsureChunk(k, capacity);
      if !ok {
        return;
      }
      Put(k, off, data);
    }

    /** Copies what is valid of `len` bytes, which must lie in the region. */
    method Read(k: Key, off: nat, len: nat) returns (data: Bytes)
      requires k in table ==> table[k].offset + table[k].validLen <= region.Length
      ensures data == Spec.Read(State(), k, off, len)
    {
      if k !in table {
        return [];
      }
      var chunk := table[k];
      if off >= chunk.validLen {
        return [];
      }
      var available := chunk.validLen - off;
      var toRead := if len < available then len else available;
      data := region[chunk.offset + off..chunk.offset + off + toRead];
      assert data == region[..][chunk.offset + off..chunk.offset + off + toRead];
    }

    method Remove(k: Key) returns (existed: bool)
      modifies this`table, this`sizes
      ensures State() == Spec.Remove(old(State()), k) && existed == (k in old(table))
    {
      if k.1 == 0 {
        sizes := sizes - {k.0};
      }
      existed := k in table;
      table := table - {k};
    }
  }
}
