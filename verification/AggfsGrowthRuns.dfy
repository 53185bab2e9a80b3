/** Exactly when a file's chunk size may grow, over all that is done to the store afterwards. */
module AggfsGrowthRuns {
  import opened Prelude
  import opened AggfsStore
  import opened AggfsGrowth

  // What may happen afterwards, and what must not.

  ghost predicate Safe(s: Store, op: Op) {
    op.OpWrite? ==> !Escapes(s, op.k, op.off, op.data) && Spares(s, op.k, op.off, op.data)
  }

  predicate HasChunks(table: map<Key, Chunk>, path: nat) {
    exists k :: k in table && k.0 == path
  }

  /** The operation makes no file that has chunks grow. */
  ghost predicate Steady(s: Store, op: Op) {
    match op
    case OpRegister(path, size) => HasChunks(s.table, path) ==> size <= EffectiveSize(s, path)
    case OpWrite(_, _, _) => true
    case OpRemove(k) => HasChunks(s.table - {k}, k.0) ==> SizeWithout(s, k) <= EffectiveSize(s, k.0)
  }

  ghost predicate SteadyThroughout(s: Store, ops: seq<Op>)
    decreases |ops|
  {
    ops == [] || (Steady(s, ops[0]) && SteadyThroughout(Apply(s, ops[0]), ops[1..]))
  }

  ghost predicate SafeThroughout(s: Store, ops: seq<Op>)
    decreases |ops|
  {
    ops == [] || (Safe(s, ops[0]) && SafeThroughout(Apply(s, ops[0]), ops[1..]))
  }

  /** Whatever is done to the store, as long as no file grows: every write stays in the region and spares the others. */
  ghost predicate AlwaysSafe(s: Store) {
    forall ops: seq<Op> :: SteadyThroughout(s, ops) ==> SafeThroughout(s, ops)
  }

  // The condition.

  /** The bytes of a chunk that are valid or may be written. */
  function Extent(c: Chunk, size: nat): nat {
    if c.validLen > size then c.validLen else size
  }

  predicate Overlap(a: nat, n: nat, b: nat, m: nat) {
    n > 0 && m > 0 && a < b + m && b < a + n
  }

  /** Chunk `k` may write where chunk `l` is valid or may write. */
  predicate Collides(s: Store, k: Key, l: Key)
    requires k in s.table && l in s.table
  {
    var c, d := s.table[k], s.table[l];
    Overlap(c.offset, EffectiveSize(s, k.0), d.offset, Extent(d, EffectiveSize(s, l.0)))
  }

  predicate Bounded(s: Store, k: Key)
    requires k in s.table
  {
    var c := s.table[k];
    var n := Extent(c, EffectiveSize(s, k.0));
    n > 0 ==> c.offset + n <= s.nextOffset
  }

  /** No chunk reaches into another, or beyond what has been allocated. */
  ghost predicate Clear(s: Store) {
    && (forall k :: k in s.table ==> Bounded(s, k))
    && (forall k, l :: k in s.table && l in s.table && k != l ==> !Collides(s, k, l))
  }

  /** What has been allocated and written so far lies in the region. */
  predicate InRegion(s: Store) {
    && s.nextOffset <= |s.region|
    && forall k :: k in s.table ==> s.table[k].offset + s.table[k].validLen <= |s.region|
  }

  // It suffices.

  lemma ClearIsSafe(s: Store, op: Op)
    requires InRegion(s) && Clear(s)
    ensures Safe(s, op)
  {
    if op.OpWrite? {
      var k, size := op.k, EffectiveSize(s, op.k.0);
      forall j: Key, l: Key, o: nat | j.0 == k.0 ensures !Reaches(s.table, |s.region|, size, j, l, o) {
        if j in s.table && l in s.table && j != l && o < s.table[l].validLen {
          assert !Collides(s, j, l);
        }
      }
      forall l: Key, o: nat ensures !InNext(s.table, s.nextOffset, |s.region|, size, l, o) {
        if l in s.table && o < s.table[l].validLen {
          assert Bounded(s, l);
        }
      }
      HarmlessSpares(s, k, op.off, op.data);
      assert k in s.table ==> Bounded(s, k);
    }
  }

  predicate ReachesNoFurther(s: Store, s': Store, k: Key)
    requires k in s'.table
  {
    && k in s.table && s'.table[k].offset == s.table[k].offset
    && EffectiveSize(s', k.0) <= EffectiveSize(s, k.0)
    && Extent(s'.table[k], EffectiveSize(s', k.0)) <= Extent(s.table[k], EffectiveSize(s, k.0))
  }

  /** A store in which chunks lie as before and reach no further. */
  lemma ShrinksClear(s: Store, s': Store)
    requires InRegion(s) && Clear(s) && |s'.region| == |s.region| && s'.nextOffset == s.nextOffset
    requires forall k :: k in s'.table ==> ReachesNoFurther(s, s', k)
    ensures InRegion(s') && Clear(s')
  {
    forall k | k in s'.table
      ensures Bounded(s', k) && s'.table[k].offset + s'.table[k].validLen <= |s'.region|
    {
      assert ReachesNoFurther(s, s', k) && Bounded(s, k);
    }
    forall k, l | k in s'.table && l in s'.table && k != l ensures !Collides(s', k, l) {
      assert ReachesNoFurther(s, s', k) && ReachesNoFurther(s, s', l) && !Collides(s, k, l);
    }
  }

  lemma AllocateClear(s: Store, k: Key)
    requires InRegion(s) && Clear(s) && k !in s.table && s.nextOffset + EffectiveSize(s, k.0) <= |s.region|
    ensures var s' := EnsureChunk(s, k, EffectiveSize(s, k.0)).value;
            InRegion(s') && Clear(s')
  {
    var s' := EnsureChunk(s, k, EffectiveSize(s, k.0)).value;
    forall l | l in s'.table ensures Bounded(s', l) {
      assert l != k ==> Bounded(s, l);
    }
    forall j, l | j in s'.table && l in s'.table && j != l ensures !Collides(s', j, l) {
      assert j != k ==> Bounded(s, j);
      assert l != k ==> Bounded(s, l);
      assert j != k && l != k ==> !Collides(s, j, l);
    }
  }

  lemma PutClear(s: Store, k: Key, off: nat, data: Bytes)
    requires InRegion(s) && Clear(s) && k in s.table && off + |data| <= EffectiveSize(s, k.0)
    ensures s.table[k].offset + off + |data| <= |s.region|
    ensures InRegion(Put(s, k, off, data)) && Clear(Put(s, k, off, data))
  {
    assert Bounded(s, k);
    assert off + |data| == 0 ==> s.table[k].offset + s.table[k].validLen <= |s.region|;
    ShrinksClear(s, Put(s, k, off, data));
  }

  lemma WriteClear(s: Store, k: Key, off: nat, data: Bytes)
    requires InRegion(s) && Clear(s)
    ensures InRegion(Apply(s, OpWrite(k, off, data))) && Clear(Apply(s, OpWrite(k, off, data)))
  {
    if Write(s, k, off, data).Some? {
      if k !in s.table {
        AllocateClear(s, k);
      }
      PutClear(EnsureChunk(s, k, EffectiveSize(s, k.0)).value, k, off, data);
    }
  }

  lemma SteadyClear(s: Store, op: Op)
    requires InRegion(s) && Clear(s) && Steady(s, op)
    ensures InRegion(Apply(s, op)) && Clear(Apply(s, op))
  {
    match op
    case OpRegister(path, size) => ShrinksClear(s, Apply(s, op));
    case OpWrite(k, off, data) => WriteClear(s, k, off, data);
    case OpRemove(k) => ShrinksClear(s, Apply(s, op));
  }

  lemma {:induction false} ClearStaysSafe(s: Store, ops: seq<Op>)
    requires InRegion(s) && Clear(s) && SteadyThroughout(s, ops)
    ensures SafeThroughout(s, ops)
    decreases |ops|
  {
    if ops != [] {
      ClearIsSafe(s, ops[0]);
      SteadyClear(s, ops[0]);
      ClearStaysSafe(Apply(s, ops[0]), ops[1..]);
    }
  }

  // It is necessary.

  lemma UnsafeNow(s: Store, op: Op)
    requires Steady(s, op) && !Safe(s, op)
    ensures !AlwaysSafe(s)
  {
    var ops := [op];
    assert ops[0] == op && ops[1..] == [];
    assert SteadyThroughout(s, ops) && !SafeThroughout(s, ops);
  }

  lemma UnsafeLater(s: Store, op: Op)
    requires Steady(s, op) && !AlwaysSafe(Apply(s, op))
    ensures !AlwaysSafe(s)
  {
    var ops: seq<Op> :| SteadyThroughout(Apply(s, op), ops) && !SafeThroughout(Apply(s, op), ops);
    var all := [op] + ops;
    assert all[0] == op && all[1..] == ops;
    assert SteadyThroughout(s, all) && !SafeThroughout(s, all);
  }

  /** The last byte of a chunk that is too large for the region. */
  lemma EscapeIsUnsafe(s: Store, k: Key)
    requires k in s.table && EffectiveSize(s, k.0) > 0 && s.table[k].offset + EffectiveSize(s, k.0) > |s.region|
    ensures !AlwaysSafe(s)
  {
    UnsafeNow(s, OpWrite(k, EffectiveSize(s, k.0) - 1, [0]));
  }

  /** The same chunks at the same places. */
  predicate SamePlaces(s: Store, s': Store) {
    && |s'.region| == |s.region| && s'.nextOffset == s.nextOffset && s'.sizes == s.sizes
    && s'.maxCapacity == s.maxCapacity && s'.table.Keys == s.table.Keys
    && forall k :: k in s.table ==> s'.table[k].offset == s.table[k].offset
  }

  /** A byte within the extent of a chunk is valid, or a write makes it so. */
  lemma ValidFirst(s: Store, l: Key, o: nat) returns (s': Store)
    requires l in s.table && o < Extent(s.table[l], EffectiveSize(s, l.0)) && s.table[l].offset + o < |s.region|
    ensures SamePlaces(s, s') && o < s'.table[l].validLen
    ensures !AlwaysSafe(s') ==> !AlwaysSafe(s)
  {
    s' := s;
    if o >= s.table[l].validLen {
      var op := OpWrite(l, o, [0]);
      s' := Apply(s, op);
      if !AlwaysSafe(s') {
        UnsafeLater(s, op);
      }
    }
  }

  /** Chunk `k` may write where chunk `l` is valid. */
  lemma ReachIsUnsafe(s: Store, k: Key, l: Key, o: nat)
    requires Reaches(s.table, |s.region|, EffectiveSize(s, k.0), k, l, o)
    ensures !AlwaysSafe(s)
  {
    var at := s.table[l].offset + o;
    ReachedIsNotSpared(s, k, l, o);
    UnsafeNow(s, OpWrite(k, at - s.table[k].offset, [Flipped(s, at)]));
  }

  lemma CollisionIsUnsafe(s: Store, k: Key, l: Key)
    requires k in s.table && l in s.table && k != l && Collides(s, k, l)
    ensures !AlwaysSafe(s)
  {
    var c, d, size := s.table[k], s.table[l], EffectiveSize(s, k.0);
    if c.offset + size > |s.region| {
      EscapeIsUnsafe(s, k);
    } else {
      var o := if c.offset > d.offset then c.offset - d.offset else 0;
      var s' := ValidFirst(s, l, o);
      ReachIsUnsafe(s', k, l, o);
    }
  }

  lemma FreePath(table: map<Key, Chunk>) returns (path: nat)
    ensures !HasChunks(table, path)
  {
    var paths := set k <- table.Keys :: k.0;
    path := Above(paths);
    forall k | k in table ensures k.0 != path {
      assert k.0 in paths;
    }
  }

  /** A byte of a chunk beyond what has been allocated is in the way of a new file. */
  lemma NewFileIsUnsafe(s: Store, l: Key, o: nat)
    requires l in s.table && o < s.table[l].validLen && s.nextOffset <= s.table[l].offset + o < |s.region|
    ensures !AlwaysSafe(s)
  {
    var at := s.table[l].offset + o;
    var path := FreePath(s.table);
    var size := at - s.nextOffset + 1;
    var op := OpRegister(path, size);
    var s' := Apply(s, op);
    assert !HasChunks(s.table, path) && (path, 0) !in s.table;
    NextIsNotSpared(s', (path, 0), l, o);
    UnsafeNow(s', OpWrite((path, 0), at - s.nextOffset, [Flipped(s', at)]));
    UnsafeLater(s, op);
  }

  lemma UnboundedIsUnsafe(s: Store, k: Key)
    requires InRegion(s) && k in s.table && !Bounded(s, k)
    ensures !AlwaysSafe(s)
  {
    var c, size := s.table[k], EffectiveSize(s, k.0);
    if size > 0 && c.offset + size > |s.region| {
      EscapeIsUnsafe(s, k);
    } else {
      var o := Extent(c, size) - 1;
      var s' := ValidFirst(s, k, o);
      NewFileIsUnsafe(s', k, o);
    }
  }

  /**
   * Of any store: whatever is done to it, short of making a file with chunks grow, every write
   * stays in the region and spares the valid bytes of all other chunks, exactly if no chunk
   * reaches into another or beyond what has been allocated.
   */
  lemma AlwaysSafeExactly(s: Store)
    requires InRegion(s)
    ensures AlwaysSafe(s) <==> Clear(s)
  {
    if Clear(s) {
      forall ops: seq<Op> | SteadyThroughout(s, ops) ensures SafeThroughout(s, ops) {
        ClearStaysSafe(s, ops);
      }
    } else if k :| k in s.table && !Bounded(s, k) {
      UnboundedIsUnsafe(s, k);
    } else {
      var k, l :| k in s.table && l in s.table && k != l && Collides(s, k, l);
      CollisionIsUnsafe(s, k, l);
    }
  }

  // A size that grows.

  /** With its new size, chunk `k` of the file may write where chunk `l` is valid or may write. */
  predicate GrowsInto(s: Store, table: map<Key, Chunk>, path: nat, size: nat, k: Key, l: Key) {
    && k in table && l in table && k != l && k.0 == path
    && Overlap(table[k].offset, size, table[l].offset,
               Extent(table[l], if l.0 == path then size else EffectiveSize(s, l.0)))
  }

  /** The chunks of the file, with the new size, reach into no other chunk nor beyond what is allocated. */
  ghost predicate RoomToGrow(s: Store, table: map<Key, Chunk>, path: nat, size: nat) {
    && (forall k :: k in table && k.0 == path && size > 0 ==> table[k].offset + size <= s.nextOffset)
    && (forall k, l :: !GrowsInto(s, table, path, size, k, l))
  }

  /** Chunks that are apart can only meet where one of them has grown. */
  lemma MeetsGrown(c: Chunk, n: nat, d: Chunk, m: nat)
    requires Apart(c, d) && n <= c.capacity && d.validLen <= d.capacity && Overlap(c.offset, n, d.offset, Extent(d, m))
    ensures Overlap(d.offset, m, c.offset, Extent(c, n))
  {
  }

  /** `s'` is `s` with chunks removed, and with another size for one file. */
  predicate Resized(s: Store, s': Store, path: nat, size: nat) {
    && s'.region == s.region && s'.nextOffset == s.nextOffset
    && (forall k :: k in s'.table ==> k in s.table && s'.table[k] == s.table[k])
    && (forall k :: k in s'.table ==> EffectiveSize(s', k.0) == if k.0 == path then size else EffectiveSize(s, k.0))
  }

  lemma CollidesWhereGrown(s: Store, s': Store, path: nat, size: nat, k: Key, l: Key)
    requires StoreInv(s) && Resized(s, s', path, size) && k in s'.table && l in s'.table && k != l
    requires Collides(s', k, l)
    ensures GrowsInto(s, s'.table, path, size, k, l) || GrowsInto(s, s'.table, path, size, l, k)
  {
    assert ChunkOk(s, k) && ChunkOk(s, l) && Apart(s.table[k], s.table[l]);
    if k.0 != path {
      MeetsGrown(s.table[k], EffectiveSize(s', k.0), s.table[l], EffectiveSize(s', l.0));
    }
  }

  lemma RoomIsClear(s: Store, s': Store, path: nat, size: nat)
    requires StoreInv(s) && Resized(s, s', path, size) && RoomToGrow(s, s'.table, path, size)
    ensures Clear(s')
  {
    forall k | k in s'.table ensures Bounded(s', k) {
      assert ChunkOk(s, k);
    }
    forall k, l | k in s'.table && l in s'.table && k != l ensures !Collides(s', k, l) {
      if Collides(s', k, l) {
        CollidesWhereGrown(s, s', path, size, k, l);
      }
    }
  }

  lemma ClearIsRoom(s: Store, s': Store, path: nat, size: nat)
    requires Resized(s, s', path, size) && Clear(s')
    ensures RoomToGrow(s, s'.table, path, size)
  {
    forall k | k in s'.table && k.0 == path && size > 0 ensures s'.table[k].offset + size <= s.nextOffset {
      assert Bounded(s', k);
    }
    forall k, l ensures !GrowsInto(s, s'.table, path, size, k, l) {
      if k in s'.table && l in s'.table && k != l {
        assert !Collides(s', k, l);
      }
    }
  }

  lemma ResizedSafeExactly(s: Store, s': Store, path: nat, size: nat)
    requires StoreInv(s) && Resized(s, s', path, size)
    ensures AlwaysSafe(s') <==> RoomToGrow(s, s'.table, path, size)
  {
    forall k | k in s'.table ensures s'.table[k].offset + s'.table[k].validLen <= |s'.region| {
      assert ChunkOk(s, k);
    }
    AlwaysSafeExactly(s');
    if RoomToGrow(s, s'.table, path, size) {
      RoomIsClear(s, s', path, size);
    }
    if Clear(s') {
      ClearIsRoom(s, s', path, size);
    }
  }

  /** Registering a size leaves the store safe for good exactly if the file has room to grow to it. */
  lemma RegisteredSafeExactly(s: Store, path: nat, size: nat)
    requires StoreInv(s)
    ensures AlwaysSafe(RegisterFile(s, path, size)) <==> RoomToGrow(s, s.table, path, size)
  {
    ResizedSafeExactly(s, RegisterFile(s, path, size), path, size);
  }

  /** So does removing a chunk, with the size that is left for its file. */
  lemma RemovedSafeExactly(s: Store, k: Key)
    requires StoreInv(s)
    ensures AlwaysSafe(Remove(s, k)) <==> RoomToGrow(s, s.table - {k}, k.0, SizeWithout(s, k))
  {
    ResizedSafeExactly(s, Remove(s, k), k.0, SizeWithout(s, k));
  }

  /** Every byte that has been allocated is one that a chunk holds or may write. */
  ghost predicate Packed(s: Store) {
    forall at: nat {:trigger Covered(s, at)} :: at < s.nextOffset ==> Covered(s, at)
  }

  ghost predicate Covered(s: Store, at: nat) {
    exists k :: k in s.table &&
      s.table[k].offset <= at < s.table[k].offset + Extent(s.table[k], EffectiveSize(s, k.0))
  }

  /** What lies right behind a chunk that is too small, in a packed store. */
  lemma PackedIsFitting(s: Store, path: nat, size: nat, k: Key)
    requires StoreInv(s) && Packed(s) && k in s.table && k.0 == path && size > s.table[k].capacity
    ensures !RoomToGrow(s, s.table, path, size)
  {
    assert ChunkOk(s, k);
    var at := s.table[k].offset + s.table[k].capacity;
    if at < s.nextOffset {
      assert Covered(s, at);
      var l :| l in s.table && s.table[l].offset <= at < s.table[l].offset + Extent(s.table[l], EffectiveSize(s, l.0));
      assert GrowsInto(s, s.table, path, size, k, l);
    }
  }

  /**
   * Chunks that are large enough have room to grow. In a packed store no others have; elsewhere
   * they may grow into what removed and shrunk chunks have left behind.
   */
  lemma RoomIsFitting(s: Store, path: nat, size: nat)
    requires StoreInv(s)
    ensures FitsChunks(s, path, size) ==> RoomToGrow(s, s.table, path, size)
    ensures Packed(s) && RoomToGrow(s, s.table, path, size) ==> FitsChunks(s, path, size)
  {
    if FitsChunks(s, path, size) {
      forall k, l ensures !GrowsInto(s, s.table, path, size, k, l) {
        if k in s.table && l in s.table && k != l {
          assert ChunkOk(s, k) && ChunkOk(s, l) && Apart(s.table[k], s.table[l]);
        }
      }
      forall k | k in s.table ensures ChunkOk(s, k) {
      }
    } else if Packed(s) {
      var k :| k in s.table && k.0 == path && size > s.table[k].capacity;
      PackedIsFitting(s, path, size, k);
    }
  }
}
