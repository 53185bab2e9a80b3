/** What happens when the chunk size of a file grows while it has chunks. */
module AggfsGrowth {
  import opened Prelude
  import opened AggfsStore

  // One write.

  /** A valid byte of chunk `l`, in a region of `limit` bytes, lies within `size` of the start of chunk `k`. */
  predicate Reaches(table: map<Key, Chunk>, limit: nat, size: nat, k: Key, l: Key, o: nat) {
    && k in table && l in table && k != l && o < table[l].validLen && table[l].offset + o < limit
    && table[k].offset <= table[l].offset + o < table[k].offset + size
  }

  /** It lies where the next chunk of this size will be allocated. */
  predicate InNext(table: map<Key, Chunk>, next: nat, limit: nat, size: nat, l: Key, o: nat) {
    && next + size <= limit && l in table && o < table[l].validLen
    && next <= table[l].offset + o < next + size
  }

  /** Writes of the file reach no valid byte of another chunk. */
  ghost predicate Harmless(table: map<Key, Chunk>, next: nat, limit: nat, path: nat, size: nat) {
    && (forall k: Key, l: Key, o: nat :: k.0 == path ==> !Reaches(table, limit, size, k, l, o))
    && (forall l: Key, o: nat :: !InNext(table, next, limit, size, l, o))
  }

  /** The write leaves every valid byte of every other chunk alone. */
  ghost predicate Spares(s: Store, k: Key, off: nat, data: Bytes) {
    Write(s, k, off, data).Some? ==>
      forall l: Key, o: nat :: l != k && ByteAt(s, l, o).Some? ==>
        ByteAt(Write(s, k, off, data).value, l, o) == ByteAt(s, l, o)
  }

  ghost predicate WritesSpareOthers(s: Store, path: nat) {
    forall k: Key, off: nat, data: Bytes :: k.0 == path ==> Spares(s, k, off, data)
  }

  lemma HarmlessSpares(s: Store, k: Key, off: nat, data: Bytes)
    requires Harmless(s.table, s.nextOffset, |s.region|, k.0, EffectiveSize(s, k.0))
    ensures Spares(s, k, off, data)
  {
    var size := EffectiveSize(s, k.0);
    if Write(s, k, off, data).Some? {
      var s' := Write(s, k, off, data).value;
      forall l: Key, o: nat | l != k && ByteAt(s, l, o).Some? ensures ByteAt(s', l, o) == ByteAt(s, l, o) {
        assert !Reaches(s.table, |s.region|, size, k, l, o) && !InNext(s.table, s.nextOffset, |s.region|, size, l, o);
      }
    }
  }

  /** Another value for the byte at a place of the region. */
  function Flipped(s: Store, at: nat): Byte
    requires at < |s.region|
  {
    if s.region[at] == 0 then 1 else 0
  }

  /** A write that reaches the byte can change it. */
  lemma ReachedIsNotSpared(s: Store, k: Key, l: Key, o: nat)
    requires Reaches(s.table, |s.region|, EffectiveSize(s, k.0), k, l, o)
    ensures var at := s.table[l].offset + o;
            !Spares(s, k, at - s.table[k].offset, [Flipped(s, at)])
  {
    var at := s.table[l].offset + o;
    var s' := Write(s, k, at - s.table[k].offset, [Flipped(s, at)]).value;
    assert s'.region[at] == Flipped(s, at);
    assert ByteAt(s, l, o).Some? && ByteAt(s', l, o) != ByteAt(s, l, o);
  }

  /** A file has only so many chunks. */
  lemma FreeIndex(table: map<Key, Chunk>, path: nat) returns (index: nat)
    ensures (path, index) !in table
  {
    var indices := set k <- table.Keys :: k.1;
    index := Above(indices);
    assert (path, index) in table ==> (path, index).1 in indices;
  }

  lemma {:induction false} Above(s: set<nat>) returns (n: nat)
    ensures n !in s && forall i :: i in s ==> i < n
  {
    n := 0;
    if s != {} {
      var i :| i in s;
      var m := Above(s - {i});
      n := if i < m then m else i + 1;
      forall j | j in s ensures j < n {
        assert j == i || j in s - {i};
      }
    }
  }

  lemma NextIsNotSpared(s: Store, k: Key, l: Key, o: nat)
    requires k !in s.table && InNext(s.table, s.nextOffset, |s.region|, EffectiveSize(s, k.0), l, o)
    ensures var at := s.table[l].offset + o;
            !Spares(s, k, at - s.nextOffset, [Flipped(s, at)])
  {
    var at := s.table[l].offset + o;
    var s' := Write(s, k, at - s.nextOffset, [Flipped(s, at)]).value;
    assert s'.region[at] == Flipped(s, at);
    assert ByteAt(s, l, o).Some? && ByteAt(s', l, o) != ByteAt(s, l, o);
  }

  /**
   * In any store, the next write to a file spares all other chunks exactly if no valid byte of one
   * of them lies within the file's present chunk size behind the start of one of its chunks, or
   * of the next chunk to be allocated.
   */
  lemma WritesSpareExactly(s: Store, path: nat)
    ensures WritesSpareOthers(s, path) <==> Harmless(s.table, s.nextOffset, |s.region|, path, EffectiveSize(s, path))
  {
    var size := EffectiveSize(s, path);
    if Harmless(s.table, s.nextOffset, |s.region|, path, size) {
      forall k: Key, off: nat, data: Bytes | k.0 == path ensures Spares(s, k, off, data) {
        HarmlessSpares(s, k, off, data);
      }
    } else if k: Key, l: Key, o: nat :| k.0 == path && Reaches(s.table, |s.region|, size, k, l, o) {
      ReachedIsNotSpared(s, k, l, o);
    } else {
      var l: Key, o: nat :| InNext(s.table, s.nextOffset, |s.region|, size, l, o);
      var index := FreeIndex(s.table, path);
      NextIsNotSpared(s, (path, index), l, o);
    }
  }

  /** Right after a new size has been registered. */
  lemma RegisteredSpareExactly(s: Store, path: nat, size: nat)
    ensures WritesSpareOthers(RegisterFile(s, path, size), path) <==>
              Harmless(s.table, s.nextOffset, |s.region|, path, size)
    ensures StoreInv(s) && FitsChunks(s, path, size) ==> Harmless(s.table, s.nextOffset, |s.region|, path, size)
  {
    forall k | k in s.table ensures StoreInv(s) ==> ChunkOk(s, k) {
    }
    WritesSpareExactly(RegisterFile(s, path, size), path);
  }

  /** The chunk size that is left for the file of a removed chunk. */
  function SizeWithout(s: Store, k: Key): nat {
    if k.1 == 0 then s.maxCapacity else EffectiveSize(s, k.0)
  }

  /** Right after a chunk has been removed, with chunk 0 the size of the file. */
  lemma RemovedSpareExactly(s: Store, k: Key)
    ensures WritesSpareOthers(Remove(s, k), k.0) <==>
              Harmless(s.table - {k}, s.nextOffset, |s.region|, k.0, SizeWithout(s, k))
    ensures StoreInv(s) && (k.1 == 0 ==> FitsChunks(Remove(s, k), k.0, s.maxCapacity)) ==>
              Harmless(s.table - {k}, s.nextOffset, |s.region|, k.0, SizeWithout(s, k))
  {
    forall l | l in s.table ensures StoreInv(s) ==> ChunkOk(s, l) {
    }
    WritesSpareExactly(Remove(s, k), k.0);
  }

  // Operations from an empty store on.

  datatype Op = OpRegister(path: nat, size: nat) | OpWrite(k: Key, off: nat, data: Bytes) | OpRemove(k: Key)

  /** A write that fails leaves the store as it is. */
  function Apply(s: Store, op: Op): Store {
    match op
    case OpRegister(path, size) => RegisterFile(s, path, size)
    case OpWrite(k, off, data) => if Write(s, k, off, data).Some? then Write(s, k, off, data).value else s
    case OpRemove(k) => Remove(s, k)
  }

  /** No operation leaves a file with a size that is too large for a chunk it has. */
  ghost predicate Fitting(s: Store, op: Op) {
    match op
    case OpRegister(path, size) => FitsChunks(s, path, size)
    case OpWrite(_, _, _) => true
    case OpRemove(k) => k.1 == 0 ==> FitsChunks(Remove(s, k), k.0, s.maxCapacity)
  }

  ghost predicate IsRun(regionLen: nat, maxCapacity: nat, run: seq<Store>, ops: seq<Op>) {
    && |run| == |ops| + 1 && run[0] == Fresh(regionLen, maxCapacity)
    && forall i :: 0 <= i < |ops| ==> run[i + 1] == Apply(run[i], ops[i])
  }

  /** Over any operations that fit, the store keeps its chunks apart, and every write spares the others. */
  lemma {:induction false} FittingRunsSpare(regionLen: nat, maxCapacity: nat, run: seq<Store>, ops: seq<Op>, n: nat,
                                            path: nat)
    requires IsRun(regionLen, maxCapacity, run, ops) && n < |run|
    requires forall i :: 0 <= i < n ==> Fitting(run[i], ops[i])
    ensures StoreInv(run[n]) && WritesSpareOthers(run[n], path)
  {
    if n > 0 {
      FittingRunsSpare(regionLen, maxCapacity, run, ops, n - 1, path);
      var s, op := run[n - 1], ops[n - 1];
      assert Fitting(s, op);
      match op {
        case OpRegister(p, size) => RegisterKeeps(s, p, size);
        case OpWrite(k, off, data) => if Write(s, k, off, data).Some? { WriteInv(s, k, off, data); }
        case OpRemove(k) => RemoveKeeps(s, k);
      }
    }
    forall k: Key, off: nat, data: Bytes | k.0 == path ensures Spares(run[n], k, off, data) {
      if Write(run[n], k, off, data).Some? {
        forall l: Key, o: nat | l != k && ByteAt(run[n], l, o).Some?
          ensures ByteAt(Write(run[n], k, off, data).value, l, o) == ByteAt(run[n], l, o)
        {
          WriteStores(run[n], k, off, data, l, o);
        }
      }
    }
  }

  // Runs in which a write reaches the chunk of another file.

  /** Files 1 and 2 with chunks of one byte; then file 1 is registered with two. */
  const GROWN: seq<Op> := [
    OpRegister(1, 1), OpRegister(2, 1), OpWrite((1, 0), 0, [10]), OpWrite((2, 0), 0, [20]),
    OpRegister(1, 2), OpWrite((1, 0), 1, [99])]

  /** File 1 has two chunks and is unlinked: chunk 0 goes, and chunk 1 gets the default size. */
  const UNLINKED: seq<Op> := [
    OpRegister(1, 1), OpRegister(2, 1), OpWrite((1, 0), 0, [10]), OpWrite((1, 1), 0, [11]), OpWrite((2, 0), 0, [20]),
    OpRemove((1, 0)), OpWrite((1, 1), 1, [99])]

  /** The first byte of a chunk allocates it. */
  lemma FirstByte(s: Store, k: Key, b: Byte)
    requires k !in s.table && EffectiveSize(s, k.0) >= 1 && s.nextOffset + EffectiveSize(s, k.0) <= |s.region|
    ensures var size := EffectiveSize(s, k.0);
            Apply(s, OpWrite(k, 0, [b])) ==
            Store(s.region[s.nextOffset := b], s.table[k := Chunk(s.nextOffset, 1, size)], s.nextOffset + size,
                  s.sizes, s.maxCapacity)
  {
    assert Overwritten(s.region, s.nextOffset, [b]) == s.region[s.nextOffset := b];
    var c := Chunk(s.nextOffset, 0, EffectiveSize(s, k.0));
    assert s.table[k := c][k := c.(validLen := 1)] == s.table[k := c.(validLen := 1)];
  }

  /** A second byte goes behind the first, wherever that is. */
  lemma SecondByte(s: Store, k: Key, b: Byte)
    requires k in s.table && s.table[k].validLen == 1 && EffectiveSize(s, k.0) >= 2
    requires s.table[k].offset + 1 < |s.region|
    ensures Apply(s, OpWrite(k, 1, [b])) ==
            s.(region := s.region[s.table[k].offset + 1 := b], table := s.table[k := s.table[k].(validLen := 2)])
  {
    assert Overwritten(s.region, s.table[k].offset + 1, [b]) == s.region[s.table[k].offset + 1 := b];
  }

  /** Files 1 and 2 are registered with chunks of one byte. */
  lemma TwoFiles(regionLen: nat, maxCapacity: nat) returns (run: seq<Store>)
    ensures IsRun(regionLen, maxCapacity, run, GROWN[..2])
    ensures run[2] == Fresh(regionLen, maxCapacity).(sizes := map[1 := 1, 2 := 1])
  {
    var s0 := Fresh(regionLen, maxCapacity);
    var s1 := Apply(s0, GROWN[0]);
    var s2 := Apply(s1, GROWN[1]);
    assert s2.sizes == map[1 := 1, 2 := 1];
    run := [s0, s1, s2];
  }

  lemma GrownChunkOverwrites() returns (run: seq<Store>)
    ensures IsRun(2, 1, run, GROWN)
    ensures ByteAt(run[5], (2, 0), 0) == Some(20) && ByteAt(run[6], (2, 0), 0) == Some(99)
  {
    run := TwoFiles(2, 1);
    var s2 := run[2];
    FirstByte(s2, (1, 0), 10);
    var s3 := Apply(s2, GROWN[2]);
    FirstByte(s3, (2, 0), 20);
    var s4 := Apply(s3, GROWN[3]);
    var s5 := Apply(s4, GROWN[4]);
    SecondByte(s5, (1, 0), 99);
    run := run + [s3, s4, s5, Apply(s5, GROWN[5])];
  }

  lemma Extend(regionLen: nat, maxCapacity: nat, run: seq<Store>, ops: seq<Op>, op: Op)
    requires IsRun(regionLen, maxCapacity, run, ops)
    ensures IsRun(regionLen, maxCapacity, run + [Apply(run[|ops|], op)], ops + [op])
  {
  }

  /** The store while the three chunks are allocated one behind the other. */
  function Filling(region: Bytes, table: map<Key, Chunk>, nextOffset: nat): Store {
    Store(region, table, nextOffset, map[1 := 1, 2 := 1], 2)
  }

  lemma FillStep(region: Bytes, table: map<Key, Chunk>, n: nat, k: Key, b: Byte)
    requires k !in table && k.0 in {1, 2} && n < |region|
    ensures Apply(Filling(region, table, n), OpWrite(k, 0, [b])) ==
            Filling(region[n := b], table[k := Chunk(n, 1, 1)], n + 1)
  {
    FirstByte(Filling(region, table, n), k, b);
  }

  /** Operation `n` of the run fills the next byte. */
  lemma FillMove(run: seq<Store>, n: nat, region: Bytes, table: map<Key, Chunk>, at: nat, k: Key, b: Byte)
    returns (run': seq<Store>)
    requires n < |UNLINKED| && IsRun(4, 2, run, UNLINKED[..n]) && UNLINKED[n] == OpWrite(k, 0, [b])
    requires run[n] == Filling(region, table, at) && k !in table && k.0 in {1, 2} && at < |region|
    ensures IsRun(4, 2, run', UNLINKED[..n + 1])
    ensures run'[n + 1] == Filling(region[at := b], table[k := Chunk(at, 1, 1)], at + 1)
  {
    FillStep(region, table, at, k, b);
    Extend(4, 2, run, UNLINKED[..n], UNLINKED[n]);
    assert UNLINKED[..n] + [UNLINKED[n]] == UNLINKED[..n + 1];
    run' := run + [Apply(run[n], UNLINKED[n])];
  }

  /** Before it is unlinked, the two chunks of file 1 lie right before the one of file 2. */
  lemma ThreeChunks() returns (run: seq<Store>)
    ensures IsRun(4, 2, run, UNLINKED[..5])
    ensures |run[5].region| == 4 && run[5].region[2] == 20
    ensures run[5] == Filling(run[5].region,
                              map[(1, 0) := Chunk(0, 1, 1), (1, 1) := Chunk(1, 1, 1), (2, 0) := Chunk(2, 1, 1)], 3)
  {
    run := TwoFiles(4, 2);
    assert UNLINKED[..2] == GROWN[..2];
    var r2 := run[2].region;
    run := FillMove(run, 2, r2, map[], 0, (1, 0), 10);
    var r3, t3 := run[3].region, run[3].table;
    run := FillMove(run, 3, r3, t3, 1, (1, 1), 11);
    var r4, t4 := run[4].region, run[4].table;
    run := FillMove(run, 4, r4, t4, 2, (2, 0), 20);
  }

  lemma UnlinkedFileOverwrites() returns (run: seq<Store>)
    ensures IsRun(4, 2, run, UNLINKED)
    ensures ByteAt(run[6], (2, 0), 0) == Some(20) && ByteAt(run[7], (2, 0), 0) == Some(99)
  {
    run := ThreeChunks();
    Extend(4, 2, run, UNLINKED[..5], UNLINKED[5]);
    run := run + [Apply(run[5], UNLINKED[5])];
    assert UNLINKED[..5] + [UNLINKED[5]] == UNLINKED[..6] && UNLINKED[..6] + [UNLINKED[6]] == UNLINKED;
    SecondByte(run[6], (1, 1), 99);
    Extend(4, 2, run, UNLINKED[..6], UNLINKED[6]);
    run := run + [Apply(run[6], UNLINKED[6])];
  }

  /** File 1 grows while it is alone; then file 2, whose size never changes, is written. */
  const NEIGHBOUR: seq<Op> := [
    OpRegister(1, 1), OpRegister(2, 1), OpWrite((1, 0), 0, [10]), OpRegister(1, 2), OpWrite((1, 0), 1, [99]),
    OpWrite((2, 0), 0, [20])]

  /** At first the growth does no harm, and yet its second byte is lost to the next file. */
  lemma NeighbourOverwritesGrown() returns (run: seq<Store>)
    ensures IsRun(3, 1, run, NEIGHBOUR)
    ensures Harmless(run[3].table, run[3].nextOffset, |run[3].region|, 1, 2)
    ensures ByteAt(run[5], (1, 0), 1) == Some(99) && ByteAt(run[6], (1, 0), 1) == Some(20)
  {
    run := TwoFiles(3, 1);
    var s2 := run[2];
    FirstByte(s2, (1, 0), 10);
    var s3 := Apply(s2, NEIGHBOUR[2]);
    var s4 := Apply(s3, NEIGHBOUR[3]);
    SecondByte(s4, (1, 0), 99);
    var s5 := Apply(s4, NEIGHBOUR[4]);
    FirstByte(s5, (2, 0), 20);
    run := run + [s3, s4, s5, Apply(s5, NEIGHBOUR[5])];
  }
}
