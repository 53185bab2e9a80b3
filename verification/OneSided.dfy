/** The one-sided ring: the producer writes data and generation, the consumer only reads. */
module OneSided {
  import opened RingPos

  /**
   * Slots of a ring and, as history, all values sent. The initial generation is the largest
   * machine word, which no position equals; here it is -1. The producer's position is `|sent|`.
   */
  datatype Ring<T> = Ring(generation: seq<int>, data: seq<T>, sent: seq<T>)

  function Capacity<T>(r: Ring<T>): nat {
    |r.generation|
  }

  function Fresh<T>(n: nat, fill: T): Ring<T> {
    Ring(seq(n, _ => -1), seq(n, _ => fill), [])
  }

  /** Everything from position `tail` on is in its slot, and no slot looks newer than it is. */
  ghost predicate RingOk<T>(r: Ring<T>, tail: nat) {
    && |r.data| == |r.generation| > 0 && tail <= |r.sent| <= tail + Capacity(r)
    && (forall i :: 0 <= i < Capacity(r) ==> r.generation[i] < |r.sent|)
    && (forall j :: tail <= j < |r.sent| ==> Holds(r, j))
  }

  ghost predicate Holds<T>(r: Ring<T>, j: nat)
    requires |r.data| == |r.generation| > 0 && j < |r.sent|
  {
    r.generation[Offset(j, Capacity(r))] == j && r.data[Offset(j, Capacity(r))] == r.sent[j]
  }

  // The two stores of `try_send`.

  function WriteData<T>(r: Ring<T>, value: T): Ring<T>
    requires |r.data| == |r.generation| > 0
  {
    r.(data := r.data[Offset(|r.sent|, Capacity(r)) := value])
  }

  function WriteGeneration<T>(r: Ring<T>, value: T): Ring<T>
    requires |r.data| == |r.generation| > 0
  {
    r.(generation := r.generation[Offset(|r.sent|, Capacity(r)) := |r.sent|], sent := r.sent + [value])
  }

  /** The data of the next value has been written. */
  ghost predicate Written<T>(r: Ring<T>, value: T)
    requires |r.data| == |r.generation| > 0
  {
    r.data[Offset(|r.sent|, Capacity(r))] == value
  }

  // The two loads of `try_recv`.

  predicate GenerationMatches<T>(r: Ring<T>, tail: nat)
    requires |r.generation| > 0
  {
    r.generation[Offset(tail, Capacity(r))] == tail
  }

  function ReadData<T>(r: Ring<T>, tail: nat): T
    requires |r.data| == |r.generation| > 0
  {
    r.data[Offset(tail, Capacity(r))]
  }

  /** With a free slot, writing disturbs nothing that is still to be read. */
  lemma WriteDataKeeps<T>(r: Ring<T>, tail: nat, value: T)
    requires RingOk(r, tail) && |r.sent| < tail + Capacity(r)
    ensures RingOk(WriteData(r, value), tail) && Written(WriteData(r, value), value)
  {
    var r' := WriteData(r, value);
    forall j | tail <= j < |r.sent| ensures Holds(r', j) {
      assert Holds(r, j);
      OffsetDistinct(j, |r.sent|, Capacity(r));
    }
  }

  lemma WriteGenerationKeeps<T>(r: Ring<T>, tail: nat, value: T)
    requires RingOk(r, tail) && |r.sent| < tail + Capacity(r) && Written(r, value)
    ensures RingOk(WriteGeneration(r, value), tail)
  {
    var r' := WriteGeneration(r, value);
    forall j | tail <= j < |r'.sent| ensures Holds(r', j) {
      if j < |r.sent| {
        assert Holds(r, j);
        OffsetDistinct(j, |r.sent|, Capacity(r));
      }
    }
  }

  /** A generation matches exactly if the value at that position has been sent; then it is read. */
  lemma ReceivesSent<T>(r: Ring<T>, tail: nat)
    requires RingOk(r, tail)
    ensures GenerationMatches(r, tail) <==> tail < |r.sent|
    ensures tail < |r.sent| ==> ReadData(r, tail) == r.sent[tail] && RingOk(r, tail + 1)
  {
    if tail < |r.sent| {
      assert Holds(r, tail);
    }
  }

  /** The ring at each load of a scan, while the producer goes on sending. */
  ghost predicate Observed<T>(rings: seq<Ring<T>>, tail: nat) {
    && (forall i :: 0 <= i < |rings| ==> RingOk(rings[i], tail))
    && (forall i, j :: 0 <= i < j < |rings| ==> rings[i].sent <= rings[j].sent)
  }

  /** A position up to which the scan has got is one from which the ring can be read. */
  lemma ScannedOk<T>(rings: seq<Ring<T>>, tail: nat, pos: nat, i: nat)
    requires Observed(rings, tail) && i < |rings| && tail <= pos <= |rings[i].sent|
    ensures RingOk(rings[i], pos)
    ensures forall j :: i <= j < |rings| ==> pos <= |rings[j].sent|
  {
  }

  /**
   * `count_available`: how many values can be read at once, at most `max`; load `i` sees
   * `rings[i]`. No more are counted than have been sent by then, at least those that had been
   * sent at the start, and below `max` exactly those that have been sent at the last load.
   */
  method CountAvailable<T>(rings: seq<Ring<T>>, tail: nat, max: nat) returns (count: nat)
    requires |rings| == max + 1 && Observed(rings, tail)
    ensures count <= max && tail + count <= |rings[count].sent|
    ensures count < max ==> tail + count == |rings[count].sent|
    ensures count == max || tail + count >= |rings[0].sent|
  {
    count := 0;
    var pos := tail;
    while count < max
      invariant pos == tail + count && count <= max && pos <= |rings[count].sent|
    {
      ScannedOk(rings, tail, pos, count);
      ReceivesSent(rings[count], pos);
      if !GenerationMatches(rings[count], pos) {
        break;
      }
      ScannedOk(rings, tail, pos + 1, count);
      count := count + 1;
      pos := pos + 1;
    }
    assert rings[0].sent <= rings[count].sent;
  }
}
