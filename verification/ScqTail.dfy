/** The shared tail of an SCQ ring with a single producer: when it falls, and a run in which it does. */
module ScqTail {
  import opened Prelude
  import opened Bits
  import opened ScqIndexMap
  import opened ScqCore
  import opened ScqRing
  import opened ScqTickets

  /** It falls exactly when the producer stores a ticket that catching up has passed since its load. */
  lemma TailFallsExactly(g: Geometry, m: Mode, r: Ring, tid: Tid, choice: Choice)
    requires RingInv(g, m, r) && Enabled(g, m, r, tid, choice)
    ensures Step(g, m, r, tid, choice).tail < r.tail <==> r.locals[tid].EnqStore? && r.locals[tid].t + 1 < r.tail
  {
    assert LocalOk(g, m, r, tid, r.locals[tid]);
  }

  // A run on the free ring with two indices: four entries, thread 0 is the producer.

  const ORDER := 1
  const MODE := Mode(Some(0), None)

  function G(): Geometry {
    RingGeometry(ORDER)
  }

  lemma GSound()
    ensures Sound(G()) && G().n == 4 && G().cyc(0) == 0 && G().cyc(1) == 0 && G().cyc(5) == 1
    ensures G().place(0) != G().place(1) && G().place(5) == G().place(1)
  {
    RingGeometrySound(ORDER);
    assert Pow2(1) == 2 * Pow2(0) && Pow2(2) == 2 * Pow2(1);
    LfringMapCongruent(0, 1, ORDER);
    LfringMapCongruent(5, 1, ORDER);
    DivModUnique(5, 4, 1, 1);
  }

  datatype Trace = Trace(run: seq<Ring>, moves: seq<(Tid, Choice)>)

  ghost predicate Reaches(t: Trace, r: Ring) {
    IsRun(G(), MODE, t.run, t.moves) && t.run[|t.moves|] == r
  }

  lemma Extend(t: Trace, r: Ring, tid: Tid, choice: Choice) returns (t': Trace)
    requires Reaches(t, r) && Enabled(G(), MODE, r, tid, choice)
    ensures Reaches(t', Step(G(), MODE, r, tid, choice)) && |t'.moves| == |t.moves| + 1
    ensures t'.run[|t.moves|] == r
  {
    t' := Trace(t.run + [Step(G(), MODE, r, tid, choice)], t.moves + [(tid, choice)]);
    forall i | 0 <= i < |t'.moves|
      ensures Enabled(G(), MODE, t'.run[i], t'.moves[i].0, t'.moves[i].1)
      ensures t'.run[i + 1] == Step(G(), MODE, t'.run[i], t'.moves[i].0, t'.moves[i].1)
    {
      if i < |t.moves| {
        assert t'.run[i] == t.run[i] && t'.run[i + 1] == t.run[i + 1] && t'.moves[i] == t.moves[i];
      }
    }
  }

  /** The entry of ticket 1 holds index 1. */
  ghost predicate Holding(r: Ring) {
    && Sound(G()) && |r.core.entries| == G().n && r.threshold >= 0
    && At(G(), r.core, 1) == Entry(0, true, Some(1))
    && forall tid: Tid :: tid < 6 ==> tid in r.locals
  }

  function Placed(r: Ring, tid: Tid, l: Local): Ring {
    r.(locals := r.locals[tid := l])
  }

  /** A caller may take its next step, to `r'`. */
  ghost predicate Goes(r: Ring, tid: Tid, choice: Choice, r': Ring) {
    Enabled(G(), MODE, r, tid, choice) && Step(G(), MODE, r, tid, choice) == r'
  }

  lemma BeginsDequeue(r: Ring, tid: Tid)
    requires Holding(r) && 0 < tid < 6 && r.locals[tid].Idle?
    ensures Goes(r, tid, BeginDequeue, Placed(r, tid, DeqThreshold))
  {
  }

  lemma PassesThreshold(r: Ring, tid: Tid)
    requires Holding(r) && 0 < tid < 6
    ensures Goes(Placed(r, tid, DeqThreshold), tid, Advance, Placed(r, tid, DeqDraw))
  {
    var r1 := Placed(r, tid, DeqThreshold);
    assert r1.locals[tid := DeqDraw] == r.locals[tid := DeqDraw];
  }

  lemma DrawsHead(r: Ring, tid: Tid)
    requires Holding(r) && 0 < tid < 6
    ensures Goes(Placed(r, tid, DeqDraw), tid, Advance, Placed(r.(head := r.head + 1), tid, DeqLoad(r.head, 0)))
  {
    var r1 := Placed(r, tid, DeqDraw);
    assert r1.locals[tid := DeqLoad(r.head, 0)] == r.locals[tid := DeqLoad(r.head, 0)];
  }

  /** An idle caller draws the next head ticket. */
  lemma Draws(t: Trace, r: Ring, tid: Tid) returns (t': Trace)
    requires Reaches(t, r) && Holding(r) && 0 < tid < 6 && r.locals[tid].Idle?
    ensures Reaches(t', Placed(r.(head := r.head + 1), tid, DeqLoad(r.head, 0))) && |t'.moves| == |t.moves| + 3
  {
    BeginsDequeue(r, tid);
    t' := Extend(t, r, tid, BeginDequeue);
    PassesThreshold(r, tid);
    t' := Extend(t', Placed(r, tid, DeqThreshold), tid, Advance);
    DrawsHead(r, tid);
    t' := Extend(t', Placed(r, tid, DeqDraw), tid, Advance);
  }

  ghost predicate Threads(r: Ring) {
    Sound(G()) && |r.core.entries| == G().n && forall tid: Tid :: tid < 6 ==> tid in r.locals
  }

  const FOUND := Entry(0, true, Some(1))

  lemma FindsOld(r: Ring)
    requires Holding(r) && r.locals[5] == DeqLoad(5, 0)
    ensures Step(G(), MODE, r, 5, Advance) == Placed(r, 5, DeqCas(5, 0, FOUND))
    ensures At(G(), r.core, 5) == FOUND
  {
    GSound();
  }

  lemma GivesUp(r: Ring)
    requires Threads(r) && r.locals[5] == DeqCas(5, 0, FOUND) && At(G(), r.core, 5) == FOUND
    ensures var r' := Step(G(), MODE, r, 5, Advance);
            Threads(r') && r'.locals == r.locals[5 := DeqTail(5)] && r'.tail == r.tail
  {
  }

  lemma SeesTail(r: Ring)
    requires Threads(r) && r.locals[5] == DeqTail(5) && r.tail == 2
    ensures Step(G(), MODE, r, 5, Advance) == Placed(r, 5, Catchup(5, 2, 6))
  {
  }

  lemma MovesTail(r: Ring)
    requires Threads(r) && r.locals[5] == Catchup(5, 2, 6) && r.tail == 2
    ensures var r' := Step(G(), MODE, r, 5, Advance);
            Threads(r') && r'.tail == 6 && r'.locals == r.locals[5 := DeqLower(5, true)]
  {
  }

  /** Caller 5 finds index 1 under ticket 5 and gives up. */
  lemma Abandons(t: Trace, r: Ring) returns (t': Trace, r': Ring)
    requires Reaches(t, r) && Holding(r) && r.locals[5] == DeqLoad(5, 0)
    ensures Reaches(t', r') && |t'.moves| == |t.moves| + 2
    ensures Threads(r') && r'.tail == r.tail && r'.locals[0] == r.locals[0] && r'.locals[5] == DeqTail(5)
  {
    FindsOld(r);
    t' := Extend(t, r, 5, Advance);
    r' := Placed(r, 5, DeqCas(5, 0, FOUND));
    GivesUp(r');
    t' := Extend(t', r', 5, Advance);
    r' := Step(G(), MODE, r', 5, Advance);
  }

  /** It then catches the tail up. */
  lemma CatchesUp(t: Trace, r: Ring) returns (t': Trace, r': Ring)
    requires Reaches(t, r) && Threads(r) && r.locals[5] == DeqTail(5) && r.tail == 2
    ensures Reaches(t', r') && |t'.moves| == |t.moves| + 2
    ensures Threads(r') && r'.tail == 6 && r'.locals[0] == r.locals[0]
  {
    SeesTail(r);
    t' := Extend(t, r, 5, Advance);
    r' := Placed(r, 5, Catchup(5, 2, 6));
    MovesTail(r');
    t' := Extend(t', r', 5, Advance);
    r' := Step(G(), MODE, r', 5, Advance);
  }

  lemma FindsFirst(r: Ring)
    requires Holding(r) && r.locals[1] == DeqLoad(0, 0) && At(G(), r.core, 0) == Entry(0, true, Some(0))
    ensures Step(G(), MODE, r, 1, Advance) == Placed(r, 1, DeqTake(0, Some(0)))
  {
    GSound();
  }

  lemma Takes(r: Ring)
    requires Holding(r) && r.locals[1] == DeqTake(0, Some(0))
    ensures var r' := Step(G(), MODE, r, 1, Advance);
            && Holding(r') && r'.locals == r.locals[1 := DeqReturn(Some(0))]
            && r'.head == r.head && r'.tail == r.tail
  {
    GSound();
  }

  lemma Returns(t: Trace, r: Ring) returns (t': Trace)
    requires Reaches(t, r) && Holding(r) && r.locals[1] == DeqReturn(Some(0))
    ensures Reaches(t', Placed(r, 1, Idle)) && |t'.moves| == |t.moves| + 1
  {
    assert Step(G(), MODE, r, 1, Advance) == Placed(r, 1, Idle);
    t' := Extend(t, r, 1, Advance);
  }

  /** Caller 1, at ticket 0, takes index 0, so that the producer can bring it back. */
  lemma TakesFirst(t: Trace, r: Ring) returns (t': Trace, r': Ring)
    requires Reaches(t, r) && Holding(r) && At(G(), r.core, 0) == Entry(0, true, Some(0))
    requires r.locals[1] == DeqLoad(0, 0)
    ensures Reaches(t', r') && |t'.moves| == |t.moves| + 2 && Holding(r')
    ensures r'.head == r.head && r'.tail == r.tail && r'.locals == r.locals[1 := DeqReturn(Some(0))]
  {
    FindsFirst(r);
    t' := Extend(t, r, 1, Advance);
    r' := Placed(r, 1, DeqTake(0, Some(0)));
    Takes(r');
    t' := Extend(t', r', 1, Advance);
    r' := Step(G(), MODE, r', 1, Advance);
  }

  /** The producer loads the tail. */
  lemma LoadsTail(t: Trace, r: Ring) returns (t': Trace)
    requires Reaches(t, r) && Holding(r) && r.locals[0].Idle?
    ensures Reaches(t', Placed(r, 0, EnqStore(0, r.tail))) && |t'.moves| == |t.moves| + 2
  {
    var r1 := Placed(r, 0, EnqDraw(0));
    assert Step(G(), MODE, r, 0, BeginEnqueue(0)) == r1;
    t' := Extend(t, r, 0, BeginEnqueue(0));
    assert Step(G(), MODE, r1, 0, Advance) == Placed(r, 0, EnqStore(0, r.tail));
    t' := Extend(t', r1, 0, Advance);
  }

  /** Callers 1 to 5 draw the tickets 1 to 5. */
  lemma {:induction false} DrawTickets(t: Trace, r: Ring, k: nat) returns (t': Trace, r': Ring)
    requires Reaches(t, r) && Holding(r) && r.head == 1 && k <= 5
    requires forall tid: Tid :: 0 < tid < 6 ==> r.locals[tid].Idle?
    ensures Reaches(t', r') && |t'.moves| == |t.moves| + 3 * k && Holding(r')
    ensures r'.head == 1 + k && r'.tail == r.tail && r'.locals[0] == r.locals[0]
    ensures k > 0 ==> r'.locals[k] == DeqLoad(k, 0)
    ensures forall tid: Tid :: k < tid < 6 ==> r'.locals[tid].Idle?
  {
    t', r' := t, r;
    if k > 0 {
      t', r' := DrawTickets(t, r, k - 1);
      t' := Draws(t', r', k);
      r' := Placed(r'.(head := r'.head + 1), k, DeqLoad(r'.head, 0));
    }
  }

  ghost function FullRing(): Ring {
    var entries := seq(4, p => if p == G().place(0) then Entry(0, true, Some(0))
                               else if p == G().place(1) then Entry(0, true, Some(1)) else EMPTY);
    Ring(Core(entries, Identity(2), map[], {}), 0, 2, Threshold3(4),
         map[0 := Idle, 1 := Idle, 2 := Idle, 3 := Idle, 4 := Idle, 5 := Idle], [])
  }

  lemma FullRingHolds()
    ensures Holding(FullRing()) && At(G(), FullRing().core, 0) == Entry(0, true, Some(0))
  {
    GSound();
  }

  lemma FullRingInit()
    ensures Init(G(), MODE, FullRing())
  {
    GSound();
    FullRingHolds();
    var c := FullRing().core;
    assert 0 in c.installed;
    forall i: nat | i < 2 ensures At(G(), c, i) == Entry(G().cyc(i), true, Some(i)) {
      assert i == 0 || i == 1;
    }
  }

  lemma StoresTail(t: Trace, r: Ring) returns (t': Trace)
    requires Reaches(t, r) && Threads(r) && r.locals[0] == EnqStore(0, 2) && r.tail == 6
    ensures IsRun(G(), MODE, t'.run, t'.moves) && |t'.moves| == |t.moves| + 1
    ensures t'.run[|t.moves|].tail == 6 && t'.run[|t'.moves|].tail == 3
  {
    t' := Extend(t, r, 0, Advance);
  }

  /** Caller 1 has drawn ticket 0 of the pre-loaded ring. */
  ghost predicate FirstDrawn(r: Ring) {
    && Holding(r) && At(G(), r.core, 0) == Entry(0, true, Some(0)) && r.head == 1 && r.tail == 2
    && r.locals[1] == DeqLoad(0, 0) && forall tid: Tid :: tid < 6 && tid != 1 ==> r.locals[tid].Idle?
  }

  lemma DrawsFirst() returns (t: Trace, r: Ring)
    ensures Reaches(t, r) && |t.moves| == 3 && FirstDrawn(r)
  {
    FullRingInit();
    FullRingHolds();
    r := FullRing();
    t := Trace([r], []);
    t := Draws(t, r, 1);
    r := Placed(r.(head := 1), 1, DeqLoad(0, 0));
  }

  /** It has taken index 0 and returned. */
  lemma FirstReturns(t: Trace, r: Ring) returns (t': Trace, r': Ring)
    requires Reaches(t, r) && FirstDrawn(r)
    ensures Reaches(t', r') && |t'.moves| == |t.moves| + 3 && Holding(r') && r'.head == 1 && r'.tail == 2
    ensures forall tid: Tid :: tid < 6 ==> r'.locals[tid].Idle?
  {
    t', r' := TakesFirst(t, r);
    t' := Returns(t', r');
    r' := Placed(r', 1, Idle);
  }

  /** The producer is about to store what it loaded when the tail was 2. */
  lemma ProducerWaits(t: Trace, r: Ring) returns (t': Trace, r': Ring)
    requires Reaches(t, r) && FirstDrawn(r)
    ensures Reaches(t', r') && |t'.moves| == |t.moves| + 5 && Holding(r') && r'.head == 1 && r'.tail == 2
    ensures r'.locals[0] == EnqStore(0, 2) && forall tid: Tid :: 0 < tid < 6 ==> r'.locals[tid].Idle?
  {
    t', r' := FirstReturns(t, r);
    t' := LoadsTail(t', r');
    r' := Placed(r', 0, EnqStore(0, 2));
  }

  /** A run on the pre-loaded free ring in which the last step moves the tail from 6 back to 3. */
  lemma TailMayFall() returns (t: Trace)
    ensures IsRun(G(), MODE, t.run, t.moves) && |t.moves| == 28
    ensures t.run[27].tail == 6 && t.run[28].tail == 3
  {
    var r: Ring;
    t, r := DrawsFirst();
    t, r := ProducerWaits(t, r);
    t, r := DrawTickets(t, r, 5);
    t, r := Abandons(t, r);
    t, r := CatchesUp(t, r);
    t := StoresTail(t, r);
  }
}
