/** What holds over whole runs of one SCQ ring. */
module ScqTickets {
  import opened Prelude
  import opened Bits
  import opened ScqIndexMap
  import opened ScqCore
  import opened ScqRing
  import opened ScqRingProof

  const EMPTY := Entry(-1, true, None)

  /** A ring with no index in it: every word is all ones. */
  ghost predicate IsEmptyCore(g: Geometry, c: Core) {
    && |c.entries| == g.n
    && (forall p :: 0 <= p < g.n ==> c.entries[p] == EMPTY)
    && c.installed == map[] && c.taken == map[] && c.gaveUp == {}
  }

  predicate EmptyOrOf(g: Geometry, half: nat, p: nat, e: Entry) {
    e == EMPTY || (e.idx.Some? && e.idx.value < half && g.place(e.idx.value) == p)
  }

  function Identity(half: nat): (m: map<nat, nat>)
    ensures forall i: nat :: i < half <==> i in m
    ensures forall i: nat :: i in m ==> m[i] == i
  {
    if half == 0 then map[] else Identity(half - 1)[half - 1 := half - 1]
  }

  /** A ring whose tickets `0..half` hold the indices `0..half`. */
  ghost predicate IsFullCore(g: Geometry, half: nat, c: Core) {
    && Sound(g) && |c.entries| == g.n
    && (forall i: nat :: i < half ==> At(g, c, i) == Entry(g.cyc(i), true, Some(i)))
    && (forall p :: 0 <= p < g.n ==> EmptyOrOf(g, half, p, c.entries[p]))
    && c.installed == Identity(half) && c.taken == map[] && c.gaveUp == {}
  }

  /** The first `half` tickets of a ring of `2 * half` entries lie in cycle 0 of distinct entries. */
  lemma FirstCycle(order: nat, i: nat)
    requires i < Pow2(order)
    ensures RingGeometry(order).cyc(i) == 0
  {
  }

  /** The first `i` tickets have been pre-loaded. */
  ghost predicate Preloaded(g: Geometry, entries: seq<Entry>, i: nat) {
    && |entries| == g.n && (forall k: nat :: g.place(k) < g.n)
    && (forall k: nat :: k < i ==> entries[g.place(k)] == Entry(g.cyc(k), true, Some(k)))
    && (forall p :: 0 <= p < g.n ==> EmptyOrOf(g, i, p, entries[p]))
  }

  lemma PlacesDiffer(order: nat, i: nat, k: nat)
    requires k < i < Pow2(order)
    ensures RingGeometry(order).place(k) != RingGeometry(order).place(i)
  {
    RingGeometrySound(order);
    FirstCycle(order, i);
    FirstCycle(order, k);
  }

  lemma PreloadStep(g: Geometry, entries: seq<Entry>, i: nat)
    requires Preloaded(g, entries, i) && g.cyc(i) == 0 && forall k: nat :: k < i ==> g.place(k) != g.place(i)
    ensures Preloaded(g, entries[g.place(i) := Entry(0, true, Some(i))], i + 1)
  {
  }

  lemma NewPlace(order: nat, i: nat)
    requires i < Pow2(order)
    ensures var g := RingGeometry(order);
            g.cyc(i) == 0 && forall k: nat :: k < i ==> g.place(k) != g.place(i)
  {
    FirstCycle(order, i);
    forall k: nat | k < i ensures RingGeometry(order).place(k) != RingGeometry(order).place(i) {
      PlacesDiffer(order, i, k);
    }
  }

  /** Pre-loading of the free queue. */
  method NewFull(order: nat) returns (entries: seq<Entry>)
    ensures IsFullCore(RingGeometry(order), Pow2(order),
              Core(entries, Identity(Pow2(order)), map[], {}))
  {
    var n := RingSize(order);
    entries := seq(n, _ => EMPTY);
    RingGeometrySound(order);
    for i := 0 to Pow2(order)
      invariant Preloaded(RingGeometry(order), entries, i)
    {
      NewPlace(order, i);
      PreloadStep(RingGeometry(order), entries, i);
      var tidx := LfringMap(i, order);
      entries := entries[tidx := Entry(0, true, Some(i))];
    }
  }

  ghost predicate Init(g: Geometry, m: Mode, r: Ring) {
    && Sound(g)
    && (IsEmptyCore(g, r.core) || IsFullCore(g, g.n / 2, r.core))
    && r.head == 0 && r.drawn == []
    && r.tail == (if r.core.installed == map[] then 0 else g.n / 2)
    && (forall tid :: tid in r.locals ==> r.locals[tid] == Idle)
  }

  lemma InitInv(g: Geometry, m: Mode, r: Ring)
    requires Init(g, m, r)
    ensures RingInv(g, m, r)
  {
  }

  /** A run of any threads, one step at a time. */
  ghost predicate IsRun(g: Geometry, m: Mode, run: seq<Ring>, moves: seq<(Tid, Choice)>) {
    && |run| == |moves| + 1
    && Init(g, m, run[0])
    && forall i :: 0 <= i < |moves| ==>
         && Enabled(g, m, run[i], moves[i].0, moves[i].1)
         && run[i + 1] == Step(g, m, run[i], moves[i].0, moves[i].1)
  }

  lemma {:induction false} RunInv(g: Geometry, m: Mode, run: seq<Ring>, moves: seq<(Tid, Choice)>, k: nat)
    requires IsRun(g, m, run, moves) && k < |run|
    ensures RingInv(g, m, run[k])
  {
    if k == 0 {
      InitInv(g, m, run[0]);
    } else {
      RunInv(g, m, run, moves, k - 1);
      StepKeeps(g, m, run[k - 1], moves[k - 1].0, moves[k - 1].1);
    }
  }

  /** The history only grows. */
  ghost predicate Extends(c: Core, c': Core) {
    && (forall t :: t in c.installed ==> t in c'.installed && c'.installed[t] == c.installed[t])
    && (forall t :: t in c.taken ==> t in c'.taken && c'.taken[t] == c.taken[t])
    && c.gaveUp <= c'.gaveUp
  }

  lemma StepExtends(g: Geometry, m: Mode, r: Ring, tid: Tid, choice: Choice)
    requires RingInv(g, m, r) && Enabled(g, m, r, tid, choice)
    ensures Extends(r.core, Step(g, m, r, tid, choice).core)
  {
    assert LocalOk(g, m, r, tid, r.locals[tid]);
  }

  lemma {:induction false} ChainExtends(cores: seq<Core>, i: nat, j: nat)
    requires i <= j < |cores| && forall k: nat :: k + 1 < |cores| ==> Extends(cores[k], cores[k + 1])
    ensures Extends(cores[i], cores[j])
    decreases j
  {
    if i < j {
      ChainExtends(cores, i, j - 1);
      assert Extends(cores[j - 1], cores[j - 1 + 1]);
    }
  }

  lemma MoveExtends(g: Geometry, m: Mode, run: seq<Ring>, moves: seq<(Tid, Choice)>, i: nat)
    requires IsRun(g, m, run, moves) && i < |moves|
    ensures Extends(run[i].core, run[i + 1].core)
  {
    RunInv(g, m, run, moves, i);
    StepExtends(g, m, run[i], moves[i].0, moves[i].1);
  }

  lemma RunExtends(g: Geometry, m: Mode, run: seq<Ring>, moves: seq<(Tid, Choice)>, i: nat, j: nat)
    requires IsRun(g, m, run, moves) && i <= j < |run|
    ensures Extends(run[i].core, run[j].core)
  {
    var cores := seq(|run|, k requires 0 <= k < |run| => run[k].core);
    forall k: nat | k + 1 < |cores| ensures Extends(cores[k], cores[k + 1]) {
      MoveExtends(g, m, run, moves, k);
    }
    ChainExtends(cores, i, j);
  }

  /**
   * The ticket theorem. Whenever a dequeuer that drew head ticket `h` takes an index, an
   * enqueuer has installed exactly that index under tail ticket `h`, and nobody has taken
   * ticket `h` before.
   */
  lemma TakenIsInstalled(g: Geometry, m: Mode, run: seq<Ring>, moves: seq<(Tid, Choice)>, i: nat)
    requires IsRun(g, m, run, moves) && i < |moves| && run[i].locals[moves[i].0].DeqTake?
    ensures var l := run[i].locals[moves[i].0];
            && l.seen.Some?
            && l.h in run[i].core.installed && run[i].core.installed[l.h] == l.seen.value
            && l.h !in run[i].core.taken
            && run[i + 1].core.taken == run[i].core.taken[l.h := l.seen.value]
            && run[i + 1].locals[moves[i].0] == DeqReturn(l.seen)
  {
    RunInv(g, m, run, moves, i);
    assert LocalOk(g, m, run[i], moves[i].0, run[i].locals[moves[i].0]);
  }

  /** An installed index stays in its entry, whoever steps, until its own dequeuer takes it. */
  lemma InstalledIsKept(g: Geometry, m: Mode, run: seq<Ring>, moves: seq<(Tid, Choice)>, i: nat, j: nat, t: nat)
    requires IsRun(g, m, run, moves) && i <= j < |run|
    requires t in run[i].core.installed
    ensures Sound(g) && |run[j].core.entries| == g.n
    ensures t in run[j].core.taken ==> run[j].core.taken[t] == run[i].core.installed[t]
    ensures t !in run[j].core.taken ==>
              At(g, run[j].core, t).cycle == g.cyc(t) && At(g, run[j].core, t).idx == Some(run[i].core.installed[t])
  {
    RunExtends(g, m, run, moves, i, j);
    RunInv(g, m, run, moves, j);
    assert TicketOk(g, run[j].core, t);
  }

  /** Once the dequeuer of `t` has given up, no enqueuer ever installs an index under `t`. */
  lemma AbandonedStaysEmpty(g: Geometry, m: Mode, run: seq<Ring>, moves: seq<(Tid, Choice)>, i: nat, j: nat, t: nat)
    requires IsRun(g, m, run, moves) && i <= j < |run|
    requires t in run[i].core.gaveUp
    ensures t !in run[j].core.installed && t !in run[j].core.taken
  {
    RunExtends(g, m, run, moves, i, j);
    RunInv(g, m, run, moves, j);
    assert TicketOk(g, run[j].core, t);
  }

  /**
   * Tail tickets strictly increase in the order in which they are drawn, also for the single
   * producer that loads and stores the tail while dequeuers catch it up.
   */
  lemma DrawnTicketsIncrease(g: Geometry, m: Mode, run: seq<Ring>, moves: seq<(Tid, Choice)>, k: nat)
    requires IsRun(g, m, run, moves) && k < |run|
    ensures StrictlyIncreasing(run[k].drawn)
  {
    RunInv(g, m, run, moves, k);
  }
}
