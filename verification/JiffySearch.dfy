/** How many buffers one enqueue visits. */
module JiffySearch {
  import opened Prelude
  import opened Bits
  import opened Jiffy
  import opened JiffyProof

  /** The search for position `p` looks at a buffer. */
  function Visit(s: State, t: ProducerId, a: Action, p: nat): nat {
    if a.CheckBuffer? && HasPos(At(s, t)) && At(s, t).pos == p then 1 else 0
  }

  function Visits(run: seq<State>, moves: seq<(ProducerId, Action)>, k: nat, p: nat): nat
    requires k <= |moves| < |run|
  {
    if k == 0 then 0
    else Visits(run, moves, k - 1, p) + Visit(run[k - 1], moves[k - 1].0, moves[k - 1].1, p)
  }

  /** The start of the buffer that a search has reached. */
  function StartAt(s: State, l: Local): nat {
    if Searching(l) && l.cur in s.heap then s.heap[l.cur].start else 0
  }

  /** After `v` visits that many buffers, less the present one, lie before the present one. */
  predicate BoundedAt(l: Local, start: nat, capacity: nat, p: nat, v: nat) {
    if !HasPos(l) || l.pos != p || Placed(l) then StartOf(v, capacity) <= p + capacity
    else if l.Hint? then v == 0
    else StartOf(v, capacity) <= start + (if l.Walk? then 0 else capacity)
  }

  predicate Bounded(s: State, p: nat, v: nat) {
    if p >= |s.claimed| then v == 0
    else BoundedAt(At(s, s.claimed[p].0), StartAt(s, At(s, s.claimed[p].0)), s.capacity, p, v)
  }

  /** A buffer of the chain keeps its place. */
  lemma ChainGrows(s: State, t: ProducerId, a: Action)
    requires Enabled(s, t, a)
    ensures s.chain <= Step(s, t, a).chain && Step(s, t, a).capacity == s.capacity
    ensures s.claimed <= Step(s, t, a).claimed && |Step(s, t, a).claimed| <= |s.claimed| + 1
  {
  }

  lemma StartStays(s: State, s': State, b: Ptr)
    requires Inv(s) && Inv(s') && s.chain <= s'.chain && s'.capacity == s.capacity && b in s.chain
    ensures b in s.heap && b in s'.heap && s'.heap[b].start == s.heap[b].start
  {
    var i: nat :| i < |s.chain| && s.chain[i] == b;
    assert s'.chain[i] == b;
    assert Chained(s, i) && Chained(s', i);
  }

  /** Another thread moves. */
  lemma OthersKeepBound(s: State, s': State, p: nat, v: nat)
    requires Inv(s) && Inv(s') && s.chain <= s'.chain && s'.capacity == s.capacity && Bounded(s, p, v)
    requires s.claimed <= s'.claimed && p < |s.claimed| && At(s', s.claimed[p].0) == At(s, s.claimed[p].0)
    ensures Bounded(s', p, v)
  {
    var t := s.claimed[p].0;
    assert ProducerOk(s, t) && s'.claimed[p] == s.claimed[p];
    if Searching(At(s, t)) {
      StartStays(s, s', At(s, t).cur);
    }
  }

  /** Where a producer goes from where it is. */
  lemma NextPlace(s: State, t: ProducerId, a: Action)
    requires !ConsumerAction(a) && Enabled(s, t, a)
    ensures var l, l' := At(s, t), At(Step(s, t, a), t);
            && (a.CheckBuffer? <==> l.Walk?)
            && (!HasPos(l) ==> !HasPos(l') || (l'.Hint? && l'.pos == s.tail))
            && (HasPos(l) && HasPos(l') ==> l'.pos == l.pos)
            && (l.Hint? ==> l'.Walk?)
            && (l.Walk? ==> l'.OldHint? || (l'.Next? && l'.cur == l.cur))
            && (l.Next? || l.Link? ==> l'.Walk? || (l'.Link? && l'.cur == l.cur))
            && (Placed(l) ==> !l'.Hint? && !Searching(l'))
  {
  }

  lemma LoadNextStart(s: State, t: ProducerId, a: Action)
    requires !ConsumerAction(a) && Enabled(s, t, a) && At(s, t).Next? && At(Step(s, t, a), t).Walk?
    ensures s.heap[At(s, t).cur].next == Some(At(Step(s, t, a), t).cur) && Step(s, t, a).heap == s.heap
  {
  }

  lemma CasNextStart(s: State, t: ProducerId, a: Action)
    requires !ConsumerAction(a) && Enabled(s, t, a) && At(s, t).Link?
    ensures var s', l, l' := Step(s, t, a), At(s, t), At(Step(s, t, a), t);
            if s.heap[l.cur].next.Some? then l'.cur == s.heap[l.cur].next.value && s'.heap == s.heap - {l.spare}
            else l'.cur == l.spare && s'.heap == s.heap[l.cur := s.heap[l.cur].(next := Some(l.spare))]
  {
  }

  /** A move to another buffer is a move to the next one. */
  lemma NextStart(s: State, t: ProducerId, a: Action)
    requires Chain(s) && ProducerOk(s, t) && !ConsumerAction(a) && Enabled(s, t, a)
    requires (At(s, t).Next? || At(s, t).Link?) && At(Step(s, t, a), t).Walk?
    ensures StartAt(Step(s, t, a), At(Step(s, t, a), t)) == StartAt(s, At(s, t)) + s.capacity
  {
    var l := At(s, t);
    NextInChain(s, l.cur);
    if l.Next? {
      LoadNextStart(s, t, a);
    } else {
      CasNextStart(s, t, a);
    }
  }

  /** From local state to local state, with the start of the buffer reached. */
  lemma BoundMoves(l: Local, start: nat, l': Local, start': nat, capacity: nat, p: nat, v: nat)
    requires BoundedAt(l, start, capacity, p, v)
    requires !HasPos(l) || l.pos != p ==> !HasPos(l') || l'.pos != p
    requires HasPos(l) && HasPos(l') ==> l'.pos == l.pos
    requires l.Hint? ==> l'.Walk?
    requires l.Walk? ==> (l'.OldHint? && start <= l.pos) || (l'.Next? && start' == start)
    requires l.Next? || l.Link? ==> (l'.Walk? && start' == start + capacity) || (l'.Link? && start' == start)
    requires Placed(l) ==> !l'.Hint? && !Searching(l')
    ensures BoundedAt(l', start', capacity, p, v + if l.Walk? && l.pos == p then 1 else 0)
  {
  }

  /** The producer of `p` moves; with every buffer it leaves, it is a buffer further. */
  lemma OwnMoveKeepsBound(s: State, t: ProducerId, a: Action, p: nat, v: nat)
    requires Inv(s) && !ConsumerAction(a) && Enabled(s, t, a) && Inv(Step(s, t, a))
    requires p < |s.claimed| && s.claimed[p].0 == t && Bounded(s, p, v)
    ensures Bounded(Step(s, t, a), p, v + Visit(s, t, a, p))
  {
    var s', l := Step(s, t, a), At(s, t);
    ChainGrows(s, t, a);
    NextPlace(s, t, a);
    assert ProducerOk(s, t);
    assert s'.claimed[p] == s.claimed[p];
    if Searching(l) {
      StartStays(s, s', l.cur);
    }
    if (l.Next? || l.Link?) && At(s', t).Walk? {
      NextStart(s, t, a);
    }
    BoundMoves(l, StartAt(s, l), At(s', t), StartAt(s', At(s', t)), s.capacity, p, v);
  }

  lemma MoveKeepsBound(s: State, t: ProducerId, a: Action, p: nat, v: nat)
    requires Inv(s) && Enabled(s, t, a) && Inv(Step(s, t, a)) && Bounded(s, p, v)
    ensures Bounded(Step(s, t, a), p, v + Visit(s, t, a, p))
  {
    ChainGrows(s, t, a);
    assert ProducerOk(s, t);
    if p >= |s.claimed| {
      ClaimIsFirst(s, t, a, p);
    } else if !ConsumerAction(a) && s.claimed[p].0 == t {
      OwnMoveKeepsBound(s, t, a, p, v);
    } else {
      OtherStays(s, t, a, s.claimed[p].0);
      OthersKeepBound(s, Step(s, t, a), p, v);
    }
  }

  lemma ClaimIsFirst(s: State, t: ProducerId, a: Action, p: nat)
    requires Enabled(s, t, a) && p >= |s.claimed| == s.tail
    ensures var s' := Step(s, t, a);
            p < |s'.claimed| ==> s'.claimed[p].0 == t && At(s', t).Hint? && At(s', t).pos == p
  {
  }

  lemma OtherStays(s: State, t: ProducerId, a: Action, u: ProducerId)
    requires Enabled(s, t, a) && (ConsumerAction(a) || u != t)
    ensures At(Step(s, t, a), u) == At(s, u)
  {
  }

  /** What a run keeps of the bound, and of what it rests on. */
  ghost predicate Good(s: State, capacity: nat, p: nat, v: nat) {
    Inv(s) && s.capacity == capacity && Bounded(s, p, v)
  }

  lemma MoveKeepsGood(s: State, s': State, t: ProducerId, a: Action, capacity: nat, p: nat, v: nat, v': nat)
    requires Good(s, capacity, p, v) && Enabled(s, t, a) && s' == Step(s, t, a) && v' == v + Visit(s, t, a, p)
    ensures Good(s', capacity, p, v')
  {
    if ConsumerAction(a) {
      ConsumerStepKeeps(s, a);
    } else {
      ProducerStepKeeps(s, t, a);
    }
    ChainGrows(s, t, a);
    MoveKeepsBound(s, t, a, p, v);
  }

  lemma VisitsNext(run: seq<State>, moves: seq<(ProducerId, Action)>, k: nat, p: nat)
    requires 0 < k <= |moves| < |run|
    ensures Visits(run, moves, k, p) ==
            Visits(run, moves, k - 1, p) + Visit(run[k - 1], moves[k - 1].0, moves[k - 1].1, p)
  {
  }

  lemma RunMove(capacity: nat, first: Ptr, run: seq<State>, moves: seq<(ProducerId, Action)>, k: nat)
    requires IsRun(capacity, first, run, moves) && 0 < k < |run|
    ensures Enabled(run[k - 1], moves[k - 1].0, moves[k - 1].1)
    ensures run[k] == Step(run[k - 1], moves[k - 1].0, moves[k - 1].1)
  {
    assert run[k - 1 + 1] == Step(run[k - 1], moves[k - 1].0, moves[k - 1].1);
  }

  lemma {:induction false} VisitsBounded(
      capacity: nat, first: Ptr, run: seq<State>, moves: seq<(ProducerId, Action)>, k: nat, p: nat)
    requires IsRun(capacity, first, run, moves) && k < |run|
    ensures Good(run[k], capacity, p, Visits(run, moves, k, p))
  {
    if k == 0 {
      StartInv(capacity, first);
    } else {
      var s, s', t, a := run[k - 1], run[k], moves[k - 1].0, moves[k - 1].1;
      VisitsBounded(capacity, first, run, moves, k - 1, p);
      RunMove(capacity, first, run, moves, k);
      VisitsNext(run, moves, k, p);
      MoveKeepsGood(s, s', t, a, capacity, p, Visits(run, moves, k - 1, p), Visits(run, moves, k, p));
    }
  }

  lemma {:induction false} StartIsProduct(v: nat, capacity: nat)
    ensures StartOf(v, capacity) == v * capacity
  {
    if v > 0 {
      StartIsProduct(v - 1, capacity);
      assert v * capacity == (v - 1) * capacity + capacity;
    }
  }

  lemma FewVisits(v: nat, p: nat, capacity: nat)
    requires capacity > 0 && StartOf(v, capacity) <= p + capacity
    ensures v <= p / capacity + 1
  {
    StartIsProduct(v, capacity);
    DivModSplit(p, capacity);
    assert v * capacity < (p / capacity + 2) * capacity;
  }

  lemma BoundedVisits(s: State, p: nat, v: nat)
    requires Inv(s) && Bounded(s, p, v)
    ensures v <= p / s.capacity + 1
  {
    if v > 0 {
      assert ProducerOk(s, s.claimed[p].0);
      FewVisits(v, p, s.capacity);
    }
  }

  /**
   * In every run, races included, an enqueue at position `p` looks at no more buffers than there
   * are from the first one to the one that holds `p`.
   */
  lemma SearchVisitsFewBuffers(
      capacity: nat, first: Ptr, run: seq<State>, moves: seq<(ProducerId, Action)>, k: nat, p: nat)
    requires IsRun(capacity, first, run, moves) && k < |run|
    ensures capacity > 0 && Visits(run, moves, k, p) <= p / capacity + 1
  {
    VisitsBounded(capacity, first, run, moves, k, p);
    BoundedVisits(run[k], p, Visits(run, moves, k, p));
  }
}
