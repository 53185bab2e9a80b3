/** Every step of every thread keeps the SCQ ring invariant. */
module ScqRingProof {
  import opened Prelude
  import opened ScqCore
  import opened ScqRing

  /** Only thread `tid` moves, and it takes up no ticket that it did not hold. */
  ghost predicate KeepsTickets(r: Ring, tid: Tid, l: Local) {
    && tid in r.locals
    && (EnqTicket(l).Some? ==> EnqTicket(l) == EnqTicket(r.locals[tid]))
    && (DeqTicket(l).Some? ==> DeqTicket(l) == DeqTicket(r.locals[tid]))
  }

  lemma DistinctKept(r: Ring, r': Ring, tid: Tid, l: Local)
    requires DistinctInv(r) && KeepsTickets(r, tid, l) && r'.locals == r.locals[tid := l]
    ensures DistinctInv(r')
  {
  }

  /** A step that only changes what one thread knows. */
  lemma MoveKeeps(g: Geometry, m: Mode, r: Ring, tid: Tid, l: Local)
    requires RingInv(g, m, r) && KeepsTickets(r, tid, l)
    requires LocalOk(g, m, r, tid, l) && !l.DeqTail? && !l.EnqStore? && !r.locals[tid].EnqStore?
    ensures RingInv(g, m, Move(r, tid, l))
  {
    var r' := Move(r, tid, l);
    assert r'.core == r.core;
    assert BoundsInv(m, r') by { assert TailBound(m, r') == TailBound(m, r); }
    assert DistinctInv(r') by { DistinctKept(r, r', tid, l); }
    assert LocalsInv(g, m, r') by { LocalsUntouched(g, m, r, r', tid, l); }
  }

  lemma LocalsUntouched(g: Geometry, m: Mode, r: Ring, r': Ring, tid: Tid, l: Local)
    requires Sound(g) && |r.core.entries| == g.n && LocalsInv(g, m, r)
    requires r'.core == r.core && r'.head == r.head && r'.tail == r.tail
    requires r'.locals == r.locals[tid := l] && LocalOk(g, m, r, tid, l)
    ensures LocalsInv(g, m, r')
  {
  }

  /** What a step of another thread must respect for the thread at `l` not to notice. */
  ghost predicate Respects(g: Geometry, r: Ring, r': Ring, l: Local)
    requires Sound(g) && |r.core.entries| == g.n && |r'.core.entries| == g.n
  {
    && (Enqueuing(l) ==> r.tail <= r'.tail)
    && r.head <= r'.head
    && (l.DeqStore? ==> r'.head == r.head)
    && (EnqTicket(l).Some? ==>
          && EnqTicket(l).value !in r'.core.installed
          && Rank(At(g, r.core, EnqTicket(l).value)) <= Rank(At(g, r'.core, EnqTicket(l).value)))
    && (l.EnqCas? && !l.e.safe && Rank(l.e) == Rank(At(g, r'.core, l.t)) ==>
          NoneGaveUpFrom(g, r.core, l.t) ==> NoneGaveUpFrom(g, r'.core, l.t))
    && (DeqTicket(l).Some? ==>
          && DeqTicket(l).value !in r'.core.taken
          && DeqTicket(l).value !in r'.core.gaveUp)
    && (l.DeqTake? && l.h in r.core.installed ==>
          && l.h in r'.core.installed
          && r'.core.installed[l.h] == r.core.installed[l.h])
  }

  lemma LocalsSurvive(g: Geometry, m: Mode, r: Ring, r': Ring, tid: Tid, l: Local)
    requires Sound(g) && |r.core.entries| == g.n && |r'.core.entries| == g.n && LocalsInv(g, m, r)
    requires r'.locals == r.locals[tid := l] && LocalOk(g, m, r', tid, l)
    requires forall u :: u in r.locals && u != tid ==> Respects(g, r, r', r.locals[u])
    ensures LocalsInv(g, m, r')
  {
  }

  // A dequeuer gives up without touching the word.

  ghost predicate MayLeave(g: Geometry, c: Core, h: nat)
    requires Sound(g) && |c.entries| == g.n
  {
    var e := At(g, c, h);
    e.cycle > g.cyc(h) || (e.cycle < g.cyc(h) && e.idx.Some? && !e.safe)
  }

  lemma GiveUpRespects(g: Geometry, m: Mode, r: Ring, h: nat, u: Tid, l: Local)
    requires Sound(g) && |r.core.entries| == g.n && MayLeave(g, r.core, h)
    requires LocalOk(g, m, r, u, l) && DeqTicket(l) != Some(h)
    ensures Respects(g, r, r.(core := GiveUp(r.core, h)), l)
  {
  }

  lemma GiveUpMoveKeeps(g: Geometry, m: Mode, r: Ring, tid: Tid, h: nat)
    requires RingInv(g, m, r) && tid in r.locals && DeqTicket(r.locals[tid]) == Some(h)
    requires MayLeave(g, r.core, h)
    ensures RingInv(g, m, Move(r, tid, DeqTail(h)))
  {
    var l := DeqTail(h);
    var r' := Move(r, tid, l);
    assert LocalOk(g, m, r, tid, r.locals[tid]);
    assert CoreInv(g, r'.core) by { GiveUpKeeps(g, r.core, h); }
    assert BoundsInv(m, r') by { assert TailBound(m, r') == TailBound(m, r); }
    assert DistinctInv(r') by { DistinctKept(r, r', tid, l); }
    forall u | u in r.locals && u != tid ensures Respects(g, r, r', r.locals[u]) {
      assert LocalOk(g, m, r, u, r.locals[u]);
      GiveUpRespects(g, m, r, h, u, r.locals[u]);
    }
    LocalsSurvive(g, m, r, r', tid, l);
  }

  // A dequeuer gives up by replacing the word.

  lemma ReplaceRespects(g: Geometry, m: Mode, r: Ring, h: nat, u: Tid, l: Local)
    requires Sound(g) && |r.core.entries| == g.n
    requires At(g, r.core, h).cycle < g.cyc(h) && (At(g, r.core, h).idx.Some? ==> At(g, r.core, h).safe)
    requires LocalOk(g, m, r, u, l) && DeqTicket(l) != Some(h)
    ensures Respects(g, r, r.(core := Replace(g, r.core, h, Spoiled(g, h, At(g, r.core, h)))), l)
  {
  }

  lemma ReplaceStepKeeps(g: Geometry, m: Mode, r: Ring, tid: Tid)
    requires RingInv(g, m, r) && tid in r.locals && r.locals[tid].DeqCas?
    requires At(g, r.core, r.locals[tid].h) == r.locals[tid].e
    ensures RingInv(g, m, DequeueStep(g, m, r, tid, false))
  {
    var h := r.locals[tid].h;
    var l := DeqTail(h);
    var r' := DequeueStep(g, m, r, tid, false);
    assert LocalOk(g, m, r, tid, r.locals[tid]);
    assert CoreInv(g, r'.core) by { ReplaceKeeps(g, r.core, h); }
    assert BoundsInv(m, r') by { assert TailBound(m, r') == TailBound(m, r); }
    assert DistinctInv(r') by { DistinctKept(r, r', tid, l); }
    forall u | u in r.locals && u != tid ensures Respects(g, r, r', r.locals[u]) {
      assert LocalOk(g, m, r, u, r.locals[u]);
      ReplaceRespects(g, m, r, h, u, r.locals[u]);
    }
    LocalsSurvive(g, m, r, r', tid, l);
  }

  // An enqueuer installs its index.

  lemma InstallRespects(g: Geometry, m: Mode, r: Ring, t: nat, x: nat, u: Tid, l: Local)
    requires Sound(g) && |r.core.entries| == g.n && t !in r.core.installed
    requires At(g, r.core, t).cycle < g.cyc(t)
    requires LocalOk(g, m, r, u, l) && EnqTicket(l) != Some(t)
    ensures Respects(g, r, r.(core := Install(g, r.core, t, x)), l)
  {
  }

  lemma InstallStepKeeps(g: Geometry, m: Mode, r: Ring, tid: Tid)
    requires RingInv(g, m, r) && tid in r.locals && r.locals[tid].EnqCas?
    requires At(g, r.core, r.locals[tid].t) == r.locals[tid].e
    ensures RingInv(g, m, EnqueueStep(g, m, r, tid, false))
  {
    var t, x := r.locals[tid].t, r.locals[tid].x;
    var l := EnqThreshold(x);
    var r' := EnqueueStep(g, m, r, tid, false);
    assert LocalOk(g, m, r, tid, r.locals[tid]);
    assert CoreInv(g, r'.core) by {
      if r.locals[tid].e.safe { SafeMeansNotAbandoned(g, r.core, t); }
      InstallKeeps(g, r.core, t, x);
    }
    assert BoundsInv(m, r') by { assert TailBound(m, r') == TailBound(m, r) == r.tail; }
    assert DistinctInv(r') by { DistinctKept(r, r', tid, l); }
    forall u | u in r.locals && u != tid ensures Respects(g, r, r', r.locals[u]) {
      assert LocalOk(g, m, r, u, r.locals[u]);
      InstallRespects(g, m, r, t, x, u, r.locals[u]);
    }
    LocalsSurvive(g, m, r, r', tid, l);
  }

  // A dequeuer takes the index.

  lemma TakeRespects(g: Geometry, m: Mode, r: Ring, h: nat, u: Tid, l: Local)
    requires Sound(g) && |r.core.entries| == g.n && h in r.core.installed
    requires LocalOk(g, m, r, u, l) && DeqTicket(l) != Some(h)
    ensures Respects(g, r, r.(core := Take(g, r.core, h, r.core.installed[h])), l)
  {
  }

  lemma TakeStepKeeps(g: Geometry, m: Mode, r: Ring, tid: Tid)
    requires RingInv(g, m, r) && tid in r.locals && r.locals[tid].DeqTake?
    ensures RingInv(g, m, DequeueStep(g, m, r, tid, false))
  {
    var h := r.locals[tid].h;
    var l := DeqReturn(r.locals[tid].seen);
    var r' := DequeueStep(g, m, r, tid, false);
    assert LocalOk(g, m, r, tid, r.locals[tid]);
    assert CoreInv(g, r'.core) by { TakeKeeps(g, r.core, h); }
    assert BoundsInv(m, r') by { assert TailBound(m, r') == TailBound(m, r); }
    assert DistinctInv(r') by { DistinctKept(r, r', tid, l); }
    forall u | u in r.locals && u != tid ensures Respects(g, r, r', r.locals[u]) {
      assert LocalOk(g, m, r, u, r.locals[u]);
      TakeRespects(g, m, r, h, u, r.locals[u]);
    }
    LocalsSurvive(g, m, r, r', tid, l);
  }

  // Tickets are drawn.

  lemma DrawTailKeeps(g: Geometry, m: Mode, r: Ring, tid: Tid)
    requires RingInv(g, m, r) && tid in r.locals && r.locals[tid].EnqDraw?
    ensures RingInv(g, m, EnqueueStep(g, m, r, tid, false))
  {
    var r' := EnqueueStep(g, m, r, tid, false);
    var l := r'.locals[tid];
    assert LocalOk(g, m, r, tid, r.locals[tid]);
    assert r'.core == r.core && TailBound(m, r) == r.tail;
    assert BoundsInv(m, r') by {
      assert TailBound(m, r') == r'.tail;
    }
    assert DistinctInv(r') by { FreshTailDistinct(g, m, r, r', tid, l); }
    LocalsSurvive(g, m, r, r', tid, l);
  }

  lemma FreshTailDistinct(g: Geometry, m: Mode, r: Ring, r': Ring, tid: Tid, l: Local)
    requires Sound(g) && |r.core.entries| == g.n && LocalsInv(g, m, r) && DistinctInv(r)
    requires tid in r.locals && r'.locals == r.locals[tid := l] && DeqTicket(l).None?
    requires EnqTicket(l).Some? ==>
               forall u :: u in r.locals && u != tid ==> EnqTicket(r.locals[u]) != EnqTicket(l)
    ensures DistinctInv(r')
  {
  }

  lemma StoreTailKeeps(g: Geometry, m: Mode, r: Ring, tid: Tid)
    requires RingInv(g, m, r) && tid in r.locals && r.locals[tid].EnqStore?
    ensures RingInv(g, m, EnqueueStep(g, m, r, tid, false))
  {
  }

  lemma HeadRespects(g: Geometry, m: Mode, r: Ring, r': Ring, u: Tid, l: Local)
    requires Sound(g) && |r.core.entries| == g.n && LocalOk(g, m, r, u, l)
    requires r'.core == r.core && r'.tail == r.tail && r.head <= r'.head
    requires Dequeuing(l) && m.consumer.Some? ==> r'.head == r.head
    ensures Respects(g, r, r', l) && DeqTicket(l) != Some(r.head)
  {
  }

  lemma DrawHeadKeeps(g: Geometry, m: Mode, r: Ring, tid: Tid)
    requires RingInv(g, m, r) && tid in r.locals && (r.locals[tid].DeqDraw? || r.locals[tid].DeqStore?)
    ensures RingInv(g, m, DequeueStep(g, m, r, tid, false))
  {
    var r' := DequeueStep(g, m, r, tid, false);
    var l := r'.locals[tid];
    assert LocalOk(g, m, r, tid, r.locals[tid]);
    assert r'.core == r.core && TailBound(m, r') == TailBound(m, r);
    assert BoundsInv(m, r');
    forall u | u in r.locals && u != tid
      ensures Respects(g, r, r', r.locals[u])
      ensures DeqTicket(l).Some? ==> DeqTicket(r.locals[u]) != DeqTicket(l)
    {
      HeadRespects(g, m, r, r', u, r.locals[u]);
    }
    assert DistinctInv(r') by { FreshHeadDistinct(r, r', tid, l); }
    LocalsSurvive(g, m, r, r', tid, l);
  }

  lemma FreshHeadDistinct(r: Ring, r': Ring, tid: Tid, l: Local)
    requires DistinctInv(r) && tid in r.locals && r'.locals == r.locals[tid := l] && EnqTicket(l).None?
    requires DeqTicket(l).Some? ==>
               forall u :: u in r.locals && u != tid ==> DeqTicket(r.locals[u]) != DeqTicket(l)
    ensures DistinctInv(r')
  {
  }

  lemma CatchupKeeps(g: Geometry, m: Mode, r: Ring, tid: Tid)
    requires RingInv(g, m, r) && tid in r.locals && r.locals[tid].Catchup? && r.tail == r.locals[tid].from
    ensures RingInv(g, m, OtherStep(g, r, tid, Advance))
  {
    var r' := OtherStep(g, r, tid, Advance);
    var l := r'.locals[tid];
    assert LocalOk(g, m, r, tid, r.locals[tid]);
    assert r'.core == r.core;
    assert BoundsInv(m, r') by { assert TailBound(m, r') >= TailBound(m, r); }
    assert DistinctInv(r') by { DistinctKept(r, r', tid, l); }
    LocalsSurvive(g, m, r, r', tid, l);
  }

  lemma ThresholdKeeps(g: Geometry, m: Mode, r: Ring, threshold: int)
    requires RingInv(g, m, r)
    ensures RingInv(g, m, r.(threshold := threshold))
  {
  }

  // The words a thread reads lead it to states it may rely on.

  lemma EnqDecideOk(g: Geometry, m: Mode, r: Ring, tid: Tid)
    requires RingInv(g, m, r) && tid in r.locals && (r.locals[tid].EnqLoad? || r.locals[tid].EnqCas?)
    ensures RingInv(g, m, Move(r, tid, EnqDecide(g, r.locals[tid].x, r.locals[tid].t, At(g, r.core, r.locals[tid].t))))
  {
    var x, t := r.locals[tid].x, r.locals[tid].t;
    var e := At(g, r.core, t);
    var l := EnqDecide(g, x, t, e);
    assert LocalOk(g, m, r, tid, r.locals[tid]);
    MoveKeeps(g, m, r, tid, l);
  }

  /** The head check of an enqueuer on an unsafe entry. */
  lemma EnqHeadOk(g: Geometry, m: Mode, r: Ring, tid: Tid)
    requires RingInv(g, m, r) && tid in r.locals && r.locals[tid].EnqHead?
    ensures RingInv(g, m, EnqueueStep(g, m, r, tid, false))
  {
    var l := r.locals[tid];
    assert LocalOk(g, m, r, tid, l);
    if r.head <= l.t {
      assert NoneGaveUpFrom(g, r.core, l.t);
      MoveKeeps(g, m, r, tid, EnqCas(l.x, l.t, l.e));
    } else {
      MoveKeeps(g, m, r, tid, EnqDraw(l.x));
    }
  }

  lemma DeqDecideOk(g: Geometry, m: Mode, r: Ring, tid: Tid)
    requires RingInv(g, m, r) && tid in r.locals && (r.locals[tid].DeqLoad? || r.locals[tid].DeqCas?)
    ensures RingInv(g, m, Move(r, tid,
                               DeqDecide(g, r.locals[tid].h, r.locals[tid].attempt, At(g, r.core, r.locals[tid].h))))
  {
    var h, attempt := r.locals[tid].h, r.locals[tid].attempt;
    var e := At(g, r.core, h);
    var l := DeqDecide(g, h, attempt, e);
    assert LocalOk(g, m, r, tid, r.locals[tid]);
    if l.DeqTail? {
      GiveUpMoveKeeps(g, m, r, tid, h);
    } else {
      if l.DeqTake? { MatchHoldsIndex(g, r.core, h); }
      MoveKeeps(g, m, r, tid, l);
    }
  }

  lemma EnqueueStepKeeps(g: Geometry, m: Mode, r: Ring, tid: Tid, spurious: bool)
    requires RingInv(g, m, r) && tid in r.locals && Enqueuing(r.locals[tid])
    ensures RingInv(g, m, EnqueueStep(g, m, r, tid, spurious))
  {
    match r.locals[tid]
    case EnqDraw(_) => DrawTailKeeps(g, m, r, tid);
    case EnqStore(_, _) => StoreTailKeeps(g, m, r, tid);
    case EnqLoad(_, _) => EnqDecideOk(g, m, r, tid);
    case EnqHead(_, _, _) => EnqHeadOk(g, m, r, tid);
    case EnqCas(_, t, e) =>
      if !spurious && At(g, r.core, t) == e {
        InstallStepKeeps(g, m, r, tid);
      } else {
        EnqDecideOk(g, m, r, tid);
      }
  }

  lemma DequeueStepKeeps(g: Geometry, m: Mode, r: Ring, tid: Tid, spurious: bool)
    requires RingInv(g, m, r) && tid in r.locals && OnHead(r.locals[tid])
    ensures RingInv(g, m, DequeueStep(g, m, r, tid, spurious))
  {
    match r.locals[tid]
    case DeqDraw => DrawHeadKeeps(g, m, r, tid);
    case DeqStore(_) => DrawHeadKeeps(g, m, r, tid);
    case DeqLoad(_, _) => DeqDecideOk(g, m, r, tid);
    case DeqTake(_, _) => TakeStepKeeps(g, m, r, tid);
    case DeqCas(h, _, e) =>
      if !spurious && At(g, r.core, h) == e {
        ReplaceStepKeeps(g, m, r, tid);
      } else {
        DeqDecideOk(g, m, r, tid);
      }
  }

  lemma OtherLocalOk(g: Geometry, m: Mode, r: Ring, tid: Tid, choice: Choice)
    requires Enabled(g, m, r, tid, choice) && LocalOk(g, m, r, tid, r.locals[tid])
    requires !Enqueuing(r.locals[tid]) && !OnHead(r.locals[tid])
    requires !(r.locals[tid].Catchup? && choice.Advance? && r.tail == r.locals[tid].from)
    ensures var l := OtherLocal(g, r, tid, choice);
            && LocalOk(g, m, r, tid, l) && !l.DeqTail? && !l.EnqStore?
            && EnqTicket(l).None? && DeqTicket(l).None?
  {
  }

  lemma OtherStepKeeps(g: Geometry, m: Mode, r: Ring, tid: Tid, choice: Choice)
    requires RingInv(g, m, r) && Enabled(g, m, r, tid, choice)
    requires !Enqueuing(r.locals[tid]) && !OnHead(r.locals[tid])
    ensures RingInv(g, m, OtherStep(g, r, tid, choice))
  {
    assert LocalOk(g, m, r, tid, r.locals[tid]);
    if r.locals[tid].Catchup? && choice.Advance? && r.tail == r.locals[tid].from {
      CatchupKeeps(g, m, r, tid);
    } else {
      var r' := OtherStep(g, r, tid, choice);
      var l := OtherLocal(g, r, tid, choice);
      OtherLocalOk(g, m, r, tid, choice);
      MoveKeeps(g, m, r, tid, l);
      ThresholdKeeps(g, m, Move(r, tid, l), r'.threshold);
    }
  }

  /** The main induction step of the ring. */
  lemma StepKeeps(g: Geometry, m: Mode, r: Ring, tid: Tid, choice: Choice)
    requires RingInv(g, m, r) && Enabled(g, m, r, tid, choice)
    ensures RingInv(g, m, Step(g, m, r, tid, choice))
  {
    if Enqueuing(r.locals[tid]) {
      EnqueueStepKeeps(g, m, r, tid, choice.SpuriousFailure?);
    } else if OnHead(r.locals[tid]) {
      DequeueStepKeeps(g, m, r, tid, choice.SpuriousFailure?);
    } else {
      OtherStepKeeps(g, m, r, tid, choice);
    }
  }
}
