/**
 * One SCQ ring as a transition system: any number of threads run `enqueue` and `dequeue`,
 * one shared-memory access per step.
 */
module ScqRing {
  import opened Prelude
  import opened ScqCore

  type Tid = nat

  /** Retries of a dequeuer on an empty entry before it moves the entry to its own cycle. */
  const MAX_ATTEMPTS := 10000

  /** The producer, or the consumer, that uses the load-then-store variant, if there is one. */
  datatype Mode = Mode(producer: Option<Tid>, consumer: Option<Tid>)

  /** What a thread does next, and the values it has read. */
  datatype Local =
    | Idle
    | EnqDraw(x: nat)
    | EnqStore(x: nat, t: nat)
    | EnqLoad(x: nat, t: nat)
    | EnqHead(x: nat, t: nat, e: Entry)
    | EnqCas(x: nat, t: nat, e: Entry)
    | EnqThreshold(x: nat)
    | EnqThresholdStore(x: nat)
    | EnqReturn(x: nat)
    | DeqThreshold
    | DeqDraw
    | DeqStore(h: nat)
    | DeqLoad(h: nat, attempt: nat)
    | DeqCas(h: nat, attempt: nat, e: Entry)
    | DeqTake(h: nat, seen: Option<nat>)
    | DeqTail(h: nat)
    | Catchup(h: nat, from: nat, to: nat)
    | CatchupHead(h: nat)
    | CatchupTail(h: nat, to: nat)
    | DeqLower(h: nat, empty: bool)
    | DeqReturn(result: Option<nat>)

  /** `drawn` records the tail tickets in the order in which enqueuers drew them. */
  datatype Ring = Ring(
    core: Core, head: nat, tail: nat, threshold: int,
    locals: map<Tid, Local>, drawn: seq<nat>)

  datatype Choice = Advance | SpuriousFailure | BeginEnqueue(x: nat) | BeginDequeue

  function Threshold3(n: nat): int {
    n / 2 + n - 1
  }

  /** The enqueuer of `t` has read the word `e`. */
  function EnqDecide(g: Geometry, x: nat, t: nat, e: Entry): Local {
    if e.cycle < g.cyc(t) && e.idx.None? then
      if e.safe then EnqCas(x, t, e) else EnqHead(x, t, e)
    else
      EnqDraw(x)
  }

  /** The dequeuer of `h` has read the word `e`; `DeqTail` means that it gives up on `h`. */
  function DeqDecide(g: Geometry, h: nat, attempt: nat, e: Entry): Local {
    if e.cycle == g.cyc(h) then
      DeqTake(h, e.idx)
    else if e.idx.Some? then
      if !e.safe || e.cycle >= g.cyc(h) then DeqTail(h) else DeqCas(h, attempt, e)
    else if attempt + 1 <= MAX_ATTEMPTS then
      DeqLoad(h, attempt + 1)
    else if e.cycle >= g.cyc(h) then
      DeqTail(h)
    else
      DeqCas(h, attempt + 1, e)
  }

  ghost predicate Enabled(g: Geometry, m: Mode, r: Ring, tid: Tid, choice: Choice) {
    && Sound(g) && |r.core.entries| == g.n
    && tid in r.locals
    && match choice
       case BeginEnqueue(_) => r.locals[tid].Idle? && (m.producer.Some? ==> m.producer.value == tid)
       case BeginDequeue => r.locals[tid].Idle? && (m.consumer.Some? ==> m.consumer.value == tid)
       case SpuriousFailure =>
         r.locals[tid].EnqCas? || r.locals[tid].DeqCas? || r.locals[tid].Catchup?
       case Advance => !r.locals[tid].Idle?
  }

  /** Thread `tid` moves to `l`; a dequeuer that gives up leaves its mark in the history. */
  function Move(r: Ring, tid: Tid, l: Local): Ring {
    var core := if l.DeqTail? then GiveUp(r.core, l.h) else r.core;
    r.(core := core, locals := r.locals[tid := l])
  }

  /** The tail ticket an enqueuer is working on. */
  function EnqTicket(l: Local): Option<nat> {
    match l
    case EnqLoad(_, t) => Some(t)
    case EnqHead(_, t, _) => Some(t)
    case EnqCas(_, t, _) => Some(t)
    case _ => None
  }

  /** The head ticket a dequeuer is working on. */
  function DeqTicket(l: Local): Option<nat> {
    match l
    case DeqLoad(h, _) => Some(h)
    case DeqCas(h, _, _) => Some(h)
    case DeqTake(h, _) => Some(h)
    case _ => None
  }

  predicate Enqueuing(l: Local) {
    l.EnqDraw? || l.EnqStore? || EnqTicket(l).Some?
  }

  predicate Dequeuing(l: Local) {
    l.DeqThreshold? || l.DeqDraw? || l.DeqStore? || DeqTicket(l).Some? || l.DeqTail? || l.Catchup?
    || l.CatchupHead? || l.CatchupTail? || l.DeqLower?
  }

  /** The dequeuer is about to draw a head ticket, or works on one. */
  predicate OnHead(l: Local) {
    l.DeqDraw? || l.DeqStore? || DeqTicket(l).Some?
  }

  function EnqueueStep(g: Geometry, m: Mode, r: Ring, tid: Tid, spurious: bool): Ring
    requires Sound(g) && |r.core.entries| == g.n && tid in r.locals && Enqueuing(r.locals[tid])
  {
    match r.locals[tid]
    case EnqDraw(x) =>
      if m.producer.Some? then Move(r, tid, EnqStore(x, r.tail))
      else Move(r.(tail := r.tail + 1, drawn := r.drawn + [r.tail]), tid, EnqLoad(x, r.tail))
    case EnqStore(x, t) =>
      Move(r.(tail := t + 1, drawn := r.drawn + [t]), tid, EnqLoad(x, t))
    case EnqLoad(x, t) => Move(r, tid, EnqDecide(g, x, t, At(g, r.core, t)))
    case EnqHead(x, t, e) => Move(r, tid, if r.head <= t then EnqCas(x, t, e) else EnqDraw(x))
    case EnqCas(x, t, e) =>
      if !spurious && At(g, r.core, t) == e then
        Move(r.(core := Install(g, r.core, t, x)), tid, EnqThreshold(x))
      else
        Move(r, tid, EnqDecide(g, x, t, At(g, r.core, t)))
  }

  function DequeueStep(g: Geometry, m: Mode, r: Ring, tid: Tid, spurious: bool): Ring
    requires Sound(g) && |r.core.entries| == g.n && tid in r.locals && OnHead(r.locals[tid])
  {
    match r.locals[tid]
    case DeqDraw =>
      if m.consumer.Some? then Move(r, tid, DeqStore(r.head))
      else Move(r.(head := r.head + 1), tid, DeqLoad(r.head, 0))
    case DeqStore(h) => Move(r.(head := h + 1), tid, DeqLoad(h, 0))
    case DeqLoad(h, attempt) => Move(r, tid, DeqDecide(g, h, attempt, At(g, r.core, h)))
    case DeqCas(h, attempt, e) =>
      if !spurious && At(g, r.core, h) == e then
        r.(core := Replace(g, r.core, h, Spoiled(g, h, e)), locals := r.locals[tid := DeqTail(h)])
      else
        Move(r, tid, DeqDecide(g, h, attempt, At(g, r.core, h)))
    case DeqTake(h, seen) =>
      var core := if seen.Some? then Take(g, r.core, h, seen.value) else r.core;
      Move(r.(core := core), tid, DeqReturn(seen))
  }

  /** The steps before a ticket is drawn and after its entry has been dealt with. */
  function OtherLocal(g: Geometry, r: Ring, tid: Tid, choice: Choice): Local
    requires tid in r.locals && !Enqueuing(r.locals[tid]) && !OnHead(r.locals[tid])
  {
    match r.locals[tid]
    case Idle => if choice.BeginEnqueue? then EnqDraw(choice.x) else DeqThreshold
    case EnqThreshold(x) =>
      if r.threshold != Threshold3(g.n) then EnqThresholdStore(x) else EnqReturn(x)
    case EnqThresholdStore(x) => EnqReturn(x)
    case EnqReturn(x) => Idle
    case DeqThreshold => if r.threshold < 0 then DeqReturn(None) else DeqDraw
    case DeqTail(h) => if r.tail <= h + 1 then Catchup(h, r.tail, h + 1) else DeqLower(h, false)
    case Catchup(h, from, to) =>
      if !choice.SpuriousFailure? && r.tail == from then DeqLower(h, true) else CatchupHead(h)
    case CatchupHead(h) => CatchupTail(h, r.head)
    case CatchupTail(h, to) => if r.tail >= to then DeqLower(h, true) else Catchup(h, r.tail, to)
    case DeqLower(h, empty) => if empty || r.threshold <= 0 then DeqReturn(None) else DeqDraw
    case DeqReturn(_) => Idle
  }

  function OtherStep(g: Geometry, r: Ring, tid: Tid, choice: Choice): Ring
    requires tid in r.locals && !Enqueuing(r.locals[tid]) && !OnHead(r.locals[tid])
  {
    var l := r.locals[tid];
    var caughtUp := l.Catchup? && !choice.SpuriousFailure? && r.tail == l.from;
    r.(tail := if caughtUp then l.to else r.tail,
       threshold := if l.EnqThresholdStore? then Threshold3(g.n)
                    else if l.DeqLower? then r.threshold - 1 else r.threshold,
       locals := r.locals[tid := OtherLocal(g, r, tid, choice)])
  }

  ghost function Step(g: Geometry, m: Mode, r: Ring, tid: Tid, choice: Choice): Ring
    requires Enabled(g, m, r, tid, choice)
  {
    if Enqueuing(r.locals[tid]) then EnqueueStep(g, m, r, tid, choice.SpuriousFailure?)
    else if OnHead(r.locals[tid]) then DequeueStep(g, m, r, tid, choice.SpuriousFailure?)
    else OtherStep(g, r, tid, choice)
  }

  /** Tail tickets at or above this bound have never been drawn. */
  function TailBound(m: Mode, r: Ring): nat {
    if m.producer.Some? && m.producer.value in r.locals && r.locals[m.producer.value].EnqStore?
    then r.locals[m.producer.value].t else r.tail
  }

  /** What thread `tid` at `l` may rely on. */
  ghost predicate LocalOk(g: Geometry, m: Mode, r: Ring, tid: Tid, l: Local)
    requires Sound(g) && |r.core.entries| == g.n
  {
    && (Enqueuing(l) && m.producer.Some? ==> m.producer.value == tid)
    && (Dequeuing(l) && m.consumer.Some? ==> m.consumer.value == tid)
    && (EnqTicket(l).Some? ==> EnqTicket(l).value < r.tail && EnqTicket(l).value !in r.core.installed)
    && (DeqTicket(l).Some? ==> DeqTicket(l).value < r.head)
    && (DeqTicket(l).Some? ==> DeqTicket(l).value !in r.core.taken && DeqTicket(l).value !in r.core.gaveUp)
    && match l
       case EnqStore(x, t) => m.producer.Some? && t <= r.tail
       case EnqHead(x, t, e) =>
         e.idx.None? && e.cycle < g.cyc(t) && !e.safe && Rank(e) <= Rank(At(g, r.core, t))
       case EnqCas(x, t, e) =>
         && e.idx.None? && e.cycle < g.cyc(t) && Rank(e) <= Rank(At(g, r.core, t))
         && (!e.safe && Rank(e) == Rank(At(g, r.core, t)) ==> NoneGaveUpFrom(g, r.core, t))
       case DeqStore(h) => m.consumer.Some? && h == r.head
       case DeqCas(h, _, e) => e.cycle < g.cyc(h) && (e.idx.Some? ==> e.safe)
       case DeqTake(h, seen) =>
         seen.Some? && h in r.core.installed && r.core.installed[h] == seen.value
       case Catchup(_, from, to) => from <= to
       case _ => true
  }

  ghost predicate BoundsInv(m: Mode, r: Ring) {
    && (forall t :: t in r.core.installed ==> t < TailBound(m, r))
    && (forall i :: 0 <= i < |r.drawn| ==> r.drawn[i] < TailBound(m, r))
    && StrictlyIncreasing(r.drawn)
    && (forall t :: t in r.core.taken ==> t < r.head)
    && (forall t :: t in r.core.gaveUp ==> t < r.head)
  }

  ghost predicate LocalsInv(g: Geometry, m: Mode, r: Ring)
    requires Sound(g) && |r.core.entries| == g.n
  {
    forall tid :: tid in r.locals ==> LocalOk(g, m, r, tid, r.locals[tid])
  }

  /** No two threads work on the same ticket. */
  ghost predicate DistinctInv(r: Ring) {
    forall a, b :: a in r.locals && b in r.locals && a != b ==>
      && (EnqTicket(r.locals[a]).Some? ==> EnqTicket(r.locals[a]) != EnqTicket(r.locals[b]))
      && (DeqTicket(r.locals[a]).Some? ==> DeqTicket(r.locals[a]) != DeqTicket(r.locals[b]))
  }

  ghost predicate RingInv(g: Geometry, m: Mode, r: Ring) {
    && CoreInv(g, r.core)
    && BoundsInv(m, r)
    && LocalsInv(g, m, r)
    && DistinctInv(r)
  }
}
