/**
 * The SCQ request ring: a free queue and an allocated queue, both SCQ rings, around an array
 * of data slots. Any number of callers push requests, one server pops them.
 */
module ScqRequestRing {
  import opened Prelude
  import opened ScqCore
  import opened ScqRing
  import opened ScqTickets

  /** The server's thread; every other thread is a caller, known by its thread id. */
  const SERVER: Tid := 0

  /** Allocated queue: callers fetch-and-add the tail, the server loads and stores the head. */
  const AQ := Mode(None, Some(SERVER))

  /** Free queue: the server loads and stores the tail, callers fetch-and-add the head. */
  const FQ := Mode(Some(SERVER), None)

  datatype Slot = Slot(callerId: nat, data: Bytes)

  datatype Caller =
    | Ready
    | Popping(data: Bytes)
    | WriteId(i: nat, data: Bytes)
    | WriteData(i: nat, data: Bytes)
    | Pushing(i: nat, data: Bytes)

  datatype Server =
    | Waiting
    | Taking
    | ReadId(i: nat)
    | ReadData(i: nat, callerId: nat)
    | Freeing(i: nat, callerId: nat, data: Bytes)
    | Gone

  datatype Owner = InFree(t: nat) | WithCaller(tid: Tid) | InAlloc(t: nat) | WithServer

  /**
   * `owner`, `pushed`, `current` and `popped` are history: who holds each slot index, the
   * request installed under each ticket of the allocated queue, the ticket the server took
   * last, and the requests it has returned with their tickets.
   */
  datatype System = System(
    aq: Ring, fq: Ring, slots: seq<Slot>, rxAlive: bool,
    callers: map<Tid, Caller>, server: Server,
    owner: map<nat, Owner>, pushed: map<nat, Slot>, current: Option<nat>, popped: seq<(nat, Slot)>)

  datatype Action =
    | CallerAction(tid: Tid, data: Bytes, spurious: bool)
    | ServerAction(spurious: bool)
    | ServerDrop

  function Choose(spurious: bool): Choice {
    if spurious then SpuriousFailure else Advance
  }

  /** The next step of `tid` is the successful compare-exchange of an enqueue. */
  predicate Installs(g: Geometry, r: Ring, tid: Tid, spurious: bool)
    requires Sound(g) && |r.core.entries| == g.n && tid in r.locals
  {
    r.locals[tid].EnqCas? && !spurious && At(g, r.core, r.locals[tid].t) == r.locals[tid].e
  }

  ghost predicate WellSized(g: Geometry, r: Ring) {
    Sound(g) && |r.core.entries| == g.n
  }

  /** Slot accesses are bounds-checked: a caller or server with a wrong index would be stuck. */
  ghost predicate CallerEnabled(g: Geometry, s: System, tid: Tid, spurious: bool) {
    && WellSized(g, s.aq) && WellSized(g, s.fq)
    && tid in s.callers && tid in s.aq.locals && tid in s.fq.locals && tid != SERVER
    && match s.callers[tid]
       case Ready => s.rxAlive ==> Enabled(g, FQ, s.fq, tid, BeginDequeue)
       case Popping(_) => Enabled(g, FQ, s.fq, tid, Choose(spurious))
       case WriteId(i, _) => i < |s.slots|
       case WriteData(i, _) => i < |s.slots| && Enabled(g, AQ, s.aq, tid, BeginEnqueue(i))
       case Pushing(_, _) => Enabled(g, AQ, s.aq, tid, Choose(spurious))
  }

  ghost predicate ServerEnabled(g: Geometry, s: System, spurious: bool) {
    && WellSized(g, s.aq) && WellSized(g, s.fq)
    && SERVER in s.aq.locals && SERVER in s.fq.locals
    && match s.server
       case Waiting => Enabled(g, AQ, s.aq, SERVER, BeginDequeue)
       case Taking => Enabled(g, AQ, s.aq, SERVER, Choose(spurious))
       case ReadId(i) => i < |s.slots|
       case ReadData(i, _) => i < |s.slots| && Enabled(g, FQ, s.fq, SERVER, BeginEnqueue(i))
       case Freeing(_, _, _) => Enabled(g, FQ, s.fq, SERVER, Choose(spurious))
       case Gone => false
  }

  // The effect on the system once the ring of the step has become `r'`.

  /** `fq.dequeue` in `try_push`. */
  function PopNext(s: System, tid: Tid, d: Bytes, r': Ring): System
    requires tid in s.fq.locals
  {
    var l := s.fq.locals[tid];
    if l.DeqReturn? then
      s.(fq := r', callers := s.callers[tid := if l.result.Some? then WriteId(l.result.value, d) else Ready])
    else if l.DeqTake? && l.seen.Some? then
      s.(fq := r', owner := s.owner[l.seen.value := WithCaller(tid)])
    else
      s.(fq := r')
  }

  /** `aq.enqueue` in `try_push`. */
  function PushNext(s: System, tid: Tid, i: nat, d: Bytes, r': Ring, installs: bool): System
    requires tid in s.aq.locals && (installs ==> s.aq.locals[tid].EnqCas?)
  {
    var l := s.aq.locals[tid];
    if l.EnqReturn? then
      s.(aq := r', callers := s.callers[tid := Ready])
    else if installs then
      s.(aq := r', owner := s.owner[i := InAlloc(l.t)], pushed := s.pushed[l.t := Slot(tid, d)])
    else
      s.(aq := r')
  }

  /** `aq.dequeue_single_consumer` in `try_pop`. */
  function TakeNext(s: System, r': Ring): System
    requires SERVER in s.aq.locals
  {
    var l := s.aq.locals[SERVER];
    if l.DeqReturn? then
      s.(aq := r', server := if l.result.Some? then ReadId(l.result.value) else Waiting)
    else if l.DeqTake? && l.seen.Some? then
      s.(aq := r', owner := s.owner[l.seen.value := WithServer], current := Some(l.h))
    else
      s.(aq := r')
  }

  /** `fq.enqueue_single_producer` in `try_pop`. */
  function FreeNext(s: System, i: nat, callerId: nat, data: Bytes, r': Ring, installs: bool): System
    requires SERVER in s.fq.locals && (installs ==> s.fq.locals[SERVER].EnqCas?)
  {
    var l := s.fq.locals[SERVER];
    if l.EnqReturn? then
      s.(fq := r', server := Waiting,
         popped := if s.current.Some? then s.popped + [(s.current.value, Slot(callerId, data))] else s.popped)
    else if installs then
      s.(fq := r', owner := s.owner[i := InFree(l.t)])
    else
      s.(fq := r')
  }

  /** `try_push` of a caller. */
  ghost function CallerStep(g: Geometry, s: System, tid: Tid, data: Bytes, spurious: bool): System
    requires CallerEnabled(g, s, tid, spurious)
  {
    match s.callers[tid]
    case Ready =>
      if s.rxAlive then
        s.(fq := Step(g, FQ, s.fq, tid, BeginDequeue), callers := s.callers[tid := Popping(data)])
      else s
    case Popping(d) => PopNext(s, tid, d, Step(g, FQ, s.fq, tid, Choose(spurious)))
    case WriteId(i, d) =>
      s.(slots := s.slots[i := s.slots[i].(callerId := tid)], callers := s.callers[tid := WriteData(i, d)])
    case WriteData(i, d) =>
      s.(slots := s.slots[i := s.slots[i].(data := d)], callers := s.callers[tid := Pushing(i, d)],
         aq := Step(g, AQ, s.aq, tid, BeginEnqueue(i)))
    case Pushing(i, d) =>
      PushNext(s, tid, i, d, Step(g, AQ, s.aq, tid, Choose(spurious)), Installs(g, s.aq, tid, spurious))
  }

  /** `try_pop` of the server. */
  ghost function ServerStep(g: Geometry, s: System, spurious: bool): System
    requires ServerEnabled(g, s, spurious)
  {
    match s.server
    case Waiting => s.(aq := Step(g, AQ, s.aq, SERVER, BeginDequeue), server := Taking)
    case Taking => TakeNext(s, Step(g, AQ, s.aq, SERVER, Choose(spurious)))
    case ReadId(i) => s.(server := ReadData(i, s.slots[i].callerId))
    case ReadData(i, callerId) =>
      s.(server := Freeing(i, callerId, s.slots[i].data), fq := Step(g, FQ, s.fq, SERVER, BeginEnqueue(i)))
    case Freeing(i, callerId, data) =>
      FreeNext(s, i, callerId, data, Step(g, FQ, s.fq, SERVER, Choose(spurious)), Installs(g, s.fq, SERVER, spurious))
  }

  ghost predicate ActionEnabled(g: Geometry, s: System, a: Action) {
    match a
    case CallerAction(tid, _, spurious) => CallerEnabled(g, s, tid, spurious)
    case ServerAction(spurious) => ServerEnabled(g, s, spurious)
    case ServerDrop => s.server.Waiting?
  }

  ghost function Act(g: Geometry, s: System, a: Action): System
    requires ActionEnabled(g, s, a)
  {
    match a
    case CallerAction(tid, data, spurious) => CallerStep(g, s, tid, data, spurious)
    case ServerAction(spurious) => ServerStep(g, s, spurious)
    case ServerDrop => s.(rxAlive := false, server := Gone)
  }

  ghost predicate Start(g: Geometry, half: nat, s: System) {
    && Sound(g) && g.n == 2 * half
    && IsEmptyCore(g, s.aq.core) && Init(g, AQ, s.aq)
    && IsFullCore(g, half, s.fq.core) && Init(g, FQ, s.fq)
    && |s.slots| == half && s.rxAlive
    && s.aq.locals.Keys == s.fq.locals.Keys == s.callers.Keys + {SERVER} && SERVER !in s.callers
    && (forall tid :: tid in s.callers ==> s.callers[tid] == Ready) && s.server == Waiting
    && s.owner == (map x: nat | x in Identity(half) :: InFree(x))
    && s.pushed == map[] && s.current == None && s.popped == []
  }
}
