/** The linked-buffer queue: producers extend a chain of buffers by CAS, step by step. */
module Jiffy {
  import opened Prelude

  type Ptr = nat
  type ProducerId = nat

  datatype Item = Item(caller: nat, token: nat, data: nat)
  datatype Flag = Empty | Set | Handled
  datatype Slot = Slot(flag: Flag, item: Item)
  datatype Buffer = Buffer(start: nat, next: Option<Ptr>, slots: seq<Slot>)

  /**
   * Where a producer is in `enqueue`. From `Hint` to `CasHint` it is in `find_or_create_buffer`:
   * at buffer `cur`, with its own unlinked buffer `spare`, or about to move the hint.
   */
  datatype Local =
    | Idle
    | Begun(item: Item)
    | Hint(pos: nat, item: Item)
    | Walk(pos: nat, item: Item, cur: Ptr)
    | Next(pos: nat, item: Item, cur: Ptr)
    | Link(pos: nat, item: Item, cur: Ptr, spare: Ptr)
    | OldHint(pos: nat, item: Item, cur: Ptr)
    | CasHint(pos: nat, item: Item, cur: Ptr, seen: Ptr)
    | WriteCaller(pos: nat, item: Item, cur: Ptr)
    | WriteToken(pos: nat, item: Item, cur: Ptr)
    | WriteData(pos: nat, item: Item, cur: Ptr)
    | Publish(pos: nat, item: Item, cur: Ptr)
    | Ahead(cur: Ptr)
    | AheadLink(cur: Ptr, spare: Ptr)

  datatype ConsumerPc =
    Ready | Seen | ReadCaller(caller: nat) | ReadToken(caller: nat, token: nat) | ReadAll(item: Item)

  /** History: the buffers linked, what each position was claimed for, which were published, what was dequeued. */
  datatype State = State(
    capacity: nat, heap: map<Ptr, Buffer>, head: Ptr, tail: nat, hint: Ptr,
    producers: map<ProducerId, Local>, readPos: nat, readBuffer: Ptr, consumer: ConsumerPc,
    chain: seq<Ptr>, claimed: seq<(ProducerId, Item)>, published: set<nat>, dequeued: seq<Item>)

  const NO_ITEM := Item(0, 0, 0)

  function NewBuffer(start: nat, capacity: nat): Buffer {
    Buffer(start, None, seq(capacity, _ => Slot(Empty, NO_ITEM)))
  }

  function StartState(capacity: nat, first: Ptr): State {
    State(capacity, map[first := NewBuffer(0, capacity)], first, 0, first, map[], 0, first, Ready, [first], [], {}, [])
  }

  function At(s: State, t: ProducerId): Local {
    if t in s.producers then s.producers[t] else Idle
  }

  function Go(s: State, t: ProducerId, l: Local): State {
    s.(producers := s.producers[t := l])
  }

  predicate Contains(s: State, b: Ptr, pos: nat)
    requires b in s.heap
  {
    s.heap[b].start <= pos < s.heap[b].start + s.capacity
  }

  /** The slot of `pos` in buffer `b`. */
  predicate HasSlot(s: State, b: Ptr, pos: nat) {
    b in s.heap && s.heap[b].start <= pos < s.heap[b].start + |s.heap[b].slots|
  }

  function SlotAt(s: State, b: Ptr, pos: nat): Slot
    requires HasSlot(s, b, pos)
  {
    s.heap[b].slots[pos - s.heap[b].start]
  }

  function SetSlot(s: State, b: Ptr, pos: nat, slot: Slot): State
    requires HasSlot(s, b, pos)
  {
    s.(heap := s.heap[b := s.heap[b].(slots := s.heap[b].slots[pos - s.heap[b].start := slot])])
  }

  /** Links buffer `spare` behind `cur`. */
  function SetNext(s: State, cur: Ptr, spare: Ptr): State
    requires cur in s.heap
  {
    s.(heap := s.heap[cur := s.heap[cur].(next := Some(spare))], chain := s.chain + [spare])
  }

  function Allocate(s: State, spare: Ptr, start: nat): State {
    s.(heap := s.heap[spare := NewBuffer(start, s.capacity)])
  }

  function Drop(s: State, b: Ptr): State {
    s.(heap := s.heap - {b})
  }

  datatype Action =
    | BeginEnqueue(item: Item)
    | ClaimPosition
    | LoadHint
    | CheckBuffer
    | LoadNext(spare: Ptr)
    | CasNext
    | LoadOldHint
    | CasTailBuffer
    | StoreCaller
    | StoreToken
    | StoreData
    | StoreFlag
    | CheckAhead(spare: Ptr)
    | CasAhead
    | ConsumerCheck
    | LoadCaller
    | LoadToken
    | LoadData
    | StoreHandled

  predicate ConsumerAction(a: Action) {
    a.ConsumerCheck? || a.LoadCaller? || a.LoadToken? || a.LoadData? || a.StoreHandled?
  }

  predicate ProducerEnabled(s: State, l: Local, a: Action) {
    match a
    case BeginEnqueue(_) => l.Idle?
    case ClaimPosition => l.Begun?
    case LoadHint => l.Hint? && s.hint in s.heap
    case CheckBuffer => l.Walk? && l.cur in s.heap
    case LoadNext(spare) => l.Next? && l.cur in s.heap && spare !in s.heap
    case CasNext => l.Link? && l.cur in s.heap
    case LoadOldHint => l.OldHint? && l.cur in s.heap && s.hint in s.heap
    case CasTailBuffer => l.CasHint?
    case StoreCaller => l.WriteCaller? && HasSlot(s, l.cur, l.pos)
    case StoreToken => l.WriteToken? && HasSlot(s, l.cur, l.pos)
    case StoreData => l.WriteData? && HasSlot(s, l.cur, l.pos)
    case StoreFlag => l.Publish? && HasSlot(s, l.cur, l.pos)
    case CheckAhead(spare) => l.Ahead? && l.cur in s.heap && spare !in s.heap
    case CasAhead => l.AheadLink? && l.cur in s.heap
    case _ => false
  }

  predicate ConsumerEnabled(s: State, a: Action) {
    && s.readBuffer in s.heap && s.heap[s.readBuffer].start <= s.readPos
    && match a
       case ConsumerCheck => s.consumer.Ready? && |s.heap[s.readBuffer].slots| == s.capacity
       case LoadCaller => s.consumer.Seen? && HasSlot(s, s.readBuffer, s.readPos)
       case LoadToken => s.consumer.ReadCaller? && HasSlot(s, s.readBuffer, s.readPos)
       case LoadData => s.consumer.ReadToken? && HasSlot(s, s.readBuffer, s.readPos)
       case StoreHandled => s.consumer.ReadAll? && HasSlot(s, s.readBuffer, s.readPos)
       case _ => false
  }

  predicate Enabled(s: State, t: ProducerId, a: Action) {
    if ConsumerAction(a) then ConsumerEnabled(s, a) else ProducerEnabled(s, At(s, t), a)
  }

  function ProducerStep(s: State, t: ProducerId, a: Action): State
    requires !ConsumerAction(a) && ProducerEnabled(s, At(s, t), a)
  {
    var l := At(s, t);
    match a
    case BeginEnqueue(item) => Go(s, t, Begun(item))
    case ClaimPosition => Go(s, t, Hint(s.tail, l.item)).(tail := s.tail + 1, claimed := s.claimed + [(t, l.item)])
    case LoadHint => Go(s, t, Walk(l.pos, l.item, if l.pos < s.heap[s.hint].start then s.head else s.hint))
    case CheckBuffer =>
      Go(s, t, if Contains(s, l.cur, l.pos) then OldHint(l.pos, l.item, l.cur) else Next(l.pos, l.item, l.cur))
    case LoadNext(spare) =>
      var b := s.heap[l.cur];
      if b.next.Some? then Go(s, t, Walk(l.pos, l.item, b.next.value))
      else Go(Allocate(s, spare, b.start + s.capacity), t, Link(l.pos, l.item, l.cur, spare))
    case CasNext =>
      var b := s.heap[l.cur];
      if b.next.Some? then Go(Drop(s, l.spare), t, Walk(l.pos, l.item, b.next.value))
      else Go(SetNext(s, l.cur, l.spare), t, Walk(l.pos, l.item, l.spare))
    case LoadOldHint =>
      Go(s, t, if s.heap[s.hint].start < s.heap[l.cur].start then CasHint(l.pos, l.item, l.cur, s.hint)
               else WriteCaller(l.pos, l.item, l.cur))
    case CasTailBuffer =>
      Go(s, t, WriteCaller(l.pos, l.item, l.cur)).(hint := if s.hint == l.seen then l.cur else s.hint)
    case StoreCaller =>
      var slot := SlotAt(s, l.cur, l.pos);
      Go(SetSlot(s, l.cur, l.pos, slot.(item := slot.item.(caller := l.item.caller))), t,
         WriteToken(l.pos, l.item, l.cur))
    case StoreToken =>
      var slot := SlotAt(s, l.cur, l.pos);
      Go(SetSlot(s, l.cur, l.pos, slot.(item := slot.item.(token := l.item.token))), t, WriteData(l.pos, l.item, l.cur))
    case StoreData =>
      var slot := SlotAt(s, l.cur, l.pos);
      Go(SetSlot(s, l.cur, l.pos, slot.(item := slot.item.(data := l.item.data))), t, Publish(l.pos, l.item, l.cur))
    case StoreFlag =>
      var slot := SlotAt(s, l.cur, l.pos);
      Go(SetSlot(s, l.cur, l.pos, slot.(flag := Set)), t,
         if l.pos - s.heap[l.cur].start == 1 then Ahead(l.cur) else Idle)
        .(published := s.published + {l.pos})
    case CheckAhead(spare) =>
      var b := s.heap[l.cur];
      if b.next.Some? then Go(s, t, Idle) else Go(Allocate(s, spare, b.start + s.capacity), t, AheadLink(l.cur, spare))
    case CasAhead =>
      if s.heap[l.cur].next.Some? then Go(Drop(s, l.spare), t, Idle) else Go(SetNext(s, l.cur, l.spare), t, Idle)
  }

  function ConsumerStep(s: State, a: Action): State
    requires ConsumerAction(a) && ConsumerEnabled(s, a)
  {
    match a
    case ConsumerCheck =>
      var b := s.heap[s.readBuffer];
      if s.readPos - b.start >= s.capacity then
        if b.next.Some? then s.(readBuffer := b.next.value) else s
      else if b.slots[s.readPos - b.start].flag.Set? then s.(consumer := Seen)
      else s
    case LoadCaller => s.(consumer := ReadCaller(SlotAt(s, s.readBuffer, s.readPos).item.caller))
    case LoadToken => s.(consumer := ReadToken(s.consumer.caller, SlotAt(s, s.readBuffer, s.readPos).item.token))
    case LoadData =>
      s.(consumer := ReadAll(Item(s.consumer.caller, s.consumer.token, SlotAt(s, s.readBuffer, s.readPos).item.data)))
    case StoreHandled =>
      SetSlot(s, s.readBuffer, s.readPos, SlotAt(s, s.readBuffer, s.readPos).(flag := Handled))
        .(readPos := s.readPos + 1, consumer := Ready, dequeued := s.dequeued + [s.consumer.item])
  }

  function Step(s: State, t: ProducerId, a: Action): State
    requires Enabled(s, t, a)
  {
    if ConsumerAction(a) then ConsumerStep(s, a) else ProducerStep(s, t, a)
  }
}
