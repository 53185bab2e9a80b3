/** The request ring of wcq_cas2: a bitmap of free slots and a ring of filled ones, step by step. */
module WcqCas2 {
  import opened RingPos

  type CallerId = nat
  type Payload = nat

  /** Where a caller is in `try_push`. */
  datatype Local =
    | Idle
    | Scan(word: nat, data: Payload)
    | Loaded(word: nat, val: set<nat>, data: Payload)
    | Got(idx: nat, data: Payload)
    | Named(idx: nat, data: Payload)
    | Filled(idx: nat, data: Payload)
    | Drawn(idx: nat, pos: nat)
    | Claimed(idx: nat, pos: nat)
    | Stored(idx: nat, pos: nat)

  /** Where the server is in `try_pop`. */
  datatype ServerPc =
    | Ready
    | Seen
    | Have(idx: nat)
    | Released(idx: nat)
    | Advanced(idx: nat)
    | ReadCaller(idx: nat, caller: CallerId)
    | ReadData(idx: nat, caller: CallerId, data: Payload)

  /** History: where each slot index is, and what was pushed with each ticket. */
  datatype Owner = Free | Held(caller: CallerId) | Queued(pos: nat) | Serving
  datatype Ticket = Ticket(idx: nat, caller: CallerId, data: Payload)

  /** A bitmap word is the set of its one bits. */
  datatype State = State(
    words: seq<set<nat>>, slots: seq<(CallerId, Payload)>,
    seqs: seq<nat>, values: seq<nat>, head: nat, tail: nat,
    callers: map<CallerId, Local>, server: ServerPc,
    owner: seq<Owner>, tickets: seq<Ticket>, popped: seq<(CallerId, Payload)>)

  function Capacity(s: State): nat {
    |s.seqs|
  }

  predicate Sized(s: State) {
    |s.values| == |s.slots| == |s.owner| == |s.seqs| > 0
  }

  function SlotOf(s: State, pos: nat): (i: nat)
    requires Sized(s)
    ensures i < |s.seqs| == |s.values|
  {
    Offset(pos, Capacity(s))
  }

  function At(s: State, c: CallerId): Local {
    if c in s.callers then s.callers[c] else Idle
  }

  /** The slot index of a bit in the bitmap. */
  function BitIndex(w: nat, b: nat): nat {
    64 * w + b
  }

  /** Bits beyond the capacity start out clear. */
  function FullWord(capacity: nat, w: nat): set<nat> {
    set b: nat | b < 64 && BitIndex(w, b) < capacity
  }

  function Start(capacity: nat): State
    requires capacity > 0
  {
    State(seq((capacity + 63) / 64, w requires w >= 0 => FullWord(capacity, w)), seq(capacity, _ => (0, 0)),
          seq(capacity, i => i), seq(capacity, _ => 0), 0, 0,
          map[], Ready, seq(capacity, _ => Free), [], [])
  }

  datatype Action =
    | BeginPush(data: Payload)
    | LoadWord
    | NextWord
    | CasFails
    | CasSucceeds(bit: nat)
    | StoreCaller
    | StoreData
    | DrawTicket
    | LoadSeq
    | StoreValue
    | StoreSeq
    | LoadSeqServer
    | LoadValue
    | ReleaseSlot
    | StoreTail
    | LoadCaller
    | LoadData
    | FreeSlot

  predicate ServerAction(a: Action) {
    a.LoadSeqServer? || a.LoadValue? || a.ReleaseSlot? || a.StoreTail? || a.LoadCaller? || a.LoadData? || a.FreeSlot?
  }

  /** `trailing_zeros` of a word. */
  predicate Lowest(val: set<nat>, bit: nat) {
    bit in val && forall b :: b in val ==> bit <= b
  }

  predicate CallerEnabled(s: State, l: Local, a: Action) {
    match a
    case BeginPush(_) => l.Idle?
    case LoadWord => l.Scan? && l.word < |s.words|
    case NextWord =>
      l.Loaded? &&
      (l.val == {} || exists b :: b in l.val && Lowest(l.val, b) && BitIndex(l.word, b) >= Capacity(s))
    case CasFails => l.Loaded? && l.word < |s.words|
    case CasSucceeds(bit) =>
      l.Loaded? && Lowest(l.val, bit) && BitIndex(l.word, bit) < Capacity(s) && l.word < |s.words| &&
      s.words[l.word] == l.val
    case StoreCaller => l.Got? && l.idx < |s.slots|
    case StoreData => l.Named? && l.idx < |s.slots|
    case DrawTicket => l.Filled? && l.idx < |s.slots|
    case LoadSeq => l.Drawn?
    case StoreValue => l.Claimed?
    case StoreSeq => l.Stored?
    case _ => false
  }

  predicate ServerEnabled(s: State, a: Action) {
    match a
    case LoadSeqServer => s.server.Ready?
    case LoadValue => s.server.Seen?
    case ReleaseSlot => s.server.Have? && s.server.idx < |s.slots|
    case StoreTail => s.server.Released?
    case LoadCaller => s.server.Advanced? && s.server.idx < |s.slots|
    case LoadData => s.server.ReadCaller? && s.server.idx < |s.slots|
    case FreeSlot => s.server.ReadData? && s.server.idx < |s.slots| && s.server.idx / 64 < |s.words|
    case _ => false
  }

  predicate Enabled(s: State, c: CallerId, a: Action) {
    Sized(s) && if ServerAction(a) then ServerEnabled(s, a) else CallerEnabled(s, At(s, c), a)
  }

  function Go(s: State, c: CallerId, l: Local): State {
    s.(callers := s.callers[c := l])
  }

  function CallerStep(s: State, c: CallerId, a: Action): State
    requires Sized(s) && !ServerAction(a) && CallerEnabled(s, At(s, c), a)
  {
    var l := At(s, c);
    match a
    case BeginPush(data) => Go(s, c, Scan(0, data))
    case LoadWord => Go(s, c, Loaded(l.word, s.words[l.word], l.data))
    case NextWord => Go(s, c, if l.word + 1 < |s.words| then Scan(l.word + 1, l.data) else Idle)
    case CasFails => Go(s, c, Loaded(l.word, s.words[l.word], l.data))
    case CasSucceeds(bit) =>
      var idx := BitIndex(l.word, bit);
      Go(s, c, Got(idx, l.data)).(words := s.words[l.word := s.words[l.word] - {bit}], owner := s.owner[idx := Held(c)])
    case StoreCaller => Go(s, c, Named(l.idx, l.data)).(slots := s.slots[l.idx := (c, s.slots[l.idx].1)])
    case StoreData => Go(s, c, Filled(l.idx, l.data)).(slots := s.slots[l.idx := (s.slots[l.idx].0, l.data)])
    case DrawTicket =>
      Go(s, c, Drawn(l.idx, s.head)).(head := s.head + 1,
        tickets := s.tickets + [Ticket(l.idx, c, l.data)], owner := s.owner[l.idx := Queued(s.head)])
    case LoadSeq => if s.seqs[SlotOf(s, l.pos)] == l.pos then Go(s, c, Claimed(l.idx, l.pos)) else s
    case StoreValue => Go(s, c, Stored(l.idx, l.pos)).(values := s.values[SlotOf(s, l.pos) := l.idx])
    case StoreSeq => Go(s, c, Idle).(seqs := s.seqs[SlotOf(s, l.pos) := l.pos + 1])
  }

  function ServerStep(s: State, a: Action): State
    requires Sized(s) && ServerAction(a) && ServerEnabled(s, a)
  {
    match a
    case LoadSeqServer => if s.seqs[SlotOf(s, s.tail)] == s.tail + 1 then s.(server := Seen) else s
    case LoadValue => s.(server := Have(s.values[SlotOf(s, s.tail)]))
    case ReleaseSlot =>
      s.(seqs := s.seqs[SlotOf(s, s.tail) := s.tail + Capacity(s)],
         owner := s.owner[s.server.idx := Serving], server := Released(s.server.idx))
    case StoreTail => s.(tail := s.tail + 1, server := Advanced(s.server.idx))
    case LoadCaller => s.(server := ReadCaller(s.server.idx, s.slots[s.server.idx].0))
    case LoadData => s.(server := ReadData(s.server.idx, s.server.caller, s.slots[s.server.idx].1))
    case FreeSlot =>
      var w, b := s.server.idx / 64, s.server.idx % 64;
      s.(words := s.words[w := s.words[w] + {b}], owner := s.owner[s.server.idx := Free],
         popped := s.popped + [(s.server.caller, s.server.data)], server := Ready)
  }

  function Step(s: State, c: CallerId, a: Action): State
    requires Enabled(s, c, a)
  {
    if ServerAction(a) then ServerStep(s, a) else CallerStep(s, c, a)
  }
}
