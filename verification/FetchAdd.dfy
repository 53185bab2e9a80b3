/** The fetch-add request ring with its tokens, while the receiver lives, step by step. */
module FetchAdd {
  import opened RingPos

  type CallerId = nat
  type Payload = nat

  /** Where a caller is in `call`: `Pushed` is back from `try_push`. */
  datatype Local =
    | Idle
    | Begun(data: Payload)
    | Drawn(pos: nat, data: Payload)
    | Claimed(pos: nat, data: Payload)
    | Named(pos: nat, data: Payload)
    | Filled(pos: nat, data: Payload)
    | Pushed(pos: nat, data: Payload)

  /** Where the server is in `try_recv`: `Popped` is back from `try_pop`. */
  datatype ServerPc =
    | Ready
    | Seen
    | ReadCaller(caller: CallerId)
    | ReadData(caller: CallerId, data: Payload)
    | Released(caller: CallerId, data: Payload)
    | Popped(caller: CallerId, data: Payload)

  datatype Ticket = Ticket(caller: CallerId, data: Payload)

  /** A request as the server hands it out, with the token for the reply. */
  datatype Received = Received(caller: CallerId, data: Payload, token: nat)

  /**
   * History: what was pushed with each ticket, the token that `call` returned for it, and what
   * the server received.
   */
  datatype State = State(
    seqs: seq<nat>, slots: seq<(CallerId, Payload)>, head: nat, tail: nat,
    callers: map<CallerId, Local>, sendCounts: map<CallerId, nat>,
    server: ServerPc, recvCounts: map<CallerId, nat>,
    tickets: seq<Ticket>, returned: map<nat, nat>, received: seq<Received>)

  function Capacity(s: State): nat {
    |s.seqs|
  }

  predicate Sized(s: State) {
    |s.slots| == |s.seqs| > 0
  }

  function SlotOf(s: State, pos: nat): (i: nat)
    requires Sized(s)
    ensures i < |s.seqs| == |s.slots|
  {
    Offset(pos, Capacity(s))
  }

  function At(s: State, c: CallerId): Local {
    if c in s.callers then s.callers[c] else Idle
  }

  function CountOf(counts: map<CallerId, nat>, c: CallerId): nat {
    if c in counts then counts[c] else 0
  }

  function Start(capacity: nat): State
    requires capacity > 0
  {
    State(seq(capacity, i => i), seq(capacity, _ => (0, 0)), 0, 0, map[], map[], Ready, map[], [], map[], [])
  }

  datatype Action =
    | BeginCall(data: Payload)
    | DrawTicket
    | LoadSeq
    | StoreCaller
    | StoreData
    | StoreSeq
    | ReturnToken
    | LoadSeqServer
    | LoadCaller
    | LoadData
    | ReleaseSlot
    | StoreTail
    | TakeToken

  predicate ServerAction(a: Action) {
    a.LoadSeqServer? || a.LoadCaller? || a.LoadData? || a.ReleaseSlot? || a.StoreTail? || a.TakeToken?
  }

  predicate Enabled(s: State, c: CallerId, a: Action) {
    && Sized(s)
    && var l := At(s, c);
       match a
       case BeginCall(_) => l.Idle?
       case DrawTicket => l.Begun?
       case LoadSeq => l.Drawn?
       case StoreCaller => l.Claimed?
       case StoreData => l.Named?
       case StoreSeq => l.Filled?
       case ReturnToken => l.Pushed?
       case LoadSeqServer => s.server.Ready?
       case LoadCaller => s.server.Seen?
       case LoadData => s.server.ReadCaller?
       case ReleaseSlot => s.server.ReadData?
       case StoreTail => s.server.Released?
       case TakeToken => s.server.Popped?
  }

  function Go(s: State, c: CallerId, l: Local): State {
    s.(callers := s.callers[c := l])
  }

  function Step(s: State, c: CallerId, a: Action): State
    requires Enabled(s, c, a)
  {
    var l := At(s, c);
    match a
    case BeginCall(data) => Go(s, c, Begun(data))
    case DrawTicket =>
      Go(s, c, Drawn(s.head, l.data)).(head := s.head + 1, tickets := s.tickets + [Ticket(c, l.data)])
    case LoadSeq => if s.seqs[SlotOf(s, l.pos)] == l.pos then Go(s, c, Claimed(l.pos, l.data)) else s
    case StoreCaller =>
      var i := SlotOf(s, l.pos);
      Go(s, c, Named(l.pos, l.data)).(slots := s.slots[i := (c, s.slots[i].1)])
    case StoreData =>
      var i := SlotOf(s, l.pos);
      Go(s, c, Filled(l.pos, l.data)).(slots := s.slots[i := (s.slots[i].0, l.data)])
    case StoreSeq => Go(s, c, Pushed(l.pos, l.data)).(seqs := s.seqs[SlotOf(s, l.pos) := l.pos + 1])
    case ReturnToken =>
      var token := CountOf(s.sendCounts, c);
      Go(s, c, Idle).(sendCounts := s.sendCounts[c := token + 1], returned := s.returned[l.pos := token])
    case LoadSeqServer => if s.seqs[SlotOf(s, s.tail)] == s.tail + 1 then s.(server := Seen) else s
    case LoadCaller => s.(server := ReadCaller(s.slots[SlotOf(s, s.tail)].0))
    case LoadData => s.(server := ReadData(s.server.caller, s.slots[SlotOf(s, s.tail)].1))
    case ReleaseSlot =>
      s.(seqs := s.seqs[SlotOf(s, s.tail) := s.tail + Capacity(s)], server := Released(s.server.caller, s.server.data))
    case StoreTail => s.(tail := s.tail + 1, server := Popped(s.server.caller, s.server.data))
    case TakeToken =>
      var d := s.server.caller;
      var token := CountOf(s.recvCounts, d);
      s.(recvCounts := s.recvCounts[d := token + 1], server := Ready,
         received := s.received + [Received(d, s.server.data, token)])
  }
}
