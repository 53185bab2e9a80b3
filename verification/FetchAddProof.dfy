/** FIFO order, exclusive slots and matching tokens of the fetch-add request ring. */
module FetchAddProof {
  import opened RingPos
  import opened FetchAdd

  /** The first position whose slot the server has not released. */
  function Base(s: State): nat {
    s.tail + if s.server.Released? then 1 else 0
  }

  /** How many of the first `n` tickets are of caller `c`: the token of its next one. */
  function Before(tickets: seq<Ticket>, n: nat, c: CallerId): nat
    requires n <= |tickets|
  {
    if n == 0 then 0 else Before(tickets, n - 1, c) + if tickets[n - 1].caller == c then 1 else 0
  }

  lemma {:induction false} BeforeExtends(tickets: seq<Ticket>, t: Ticket, n: nat, c: CallerId)
    requires n <= |tickets|
    ensures Before(tickets + [t], n, c) == Before(tickets, n, c)
  {
    if n > 0 {
      BeforeExtends(tickets, t, n - 1, c);
    }
  }

  predicate InRing(l: Local) {
    l.Drawn? || OwnsSlot(l)
  }

  predicate OwnsSlot(l: Local) {
    l.Claimed? || l.Named? || l.Filled?
  }

  predicate HasTicket(l: Local) {
    InRing(l) || l.Pushed?
  }

  /** The ticket is still with its caller. */
  predicate Waiting(s: State, p: nat)
    requires p < |s.tickets|
  {
    InRing(At(s, s.tickets[p].caller)) && At(s, s.tickets[p].caller).pos == p
  }

  /** The ring slot of `q` in the current round. */
  predicate SlotOk(s: State, q: nat)
    requires Sized(s) && |s.tickets| == s.head
  {
    && (s.seqs[SlotOf(s, q)] == q
        || (s.seqs[SlotOf(s, q)] == q + 1 && q < s.head
            && s.slots[SlotOf(s, q)] == (s.tickets[q].caller, s.tickets[q].data)))
    && (q < s.head && s.seqs[SlotOf(s, q)] == q ==> Waiting(s, q))
  }

  predicate InRound(s: State, q: nat) {
    Base(s) <= q < Base(s) + Capacity(s)
  }

  ghost predicate Slots(s: State)
    requires Sized(s) && |s.tickets| == s.head
  {
    && (forall q: nat {:trigger SlotOk(s, q)} :: InRound(s, q) ==> SlotOk(s, q))
    && (forall p: nat {:trigger Waiting(s, p)} :: Base(s) + Capacity(s) <= p < s.head ==> Waiting(s, p))
  }

  predicate CallerOk(s: State, c: CallerId)
    requires Sized(s) && |s.tickets| == s.head
  {
    var l := At(s, c);
    && (HasTicket(l) ==> l.pos < s.head && s.tickets[l.pos] == Ticket(c, l.data))
    && (InRing(l) ==> Base(s) <= l.pos && (InRound(s, l.pos) ==> s.seqs[SlotOf(s, l.pos)] == l.pos))
    && (OwnsSlot(l) ==> InRound(s, l.pos))
    && (l.Named? ==> s.slots[SlotOf(s, l.pos)].0 == c)
    && (l.Filled? ==> s.slots[SlotOf(s, l.pos)] == (c, l.data))
  }

  ghost predicate Callers(s: State)
    requires Sized(s) && |s.tickets| == s.head
  {
    forall c: CallerId {:trigger CallerOk(s, c)} :: CallerOk(s, c)
  }

  predicate ServerOk(s: State)
    requires Sized(s) && |s.tickets| == s.head
  {
    && Base(s) <= s.head
    && (s.server.Seen? || s.server.ReadCaller? || s.server.ReadData? ==>
          s.tail < s.head && s.seqs[SlotOf(s, s.tail)] == s.tail + 1)
    && (s.server.ReadCaller? ==> s.server.caller == s.tickets[s.tail].caller)
    && (s.server.ReadData? || s.server.Released? ==>
          s.tail < s.head && Ticket(s.server.caller, s.server.data) == s.tickets[s.tail])
    && (s.server.Popped? ==> 0 < s.tail <= s.head && Ticket(s.server.caller, s.server.data) == s.tickets[s.tail - 1])
  }

  /** With a single slot, a published ticket looks like the next one's turn; so there must be two. */
  ghost predicate Ring(s: State) {
    Sized(s) && Capacity(s) > 1 && |s.tickets| == s.head && Slots(s) && Callers(s) && ServerOk(s)
  }

  // Tokens.

  predicate SendOk(s: State, c: CallerId)
    requires |s.tickets| == s.head
  {
    && CountOf(s.sendCounts, c) + (if HasTicket(At(s, c)) then 1 else 0) == Before(s.tickets, s.head, c)
    && (HasTicket(At(s, c)) ==> At(s, c).pos < s.head && Before(s.tickets, At(s, c).pos, c) == CountOf(s.sendCounts, c))
  }

  predicate TokenOk(s: State, p: nat)
    requires p in s.returned && |s.tickets| == s.head
  {
    p < s.head && s.returned[p] == Before(s.tickets, p, s.tickets[p].caller)
  }

  predicate ReceivedOk(s: State, j: nat)
    requires j < |s.received| <= |s.tickets|
  {
    s.received[j] == Received(s.tickets[j].caller, s.tickets[j].data, Before(s.tickets, j, s.tickets[j].caller))
  }

  ghost predicate Tokens(s: State) {
    && |s.tickets| == s.head && |s.received| + (if s.server.Popped? then 1 else 0) == s.tail <= s.head
    && (forall c: CallerId {:trigger SendOk(s, c)} :: SendOk(s, c))
    && (forall c: CallerId {:trigger CountOf(s.recvCounts, c)} ::
          CountOf(s.recvCounts, c) == Before(s.tickets, |s.received|, c))
    && (forall p {:trigger TokenOk(s, p)} :: p in s.returned ==> TokenOk(s, p))
    && (forall j {:trigger ReceivedOk(s, j)} :: 0 <= j < |s.received| ==> ReceivedOk(s, j))
  }

  ghost predicate Inv(s: State) {
    Ring(s) && Tokens(s)
  }

  // The ring: steps of a caller.

  /** Only the place of caller `c` changes, and it keeps its ticket, if it has one. */
  lemma LocalMoveKeeps(s: State, c: CallerId, l: Local)
    requires Ring(s) && CallerOk(Go(s, c, l), c)
    requires InRing(At(s, c)) ==> InRing(l) && l.pos == At(s, c).pos
    ensures Ring(Go(s, c, l))
  {
    var s' := Go(s, c, l);
    forall q: nat | InRound(s', q) ensures SlotOk(s', q) {
      assert SlotOk(s, q);
    }
    forall p: nat | Base(s') + Capacity(s) <= p < s'.head ensures Waiting(s', p) {
      assert p < s.head ==> Waiting(s, p);
    }
    forall d: CallerId ensures CallerOk(s', d) {
      if d != c {
        assert CallerOk(s, d);
      }
    }
  }

  lemma DrawTicketKeeps(s: State, c: CallerId)
    requires Ring(s) && Enabled(s, c, DrawTicket)
    ensures Ring(Step(s, c, DrawTicket))
  {
    var s' := Step(s, c, DrawTicket);
    forall q: nat | InRound(s', q) ensures SlotOk(s', q) {
      assert SlotOk(s, q);
    }
    forall p: nat | Base(s') + Capacity(s) <= p < s'.head ensures Waiting(s', p) {
      assert p < s.head ==> Waiting(s, p);
    }
    forall d: CallerId ensures CallerOk(s', d) {
      assert CallerOk(s, d);
      if d == c && InRound(s, s.head) {
        assert SlotOk(s, s.head);
      }
    }
  }

  lemma WriteSlotCallers(s: State, c: CallerId, l: Local, slot: (CallerId, Payload), s': State)
    requires Ring(s) && OwnsSlot(At(s, c)) && OwnsSlot(l) && l.pos == At(s, c).pos && l.data == At(s, c).data
    requires (l.Named? ==> slot.0 == c) && (l.Filled? ==> slot == (c, l.data))
    requires s' == Go(s, c, l).(slots := s.slots[SlotOf(s, l.pos) := slot])
    ensures Callers(s')
  {
    assert CallerOk(s, c);
    forall d: CallerId ensures CallerOk(s', d) {
      assert CallerOk(s, d);
      if d != c && OwnsSlot(At(s, d)) {
        OffsetApart(At(s, d).pos, l.pos, Capacity(s));
      }
    }
  }

  /** The owner of a ring slot writes to it. */
  lemma WriteSlotKeeps(s: State, c: CallerId, l: Local, slot: (CallerId, Payload))
    requires Ring(s) && OwnsSlot(At(s, c)) && OwnsSlot(l) && l.pos == At(s, c).pos && l.data == At(s, c).data
    requires (l.Named? ==> slot.0 == c) && (l.Filled? ==> slot == (c, l.data))
    ensures Ring(Go(s, c, l).(slots := s.slots[SlotOf(s, l.pos) := slot]))
  {
    var s' := Go(s, c, l).(slots := s.slots[SlotOf(s, l.pos) := slot]);
    assert CallerOk(s, c);
    forall q: nat | InRound(s', q) ensures SlotOk(s', q) {
      assert SlotOk(s, q);
      if q != l.pos {
        OffsetApart(q, l.pos, Capacity(s));
      }
    }
    forall p: nat | Base(s') + Capacity(s) <= p < s'.head ensures Waiting(s', p) {
      assert Waiting(s, p);
    }
    WriteSlotCallers(s, c, l, slot, s');
  }

  lemma StoreSeqCallers(s: State, c: CallerId, s': State)
    requires Ring(s) && Enabled(s, c, StoreSeq) && s' == Step(s, c, StoreSeq)
    ensures Callers(s')
  {
    var l := At(s, c);
    assert CallerOk(s, c);
    forall d: CallerId ensures CallerOk(s', d) {
      assert CallerOk(s, d);
      if d != c && InRing(At(s, d)) && InRound(s, At(s, d).pos) {
        OffsetApart(At(s, d).pos, l.pos, Capacity(s));
      }
    }
  }

  lemma StoreSeqKeeps(s: State, c: CallerId)
    requires Ring(s) && Enabled(s, c, StoreSeq)
    ensures Ring(Step(s, c, StoreSeq))
  {
    var s', l := Step(s, c, StoreSeq), At(s, c);
    assert CallerOk(s, c);
    if s.tail != l.pos && !s.server.Released? {
      OffsetApart(s.tail, l.pos, Capacity(s));
    }
    forall q: nat | InRound(s', q) ensures SlotOk(s', q) {
      assert SlotOk(s, q);
      if q != l.pos {
        OffsetApart(q, l.pos, Capacity(s));
      }
    }
    forall p: nat | Base(s') + Capacity(s) <= p < s'.head ensures Waiting(s', p) {
      assert Waiting(s, p);
    }
    StoreSeqCallers(s, c, s');
  }

  // The ring: steps of the server.

  lemma ServerMoveKeeps(s: State, s': State)
    requires Ring(s)
    requires s' == s.(server := s'.server, tail := s'.tail, recvCounts := s'.recvCounts, received := s'.received)
    requires Base(s') == Base(s) && ServerOk(s')
    ensures Ring(s')
  {
    forall q: nat | InRound(s', q) ensures SlotOk(s', q) {
      assert SlotOk(s, q);
    }
    forall p: nat | Base(s') + Capacity(s) <= p < s'.head ensures Waiting(s', p) {
      assert p < s.head ==> Waiting(s, p);
    }
    forall d: CallerId ensures CallerOk(s', d) {
      assert CallerOk(s, d);
    }
  }

  lemma LoadSeqServerKeeps(s: State, c: CallerId)
    requires Ring(s) && Enabled(s, c, LoadSeqServer)
    ensures Ring(Step(s, c, LoadSeqServer))
  {
    assert SlotOk(s, s.tail);
    ServerMoveKeeps(s, Step(s, c, LoadSeqServer));
  }

  lemma LoadKeeps(s: State, c: CallerId, a: Action)
    requires Ring(s) && Enabled(s, c, a) && (a.LoadCaller? || a.LoadData?)
    ensures Ring(Step(s, c, a))
  {
    assert SlotOk(s, s.tail);
    ServerMoveKeeps(s, Step(s, c, a));
  }

  lemma ReleaseCallers(s: State, c: CallerId, s': State)
    requires Ring(s) && Enabled(s, c, ReleaseSlot) && s' == Step(s, c, ReleaseSlot)
    ensures Callers(s')
  {
    OffsetPeriodic(s.tail, Capacity(s));
    forall d: CallerId ensures CallerOk(s', d) {
      assert CallerOk(s, d);
      if InRing(At(s, d)) && InRound(s, At(s, d).pos) {
        OffsetApart(At(s, d).pos, s.tail, Capacity(s));
      }
    }
  }

  /** A released slot waits for the ticket one round later. */
  lemma ReleaseKeeps(s: State, c: CallerId)
    requires Ring(s) && Enabled(s, c, ReleaseSlot)
    ensures Ring(Step(s, c, ReleaseSlot))
  {
    var s' := Step(s, c, ReleaseSlot);
    OffsetPeriodic(s.tail, Capacity(s));
    forall q: nat | InRound(s', q) ensures SlotOk(s', q) {
      if q != s.tail + Capacity(s) {
        assert SlotOk(s, q);
        OffsetApart(q, s.tail, Capacity(s));
      } else if q < s.head {
        assert Waiting(s, q);
      }
    }
    forall p: nat | Base(s') + Capacity(s) <= p < s'.head ensures Waiting(s', p) {
      assert Waiting(s, p);
    }
    ReleaseCallers(s, c, s');
  }

  lemma RingKeeps(s: State, c: CallerId, a: Action)
    requires Ring(s) && Enabled(s, c, a)
    ensures Ring(Step(s, c, a))
  {
    var l := At(s, c);
    match a
    case BeginCall(data) => LocalMoveKeeps(s, c, Begun(data));
    case DrawTicket => DrawTicketKeeps(s, c);
    case LoadSeq =>
      assert CallerOk(s, c);
      if s.seqs[SlotOf(s, l.pos)] == l.pos {
        ReadyInRound(s, c);
        LocalMoveKeeps(s, c, Claimed(l.pos, l.data));
      }
    case StoreCaller => WriteSlotKeeps(s, c, Named(l.pos, l.data), (c, s.slots[SlotOf(s, l.pos)].1));
    case StoreData =>
      assert CallerOk(s, c);
      WriteSlotKeeps(s, c, Filled(l.pos, l.data), (s.slots[SlotOf(s, l.pos)].0, l.data));
    case StoreSeq => StoreSeqKeeps(s, c);
    case ReturnToken => ReturnKeeps(s, c);
    case LoadSeqServer => LoadSeqServerKeeps(s, c);
    case LoadCaller => LoadKeeps(s, c, a);
    case LoadData => LoadKeeps(s, c, a);
    case ReleaseSlot => ReleaseKeeps(s, c);
    case StoreTail => ServerMoveKeeps(s, Step(s, c, a));
    case TakeToken => ServerMoveKeeps(s, Step(s, c, a));
  }

  /** A slot that shows a ticket's own position is in that ticket's round. */
  lemma ReadyInRound(s: State, c: CallerId)
    requires Ring(s) && At(s, c).Drawn? && s.seqs[SlotOf(s, At(s, c).pos)] == At(s, c).pos
    ensures InRound(s, At(s, c).pos)
  {
    var p, n := At(s, c).pos, Capacity(s);
    assert CallerOk(s, c);
    var q := RoundPosition(p, Base(s), n);
    assert SlotOk(s, q);
  }

  /** The position of the current round that shares its slot with `p`. */
  lemma {:induction false} RoundPosition(p: nat, base: nat, n: nat) returns (q: nat)
    requires n > 0 && base <= p
    ensures base <= q < base + n && (q == p || q + n <= p) && Offset(q, n) == Offset(p, n)
    decreases p
  {
    if p < base + n {
      q := p;
    } else {
      q := RoundPosition(p - n, base, n);
      OffsetPeriodic(p - n, n);
    }
  }

  lemma ReturnKeeps(s: State, c: CallerId)
    requires Ring(s) && Enabled(s, c, ReturnToken)
    ensures Ring(Step(s, c, ReturnToken))
  {
    LocalMoveKeeps(s, c, Idle);
    CountsIrrelevant(Go(s, c, Idle), Step(s, c, ReturnToken));
  }

  lemma CountsIrrelevant(s: State, s': State)
    requires Ring(s) && s' == s.(sendCounts := s'.sendCounts, returned := s'.returned)
    ensures Ring(s')
  {
    forall q: nat | InRound(s', q) ensures SlotOk(s', q) {
      assert SlotOk(s, q);
    }
    forall p: nat | Base(s') + Capacity(s) <= p < s'.head ensures Waiting(s', p) {
      assert Waiting(s, p);
    }
    forall d: CallerId ensures CallerOk(s', d) {
      assert CallerOk(s, d);
    }
  }

  // Tokens: the steps that matter.

  lemma DrawTokens(s: State, c: CallerId)
    requires Ring(s) && Tokens(s) && Enabled(s, c, DrawTicket)
    ensures Tokens(Step(s, c, DrawTicket))
  {
    var s', t := Step(s, c, DrawTicket), Ticket(c, At(s, c).data);
    forall d: CallerId ensures SendOk(s', d) {
      assert SendOk(s, d) && CallerOk(s, d);
      BeforeExtends(s.tickets, t, s.head, d);
      if HasTicket(At(s, d)) {
        BeforeExtends(s.tickets, t, At(s, d).pos, d);
      }
    }
    forall d: CallerId ensures CountOf(s'.recvCounts, d) == Before(s'.tickets, |s.received|, d) {
      BeforeExtends(s.tickets, t, |s.received|, d);
    }
    forall p | p in s'.returned ensures TokenOk(s', p) {
      assert TokenOk(s, p);
      BeforeExtends(s.tickets, t, p, s.tickets[p].caller);
    }
    forall j | 0 <= j < |s'.received| ensures ReceivedOk(s', j) {
      assert ReceivedOk(s, j);
      BeforeExtends(s.tickets, t, j, s.tickets[j].caller);
    }
  }

  lemma ReturnTokens(s: State, c: CallerId)
    requires Ring(s) && Tokens(s) && Enabled(s, c, ReturnToken)
    ensures Tokens(Step(s, c, ReturnToken))
  {
    var s' := Step(s, c, ReturnToken);
    assert SendOk(s, c) && CallerOk(s, c);
    forall d: CallerId ensures SendOk(s', d) {
      assert SendOk(s, d);
    }
    forall p | p in s'.returned ensures TokenOk(s', p) {
      if p != At(s, c).pos {
        assert TokenOk(s, p);
      }
    }
    forall j | 0 <= j < |s'.received| ensures ReceivedOk(s', j) {
      assert ReceivedOk(s, j);
    }
  }

  lemma TakeTokens(s: State, c: CallerId)
    requires Ring(s) && Tokens(s) && Enabled(s, c, TakeToken)
    ensures Tokens(Step(s, c, TakeToken))
  {
    var s', n := Step(s, c, TakeToken), |s.received|;
    forall d: CallerId ensures SendOk(s', d) {
      assert SendOk(s, d);
    }
    forall d: CallerId ensures CountOf(s'.recvCounts, d) == Before(s'.tickets, n + 1, d) {
      assert CountOf(s.recvCounts, d) == Before(s.tickets, n, d);
    }
    forall p | p in s'.returned ensures TokenOk(s', p) {
      assert TokenOk(s, p);
    }
    forall j | 0 <= j < |s'.received| ensures ReceivedOk(s', j) {
      if j < n {
        assert ReceivedOk(s, j);
      }
    }
  }

  /** A step that leaves counts and tickets alone, and who has which ticket. */
  lemma TokensFrame(s: State, s': State, c: CallerId)
    requires Tokens(s) && |s.received| + (if s'.server.Popped? then 1 else 0) == s'.tail <= s.head
    requires s' == s.(callers := s'.callers, seqs := s'.seqs, slots := s'.slots, server := s'.server, tail := s'.tail)
    requires forall d: CallerId :: d != c ==> At(s', d) == At(s, d)
    requires HasTicket(At(s', c)) == HasTicket(At(s, c)) && (HasTicket(At(s, c)) ==> At(s', c).pos == At(s, c).pos)
    ensures Tokens(s')
  {
    forall d: CallerId ensures SendOk(s', d) {
      assert SendOk(s, d);
    }
    forall p | p in s'.returned ensures TokenOk(s', p) {
      assert TokenOk(s, p);
    }
    forall j | 0 <= j < |s'.received| ensures ReceivedOk(s', j) {
      assert ReceivedOk(s, j);
    }
  }

  lemma OtherTokens(s: State, c: CallerId, a: Action)
    requires Ring(s) && Tokens(s) && Enabled(s, c, a) && !a.DrawTicket? && !a.ReturnToken? && !a.TakeToken?
    ensures Tokens(Step(s, c, a))
  {
    TokensFrame(s, Step(s, c, a), c);
  }

  // Runs.

  predicate IsRun(capacity: nat, run: seq<State>, moves: seq<(CallerId, Action)>) {
    && capacity > 0 && |run| == |moves| + 1 && run[0] == Start(capacity)
    && forall i :: 0 <= i < |moves| ==>
         Enabled(run[i], moves[i].0, moves[i].1) && run[i + 1] == Step(run[i], moves[i].0, moves[i].1)
  }

  lemma StartInv(capacity: nat)
    requires capacity > 1
    ensures Inv(Start(capacity))
  {
    var s := Start(capacity);
    forall q: nat | q < capacity ensures SlotOk(s, q) {
      OffsetSmall(q, capacity);
    }
  }

  lemma StepKeeps(s: State, c: CallerId, a: Action)
    requires Inv(s) && Enabled(s, c, a)
    ensures Inv(Step(s, c, a))
  {
    RingKeeps(s, c, a);
    match a
    case DrawTicket => DrawTokens(s, c);
    case ReturnToken => ReturnTokens(s, c);
    case TakeToken => TakeTokens(s, c);
    case _ => OtherTokens(s, c, a);
  }

  lemma {:induction false} RunInv(capacity: nat, run: seq<State>, moves: seq<(CallerId, Action)>, k: nat)
    requires IsRun(capacity, run, moves) && capacity > 1 && k < |run|
    ensures Inv(run[k])
  {
    if k == 0 {
      StartInv(capacity);
    } else {
      RunInv(capacity, run, moves, k - 1);
      StepKeeps(run[k - 1], moves[k - 1].0, moves[k - 1].1);
    }
  }

  /** What was received is what was pushed, ticket by ticket. */
  predicate InOrder(s: State) {
    && |s.received| <= |s.tickets|
    && forall j :: 0 <= j < |s.received| ==>
         s.received[j].caller == s.tickets[j].caller && s.received[j].data == s.tickets[j].data
  }

  /** Requests are received in ticket order, each with the caller and the data of its ticket. */
  lemma ReceivesInOrder(capacity: nat, run: seq<State>, moves: seq<(CallerId, Action)>, k: nat)
    requires IsRun(capacity, run, moves) && capacity > 1 && k < |run|
    ensures InOrder(run[k])
  {
    RunInv(capacity, run, moves, k);
    var s := run[k];
    forall j | 0 <= j < |s.received|
      ensures s.received[j].caller == s.tickets[j].caller && s.received[j].data == s.tickets[j].data
    {
      assert ReceivedOk(s, j);
    }
  }

  /** The token with which the server replies is the one that `call` returned for that request. */
  lemma TokensMatch(capacity: nat, run: seq<State>, moves: seq<(CallerId, Action)>, k: nat, j: nat)
    requires IsRun(capacity, run, moves) && capacity > 1 && k < |run| && j < |run[k].received| && j in run[k].returned
    ensures run[k].received[j].token == run[k].returned[j]
  {
    RunInv(capacity, run, moves, k);
    assert ReceivedOk(run[k], j) && TokenOk(run[k], j);
  }

  predicate ServerReads(pc: ServerPc) {
    pc.Seen? || pc.ReadCaller? || pc.ReadData?
  }

  /** A ring slot is accessible to one caller at a time, or to the server. */
  lemma SlotsAreExclusive(capacity: nat, run: seq<State>, moves: seq<(CallerId, Action)>, k: nat, c: CallerId,
                          d: CallerId)
    requires IsRun(capacity, run, moves) && capacity > 1 && k < |run| && OwnsSlot(At(run[k], c))
    ensures var s := run[k];
            && Sized(s)
            && (c != d && OwnsSlot(At(s, d)) ==> SlotOf(s, At(s, c).pos) != SlotOf(s, At(s, d).pos))
            && (ServerReads(s.server) ==> SlotOf(s, At(s, c).pos) != SlotOf(s, s.tail))
  {
    RunInv(capacity, run, moves, k);
    var s := run[k];
    assert CallerOk(s, c) && CallerOk(s, d);
    if c != d && OwnsSlot(At(s, d)) {
      OffsetApart(At(s, c).pos, At(s, d).pos, Capacity(s));
    }
    if ServerReads(s.server) {
      OffsetApart(At(s, c).pos, s.tail, Capacity(s));
    }
  }

  // A ring with a single slot.

  /** A run of the ring with one slot, from the start to its last state. */
  datatype Trace = Trace(run: seq<State>, moves: seq<(CallerId, Action)>)

  predicate Reaches(t: Trace, s: State) {
    IsRun(1, t.run, t.moves) && t.run[|t.moves|] == s
  }

  lemma Extend(t: Trace, s: State, c: CallerId, a: Action) returns (t': Trace, s': State)
    requires Reaches(t, s) && Enabled(s, c, a)
    ensures s' == Step(s, c, a) && Reaches(t', s')
  {
    s' := Step(s, c, a);
    t' := Trace(t.run + [Step(s, c, a)], t.moves + [(c, a)]);
    forall i | 0 <= i < |t'.moves|
      ensures Enabled(t'.run[i], t'.moves[i].0, t'.moves[i].1)
      ensures t'.run[i + 1] == Step(t'.run[i], t'.moves[i].0, t'.moves[i].1)
    {
      if i < |t.moves| {
        assert t'.run[i] == t.run[i] && t'.run[i + 1] == t.run[i + 1] && t'.moves[i] == t.moves[i];
      }
    }
  }

  /** A caller draws a ticket, finds its turn, and fills the only slot. */
  lemma FillsSlot(t: Trace, s: State, c: CallerId, data: Payload) returns (t': Trace, s': State)
    requires Reaches(t, s) && |s.seqs| == |s.slots| == 1 && At(s, c).Idle? && s.seqs == [s.head]
    ensures Reaches(t', s') && At(s', c) == Filled(s.head, data)
    ensures forall d: CallerId :: d != c ==> At(s', d) == At(s, d)
    ensures s' == s.(slots := [(c, data)], head := s.head + 1, callers := s'.callers,
                     tickets := s.tickets + [Ticket(c, data)])
  {
    t', s' := Extend(t, s, c, BeginCall(data));
    t', s' := Extend(t', s', c, DrawTicket);
    t', s' := Extend(t', s', c, LoadSeq);
    t', s' := Extend(t', s', c, StoreCaller);
    t', s' := Extend(t', s', c, StoreData);
  }

  lemma ServerTakes(t: Trace, s: State, c: CallerId, data: Payload) returns (t': Trace, s': State)
    requires Reaches(t, s) && s.seqs == [s.tail + 1] && s.slots == [(c, data)] && s.server.Ready?
    ensures Reaches(t', s') && s'.tickets == s.tickets
    ensures |s'.received| == |s.received| + 1 && s'.received[|s.received|].caller == c &&
              s'.received[|s.received|].data == data
  {
    t', s' := Extend(t, s, 0, LoadSeqServer);
    t', s' := Extend(t', s', 0, LoadCaller);
    t', s' := Extend(t', s', 0, LoadData);
    t', s' := Extend(t', s', 0, ReleaseSlot);
    t', s' := Extend(t', s', 0, StoreTail);
    t', s' := Extend(t', s', 0, TakeToken);
  }

  /**
   * With a single slot the order is lost: a second caller takes the published slot of the first
   * for its own and overwrites it, and the server receives the second request for the first.
   */
  lemma SingleSlotOverwrites() returns (t: Trace, s: State)
    ensures Reaches(t, s) && |s.received| == 1 && |s.tickets| == 2
    ensures s.received[0].caller != s.tickets[0].caller && s.received[0].data != s.tickets[0].data
  {
    s := Start(1);
    t := Trace([s], []);
    assert s.seqs == [0];
    t, s := FillsSlot(t, s, 0, 10);
    assert At(s, 1).Idle?;
    t, s := Extend(t, s, 0, StoreSeq);
    assert s.seqs == [1];
    t, s := FillsSlot(t, s, 1, 20);
    t, s := ServerTakes(t, s, 1, 20);
  }

  ghost predicate KeepsOrder(capacity: nat) {
    forall run, moves, k :: IsRun(capacity, run, moves) && 0 <= k < |run| ==> InOrder(run[k])
  }

  /** The ring keeps the order of its tickets exactly if it has at least two slots. */
  lemma KeepsOrderExactly(capacity: nat)
    requires capacity > 0
    ensures KeepsOrder(capacity) <==> capacity > 1
  {
    if capacity > 1 {
      forall run, moves, k | IsRun(capacity, run, moves) && 0 <= k < |run| ensures InOrder(run[k]) {
        ReceivesInOrder(capacity, run, moves, k);
      }
    } else {
      var t, s := SingleSlotOverwrites();
      assert !InOrder(t.run[|t.moves|]);
    }
  }
}
