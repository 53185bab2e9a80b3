/** The enqueue of wcq_cas2 never waits, and no slot is owned twice. */
module WcqCas2Proof {
  import opened Prelude
  import opened RingPos
  import opened WcqCas2

  /** The first position whose ring slot the server has not released. */
  function Base(s: State): nat {
    s.tail + if s.server.Released? then 1 else 0
  }

  predicate Window(s: State, p: nat) {
    Base(s) <= p < s.head
  }

  /** Bitmap and owners agree. */
  ghost predicate Bitmap(words: seq<set<nat>>, owner: seq<Owner>) {
    && (forall w, b :: 0 <= w < |words| && b in words[w] ==>
          b < 64 && BitIndex(w, b) < |owner| && owner[BitIndex(w, b)].Free?)
    && (forall i :: 0 <= i < |owner| ==> i / 64 < |words|)
    && (forall i :: 0 <= i < |owner| && owner[i].Free? ==> i % 64 in words[i / 64])
  }

  /** A ticket that is waiting in the ring, or about to be. */
  ghost predicate TicketOk(s: State, p: nat)
    requires Sized(s) && p < |s.tickets|
  {
    var t := s.tickets[p];
    && t.idx < Capacity(s) && s.owner[t.idx] == Queued(p) && s.slots[t.idx] == (t.caller, t.data)
    && (s.seqs[SlotOf(s, p)] == p || s.seqs[SlotOf(s, p)] == p + 1)
    && (s.seqs[SlotOf(s, p)] == p + 1 ==> s.values[SlotOf(s, p)] == t.idx)
    && (s.seqs[SlotOf(s, p)] == p ==> InRing(At(s, t.caller)) && At(s, t.caller).pos == p)
  }

  predicate InRing(l: Local) {
    l.Drawn? || l.Claimed? || l.Stored?
  }

  predicate HoldsIndex(l: Local) {
    l.Got? || l.Named? || l.Filled?
  }

  /** The ring slot of `q` waits for the ticket `q`. */
  predicate Expects(seqs: seq<nat>, q: nat) {
    |seqs| > 0 && seqs[Offset(q, |seqs|)] == q
  }

  ghost predicate Ring(s: State)
    requires Sized(s)
  {
    && |s.tickets| == s.head && Base(s) <= s.head <= Base(s) + Capacity(s)
    && (forall p: nat {:trigger TicketOk(s, p)} :: Window(s, p) ==> TicketOk(s, p))
    && (forall q: nat {:trigger Expects(s.seqs, q)} :: s.head <= q < Base(s) + Capacity(s) ==> Expects(s.seqs, q))
  }

  ghost predicate LocalOk(s: State, c: CallerId, l: Local)
    requires Sized(s)
  {
    && (HoldsIndex(l) ==> l.idx < Capacity(s) && s.owner[l.idx] == Held(c))
    && (l.Named? ==> s.slots[l.idx].0 == c)
    && (l.Filled? ==> s.slots[l.idx] == (c, l.data))
    && (InRing(l) ==> Window(s, l.pos) && l.pos < |s.tickets| && s.tickets[l.pos].idx == l.idx
                      && s.tickets[l.pos].caller == c && s.seqs[SlotOf(s, l.pos)] == l.pos)
    && (l.Stored? ==> s.values[SlotOf(s, l.pos)] == l.idx)
  }

  ghost predicate CallerOk(s: State, c: CallerId)
    requires Sized(s)
  {
    LocalOk(s, c, At(s, c))
  }

  predicate ServerHolds(pc: ServerPc) {
    pc.Released? || pc.Advanced? || pc.ReadCaller? || pc.ReadData?
  }

  /** The ticket the server is working on. */
  function Current(s: State): int {
    if s.server.Seen? || s.server.Have? || s.server.Released? then s.tail else s.tail - 1
  }

  ghost predicate ServerOk(s: State)
    requires Sized(s)
  {
    && (s.server.Seen? || s.server.Have? ==> s.tail < s.head && s.seqs[SlotOf(s, s.tail)] == s.tail + 1)
    && (!s.server.Ready? ==> 0 <= Current(s) < |s.tickets|)
    && (!s.server.Ready? && !s.server.Seen? ==> s.server.idx == s.tickets[Current(s)].idx)
    && (ServerHolds(s.server) ==>
          var t := s.tickets[Current(s)];
          t.idx < Capacity(s) && s.owner[t.idx] == Serving && s.slots[t.idx] == (t.caller, t.data))
    && (s.server.ReadCaller? || s.server.ReadData? ==> s.server.caller == s.tickets[Current(s)].caller)
    && (s.server.ReadData? ==> s.server.data == s.tickets[Current(s)].data)
  }

  /** Every index is where its owner says. */
  ghost predicate OwnerOk(s: State, i: nat)
    requires i < |s.owner|
  {
    match s.owner[i]
    case Free => true
    case Held(c) => HoldsIndex(At(s, c)) && At(s, c).idx == i
    case Queued(p) => Window(s, p) && p < |s.tickets| && s.tickets[p].idx == i
    case Serving => ServerHolds(s.server) && s.server.idx == i
  }

  ghost predicate Callers(s: State)
    requires Sized(s)
  {
    forall c: CallerId {:trigger CallerOk(s, c)} :: CallerOk(s, c)
  }

  ghost predicate Owners(s: State) {
    forall i {:trigger OwnerOk(s, i)} :: 0 <= i < |s.owner| ==> OwnerOk(s, i)
  }

  ghost predicate Popped(s: State) {
    && |s.popped| == s.tail - (if s.server.Advanced? || s.server.ReadCaller? || s.server.ReadData? then 1 else 0)
    && |s.popped| <= |s.tickets|
    && (forall k :: 0 <= k < |s.popped| ==> s.popped[k] == (s.tickets[k].caller, s.tickets[k].data))
  }

  ghost predicate Inv(s: State) {
    Bitmap(s.words, s.owner) && Core(s)
  }

  ghost predicate Core(s: State) {
    && Sized(s) && Ring(s) && ServerOk(s) && Popped(s)
    && Callers(s) && Owners(s)
  }

  function Indices(tickets: seq<Ticket>, first: nat, end: nat): (r: seq<nat>)
    requires first <= end <= |tickets|
    ensures |r| == end - first && (forall k :: 0 <= k < |r| ==> r[k] == tickets[first + k].idx)
    decreases end - first
  {
    if first == end then [] else [tickets[first].idx] + Indices(tickets, first + 1, end)
  }

  /**
   * A caller that holds an index finds a free place in the ring: the indices of the waiting
   * tickets and its own are all different.
   */
  lemma RoomForTicket(s: State, c: CallerId)
    requires Core(s) && HoldsIndex(At(s, c))
    ensures s.head < Base(s) + Capacity(s)
  {
    var l := At(s, c);
    assert CallerOk(s, c);
    var n := s.head - Base(s);
    var waiting := Indices(s.tickets, Base(s), s.head) + [l.idx];
    forall k | 0 <= k < n ensures waiting[k] < Capacity(s) && s.owner[waiting[k]] == Queued(Base(s) + k) {
      assert TicketOk(s, Base(s) + k);
    }
    forall j, k | 0 <= j < k < |waiting| ensures waiting[j] != waiting[k] {
    }
    Pigeonhole(waiting, Capacity(s));
  }

  // Steps of a caller.

  /** The caller moves between places where it holds nothing. */
  lemma LocalMoveKeeps(s: State, c: CallerId, l: Local)
    requires Core(s) && !HoldsIndex(At(s, c)) && !HoldsIndex(l) && !InRing(At(s, c)) && !InRing(l)
    ensures Core(Go(s, c, l))
  {
    var s' := Go(s, c, l);
    forall p: nat | Window(s', p) ensures TicketOk(s', p) {
      assert TicketOk(s, p);
    }
    forall d: CallerId ensures CallerOk(s', d) {
      assert CallerOk(s, d);
    }
    forall i | 0 <= i < |s'.owner| ensures OwnerOk(s', i) {
      assert OwnerOk(s, i);
    }
  }

  /** Caller `c` has moved on with the index it holds, if any, and no index has changed hands. */
  ghost predicate KeepsIndex(s: State, s': State, c: CallerId) {
    && s'.owner == s.owner && s'.tickets == s.tickets && s'.head == s.head && s'.tail == s.tail && s'.server == s.server
    && (forall d: CallerId :: d != c ==> At(s', d) == At(s, d))
    && (HoldsIndex(At(s, c)) ==> HoldsIndex(At(s', c)) && At(s', c).idx == At(s, c).idx)
  }

  lemma OwnersKeep(s: State, s': State, c: CallerId)
    requires Owners(s) && KeepsIndex(s, s', c)
    ensures Owners(s')
  {
    forall i | 0 <= i < |s'.owner| ensures OwnerOk(s', i) {
      assert OwnerOk(s, i);
    }
  }

  /** A caller with a ticket finds its ring slot ready. */
  lemma ClaimKeeps(s: State, c: CallerId)
    requires Core(s) && At(s, c).Drawn?
    ensures Expects(s.seqs, At(s, c).pos)
    ensures Core(Go(s, c, Claimed(At(s, c).idx, At(s, c).pos)))
  {
    var s' := Go(s, c, Claimed(At(s, c).idx, At(s, c).pos));
    assert CallerOk(s, c);
    forall p: nat | Window(s', p) ensures TicketOk(s', p) {
      assert TicketOk(s, p);
    }
    forall d: CallerId ensures CallerOk(s', d) {
      assert CallerOk(s, d);
    }
    OwnersKeep(s, s', c);
  }

  lemma StoreValueCallers(s: State, c: CallerId, s': State)
    requires Core(s) && At(s, c).Claimed? && s' == CallerStep(s, c, StoreValue)
    ensures Callers(s')
  {
    assert CallerOk(s, c);
    forall d: CallerId ensures CallerOk(s', d) {
      assert CallerOk(s, d);
      if d != c && InRing(At(s, d)) {
        OffsetApart(At(s, d).pos, At(s, c).pos, Capacity(s));
      }
    }
  }

  lemma StoreValueKeeps(s: State, c: CallerId)
    requires Core(s) && Enabled(s, c, StoreValue)
    ensures Core(Step(s, c, StoreValue))
  {
    var s', l := Step(s, c, StoreValue), At(s, c);
    assert CallerOk(s, c);
    forall p: nat | Window(s', p) ensures TicketOk(s', p) {
      assert TicketOk(s, p);
      if p != l.pos {
        OffsetApart(p, l.pos, Capacity(s));
      }
    }
    StoreValueCallers(s, c, s');
    OwnersKeep(s, s', c);
  }

  lemma BitmapTake(words: seq<set<nat>>, owner: seq<Owner>, w: nat, bit: nat, o: Owner)
    requires Bitmap(words, owner) && w < |words| && bit in words[w] && !o.Free?
    ensures BitIndex(w, bit) < |owner| && owner[BitIndex(w, bit)].Free?
    ensures Bitmap(words[w := words[w] - {bit}], owner[BitIndex(w, bit) := o])
  {
  }

  lemma BitmapGive(words: seq<set<nat>>, owner: seq<Owner>, i: nat)
    requires Bitmap(words, owner) && i < |owner| && i / 64 < |words|
    ensures Bitmap(words[i / 64 := words[i / 64] + {i % 64}], owner[i := Free])
  {
    var w, bit := i / 64, i % 64;
    var words', owner' := words[w := words[w] + {bit}], owner[i := Free];
    assert BitIndex(w, bit) == i;
    forall v, b | 0 <= v < |words'| && b in words'[v]
      ensures b < 64 && BitIndex(v, b) < |owner'| && owner'[BitIndex(v, b)].Free?
    {
      assert b in words[v] || (v == w && b == bit);
    }
  }

  lemma BitmapSwap(words: seq<set<nat>>, owner: seq<Owner>, i: nat, o: Owner)
    requires Bitmap(words, owner) && i < |owner| && !owner[i].Free? && !o.Free?
    ensures Bitmap(words, owner[i := o])
  {
  }

  /** A free index becomes the caller's. */
  lemma TakeIndexKeeps(s: State, c: CallerId, idx: nat, data: Payload)
    requires Core(s) && !HoldsIndex(At(s, c)) && !InRing(At(s, c)) && idx < |s.owner| && s.owner[idx].Free?
    ensures Core(Go(s, c, Got(idx, data)).(owner := s.owner[idx := Held(c)]))
  {
    var s' := Go(s, c, Got(idx, data)).(owner := s.owner[idx := Held(c)]);
    forall p: nat | Window(s', p) ensures TicketOk(s', p) {
      assert TicketOk(s, p);
    }
    forall d: CallerId ensures CallerOk(s', d) {
      assert CallerOk(s, d);
    }
    forall i | 0 <= i < |s'.owner| ensures OwnerOk(s', i) {
      assert OwnerOk(s, i);
    }
  }

  lemma WriteSlotCallers(s: State, c: CallerId, l: Local, slot: (CallerId, Payload), s': State)
    requires Core(s) && HoldsIndex(At(s, c)) && HoldsIndex(l) && l.idx == At(s, c).idx < |s.slots|
    requires (l.Named? ==> slot.0 == c) && (l.Filled? ==> slot == (c, l.data))
    requires s' == Go(s, c, l).(slots := s.slots[l.idx := slot])
    ensures Callers(s')
  {
    assert CallerOk(s, c);
    forall d: CallerId ensures CallerOk(s', d) {
      assert CallerOk(s, d);
    }
  }

  /** The owner of an index writes the data slot. */
  lemma WriteSlotKeeps(s: State, c: CallerId, l: Local, slot: (CallerId, Payload))
    requires Core(s) && HoldsIndex(At(s, c)) && HoldsIndex(l) && l.idx == At(s, c).idx < |s.slots|
    requires (l.Named? ==> slot.0 == c) && (l.Filled? ==> slot == (c, l.data))
    ensures Core(Go(s, c, l).(slots := s.slots[l.idx := slot]))
  {
    var s' := Go(s, c, l).(slots := s.slots[l.idx := slot]);
    assert CallerOk(s, c);
    forall p: nat | Window(s', p) ensures TicketOk(s', p) {
      assert TicketOk(s, p);
    }
    WriteSlotCallers(s, c, l, slot, s');
    OwnersKeep(s, s', c);
  }

  lemma DrawTicketCallers(s: State, c: CallerId, s': State)
    requires Core(s) && Enabled(s, c, DrawTicket) && s' == CallerStep(s, c, DrawTicket) && Expects(s.seqs, s.head)
    ensures Callers(s') && Owners(s')
  {
    assert CallerOk(s, c);
    forall d: CallerId ensures CallerOk(s', d) {
      assert CallerOk(s, d);
    }
    forall i | 0 <= i < |s'.owner| ensures OwnerOk(s', i) {
      assert OwnerOk(s, i);
    }
  }

  /** A ticket is drawn, and its ring slot already waits for it. */
  lemma DrawTicketKeeps(s: State, c: CallerId)
    requires Core(s) && Enabled(s, c, DrawTicket)
    ensures Core(Step(s, c, DrawTicket))
    ensures Expects(s.seqs, s.head)
  {
    var s', l := Step(s, c, DrawTicket), At(s, c);
    assert CallerOk(s, c);
    RoomForTicket(s, c);
    assert Expects(s.seqs, s.head);
    forall p: nat | Window(s', p) ensures TicketOk(s', p) {
      if p < s.head {
        assert TicketOk(s, p);
      }
    }
    DrawTicketCallers(s, c, s');
  }

  lemma StoreSeqCallers(s: State, c: CallerId, s': State)
    requires Core(s) && At(s, c).Stored? && s' == CallerStep(s, c, StoreSeq)
    ensures Callers(s')
  {
    assert CallerOk(s, c);
    forall d: CallerId ensures CallerOk(s', d) {
      assert CallerOk(s, d);
      if d != c && InRing(At(s, d)) {
        OffsetApart(At(s, d).pos, At(s, c).pos, Capacity(s));
      }
    }
  }

  /** The ticket is published. */
  lemma StoreSeqKeeps(s: State, c: CallerId)
    requires Core(s) && Enabled(s, c, StoreSeq)
    ensures Core(Step(s, c, StoreSeq))
  {
    var s', l := Step(s, c, StoreSeq), At(s, c);
    assert CallerOk(s, c);
    assert TicketOk(s, l.pos);
    if s.server.Seen? || s.server.Have? {
      OffsetApart(s.tail, l.pos, Capacity(s));
    }
    forall p: nat | Window(s', p) ensures TicketOk(s', p) {
      assert TicketOk(s, p);
      if p != l.pos {
        OffsetApart(p, l.pos, Capacity(s));
      }
    }
    forall q: nat | s.head <= q < Base(s) + Capacity(s) ensures Expects(s'.seqs, q) {
      assert Expects(s.seqs, q);
      OffsetApart(q, l.pos, Capacity(s));
    }
    StoreSeqCallers(s, c, s');
    OwnersKeep(s, s', c);
  }

  // Steps of the server.

  /** The server moves on without touching what callers see. */
  lemma ServerMoveKeeps(s: State, pc: ServerPc)
    requires Core(s) && ServerOk(s.(server := pc)) && Popped(s.(server := pc))
    requires pc.Released? == s.server.Released? && ServerHolds(pc) == ServerHolds(s.server)
    requires ServerHolds(pc) ==> pc.idx == s.server.idx
    ensures Core(s.(server := pc))
  {
    var s' := s.(server := pc);
    forall p: nat | Window(s', p) ensures TicketOk(s', p) {
      assert TicketOk(s, p);
    }
    forall d: CallerId ensures CallerOk(s', d) {
      assert CallerOk(s, d);
    }
    forall i | 0 <= i < |s'.owner| ensures OwnerOk(s', i) {
      assert OwnerOk(s, i);
    }
  }

  lemma LoadSeqServerKeeps(s: State)
    requires Core(s) && s.server.Ready? && s.seqs[SlotOf(s, s.tail)] == s.tail + 1
    ensures Core(s.(server := Seen))
  {
    assert !Expects(s.seqs, s.tail);
    ServerMoveKeeps(s, Seen);
  }

  lemma LoadValueKeeps(s: State)
    requires Core(s) && s.server.Seen?
    ensures Core(s.(server := Have(s.values[SlotOf(s, s.tail)])))
  {
    assert TicketOk(s, s.tail);
    ServerMoveKeeps(s, Have(s.values[SlotOf(s, s.tail)]));
  }

  lemma LoadSlotKeeps(s: State, a: Action)
    requires Core(s) && (a.LoadCaller? || a.LoadData?) && ServerEnabled(s, a)
    ensures Core(ServerStep(s, a))
  {
    ServerMoveKeeps(s, ServerStep(s, a).server);
  }

  lemma ReleaseTickets(s: State, s': State)
    requires Core(s) && s.server.Have? && ServerEnabled(s, ReleaseSlot) && s' == ServerStep(s, ReleaseSlot)
    ensures Ring(s')
  {
    assert TicketOk(s, s.tail);
    forall p: nat | Window(s', p) ensures TicketOk(s', p) {
      assert TicketOk(s, p);
      OffsetApart(p, s.tail, Capacity(s));
    }
    forall q: nat | s.head <= q < Base(s') + Capacity(s) ensures Expects(s'.seqs, q) {
      if q == s.tail + Capacity(s) {
        OffsetPeriodic(s.tail, Capacity(s));
      } else {
        assert Expects(s.seqs, q);
        OffsetApart(q, s.tail, Capacity(s));
      }
    }
  }

  lemma ReleaseCallers(s: State, s': State)
    requires Core(s) && s.server.Have? && ServerEnabled(s, ReleaseSlot) && s' == ServerStep(s, ReleaseSlot)
    ensures Callers(s')
  {
    assert TicketOk(s, s.tail);
    forall d: CallerId ensures CallerOk(s', d) {
      assert CallerOk(s, d);
      if InRing(At(s, d)) {
        OffsetApart(At(s, d).pos, s.tail, Capacity(s));
      }
    }
  }

  /** The ring slot waits for the next round; the index is the server's. */
  lemma ReleaseKeeps(s: State)
    requires Core(s) && s.server.Have? && ServerEnabled(s, ReleaseSlot)
    ensures Core(ServerStep(s, ReleaseSlot))
  {
    var s' := ServerStep(s, ReleaseSlot);
    assert TicketOk(s, s.tail);
    ReleaseTickets(s, s');
    ReleaseCallers(s, s');
    forall i | 0 <= i < |s'.owner| ensures OwnerOk(s', i) {
      assert OwnerOk(s, i);
    }
  }

  lemma StoreTailKeeps(s: State)
    requires Core(s) && s.server.Released?
    ensures Core(ServerStep(s, StoreTail))
  {
    var s' := ServerStep(s, StoreTail);
    forall p: nat | Window(s', p) ensures TicketOk(s', p) {
      assert TicketOk(s, p);
    }
    forall d: CallerId ensures CallerOk(s', d) {
      assert CallerOk(s, d);
    }
    forall i | 0 <= i < |s'.owner| ensures OwnerOk(s', i) {
      assert OwnerOk(s, i);
    }
  }

  /** The index becomes free again. */
  lemma FreeKeeps(s: State, words: seq<set<nat>>)
    requires Core(s) && s.server.ReadData? && s.server.idx < |s.owner|
    ensures Core(s.(words := words, owner := s.owner[s.server.idx := Free],
                    popped := s.popped + [(s.server.caller, s.server.data)], server := Ready))
  {
    var s' := s.(words := words, owner := s.owner[s.server.idx := Free],
                 popped := s.popped + [(s.server.caller, s.server.data)], server := Ready);
    forall p: nat | Window(s', p) ensures TicketOk(s', p) {
      assert TicketOk(s, p);
    }
    forall d: CallerId ensures CallerOk(s', d) {
      assert CallerOk(s, d);
    }
    forall i | 0 <= i < |s'.owner| ensures OwnerOk(s', i) {
      assert OwnerOk(s, i);
    }
  }

  // All steps.

  lemma CallerStepKeeps(s: State, c: CallerId, a: Action)
    requires Inv(s) && !ServerAction(a) && Enabled(s, c, a)
    ensures Inv(Step(s, c, a))
  {
    var l := At(s, c);
    match a
    case BeginPush(_) => LocalMoveKeeps(s, c, At(Step(s, c, a), c));
    case LoadWord => LocalMoveKeeps(s, c, At(Step(s, c, a), c));
    case NextWord => LocalMoveKeeps(s, c, At(Step(s, c, a), c));
    case CasFails => LocalMoveKeeps(s, c, At(Step(s, c, a), c));
    case CasSucceeds(bit) =>
      BitmapTake(s.words, s.owner, l.word, bit, Held(c));
      TakeIndexKeeps(s, c, BitIndex(l.word, bit), l.data);
      WordsIrrelevant(Go(s, c, Got(BitIndex(l.word, bit), l.data)).(owner := s.owner[BitIndex(l.word, bit) := Held(c)]),
                      s.words[l.word := s.words[l.word] - {bit}]);
    case StoreCaller => WriteSlotKeeps(s, c, Named(l.idx, l.data), (c, s.slots[l.idx].1));
    case StoreData =>
      assert CallerOk(s, c);
      WriteSlotKeeps(s, c, Filled(l.idx, l.data), (s.slots[l.idx].0, l.data));
    case DrawTicket =>
      DrawTicketKeeps(s, c);
      assert CallerOk(s, c);
      BitmapSwap(s.words, s.owner, l.idx, Queued(s.head));
    case LoadSeq => ClaimKeeps(s, c);
    case StoreValue => StoreValueKeeps(s, c);
    case StoreSeq => StoreSeqKeeps(s, c);
  }

  lemma WordsIrrelevant(s: State, words: seq<set<nat>>)
    requires Core(s)
    ensures Core(s.(words := words))
  {
    var s' := s.(words := words);
    forall p: nat | Window(s', p) ensures TicketOk(s', p) {
      assert TicketOk(s, p);
    }
    forall d: CallerId ensures CallerOk(s', d) {
      assert CallerOk(s, d);
    }
    forall i | 0 <= i < |s'.owner| ensures OwnerOk(s', i) {
      assert OwnerOk(s, i);
    }
  }

  lemma ServerStepKeeps(s: State, a: Action)
    requires Inv(s) && ServerAction(a) && ServerEnabled(s, a)
    ensures Inv(ServerStep(s, a))
  {
    match a
    case LoadSeqServer =>
      if s.seqs[SlotOf(s, s.tail)] == s.tail + 1 {
        LoadSeqServerKeeps(s);
      }
    case LoadValue => LoadValueKeeps(s);
    case ReleaseSlot =>
      ReleaseKeeps(s);
      assert TicketOk(s, s.tail);
      BitmapSwap(s.words, s.owner, s.server.idx, Serving);
    case StoreTail => StoreTailKeeps(s);
    case LoadCaller => LoadSlotKeeps(s, a);
    case LoadData => LoadSlotKeeps(s, a);
    case FreeSlot =>
      BitmapGive(s.words, s.owner, s.server.idx);
      FreeKeeps(s, ServerStep(s, a).words);
  }

  // Runs.

  predicate IsRun(capacity: nat, run: seq<State>, moves: seq<(CallerId, Action)>) {
    && capacity > 0 && |run| == |moves| + 1 && run[0] == Start(capacity)
    && forall i :: 0 <= i < |moves| ==>
         Enabled(run[i], moves[i].0, moves[i].1) && run[i + 1] == Step(run[i], moves[i].0, moves[i].1)
  }

  lemma StartBitmap(capacity: nat)
    requires capacity > 0
    ensures Bitmap(Start(capacity).words, Start(capacity).owner)
  {
  }

  lemma StartCore(capacity: nat)
    requires capacity > 0
    ensures Core(Start(capacity))
  {
    var s := Start(capacity);
    forall q: nat | q < capacity ensures Expects(s.seqs, q) {
      OffsetSmall(q, capacity);
    }
  }

  lemma {:induction false} RunInv(capacity: nat, run: seq<State>, moves: seq<(CallerId, Action)>, k: nat)
    requires IsRun(capacity, run, moves) && k < |run|
    ensures Inv(run[k])
  {
    if k == 0 {
      StartBitmap(capacity);
      StartCore(capacity);
    } else {
      RunInv(capacity, run, moves, k - 1);
      var s, c, a := run[k - 1], moves[k - 1].0, moves[k - 1].1;
      if ServerAction(a) {
        ServerStepKeeps(s, a);
      } else {
        CallerStepKeeps(s, c, a);
      }
    }
  }

  /** A caller that has drawn a ticket finds its ring slot waiting for it: `enqueue` never spins. */
  lemma EnqueueNeverWaits(capacity: nat, run: seq<State>, moves: seq<(CallerId, Action)>, k: nat, c: CallerId)
    requires IsRun(capacity, run, moves) && k < |run| && At(run[k], c).Drawn?
    ensures var s := run[k];
            Sized(s) && s.seqs[SlotOf(s, At(s, c).pos)] == At(s, c).pos && At(Step(s, c, LoadSeq), c).Claimed?
  {
    RunInv(capacity, run, moves, k);
    assert CallerOk(run[k], c);
  }

  /** Index `i` is where an owner `o` would have it. */
  predicate InPlace(s: State, o: Owner, i: nat) {
    match o
    case Free => i / 64 < |s.words| && i % 64 in s.words[i / 64]
    case Held(c) => HoldsIndex(At(s, c)) && At(s, c).idx == i
    case Queued(p) => Window(s, p) && p < |s.tickets| && s.tickets[p].idx == i
    case Serving => ServerHolds(s.server) && s.server.idx == i
  }

  lemma PlaceIsOwner(s: State, o: Owner, i: nat)
    requires Inv(s) && i < Capacity(s)
    ensures InPlace(s, o, i) <==> o == s.owner[i]
  {
    assert OwnerOk(s, i);
    match o
    case Free => assert BitIndex(i / 64, i % 64) == i;
    case Held(c) => assert CallerOk(s, c);
    case Queued(p) =>
      if Window(s, p) {
        assert TicketOk(s, p);
      }
    case Serving =>
  }

  /**
   * Ownership. In every reachable state each slot index is in exactly one place: free in the
   * bitmap, with one caller, under one ticket in the ring, or with the server.
   */
  lemma IndexOwnedOnce(capacity: nat, run: seq<State>, moves: seq<(CallerId, Action)>, k: nat, i: nat)
    requires IsRun(capacity, run, moves) && k < |run| && i < Capacity(run[k])
    ensures exists o: Owner :: InPlace(run[k], o, i)
    ensures forall o: Owner, o': Owner :: InPlace(run[k], o, i) && InPlace(run[k], o', i) ==> o == o'
  {
    RunInv(capacity, run, moves, k);
    forall o: Owner ensures InPlace(run[k], o, i) <==> o == run[k].owner[i] {
      PlaceIsOwner(run[k], o, i);
    }
    assert InPlace(run[k], run[k].owner[i], i);
  }

  /** The server pops, in ticket order, exactly the caller and the data of each ticket. */
  lemma PoppedInTicketOrder(capacity: nat, run: seq<State>, moves: seq<(CallerId, Action)>, k: nat, j: nat)
    requires IsRun(capacity, run, moves) && k < |run| && j < |run[k].popped|
    ensures var s := run[k];
            j < |s.tickets| && s.popped[j] == (s.tickets[j].caller, s.tickets[j].data)
  {
    RunInv(capacity, run, moves, k);
  }
}
