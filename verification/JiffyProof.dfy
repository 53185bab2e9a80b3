/** One chain of contiguous buffers; positions are found, published and consumed once, in order. */
module JiffyProof {
  import opened Prelude
  import opened Jiffy

  /** The start index of the k-th buffer. */
  function StartOf(k: nat, capacity: nat): nat {
    if k == 0 then 0 else StartOf(k - 1, capacity) + capacity
  }

  lemma {:induction false} StartsGrow(i: nat, j: nat, capacity: nat)
    requires i < j
    ensures StartOf(i, capacity) + capacity <= StartOf(j, capacity)
    decreases j
  {
    if i < j - 1 {
      StartsGrow(i, j - 1, capacity);
    }
  }

  // The chain.

  predicate Chained(s: State, k: nat)
    requires k < |s.chain|
  {
    && s.chain[k] in s.heap
    && s.heap[s.chain[k]].start == StartOf(k, s.capacity) && |s.heap[s.chain[k]].slots| == s.capacity
    && s.heap[s.chain[k]].next == (if k + 1 < |s.chain| then Some(s.chain[k + 1]) else None)
  }

  ghost predicate Chain(s: State) {
    && s.capacity > 0 && |s.chain| > 0 && s.chain[0] == s.head && Distinct(s.chain)
    && (forall k: nat {:trigger Chained(s, k)} :: k < |s.chain| ==> Chained(s, k))
    && s.hint in s.chain
  }

  /** The slot of `pos` in the buffer that holds it tells what happened to that position. */
  predicate SlotOk(s: State, b: Ptr, pos: nat)
    requires HasSlot(s, b, pos)
  {
    var slot := SlotAt(s, b, pos);
    && (slot.flag.Empty? <==> pos !in s.published)
    && (slot.flag.Handled? <==> pos < s.readPos)
    && (slot.flag.Set? ==> pos < |s.claimed| && slot.item == s.claimed[pos].1)
  }

  ghost predicate Slots(s: State) {
    forall b: Ptr, pos: nat {:trigger SlotOk(s, b, pos)} :: b in s.chain && HasSlot(s, b, pos) ==> SlotOk(s, b, pos)
  }

  // The producers.

  predicate HasPos(l: Local) {
    Searching(l) || Placed(l) || l.Hint?
  }

  predicate Searching(l: Local) {
    l.Walk? || l.Next? || l.Link?
  }

  predicate Placed(l: Local) {
    l.OldHint? || l.CasHint? || l.WriteCaller? || l.WriteToken? || l.WriteData? || l.Publish?
  }

  predicate HasSpare(l: Local) {
    l.Link? || l.AheadLink?
  }

  /** A claimed position is published or still with its producer. */
  predicate ClaimOk(s: State, p: nat)
    requires p < |s.claimed|
  {
    p in s.published || (HasPos(At(s, s.claimed[p].0)) && At(s, s.claimed[p].0).pos == p)
  }

  ghost predicate Claims(s: State) {
    && |s.claimed| == s.tail && s.readPos <= s.tail
    && (forall p: nat {:trigger ClaimOk(s, p)} :: p < s.tail ==> ClaimOk(s, p))
    && (forall p: nat :: p in s.published ==> p < s.tail && p < StartOf(|s.chain|, s.capacity))
    && (forall p: nat :: p < s.readPos ==> p in s.published)
  }

  predicate PosOk(s: State, t: ProducerId, l: Local) {
    HasPos(l) ==> l.pos < |s.claimed| && s.claimed[l.pos] == (t, l.item) && l.pos !in s.published
  }

  predicate CurOk(s: State, l: Local) {
    && (Searching(l) || Placed(l) || l.Ahead? || l.AheadLink? ==> l.cur in s.chain && l.cur in s.heap)
    && (Searching(l) ==> s.heap[l.cur].start <= l.pos)
    && (l.Next? || l.Link? ==> s.heap[l.cur].start + s.capacity <= l.pos)
    && (Placed(l) ==> HasSlot(s, l.cur, l.pos))
    && (l.CasHint? ==> l.seen in s.chain && l.seen in s.heap && s.heap[l.seen].start < s.heap[l.cur].start)
  }

  /** The parts of the item that have been stored. */
  predicate ItemFits(l: Local, i: Item)
    requires Placed(l)
  {
    && (l.WriteToken? || l.WriteData? || l.Publish? ==> i.caller == l.item.caller)
    && (l.WriteData? || l.Publish? ==> i.token == l.item.token)
    && (l.Publish? ==> i.data == l.item.data)
  }

  predicate WrittenOk(s: State, l: Local)
    requires CurOk(s, l)
  {
    Placed(l) ==> ItemFits(l, SlotAt(s, l.cur, l.pos).item)
  }

  predicate SpareOk(s: State, l: Local)
    requires CurOk(s, l)
  {
    HasSpare(l) ==>
      l.spare in s.heap && l.spare !in s.chain &&
      s.heap[l.spare] == NewBuffer(s.heap[l.cur].start + s.capacity, s.capacity)
  }

  predicate ProducerOk(s: State, t: ProducerId) {
    var l := At(s, t);
    PosOk(s, t, l) && CurOk(s, l) && WrittenOk(s, l) && SpareOk(s, l)
  }

  predicate SparesApart(s: State, t: ProducerId, u: ProducerId) {
    t != u && HasSpare(At(s, t)) && HasSpare(At(s, u)) ==> At(s, t).spare != At(s, u).spare
  }

  ghost predicate Producers(s: State) {
    && (forall t: ProducerId {:trigger ProducerOk(s, t)} :: ProducerOk(s, t))
    && (forall t: ProducerId, u: ProducerId {:trigger SparesApart(s, t, u)} :: SparesApart(s, t, u))
  }

  // The consumer.

  predicate Reader(s: State) {
    && s.readBuffer in s.chain && s.readBuffer in s.heap
    && s.heap[s.readBuffer].start <= s.readPos <= s.heap[s.readBuffer].start + s.capacity
    && (!s.consumer.Ready? ==>
          && HasSlot(s, s.readBuffer, s.readPos) && s.readPos in s.published && s.readPos < |s.claimed|
          && var item := s.claimed[s.readPos].1;
             match s.consumer
             case Ready => true
             case Seen => true
             case ReadCaller(caller) => caller == item.caller
             case ReadToken(caller, token) => caller == item.caller && token == item.token
             case ReadAll(i) => i == item)
    && |s.dequeued| == s.readPos <= |s.claimed|
    && (forall j :: 0 <= j < |s.dequeued| ==> s.dequeued[j] == s.claimed[j].1)
  }

  ghost predicate Inv(s: State) {
    Chain(s) && Slots(s) && Claims(s) && Producers(s) && Reader(s)
  }

  // Facts about the chain.

  /** Different buffers of the chain hold different positions. */
  lemma UniqueBuffer(s: State, b: Ptr, c: Ptr, pos: nat)
    requires Chain(s) && b in s.chain && c in s.chain && HasSlot(s, b, pos) && HasSlot(s, c, pos)
    ensures b == c
  {
    var i :| 0 <= i < |s.chain| && s.chain[i] == b;
    var j :| 0 <= j < |s.chain| && s.chain[j] == c;
    assert Chained(s, i) && Chained(s, j);
    if i < j {
      StartsGrow(i, j, s.capacity);
    } else if j < i {
      StartsGrow(j, i, s.capacity);
    }
  }

  /** The buffer behind a buffer of the chain. */
  lemma NextInChain(s: State, b: Ptr)
    requires Chain(s) && b in s.chain
    ensures b in s.heap && |s.heap[b].slots| == s.capacity
    ensures s.heap[b].next.Some? ==>
              var c := s.heap[b].next.value;
              c in s.chain && c in s.heap && s.heap[c].start == s.heap[b].start + s.capacity
    ensures s.heap[b].next.None? ==> b == s.chain[|s.chain| - 1]
  {
    var i :| 0 <= i < |s.chain| && s.chain[i] == b;
    assert Chained(s, i);
    if i + 1 < |s.chain| {
      assert Chained(s, i + 1);
    }
  }

  lemma HeadStart(s: State)
    requires Chain(s)
    ensures s.head in s.chain && s.head in s.heap && s.heap[s.head].start == 0
  {
    assert Chained(s, 0);
  }

  // Steps that leave the linked buffers alone.

  ghost predicate KeepsBuffers(s: State, s': State) {
    && s'.chain == s.chain && s'.capacity == s.capacity && s'.head == s.head
    && forall b: Ptr :: b in s.chain ==> b in s.heap && b in s'.heap && s'.heap[b] == s.heap[b]
  }

  lemma ChainFrame(s: State, s': State)
    requires Chain(s) && KeepsBuffers(s, s') && s'.hint in s.chain
    ensures Chain(s')
  {
    forall k: nat | k < |s'.chain| ensures Chained(s', k) {
      assert Chained(s, k);
      assert s.chain[k] in s.chain;
    }
  }

  lemma SlotsFrame(s: State, s': State)
    requires Slots(s) && KeepsBuffers(s, s') && s'.published == s.published && s'.readPos == s.readPos &&
               s.claimed <= s'.claimed
    ensures Slots(s')
  {
    forall b: Ptr, pos: nat | b in s'.chain && HasSlot(s', b, pos) ensures SlotOk(s', b, pos) {
      assert SlotOk(s, b, pos);
    }
  }

  /** As seen by producers and the consumer, who do not look at links meanwhile. */
  ghost predicate KeepsSlots(s: State, s': State) {
    && s.chain <= s'.chain && s'.capacity == s.capacity
    && forall b: Ptr :: b in s.chain ==>
         b in s.heap && b in s'.heap && s'.heap[b].start == s.heap[b].start && s'.heap[b].slots == s.heap[b].slots
  }

  lemma ReaderFrame(s: State, s': State)
    requires Reader(s) && KeepsSlots(s, s') && s'.published == s.published && s.claimed <= s'.claimed
    requires s'.readPos == s.readPos && s'.readBuffer == s.readBuffer && s'.consumer == s.consumer &&
               s'.dequeued == s.dequeued
    ensures Reader(s')
  {
  }

  /** A producer that did not act, and whose own buffer is still there. */
  lemma ProducerFrame(s: State, s': State, u: ProducerId)
    requires ProducerOk(s, u) && At(s', u) == At(s, u) && KeepsSlots(s, s')
    requires s'.published == s.published && s.claimed <= s'.claimed
    requires HasSpare(At(s, u)) ==>
               At(s, u).spare in s'.heap && At(s, u).spare !in s'.chain &&
               s'.heap[At(s, u).spare] == s.heap[At(s, u).spare]
    ensures ProducerOk(s', u)
  {
  }

  /** Producer `t` has moved from its place in `s` to its place in `s'`, with its position. */
  ghost predicate Moves(s: State, s': State, t: ProducerId) {
    && (forall u: ProducerId :: u != t ==> At(s', u) == At(s, u))
    && (HasPos(At(s, t)) ==> HasPos(At(s', t)) && At(s', t).pos == At(s, t).pos)
    && s' == s.(producers := s'.producers, hint := s'.hint, heap := s'.heap)
  }

  lemma ClaimsFrame(s: State, s': State, t: ProducerId)
    requires Claims(s) && Moves(s, s', t)
    ensures Claims(s')
  {
    forall p: nat | p < s'.tail ensures ClaimOk(s', p) {
      assert ClaimOk(s, p);
    }
  }

  lemma MoveKeeps(s: State, s': State, t: ProducerId)
    requires Inv(s) && Moves(s, s', t) && s'.heap == s.heap && s'.hint in s.chain
    requires ProducerOk(s', t) && !HasSpare(At(s', t))
    ensures Inv(s')
  {
    AllInHeap(s);
    ChainFrame(s, s');
    SlotsFrame(s, s');
    ReaderFrame(s, s');
    ClaimsFrame(s, s', t);
    forall u: ProducerId ensures ProducerOk(s', u) {
      assert ProducerOk(s, u);
      if u != t {
        ProducerFrame(s, s', u);
      }
    }
    forall u: ProducerId, v: ProducerId ensures SparesApart(s', u, v) {
      assert SparesApart(s, u, v);
    }
  }

  lemma AllInHeap(s: State)
    requires Chain(s)
    ensures forall b: Ptr :: b in s.chain ==> b in s.heap
  {
    forall b: Ptr | b in s.chain ensures b in s.heap {
      NextInChain(s, b);
    }
  }

  lemma AllocateProducers(s: State, t: ProducerId, l: Local, s': State)
    requires Inv(s) && HasSpare(l) && l.spare !in s.heap && CurOk(s, l) && PosOk(s, t, l)
    requires s' == Go(Allocate(s, l.spare, s.heap[l.cur].start + s.capacity), t, l) && KeepsBuffers(s, s')
    ensures Producers(s')
  {
    forall u: ProducerId ensures ProducerOk(s', u) {
      assert ProducerOk(s, u);
      if u != t {
        ProducerFrame(s, s', u);
      }
    }
    forall u: ProducerId, v: ProducerId ensures SparesApart(s', u, v) {
      assert SparesApart(s, u, v) && ProducerOk(s, u) && ProducerOk(s, v);
    }
  }

  /** A producer allocates a buffer of its own. */
  lemma AllocateKeeps(s: State, t: ProducerId, l: Local)
    requires Inv(s) && HasSpare(l) && l.spare !in s.heap && CurOk(s, l) && PosOk(s, t, l)
    requires HasPos(At(s, t)) == HasPos(l) && (HasPos(l) ==> l.pos == At(s, t).pos)
    ensures Inv(Go(Allocate(s, l.spare, s.heap[l.cur].start + s.capacity), t, l))
  {
    var s' := Go(Allocate(s, l.spare, s.heap[l.cur].start + s.capacity), t, l);
    AllInHeap(s);
    ChainFrame(s, s');
    SlotsFrame(s, s');
    ReaderFrame(s, s');
    ClaimsFrame(s, s', t);
    AllocateProducers(s, t, l, s');
  }

  /** A producer that lost the race drops its own buffer. */
  lemma DropKeeps(s: State, t: ProducerId, l: Local)
    requires Inv(s) && HasSpare(At(s, t)) && !HasSpare(l) && CurOk(s, l) && !Placed(l) && PosOk(s, t, l)
    requires HasPos(At(s, t)) == HasPos(l) && (HasPos(l) ==> l.pos == At(s, t).pos)
    ensures Inv(Go(Drop(s, At(s, t).spare), t, l))
  {
    var s' := Go(Drop(s, At(s, t).spare), t, l);
    assert ProducerOk(s, t);
    AllInHeap(s);
    ChainFrame(s, s');
    SlotsFrame(s, s');
    ReaderFrame(s, s');
    ClaimsFrame(s, s', t);
    forall u: ProducerId ensures ProducerOk(s', u) {
      assert ProducerOk(s, u) && SparesApart(s, u, t);
      if u != t {
        ProducerFrame(s, s', u);
      }
    }
    forall u: ProducerId, v: ProducerId ensures SparesApart(s', u, v) {
      assert SparesApart(s, u, v);
    }
  }

  // Linking a buffer.

  lemma LinkChain(s: State, cur: Ptr, spare: Ptr)
    requires Chain(s) && cur in s.chain && cur in s.heap && s.heap[cur].next.None?
    requires spare in s.heap && spare !in s.chain &&
               s.heap[spare] == NewBuffer(s.heap[cur].start + s.capacity, s.capacity)
    ensures Chain(SetNext(s, cur, spare)) && s.heap[spare].start == StartOf(|s.chain|, s.capacity)
  {
    var s', n := SetNext(s, cur, spare), |s.chain|;
    NextInChain(s, cur);
    forall k: nat | k < |s'.chain| ensures Chained(s', k) {
      assert Chained(s, n - 1);
      if k < n {
        assert Chained(s, k);
      }
    }
  }

  lemma LinkSlots(s: State, cur: Ptr, spare: Ptr)
    requires Inv(s) && cur in s.chain && cur in s.heap && s.heap[cur].next.None?
    requires spare in s.heap && spare !in s.chain &&
               s.heap[spare] == NewBuffer(s.heap[cur].start + s.capacity, s.capacity)
    ensures Slots(SetNext(s, cur, spare))
  {
    var s' := SetNext(s, cur, spare);
    LinkChain(s, cur, spare);
    forall b: Ptr, pos: nat | b in s'.chain && HasSlot(s', b, pos) ensures SlotOk(s', b, pos) {
      if b != spare {
        assert SlotOk(s, b, pos);
      }
    }
  }

  lemma LinkProducers(s: State, t: ProducerId, l: Local, s': State)
    requires Inv(s) && HasSpare(At(s, t)) && At(s, t).cur in s.heap && s.heap[At(s, t).cur].next.None?
    requires l == (if At(s, t).Link? then Walk(At(s, t).pos, At(s, t).item, At(s, t).spare) else Idle)
    requires s' == Go(SetNext(s, At(s, t).cur, At(s, t).spare), t, l) && KeepsSlots(s, s')
    ensures Producers(s')
  {
    assert ProducerOk(s, t);
    forall u: ProducerId ensures ProducerOk(s', u) {
      assert ProducerOk(s, u) && SparesApart(s, u, t);
      if u != t {
        ProducerFrame(s, s', u);
      }
    }
    forall u: ProducerId, v: ProducerId ensures SparesApart(s', u, v) {
      assert SparesApart(s, u, v);
    }
  }

  /** The producer that wins the race extends the chain by its own buffer. */
  lemma LinkKeeps(s: State, t: ProducerId, l: Local)
    requires Inv(s) && HasSpare(At(s, t)) && At(s, t).cur in s.heap && s.heap[At(s, t).cur].next.None?
    requires l == (if At(s, t).Link? then Walk(At(s, t).pos, At(s, t).item, At(s, t).spare) else Idle)
    ensures Inv(Go(SetNext(s, At(s, t).cur, At(s, t).spare), t, l))
  {
    var cur, spare := At(s, t).cur, At(s, t).spare;
    var s1, s' := SetNext(s, cur, spare), Go(SetNext(s, cur, spare), t, l);
    assert ProducerOk(s, t);
    AllInHeap(s);
    LinkChain(s, cur, spare);
    LinkSlots(s, cur, spare);
    ChainFrame(s1, s');
    SlotsFrame(s1, s');
    ReaderFrame(s, s');
    LinkClaims(s, s', t);
    LinkProducers(s, t, l, s');
  }

  lemma LinkClaims(s: State, s': State, t: ProducerId)
    requires Claims(s) && s' == s.(producers := s'.producers, heap := s'.heap, chain := s'.chain) &&
               |s'.chain| == |s.chain| + 1
    requires forall u: ProducerId :: u != t ==> At(s', u) == At(s, u)
    requires HasPos(At(s, t)) ==> HasPos(At(s', t)) && At(s', t).pos == At(s, t).pos
    ensures Claims(s')
  {
    forall p: nat | p < s'.tail ensures ClaimOk(s', p) {
      assert ClaimOk(s, p);
    }
  }

  // Claiming a position.

  lemma ClaimKeeps(s: State, t: ProducerId)
    requires Inv(s) && At(s, t).Begun?
    ensures Inv(ProducerStep(s, t, ClaimPosition))
  {
    var s' := ProducerStep(s, t, ClaimPosition);
    AllInHeap(s);
    ChainFrame(s, s');
    SlotsFrame(s, s');
    ReaderFrame(s, s');
    forall p: nat | p < s'.tail ensures ClaimOk(s', p) {
      if p < s.tail {
        assert ClaimOk(s, p);
      }
    }
    forall u: ProducerId ensures ProducerOk(s', u) {
      assert ProducerOk(s, u);
      if u != t {
        ProducerFrame(s, s', u);
      }
    }
    forall u: ProducerId, v: ProducerId ensures SparesApart(s', u, v) {
      assert SparesApart(s, u, v);
    }
  }

  // Writing a slot.

  /** Only the slot of `pos` in `b` differs. */
  ghost predicate WritesSlot(s: State, s': State, b: Ptr, pos: nat) {
    && HasSlot(s, b, pos) && b in s.chain
    && s'.chain == s.chain && s'.capacity == s.capacity && s'.head == s.head && s'.hint == s.hint
    && b in s'.heap && |s'.heap[b].slots| == |s.heap[b].slots|
    && s'.heap == s.heap[b := s.heap[b].(slots := s'.heap[b].slots)]
    && forall q: nat :: HasSlot(s, b, q) && q != pos ==> SlotAt(s', b, q) == SlotAt(s, b, q)
  }

  lemma WriteChain(s: State, s': State, b: Ptr, pos: nat)
    requires Chain(s) && WritesSlot(s, s', b, pos)
    ensures Chain(s')
  {
    forall k: nat | k < |s'.chain| ensures Chained(s', k) {
      assert Chained(s, k);
    }
  }

  /** Another producer has another position, hence another slot. */
  lemma WriteProducer(s: State, s': State, b: Ptr, pos: nat, u: ProducerId)
    requires Chain(s) && ProducerOk(s, u) && At(s', u) == At(s, u) && WritesSlot(s, s', b, pos)
    requires HasPos(At(s, u)) ==> At(s, u).pos != pos && At(s, u).pos !in s'.published
    requires s'.claimed == s.claimed && (HasSpare(At(s, u)) ==> At(s, u).spare != b)
    ensures ProducerOk(s', u)
  {
    var l := At(s, u);
    if Placed(l) && l.cur == b {
      assert SlotAt(s', b, l.pos) == SlotAt(s, b, l.pos);
    }
  }

  lemma WriteReader(s: State, s': State, b: Ptr, pos: nat)
    requires Reader(s) && WritesSlot(s, s', b, pos) && s.published <= s'.published && s'.claimed == s.claimed
    requires s'.readPos == s.readPos && s'.readBuffer == s.readBuffer && s'.consumer == s.consumer &&
               s'.dequeued == s.dequeued
    ensures Reader(s')
  {
  }

  lemma WriteSlots(s: State, s': State, b: Ptr, pos: nat)
    requires Chain(s) && Slots(s) && WritesSlot(s, s', b, pos) && SlotOk(s', b, pos) && s'.claimed == s.claimed
    requires forall q: nat :: q != pos ==>
               (q in s'.published <==> q in s.published) && (q < s'.readPos <==> q < s.readPos)
    ensures Slots(s')
  {
    forall c: Ptr, q: nat | c in s'.chain && HasSlot(s', c, q) ensures SlotOk(s', c, q) {
      assert SlotOk(s, c, q);
      if q == pos {
        UniqueBuffer(s, b, c, q);
      } else if c == b {
        assert SlotAt(s', b, q) == SlotAt(s, b, q);
      }
    }
  }

  lemma WriteProducers(s: State, s': State, b: Ptr, t: ProducerId)
    requires Inv(s) && Placed(At(s, t)) && WritesSlot(s, s', b, At(s, t).pos) && ProducerOk(s', t) &&
               !HasSpare(At(s', t))
    requires forall u: ProducerId :: u != t ==> At(s', u) == At(s, u)
    requires s'.claimed == s.claimed && s'.published <= s.published + {At(s, t).pos}
    ensures Producers(s')
  {
    var pos := At(s, t).pos;
    assert ProducerOk(s, t);
    forall u: ProducerId ensures ProducerOk(s', u) {
      if u != t {
        assert ProducerOk(s, u);
        WriteProducer(s, s', b, pos, u);
      }
    }
    forall u: ProducerId, v: ProducerId ensures SparesApart(s', u, v) {
      assert SparesApart(s, u, v);
    }
  }

  lemma WriteClaims(s: State, s': State, t: ProducerId)
    requires Claims(s) && s' == s.(producers := s'.producers, heap := s'.heap, published := s'.published)
    requires forall u: ProducerId :: u != t ==> At(s', u) == At(s, u)
    requires HasPos(At(s, t)) && At(s, t).pos < s.tail && At(s, t).pos < StartOf(|s.chain|, s.capacity)
    requires if HasPos(At(s', t)) then s'.published == s.published && At(s', t).pos == At(s, t).pos
             else s'.published == s.published + {At(s, t).pos}
    ensures Claims(s')
  {
    forall p: nat | p < s'.tail ensures ClaimOk(s', p) {
      assert ClaimOk(s, p);
    }
  }

  lemma BeforeEnd(s: State, b: Ptr, pos: nat)
    requires Chain(s) && b in s.chain && HasSlot(s, b, pos)
    ensures pos < StartOf(|s.chain|, s.capacity)
  {
    var i :| 0 <= i < |s.chain| && s.chain[i] == b;
    assert Chained(s, i);
    StartsGrow(i, |s.chain|, s.capacity);
  }

  /** The producer of a position writes its slot. */
  lemma WriteKeeps(s: State, s': State, t: ProducerId)
    requires Inv(s) && Placed(At(s, t)) && WritesSlot(s, s', At(s, t).cur, At(s, t).pos)
    requires s' == s.(producers := s'.producers, heap := s'.heap, published := s'.published)
    requires forall u: ProducerId :: u != t ==> At(s', u) == At(s, u)
    requires ProducerOk(s', t) && !HasSpare(At(s', t)) && SlotOk(s', At(s, t).cur, At(s, t).pos)
    requires if HasPos(At(s', t)) then s'.published == s.published && At(s', t).pos == At(s, t).pos
             else s'.published == s.published + {At(s, t).pos}
    ensures Inv(s')
  {
    var b, pos := At(s, t).cur, At(s, t).pos;
    assert ProducerOk(s, t);
    BeforeEnd(s, b, pos);
    WriteChain(s, s', b, pos);
    WriteSlots(s, s', b, pos);
    WriteReader(s, s', b, pos);
    WriteClaims(s, s', t);
    WriteProducers(s, s', b, t);
  }

  /** A store to the item of an unpublished slot. */
  lemma StoreItemKeeps(s: State, t: ProducerId, l: Local, slot: Slot)
    requires Inv(s) && Placed(At(s, t)) && Placed(l) && !l.CasHint?
    requires l.pos == At(s, t).pos && l.item == At(s, t).item && l.cur == At(s, t).cur && HasSlot(s, l.cur, l.pos)
    requires slot.flag == SlotAt(s, l.cur, l.pos).flag && ItemFits(l, slot.item)
    ensures Inv(Go(SetSlot(s, l.cur, l.pos, slot), t, l))
  {
    assert ProducerOk(s, t) && SlotOk(s, l.cur, l.pos);
    WriteKeeps(s, Go(SetSlot(s, l.cur, l.pos, slot), t, l), t);
  }

  lemma StoreFlagKeeps(s: State, t: ProducerId)
    requires Inv(s) && ProducerEnabled(s, At(s, t), StoreFlag)
    ensures Inv(ProducerStep(s, t, StoreFlag))
  {
    var l, s' := At(s, t), ProducerStep(s, t, StoreFlag);
    assert ProducerOk(s, t) && SlotOk(s, l.cur, l.pos);
    assert ProducerOk(s', t);
    WriteKeeps(s, s', t);
  }

  lemma WalkKeeps(s: State, t: ProducerId, a: Action)
    requires Inv(s) && ProducerEnabled(s, At(s, t), a) && (a.LoadHint? || a.CheckBuffer?)
    ensures Inv(ProducerStep(s, t, a))
  {
    var s' := ProducerStep(s, t, a);
    assert ProducerOk(s, t);
    HeadStart(s);
    if a.CheckBuffer? {
      NextInChain(s, At(s, t).cur);
    }
    assert ProducerOk(s', t);
    MoveKeeps(s, s', t);
  }

  lemma HintKeeps(s: State, t: ProducerId, a: Action)
    requires Inv(s) && ProducerEnabled(s, At(s, t), a) && (a.BeginEnqueue? || a.LoadOldHint? || a.CasTailBuffer?)
    ensures Inv(ProducerStep(s, t, a))
  {
    assert ProducerOk(s, t);
    assert ProducerOk(ProducerStep(s, t, a), t);
    MoveKeeps(s, ProducerStep(s, t, a), t);
  }

  lemma LoadNextKeeps(s: State, t: ProducerId, spare: Ptr)
    requires Inv(s) && ProducerEnabled(s, At(s, t), LoadNext(spare))
    ensures Inv(ProducerStep(s, t, LoadNext(spare)))
  {
    var l, s' := At(s, t), ProducerStep(s, t, LoadNext(spare));
    assert ProducerOk(s, t);
    NextInChain(s, l.cur);
    if s.heap[l.cur].next.Some? {
      assert ProducerOk(s', t);
      MoveKeeps(s, s', t);
    } else {
      AllocateKeeps(s, t, Link(l.pos, l.item, l.cur, spare));
    }
  }

  lemma CheckAheadKeeps(s: State, t: ProducerId, spare: Ptr)
    requires Inv(s) && ProducerEnabled(s, At(s, t), CheckAhead(spare))
    ensures Inv(ProducerStep(s, t, CheckAhead(spare)))
  {
    var l, s' := At(s, t), ProducerStep(s, t, CheckAhead(spare));
    assert ProducerOk(s, t);
    if s.heap[l.cur].next.Some? {
      assert ProducerOk(s', t);
      MoveKeeps(s, s', t);
    } else {
      AllocateKeeps(s, t, AheadLink(l.cur, spare));
    }
  }

  lemma CasKeeps(s: State, t: ProducerId, a: Action)
    requires Inv(s) && ProducerEnabled(s, At(s, t), a) && (a.CasNext? || a.CasAhead?)
    ensures Inv(ProducerStep(s, t, a))
  {
    var l := At(s, t);
    assert ProducerOk(s, t);
    NextInChain(s, l.cur);
    if s.heap[l.cur].next.Some? {
      DropKeeps(s, t, if a.CasNext? then Walk(l.pos, l.item, s.heap[l.cur].next.value) else Idle);
    } else {
      LinkKeeps(s, t, if a.CasNext? then Walk(l.pos, l.item, l.spare) else Idle);
    }
  }

  lemma ProducerStepKeeps(s: State, t: ProducerId, a: Action)
    requires Inv(s) && !ConsumerAction(a) && ProducerEnabled(s, At(s, t), a)
    ensures Inv(ProducerStep(s, t, a))
  {
    var l := At(s, t);
    match a
    case BeginEnqueue(_) => HintKeeps(s, t, a);
    case ClaimPosition => ClaimKeeps(s, t);
    case LoadHint => WalkKeeps(s, t, a);
    case CheckBuffer => WalkKeeps(s, t, a);
    case LoadNext(spare) => LoadNextKeeps(s, t, spare);
    case CasNext => CasKeeps(s, t, a);
    case LoadOldHint => HintKeeps(s, t, a);
    case CasTailBuffer => HintKeeps(s, t, a);
    case StoreCaller =>
      var slot := SlotAt(s, l.cur, l.pos);
      StoreItemKeeps(s, t, WriteToken(l.pos, l.item, l.cur), slot.(item := slot.item.(caller := l.item.caller)));
    case StoreToken =>
      assert ProducerOk(s, t);
      var slot := SlotAt(s, l.cur, l.pos);
      StoreItemKeeps(s, t, WriteData(l.pos, l.item, l.cur), slot.(item := slot.item.(token := l.item.token)));
    case StoreData =>
      assert ProducerOk(s, t);
      var slot := SlotAt(s, l.cur, l.pos);
      StoreItemKeeps(s, t, Publish(l.pos, l.item, l.cur), slot.(item := slot.item.(data := l.item.data)));
    case StoreFlag => StoreFlagKeeps(s, t);
    case CheckAhead(spare) => CheckAheadKeeps(s, t, spare);
    case CasAhead => CasKeeps(s, t, a);
  }

  // Steps of the consumer.

  lemma ConsumerMoveKeeps(s: State, s': State)
    requires Inv(s) && s' == s.(consumer := s'.consumer, readBuffer := s'.readBuffer) && Reader(s')
    ensures Inv(s')
  {
    AllInHeap(s);
    ChainFrame(s, s');
    SlotsFrame(s, s');
    forall p: nat | p < s'.tail ensures ClaimOk(s', p) {
      assert ClaimOk(s, p);
    }
    forall u: ProducerId ensures ProducerOk(s', u) {
      assert ProducerOk(s, u);
      ProducerFrame(s, s', u);
    }
    forall u: ProducerId, v: ProducerId ensures SparesApart(s', u, v) {
      assert SparesApart(s, u, v);
    }
  }

  lemma HandledProducers(s: State, s': State)
    requires Inv(s) && ConsumerEnabled(s, StoreHandled) && s' == ConsumerStep(s, StoreHandled)
    requires WritesSlot(s, s', s.readBuffer, s.readPos)
    ensures Producers(s')
  {
    forall u: ProducerId ensures ProducerOk(s', u) {
      assert ProducerOk(s, u);
      WriteProducer(s, s', s.readBuffer, s.readPos, u);
    }
    forall u: ProducerId, v: ProducerId ensures SparesApart(s', u, v) {
      assert SparesApart(s, u, v);
    }
  }

  lemma StoreHandledKeeps(s: State)
    requires Inv(s) && ConsumerEnabled(s, StoreHandled)
    ensures Inv(ConsumerStep(s, StoreHandled))
  {
    var s' := ConsumerStep(s, StoreHandled);
    NextInChain(s, s.readBuffer);
    assert SlotOk(s, s.readBuffer, s.readPos);
    assert SlotOk(s', s.readBuffer, s.readPos);
    WriteChain(s, s', s.readBuffer, s.readPos);
    WriteSlots(s, s', s.readBuffer, s.readPos);
    forall p: nat | p < s'.tail ensures ClaimOk(s', p) {
      assert ClaimOk(s, p);
    }
    HandledProducers(s, s');
  }

  lemma ConsumerStepKeeps(s: State, a: Action)
    requires Inv(s) && ConsumerAction(a) && ConsumerEnabled(s, a)
    ensures Inv(ConsumerStep(s, a))
  {
    var s' := ConsumerStep(s, a);
    NextInChain(s, s.readBuffer);
    if HasSlot(s, s.readBuffer, s.readPos) {
      assert SlotOk(s, s.readBuffer, s.readPos);
    }
    if a.StoreHandled? {
      StoreHandledKeeps(s);
    } else {
      ConsumerMoveKeeps(s, s');
    }
  }

  // Runs.

  predicate IsRun(capacity: nat, first: Ptr, run: seq<State>, moves: seq<(ProducerId, Action)>) {
    && capacity > 0 && |run| == |moves| + 1 && run[0] == StartState(capacity, first)
    && forall i :: 0 <= i < |moves| ==>
         Enabled(run[i], moves[i].0, moves[i].1) && run[i + 1] == Step(run[i], moves[i].0, moves[i].1)
  }

  lemma StartInv(capacity: nat, first: Ptr)
    requires capacity > 0
    ensures Inv(StartState(capacity, first))
  {
    var s := StartState(capacity, first);
    forall k: nat | k < |s.chain| ensures Chained(s, k) {
    }
  }

  lemma {:induction false} RunInv(capacity: nat, first: Ptr, run: seq<State>, moves: seq<(ProducerId, Action)>, k: nat)
    requires IsRun(capacity, first, run, moves) && k < |run|
    ensures Inv(run[k])
  {
    if k == 0 {
      StartInv(capacity, first);
    } else {
      RunInv(capacity, first, run, moves, k - 1);
      var s, t, a := run[k - 1], moves[k - 1].0, moves[k - 1].1;
      if ConsumerAction(a) {
        ConsumerStepKeeps(s, a);
      } else {
        ProducerStepKeeps(s, t, a);
      }
    }
  }

  /**
   * In every reachable state, under racing allocations, the buffers form one chain: each links
   * to the next, start indices are contiguous from zero, no buffer occurs twice, and both the
   * tail hint and the consumer's buffer are in it.
   */
  lemma BuffersFormOneChain(capacity: nat, first: Ptr, run: seq<State>, moves: seq<(ProducerId, Action)>, k: nat)
    requires IsRun(capacity, first, run, moves) && k < |run|
    ensures var s := run[k];
            && |s.chain| > 0 && Distinct(s.chain) && s.hint in s.chain && s.readBuffer in s.chain
            && (forall i :: 0 <= i < |s.chain| ==> s.chain[i] in s.heap && |s.heap[s.chain[i]].slots| == s.capacity)
            && s.heap[s.chain[0]].start == 0
            && (forall i :: 0 <= i < |s.chain| - 1 ==>
                  s.heap[s.chain[i]].next == Some(s.chain[i + 1])
                  && s.heap[s.chain[i + 1]].start == s.heap[s.chain[i]].start + s.capacity)
            && s.heap[s.chain[|s.chain| - 1]].next == None
  {
    RunInv(capacity, first, run, moves, k);
    var s := run[k];
    forall i | 0 <= i < |s.chain| ensures s.chain[i] in s.heap && |s.heap[s.chain[i]].slots| == s.capacity {
      assert Chained(s, i);
    }
    assert Chained(s, 0) && Chained(s, |s.chain| - 1);
    forall i | 0 <= i < |s.chain| - 1
      ensures s.heap[s.chain[i]].next == Some(s.chain[i + 1])
      ensures s.heap[s.chain[i + 1]].start == s.heap[s.chain[i]].start + s.capacity
    {
      assert Chained(s, i) && Chained(s, i + 1);
    }
  }

  /** How far the search of a producer is from its position. */
  function Distance(s: State, l: Local): int
    requires Searching(l) && l.cur in s.heap
  {
    l.pos - s.heap[l.cur].start
  }

  /**
   * The search terminates: its distance is never negative, every move to another buffer, won or
   * lost race included, shortens it by a buffer, and it ends at the one buffer of the chain that
   * holds the position.
   */
  lemma SearchTerminates(capacity: nat, first: Ptr, run: seq<State>, moves: seq<(ProducerId, Action)>, k: nat)
    requires IsRun(capacity, first, run, moves) && k < |moves| && !ConsumerAction(moves[k].1)
    requires Searching(At(run[k], moves[k].0))
    ensures var s, s', t := run[k], run[k + 1], moves[k].0;
            && At(s, t).cur in s.heap && Distance(s, At(s, t)) >= 0
            && (moves[k].1.CheckBuffer? ==> At(s', t).Next? || At(s', t).OldHint?)
            && (At(s', t).Walk? ==> At(s', t).cur in s'.heap
                                    && Distance(s', At(s', t)) == Distance(s, At(s, t)) - s.capacity >= 0)
            && (At(s', t).OldHint? ==>
                  && At(s', t).cur in s'.chain && HasSlot(s', At(s', t).cur, At(s', t).pos)
                  && (forall b: Ptr :: b in s'.chain && HasSlot(s', b, At(s', t).pos) ==> b == At(s', t).cur))
  {
    RunInv(capacity, first, run, moves, k);
    RunInv(capacity, first, run, moves, k + 1);
    var s, s', t := run[k], run[k + 1], moves[k].0;
    assert ProducerOk(s, t) && ProducerOk(s', t);
    NextInChain(s, At(s, t).cur);
    if At(s', t).OldHint? {
      forall b: Ptr | b in s'.chain && HasSlot(s', b, At(s', t).pos) ensures b == At(s', t).cur {
        UniqueBuffer(s', b, At(s', t).cur, At(s', t).pos);
      }
    }
  }

  /** Positions are consumed once and in order: what is dequeued is what was claimed, from the start. */
  lemma DequeuedInOrder(capacity: nat, first: Ptr, run: seq<State>, moves: seq<(ProducerId, Action)>, k: nat)
    requires IsRun(capacity, first, run, moves) && k < |run|
    ensures var s := run[k];
            && |s.dequeued| <= |s.claimed|
            && (forall j :: 0 <= j < |s.dequeued| ==> s.dequeued[j] == s.claimed[j].1)
  {
    RunInv(capacity, first, run, moves, k);
  }

  /** No position is lost: it has been dequeued, it is published, or its producer is at work on it. */
  lemma NoPositionLost(capacity: nat, first: Ptr, run: seq<State>, moves: seq<(ProducerId, Action)>, k: nat, p: nat)
    requires IsRun(capacity, first, run, moves) && k < |run| && p < |run[k].claimed|
    ensures var s := run[k];
            && (p in s.published || (HasPos(At(s, s.claimed[p].0)) && At(s, s.claimed[p].0).pos == p))
            && (p < |s.dequeued| ==> p in s.published)
  {
    RunInv(capacity, first, run, moves, k);
    assert ClaimOk(run[k], p);
  }
}
