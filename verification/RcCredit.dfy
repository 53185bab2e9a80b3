/** Conservation of response credit between two RC endpoints, over every run. */
module RcCredit {
  import opened Prelude
  import opened DcEncoding
  import opened RcEndpointSpec

  /** `handles` are the allowances of the requests received and not replied to. */
  datatype Peer = Peer(ep: Ep, handles: seq<nat>)

  datatype Net = Net(a: Peer, b: Peer, ab: seq<Wire>, ba: seq<Wire>)

  function Sum(s: seq<nat>): nat {
    if s == [] then 0 else s[0] + Sum(s[1..])
  }

  function Grants(w: seq<Wire>): nat {
    if w == [] then 0 else w[0].grant + Grants(w[1..])
  }

  /** The response room that the requests in `items` ask for. */
  function Asked(items: seq<Item>): nat {
    Sum(Allowances(items))
  }

  function AskedInFlight(w: seq<Wire>): nat {
    if w == [] then 0 else Sum(Requests(w[0])) + AskedInFlight(w[1..])
  }

  lemma {:induction false} SumConcat(s: seq<nat>, t: seq<nat>)
    ensures Sum(s + t) == Sum(s) + Sum(t)
  {
    if s == [] {
      assert s + t == t;
    } else {
      assert (s + t)[1..] == s[1..] + t;
      SumConcat(s[1..], t);
    }
  }

  lemma {:induction false} AllowancesConcat(s: seq<Item>, t: seq<Item>)
    ensures Allowances(s + t) == Allowances(s) + Allowances(t)
  {
    if s == [] {
      assert s + t == t;
    } else {
      var first := Allowances([s[0]]);
      assert (s + t)[1..] == s[1..] + t && [s[0]][1..] == [];
      AllowancesConcat(s[1..], t);
      AllowancesFirst(s);
      AllowancesFirst(s + t);
      assert first + (Allowances(s[1..]) + Allowances(t)) == (first + Allowances(s[1..])) + Allowances(t);
    }
  }

  lemma AllowancesFirst(s: seq<Item>)
    requires s != []
    ensures Allowances(s) == Allowances([s[0]]) + Allowances(s[1..])
  {
    assert [s[0]][1..] == [];
  }

  lemma {:induction false} WiresConcat(s: seq<Wire>, t: seq<Wire>)
    ensures Grants(s + t) == Grants(s) + Grants(t)
    ensures AskedInFlight(s + t) == AskedInFlight(s) + AskedInFlight(t)
  {
    if s == [] {
      assert s + t == t;
    } else {
      assert (s + t)[1..] == s[1..] + t;
      WiresConcat(s[1..], t);
    }
  }

  lemma {:induction false} SumWithout(s: seq<nat>, i: nat)
    requires i < |s|
    ensures Sum(s[..i] + s[i + 1..]) + s[i] == Sum(s)
  {
    SumConcat(s[..i], s[i + 1..]);
    SumConcat(s[..i], s[i..]);
    assert s[..i] + s[i..] == s && s[i..][1..] == s[i + 1..];
  }

  // What the operations of one endpoint conserve.

  /**
   * The reservation grows by what the sent batches grant and what failed submissions lose, and
   * shrinks by what is paid back; the balance is spent on exactly what the requests ask for.
   */
  predicate Conserves(e: Ep, e': Ep, wires: seq<Wire>, paid: nat) {
    && e'.lost >= e.lost && e'.reservation + paid == e.reservation + Grants(wires) + (e'.lost - e.lost)
    && e'.balance + Asked(e'.open) + AskedInFlight(wires) == e.balance + Asked(e.open)
  }

  lemma ConservesTwice(e: Ep, e1: Ep, e2: Ep, w1: seq<Wire>, w2: seq<Wire>)
    requires Conserves(e, e1, w1, 0) && Conserves(e1, e2, w2, 0)
    ensures Conserves(e, e2, w1 + w2, 0)
  {
    WiresConcat(w1, w2);
  }

  lemma EmitWrapConserves(e: Ep, sent: bool)
    requires EpInv(e) && e.batchCount == 0
    ensures var o := EmitWrap(e, sent);
            Conserves(e, o.ep, o.wires, 0)
  {
  }

  lemma FlushConserves(e: Ep, sent: bool)
    requires EpInv(e)
    ensures var o := Flush(e, sent);
            Conserves(e, o.ep, o.wires, 0)
  {
  }

  lemma HandleWrapConserves(e: Ep, size: nat, sent: bool, wrapSent: bool)
    requires EpInv(e)
    ensures var o := HandleWrap(e, size, sent, wrapSent);
            Conserves(e, o.ep, o.wires, 0)
  {
    FlushConserves(e, sent);
    EmitOpenKeeps(e, sent);
    var o1 := Flush(e, sent);
    if o1.ok {
      var o2 := EmitWrap(o1.ep, wrapSent);
      EmitWrapConserves(o1.ep, wrapSent);
      ConservesTwice(e, o1.ep, o2.ep, o1.wires, o2.wires);
    }
  }

  lemma AppendAsks(open: seq<Item>, item: Item)
    ensures Asked(open + [item]) == Asked(open) + (if item.Request? then item.blocks * ALIGNMENT else 0)
  {
    AllowancesConcat(open, [item]);
    SumConcat(Allowances(open), Allowances([item]));
    assert Allowances([item]) == if item.Request? then [item.blocks * ALIGNMENT] else [];
  }

  lemma WriteRequestConserves(e: Ep, o: Out, len: nat, responseAllowance: nat, flush: bool)
    requires EpInv(o.ep) && o.ep.remoteSize.Some? && o.ep.balance >= InternalAllowance(responseAllowance)
    requires Conserves(e, o.ep, o.wires, 0)
    ensures var r := WriteRequest(o, len, InternalAllowance(responseAllowance), flush).0;
            Conserves(e, r.ep, r.wires, 0)
  {
    var allowance := InternalAllowance(responseAllowance);
    BlocksRoundTrip(responseAllowance);
    AppendAsks(o.ep.open, Request(Blocks(allowance), len % U32));
    FlushConserves(o.ep, flush);
    var f := Flush(o.ep, flush);
    ConservesTwice(e, o.ep, f.ep, o.wires, f.wires);
  }

  lemma CallConserves(e: Ep, len: nat, responseAllowance: nat, a: Answers)
    requires EpInv(e)
    ensures var o := Call(e, len, responseAllowance, a).0;
            Conserves(e, o.ep, o.wires, 0)
  {
    var allowance := InternalAllowance(responseAllowance);
    if e.balance < allowance {
      FlushConserves(e, a.flush);
      assert [] + Flush(e, a.flush).wires == Flush(e, a.flush).wires;
    } else if e.remoteSize.Some? {
      HandleWrapKeeps(e, PaddedSize(len), a.batch, a.wrap);
      HandleWrapConserves(e, PaddedSize(len), a.batch, a.wrap);
      WriteRequestConserves(e, HandleWrap(e, PaddedSize(len), a.batch, a.wrap), len, responseAllowance, a.flush);
    }
  }

  /** A reply pays its allowance back in full if the reservation covers it. */
  lemma ReplyConserves(e: Ep, len: nat, allowance: nat, a: Answers)
    requires EpInv(e) && e.reservation >= allowance
    ensures var (o, r) := Reply(e, len, allowance, a);
            Conserves(e, o.ep, o.wires, if r.Called? then allowance else 0)
  {
    HandleWrapConserves(e, PaddedSize(len), a.batch, a.wrap);
    AppendAsks(HandleWrap(e, PaddedSize(len), a.batch, a.wrap).ep.open, Response(len % U32));
  }

  // Two endpoints.

  /**
   * The law. What `x` holds in reserve for responses is the balance of `y`, the grants on their
   * way to `y`, and the allowances of the requests of `y` that `x` has not replied to, be they in
   * the open batch of `y`, in flight, or with the application of `x`; and what failed
   * submissions have lost.
   */
  predicate Law(x: Peer, xy: seq<Wire>, y: Peer, yx: seq<Wire>) {
    x.ep.reservation
    == y.ep.balance + Grants(xy) + Asked(y.ep.open) + AskedInFlight(yx) + Sum(x.handles) + x.ep.lost
  }

  predicate NetInv(n: Net) {
    && EpInv(n.a.ep) && EpInv(n.b.ep)
    && Law(n.a, n.ab, n.b, n.ba) && Law(n.b, n.ba, n.a, n.ab)
  }

  datatype Event =
    | CallEvent(len: nat, responseAllowance: nat, answers: Answers)
    | ReplyEvent(handle: nat, len: nat, answers: Answers)
    | FlushEvent(sent: bool)
    | ArriveEvent

  function Swap(n: Net): Net {
    Net(n.b, n.a, n.ba, n.ab)
  }

  predicate CanStep(n: Net, ev: Event) {
    && EpInv(n.a.ep)
    && (ev.ReplyEvent? ==> ev.handle < |n.a.handles|)
    && (ev.ArriveEvent? ==> n.ba != [])
  }

  /** Peer `a` acts; a handle is used up by a reply that succeeds. */
  function Step(n: Net, ev: Event): Net
    requires CanStep(n, ev)
  {
    match ev
    case CallEvent(len, responseAllowance, answers) =>
      var o := Call(n.a.ep, len, responseAllowance, answers).0;
      n.(a := n.a.(ep := o.ep), ab := n.ab + o.wires)
    case ReplyEvent(i, len, answers) =>
      var (o, r) := Reply(n.a.ep, len, n.a.handles[i], answers);
      var handles := if r.Called? then n.a.handles[..i] + n.a.handles[i + 1..] else n.a.handles;
      n.(a := Peer(o.ep, handles), ab := n.ab + o.wires)
    case FlushEvent(sent) =>
      var o := Flush(n.a.ep, sent);
      n.(a := n.a.(ep := o.ep), ab := n.ab + o.wires)
    case ArriveEvent =>
      n.(a := Peer(Receive(n.a.ep, n.ba[0]), n.a.handles + Requests(n.ba[0])), ba := n.ba[1..])
  }

  lemma LawAfterSending(n: Net, e: Ep, handles: seq<nat>, wires: seq<Wire>, paid: nat)
    requires NetInv(n) && EpInv(e) && Conserves(n.a.ep, e, wires, paid) && Sum(handles) + paid == Sum(n.a.handles)
    ensures NetInv(n.(a := Peer(e, handles), ab := n.ab + wires))
  {
    WiresConcat(n.ab, wires);
  }

  /** Every handle is covered by the reservation, so paying it back never saturates. */
  lemma {:induction false} HandleCovered(s: seq<nat>, i: nat)
    requires i < |s|
    ensures s[i] <= Sum(s)
  {
    SumWithout(s, i);
  }

  lemma ReplyStepKeeps(n: Net, i: nat, len: nat, answers: Answers)
    requires NetInv(n) && CanStep(n, ReplyEvent(i, len, answers))
    ensures NetInv(Step(n, ReplyEvent(i, len, answers)))
  {
    var s := n.a.handles;
    HandleCovered(s, i);
    SumWithout(s, i);
    ReplyKeeps(n.a.ep, len, s[i], answers);
    ReplyConserves(n.a.ep, len, s[i], answers);
    var (o, r) := Reply(n.a.ep, len, s[i], answers);
    if r.Called? {
      LawAfterSending(n, o.ep, s[..i] + s[i + 1..], o.wires, s[i]);
    } else {
      LawAfterSending(n, o.ep, s, o.wires, 0);
    }
  }

  lemma ArriveStepKeeps(n: Net)
    requires NetInv(n) && n.ba != []
    ensures NetInv(Step(n, ArriveEvent))
  {
    SumConcat(n.a.handles, Requests(n.ba[0]));
  }

  lemma StepKeeps(n: Net, ev: Event)
    requires NetInv(n) && CanStep(n, ev)
    ensures NetInv(Step(n, ev))
  {
    match ev
    case CallEvent(len, responseAllowance, answers) =>
      CallKeeps(n.a.ep, len, responseAllowance, answers);
      CallConserves(n.a.ep, len, responseAllowance, answers);
      var o := Call(n.a.ep, len, responseAllowance, answers).0;
      LawAfterSending(n, o.ep, n.a.handles, o.wires, 0);
    case ReplyEvent(i, len, answers) => ReplyStepKeeps(n, i, len, answers);
    case FlushEvent(sent) =>
      EmitOpenKeeps(n.a.ep, sent);
      FlushConserves(n.a.ep, sent);
      var o := Flush(n.a.ep, sent);
      LawAfterSending(n, o.ep, n.a.handles, o.wires, 0);
    case ArriveEvent => ArriveStepKeeps(n);
  }

  // Runs.

  /** Two endpoints that exchanged their information and connected. */
  function Connected(x: Ep, y: Ep): Net {
    Net(Peer(Connect(x, y.recvSize, AnnouncedCredit(y)), []),
        Peer(Connect(y, x.recvSize, AnnouncedCredit(x)), []), [], [])
  }

  /** The configured limit fits the remote ring, as it does whenever the rings have the same size. */
  predicate LimitFits(x: Ep, y: Ep) {
    x.maxReservation <= y.recvSize / 4
  }

  /**
   * At connection an endpoint reserves what it has announced, and so the law holds, exactly if
   * its limit is within a quarter of the remote receive ring.
   */
  lemma LawAtConnection(configMax: nat, sendSize: nat, recvSize: nat, y: Ep)
    requires y.open == []
    ensures var x := Fresh(configMax, sendSize, recvSize);
            && (Law(Connected(x, y).a, [], Connected(x, y).b, []) <==> LimitFits(x, y))
            && (y.recvSize >= sendSize ==> LimitFits(x, y))
  {
  }

  predicate CanMove(n: Net, move: (bool, Event)) {
    CanStep(if move.0 then Swap(n) else n, move.1)
  }

  function Move(n: Net, move: (bool, Event)): Net
    requires CanMove(n, move)
  {
    if move.0 then Swap(Step(Swap(n), move.1)) else Step(n, move.1)
  }

  predicate RingSize(size: nat) {
    size > 0 && size % ALIGNMENT == 0
  }

  /** A run of two endpoints whose limits fit each other's receive rings. */
  predicate IsRun(x: Ep, y: Ep, run: seq<Net>, moves: seq<(bool, Event)>) {
    && x == Fresh(x.maxReservation, x.sendSize, x.recvSize) && y == Fresh(y.maxReservation, y.sendSize, y.recvSize)
    && RingSize(x.sendSize) && RingSize(y.sendSize) && RingSize(x.recvSize) && RingSize(y.recvSize)
    && LimitFits(x, y) && LimitFits(y, x)
    && |run| == |moves| + 1 && run[0] == Connected(x, y)
    && forall i :: 0 <= i < |moves| ==> CanMove(run[i], moves[i]) && run[i + 1] == Move(run[i], moves[i])
  }

  lemma {:induction false} RunInv(x: Ep, y: Ep, run: seq<Net>, moves: seq<(bool, Event)>, k: nat)
    requires IsRun(x, y, run, moves) && k < |run|
    ensures NetInv(run[k])
  {
    if k > 0 {
      RunInv(x, y, run, moves, k - 1);
      StepKeeps(if moves[k - 1].0 then Swap(run[k - 1]) else run[k - 1], moves[k - 1].1);
    }
  }

  /**
   * Response-credit conservation, in every state of every run with one reply per handle. The
   * reservation stays within the limit, and covers the allowance of every handle, so that the
   * saturating subtraction of `reply` never truncates.
   */
  lemma CreditIsConserved(x: Ep, y: Ep, run: seq<Net>, moves: seq<(bool, Event)>, k: nat)
    requires IsRun(x, y, run, moves) && k < |run|
    ensures var n := run[k];
            && n.a.ep.reservation
               == n.b.ep.balance + Grants(n.ab) + Asked(n.b.ep.open) + AskedInFlight(n.ba) + Sum(n.a.handles)
                  + n.a.ep.lost
            && n.b.ep.reservation
               == n.a.ep.balance + Grants(n.ba) + Asked(n.a.ep.open) + AskedInFlight(n.ab) + Sum(n.b.handles)
                  + n.b.ep.lost
            && n.a.ep.reservation <= n.a.ep.maxReservation && n.b.ep.reservation <= n.b.ep.maxReservation
            && (forall i :: 0 <= i < |n.a.handles| ==> n.a.handles[i] <= n.a.ep.reservation)
            && (forall i :: 0 <= i < |n.b.handles| ==> n.b.handles[i] <= n.b.ep.reservation)
  {
    RunInv(x, y, run, moves, k);
    var n := run[k];
    forall i | 0 <= i < |n.a.handles| ensures n.a.handles[i] <= n.a.ep.reservation {
      HandleCovered(n.a.handles, i);
    }
    forall i | 0 <= i < |n.b.handles| ensures n.b.handles[i] <= n.b.ep.reservation {
      HandleCovered(n.b.handles, i);
    }
  }

  // The other side.

  function SwapAll(run: seq<Net>): (r: seq<Net>)
    ensures |r| == |run| && forall i :: 0 <= i < |run| ==> r[i] == Swap(run[i])
  {
    seq(|run|, i requires 0 <= i < |run| => Swap(run[i]))
  }

  function FlipAll(moves: seq<(bool, Event)>): (r: seq<(bool, Event)>)
    ensures |r| == |moves| && forall i :: 0 <= i < |moves| ==> r[i] == (!moves[i].0, moves[i].1)
  {
    seq(|moves|, i requires 0 <= i < |moves| => (!moves[i].0, moves[i].1))
  }

  /** With the sides exchanged, a run is a run; so what is stated for `a` holds for `b` as well. */
  lemma SwapRun(x: Ep, y: Ep, run: seq<Net>, moves: seq<(bool, Event)>)
    requires IsRun(x, y, run, moves)
    ensures IsRun(y, x, SwapAll(run), FlipAll(moves))
  {
    var run', moves' := SwapAll(run), FlipAll(moves);
    forall i | 0 <= i < |moves'| ensures CanMove(run'[i], moves'[i]) && run'[i + 1] == Move(run'[i], moves'[i]) {
      assert CanMove(run[i], moves[i]) && run[i + 1] == Move(run[i], moves[i]);
    }
  }
}
