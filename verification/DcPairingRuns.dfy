/** Call pairing of the DC transport, over every run in which a handle is replied to once. */
module DcPairingRuns {
  import opened Prelude
  import opened RingPos
  import opened DcEncoding
  import opened DcBatch
  import opened DcEndpointSpec
  import opened DcReceive
  import opened DcStream
  import opened DcNet
  import opened DcPairing
  import Runs = DcRuns

  /** The two endpoints with the history of their calls. */
  datatype Paired = Paired(net: Runs.Net, a: Side, b: Side)

  function Swap(p: Paired): Paired {
    Paired(Runs.Swap(p.net), p.b, p.a)
  }

  /** Peer `a` may act; it replies only to a request that it holds and has not answered. */
  predicate CanStep(p: Paired, ev: Runs.Event) {
    Runs.CanStep(p.net, ev) && (ev.ReplyEvent? ==> Answerable(p.b, ev.callId))
  }

  function Step(p: Paired, ev: Runs.Event): Paired
    requires CanStep(p, ev)
  {
    var net' := Runs.Step(p.net, ev);
    match ev
    case CallEvent(data, userData, key) =>
      if TryAppend(p.net.a.ep, |data|).Appended? then Paired(net', Issue(p.a, key, userData, data), p.b)
      else Paired(net', p.a, p.b)
    case ReplyEvent(callId, data) =>
      if TryAppend(p.net.a.ep, |data|).Appended? then
        Paired(net', p.a.(out := p.a.out + [AnswerMessage(p.b, callId, data)]), AnswerCalls(p.b, callId, data))
      else Paired(net', p.a, p.b)
    case FlushEvent(_, _, _) => Paired(net', p.a, p.b)
    case ArriveEvent =>
      var (b', a') := Absorb(p.b, p.a, |p.net.ba[0].msgs|);
      Paired(net', a', b')
  }

  /** The messages of `x` that its peer has yet to decode. */
  predicate OutOk(out: seq<Tagged>, x: Peer, w: seq<Batch>) {
    EraseAll(out) == Payloads(w) + x.open
  }

  ghost predicate PairInv(p: Paired) {
    && Runs.NetInv(p.net)
    && CallerInv(p.a, p.b.out, p.net.a.ep.pending, p.net.a.inbox.responses)
    && CallerInv(p.b, p.a.out, p.net.b.ep.pending, p.net.b.inbox.responses)
    && OutOk(p.a.out, p.net.a, p.net.ab) && OutOk(p.b.out, p.net.b, p.net.ba)
  }

  lemma EraseAppend(out: seq<Tagged>, m: Tagged, x: Peer, w: seq<Batch>, x': Peer)
    requires OutOk(out, x, w) && x'.open == x.open + [Erase(m)]
    ensures OutOk(out + [m], x', w)
  {
    assert EraseAll(out + [m]) == EraseAll(out) + [Erase(m)];
    ConcatShift(Payloads(w), x.open, [Erase(m)]);
  }

  lemma CallKeeps(p: Paired, data: Bytes, userData: UserData, key: nat)
    requires PairInv(p) && CanStep(p, Runs.CallEvent(data, userData, key))
    ensures PairInv(Step(p, Runs.CallEvent(data, userData, key)))
  {
    Runs.CallStepKeeps(p.net, data, userData, key);
    if TryAppend(p.net.a.ep, |data|).Appended? {
      var m := Request(|p.a.calls|, key, data);
      IssueKeeps(p.a, p.b.out, p.net.a.ep.pending, p.net.a.inbox.responses, key, userData, data);
      StreamAppendOther(p.b.calls, p.a.out, m, true);
      EraseAppend(p.a.out, m, p.net.a, p.net.ab, CallPeer(p.net.a, data, userData, key));
    }
  }

  lemma ReplyFrame(x: Peer, callId: nat, data: Bytes)
    requires EpInv(x.ep)
    ensures var x' := ReplyPeer(x, callId, data);
            && x'.ep.pending == x.ep.pending && x'.inbox == x.inbox
            && x'.open ==
               (if TryAppend(x.ep, |data|).Appended? then x.open + [Msg(ToResponseId(callId), data)] else x.open)
  {
  }

  lemma ReplyPair(p: Paired, n: Runs.Net, callId: nat, data: Bytes)
    requires PairInv(p) && Runs.NetInv(n) && n.b == p.net.b && n.ba == p.net.ba && n.ab == p.net.ab
    requires n.a.ep.pending == p.net.a.ep.pending && n.a.inbox == p.net.a.inbox
    requires n.a.open == p.net.a.open + [Msg(ToResponseId(callId), data)] && Answerable(p.b, callId)
    ensures PairInv(Paired(n, p.a.(out := p.a.out + [AnswerMessage(p.b, callId, data)]),
                           AnswerCalls(p.b, callId, data)))
  {
    var m := AnswerMessage(p.b, callId, data);
    AnswerKeeps(p.b, p.a.out, n.b.ep.pending, n.b.inbox.responses, callId, data);
    StreamAppendOther(p.a.calls, p.a.out, m, false);
    EraseAppend(p.a.out, m, p.net.a, n.ab, n.a);
  }

  lemma ReplyKeeps(p: Paired, callId: nat, data: Bytes)
    requires PairInv(p) && CanStep(p, Runs.ReplyEvent(callId, data))
    ensures PairInv(Step(p, Runs.ReplyEvent(callId, data)))
  {
    Runs.ReplyStepKeeps(p.net, callId, data);
    ReplyFrame(p.net.a, callId, data);
    if TryAppend(p.net.a.ep, |data|).Appended? {
      ReplyPair(p, Runs.Step(p.net, Runs.ReplyEvent(callId, data)), callId, data);
    }
  }

  lemma SameRest(d: seq<Msg>, r: seq<Msg>, s: seq<Msg>, r': seq<Msg>, s': seq<Msg>)
    requires d + r + s == d + r' + s'
    ensures r + s == r' + s'
  {
    assert r + s == (d + r + s)[|d|..] && r' + s' == (d + r' + s')[|d|..];
  }

  lemma EmissionKeeps(p: Paired, n: Runs.Net)
    requires PairInv(p) && Runs.NetInv(n) && n.b == p.net.b && n.ba == p.net.ba && OnlyEmits(p.net.a, n.a)
    ensures PairInv(Paired(n, p.a, p.b))
  {
    SameRest(n.b.inbox.decoded, Payloads(p.net.ab), p.net.a.open, Payloads(n.ab), n.a.open);
  }

  lemma FlushKeeps(p: Paired, batch: Submit, wrap: Submit, credit: Submit)
    requires PairInv(p) && CanStep(p, Runs.FlushEvent(batch, wrap, credit))
    ensures PairInv(Step(p, Runs.FlushEvent(batch, wrap, credit)))
  {
    Runs.FlushStepKeeps(p.net, batch, wrap, credit);
    FlushOnlyEmits(p.net.a, batch, wrap, credit);
    EmissionKeeps(p, Runs.Step(p.net, Runs.FlushEvent(batch, wrap, credit)));
  }

  /** The slab after an arrival: what decoding left of it. */
  lemma ArrivalPending(x: Peer, w: seq<Batch>, y: Peer)
    requires LinkInv(x, w, y) && w != []
    ensures CanDeliver(y, w[0])
    ensures var y', off := DeliverPeer(y, w[0]), Offset(y.ep.lastRecv, |y.ep.recvRing|) + BATCH_HEADER_SIZE;
            var inbox' := DeliverAll(y.inbox.(pending := y.ep.pending), off, w[0].msgs);
            && y'.ep.pending == inbox'.pending && y'.inbox.responses == inbox'.responses
            && y'.open == y.open
  {
    LandStands(y, w[0]);
    if IsWrap(w[0]) {
      ReceiveWrap(Land(y.ep, w[0]), w[0], y.inbox);
    } else {
      ReceiveMessages(Land(y.ep, w[0]), w[0], y.inbox);
    }
  }

  lemma FirstPayload(out: seq<Tagged>, x: Peer, w: seq<Batch>)
    requires OutOk(out, x, w) && w != []
    ensures |w[0].msgs| <= |out| && w[0].msgs == EraseAll(out)[..|w[0].msgs|]
    ensures OutOk(out[|w[0].msgs|..], x, w[1..])
  {
    var k := |w[0].msgs|;
    assert EraseAll(out) == w[0].msgs + (Payloads(w[1..]) + x.open);
    assert EraseAll(out[k..]) == EraseAll(out)[k..];
  }

  lemma ArriveKeeps(p: Paired)
    requires PairInv(p) && CanStep(p, Runs.ArriveEvent)
    ensures PairInv(Step(p, Runs.ArriveEvent))
  {
    var n, y := p.net, p.net.a;
    Runs.ArriveStepKeeps(n);
    ArrivalPending(n.b, n.ba, y);
    FirstPayload(p.b.out, n.b, n.ba);
    var inbox, off := y.inbox.(pending := y.ep.pending), Offset(y.ep.lastRecv, |y.ep.recvRing|) + BATCH_HEADER_SIZE;
    AbsorbKeeps(p.b, p.a, n.b.ep.pending, n.b.inbox.responses, inbox, off, n.ba[0].msgs);
  }

  lemma StepKeeps(p: Paired, ev: Runs.Event)
    requires PairInv(p) && CanStep(p, ev)
    ensures PairInv(Step(p, ev))
  {
    match ev
    case CallEvent(data, userData, key) => CallKeeps(p, data, userData, key);
    case ReplyEvent(callId, data) => ReplyKeeps(p, callId, data);
    case FlushEvent(batch, wrap, credit) => FlushKeeps(p, batch, wrap, credit);
    case ArriveEvent => ArriveKeeps(p);
  }

  // Runs.

  function Connected(size: nat): Paired
    requires size > 0
  {
    Paired(Runs.Connected(size), Side([], map[], [], []), Side([], map[], [], []))
  }

  predicate CanMove(p: Paired, move: (bool, Runs.Event)) {
    CanStep(if move.0 then Swap(p) else p, move.1)
  }

  function Move(p: Paired, move: (bool, Runs.Event)): Paired
    requires CanMove(p, move)
  {
    if move.0 then Swap(Step(Swap(p), move.1)) else Step(p, move.1)
  }

  predicate IsRun(size: nat, run: seq<Paired>, moves: seq<(bool, Runs.Event)>) {
    && 64 <= size < U32 && size % ALIGNMENT == 0
    && |run| == |moves| + 1 && run[0] == Connected(size)
    && forall i :: 0 <= i < |moves| ==> CanMove(run[i], moves[i]) && run[i + 1] == Move(run[i], moves[i])
  }

  lemma {:induction false} RunInv(size: nat, run: seq<Paired>, moves: seq<(bool, Runs.Event)>, k: nat)
    requires IsRun(size, run, moves) && k < |run|
    ensures PairInv(run[k])
  {
    if k == 0 {
      Runs.ConnectedInv(size);
    } else {
      RunInv(size, run, moves, k - 1);
      StepKeeps(if moves[k - 1].0 then Swap(run[k - 1]) else run[k - 1], moves[k - 1].1);
    }
  }

  /** The peers are alike: what holds of `a` in every run holds of `b`. */
  lemma SwapRun(size: nat, run: seq<Paired>, moves: seq<(bool, Runs.Event)>)
    requires IsRun(size, run, moves)
    ensures IsRun(size, seq(|run|, i requires 0 <= i < |run| => Swap(run[i])), Runs.FlipAll(moves))
  {
    var run', moves' := seq(|run|, i requires 0 <= i < |run| => Swap(run[i])), Runs.FlipAll(moves);
    forall i | 0 <= i < |moves'| ensures CanMove(run'[i], moves'[i]) && run'[i + 1] == Move(run'[i], moves'[i]) {
      assert CanMove(run[i], moves[i]);
    }
  }

  /** The endpoints do not see the history: without it, the run is a run of the transport. */
  lemma RunOfTransport(size: nat, run: seq<Paired>, moves: seq<(bool, Runs.Event)>)
    requires IsRun(size, run, moves)
    ensures Runs.IsRun(size, seq(|run|, i requires 0 <= i < |run| => run[i].net), moves)
  {
  }

  /**
   * The callback of `x` has got the user data of distinct calls of `side`, each with the payload of
   * the reply to that very call; and the slab holds the user data of exactly the calls that are
   * not answered yet.
   */
  ghost predicate Answered(side: Side, x: Peer) {
    var calls, log, responses, pending := side.calls, side.log, x.inbox.responses, x.ep.pending;
    && |responses| == |log|
    && (forall i :: 0 <= i < |log| ==>
          log[i] < |calls| && responses[i] == (calls[log[i]].userData, calls[log[i]].reply))
    && (forall i, j :: 0 <= i < j < |log| ==> log[i] != log[j])
    && (forall t :: 0 <= t < |calls| ==> (calls[t].stage.Answered? <==> t in log))
    && (forall t :: 0 <= t < |calls| && t !in log ==>
          calls[t].key in pending && pending[calls[t].key] == calls[t].userData)
    && (forall key :: key in pending ==> exists t :: 0 <= t < |calls| && calls[t].key == key && t !in log)
  }

  lemma CallerAnswered(side: Side, back: seq<Tagged>, x: Peer)
    requires CallerInv(side, back, x.ep.pending, x.inbox.responses)
    ensures Answered(side, x)
  {
    forall key | key in x.ep.pending
      ensures exists t :: 0 <= t < |side.calls| && side.calls[t].key == key && t !in side.log
    {
      var t := side.live[key];
      assert side.calls[t].key == key;
    }
  }

  /**
   * Call pairing. In every state of every run, although slab keys are reused, both peers have been
   * answered as they asked; every other call is under way, held by the callee, or has its response
   * under way.
   */
  lemma ResponsesAnswerTheirCalls(size: nat, run: seq<Paired>, moves: seq<(bool, Runs.Event)>, k: nat)
    requires IsRun(size, run, moves) && k < |run|
    ensures Answered(run[k].a, run[k].net.a) && Answered(run[k].b, run[k].net.b)
  {
    RunInv(size, run, moves, k);
    CallerAnswered(run[k].a, run[k].b.out, run[k].net.a);
    CallerAnswered(run[k].b, run[k].a.out, run[k].net.b);
  }

  /** The next response to arrive finds its call in the slab, under its key, and answers it. */
  lemma ArrivingResponseFindsItsCall(size: nat, run: seq<Paired>, moves: seq<(bool, Runs.Event)>, k: nat, i: nat)
    requires IsRun(size, run, moves) && k < |run| && i < |run[k].b.out| && run[k].b.out[i].Response?
    ensures var p, m := run[k], run[k].b.out[i];
            && m.tag < |p.a.calls| && m.key in p.net.a.ep.pending
            && p.net.a.ep.pending[m.key] == p.a.calls[m.tag].userData
            && m.data == p.a.calls[m.tag].reply && p.a.calls[m.tag].stage.Returning?
  {
    RunInv(size, run, moves, k);
    assert MessageOk(run[k].a.calls, run[k].b.out[i]);
  }
}
