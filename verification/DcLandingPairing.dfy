/** Call pairing where batches land ahead of their processing. */
module DcLandingPairing {
  import opened DcStream
  import Runs = DcRuns
  import opened DcPairing
  import Pairs = DcPairingRuns
  import opened DcLanding

  /** Moves determine the run. */
  lemma {:induction false} SameMovesSameRun(
      size: nat, run: seq<Runs.Net>, other: seq<Runs.Net>, moves: seq<(bool, Runs.Event)>, k: nat)
    requires Runs.IsRun(size, run, moves) && Runs.IsRun(size, other, moves) && k < |run|
    ensures run[k] == other[k]
  {
    if k > 0 {
      SameMovesSameRun(size, run, other, moves, k - 1);
      assert run[k - 1 + 1] == Runs.Move(run[k - 1], moves[k - 1]);
      assert other[k - 1 + 1] == Runs.Move(other[k - 1], moves[k - 1]);
    }
  }

  /** The peers of a landing run go along with the call history of the same moves. */
  lemma HistoryAlong(size: nat, run: seq<Wire>, acts: seq<(bool, Action)>, k: nat, paired: seq<Pairs.Paired>)
    requires IsLandingRun(size, run, acts) && k < |run| && AllWithin(run, acts, k)
    requires Pairs.IsRun(size, paired, Events(acts[..k]))
    ensures Follows(run[k], paired[|Events(acts[..k])|].net)
  {
    var model, moves := Refines(size, run, acts, k);
    var nets := seq(|paired|, i requires 0 <= i < |paired| => paired[i].net);
    Pairs.RunOfTransport(size, paired, moves);
    SameMovesSameRun(size, model, nets, moves, |moves|);
  }

  lemma SameAnswered(side: Side, x: Peer, y: Peer)
    requires Same(x, y) && Pairs.Answered(side, y)
    ensures Pairs.Answered(side, x)
  {
    assert x.inbox == y.inbox && x.ep.pending == y.ep.pending;
  }

  /**
   * The call history of the same moves tells, for both peers, what the callbacks have got and
   * which calls are pending, also if batches land earlier and none without messages is sent too
   * far ahead.
   */
  lemma LandedResponsesAnswerTheirCalls(
      size: nat, run: seq<Wire>, acts: seq<(bool, Action)>, k: nat, paired: seq<Pairs.Paired>)
    requires IsLandingRun(size, run, acts) && k < |run| && AllWithin(run, acts, k)
    requires Pairs.IsRun(size, paired, Events(acts[..k]))
    ensures var p, n := paired[|Events(acts[..k])|], run[k].net;
            Pairs.Answered(p.a, n.a) && Pairs.Answered(p.b, n.b)
  {
    var p, n := paired[|Events(acts[..k])|], run[k].net;
    HistoryAlong(size, run, acts, k, paired);
    Pairs.ResponsesAnswerTheirCalls(size, paired, Events(acts[..k]), |Events(acts[..k])|);
    SameAnswered(p.a, n.a, p.net.a);
    SameAnswered(p.b, n.b, p.net.b);
  }
}
