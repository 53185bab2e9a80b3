/** When a failed submission loses DC credit. */
module DcLoss {
  import opened Prelude
  import opened DcEndpointSpec
  import opened DcRuns

  predicate Successful(ev: Event) {
    ev.FlushEvent? ==> ev.batch.Sent? && ev.wrap.Sent? && ev.credit.Sent?
  }

  /** The first submission that a flush attempts fails; a later one carries no credit any more. */
  predicate FirstFails(e: Ep, ev: Event) {
    && ev.FlushEvent?
    && if e.batchCount > 0 then !ev.batch.Sent? else if e.wrapPending then !ev.wrap.Sent? else !ev.credit.Sent?
  }

  /** The credit that was due when it failed. */
  function StepLoss(n: Net, ev: Event): nat
    requires CanStep(n, ev)
  {
    if FirstFails(n.a.ep, ev) then n.a.ep.lastRecv - n.a.ep.lastNotified else 0
  }

  lemma StepLoses(n: Net, ev: Event)
    requires CanStep(n, ev)
    ensures Step(n, ev).a.lost == n.a.lost + StepLoss(n, ev) && Step(n, ev).b.lost == n.b.lost
    ensures Successful(ev) ==> StepLoss(n, ev) == 0
  {
    if ev.FlushEvent? && n.a.ep.batchCount > 0 {
      EmitAndPrepareKeeps(n.a.ep, n.a.ep.batchCount, ev.batch);
    }
  }

  function MoveLoss(n: Net, move: (bool, Event)): nat
    requires CanMove(n, move)
  {
    StepLoss(SeenBy(move.0, n), move.1)
  }

  lemma MoveLoses(n: Net, move: (bool, Event))
    requires CanMove(n, move)
    ensures Move(n, move).a.lost + Move(n, move).b.lost == n.a.lost + n.b.lost + MoveLoss(n, move)
    ensures Successful(move.1) ==> MoveLoss(n, move) == 0
  {
    StepLoses(SeenBy(move.0, n), move.1);
  }

  function Lost(n: Net): nat {
    n.a.lost + n.b.lost
  }

  lemma RunMoveLoses(size: nat, run: seq<Net>, moves: seq<(bool, Event)>, k: nat)
    requires IsRun(size, run, moves) && k < |moves|
    ensures Lost(run[k + 1]) == Lost(run[k]) + MoveLoss(run[k], moves[k])
    ensures Successful(moves[k].1) ==> MoveLoss(run[k], moves[k]) == 0
  {
    MoveLoses(run[k], moves[k]);
  }

  lemma LostOverRun(size: nat, run: seq<Net>, moves: seq<(bool, Event)>, k: nat)
    requires IsRun(size, run, moves) && k < |run|
    ensures Lost(run[k]) == 0 <==> forall i :: 0 <= i < k ==> MoveLoss(run[i], moves[i]) == 0
  {
    var totals := seq(|run|, i requires 0 <= i < |run| => Lost(run[i]));
    var losses := seq(|moves|, i requires 0 <= i < |moves| && CanMove(run[i], moves[i]) => MoveLoss(run[i], moves[i]));
    forall i | 0 <= i < |losses| ensures totals[i + 1] == totals[i] + losses[i] {
      RunMoveLoses(size, run, moves, i);
    }
    SumIsZeroExactly(totals, losses, k);
    assert forall i :: 0 <= i < k ==> losses[i] == MoveLoss(run[i], moves[i]);
  }

  /** Credit has been lost exactly if some submission failed while credit was due. */
  lemma NothingLostExactly(size: nat, run: seq<Net>, moves: seq<(bool, Event)>, k: nat)
    requires IsRun(size, run, moves) && k < |run|
    ensures run[k].a.lost == 0 && run[k].b.lost == 0 <==> forall i :: 0 <= i < k ==> MoveLoss(run[i], moves[i]) == 0
    ensures forall i :: 0 <= i < k && Successful(moves[i].1) ==> MoveLoss(run[i], moves[i]) == 0
  {
    LostOverRun(size, run, moves, k);
    forall i | 0 <= i < k && Successful(moves[i].1) ensures MoveLoss(run[i], moves[i]) == 0 {
      RunMoveLoses(size, run, moves, i);
    }
  }
}
