/** Concrete runs of two RC endpoints, built move by move. */
module RcTrace {
  import opened RcEndpointSpec
  import opened RcCredit

  datatype Trace = Trace(run: seq<Net>, moves: seq<(bool, Event)>)

  predicate Reaches(x: Ep, y: Ep, t: Trace, n: Net) {
    IsRun(x, y, t.run, t.moves) && t.run[|t.moves|] == n
  }

  lemma Extend(x: Ep, y: Ep, t: Trace, n: Net, move: (bool, Event)) returns (t': Trace, n': Net)
    requires Reaches(x, y, t, n) && CanMove(n, move)
    ensures n' == Move(n, move) && Reaches(x, y, t', n') && t'.moves == t.moves + [move]
  {
    n' := Move(n, move);
    t' := Trace(t.run + [n'], t.moves + [move]);
    forall i | 0 <= i < |t'.moves|
      ensures CanMove(t'.run[i], t'.moves[i]) && t'.run[i + 1] == Move(t'.run[i], t'.moves[i])
    {
      if i < |t.moves| {
        assert t'.run[i] == t.run[i] && t'.run[i + 1] == t.run[i + 1] && t'.moves[i] == t.moves[i];
      }
    }
  }

  /** All submissions of an operation succeed. */
  const SENT := Answers(true, true, true)

  predicate Successful(ev: Event) {
    match ev
    case CallEvent(_, _, a) => a.batch && a.wrap && a.flush
    case ReplyEvent(_, _, a) => a.batch && a.wrap && a.flush
    case FlushEvent(sent) => sent
    case ArriveEvent => true
  }
}
