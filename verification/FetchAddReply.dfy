/**
 * The fetch-add channel with its replies: the request ring, one response ring for each caller, and
 * the limit on requests in flight. A reply waits while its slot in the response ring is taken.
 */
module FetchAddReply {
  import opened Prelude
  import Req = FetchAdd
  import Proof = FetchAddProof
  import Ring = ResponseRing

  type CallerId = Req.CallerId

  /** A reply under way: to whom, with which token and data. */
  datatype Reply = Reply(caller: CallerId, v: Ring.Entry)

  /** `owed` are the requests that the server has received and not begun to reply to. */
  datatype Sys = Sys(
    req: Req.State, rings: seq<Ring.State>, inflight: seq<nat>, maxInflight: nat,
    owed: seq<Req.Received>, reply: Option<Reply>)

  datatype Action =
    | RequestStep(c: CallerId, a: Req.Action)
    | BeginReply(j: nat, data: nat)
    | ReplyStep
    | ReceiveStep(c: CallerId)

  function Start(callers: nat, depth: nat, maxInflight: nat): Sys
    requires depth > 0
  {
    Sys(Req.Start(depth), seq(callers, _ => Ring.Start(depth)), seq(callers, _ => 0), maxInflight, [], None)
  }

  /** The next step of `try_push` or `try_pop`. */
  function PushAction(r: Ring.State, v: Ring.Entry): Ring.Action {
    match r.push
    case PushIdle => Ring.CheckFree(v)
    case Checked(_) => Ring.WriteEntry
    case Written(_) => Ring.SetValid
    case Flagged => Ring.StoreWritePos
  }

  function PopAction(r: Ring.State): Ring.Action {
    match r.pop
    case PopIdle => Ring.CheckValid
    case Seen => Ring.ReadEntry
    case Read(_) => Ring.ClearValid
    case Cleared(_) => Ring.StoreReadPos
  }

  /**
   * A caller begins a call if it is below its limit. It calls or receives, and the server receives
   * or replies, one after the other.
   */
  predicate Enabled(s: Sys, act: Action) {
    && |s.inflight| == |s.rings|
    && match act
       case RequestStep(c, a) =>
         && c < |s.rings| && Req.Enabled(s.req, c, a)
         && (a.BeginCall? ==> s.inflight[c] < s.maxInflight && s.rings[c].pop.PopIdle?)
         && (Req.ServerAction(a) ==> s.reply.None?)
       case BeginReply(j, _) => s.reply.None? && s.req.server.Ready? && j < |s.owed|
       case ReplyStep => s.reply.Some? && s.reply.value.caller < |s.rings| && Ring.Sized(s.rings[s.reply.value.caller])
       case ReceiveStep(c) => c < |s.rings| && Ring.Sized(s.rings[c]) && Req.At(s.req, c).Idle?
  }

  function Step(s: Sys, act: Action): Sys
    requires Enabled(s, act)
  {
    match act
    case RequestStep(c, a) =>
      var req := Req.Step(s.req, c, a);
      s.(req := req,
         inflight := if a.ReturnToken? then s.inflight[c := s.inflight[c] + 1] else s.inflight,
         owed := if a.TakeToken? then s.owed + [req.received[|req.received| - 1]] else s.owed)
    case BeginReply(j, data) =>
      s.(reply := Some(Reply(s.owed[j].caller, (s.owed[j].token, data))), owed := s.owed[..j] + s.owed[j + 1..])
    case ReplyStep =>
      var c := s.reply.value.caller;
      var r := s.rings[c];
      s.(rings := s.rings[c := Ring.Step(r, PushAction(r, s.reply.value.v))],
         reply := if r.push.Flagged? then None else s.reply)
    case ReceiveStep(c) =>
      var r := s.rings[c];
      s.(rings := s.rings[c := Ring.Step(r, PopAction(r))],
         inflight := if r.pop.Cleared? then s.inflight[c := SaturatingSub(s.inflight[c], 1)] else s.inflight)
  }

  /** The reply spins: the flag at its slot is still set. */
  predicate Waits(s: Sys) {
    && s.reply.Some? && s.reply.value.caller < |s.rings|
    && var r := s.rings[s.reply.value.caller];
    && Ring.Sized(r) && r.push.PushIdle? && r.valid[Ring.Slot(r, r.writePos)]
  }

  // Counting.

  function OwedTo(owed: seq<Req.Received>, c: CallerId): nat {
    if owed == [] then 0 else (if owed[0].caller == c then 1 else 0) + OwedTo(owed[1..], c)
  }

  lemma {:induction false} OwedConcat(s: seq<Req.Received>, t: seq<Req.Received>, c: CallerId)
    ensures OwedTo(s + t, c) == OwedTo(s, c) + OwedTo(t, c)
  {
    if s == [] {
      assert s + t == t;
    } else {
      assert (s + t)[1..] == s[1..] + t;
      OwedConcat(s[1..], t, c);
    }
  }

  lemma OwedWithout(owed: seq<Req.Received>, j: nat, c: CallerId)
    requires j < |owed|
    ensures OwedTo(owed[..j] + owed[j + 1..], c) + (if owed[j].caller == c then 1 else 0) == OwedTo(owed, c)
  {
    OwedConcat(owed[..j], owed[j + 1..], c);
    OwedConcat(owed[..j], owed[j..], c);
    assert owed[..j] + owed[j..] == owed && owed[j..][1..] == owed[j + 1..];
  }

  /** Whether a reply to `c` is under way and not yet in its ring. */
  function Replying(s: Sys, c: CallerId): nat {
    if s.reply.Some? && s.reply.value.caller == c && c < |s.rings| && !s.rings[c].push.Flagged? then 1 else 0
  }

  /** The books of caller `c`. */
  predicate CountOk(s: Sys, c: CallerId)
    requires c < |s.rings| == |s.inflight|
  {
    var r, l := s.rings[c], Req.At(s.req, c);
    && s.inflight[c] + r.readPos == Req.CountOf(s.req.sendCounts, c)
    && s.inflight[c] <= s.maxInflight && (!l.Idle? ==> s.inflight[c] < s.maxInflight && r.pop.PopIdle?)
    && |r.pushed| + OwedTo(s.owed, c) + Replying(s, c) == Req.CountOf(s.req.recvCounts, c)
    && (!r.push.PushIdle? ==> s.reply.Some? && s.reply.value.caller == c)
  }

  ghost predicate RingOk(r: Ring.State, depth: nat) {
    Ring.Inv(r) && |r.valid| == depth
  }

  ghost predicate SysInv(s: Sys, depth: nat) {
    && Proof.Inv(s.req) && Req.Capacity(s.req) == depth && |s.inflight| == |s.rings|
    && (forall c: CallerId {:trigger CountOk(s, c)} :: c < |s.rings| ==> CountOk(s, c))
    && (forall c :: 0 <= c < |s.rings| ==> RingOk(s.rings[c], depth))
    && (forall p :: 0 <= p < |s.req.tickets| ==> s.req.tickets[p].caller < |s.rings|)
    && (forall j :: 0 <= j < |s.owed| ==> s.owed[j].caller < |s.rings|)
    && (s.reply.Some? ==> s.reply.value.caller < |s.rings|)
  }

  // Steps on the request ring.

  /** The server has received no more from `c` than `c` has sent. */
  lemma ReceivedSent(r: Req.State, c: CallerId)
    requires Proof.Inv(r)
    ensures Req.CountOf(r.recvCounts, c) <=
            Req.CountOf(r.sendCounts, c) + if Proof.HasTicket(Req.At(r, c)) then 1 else 0
  {
    assert Proof.SendOk(r, c);
    BeforeGrows(r.tickets, |r.received|, r.head, c);
  }

  lemma {:induction false} BeforeGrows(tickets: seq<Req.Ticket>, m: nat, n: nat, c: CallerId)
    requires m <= n <= |tickets|
    ensures Proof.Before(tickets, m, c) <= Proof.Before(tickets, n, c)
    decreases n
  {
    if m < n {
      BeforeGrows(tickets, m, n - 1, c);
    }
  }

  /** What a step of `c`, or of the server, does to the counts of a caller. */
  lemma RequestCounts(r: Req.State, c: CallerId, a: Req.Action, d: CallerId)
    requires Req.Enabled(r, c, a)
    ensures var r' := Req.Step(r, c, a);
            && Req.CountOf(r'.sendCounts, d) ==
               Req.CountOf(r.sendCounts, d) + (if a.ReturnToken? && d == c then 1 else 0)
            && Req.CountOf(r'.recvCounts, d) ==
               Req.CountOf(r.recvCounts, d) + (if a.TakeToken? && d == r.server.caller then 1 else 0)
            && (d != c || Req.ServerAction(a) ==> Req.At(r', d) == Req.At(r, d))
            && (d == c && !Req.ServerAction(a) && !a.BeginCall? ==> !Req.At(r, c).Idle?)
            && (a.ReturnToken? ==> Req.At(r', c).Idle?)
            && Req.Capacity(r') == Req.Capacity(r)
  {
  }

  lemma RequestCountOk(s: Sys, depth: nat, c: CallerId, a: Req.Action, d: CallerId)
    requires SysInv(s, depth) && Enabled(s, RequestStep(c, a)) && d < |s.rings|
    ensures CountOk(Step(s, RequestStep(c, a)), d)
  {
    assert CountOk(s, d);
    RequestCounts(s.req, c, a, d);
    if a.TakeToken? {
      var r := Step(s, RequestStep(c, a)).req.received;
      OwedConcat(s.owed, [r[|r| - 1]], d);
      assert [r[|r| - 1]][1..] == [];
    }
  }

  lemma RequestTickets(s: Sys, depth: nat, c: CallerId, a: Req.Action)
    requires SysInv(s, depth) && Enabled(s, RequestStep(c, a))
    ensures var s' := Step(s, RequestStep(c, a));
            && (forall p :: 0 <= p < |s'.req.tickets| ==> s'.req.tickets[p].caller < |s.rings|)
            && (forall j :: 0 <= j < |s'.owed| ==> s'.owed[j].caller < |s.rings|)
  {
    if a.TakeToken? {
      assert Proof.ServerOk(s.req);
    }
  }

  lemma RequestKeeps(s: Sys, depth: nat, c: CallerId, a: Req.Action)
    requires SysInv(s, depth) && Enabled(s, RequestStep(c, a))
    ensures SysInv(Step(s, RequestStep(c, a)), depth)
  {
    var s' := Step(s, RequestStep(c, a));
    Proof.StepKeeps(s.req, c, a);
    RequestCounts(s.req, c, a, c);
    RequestTickets(s, depth, c, a);
    forall d: CallerId | d < |s'.rings| ensures CountOk(s', d) {
      RequestCountOk(s, depth, c, a, d);
    }
  }

  // Replies and responses.

  lemma BeginReplyKeeps(s: Sys, depth: nat, j: nat, data: nat)
    requires SysInv(s, depth) && Enabled(s, BeginReply(j, data))
    ensures SysInv(Step(s, BeginReply(j, data)), depth)
  {
    var s' := Step(s, BeginReply(j, data));
    forall d: CallerId | d < |s'.rings| ensures CountOk(s', d) {
      assert CountOk(s, d);
      OwedWithout(s.owed, j, d);
    }
  }

  lemma PushCounts(r: Ring.State, v: Ring.Entry)
    requires Ring.Sized(r)
    ensures Ring.Enabled(r, PushAction(r, v))
    ensures var r' := Ring.Step(r, PushAction(r, v));
            && r'.readPos == r.readPos && r'.pop == r.pop && |r'.valid| == |r.valid|
            && |r'.pushed| == |r.pushed| + (if r.push.Written? then 1 else 0)
            && (r'.push.Flagged? <==> r.push.Written?) && (r.push.Flagged? ==> r'.push.PushIdle?)
  {
  }

  lemma ReplyStepKeeps(s: Sys, depth: nat)
    requires SysInv(s, depth) && Enabled(s, ReplyStep)
    ensures SysInv(Step(s, ReplyStep), depth)
  {
    var s', c, v := Step(s, ReplyStep), s.reply.value.caller, s.reply.value.v;
    var r := s.rings[c];
    PushCounts(r, v);
    Ring.StepKeeps(r, PushAction(r, v));
    forall d: CallerId | d < |s'.rings| ensures CountOk(s', d) {
      assert CountOk(s, d);
    }
  }

  lemma PopCounts(r: Ring.State)
    requires Ring.Inv(r)
    ensures Ring.Enabled(r, PopAction(r))
    ensures var r' := Ring.Step(r, PopAction(r));
            && r'.pushed == r.pushed && r'.push == r.push && |r'.valid| == |r.valid|
            && r'.readPos == r.readPos + (if r.pop.Cleared? then 1 else 0)
    ensures r.pop.Cleared? ==> r.readPos < |r.pushed|
  {
  }

  /** A response that is received belongs to a request in flight, so the counter does not saturate. */
  lemma ReceiveCountOk(s: Sys, depth: nat, c: CallerId, d: CallerId)
    requires SysInv(s, depth) && Enabled(s, ReceiveStep(c)) && d < |s.rings|
    ensures CountOk(Step(s, ReceiveStep(c)), d)
  {
    assert CountOk(s, d) && RingOk(s.rings[c], depth);
    PopCounts(s.rings[c]);
    ReceivedSent(s.req, c);
  }

  lemma ReceiveStepKeeps(s: Sys, depth: nat, c: CallerId)
    requires SysInv(s, depth) && Enabled(s, ReceiveStep(c))
    ensures SysInv(Step(s, ReceiveStep(c)), depth)
  {
    var s', r := Step(s, ReceiveStep(c)), s.rings[c];
    assert RingOk(r, depth);
    PopCounts(r);
    Ring.StepKeeps(r, PopAction(r));
    forall d: CallerId | d < |s'.rings| ensures CountOk(s', d) {
      ReceiveCountOk(s, depth, c, d);
    }
  }

  lemma StepKeeps(s: Sys, depth: nat, act: Action)
    requires SysInv(s, depth) && Enabled(s, act)
    ensures SysInv(Step(s, act), depth)
  {
    match act
    case RequestStep(c, a) => RequestKeeps(s, depth, c, a);
    case BeginReply(j, data) => BeginReplyKeeps(s, depth, j, data);
    case ReplyStep => ReplyStepKeeps(s, depth);
    case ReceiveStep(c) => ReceiveStepKeeps(s, depth, c);
  }

  // Runs.

  predicate IsRun(callers: nat, depth: nat, maxInflight: nat, run: seq<Sys>, acts: seq<Action>) {
    && depth > 0 && |run| == |acts| + 1 && run[0] == Start(callers, depth, maxInflight)
    && forall i :: 0 <= i < |acts| ==> Enabled(run[i], acts[i]) && run[i + 1] == Step(run[i], acts[i])
  }

  lemma StartInv(callers: nat, depth: nat, maxInflight: nat)
    requires depth > 1
    ensures SysInv(Start(callers, depth, maxInflight), depth)
  {
    Proof.StartInv(depth);
    var s := Start(callers, depth, maxInflight);
    forall c: CallerId | c < |s.rings| ensures CountOk(s, c) {
    }
  }

  lemma {:induction false} RunInv(callers: nat, depth: nat, maxInflight: nat, run: seq<Sys>, acts: seq<Action>, k: nat)
    requires IsRun(callers, depth, maxInflight, run, acts) && depth > 1 && k < |run|
    ensures SysInv(run[k], depth) && run[k].maxInflight == maxInflight
  {
    if k == 0 {
      StartInv(callers, depth, maxInflight);
    } else {
      RunInv(callers, depth, maxInflight, run, acts, k - 1);
      StepKeeps(run[k - 1], depth, acts[k - 1]);
    }
  }

  /** Fewer responses are in the ring than requests may be in flight. */
  lemma RoomForReply(s: Sys, depth: nat)
    requires SysInv(s, depth) && s.reply.Some? && s.maxInflight <= depth
    ensures !Waits(s)
  {
    var c := s.reply.value.caller;
    var r := s.rings[c];
    assert CountOk(s, c) && RingOk(r, depth);
    ReceivedSent(s.req, c);
    if r.push.PushIdle? {
      assert Ring.Free(r, r.writePos);
    }
  }

  /** With a limit within the depth of the rings, no reply ever waits. */
  lemma RepliesNeverWait(callers: nat, depth: nat, maxInflight: nat, run: seq<Sys>, acts: seq<Action>, k: nat)
    requires IsRun(callers, depth, maxInflight, run, acts) && depth > 1 && maxInflight <= depth && k < |run|
    ensures !Waits(run[k])
  {
    RunInv(callers, depth, maxInflight, run, acts, k);
    if run[k].reply.Some? {
      RoomForReply(run[k], depth);
    }
  }

  /** In any run, no more requests are in flight than the limit, and no more responses wait for their caller. */
  lemma InflightBound(callers: nat, depth: nat, maxInflight: nat, run: seq<Sys>, acts: seq<Action>, k: nat, c: CallerId)
    requires IsRun(callers, depth, maxInflight, run, acts) && depth > 1 && k < |run| && c < callers
    ensures var s := run[k];
            && |s.rings| == |s.inflight| == callers && s.inflight[c] <= maxInflight
            && |s.rings[c].pushed| - |s.rings[c].popped| <= maxInflight
  {
    RunInv(callers, depth, maxInflight, run, acts, k);
    RingsStay(callers, depth, maxInflight, run, acts, k);
    var s := run[k];
    assert CountOk(s, c) && RingOk(s.rings[c], depth);
    ReceivedSent(s.req, c);
  }

  lemma {:induction false} RingsStay(
      callers: nat, depth: nat, maxInflight: nat, run: seq<Sys>, acts: seq<Action>, k: nat)
    requires IsRun(callers, depth, maxInflight, run, acts) && k < |run|
    ensures |run[k].rings| == callers
  {
    if k > 0 {
      RingsStay(callers, depth, maxInflight, run, acts, k - 1);
    }
  }
}
