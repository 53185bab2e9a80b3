/** Pairing and slot safety of the shared-memory RPC, over every interleaving. */
module IpcProof {
  import opened Prelude
  import opened RingPos
  import opened OneSided
  import opened Ipc

  /** The requests whose responses the client has taken. */
  function Consumed(s: State): seq<nat> {
    if s.respTail <= |s.answers| then s.answers[..s.respTail] else s.answers
  }

  /** The request is with the server or on its way, or its response is. */
  predicate Live(s: State, p: nat) {
    p < |s.users| && p !in Consumed(s)
  }

  /** The request to which the server is replying. */
  function Replying(s: State): Option<nat> {
    if s.server.ReplyData? || s.server.ReplyGeneration? then Some(s.server.p) else None
  }

  ghost predicate Rings(s: State) {
    && Sized(s) && RingOk(s.req, s.reqTail) && RingOk(s.resp, s.respTail)
    && |s.users| == |s.req.sent| && |s.answers| == |s.replies| == |s.resp.sent|
    && s.received == s.req.sent[..s.reqTail]
    && Tokens(Capacity(s.req), s.resp.sent, s.answers, s.replies)
  }

  /** Each response carries the slot of the request it answers. */
  ghost predicate Tokens(n: nat, sent: seq<Response>, answers: seq<nat>, replies: seq<Payload>) {
    && n > 0 && |sent| == |answers| == |replies|
    && forall j :: 0 <= j < |sent| ==> sent[j] == Response(Offset(answers[j], n), replies[j])
  }

  /** Requests received are held, being replied to, or answered once. */
  ghost predicate Served(answers: seq<nat>, reqTail: nat, held: set<nat>, replying: Option<nat>) {
    && Distinct(answers)
    && (forall j :: 0 <= j < |answers| ==> answers[j] < reqTail)
    && (forall p: nat :: p in held ==> p < reqTail && p !in answers && replying != Some(p))
    && (replying.Some? ==> replying.value < reqTail && replying.value !in answers)
    && (forall p: nat :: p < reqTail ==> p in held || replying == Some(p) || p in answers)
  }

  /** A live request has its user data in its slot, unless the client is about to record it. */
  predicate OwnedAt(userData: seq<Option<UserData>>, users: seq<UserData>, consumed: seq<nat>, recording: bool,
                    p: nat) {
    p < |users| && p !in consumed ==>
      && |userData| > 0
      && (userData[Offset(p, |userData|)] == Some(users[p]) || (recording && p + 1 == |users|))
  }

  ghost predicate Owned(userData: seq<Option<UserData>>, users: seq<UserData>, consumed: seq<nat>, recording: bool) {
    forall p: nat {:trigger OwnedAt(userData, users, consumed, recording, p)} ::
      OwnedAt(userData, users, consumed, recording, p)
  }

  /** Live requests have different slots. */
  predicate ApartAt(n: nat, count: nat, consumed: seq<nat>, p: nat, q: nat) {
    n > 0 && (p < count && q < count && p !in consumed && q !in consumed && Offset(p, n) == Offset(q, n) ==> p == q)
  }

  ghost predicate Apart(n: nat, count: nat, consumed: seq<nat>) {
    forall p: nat, q: nat {:trigger ApartAt(n, count, consumed, p, q)} :: ApartAt(n, count, consumed, p, q)
  }

  ghost predicate Slots(s: State) {
    && Owned(s.userData, s.users, Consumed(s), s.client.Record?)
    && Apart(|s.userData|, |s.users|, Consumed(s))
    && s.inFlight + s.respTail + (if s.client.Record? then 1 else 0) == |s.users|
  }

  ghost predicate Pcs(s: State)
    requires Rings(s)
  {
    && !s.client.Panicked?
    && (s.client.Record? ==> |s.users| > 0 && s.client.slot == SlotOf(s, |s.users| - 1)
                             && s.client.user == s.users[|s.users| - 1] && Live(s, |s.users| - 1))
    && (s.client.SendData? || s.client.SendGeneration? ==> s.userData[SlotOf(s, |s.req.sent|)].None?)
    && (s.client.SendGeneration? ==> Written(s.req, s.client.req))
    && (s.client.Take? ==> s.respTail < |s.resp.sent|)
    && (s.server.ReadRequest? ==> s.reqTail < |s.req.sent|)
    && (s.server.ReplyGeneration? ==> Written(s.resp, Response(SlotOf(s, s.server.p), s.server.data)))
  }

  /** Each callback has got the user data of the request and the data of the reply. */
  ghost predicate Callbacks(callbacks: seq<(UserData, Payload)>, users: seq<UserData>, answers: seq<nat>,
                            replies: seq<Payload>) {
    && |callbacks| <= |answers| == |replies|
    && (forall j :: 0 <= j < |callbacks| ==> answers[j] < |users| && callbacks[j] == (users[answers[j]], replies[j]))
  }

  ghost predicate Inv(s: State) {
    && Rings(s) && Served(s.answers, s.reqTail, s.held, Replying(s)) && Slots(s) && Pcs(s)
    && |s.callbacks| == s.respTail && Callbacks(s.callbacks, s.users, s.answers, s.replies)
  }

  // A free slot in either ring.

  /** What the server has not received is live. */
  lemma UnreceivedIsLive(s: State, p: nat)
    requires Inv(s) && s.reqTail <= p < |s.users|
    ensures Live(s, p)
  {
  }

  /** The slot check of `call` is enough: the server has read what was in the slot. */
  lemma RequestSlotFree(s: State)
    requires Inv(s) && (s.client.SendData? || s.client.SendGeneration?)
    ensures |s.req.sent| < s.reqTail + Capacity(s.req)
  {
    OffsetPeriodic(s.reqTail, Capacity(s.req));
    if s.reqTail < |s.req.sent| {
      UnreceivedIsLive(s, s.reqTail);
      assert OwnedAt(s.userData, s.users, Consumed(s), s.client.Record?, s.reqTail);
    }
  }

  lemma UnansweredIsLive(s: State, j: nat)
    requires Inv(s) && s.respTail <= j < |s.answers|
    ensures Live(s, s.answers[j])
  {
  }

  /** Unread responses answer live requests, which occupy different slots. */
  lemma ResponseSlotFree(s: State)
    requires Inv(s) && Replying(s).Some?
    ensures |s.resp.sent| < s.respTail + Capacity(s.resp)
  {
    var waiting := s.answers[s.respTail..] + [s.server.p];
    var slots := seq(|waiting|, i requires 0 <= i < |waiting| => SlotOf(s, waiting[i]));
    forall i | 0 <= i < |waiting| ensures Live(s, waiting[i]) {
      if i < |waiting| - 1 {
        UnansweredIsLive(s, s.respTail + i);
      }
    }
    forall i, j | 0 <= i < j < |slots| ensures slots[i] != slots[j] {
      assert waiting[i] != waiting[j];
      assert ApartAt(|s.userData|, |s.users|, Consumed(s), waiting[i], waiting[j]);
    }
    Pigeonhole(slots, Capacity(s.req));
  }

  // What the steps of the client do to the slots.

  /** A request goes out through a vacant slot. */
  lemma SendOwned(userData: seq<Option<UserData>>, users: seq<UserData>, consumed: seq<nat>, user: UserData)
    requires Owned(userData, users, consumed, false) && Apart(|userData|, |users|, consumed)
    requires |userData| > 0 && userData[Offset(|users|, |userData|)].None? && |users| !in consumed
    ensures Owned(userData, users + [user], consumed, true) && Apart(|userData|, |users| + 1, consumed)
  {
    forall p: nat ensures OwnedAt(userData, users + [user], consumed, true, p) {
      assert OwnedAt(userData, users, consumed, false, p);
    }
    var n, count := |userData|, |users| + 1;
    forall p: nat, q: nat ensures ApartAt(n, count, consumed, p, q) {
      assert ApartAt(|userData|, |users|, consumed, p, q);
      assert OwnedAt(userData, users, consumed, false, p) && OwnedAt(userData, users, consumed, false, q);
    }
  }

  /** Its user data is recorded. */
  lemma RecordOwned(userData: seq<Option<UserData>>, users: seq<UserData>, consumed: seq<nat>)
    requires Owned(userData, users, consumed, true) && Apart(|userData|, |users|, consumed)
    requires |userData| > 0 && |users| > 0 && |users| - 1 !in consumed
    ensures var last := |users| - 1;
            Owned(userData[Offset(last, |userData|) := Some(users[last])], users, consumed, false)
  {
    var last := |users| - 1;
    var userData' := userData[Offset(last, |userData|) := Some(users[last])];
    forall p: nat ensures OwnedAt(userData', users, consumed, false, p) {
      assert OwnedAt(userData, users, consumed, true, p) && ApartAt(|userData|, |users|, consumed, p, last);
    }
  }

  /** The response to `taken` is taken, and its slot becomes vacant. */
  lemma TakeOwned(userData: seq<Option<UserData>>, users: seq<UserData>, consumed: seq<nat>, taken: nat)
    requires Owned(userData, users, consumed, false) && Apart(|userData|, |users|, consumed)
    requires |userData| > 0 && taken < |users| && taken !in consumed
    ensures Owned(userData[Offset(taken, |userData|) := None], users, consumed + [taken], false)
    ensures Apart(|userData|, |users|, consumed + [taken])
  {
    var userData' := userData[Offset(taken, |userData|) := None];
    forall p: nat ensures OwnedAt(userData', users, consumed + [taken], false, p) {
      assert OwnedAt(userData, users, consumed, false, p) && ApartAt(|userData|, |users|, consumed, p, taken);
    }
    forall p: nat, q: nat ensures ApartAt(|userData|, |users|, consumed + [taken], p, q) {
      assert ApartAt(|userData|, |users|, consumed, p, q);
    }
  }

  // The steps.

  lemma StoreRequestKeeps(s: State)
    requires Inv(s) && Enabled(s, StoreRequest)
    ensures Inv(Step(s, StoreRequest))
  {
    RequestSlotFree(s);
    WriteDataKeeps(s.req, s.reqTail, s.client.req);
  }

  lemma StoreRequestGenerationKeeps(s: State)
    requires Inv(s) && Enabled(s, StoreRequestGeneration)
    ensures Inv(Step(s, StoreRequestGeneration))
  {
    RequestSlotFree(s);
    WriteGenerationKeeps(s.req, s.reqTail, s.client.req);
    var n := |s.users|;
    forall j | 0 <= j < |s.answers| ensures s.answers[j] != n {
    }
    assert n !in Consumed(s);
    SendOwned(s.userData, s.users, Consumed(s), s.client.user);
  }

  lemma RecordUserDataKeeps(s: State)
    requires Inv(s) && Enabled(s, RecordUserData)
    ensures Inv(Step(s, RecordUserData))
  {
    RecordOwned(s.userData, s.users, Consumed(s));
  }

  /** The response being taken answers a live request, whose user data is there. */
  lemma TakenIsLive(s: State)
    requires Inv(s) && s.client.Take?
    ensures s.respTail < |s.answers| && UserDataExists(s) && s.inFlight > 0
    ensures var p := s.answers[s.respTail];
            && Live(s, p) && p < |s.users|
            && ReadData(s.resp, s.respTail) == Response(SlotOf(s, p), s.replies[s.respTail])
            && s.userData[SlotOf(s, p)] == Some(s.users[p])
  {
    ReceivesSent(s.resp, s.respTail);
    UnansweredIsLive(s, s.respTail);
    assert OwnedAt(s.userData, s.users, Consumed(s), s.client.Record?, s.answers[s.respTail]);
    Pigeonhole(s.answers, s.reqTail);
  }

  lemma LoadResponseKeeps(s: State)
    requires Inv(s) && Enabled(s, LoadResponse)
    ensures Inv(Step(s, LoadResponse))
  {
    TakenIsLive(s);
    ReceivesSent(s.resp, s.respTail);
    var s', taken := Step(s, LoadResponse), s.answers[s.respTail];
    TakeOwned(s.userData, s.users, Consumed(s), taken);
    assert Consumed(s') == Consumed(s) + [taken];
    assert Callbacks(s'.callbacks, s.users, s.answers, s.replies);
  }

  lemma LoadGenerationKeeps(s: State, a: Action)
    requires Inv(s) && Enabled(s, a) && (a.LoadResponseGeneration? || a.LoadRequestGeneration?)
    ensures Inv(Step(s, a))
  {
  }

  lemma ReceiveServed(answers: seq<nat>, reqTail: nat, held: set<nat>, replying: Option<nat>)
    requires Served(answers, reqTail, held, replying)
    ensures Served(answers, reqTail + 1, held + {reqTail}, replying)
  {
  }

  lemma LoadRequestRings(s: State)
    requires Rings(s) && Enabled(s, LoadRequest) && s.reqTail < |s.req.sent|
    ensures Rings(Step(s, LoadRequest))
  {
    ReceivesSent(s.req, s.reqTail);
    assert s.req.sent[..s.reqTail + 1] == s.req.sent[..s.reqTail] + [s.req.sent[s.reqTail]];
  }

  lemma LoadRequestKeeps(s: State)
    requires Inv(s) && Enabled(s, LoadRequest)
    ensures Inv(Step(s, LoadRequest))
  {
    LoadRequestRings(s);
    ReceiveServed(s.answers, s.reqTail, s.held, Replying(s));
    var s' := Step(s, LoadRequest);
    assert Replying(s') == Replying(s) && s'.held == s.held + {s.reqTail} && s'.reqTail == s.reqTail + 1;
  }

  lemma StoreResponseKeeps(s: State)
    requires Inv(s) && Enabled(s, StoreResponse)
    ensures Inv(Step(s, StoreResponse))
  {
    ResponseSlotFree(s);
    WriteDataKeeps(s.resp, s.respTail, Response(SlotOf(s, s.server.p), s.server.data));
  }

  lemma AnswerServed(answers: seq<nat>, reqTail: nat, held: set<nat>, p: nat)
    requires Served(answers, reqTail, held, Some(p))
    ensures Served(answers + [p], reqTail, held, None)
  {
  }

  lemma AnswerTokens(n: nat, sent: seq<Response>, answers: seq<nat>, replies: seq<Payload>, p: nat, data: Payload)
    requires Tokens(n, sent, answers, replies)
    ensures Tokens(n, sent + [Response(Offset(p, n), data)], answers + [p], replies + [data])
  {
  }

  lemma AnswerCallbacks(callbacks: seq<(UserData, Payload)>, users: seq<UserData>, answers: seq<nat>,
                        replies: seq<Payload>, p: nat, data: Payload)
    requires Callbacks(callbacks, users, answers, replies)
    ensures Callbacks(callbacks, users, answers + [p], replies + [data])
  {
  }

  lemma StoreResponseGenerationKeeps(s: State)
    requires Inv(s) && Enabled(s, StoreResponseGeneration)
    ensures Inv(Step(s, StoreResponseGeneration))
  {
    ResponseSlotFree(s);
    WriteGenerationKeeps(s.resp, s.respTail, Response(SlotOf(s, s.server.p), s.server.data));
    AnswerServed(s.answers, s.reqTail, s.held, s.server.p);
    AnswerTokens(Capacity(s.req), s.resp.sent, s.answers, s.replies, s.server.p, s.server.data);
    AnswerCallbacks(s.callbacks, s.users, s.answers, s.replies, s.server.p, s.server.data);
    var s' := Step(s, StoreResponseGeneration);
    assert s'.answers == s.answers + [s.server.p] && s'.replies == s.replies + [s.server.data] && Replying(s').None?;
    assert s'.resp.sent == s.resp.sent + [Response(Offset(s.server.p, Capacity(s.req)), s.server.data)];
    assert Consumed(s') == Consumed(s);
  }

  lemma StepKeeps(s: State, a: Action)
    requires Inv(s) && Enabled(s, a)
    ensures Inv(Step(s, a))
  {
    match a
    case BeginCall(_, _) =>
    case CheckSlot =>
    case StoreRequest => StoreRequestKeeps(s);
    case StoreRequestGeneration => StoreRequestGenerationKeeps(s);
    case RecordUserData => RecordUserDataKeeps(s);
    case LoadResponseGeneration => LoadGenerationKeeps(s, a);
    case LoadResponse => LoadResponseKeeps(s);
    case LoadRequestGeneration => LoadGenerationKeeps(s, a);
    case LoadRequest => LoadRequestKeeps(s);
    case BeginReply(_, _) =>
    case StoreResponse => StoreResponseKeeps(s);
    case StoreResponseGeneration => StoreResponseGenerationKeeps(s);
  }

  // Runs.

  predicate IsRun(depth: nat, run: seq<State>, actions: seq<Action>) {
    && depth > 0 && |run| == |actions| + 1 && run[0] == Start(depth)
    && forall i :: 0 <= i < |actions| ==> Enabled(run[i], actions[i]) && run[i + 1] == Step(run[i], actions[i])
  }

  lemma StartInv(depth: nat)
    requires depth > 0
    ensures Inv(Start(depth))
  {
  }

  lemma {:induction false} RunInv(depth: nat, run: seq<State>, actions: seq<Action>, k: nat)
    requires IsRun(depth, run, actions) && k < |run|
    ensures Inv(run[k])
  {
    if k == 0 {
      StartInv(depth);
    } else {
      RunInv(depth, run, actions, k - 1);
      StepKeeps(run[k - 1], actions[k - 1]);
    }
  }

  /**
   * Pairing. In every interleaving and for every order of replies, no expectation fails, the
   * callback gets each response with the user data of the request it answers, and no request is
   * answered twice.
   */
  lemma ResponsesMatchRequests(depth: nat, run: seq<State>, actions: seq<Action>, k: nat)
    requires IsRun(depth, run, actions) && k < |run|
    ensures var s := run[k];
            && !s.client.Panicked? && Distinct(s.answers)
            && |s.callbacks| <= |s.answers| == |s.replies|
            && (forall j :: 0 <= j < |s.callbacks| ==>
                  s.answers[j] < |s.users| && s.callbacks[j] == (s.users[s.answers[j]], s.replies[j]))
  {
    RunInv(depth, run, actions, k);
  }

  /**
   * No back-pressure is needed. Both sides receive exactly the sequence that was sent, and
   * whenever a producer is about to store into a slot, its consumer is done with that slot.
   */
  lemma RingsNeverOverwrite(depth: nat, run: seq<State>, actions: seq<Action>, k: nat)
    requires IsRun(depth, run, actions) && k < |run|
    ensures var s := run[k];
            && s.reqTail <= |s.req.sent| && s.received == s.req.sent[..s.reqTail]
            && (s.client.SendData? || s.client.SendGeneration? ==> |s.req.sent| < s.reqTail + depth)
            && (s.server.ReplyData? || s.server.ReplyGeneration? ==> |s.resp.sent| < s.respTail + depth)
  {
    RunInv(depth, run, actions, k);
    SameDepth(depth, run, actions, k);
    var s := run[k];
    if s.client.SendData? || s.client.SendGeneration? {
      RequestSlotFree(s);
    }
    if s.server.ReplyData? || s.server.ReplyGeneration? {
      ResponseSlotFree(s);
    }
  }

  lemma {:induction false} SameDepth(depth: nat, run: seq<State>, actions: seq<Action>, k: nat)
    requires IsRun(depth, run, actions) && k < |run|
    ensures Capacity(run[k].req) == Capacity(run[k].resp) == depth
  {
    if k > 0 {
      SameDepth(depth, run, actions, k - 1);
    }
  }

  /** No request is lost: each one received is held, being replied to, or answered. */
  lemma RequestsAreServed(depth: nat, run: seq<State>, actions: seq<Action>, k: nat, p: nat)
    requires IsRun(depth, run, actions) && k < |run| && p < run[k].reqTail
    ensures p in run[k].held || Replying(run[k]) == Some(p) || p in run[k].answers
    ensures p in run[k].held ==> p !in run[k].answers && Replying(run[k]) != Some(p)
  {
    RunInv(depth, run, actions, k);
  }
}
