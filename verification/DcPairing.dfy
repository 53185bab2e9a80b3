/** Which call a DC response answers: the life of every call, told from history. */
module DcPairing {
  import opened Prelude
  import opened DcEncoding
  import opened DcBatch
  import opened DcEndpointSpec
  import opened DcReceive

  /** The request is on its way, with the callee, or its response is on its way or delivered. */
  datatype Stage = Flying | Held | Returning | Answered

  /** Call number t of a side is its t-th entry; slab keys are reused, call numbers are not. */
  datatype CallRecord = CallRecord(key: nat, userData: UserData, data: Bytes, stage: Stage, reply: Bytes)

  /** A message together with the number of the call it belongs to. */
  datatype Tagged = Request(tag: nat, key: nat, data: Bytes) | Response(tag: nat, key: nat, data: Bytes)

  function Erase(m: Tagged): Msg {
    Msg(if m.Response? then ToResponseId(m.key) else m.key, m.data)
  }

  function EraseAll(s: seq<Tagged>): seq<Msg> {
    seq(|s|, i requires 0 <= i < |s| => Erase(s[i]))
  }

  /**
   * History of one side: its calls, the call that occupies each slab key, the calls whose
   * response reached the callback in that order, and its messages that the peer has yet to decode.
   */
  datatype Side = Side(calls: seq<CallRecord>, live: map<nat, nat>, log: seq<nat>, out: seq<Tagged>)

  // What every step keeps, for the calls of one side.

  ghost predicate LiveOk(calls: seq<CallRecord>, live: map<nat, nat>) {
    && (forall k :: k in live ==> live[k] < |calls| && calls[live[k]].key == k && !calls[live[k]].stage.Answered?)
    && (forall t :: 0 <= t < |calls| ==> calls[t].key < RESPONSE_FLAG)
    && (forall t :: 0 <= t < |calls| && !calls[t].stage.Answered? ==> calls[t].key in live && live[calls[t].key] == t)
  }

  /** The slab holds exactly the user data of the calls that are not answered. */
  ghost predicate PendingOk(calls: seq<CallRecord>, live: map<nat, nat>, pending: map<nat, UserData>) {
    && (forall k :: k in pending <==> k in live)
    && (forall k :: k in live ==> live[k] < |calls| && pending[k] == calls[live[k]].userData)
  }

  /** The stage in which a call has a message of this kind under way. */
  function StageOf(m: Tagged): Stage {
    if m.Request? then Flying else Returning
  }

  predicate MessageOk(calls: seq<CallRecord>, m: Tagged) {
    && m.tag < |calls| && calls[m.tag].key == m.key && calls[m.tag].stage == StageOf(m)
    && m.data == (if m.Request? then calls[m.tag].data else calls[m.tag].reply)
  }

  predicate Carries(out: seq<Tagged>, i: int, response: bool, t: nat) {
    0 <= i < |out| && out[i].Response? == response && out[i].tag == t
  }

  ghost predicate Under(out: seq<Tagged>, response: bool, t: nat) {
    exists i :: Carries(out, i, response, t)
  }

  /** The messages of one kind in `out`, against the calls they belong to. */
  ghost predicate StreamOk(calls: seq<CallRecord>, out: seq<Tagged>, response: bool) {
    && (forall i :: 0 <= i < |out| && out[i].Response? == response ==> MessageOk(calls, out[i]))
    && (forall i, j :: 0 <= i < j < |out| && out[i].Response? == out[j].Response? == response
          ==> out[i].tag != out[j].tag)
    && (forall t :: 0 <= t < |calls| && calls[t].stage == (if response then Returning else Flying)
          ==> Under(out, response, t))
  }

  ghost predicate LogOk(calls: seq<CallRecord>, log: seq<nat>, responses: seq<(UserData, Bytes)>) {
    && (forall i :: 0 <= i < |log| ==> log[i] < |calls| && calls[log[i]].stage.Answered?)
    && (forall i, j :: 0 <= i < j < |log| ==> log[i] != log[j])
    && (forall t :: 0 <= t < |calls| && calls[t].stage.Answered? ==> t in log)
    && |responses| == |log|
    && (forall i :: 0 <= i < |log| ==> responses[i] == (calls[log[i]].userData, calls[log[i]].reply))
  }

  /** The calls of `x`, whose requests are in `x.out` and whose responses are in `back`. */
  ghost predicate CallerInv(x: Side, back: seq<Tagged>, pending: map<nat, UserData>,
                            responses: seq<(UserData, Bytes)>) {
    && LiveOk(x.calls, x.live) && PendingOk(x.calls, x.live, pending)
    && StreamOk(x.calls, x.out, false) && StreamOk(x.calls, back, true)
    && LogOk(x.calls, x.log, responses)
  }

  // A message of the other kind leaves a stream as it is.

  lemma StreamAppendOther(calls: seq<CallRecord>, out: seq<Tagged>, m: Tagged, response: bool)
    requires StreamOk(calls, out, response) && m.Response? != response
    ensures StreamOk(calls, out + [m], response)
  {
    forall t | 0 <= t < |calls| && Under(out, response, t) ensures Under(out + [m], response, t) {
      var i :| Carries(out, i, response, t);
      assert Carries(out + [m], i, response, t);
    }
  }

  lemma StreamTailOther(calls: seq<CallRecord>, out: seq<Tagged>, response: bool)
    requires StreamOk(calls, out, response) && out != [] && out[0].Response? != response
    ensures StreamOk(calls, out[1..], response)
  {
    forall t | 0 <= t < |calls| && Under(out, response, t) ensures Under(out[1..], response, t) {
      var i :| Carries(out, i, response, t);
      assert Carries(out[1..], i - 1, response, t);
    }
  }

  /** Call `t` enters the stage of message `m`, which joins the stream. */
  lemma StreamAppend(calls: seq<CallRecord>, calls': seq<CallRecord>, out: seq<Tagged>, m: Tagged)
    requires StreamOk(calls, out, m.Response?) && MessageOk(calls', m)
    requires |calls| <= |calls'| <= |calls| + 1 && (|calls'| == |calls| + 1 ==> m.tag == |calls|)
    requires m.tag < |calls| ==> calls[m.tag].stage != StageOf(m)
    requires forall t :: 0 <= t < |calls| && t != m.tag ==> calls'[t] == calls[t]
    ensures StreamOk(calls', out + [m], m.Response?)
  {
    var out' := out + [m];
    assert Carries(out', |out|, m.Response?, m.tag);
    forall t | 0 <= t < |calls| && Under(out, m.Response?, t) ensures Under(out', m.Response?, t) {
      var i :| Carries(out, i, m.Response?, t);
      assert Carries(out', i, m.Response?, t);
    }
  }

  /** The first message is decoded, and its call moves on to another stage. */
  lemma StreamTail(calls: seq<CallRecord>, calls': seq<CallRecord>, out: seq<Tagged>)
    requires out != [] && StreamOk(calls, out, out[0].Response?) && |calls'| == |calls|
    requires out[0].tag < |calls| && calls'[out[0].tag].stage != StageOf(out[0])
    requires forall t :: 0 <= t < |calls| && t != out[0].tag ==> calls'[t] == calls[t]
    ensures StreamOk(calls', out[1..], out[0].Response?)
  {
    var r := out[0].Response?;
    forall t | 0 <= t < |calls| && t != out[0].tag && Under(out, r, t) ensures Under(out[1..], r, t) {
      var i :| Carries(out, i, r, t);
      assert Carries(out[1..], i - 1, r, t);
    }
  }

  /** A call that is not in the stage of a stream's kind, before and after. */
  lemma StreamElsewhere(calls: seq<CallRecord>, calls': seq<CallRecord>, out: seq<Tagged>, response: bool, t: nat)
    requires StreamOk(calls, out, response) && |calls| <= |calls'| <= |calls| + 1 && t < |calls'|
    requires |calls'| == |calls| + 1 ==> t == |calls|
    requires forall u :: 0 <= u < |calls| && u != t ==> calls'[u] == calls[u]
    requires var stage := if response then Returning else Flying;
             calls'[t].stage != stage && (t < |calls| ==> calls[t].stage != stage)
    ensures StreamOk(calls', out, response)
  {
  }

  // The steps.

  /** A call goes out under the vacant slab key `key`. */
  function Issue(x: Side, key: nat, userData: UserData, data: Bytes): Side {
    var t := |x.calls|;
    Side(x.calls + [CallRecord(key, userData, data, Flying, [])], x.live[key := t], x.log,
         x.out + [Request(t, key, data)])
  }

  lemma IssueKeeps(x: Side, back: seq<Tagged>, pending: map<nat, UserData>, responses: seq<(UserData, Bytes)>,
                   key: nat, userData: UserData, data: Bytes)
    requires CallerInv(x, back, pending, responses) && key < RESPONSE_FLAG && key !in pending
    ensures CallerInv(Issue(x, key, userData, data), back, pending[key := userData], responses)
  {
    var x' := Issue(x, key, userData, data);
    StreamAppend(x.calls, x'.calls, x.out, Request(|x.calls|, key, data));
    StreamElsewhere(x.calls, x'.calls, back, true, |x.calls|);
    assert LiveOk(x'.calls, x'.live);
  }

  /** The one call that the callee may answer under `key`. */
  predicate Answerable(y: Side, key: nat) {
    key in y.live && y.live[key] < |y.calls| && y.calls[y.live[key]].stage.Held?
  }

  function AnswerCalls(y: Side, key: nat, data: Bytes): Side
    requires Answerable(y, key)
  {
    var t := y.live[key];
    y.(calls := y.calls[t := y.calls[t].(stage := Returning, reply := data)])
  }

  /** The response of the callee to the call of `y` that it holds under `key`. */
  function AnswerMessage(y: Side, key: nat, data: Bytes): Tagged
    requires Answerable(y, key)
  {
    Response(y.live[key], key, data)
  }

  lemma AnswerKeeps(y: Side, back: seq<Tagged>, pending: map<nat, UserData>, responses: seq<(UserData, Bytes)>,
                    key: nat, data: Bytes)
    requires CallerInv(y, back, pending, responses) && Answerable(y, key)
    ensures CallerInv(AnswerCalls(y, key, data), back + [AnswerMessage(y, key, data)], pending, responses)
  {
    var y' := AnswerCalls(y, key, data);
    StreamAppend(y.calls, y'.calls, back, AnswerMessage(y, key, data));
    StreamElsewhere(y.calls, y'.calls, y.out, false, y.live[key]);
  }

  function SetStage(calls: seq<CallRecord>, t: nat, stage: Stage): seq<CallRecord> {
    if t < |calls| then calls[t := calls[t].(stage := stage)] else calls
  }

  /** The callee decodes the first request of `x`. */
  function TakeRequest(x: Side): Side
    requires x.out != []
  {
    x.(calls := SetStage(x.calls, x.out[0].tag, Held), out := x.out[1..])
  }

  lemma TakeRequestKeeps(x: Side, back: seq<Tagged>, pending: map<nat, UserData>, responses: seq<(UserData, Bytes)>)
    requires CallerInv(x, back, pending, responses) && x.out != [] && x.out[0].Request?
    ensures CallerInv(TakeRequest(x), back, pending, responses)
  {
    var x' := TakeRequest(x);
    StreamTail(x.calls, x'.calls, x.out);
    StreamElsewhere(x.calls, x'.calls, back, true, x.out[0].tag);
  }

  /** The caller decodes the response `m`. */
  function TakeResponse(y: Side, m: Tagged): Side {
    y.(calls := SetStage(y.calls, m.tag, Answered), live := y.live - {m.key}, log := y.log + [m.tag])
  }

  lemma TakeResponseKeeps(y: Side, back: seq<Tagged>, pending: map<nat, UserData>, responses: seq<(UserData, Bytes)>)
    requires CallerInv(y, back, pending, responses) && back != [] && back[0].Response?
    ensures back[0].key in pending
    ensures var m := back[0];
            CallerInv(TakeResponse(y, m), back[1..], pending - {m.key}, responses + [(pending[m.key], m.data)])
  {
    var m := back[0];
    var y' := TakeResponse(y, m);
    StreamTail(y.calls, y'.calls, back);
    StreamElsewhere(y.calls, y'.calls, y.out, false, m.tag);
    AnsweredLogOk(y, m, responses);
    assert LiveOk(y'.calls, y'.live);
  }

  lemma AnsweredLogOk(y: Side, m: Tagged, responses: seq<(UserData, Bytes)>)
    requires LogOk(y.calls, y.log, responses) && m.Response? && MessageOk(y.calls, m)
    ensures var y' := TakeResponse(y, m);
            LogOk(y'.calls, y'.log, responses + [(y.calls[m.tag].userData, m.data)])
  {
  }

  /** The receiver `y` decodes the first message of the sender `x`. */
  function AbsorbOne(x: Side, y: Side): (Side, Side)
    requires x.out != []
  {
    if x.out[0].Request? then (TakeRequest(x), y) else (x.(out := x.out[1..]), TakeResponse(y, x.out[0]))
  }

  function Absorb(x: Side, y: Side, count: nat): (Side, Side)
    decreases count
  {
    if count == 0 || x.out == [] then (x, y)
    else
      var (x', y') := AbsorbOne(x, y);
      Absorb(x', y', count - 1)
  }

  /** Decoding does to the slab and the callback what history says it should. */
  lemma AbsorbOneKeeps(x: Side, y: Side, pending: map<nat, UserData>, responses: seq<(UserData, Bytes)>,
                       inbox: Inbox, off: nat)
    requires x.out != [] && CallerInv(x, y.out, pending, responses)
    requires CallerInv(y, x.out, inbox.pending, inbox.responses)
    ensures var (x', y') := AbsorbOne(x, y);
            var inbox' := Deliver(inbox, Erase(x.out[0]), off);
            && CallerInv(x', y'.out, pending, responses)
            && CallerInv(y', x'.out, inbox'.pending, inbox'.responses)
            && x'.out == x.out[1..] && y'.out == y.out
  {
    var m := x.out[0];
    if m.Request? {
      assert MessageOk(x.calls, m);
      ResponseIdRoundTrip(m.key);
      TakeRequestKeeps(x, y.out, pending, responses);
      StreamTailOther(y.calls, x.out, true);
    } else {
      assert MessageOk(y.calls, m);
      ResponseIdRoundTrip(m.key);
      TakeResponseKeeps(y, x.out, inbox.pending, inbox.responses);
      StreamTailOther(x.calls, x.out, false);
    }
  }

  /** What decoding works on: sender, receiver, and what the receiver's application sees. */
  datatype Decoding = Decoding(x: Side, y: Side, inbox: Inbox, off: nat)

  predicate DecodesOne(s: Decoding, s': Decoding) {
    && s.x.out != [] && (s'.x, s'.y) == AbsorbOne(s.x, s.y)
    && s'.inbox == Deliver(s.inbox, Erase(s.x.out[0]), s.off)
  }

  predicate IsDecoding(tr: seq<Decoding>) {
    forall i :: 0 <= i < |tr| - 1 ==> DecodesOne(tr[i], tr[i + 1])
  }

  /** Decoding a batch, message by message. */
  lemma {:induction false} DecodingOf(x: Side, y: Side, inbox: Inbox, off: nat, msgs: seq<Msg>)
    returns (tr: seq<Decoding>)
    requires |msgs| <= |x.out| && msgs == EraseAll(x.out)[..|msgs|]
    ensures |tr| == |msgs| + 1 && tr[0] == Decoding(x, y, inbox, off) && IsDecoding(tr)
    ensures var end := tr[|msgs|];
            (end.x, end.y) == Absorb(x, y, |msgs|) && end.inbox == DeliverAll(inbox, off, msgs)
    decreases |msgs|
  {
    tr := [Decoding(x, y, inbox, off)];
    if msgs != [] {
      assert msgs[0] == Erase(x.out[0]);
      var (x1, y1) := AbsorbOne(x, y);
      assert x1.out == x.out[1..] && msgs[1..] == EraseAll(x1.out)[..|msgs| - 1];
      var rest := DecodingOf(x1, y1, Deliver(inbox, msgs[0], off), off + MsgSize(msgs[0]), msgs[1..]);
      assert DecodesOne(tr[0], rest[0]);
      tr := tr + rest;
    }
  }

  lemma {:induction false} DecodingKeeps(tr: seq<Decoding>, pending: map<nat, UserData>,
                                         responses: seq<(UserData, Bytes)>, k: nat)
    requires IsDecoding(tr) && k < |tr|
    requires CallerInv(tr[0].x, tr[0].y.out, pending, responses)
    requires CallerInv(tr[0].y, tr[0].x.out, tr[0].inbox.pending, tr[0].inbox.responses)
    ensures CallerInv(tr[k].x, tr[k].y.out, pending, responses)
    ensures CallerInv(tr[k].y, tr[k].x.out, tr[k].inbox.pending, tr[k].inbox.responses)
    ensures k <= |tr[0].x.out| && tr[k].x.out == tr[0].x.out[k..] && tr[k].y.out == tr[0].y.out
  {
    if k > 0 {
      DecodingKeeps(tr, pending, responses, k - 1);
      var s := tr[k - 1];
      assert DecodesOne(s, tr[k]);
      AbsorbOneKeeps(s.x, s.y, pending, responses, s.inbox, s.off);
    }
  }

  lemma AbsorbKeeps(x: Side, y: Side, pending: map<nat, UserData>, responses: seq<(UserData, Bytes)>,
                    inbox: Inbox, off: nat, msgs: seq<Msg>)
    requires |msgs| <= |x.out| && msgs == EraseAll(x.out)[..|msgs|]
    requires CallerInv(x, y.out, pending, responses) && CallerInv(y, x.out, inbox.pending, inbox.responses)
    ensures var (x', y') := Absorb(x, y, |msgs|);
            var inbox' := DeliverAll(inbox, off, msgs);
            && CallerInv(x', y'.out, pending, responses)
            && CallerInv(y', x'.out, inbox'.pending, inbox'.responses)
            && x'.out == x.out[|msgs|..] && y'.out == y.out
  {
    var tr := DecodingOf(x, y, inbox, off, msgs);
    DecodingKeeps(tr, pending, responses, |msgs|);
  }
}
