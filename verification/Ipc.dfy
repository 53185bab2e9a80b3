/** One client of the shared-memory RPC and its lane of the server, step by step. */
module Ipc {
  import opened Prelude
  import opened RingPos
  import opened OneSided

  type Payload = nat
  type UserData = nat

  datatype Response = Response(token: nat, data: Payload)

  /**
   * Where the client is: before or after the slot check of `call`, between the two stores of the
   * send, before it records the user data, or between the two loads of a poll; a poll inside
   * `call` returns to the slot check. `Panicked` is where a failed expectation leads.
   */
  datatype ClientPc =
    | Idle
    | Check(req: Payload, user: UserData)
    | SendData(req: Payload, user: UserData)
    | SendGeneration(req: Payload, user: UserData)
    | Record(user: UserData, slot: nat)
    | Take(call: Option<(Payload, UserData)>)
    | Panicked

  /** Where the server is: between the loads of a receive or around the stores of a reply. */
  datatype ServerPc =
    | Ready
    | ReadRequest
    | ReplyData(p: nat, data: Payload)
    | ReplyGeneration(p: nat, data: Payload)

  /**
   * The two rings, the fields of the client and the server, and history: the user data of every
   * request, the requests that the server holds, the request that each response answers, and
   * what the callback was given. Request number p is the one sent at ring position p.
   */
  datatype State = State(
    req: Ring<Payload>, resp: Ring<Response>,
    client: ClientPc, respTail: nat, userData: seq<Option<UserData>>, inFlight: nat,
    server: ServerPc, reqTail: nat,
    users: seq<UserData>, held: set<nat>, answers: seq<nat>, replies: seq<Payload>,
    received: seq<Payload>, callbacks: seq<(UserData, Payload)>)

  predicate Sized(s: State) {
    && Capacity(s.req) == Capacity(s.resp) == |s.userData| > 0
    && |s.req.data| == |s.resp.data| == Capacity(s.req)
  }

  function SlotOf(s: State, p: nat): (i: nat)
    requires Sized(s)
    ensures i < |s.userData|
  {
    Offset(p, Capacity(s.req))
  }

  function Start(depth: nat): State
    requires depth > 0
  {
    State(Fresh(depth, 0), Fresh(depth, Response(0, 0)), Idle, 0, seq(depth, _ => None), 0, Ready, 0,
          [], {}, [], [], [], [])
  }

  datatype Action =
    // the client
    | BeginCall(req: Payload, user: UserData)
    | CheckSlot
    | StoreRequest
    | StoreRequestGeneration
    | RecordUserData
    | LoadResponseGeneration
    | LoadResponse
    // the server
    | LoadRequestGeneration
    | LoadRequest
    | BeginReply(p: nat, data: Payload)
    | StoreResponse
    | StoreResponseGeneration

  predicate Enabled(s: State, a: Action) {
    && Sized(s)
    && match a
       case BeginCall(_, _) => s.client.Idle?
       case CheckSlot => s.client.Check?
       case StoreRequest => s.client.SendData?
       case StoreRequestGeneration => s.client.SendGeneration?
       case RecordUserData => s.client.Record?
       case LoadResponseGeneration => (s.client.Idle? || s.client.Check?) && s.inFlight > 0
       case LoadResponse => s.client.Take?
       case LoadRequestGeneration => s.server.Ready?
       case LoadRequest => s.server.ReadRequest?
       case BeginReply(p, _) => s.server.Ready? && p in s.held
       case StoreResponse => s.server.ReplyData?
       case StoreResponseGeneration => s.server.ReplyGeneration?
  }

  /** The token of the response that is being taken has user data. */
  predicate UserDataExists(s: State)
    requires Sized(s)
  {
    var token := ReadData(s.resp, s.respTail).token;
    token < |s.userData| && s.userData[token].Some?
  }

  function Step(s: State, a: Action): State
    requires Enabled(s, a)
  {
    match a
    case BeginCall(req, user) => s.(client := Check(req, user))
    case CheckSlot =>
      if s.userData[SlotOf(s, |s.req.sent|)].None? then s.(client := SendData(s.client.req, s.client.user)) else s
    case StoreRequest =>
      s.(req := WriteData(s.req, s.client.req), client := SendGeneration(s.client.req, s.client.user))
    case StoreRequestGeneration =>
      s.(req := WriteGeneration(s.req, s.client.req),
         client := Record(s.client.user, SlotOf(s, |s.req.sent|)),
         users := s.users + [s.client.user])
    case RecordUserData =>
      if s.client.slot >= |s.userData| then s.(client := Panicked)
      else s.(userData := s.userData[s.client.slot := Some(s.client.user)], inFlight := s.inFlight + 1, client := Idle)
    case LoadResponseGeneration =>
      if GenerationMatches(s.resp, s.respTail) then
        s.(client := Take(if s.client.Idle? then None else Some((s.client.req, s.client.user))))
      else s
    case LoadResponse =>
      var response := ReadData(s.resp, s.respTail);
      if s.inFlight == 0 || !UserDataExists(s) then s.(client := Panicked)
      else s.(respTail := s.respTail + 1, inFlight := s.inFlight - 1,
         userData := s.userData[response.token := None],
         callbacks := s.callbacks + [(s.userData[response.token].value, response.data)],
         client := match s.client.call { case None => Idle case Some(c) => Check(c.0, c.1) })
    case LoadRequestGeneration =>
      if GenerationMatches(s.req, s.reqTail) then s.(server := ReadRequest) else s
    case LoadRequest =>
      s.(reqTail := s.reqTail + 1, held := s.held + {s.reqTail}, server := Ready,
         received := s.received + [ReadData(s.req, s.reqTail)])
    case BeginReply(p, data) => s.(held := s.held - {p}, server := ReplyData(p, data))
    case StoreResponse =>
      s.(resp := WriteData(s.resp, Response(SlotOf(s, s.server.p), s.server.data)),
         server := ReplyGeneration(s.server.p, s.server.data))
    case StoreResponseGeneration =>
      s.(resp := WriteGeneration(s.resp, Response(SlotOf(s, s.server.p), s.server.data)),
         server := Ready,
         answers := s.answers + [s.server.p], replies := s.replies + [s.server.data])
  }
}
