/**
 * The server's handlers as a pure state machine: the module-level state of the server, one function
 * per handler from the state before it to the state after it and its HTTP reply, and what holds of
 * any sequence of handler runs. Node runs each handler body to completion between awaits, so each
 * step is atomic.
 */
module Dispatch {
  import opened JsValues
  import opened Sequences
  import opened CallLog
  import opened Effects

  /**
   * `connectedSockets`, `handledCalls`, the contents of `call_logs.json` and of `push_tokens.json`,
   * and the effects so far.
   */
  datatype State = State(
    sockets: seq<SocketId>,
    handled: set<JsValue>,
    log: seq<Entry>,
    tokens: seq<JsValue>,
    trace: seq<Action>)

  /** An HTTP reply: status code and body. */
  datatype Reply =
    | SendStatus(code: int)                                                     // res.sendStatus(code)
    | Json(code: int, message: string, sid: Option<string>, error: Option<string>)  // res.status(code).json({...})
    | Entries(code: int, entries: seq<Entry>)                                   // res.status(code).json(logs)

  /** What the telephony provider's `calls.create` gave back: the new call's sid, or an error message. */
  datatype Placement = Placed(sid: string) | Failed(message: string)

  const MissingTo: string := "Missing \"to\" field in body"
  const CallInitiated: string := "Call initiated"
  const CallFailed: string := "Call failed"
  const MissingFields: string := "Missing sid or accepted flag."
  const AlreadyHandled: string := "Call already handled by another staff."
  const ResponseLogged: string := "Response logged"

  /** A socket connects: it is appended to the registry. */
  function Connect(st: State, socket: SocketId): State {
    st.(sockets := st.sockets + [socket])
  }

  /** A socket disconnects: the registry is filtered to the other sockets. */
  function Disconnect(st: State, socket: SocketId): State {
    st.(sockets := Without(st.sockets, socket))
  }

  function NotifyStaff(st: State, e: Event): State {
    st.(trace := st.trace + Fanout(st.sockets, e))
  }

  function SaveCallLog(st: State, entry: Entry): State {
    var log := Saved(st.log, entry);
    st.(log := log, trace := st.trace + [LogWritten(log)])
  }

  /** The synchronous part of `sendExpoPushNotifications`: nothing without tokens, else one request for all of them. */
  function SendPushNotifications(st: State): State {
    if st.tokens == [] then st else st.(trace := st.trace + [PushRequested(st.tokens)])
  }

  /** POST /register-token: a truthy token not yet registered is appended and the file rewritten. */
  function RegisterToken(st: State, token: JsValue): (r: (State, Reply))
    ensures r.1 == SendStatus(200)
    ensures forall v :: v in r.0.tokens <==> v in st.tokens || (v == token && Truthy(token))
    ensures NoDuplicates(st.tokens) ==> NoDuplicates(r.0.tokens)
    ensures !Truthy(token) || token in st.tokens ==> r.0 == st
    ensures r.0.tokens == st.tokens ==> r.0 == st
    ensures r.0.tokens != st.tokens ==>
      r.0.tokens == st.tokens + [token] &&
      r.0 == st.(tokens := r.0.tokens, trace := st.trace + [TokensWritten(r.0.tokens)])
  {
    if Truthy(token) && token !in st.tokens then
      var tokens := st.tokens + [token];
      (st.(tokens := tokens, trace := st.trace + [TokensWritten(tokens)]), SendStatus(200))
    else
      (st, SendStatus(200))
  }

  /** POST /unregister-token: every copy of the token is removed and the file is always rewritten. */
  function UnregisterToken(st: State, token: JsValue): (r: (State, Reply))
    ensures r.1 == SendStatus(200)
    ensures token !in r.0.tokens
    ensures forall v :: v != token ==> multiset(r.0.tokens)[v] == multiset(st.tokens)[v]
    ensures r.0 == st.(tokens := r.0.tokens, trace := st.trace + [TokensWritten(r.0.tokens)])
  {
    var tokens := Without(st.tokens, token);
    (st.(tokens := tokens, trace := st.trace + [TokensWritten(tokens)]), SendStatus(200))
  }

  /** GET /logs: the stored log as it is. */
  function GetLogs(st: State): Reply {
    Entries(200, st.log)
  }

  /**
   * POST /start-call: without a truthy `to` a 400 and nothing else; when the provider fails a 500
   * and nothing else; otherwise the incoming-call event goes to every connected socket, then the push
   * request, and a 200 carries the new sid. No log entry is written and no call is claimed.
   */
  function StartCall(st: State, to: JsValue, placement: Placement): (r: (State, Reply))
    ensures r.1.code == 400 <==> !Truthy(to)
    ensures r.1.code == 500 <==> Truthy(to) && placement.Failed?
    ensures r.1.code == 200 <==> Truthy(to) && placement.Placed?
    ensures r.1.code != 200 ==> r.0 == st
    ensures !Truthy(to) ==> r.1 == Json(400, MissingTo, None, None)
    ensures Truthy(to) && placement.Failed? ==> r.1 == Json(500, CallFailed, None, Some(placement.message))
    ensures Truthy(to) && placement.Placed? ==>
      r.1 == Json(200, CallInitiated, Some(placement.sid), None) &&
      r.0 == st.(trace := r.0.trace) &&
      r.0.trace == st.trace + Fanout(st.sockets, IncomingCall(Kiosk, Str(placement.sid)))
                 + (if st.tokens == [] then [] else [PushRequested(st.tokens)])
  {
    if !Truthy(to) then
      (st, Json(400, MissingTo, None, None))
    else
      match placement
      case Failed(message) => (st, Json(500, CallFailed, None, Some(message)))
      case Placed(sid) =>
        var notified := NotifyStaff(st, IncomingCall(Kiosk, Str(sid)));
        (SendPushNotifications(notified), Json(200, CallInitiated, Some(sid), None))
  }

  /**
   * POST /call-response: a falsy `sid` or an undefined `accepted` is a 400, a sid already claimed a
   * 409, and in both cases nothing changes. Otherwise the sid is claimed, a fresh entry goes to the
   * front of the log, the log is written, and only then is the resolution broadcast; the reply is 200.
   */
  function CallResponse(st: State, sid: JsValue, accepted: JsValue, time: string): (r: (State, Reply))
    ensures r.1.code == 400 <==> !Truthy(sid) || accepted == Undefined
    ensures r.1.code == 409 <==> Truthy(sid) && accepted != Undefined && sid in st.handled
    ensures r.1.code == 200 <==> Truthy(sid) && accepted != Undefined && sid !in st.handled
    ensures r.1.code != 200 ==> r.0 == st
    ensures r.1.code == 400 ==> r.1 == Json(400, MissingFields, None, None)
    ensures r.1.code == 409 ==> r.1 == Json(409, AlreadyHandled, None, None)
    ensures r.1.code == 200 ==>
      r.1 == Json(200, ResponseLogged, None, None) &&
      r.0.handled == st.handled + {sid} &&
      r.0.log == Saved(st.log, Entry(sid, accepted, time, Kiosk)) &&
      r.0.log[0] == Entry(sid, accepted, time, Kiosk) &&
      r.0.trace == st.trace + [LogWritten(r.0.log)] + Fanout(st.sockets, CallResolved(sid, accepted)) &&
      r.0.sockets == st.sockets && r.0.tokens == st.tokens
  {
    if !Truthy(sid) || accepted == Undefined then
      (st, Json(400, MissingFields, None, None))
    else if sid in st.handled then
      (st, Json(409, AlreadyHandled, None, None))
    else
      var claimed := st.(handled := st.handled + {sid});
      var logged := SaveCallLog(claimed, Entry(sid, accepted, time, Kiosk));
      (NotifyStaff(logged, CallResolved(sid, accepted)), Json(200, ResponseLogged, None, None))
  }

  /** Everything that can reach the server: socket events and HTTP requests. */
  datatype Request =
    | SocketConnected(socket: SocketId)
    | SocketDisconnected(socket: SocketId)
    | PostRegisterToken(token: JsValue)
    | PostUnregisterToken(token: JsValue)
    | GetLogsRequest
    | PostStartCall(to: JsValue, placement: Placement)
    | PostCallResponse(sid: JsValue, accepted: JsValue, time: string)

  /** One request handled to completion; socket events get no reply. */
  function Step(st: State, rq: Request): (r: (State, Option<Reply>))
    ensures r.1.None? <==> rq.SocketConnected? || rq.SocketDisconnected?
    ensures r.1.Some? && r.1.value.code != 200 ==> r.0 == st
    ensures rq.GetLogsRequest? ==> r == (st, Some(Entries(200, st.log)))
  {
    match rq
    case SocketConnected(s) => (Connect(st, s), None)
    case SocketDisconnected(s) => (Disconnect(st, s), None)
    case PostRegisterToken(t) => var r := RegisterToken(st, t); (r.0, Some(r.1))
    case PostUnregisterToken(t) => var r := UnregisterToken(st, t); (r.0, Some(r.1))
    case GetLogsRequest => (st, Some(GetLogs(st)))
    case PostStartCall(to, p) => var r := StartCall(st, to, p); (r.0, Some(r.1))
    case PostCallResponse(sid, acc, time) => var r := CallResponse(st, sid, acc, time); (r.0, Some(r.1))
  }

  /** Requests handled one after another: the final state and one reply slot per request. */
  function Run(st: State, rqs: seq<Request>): (r: (State, seq<Option<Reply>>))
    ensures |r.1| == |rqs|
    decreases |rqs|
  {
    if rqs == [] then (st, [])
    else
      var first := Step(st, rqs[0]);
      var rest := Run(first.0, rqs[1..]);
      (rest.0, [first.1] + rest.1)
  }

  /** Request `rq`, answered with `reply`, resolved call `sid`. */
  predicate IsResolution(rq: Request, reply: Option<Reply>, sid: JsValue) {
    rq.PostCallResponse? && rq.sid == sid && reply.Some? && reply.value.code == 200
  }

  /** How many requests of a run resolved call `sid`. */
  function Resolutions(rqs: seq<Request>, replies: seq<Option<Reply>>, sid: JsValue): nat
    requires |replies| == |rqs|
  {
    if rqs == [] then 0
    else (if IsResolution(rqs[0], replies[0], sid) then 1 else 0) + Resolutions(rqs[1..], replies[1..], sid)
  }

  /** One step claims a sid exactly when it resolves that call, and never releases one. */
  lemma StepClaims(st: State, rq: Request, sid: JsValue)
    ensures st.handled <= Step(st, rq).0.handled
    ensures sid in Step(st, rq).0.handled <==> sid in st.handled || IsResolution(rq, Step(st, rq).1, sid)
  {
  }

  /**
   * At most one successful resolution per sid: in any run, the number of 200 replies to responses
   * for `sid` is one if the run claimed `sid` and zero otherwise (in particular zero if it was
   * claimed before), and claims are never released.
   */
  lemma {:induction false} AtMostOneResolution(st: State, rqs: seq<Request>, sid: JsValue)
    ensures st.handled <= Run(st, rqs).0.handled
    ensures Resolutions(rqs, Run(st, rqs).1, sid) ==
      if sid in Run(st, rqs).0.handled && sid !in st.handled then 1 else 0
    decreases |rqs|
  {
    if rqs != [] {
      var first := Step(st, rqs[0]);
      StepClaims(st, rqs[0], sid);
      AtMostOneResolution(first.0, rqs[1..], sid);
      var replies := Run(st, rqs).1;
      assert replies[0] == first.1 && replies[1..] == Run(first.0, rqs[1..]).1;
    }
  }

  /** Running `a` then `b` is running `a + b`. */
  lemma {:induction false} RunAppend(st: State, a: seq<Request>, b: seq<Request>)
    ensures Run(st, a + b).0 == Run(Run(st, a).0, b).0
    ensures Run(st, a + b).1 == Run(st, a).1 + Run(Run(st, a).0, b).1
    decreases |a|
  {
    if a == [] {
      assert a + b == b;
    } else {
      assert (a + b)[0] == a[0] && (a + b)[1..] == a[1..] + b;
      RunAppend(Step(st, a[0]).0, a[1..], b);
    }
  }

  /**
   * Once `sid` is claimed, every later response for it that passes validation is a 409,
   * whatever its `accepted` is.
   */
  lemma {:induction false} ClaimedStaysConflicting(st: State, rqs: seq<Request>, sid: JsValue, i: nat)
    requires sid in st.handled && Truthy(sid)
    requires i < |rqs| && rqs[i].PostCallResponse? && rqs[i].sid == sid && rqs[i].accepted != Undefined
    ensures Run(st, rqs).1[i] == Some(Json(409, AlreadyHandled, None, None))
    decreases |rqs|
  {
    var first := Step(st, rqs[0]);
    StepClaims(st, rqs[0], sid);
    if i > 0 {
      ClaimedStaysConflicting(first.0, rqs[1..], sid, i - 1);
    }
  }

  /** The first response that resolves a call wins: every later valid response for it is a 409. */
  lemma FirstResolutionWins(st: State, rqs: seq<Request>, sid: JsValue, i: nat, j: nat)
    requires i < j < |rqs|
    requires IsResolution(rqs[i], Run(st, rqs).1[i], sid)
    requires rqs[j].PostCallResponse? && rqs[j].sid == sid && rqs[j].accepted != Undefined
    ensures Run(st, rqs).1[j] == Some(Json(409, AlreadyHandled, None, None))
  {
    var a, b := rqs[..i + 1], rqs[i + 1..];
    assert rqs == a + b;
    RunAppend(st, a, b);
    var mid := Run(st, a);
    assert a == rqs[..i] + [rqs[i]];
    RunAppend(st, rqs[..i], [rqs[i]]);
    var before := Run(st, rqs[..i]).0;
    assert mid.1[i] == Run(st, rqs).1[i];
    assert Run(before, [rqs[i]]).1[0] == mid.1[i];
    StepClaims(before, rqs[i], sid);
    assert sid in mid.0.handled;
    ClaimedStaysConflicting(mid.0, b, sid, j - (i + 1));
  }

  /** A log within the cap stays within the cap, whatever is handled. */
  lemma {:induction false} LogStaysBounded(st: State, rqs: seq<Request>)
    requires |st.log| <= Cap
    ensures |Run(st, rqs).0.log| <= Cap
    decreases |rqs|
  {
    if rqs != [] {
      LogStaysBounded(Step(st, rqs[0]).0, rqs[1..]);
    }
  }

  /** A registry of distinct push tokens stays free of duplicates, whatever is handled. */
  lemma {:induction false} TokensStayDistinct(st: State, rqs: seq<Request>)
    requires NoDuplicates(st.tokens)
    ensures NoDuplicates(Run(st, rqs).0.tokens)
    decreases |rqs|
  {
    if rqs != [] {
      if rqs[0].PostUnregisterToken? {
        WithoutNoDuplicates(st.tokens, rqs[0].token);
      }
      TokensStayDistinct(Step(st, rqs[0]).0, rqs[1..]);
    }
  }

  /** Only truthy sids are ever claimed. */
  lemma {:induction false} ClaimedSidsAreTruthy(st: State, rqs: seq<Request>)
    requires forall v :: v in st.handled ==> Truthy(v)
    ensures forall v :: v in Run(st, rqs).0.handled ==> Truthy(v)
    decreases |rqs|
  {
    if rqs != [] {
      ClaimedSidsAreTruthy(Step(st, rqs[0]).0, rqs[1..]);
    }
  }
}
