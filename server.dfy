/**
 * The server's module-level state as one object, and its handlers as methods that update it in
 * place. Each method is proved to do what the matching function of `Dispatch` specifies.
 */
module Server {
  import opened JsValues
  import opened Sequences
  import opened CallLog
  import opened Effects
  import Dispatch

  /** Broadcasting to one more socket of the registry adds its emit at the end. */
  lemma EmitOneMore(sockets: seq<SocketId>, i: nat, data: Event)
    requires 0 < i <= |sockets|
    ensures Fanout(sockets[..i], data) == Fanout(sockets[..i - 1], data) + [Emitted(sockets[i - 1], data.Type(), data)]
  {
  }

  class Coordinator {
    var connectedSockets: seq<SocketId>
    var handledCalls: set<JsValue>
    /** What reading call_logs.json gives. */
    var callLogs: seq<Entry>
    /** What reading push_tokens.json gives. */
    var pushTokens: seq<JsValue>
    /** Every effect so far, in order. */
    ghost var trace: seq<Action>

    ghost function State(): Dispatch.State
      reads this
    {
      Dispatch.State(connectedSockets, handledCalls, callLogs, pushTokens, trace)
    }

    /**
     * Server start: no sockets, no claimed calls. A store file that is missing or does not parse
     * reads as empty (`readJsonFileSafe`).
     */
    constructor (storedLogs: Option<seq<Entry>>, storedTokens: Option<seq<JsValue>>)
      ensures connectedSockets == [] && handledCalls == {} && trace == []
      ensures callLogs == (if storedLogs.Some? then storedLogs.value else [])
      ensures pushTokens == (if storedTokens.Some? then storedTokens.value else [])
    {
      connectedSockets := [];
      handledCalls := {};
      callLogs := if storedLogs.Some? then storedLogs.value else [];
      pushTokens := if storedTokens.Some? then storedTokens.value else [];
      trace := [];
    }

    /** `io.on('connection')`: the new socket joins the registry at the end. */
    method Connect(socket: SocketId)
      modifies this`connectedSockets
      ensures connectedSockets == old(connectedSockets) + [socket]
      ensures State() == Dispatch.Connect(old(State()), socket)
    {
      connectedSockets := connectedSockets + [socket];
    }

    /** `socket.on('disconnect')`: every occurrence of the socket leaves; the others keep their order. */
    method Disconnect(socket: SocketId)
      modifies this`connectedSockets
      ensures socket !in connectedSockets
      ensures forall s :: s != socket ==> multiset(connectedSockets)[s] == multiset(old(connectedSockets))[s]
      ensures State() == Dispatch.Disconnect(old(State()), socket)
    {
      connectedSockets := Without(connectedSockets, socket);
    }

    /** `notifyStaff(data)`: one emit per connected socket, in registry order; none when there are none. */
    method NotifyStaff(data: Event)
      modifies this`trace
      ensures trace == old(trace) + Fanout(connectedSockets, data)
      ensures State() == Dispatch.NotifyStaff(old(State()), data)
    {
      var sockets := connectedSockets;
      var i := 0;
      while i < |sockets|
        invariant 0 <= i <= |sockets|
        invariant trace == old(trace) + Fanout(sockets[..i], data)
      {
        var socket := sockets[i];
        ghost var sent := trace;
        trace := trace + [Emitted(socket, data.Type(), data)];
        i := i + 1;
        EmitOneMore(sockets, i, data);
        assert trace == old(trace) + Fanout(sockets[..i], data) by {
          assert sent + [Emitted(socket, data.Type(), data)] == old(trace) + (Fanout(sockets[..i - 1], data) + [Emitted(socket, data.Type(), data)]);
        }
      }
      assert sockets[..i] == sockets;
    }

    /** `saveCallLog(entry)`: the entry goes first, the log is cut to 100 and written back. */
    method SaveCallLog(entry: Entry)
      modifies this`callLogs, this`trace
      ensures State() == Dispatch.SaveCallLog(old(State()), entry)
      ensures callLogs == Saved(old(callLogs), entry)
      ensures |callLogs| <= Cap && callLogs[0] == entry
      ensures callLogs[1..] == old(callLogs)[..|callLogs| - 1]
    {
      var logs := callLogs;
      logs := [entry] + logs;
      callLogs := if |logs| <= Cap then logs else logs[..Cap];
      trace := trace + [LogWritten(callLogs)];
    }

    /** The synchronous part of `sendExpoPushNotifications`: a push request for all tokens, if any. */
    method SendPushNotifications()
      modifies this`trace
      ensures State() == Dispatch.SendPushNotifications(old(State()))
    {
      if |pushTokens| == 0 {
        return;
      }
      trace := trace + [PushRequested(pushTokens)];
    }

    /** POST /register-token. */
    method RegisterToken(token: JsValue) returns (reply: Dispatch.Reply)
      modifies this`pushTokens, this`trace
      ensures reply == Dispatch.SendStatus(200)
      ensures NoDuplicates(old(pushTokens)) ==> NoDuplicates(pushTokens)
      ensures (State(), reply) == Dispatch.RegisterToken(old(State()), token)
    {
      if Truthy(token) {
        var tokens := pushTokens;
        if token !in tokens {
          tokens := tokens + [token];
          pushTokens := tokens;
          trace := trace + [TokensWritten(tokens)];
        }
      }
      reply := Dispatch.SendStatus(200);
    }

    /** POST /unregister-token. */
    method UnregisterToken(token: JsValue) returns (reply: Dispatch.Reply)
      modifies this`pushTokens, this`trace
      ensures reply == Dispatch.SendStatus(200) && token !in pushTokens
      ensures (State(), reply) == Dispatch.UnregisterToken(old(State()), token)
    {
      var newTokens := Without(pushTokens, token);
      pushTokens := newTokens;
      trace := trace + [TokensWritten(newTokens)];
      reply := Dispatch.SendStatus(200);
    }

    /** GET /logs: the stored log, newest first, unchanged. */
    method Logs() returns (reply: Dispatch.Reply)
      ensures reply.code == 200 && reply.Entries? && reply.entries == callLogs
      ensures reply == Dispatch.GetLogs(State())
    {
      reply := Dispatch.Entries(200, callLogs);
    }

    /** POST /start-call, resumed with the provider's answer to `calls.create`. */
    method StartCall(to: JsValue, placement: Dispatch.Placement) returns (reply: Dispatch.Reply)
      modifies this`trace
      ensures reply.code == 400 <==> !Truthy(to)
      ensures callLogs == old(callLogs) && handledCalls == old(handledCalls)
      ensures (State(), reply) == Dispatch.StartCall(old(State()), to, placement)
    {
      if !Truthy(to) {
        return Dispatch.Json(400, Dispatch.MissingTo, None, None);
      }
      match placement
      case Failed(message) =>
        reply := Dispatch.Json(500, Dispatch.CallFailed, None, Some(message));
      case Placed(sid) =>
        NotifyStaff(IncomingCall(Kiosk, Str(sid)));
        SendPushNotifications();
        reply := Dispatch.Json(200, Dispatch.CallInitiated, Some(sid), None);
    }

    /** POST /call-response, with the wall-clock time it runs at. */
    method CallResponse(sid: JsValue, accepted: JsValue, time: string) returns (reply: Dispatch.Reply)
      modifies this
      ensures (State(), reply) == Dispatch.CallResponse(old(State()), sid, accepted, time)
      ensures reply.code == 200 <==> Truthy(sid) && accepted != Undefined && sid !in old(handledCalls)
      ensures reply.code == 200 ==>
        handledCalls == old(handledCalls) + {sid} && |callLogs| > 0 && callLogs[0] == Entry(sid, accepted, time, Kiosk)
      ensures reply.code != 200 ==> State() == old(State())
    {
      if !Truthy(sid) || accepted == Undefined {
        return Dispatch.Json(400, Dispatch.MissingFields, None, None);
      }
      if sid in handledCalls {
        return Dispatch.Json(409, Dispatch.AlreadyHandled, None, None);
      }
      handledCalls := handledCalls + {sid};
      var logEntry := Entry(sid, accepted, time, Kiosk);
      SaveCallLog(logEntry);
      NotifyStaff(CallResolved(sid, accepted));
      reply := Dispatch.Json(200, Dispatch.ResponseLogged, None, None);
    }
  }

  /**
   * Two staff members answer the same call, one accepting and one declining, on a freshly started
   * server: the first gets 200, the second 409, and the log holds the one entry of the first.
   */
  method DuplicateResponse(time: string) returns (first: Dispatch.Reply, second: Dispatch.Reply, log: seq<Entry>)
    ensures first.code == 200 && second.code == 409
    ensures log == [Entry(Str("CA123"), Bool(true), time, Kiosk)]
  {
    var server := new Coordinator(None, None);
    first := server.CallResponse(Str("CA123"), Bool(true), time);
    second := server.CallResponse(Str("CA123"), Bool(false), time);
    log := server.callLogs;
  }
}
