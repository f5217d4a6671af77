/** What the server does to the outside world: socket emits, file writes and push requests, in order. */
module Effects {
  import opened JsValues
  import CallLog

  /** A connected Socket.IO socket, by identity. */
  type SocketId = nat

  /** The payloads `notifyStaff` is given; `Type()` is their `type` field, the name they are emitted under. */
  datatype Event =
    | IncomingCall(from: string, sid: JsValue)
    | CallResolved(sid: JsValue, accepted: JsValue)
  {
    function Type(): string {
      match this
      case IncomingCall(_, _) => "incoming_call"
      case CallResolved(_, _) => "call_resolved"
    }
  }

  /** One externally visible effect. */
  datatype Action =
    | Emitted(socket: SocketId, name: string, event: Event)   // socket.emit(data.type, data)
    | LogWritten(log: seq<CallLog.Entry>)                       // call_logs.json rewritten
    | TokensWritten(tokens: seq<JsValue>)                       // push_tokens.json rewritten
    | PushRequested(tokens: seq<JsValue>)                       // one Expo message per token sent

  /** `notifyStaff(data)`: one emit of `data` under its type to each connected socket, in registry order. */
  function Fanout(sockets: seq<SocketId>, e: Event): (r: seq<Action>)
    ensures |r| == |sockets|
    ensures forall i :: 0 <= i < |r| ==> r[i] == Emitted(sockets[i], e.Type(), e)
  {
    if sockets == [] then [] else [Emitted(sockets[0], e.Type(), e)] + Fanout(sockets[1..], e)
  }

  /** Broadcasting to two groups of sockets is broadcasting to the first, then to the second. */
  lemma FanoutAppend(a: seq<SocketId>, b: seq<SocketId>, e: Event)
    ensures Fanout(a + b, e) == Fanout(a, e) + Fanout(b, e)
  {
  }

  /** Every emit of a broadcast goes to a connected socket, and each connected socket gets one. */
  lemma FanoutReachesExactlyConnected(sockets: seq<SocketId>, e: Event, s: SocketId)
    ensures Emitted(s, e.Type(), e) in Fanout(sockets, e) <==> s in sockets
  {
  }
}
