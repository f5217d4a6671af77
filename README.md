# Call-dispatch coordinator of the kiosk support server

A kiosk asks for help. The server places a phone call through the telephony provider. It then tells every
connected staff client through Socket.IO (`incoming_call`) and sends a push notification to the registered
Expo tokens. A staff member answers through `POST /call-response`. The first valid answer for a call sid
claims that call. The server puts an entry at the front of the call log, which keeps at most 100 entries
in `call_logs.json`, and then broadcasts `call_resolved`. Any later answer for the same sid gets a 409.

This project models the module-level state of `server.js` and the handlers that change it:

- `js_values.dfy` (`JsValues`): the primitive JSON values a request body can carry, and JavaScript
  truthiness. Request fields are values of this type, not bare strings, so `!sid`,
  `typeof accepted === 'undefined'`, `Set.has`, `Array.includes` and `!==` behave as in the source.
  For example, `accepted: false` is valid and `sid: ""` is rejected.
- `sequences.dfy` (`Sequences`): `filter(y => y !== x)` as `Without`, and `slice(0, n)` as `Prefix`.
- `call_log.dfy` (`CallLog`): the log entry, the cap of 100, `saveCallLog` as `Saved`, and what a series
  of saves leaves behind.
- `effects.dfy` (`Effects`): the two event payloads and the trace of outside effects. The trace records
  socket emits, rewrites of either JSON file and push requests, in order. `notifyStaff` is modelled as
  `Fanout`.
- `dispatch.dfy` (`Dispatch`): the whole server state as a value. It has one function per handler that
  gives the next state and the HTTP reply. `Run` handles a sequence of requests one after another, and
  the lemmas state what holds for every such run.
- `server.dfy` (`Server`): class `Coordinator`, whose fields are the module-level state:
  `connectedSockets`, `handledCalls`, the contents of the two JSON files, and a ghost trace. Its methods
  update that state in place as the handlers do. Each handler method is proved equal to its `Dispatch`
  function. The constructor stands for server start, which has no `Dispatch` counterpart.
  `NotifyStaff` is the `forEach` loop.

Node runs each handler body to completion before the next one starts. The only `await` in these handlers
is the call to `calls.create` in `/start-call`, and that handler reads no state before it. So each request
is modelled as one atomic step. `/start-call` is resumed with the provider's result, which is passed in as
a `Placement` value.

Each file is modelled by the value that `readJsonFileSafe` would return for it. A missing or unparsable
file reads as empty, and the constructor takes the stored contents as an `Option`. Only the server writes
these files, so after the first write every read returns exactly what was last written.

The model follows the code in these places:

- `/call-response` always puts a new entry at the front of the log. It never looks for an older entry for
  the same sid to update in place.
- `/start-call` writes no log entry, so there is no pending entry to update.
- A failed emit does not remove the socket from the registry.
- `writeJsonFileSafe` does not catch errors, so a throwing `writeFileSync` reaches Express. In
  `/call-response` that happens after the sid was claimed.

## Model

| member | source | states |
|---|---|---|
| `JsValues.Truthy` | server.js:160 | A value is truthy exactly when it is not one of undefined, null, false, 0 and the empty string. This is the test `!sid` at line 160, `!to` at line 135 and `if (token)` at line 104. |
| `Dispatch.Step` | server.js:51-179 | One socket event or request, handled to completion. Socket events get no reply and every HTTP request gets one. A reply other than 200 leaves the state unchanged. `GET /logs` replies with the stored log and changes nothing. |
| `Dispatch.Run` | server.js:51-179 | Requests handled one at a time, as Node runs each handler body to completion. There is exactly one reply slot per request. |
| `Sequences.Without` | server.js:57 | Filtering out `x` leaves no `x`. Every other element keeps its multiplicity. The length shrinks by the number of copies of `x`. |
| `Sequences.WithoutAppend` | server.js:57 | Filtering commutes with concatenation, so the remaining sockets or tokens keep their relative order. |
| `Sequences.WithoutAbsent` | server.js:57 | Filtering out an element that is not there changes nothing. Disconnecting an unknown socket is a no-op. |
| `Sequences.WithoutNoDuplicates` | server.js:118 | Filtering never introduces a duplicate token. |
| `Sequences.Prefix` | server.js:70 | `slice(0, n)` returns the first `n` elements, or the whole array when it is shorter. |
| `CallLog.Saved` | server.js:67-71 | After `saveCallLog`, the log has at most 100 entries and the new entry is at index 0. The rest are the previous log's first 99 (or all of them) in their original order. |
| `CallLog.SavedAllNewestFirst` | server.js:67-71 | Saving entries one after another gives them in reverse order (newest first) in front of the old log, all cut to 100. |
| `CallLog.LastCapEntries` | server.js:67-71 | After 100 or more saves, the log is exactly the last 100 entries, newest first. Nothing older survives, so the 101st save evicts the oldest. |
| `Effects.Fanout` | server.js:61-65 | A broadcast emits exactly one `(socket, data.type, data)` per connected socket, in registry order. It emits nothing when there are no sockets. |
| `Effects.FanoutAppend` | server.js:61-65 | Broadcasting to two groups of sockets is broadcasting to the first group, then to the second. |
| `Effects.FanoutReachesExactlyConnected` | server.js:61-65 | A socket receives the broadcast if and only if it is connected. |
| `Dispatch.RegisterToken` | server.js:102-113 | The reply is always 200. A truthy new token is appended and the file is written. A falsy or already-registered token changes nothing and writes nothing. A token list without duplicates stays without duplicates. |
| `Dispatch.UnregisterToken` | server.js:115-122 | The reply is always 200. Every copy of the token is removed, the other tokens keep their multiplicity, and the file is always rewritten. |
| `Dispatch.StartCall` | server.js:133-156 | A falsy `to` gives 400 with the "Missing \"to\"" message, and nothing happens. A provider failure gives 500 with the provider's message, and nothing happens. On success, `incoming_call {from: 'Sidney Kiosk', sid}` goes to every socket, then the push request is sent (if there are tokens), and the reply is 200 with the sid. The log and the claimed sids are never touched. |
| `Dispatch.CallResponse` | server.js:158-179 | 400 if and only if `sid` is falsy or `accepted` is undefined. 409 if and only if the request is valid and the sid is already claimed. In both cases nothing changes. Otherwise the reply is 200, the sid is claimed, and `{sid, accepted, time, 'Sidney Kiosk'}` becomes log entry 0. The log write comes in the trace before the `call_resolved` broadcast to every socket. |
| `Dispatch.StepClaims` | server.js:163-166 | A handler never releases a claimed sid. It claims a sid exactly when it is a 200 response for that sid. |
| `Dispatch.AtMostOneResolution` | server.js:163-166 | In any sequence of requests, the number of 200 responses for a sid is 1 if the sequence claimed it and 0 otherwise. It is 0 if the sid was already claimed at the start. |
| `Dispatch.ClaimedStaysConflicting` | server.js:163-165 | Once a sid is claimed, every later valid response for it gets 409, whatever `accepted` is. |
| `Dispatch.FirstResolutionWins` | server.js:163-166 | After a 200 for a sid, every later valid response for that sid in the same run gets 409. |
| `Dispatch.LogStaysBounded` | server.js:67-71 | A log within 100 entries stays within 100 entries, whatever requests are handled. |
| `Dispatch.TokensStayDistinct` | server.js:102-122 | A token list without duplicates stays without duplicates, whatever requests are handled. |
| `Dispatch.ClaimedSidsAreTruthy` | server.js:160-166 | Only truthy sids are ever claimed. |
| `Server.Coordinator.constructor` | server.js:32-45 | The server starts with no sockets and no claimed calls. Each store file reads as its stored contents, or as empty when it is missing or unreadable. |
| `Server.Coordinator.Connect` | server.js:51-53 | The connecting socket is appended to `connectedSockets`. |
| `Server.Coordinator.Disconnect` | server.js:55-58 | The disconnecting socket is gone from `connectedSockets`. Every other socket keeps its multiplicity and, through `Without`, its order. |
| `Server.Coordinator.NotifyStaff` | server.js:61-65 | The loop adds exactly the broadcast `Fanout(connectedSockets, data)` to the trace and changes nothing else. |
| `Server.Coordinator.SaveCallLog` | server.js:67-71 | The stored log becomes `Saved(old log, entry)`: at most 100 entries, with the entry first and the old prefix after it. The rewrite is recorded in the trace. |
| `Server.Coordinator.SendPushNotifications` | server.js:73-78 | With no tokens it does nothing. Otherwise it records one push request for all tokens. |
| `Server.Coordinator.RegisterToken` | server.js:102-113 | Implements `Dispatch.RegisterToken`. The reply is 200 and the token list stays free of duplicates. |
| `Server.Coordinator.UnregisterToken` | server.js:115-122 | Implements `Dispatch.UnregisterToken`. The reply is 200 and the token is gone. |
| `Server.Coordinator.Logs` | server.js:128-131 | `GET /logs` replies 200 with the stored log, unchanged. |
| `Server.Coordinator.StartCall` | server.js:133-156 | Implements `Dispatch.StartCall`. It replies 400 if and only if `to` is falsy, and never touches the log or the claimed sids. |
| `Server.Coordinator.CallResponse` | server.js:158-179 | Implements `Dispatch.CallResponse`. It replies 200 if and only if the request is valid and the sid is unclaimed. A 200 claims the sid and puts the new entry at index 0. Any other reply leaves the whole state unchanged. |
| `Server.DuplicateResponse` | server.js:158-179 | On a fresh server, an accept and then a decline for sid `CA123` get 200 and then 409. The log holds only the first response's entry. |

## Left out

- Placing the phone call (`client.calls.create`, server.js:141-145) is a call into the telephony library. Its result is an input, `Placement`.
- The `/voice` TwiML document and the `GET /` liveness text are fixed strings produced by library code.
- `sendExpoPushNotifications` after its synchronous token read (building messages, the HTTP `fetch` to Expo, logging its answer or error). It is asynchronous and its outcome never reaches a caller. The model records only that one push request for all registered tokens was issued.
- The mechanics of `fs` and `JSON.parse`/`JSON.stringify`. The files are modelled by their contents, and a JSON round trip of the modelled values is taken to be the identity.
- A store file that parses to something other than an array (`unshift` would throw and Express would reply 500). The model assumes each file is missing, unreadable, or an array written by the server.
- A failing `writeFileSync` (the exception reaches Express, which replies 500 after the sid is already claimed and before the broadcast). The model assumes the disk accepts every write.
- Numeric request fields written as literals too large for a double, which `JSON.parse` reads as `Infinity`. Numbers are reals.
- Request fields that are JSON objects or arrays (truthy, and compared by identity in `handledCalls`). Fields are primitive values.
- `new Date().toISOString()` is a wall-clock value. It is the `time` parameter.
- Socket.IO delivery, Express routing, body parsing, CORS, `server.listen` and `console` output are I/O plumbing.
- Emits are recorded in a ghost trace, not delivered.
- auth.js is outside the coordinator. It is a `bcrypt` wrapper, a file read and a one-line `Array.find`.
