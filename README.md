# WAHA SDK: WebSocket module and base client, modelled in Dafny

This project models the two parts of the WAHA TypeScript SDK that hold real
logic.

- **`WebSocketModule`** (`src/modules/websocket.ts`). This is the client side of
  the real-time event channel. It opens a WebSocket to the WAHA server and
  re-emits each server event to subscribers. It keeps the connection alive with
  periodic pings and reconnects after a close, up to `maxReconnectAttempts`
  times.
- **`WahaBaseClient`** (`src/client.ts`). This is the REST base client. It holds
  the configuration defaulting, the API-key header, the session-name fallbacks
  and the classification of failed requests.

## Layout

- `wrappers.dfy`, module `Wrappers`: `Option`, and JavaScript truthiness for
  optional strings.
- `client.dfy`, module `Client`: the base client as pure functions.
- `websocket_url.dfy`, module `WebSocketUrl`: the streaming endpoint. It keeps
  the URL as a base plus an ordered list of query parameters. `ValuesOf` reads a
  parameter back.
- `websocket_state.dfy`, module `WebSocketState`: the module's state as a
  `Machine` value, with one step function per thing that can happen:
  - `connect` and `close` calls;
  - a socket's open, message, error or close signal;
  - the server starting the closing handshake, which moves an open socket to
    CLOSING without running any handler;
  - the keepalive interval or a reconnect timeout firing.

  It also holds the invariant `Inv` and the proof that every step keeps it.
- `websocket.dfy`, module `WebSocket`: the class `WebSocketModule`. It has the
  original's fields (`socket`, `config`, `reconnectAttempts`, the ping timer
  handle, `isConnected`, `isReconnecting`, `url`). Every method is proved to
  change them exactly as the matching step function says.
- `websocket_properties.dfy`, module `WebSocketProperties`: the behavioural
  properties. These cover:
  - the effects of each signal and the order of emitted events;
  - the reconnect-attempt bound over any run;
  - the keepalive gate and `close()` idempotence;
  - consequences of the code a caller may not expect (listed below);
  - one complete run, in which reconnects fail until the attempts are exhausted.

How the platform is represented:

- Sockets, timers, `JSON.parse` and the `EventEmitter` are inputs and logs.
- Each socket the module creates is a record in `sockets`. A record holds the
  socket's ready state, the promise of the `connect` call that created it, and
  whether that call came from the reconnect timer.
- Handlers never get detached, so a signal from *any* socket the module created
  runs the module's handler.
- Each handler's precondition is what the WebSocket API guarantees about when a
  signal can arrive:
  - `open` arrives only while the socket is connecting;
  - messages arrive only while it is open;
  - `error` and `close` arrive only before it is closed;
  - the server's closing handshake starts only on an open socket.
- The `EventEmitter` is the log `emitted` of `emit(name, arg)` calls.
- Pings sent are the log `sent`.
- Scheduled reconnect timeouts are the counter `pendingReconnects`.

What the code does, proved about the model, that a caller may not expect:

- The reconnect path calls `this.connect()` with no arguments
  (`src/modules/websocket.ts:166`). The reopened socket therefore uses the
  default session and has no `events` parameter. It does not reuse the original
  options (`ReconnectUsesDefaultOptions`).
- Configuration is merged over the current configuration
  (`src/modules/websocket.ts:44-47`), not over fixed defaults, so overrides
  persist across `connect` calls (`OverridesPersist`).
- `close()` does not cancel a scheduled reconnect (`CloseKeepsScheduledReconnect`).
- `close()` does not stop reconnecting. It clears `isReconnecting` and leaves
  the socket's `onclose` attached. The close event of the socket it closed
  therefore schedules a reconnect (`CloseThenCloseEventReconnects`).
- The same happens when `connect` replaces a live socket. The old socket's late
  close marks the module disconnected and schedules a reconnect
  (`StaleCloseDisturbsNewConnection`). If the new socket has already opened, that
  close also stops its keepalive, so `isOpen()` is false while the socket held is
  OPEN. The reconnect it schedules then closes that healthy socket
  (`StaleCloseStopsKeepalive`).
- During the server's closing handshake the keepalive interval stays set while
  `isOpen()` is false, and each ping in that window sends nothing
  (`ClosingHandshakeKeepsInterval`).
- A caller's `connect` does not reset the attempt counter. Only a successful
  open does (`ConnectKeepsCounter`).
- Exhaustion is tested before the increment, as `reconnectAttempts >=
  maxReconnectAttempts`. So at most `maxReconnectAttempts` `reconnecting`
  events occur between two opens, as long as no `connect` lowers the maximum
  (`RunAttemptBound`).

## Model

| member | source | states |
|---|---|---|
| `Client.NewClient` | src/client.ts:15-19 | `defaultSession` is "default" unless the caller supplies one; `baseUrl` and `apiKey` are kept as given |
| `Client.Headers` | src/client.ts:22-28 | JSON content type always; an `X-Api-Key` header exactly when the API key is non-empty, carrying that key; no other header |
| `Client.GetDefaultSession` | src/client.ts:128-130 | never empty; the configured default session, or "default" when that is empty |
| `Client.DefaultSessionOfNewClient` | src/client.ts:15-19 | after construction, the fallback session is the caller's non-empty default session, otherwise "default" |
| `Client.FormatSession` | src/client.ts:137-139 | never empty; the given session when it is non-empty, otherwise the default session |
| `Client.FormatSessionStable` | src/client.ts:137-139 | formatting is idempotent, and an empty session name behaves like none |
| `Client.ClassifyError` | src/client.ts:33-55 | three-way classification: the rejected object's shape tells which case occurred. A server response gives `status`, `data` and `data.message` or "Unknown error". A request without a response gives "No response received from server" and keeps the request. Otherwise the message is `error.message` or "Request setup error". The message is never empty |
| `WebSocketUrl.StreamingBase` | src/modules/websocket.ts:187 | only a leading "http" is replaced by "ws"; any other base is unchanged |
| `WebSocketUrl.SchemeRewrite` | src/modules/websocket.ts:186-187 | `http://` becomes `ws://` and `https://` becomes `wss://`, with the rest unchanged |
| `WebSocketUrl.EventParams` | src/modules/websocket.ts:209-213 | one `events` parameter per array element, in array order |
| `WebSocketUrl.UrlParameters` | src/modules/websocket.ts:182-216 | endpoint is the rewritten base plus `/ws`; `x-api-key` appears only when an API key is set; exactly one `session` value (the option, else the client's default session); `events` values are `*` or the names in order, or none |
| `WebSocketUrl.UrlParameterOrder` | src/modules/websocket.ts:192-214 | no parameters besides these three; the key comes first, then the session, then the events |
| `WebSocketState.MergeConfig` | src/modules/websocket.ts:44-47 | shallow merge: each supplied field wins and each absent one is kept |
| `WebSocketState.InitInv` | src/modules/websocket.ts:23-34 | the freshly constructed module satisfies the invariant |
| `WebSocketState.ConnectKeepsInv` | src/modules/websocket.ts:42-99 | `connect` keeps the invariant, including at most one live socket, which is the held one |
| `WebSocketState.OnOpenKeepsInv` | src/modules/websocket.ts:62-68 | the open handler keeps the invariant |
| `WebSocketState.OnMessageKeepsInv` | src/modules/websocket.ts:70-78 | the message handler keeps the invariant |
| `WebSocketState.OnErrorKeepsInv` | src/modules/websocket.ts:80-83 | the error handler keeps the invariant |
| `WebSocketState.OnCloseKeepsInv` | src/modules/websocket.ts:85-94 | the close handler keeps the invariant, including when it attempts a reconnect |
| `WebSocketState.AttemptReconnectKeepsCounter` | src/modules/websocket.ts:154-163 | after `attemptReconnect`, the counter still equals the number of `reconnecting` events since the last `open`, numbered 1, 2, ... |
| `WebSocketState.ReconnectTimerKeepsInv` | src/modules/websocket.ts:165-166 | the reconnect timeout's `connect()` keeps the invariant |
| `WebSocketState.CloseKeepsInv` | src/modules/websocket.ts:104-112 | `close()` keeps the invariant |
| `WebSocketState.PingKeepsInv` | src/modules/websocket.ts:125-129 | a keepalive ping keeps the invariant |
| `WebSocketState.PeerClosingKeepsInv` | src/modules/websocket.ts:85-87 | the server starting the closing handshake, before `onclose` runs, keeps the invariant |
| `WebSocketState.StepKeepsInv` | src/modules/websocket.ts:42-175 | each of the nine modelled inputs keeps the invariant whenever the platform can deliver it. The invariant: at most one live socket, the held one; a keepalive timer only while keepalive is enabled and the module is connected to a held socket that is OPEN or CLOSING; the counter equals the number of `reconnecting` events since the last `open` |
| `WebSocket.WebSocketModule.constructor` | src/modules/websocket.ts:23-34 | default configuration (auto-reconnect on, 5000 ms interval, 10 attempts, 30000 ms ping); no socket; counters zero |
| `WebSocket.WebSocketModule.Connect` | src/modules/websocket.ts:42-99 | merges the configuration, closes a held socket, builds the URL, then holds a new connecting socket with a pending promise (or none if creation throws); keeps `Valid()` |
| `WebSocket.WebSocketModule.StartConnect` | src/modules/websocket.ts:44-59 | the body of `connect`, shared with the reconnect path, whose failed creation runs the `.catch` |
| `WebSocket.WebSocketModule.Close` | src/modules/websocket.ts:104-112 | clears `isReconnecting` and the ping timer; starts closing the held socket and drops it |
| `WebSocket.WebSocketModule.IsOpen` | src/modules/websocket.ts:118-120 | true exactly when `isConnected` holds and the held socket reports OPEN |
| `WebSocket.WebSocketModule.Ping` | src/modules/websocket.ts:125-129 | sends the ping frame to the held socket only when `isOpen()` holds |
| `WebSocket.WebSocketModule.StartPingInterval` | src/modules/websocket.ts:134-139 | clears any timer, then sets one only when `pingInterval > 0` |
| `WebSocket.WebSocketModule.StopPingInterval` | src/modules/websocket.ts:144-149 | no timer afterwards; nothing else changes |
| `WebSocket.WebSocketModule.AttemptReconnect` | src/modules/websocket.ts:154-175 | at the limit, `reconnect_failed` only; otherwise set the flag, increment, emit `reconnecting` with the new count and schedule one retry |
| `WebSocket.WebSocketModule.BuildWebSocketUrl` | src/modules/websocket.ts:182-216 | the parameter-by-parameter construction (a loop over the event names) yields exactly `BuildUrl`, whose shape `UrlParameters` states |
| `WebSocket.WebSocketModule.Resolve` | src/modules/websocket.ts:166-170 | the first resolve settles the promise; for a reconnect it clears the flag and emits `reconnected` |
| `WebSocket.WebSocketModule.Reject` | src/modules/websocket.ts:171-173 | the first reject settles the promise; for a reconnect it clears the flag |
| `WebSocket.WebSocketModule.OnOpen` | src/modules/websocket.ts:62-68 | open handler as `OnOpenStep`; keeps `Valid()` |
| `WebSocket.WebSocketModule.OnMessage` | src/modules/websocket.ts:70-78 | message handler as `OnMessageStep`; keeps `Valid()` |
| `WebSocket.WebSocketModule.OnError` | src/modules/websocket.ts:80-83 | emits `error` and rejects the socket's connect promise; keeps `Valid()` |
| `WebSocket.WebSocketModule.OnClose` | src/modules/websocket.ts:85-94 | close handler as `OnCloseStep`; keeps `Valid()` |
| `WebSocket.WebSocketModule.PingTimerFires` | src/modules/websocket.ts:137 | the interval callback: one `ping()`; keeps `Valid()` |
| `WebSocket.WebSocketModule.ReconnectTimerFires` | src/modules/websocket.ts:165-174 | the timeout callback: `connect()` with no options or configuration; keeps `Valid()` |
| `WebSocketProperties.MergeConfigLaws` | src/modules/websocket.ts:28-47 | the defaults are (true, 5000, 10, 30000); merging nothing is the identity; merging the same overrides twice equals merging them once |
| `WebSocketProperties.OverridesPersist` | src/modules/websocket.ts:44-47 | a later `connect` without configuration keeps an earlier call's overrides |
| `WebSocketProperties.AtMostOneLiveSocket` | src/modules/websocket.ts:49-59 | any two live sockets are the same socket, and it is the held one |
| `WebSocketProperties.ConnectReplacesSocket` | src/modules/websocket.ts:49-59 | the held socket is no longer live afterwards; the new one is held and connecting to the new URL; nothing is emitted; the counter is unchanged; no ping timer |
| `WebSocketProperties.OpenEffects` | src/modules/websocket.ts:62-68 | connected; counter 0; ping timer exactly when enabled; `isOpen()`; emits `open`, followed by `reconnected` only for a reconnect's pending promise |
| `WebSocketProperties.MessageDispatch` | src/modules/websocket.ts:70-78 | a parsed frame emits exactly `message` and then its event name, with the same payload; an unparsable one emits exactly one `error` with no payload; only the log changes |
| `WebSocketProperties.CloseEventEffects` | src/modules/websocket.ts:85-94 | disconnected, no ping timer, socket closed, `close` emitted first; attempts a reconnect exactly when `autoReconnect && !isReconnecting` |
| `WebSocketProperties.AttemptBound` | src/modules/websocket.ts:154-163 | at the limit only `reconnect_failed` is emitted, with no timer and the counter unchanged; below it the counter rises by one, never past the maximum |
| `WebSocketProperties.CloseIdempotent` | src/modules/websocket.ts:104-112 | afterwards no socket, timer or flag remains and `isOpen()` is false; nothing is emitted or sent; a second call changes nothing |
| `WebSocketProperties.KeepaliveOnlyWhileConnected` | src/modules/websocket.ts:85-87 | a ping timer exists only while `pingInterval > 0`, `isConnected` holds, and the held socket has opened and not yet reported its close |
| `WebSocketProperties.ClosingHandshakeKeepsInterval` | src/modules/websocket.ts:118-137 | from an open module with keepalive, the server's closing handshake leaves the interval set while `isOpen()` is false, and a ping then sends nothing |
| `WebSocketProperties.PingOnlyWhenOpen` | src/modules/websocket.ts:125-129 | a ping goes to the held socket exactly when `isOpen()` holds; nothing else changes |
| `WebSocketProperties.RunKeepsInv` | src/modules/websocket.ts:42-175 | the invariant holds after any deliverable sequence of inputs |
| `WebSocketProperties.ConnectQuiet` | src/modules/websocket.ts:42-59 | `connect`, whether from a caller or the timer, emits nothing and leaves the attempt counter alone; the configuration becomes the merge of the overrides |
| `WebSocketProperties.StepAttemptBound` | src/modules/websocket.ts:154-163 | one deliverable input that does not lower `maxReconnectAttempts` (a `connect` may omit, repeat or raise it) leaves the maximum no lower and the counter within it. It only appends to the log, and each `reconnecting` event it appends is numbered within 1..max |
| `WebSocketProperties.RunAttemptBound` | src/modules/websocket.ts:154-163 | over any deliverable run in which no `connect` lowers `maxReconnectAttempts`, the counter stays within the final maximum and the log only grows. Every `reconnecting` event emitted carries an attempt in 1..max |
| `WebSocketProperties.ReconnectUsesDefaultOptions` | src/modules/websocket.ts:165-166 | the retried socket's URL has the client's default session and no `events` parameter |
| `WebSocketProperties.CloseKeepsScheduledReconnect` | src/modules/websocket.ts:104-112 | a reconnect scheduled before `close()` still fires afterwards and opens a socket |
| `WebSocketProperties.CloseThenCloseEventReconnects` | src/modules/websocket.ts:85-112 | after `close()`, the closed socket's close event emits `close` and `reconnecting` and schedules a retry |
| `WebSocketProperties.StaleCloseDisturbsNewConnection` | src/modules/websocket.ts:49-93 | for any options and configuration, a replaced socket's late close, arriving while the new socket is connecting, leaves the module disconnected though it holds the new socket, and schedules a retry |
| `WebSocketProperties.StaleCloseStopsKeepalive` | src/modules/websocket.ts:49-93 | if the new socket has opened with keepalive, the replaced socket's late close stops the keepalive: `isOpen()` becomes false while the held socket is OPEN. It schedules a retry, and the retry's `connect()` moves the healthy socket to CLOSING |
| `WebSocketProperties.ConnectKeepsCounter` | src/modules/websocket.ts:42-99 | a caller's `connect` leaves a non-zero attempt counter as it was |
| `WebSocketProperties.ExhaustionScenario` | src/modules/websocket.ts:85-174 | the run has max 2 attempts and no keepalive; the socket opens, drops, and every retry closes. It emits open, close, reconnecting(1), close, reconnecting(2), close, reconnect_failed, and ends with nothing scheduled |

## Left out

- Real sockets, `setInterval`, `setTimeout` and `clearInterval` are not modelled; they become inputs. Timer delays (`reconnectInterval`, `pingInterval` as a period) do not appear, only whether a timer is set.
- `EventEmitter` internals are left out: the listener registry, the call order of listeners, and Node's throw on an `error` event that has no listener. The model is the log of `emit` calls. A listener that throws inside the `message` dispatch would make the `catch` emit `error`. That path is not modelled.
- `JSON.parse` is an input (`Frame`). Frames that parse to something other than an object with an `event` field (`null`, a number) are not modelled. The payload beyond `event` and `session` is an opaque string.
- A socket's ready state changes only in these ways: `open` sets OPEN, `close` sets CLOSED, and `socket.close()` or the server's closing handshake sets CLOSING. An `error` signal leaves the ready state unchanged.
- StepAttemptBound, RunAttemptBound: cover runs in which no `connect` passes a `maxReconnectAttempts` below the current one. A lowering call can leave the counter above the new maximum. The `>=` test then emits `reconnect_failed` at the next close, but no bound on the counter holds in that state.
- KeepaliveOnlyWhileConnected: states that the held socket is OPEN or CLOSING, not that `isOpen()` holds. During the server's closing handshake the interval is still set while `isOpen()` is false (`ClosingHandshakeKeepsInterval`).
- URL serialisation (`url.toString()`, percent-encoding, normalisation by the URL parser) is left out, and so is `new URL` throwing on a malformed base address. The URL is kept as the rewritten base plus `/ws` and the ordered parameter list.
- Properties set explicitly to `undefined` in option or configuration objects are not modelled. They would override a default with `undefined`. A property is either absent or present with a value of its declared type.
- The declarations of `WebSocketOptions`, `WebSocketConfig` and `WebSocketEventPayload` are not part of this model. Their shapes are taken from how `src/modules/websocket.ts` uses them: `session?: string`, `events?: '*' \| string[]`, and four configuration fields.
- The numbers of the configuration are unbounded integers, not IEEE doubles.
- In the HTTP client, the axios instance and the `get`/`post`/`put`/`delete` wrappers (src/client.ts:59-122) are thin pass-throughs to the HTTP library and are not modelled. A response whose `data` is `null` or `undefined` would make the interceptor throw; this is not modelled.
- The REST modules (chats, chatting, groups, sessions, profile, presence, auth) only map calls onto HTTP verbs and URL templates. They are not part of this model.
