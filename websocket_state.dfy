/**
 * The WebSocket module's state as a value, and one function per thing that
 * can happen to it: a call by the user (`connect`, `close`), a signal from
 * one of the sockets it created (open, message, error, close), or a timer
 * firing (the keepalive interval, a scheduled reconnect). The class in
 * websocket.dfy is proved to follow these functions step by step.
 *
 * The platform is part of the state only as far as the module can observe
 * it: the ready state of every socket the module created, the promise each
 * `connect` call returned, the frames sent, and how many reconnect timeouts
 * are still scheduled. The EventEmitter is the log of emitted events.
 */
module WebSocketState {
  import opened Wrappers
  import opened Client
  import opened WebSocketUrl

  // ---------------------------------------------------------------------
  // Configuration
  // ---------------------------------------------------------------------

  datatype Config = Config(autoReconnect: bool, reconnectInterval: int, maxReconnectAttempts: int, pingInterval: int)

  /** A `connect` call's configuration argument; absent properties are `None`. */
  datatype ConfigOverrides = ConfigOverrides(
    autoReconnect: Option<bool>,
    reconnectInterval: Option<int>,
    maxReconnectAttempts: Option<int>,
    pingInterval: Option<int>)

  /** The configuration the constructor installs (intervals in milliseconds). */
  const DefaultConfig: Config := Config(true, 5000, 10, 30000)

  const NoOverrides: ConfigOverrides := ConfigOverrides(None, None, None, None)

  /** Shallow merge `{...base, ...o}`: each supplied field wins, each absent one is kept. */
  function MergeConfig(base: Config, o: ConfigOverrides): (c: Config)
    ensures c.autoReconnect == (if o.autoReconnect.Some? then o.autoReconnect.value else base.autoReconnect)
    ensures c.reconnectInterval
         == (if o.reconnectInterval.Some? then o.reconnectInterval.value else base.reconnectInterval)
    ensures c.maxReconnectAttempts
         == (if o.maxReconnectAttempts.Some? then o.maxReconnectAttempts.value else base.maxReconnectAttempts)
    ensures c.pingInterval == (if o.pingInterval.Some? then o.pingInterval.value else base.pingInterval)
  {
    Config(
      if o.autoReconnect.Some? then o.autoReconnect.value else base.autoReconnect,
      if o.reconnectInterval.Some? then o.reconnectInterval.value else base.reconnectInterval,
      if o.maxReconnectAttempts.Some? then o.maxReconnectAttempts.value else base.maxReconnectAttempts,
      if o.pingInterval.Some? then o.pingInterval.value else base.pingInterval)
  }

  // ---------------------------------------------------------------------
  // Frames, emitted events, sockets
  // ---------------------------------------------------------------------

  /** A server event as the module reads it; `body` stands for the rest of the JSON object. */
  datatype Payload = Payload(event: string, session: string, body: string)

  /** What `JSON.parse` makes of an inbound frame. */
  datatype Frame = Parsed(payload: Payload) | Unparsable(reason: string)

  datatype ErrorCause = ParseFailure(reason: string) | TransportFailure(socketId: nat)

  /** The argument an event is emitted with. */
  datatype EventArg =
    | NoArg
    | PayloadArg(payload: Payload)
    | AttemptArg(attempt: int)
    | ErrorArg(cause: ErrorCause)
    | CloseArg(socketId: nat)

  /** One `emit(name, arg)` call on the module's EventEmitter. */
  datatype Emission = Emission(name: string, arg: EventArg)

  const OpenEmission: Emission := Emission("open", NoArg)
  const ReconnectedEmission: Emission := Emission("reconnected", NoArg)
  const ReconnectFailedEmission: Emission := Emission("reconnect_failed", NoArg)

  /** A lifecycle `reconnecting` event (server payloads named "reconnecting" carry a payload instead). */
  predicate IsReconnecting(e: Emission) {
    e.name == "reconnecting" && e.arg.AttemptArg?
  }

  datatype ReadyState = Connecting | Open | Closing | Closed

  predicate Live(s: ReadyState) {
    s == Connecting || s == Open
  }

  /** The socket has opened and has not yet reported its close. */
  predicate Established(s: ReadyState) {
    s == Open || s == Closing
  }

  datatype Settlement = Pending | Resolved | Rejected

  /**
   * A socket the module created, together with the promise of the `connect`
   * call that created it, and whether that call came from the reconnect timer
   * (only then do the promise's `.then`/`.catch` touch the module).
   */
  datatype SocketRecord = SocketRecord(url: WsUrl, readyState: ReadyState, promise: Settlement, byReconnect: bool)

  datatype Outbound = Outbound(socketId: nat, frame: string)

  /** The keepalive probe, `JSON.stringify({ type: 'ping' })`. */
  const PingFrame: string := "{\"type\":\"ping\"}"

  // ---------------------------------------------------------------------
  // The module's state
  // ---------------------------------------------------------------------

  /**
   * `socket` is the index, in `sockets`, of the socket the module holds
   * (`this.socket`); `pingTimer` says whether a keepalive interval is set;
   * `url` is the last URL built (`None` for the initial empty string).
   */
  datatype Machine = Machine(
    client: ClientConfig,
    socket: Option<nat>,
    sockets: seq<SocketRecord>,
    config: Config,
    reconnectAttempts: int,
    pingTimer: bool,
    isConnected: bool,
    isReconnecting: bool,
    url: Option<WsUrl>,
    emitted: seq<Emission>,
    sent: seq<Outbound>,
    pendingReconnects: nat)

  function Init(client: ClientConfig): Machine {
    Machine(client, None, [], DefaultConfig, 0, false, false, false, None, [], [], 0)
  }

  predicate WellFormed(m: Machine) {
    m.socket.Some? ==> m.socket.value < |m.sockets|
  }

  /** `isOpen()`: the flag is set and the socket held reports OPEN. */
  predicate IsOpenIn(m: Machine)
    requires WellFormed(m)
  {
    m.isConnected && m.socket.Some? && m.sockets[m.socket.value].readyState == Open
  }

  // ---------------------------------------------------------------------
  // The private helpers
  // ---------------------------------------------------------------------

  function EmitStep(m: Machine, e: Emission): Machine {
    m.(emitted := m.emitted + [e])
  }

  function StopPingStep(m: Machine): Machine {
    if m.pingTimer then m.(pingTimer := false) else m
  }

  function StartPingStep(m: Machine): Machine {
    var m1 := StopPingStep(m);
    if m1.config.pingInterval > 0 then m1.(pingTimer := true) else m1
  }

  function PingStep(m: Machine): Machine
    requires WellFormed(m)
  {
    if IsOpenIn(m) then m.(sent := m.sent + [Outbound(m.socket.value, PingFrame)]) else m
  }

  function AttemptReconnectStep(m: Machine): Machine {
    if m.reconnectAttempts >= m.config.maxReconnectAttempts then EmitStep(m, ReconnectFailedEmission)
    else
      var n := m.reconnectAttempts + 1;
      var m1 := EmitStep(m.(isReconnecting := true, reconnectAttempts := n), Emission("reconnecting", AttemptArg(n)));
      m1.(pendingReconnects := m1.pendingReconnects + 1)
  }

  function WithReadyState(sockets: seq<SocketRecord>, id: nat, s: ReadyState): (r: seq<SocketRecord>)
    requires id < |sockets|
    ensures |r| == |sockets|
  {
    sockets[id := sockets[id].(readyState := s)]
  }

  /** `socket.close()`: a connecting or open socket starts closing; otherwise nothing happens. */
  function CloseSocket(sockets: seq<SocketRecord>, id: nat): (r: seq<SocketRecord>)
    requires id < |sockets|
    ensures |r| == |sockets|
  {
    if Live(sockets[id].readyState) then WithReadyState(sockets, id, Closing) else sockets
  }

  /** The first `resolve()` of a connect promise; a reconnect's `.then` then clears the flag and reports. */
  function ResolveStep(m: Machine, id: nat): Machine
    requires id < |m.sockets|
  {
    if m.sockets[id].promise != Pending then m
    else
      var m1 := m.(sockets := m.sockets[id := m.sockets[id].(promise := Resolved)]);
      if m.sockets[id].byReconnect then EmitStep(m1.(isReconnecting := false), ReconnectedEmission) else m1
  }

  /** The first `reject()` of a connect promise; a reconnect's `.catch` then clears the flag. */
  function RejectStep(m: Machine, id: nat): Machine
    requires id < |m.sockets|
  {
    if m.sockets[id].promise != Pending then m
    else
      var m1 := m.(sockets := m.sockets[id := m.sockets[id].(promise := Rejected)]);
      if m.sockets[id].byReconnect then m1.(isReconnecting := false) else m1
  }

  // ---------------------------------------------------------------------
  // The public operations and the signals
  // ---------------------------------------------------------------------

  /** `close()`. */
  function CloseStep(m: Machine): Machine
    requires WellFormed(m)
  {
    var m1 := StopPingStep(m.(isReconnecting := false));
    if m1.socket.Some? then m1.(sockets := CloseSocket(m1.sockets, m1.socket.value), socket := None) else m1
  }

  /**
   * `connect(options, overrides)`. `created` says whether `new WebSocket(url)`
   * succeeded; when it throws, the promise is rejected at once.
   */
  function ConnectStep(m: Machine, options: Options, overrides: ConfigOverrides, created: bool, byReconnect: bool): Machine
    requires WellFormed(m)
  {
    var m1 := m.(config := MergeConfig(m.config, overrides));
    var m2 := if m1.socket.Some? then CloseStep(m1) else m1;
    var u := BuildUrl(m2.client, options);
    var m3 := m2.(url := Some(u));
    if created then
      m3.(sockets := m3.sockets + [SocketRecord(u, Connecting, Pending, byReconnect)], socket := Some(|m3.sockets|))
    else if byReconnect then m3.(isReconnecting := false)
    else m3
  }

  /** The platform marks the socket open, then runs `onopen`. */
  function OnOpenStep(m: Machine, id: nat): Machine
    requires id < |m.sockets|
  {
    var m1 := m.(sockets := WithReadyState(m.sockets, id, Open), isConnected := true, reconnectAttempts := 0);
    ResolveStep(EmitStep(StartPingStep(m1), OpenEmission), id)
  }

  /** `onmessage`: a parsed frame is emitted as `message` and under its own event name. */
  function OnMessageStep(m: Machine, frame: Frame): Machine {
    match frame
    case Parsed(p) => EmitStep(EmitStep(m, Emission("message", PayloadArg(p))), Emission(p.event, PayloadArg(p)))
    case Unparsable(reason) => EmitStep(m, Emission("error", ErrorArg(ParseFailure(reason))))
  }

  /** `onerror`. */
  function OnErrorStep(m: Machine, id: nat): Machine
    requires id < |m.sockets|
  {
    RejectStep(EmitStep(m, Emission("error", ErrorArg(TransportFailure(id)))), id)
  }

  /** The platform marks the socket closed, then runs `onclose`. */
  function OnCloseStep(m: Machine, id: nat): Machine
    requires id < |m.sockets|
  {
    var m1 := m.(sockets := WithReadyState(m.sockets, id, Closed), isConnected := false);
    var m2 := EmitStep(StopPingStep(m1), Emission("close", CloseArg(id)));
    if m2.config.autoReconnect && !m2.isReconnecting then AttemptReconnectStep(m2) else m2
  }

  /**
   * The server sends its close frame: the platform moves the socket to
   * CLOSING. No handler of the module runs until the close event.
   */
  function PeerClosingStep(m: Machine, id: nat): Machine
    requires id < |m.sockets|
  {
    m.(sockets := WithReadyState(m.sockets, id, Closing))
  }

  /** A scheduled reconnect fires: `this.connect()` with no options and no configuration. */
  function ReconnectTimerStep(m: Machine, created: bool): Machine
    requires WellFormed(m) && m.pendingReconnects > 0
  {
    ConnectStep(m.(pendingReconnects := m.pendingReconnects - 1), NoOptions, NoOverrides, created, true)
  }

  // ---------------------------------------------------------------------
  // Everything that can happen, in one place
  // ---------------------------------------------------------------------

  datatype Input =
    | ConnectCall(options: Options, overrides: ConfigOverrides, created: bool)
    | CloseCall
    | SocketOpened(id: nat)
    | SocketMessage(id: nat, frame: Frame)
    | SocketError(id: nat)
    | SocketClosed(id: nat)
    | PeerClosing(id: nat)
    | PingTimerFired
    | ReconnectTimerFired(created: bool)

  /**
   * When the platform can deliver an input: a socket opens only while
   * connecting, receives frames only while open, and reports an error or a
   * close only before it is closed; the server starts the closing handshake
   * only on an open socket; an interval fires only while it is set, and a
   * timeout only while scheduled.
   */
  predicate Enabled(m: Machine, input: Input) {
    match input
    case ConnectCall(_, _, _) => true
    case CloseCall => true
    case SocketOpened(id) => id < |m.sockets| && m.sockets[id].readyState == Connecting
    case SocketMessage(id, _) => id < |m.sockets| && m.sockets[id].readyState == Open
    case SocketError(id) => id < |m.sockets| && m.sockets[id].readyState != Closed
    case SocketClosed(id) => id < |m.sockets| && m.sockets[id].readyState != Closed
    case PeerClosing(id) => id < |m.sockets| && m.sockets[id].readyState == Open
    case PingTimerFired => m.pingTimer
    case ReconnectTimerFired(_) => m.pendingReconnects > 0
  }

  function Step(m: Machine, input: Input): Machine
    requires WellFormed(m) && Enabled(m, input)
  {
    match input
    case ConnectCall(options, overrides, created) => ConnectStep(m, options, overrides, created, false)
    case CloseCall => CloseStep(m)
    case SocketOpened(id) => OnOpenStep(m, id)
    case SocketMessage(_, frame) => OnMessageStep(m, frame)
    case SocketError(id) => OnErrorStep(m, id)
    case SocketClosed(id) => OnCloseStep(m, id)
    case PeerClosing(id) => PeerClosingStep(m, id)
    case PingTimerFired => PingStep(m)
    case ReconnectTimerFired(created) => ReconnectTimerStep(m, created)
  }

  // ---------------------------------------------------------------------
  // The invariant
  // ---------------------------------------------------------------------

  /** The attempt numbers of the `reconnecting` events since the last `open` event. */
  function AttemptsSinceOpen(log: seq<Emission>): seq<int> {
    if log == [] then []
    else
      var last := log[|log| - 1];
      if last == OpenEmission then []
      else if IsReconnecting(last) then AttemptsSinceOpen(log[..|log| - 1]) + [last.arg.attempt]
      else AttemptsSinceOpen(log[..|log| - 1])
  }

  /** [1, 2, ..., n] */
  function OneTo(n: nat): (r: seq<int>)
    ensures |r| == n && forall i :: 0 <= i < n ==> r[i] == i + 1
  {
    seq(n, i => i + 1)
  }

  /**
   * What holds between any two inputs: at most one socket is live and it is
   * the one held; a keepalive interval is set only while keepalive is
   * enabled, the module is connected and its socket has opened and not yet
   * reported its close (it may be OPEN, or CLOSING during the server's
   * closing handshake); and the attempt counter is the number of
   * `reconnecting` events since the last `open`, which were numbered 1, 2, ...
   */
  ghost predicate Inv(m: Machine) {
    && WellFormed(m)
    && (forall i :: 0 <= i < |m.sockets| && m.socket != Some(i) ==> !Live(m.sockets[i].readyState))
    && (m.pingTimer ==> m.config.pingInterval > 0 && m.isConnected && m.socket.Some?
                        && Established(m.sockets[m.socket.value].readyState))
    && m.reconnectAttempts >= 0
    && AttemptsSinceOpen(m.emitted) == OneTo(m.reconnectAttempts)
  }

  lemma InitInv(client: ClientConfig)
    ensures Inv(Init(client))
  {
  }

  lemma {:induction false} AttemptsAfterEmit(log: seq<Emission>, e: Emission)
    ensures AttemptsSinceOpen(log + [e])
         == if e == OpenEmission then []
            else if IsReconnecting(e) then AttemptsSinceOpen(log) + [e.arg.attempt]
            else AttemptsSinceOpen(log)
  {
    assert (log + [e])[..|log|] == log;
  }

  lemma OneToNext(n: nat)
    ensures OneTo(n + 1) == OneTo(n) + [n + 1]
  {
  }

  lemma CloseKeepsInv(m: Machine)
    requires Inv(m)
    ensures Inv(CloseStep(m))
  {
  }

  lemma {:induction false} ConnectKeepsInv(m: Machine, options: Options, overrides: ConfigOverrides, created: bool, byReconnect: bool)
    requires Inv(m)
    ensures Inv(ConnectStep(m, options, overrides, created, byReconnect))
  {
    var m1 := m.(config := MergeConfig(m.config, overrides));
    var m2 := if m1.socket.Some? then CloseStep(m1) else m1;
    assert !m2.pingTimer;
    assert m2.socket == None;
    assert forall i :: 0 <= i < |m2.sockets| ==> !Live(m2.sockets[i].readyState);
  }

  lemma {:induction false} OnOpenKeepsInv(m: Machine, id: nat)
    requires Inv(m) && id < |m.sockets| && m.sockets[id].readyState == Connecting
    ensures Inv(OnOpenStep(m, id))
  {
    assert m.socket == Some(id);
    var m1 := m.(sockets := WithReadyState(m.sockets, id, Open), isConnected := true, reconnectAttempts := 0);
    var m2 := EmitStep(StartPingStep(m1), OpenEmission);
    AttemptsAfterEmit(StartPingStep(m1).emitted, OpenEmission);
    assert Inv(m2);
    if m2.sockets[id].promise == Pending && m2.sockets[id].byReconnect {
      AttemptsAfterEmit(m2.emitted, ReconnectedEmission);
    }
  }

  lemma {:induction false} OnMessageKeepsInv(m: Machine, frame: Frame)
    requires Inv(m)
    ensures Inv(OnMessageStep(m, frame))
  {
    match frame
    case Parsed(p) =>
      AttemptsAfterEmit(m.emitted, Emission("message", PayloadArg(p)));
      AttemptsAfterEmit(m.emitted + [Emission("message", PayloadArg(p))], Emission(p.event, PayloadArg(p)));
    case Unparsable(reason) =>
      AttemptsAfterEmit(m.emitted, Emission("error", ErrorArg(ParseFailure(reason))));
  }

  lemma {:induction false} OnErrorKeepsInv(m: Machine, id: nat)
    requires Inv(m) && id < |m.sockets|
    ensures Inv(OnErrorStep(m, id))
  {
    AttemptsAfterEmit(m.emitted, Emission("error", ErrorArg(TransportFailure(id))));
  }

  lemma {:induction false} AttemptReconnectKeepsCounter(m: Machine)
    requires m.reconnectAttempts >= 0 && AttemptsSinceOpen(m.emitted) == OneTo(m.reconnectAttempts)
    ensures var m' := AttemptReconnectStep(m);
      m'.reconnectAttempts >= 0 && AttemptsSinceOpen(m'.emitted) == OneTo(m'.reconnectAttempts)
  {
    if m.reconnectAttempts >= m.config.maxReconnectAttempts {
      AttemptsAfterEmit(m.emitted, ReconnectFailedEmission);
    } else {
      AttemptsAfterEmit(m.emitted, Emission("reconnecting", AttemptArg(m.reconnectAttempts + 1)));
      OneToNext(m.reconnectAttempts);
    }
  }

  lemma {:induction false} OnCloseKeepsInv(m: Machine, id: nat)
    requires Inv(m) && id < |m.sockets|
    ensures Inv(OnCloseStep(m, id))
  {
    var m1 := m.(sockets := WithReadyState(m.sockets, id, Closed), isConnected := false);
    var m2 := EmitStep(StopPingStep(m1), Emission("close", CloseArg(id)));
    AttemptsAfterEmit(StopPingStep(m1).emitted, Emission("close", CloseArg(id)));
    assert Inv(m2);
    if m2.config.autoReconnect && !m2.isReconnecting {
      AttemptReconnectKeepsCounter(m2);
    }
  }

  lemma PingKeepsInv(m: Machine)
    requires Inv(m)
    ensures Inv(PingStep(m))
  {
  }

  lemma ReconnectTimerKeepsInv(m: Machine, created: bool)
    requires Inv(m) && m.pendingReconnects > 0
    ensures Inv(ReconnectTimerStep(m, created))
  {
    var m1 := m.(pendingReconnects := m.pendingReconnects - 1);
    assert Inv(m1);
    ConnectKeepsInv(m1, NoOptions, NoOverrides, created, true);
  }

  lemma PeerClosingKeepsInv(m: Machine, id: nat)
    requires Inv(m) && id < |m.sockets|
    ensures Inv(PeerClosingStep(m, id))
  {
  }

  lemma {:induction false} StepKeepsInv(m: Machine, input: Input)
    requires Inv(m) && Enabled(m, input)
    ensures Inv(Step(m, input))
  {
    match input
    case ConnectCall(options, overrides, created) =>
      ConnectKeepsInv(m, options, overrides, created, false);
      assert Step(m, input) == ConnectStep(m, options, overrides, created, false);
    case CloseCall =>
      CloseKeepsInv(m);
      assert Step(m, input) == CloseStep(m);
    case SocketOpened(id) =>
      OnOpenKeepsInv(m, id);
      assert Step(m, input) == OnOpenStep(m, id);
    case SocketMessage(_, frame) =>
      OnMessageKeepsInv(m, frame);
      assert Step(m, input) == OnMessageStep(m, frame);
    case SocketError(id) =>
      OnErrorKeepsInv(m, id);
      assert Step(m, input) == OnErrorStep(m, id);
    case SocketClosed(id) =>
      OnCloseKeepsInv(m, id);
      assert Step(m, input) == OnCloseStep(m, id);
    case PeerClosing(id) =>
      PeerClosingKeepsInv(m, id);
      assert Step(m, input) == PeerClosingStep(m, id);
    case PingTimerFired =>
      PingKeepsInv(m);
      assert Step(m, input) == PingStep(m);
    case ReconnectTimerFired(created) =>
      ReconnectTimerKeepsInv(m, created);
      assert Step(m, input) == ReconnectTimerStep(m, created);
  }
}
