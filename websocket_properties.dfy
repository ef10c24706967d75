/**
 * What the WebSocket module promises, stated over the step functions of
 * WebSocketState (and so, through the class's postconditions, over the
 * class): the effects of each signal, the bound on reconnect attempts over
 * any run, the keepalive gate, close() idempotence, and consequences of the
 * code that a caller may not expect (which options a reconnect uses, what
 * close() leaves running, what a replaced socket can still do).
 */
module WebSocketProperties {
  import opened Wrappers
  import opened Client
  import opened WebSocketUrl
  import opened WebSocketState

  // ---------------------------------------------------------------------
  // Configuration
  // ---------------------------------------------------------------------

  /** Merging nothing changes nothing, and merging the same overrides twice is merging them once. */
  lemma MergeConfigLaws(base: Config, o: ConfigOverrides)
    ensures MergeConfig(base, NoOverrides) == base
    ensures MergeConfig(MergeConfig(base, o), o) == MergeConfig(base, o)
    ensures MergeConfig(DefaultConfig, NoOverrides) == Config(true, 5000, 10, 30000)
  {
  }

  /**
   * Overrides persist: a later `connect` that passes no configuration (as
   * the reconnect path does) keeps what an earlier one supplied, instead of
   * going back to the defaults.
   */
  lemma OverridesPersist(m: Machine, o: ConfigOverrides, first: Options, second: Options, c1: bool, c2: bool, r2: bool)
    requires Inv(m)
    ensures ConnectStep(ConnectStep(m, first, o, c1, false), second, NoOverrides, c2, r2).config
         == MergeConfig(m.config, o)
  {
    ConnectKeepsInv(m, first, o, c1, false);
  }

  // ---------------------------------------------------------------------
  // connect
  // ---------------------------------------------------------------------

  /** At most one socket is live at any time. */
  lemma AtMostOneLiveSocket(m: Machine, i: nat, j: nat)
    requires Inv(m)
    requires i < |m.sockets| && j < |m.sockets|
    requires Live(m.sockets[i].readyState) && Live(m.sockets[j].readyState)
    ensures i == j && m.socket == Some(i)
  {
  }

  /**
   * `connect` first closes the socket it holds, then holds the socket it
   * creates (connecting, to the freshly built URL), or none if creation
   * failed; it neither emits nor touches the attempt counter.
   */
  lemma ConnectReplacesSocket(m: Machine, options: Options, o: ConfigOverrides, created: bool)
    requires Inv(m)
    ensures var m' := ConnectStep(m, options, o, created, false);
      && (m.socket.Some? ==> !Live(m'.sockets[m.socket.value].readyState))
      && (created ==> m'.socket == Some(|m.sockets|) && |m'.sockets| == |m.sockets| + 1
                      && m'.sockets[|m.sockets|] == SocketRecord(BuildUrl(m.client, options), Connecting, Pending, false))
      && (!created ==> m'.socket == None && m'.sockets == (if m.socket.Some? then CloseSocket(m.sockets, m.socket.value) else m.sockets))
      && m'.url == Some(BuildUrl(m.client, options))
      && m'.config == MergeConfig(m.config, o)
      && m'.emitted == m.emitted && m'.reconnectAttempts == m.reconnectAttempts
      && !m'.pingTimer
  {
  }

  // ---------------------------------------------------------------------
  // The socket signals
  // ---------------------------------------------------------------------

  /**
   * On open: connected, counter reset, keepalive set exactly when enabled,
   * `open` emitted; `reconnected` follows only when this socket came from
   * the reconnect timer and its promise was still pending.
   */
  lemma OpenEffects(m: Machine, id: nat)
    requires Inv(m) && Enabled(m, SocketOpened(id))
    ensures var m' := OnOpenStep(m, id);
      && m'.isConnected && m'.reconnectAttempts == 0
      && m'.pingTimer == (m.config.pingInterval > 0)
      && IsOpenIn(m')
      && m'.emitted == m.emitted + [OpenEmission]
                       + (if m.sockets[id].byReconnect && m.sockets[id].promise == Pending
                          then [ReconnectedEmission] else [])
      && m'.sockets[id].promise == (if m.sockets[id].promise == Pending then Resolved else m.sockets[id].promise)
  {
    OnOpenKeepsInv(m, id);
  }

  /**
   * A frame that parses is emitted twice, as `message` and then under its
   * own event name, with the same payload; one that does not parse is one
   * `error` and nothing else. Either way nothing but the log changes.
   */
  lemma MessageDispatch(m: Machine, frame: Frame)
    ensures var m' := OnMessageStep(m, frame);
      && m' == m.(emitted := m'.emitted)
      && |m.emitted| < |m'.emitted| && m'.emitted[..|m.emitted|] == m.emitted
      && (frame.Parsed? ==>
            && |m'.emitted| == |m.emitted| + 2
            && m'.emitted[|m.emitted|].name == "message"
            && m'.emitted[|m.emitted| + 1].name == frame.payload.event
            && m'.emitted[|m.emitted|].arg == m'.emitted[|m.emitted| + 1].arg == PayloadArg(frame.payload))
      && (frame.Unparsable? ==>
            && |m'.emitted| == |m.emitted| + 1
            && m'.emitted[|m.emitted|].name == "error"
            && !m'.emitted[|m.emitted|].arg.PayloadArg?)
  {
  }

  /**
   * On close: disconnected, keepalive cleared, `close` emitted first; then
   * a reconnect is attempted exactly when auto-reconnect is on and no
   * reconnect is in progress.
   */
  lemma CloseEventEffects(m: Machine, id: nat)
    requires Inv(m) && Enabled(m, SocketClosed(id))
    ensures var m' := OnCloseStep(m, id);
      && !m'.isConnected && !m'.pingTimer && !IsOpenIn(m')
      && m'.sockets[id].readyState == Closed
      && |m'.emitted| > |m.emitted| && m'.emitted[..|m.emitted|] == m.emitted
      && m'.emitted[|m.emitted|] == Emission("close", CloseArg(id))
      && (m.config.autoReconnect && !m.isReconnecting ==>
            m' == AttemptReconnectStep(m.(sockets := m'.sockets, isConnected := false, pingTimer := false,
                                          emitted := m.emitted + [Emission("close", CloseArg(id))])))
      && (!(m.config.autoReconnect && !m.isReconnecting) ==>
            |m'.emitted| == |m.emitted| + 1 && m'.pendingReconnects == m.pendingReconnects
            && m'.reconnectAttempts == m.reconnectAttempts)
  {
    OnCloseKeepsInv(m, id);
  }

  /**
   * The reconnect decision: at the limit, `reconnect_failed` and nothing
   * else (no timer, counter unchanged); below it, the counter goes up by one
   * without passing the limit, `reconnecting` carries the new count, and one
   * retry is scheduled.
   */
  lemma AttemptBound(m: Machine)
    ensures var m' := AttemptReconnectStep(m);
      && (m.reconnectAttempts >= m.config.maxReconnectAttempts ==>
            m' == m.(emitted := m.emitted + [ReconnectFailedEmission]))
      && (m.reconnectAttempts < m.config.maxReconnectAttempts ==>
            && m'.reconnectAttempts == m.reconnectAttempts + 1
            && m'.reconnectAttempts <= m.config.maxReconnectAttempts
            && m'.isReconnecting
            && m'.pendingReconnects == m.pendingReconnects + 1
            && m'.emitted == m.emitted + [Emission("reconnecting", AttemptArg(m'.reconnectAttempts))])
  {
  }

  // ---------------------------------------------------------------------
  // close() and the keepalive gate
  // ---------------------------------------------------------------------

  /**
   * `close()` holds no socket, no keepalive timer and no reconnect flag
   * afterwards, emits nothing, and calling it again changes nothing.
   */
  lemma CloseIdempotent(m: Machine)
    requires WellFormed(m)
    ensures var m' := CloseStep(m);
      && m'.socket == None && !m'.pingTimer && !m'.isReconnecting && !IsOpenIn(m')
      && m'.emitted == m.emitted && m'.sent == m.sent
      && CloseStep(m') == m'
  {
  }

  /**
   * A keepalive timer exists only while keepalive is enabled, the module is
   * connected, and the socket held has opened and not yet reported its close.
   */
  lemma KeepaliveOnlyWhileConnected(m: Machine)
    requires Inv(m) && m.pingTimer
    ensures m.config.pingInterval > 0 && m.isConnected && m.socket.Some?
    ensures Established(m.sockets[m.socket.value].readyState)
  {
  }

  /**
   * Once the server starts the closing handshake, `isOpen()` is false but the
   * keepalive interval stays set until the close event arrives; each time it
   * fires in that window, `ping()` sends nothing.
   */
  lemma ClosingHandshakeKeepsInterval(m: Machine)
    requires Inv(m) && m.pingTimer && IsOpenIn(m)
    ensures Enabled(m, PeerClosing(m.socket.value))
    ensures var m' := PeerClosingStep(m, m.socket.value);
      && Inv(m') && m'.pingTimer && !IsOpenIn(m')
      && Enabled(m', PingTimerFired) && PingStep(m') == m'
  {
    PeerClosingKeepsInv(m, m.socket.value);
  }

  /** A ping is sent, to the socket held, exactly when the module is open; nothing else changes. */
  lemma PingOnlyWhenOpen(m: Machine)
    requires WellFormed(m)
    ensures var m' := PingStep(m);
      && m' == m.(sent := m'.sent)
      && (IsOpenIn(m) ==> m'.sent == m.sent + [Outbound(m.socket.value, PingFrame)])
      && (!IsOpenIn(m) ==> m'.sent == m.sent)
  {
  }

  // ---------------------------------------------------------------------
  // Runs
  // ---------------------------------------------------------------------

  /** A sequence of inputs the platform can deliver one after another. */
  predicate ValidRun(m: Machine, inputs: seq<Input>)
    decreases |inputs|
  {
    inputs == [] || (WellFormed(m) && Enabled(m, inputs[0]) && ValidRun(Step(m, inputs[0]), inputs[1..]))
  }

  function Run(m: Machine, inputs: seq<Input>): Machine
    requires ValidRun(m, inputs)
    decreases |inputs|
  {
    if inputs == [] then m else Run(Step(m, inputs[0]), inputs[1..])
  }

  lemma {:induction false} RunKeepsInv(m: Machine, inputs: seq<Input>)
    requires Inv(m) && ValidRun(m, inputs)
    ensures Inv(Run(m, inputs))
    decreases |inputs|
  {
    if inputs != [] {
      StepKeepsInv(m, inputs[0]);
      RunKeepsInv(Step(m, inputs[0]), inputs[1..]);
    }
  }

  /** A caller's `connect` passes no `maxReconnectAttempts` below the current one. */
  predicate NotLowering(m: Machine, input: Input) {
    input.ConnectCall? && input.overrides.maxReconnectAttempts.Some? ==>
      input.overrides.maxReconnectAttempts.value >= m.config.maxReconnectAttempts
  }

  /** No input of the run lowers `maxReconnectAttempts` below its value at that point. */
  predicate NotLoweringRun(m: Machine, inputs: seq<Input>)
    requires ValidRun(m, inputs)
    decreases |inputs|
  {
    inputs == [] || (NotLowering(m, inputs[0]) && NotLoweringRun(Step(m, inputs[0]), inputs[1..]))
  }

  /** The counter is zero or within the configured maximum. */
  predicate WithinBound(m: Machine) {
    m.reconnectAttempts == 0 || m.reconnectAttempts <= m.config.maxReconnectAttempts
  }

  /** Every `reconnecting` event in the log from position `from` on carries an attempt in 1..max. */
  predicate ReconnectingBounded(log: seq<Emission>, from: nat, max: int) {
    forall k :: from <= k < |log| && IsReconnecting(log[k]) ==> 1 <= log[k].arg.attempt <= max
  }

  /** The log grows by `extra`, whose `reconnecting` events carry attempts in 1..max. */
  predicate GrowsBounded(before: seq<Emission>, after: seq<Emission>, max: int) {
    |before| <= |after| && after[..|before|] == before && ReconnectingBounded(after, |before|, max)
  }

  lemma AppendBounded(log: seq<Emission>, extra: seq<Emission>, max: int)
    requires ReconnectingBounded(extra, 0, max)
    ensures GrowsBounded(log, log + extra, max)
  {
    forall k | |log| <= k < |log + extra| && IsReconnecting((log + extra)[k])
      ensures 1 <= (log + extra)[k].arg.attempt <= max
    {
      assert (log + extra)[k] == extra[k - |log|];
    }
    assert (log + extra)[..|log|] == log;
  }

  lemma OpenAttemptBound(m: Machine, id: nat)
    requires Inv(m) && Enabled(m, SocketOpened(id))
    ensures GrowsBounded(m.emitted, OnOpenStep(m, id).emitted, m.config.maxReconnectAttempts)
    ensures OnOpenStep(m, id).config == m.config && WithinBound(OnOpenStep(m, id))
  {
    OpenEffects(m, id);
    var extra := [OpenEmission] + (if m.sockets[id].byReconnect && m.sockets[id].promise == Pending
                                    then [ReconnectedEmission] else []);
    assert OnOpenStep(m, id).emitted == m.emitted + extra;
    AppendBounded(m.emitted, extra, m.config.maxReconnectAttempts);
  }

  lemma MessageAttemptBound(m: Machine, frame: Frame)
    ensures GrowsBounded(m.emitted, OnMessageStep(m, frame).emitted, m.config.maxReconnectAttempts)
    ensures OnMessageStep(m, frame).config == m.config
    ensures OnMessageStep(m, frame).reconnectAttempts == m.reconnectAttempts
  {
    match frame
    case Parsed(p) =>
      var extra := [Emission("message", PayloadArg(p)), Emission(p.event, PayloadArg(p))];
      assert OnMessageStep(m, frame).emitted == m.emitted + extra;
      AppendBounded(m.emitted, extra, m.config.maxReconnectAttempts);
    case Unparsable(reason) =>
      var extra := [Emission("error", ErrorArg(ParseFailure(reason)))];
      AppendBounded(m.emitted, extra, m.config.maxReconnectAttempts);
  }

  lemma ErrorAttemptBound(m: Machine, id: nat)
    requires id < |m.sockets|
    ensures GrowsBounded(m.emitted, OnErrorStep(m, id).emitted, m.config.maxReconnectAttempts)
    ensures OnErrorStep(m, id).config == m.config
    ensures OnErrorStep(m, id).reconnectAttempts == m.reconnectAttempts
  {
    AppendBounded(m.emitted, [Emission("error", ErrorArg(TransportFailure(id)))], m.config.maxReconnectAttempts);
  }

  lemma CloseEventAttemptBound(m: Machine, id: nat)
    requires Inv(m) && Enabled(m, SocketClosed(id))
    ensures GrowsBounded(m.emitted, OnCloseStep(m, id).emitted, m.config.maxReconnectAttempts)
    ensures WithinBound(m) ==> WithinBound(OnCloseStep(m, id))
    ensures OnCloseStep(m, id).config == m.config
  {
    var max := m.config.maxReconnectAttempts;
    var closing := Emission("close", CloseArg(id));
    var m' := OnCloseStep(m, id);
    CloseEventEffects(m, id);
    if m.config.autoReconnect && !m.isReconnecting {
      var mid := m.(sockets := m'.sockets, isConnected := false, pingTimer := false,
                    emitted := m.emitted + [closing]);
      AttemptBound(mid);
      if m.reconnectAttempts >= max {
        AppendBounded(m.emitted, [closing, ReconnectFailedEmission], max);
        assert m'.emitted == m.emitted + [closing, ReconnectFailedEmission];
      } else {
        var n := m.reconnectAttempts + 1;
        AppendBounded(m.emitted, [closing, Emission("reconnecting", AttemptArg(n))], max);
        assert m'.emitted == m.emitted + [closing, Emission("reconnecting", AttemptArg(n))];
      }
    } else {
      assert m'.emitted == m.emitted + [closing];
      AppendBounded(m.emitted, [closing], max);
    }
  }

  /** `connect`, from a caller or a timer, emits nothing and leaves the counter alone. */
  lemma ConnectQuiet(m: Machine, options: Options, overrides: ConfigOverrides, created: bool, byReconnect: bool)
    requires WellFormed(m)
    ensures var m' := ConnectStep(m, options, overrides, created, byReconnect);
      && m'.emitted == m.emitted
      && m'.reconnectAttempts == m.reconnectAttempts
      && m'.config == MergeConfig(m.config, overrides)
  {
  }

  /** A step that emits nothing, keeps the counter and does not lower the maximum keeps the bound. */
  lemma QuietAttemptBound(m: Machine, m': Machine)
    requires WithinBound(m)
    requires m'.emitted == m.emitted && m'.reconnectAttempts == m.reconnectAttempts
    requires m'.config.maxReconnectAttempts >= m.config.maxReconnectAttempts
    ensures WithinBound(m') && GrowsBounded(m.emitted, m'.emitted, m'.config.maxReconnectAttempts)
  {
    AppendBounded(m.emitted, [], m'.config.maxReconnectAttempts);
    assert m.emitted + [] == m.emitted;
  }

  /** A bound on attempt numbers holds for any larger maximum too. */
  lemma Widen(before: seq<Emission>, after: seq<Emission>, lo: int, hi: int)
    requires GrowsBounded(before, after, lo) && lo <= hi
    ensures GrowsBounded(before, after, hi)
  {
  }

  lemma {:induction false} StepAttemptBound(m: Machine, input: Input)
    requires Inv(m) && WithinBound(m) && Enabled(m, input) && NotLowering(m, input)
    ensures var m' := Step(m, input);
      && m'.config.maxReconnectAttempts >= m.config.maxReconnectAttempts
      && WithinBound(m')
      && GrowsBounded(m.emitted, m'.emitted, m'.config.maxReconnectAttempts)
  {
    match input
    case ConnectCall(options, overrides, created) =>
      ConnectAttemptBound(m, options, overrides, created);
      assert Step(m, input) == ConnectStep(m, options, overrides, created, false);
    case CloseCall =>
      QuietAttemptBound(m, CloseStep(m));
      assert Step(m, input) == CloseStep(m);
    case SocketOpened(id) =>
      OpenAttemptBound(m, id);
      assert Step(m, input) == OnOpenStep(m, id);
    case SocketMessage(_, frame) =>
      MessageAttemptBound(m, frame);
      assert Step(m, input) == OnMessageStep(m, frame);
    case SocketError(id) =>
      ErrorAttemptBound(m, id);
      assert Step(m, input) == OnErrorStep(m, id);
    case SocketClosed(id) =>
      CloseEventAttemptBound(m, id);
      assert Step(m, input) == OnCloseStep(m, id);
    case PeerClosing(id) =>
      QuietAttemptBound(m, PeerClosingStep(m, id));
      assert Step(m, input) == PeerClosingStep(m, id);
    case PingTimerFired =>
      QuietAttemptBound(m, PingStep(m));
      assert Step(m, input) == PingStep(m);
    case ReconnectTimerFired(created) =>
      TimerAttemptBound(m, created);
      assert Step(m, input) == ReconnectTimerStep(m, created);
  }

  lemma ConnectAttemptBound(m: Machine, options: Options, overrides: ConfigOverrides, created: bool)
    requires WellFormed(m) && WithinBound(m) && NotLowering(m, ConnectCall(options, overrides, created))
    ensures var m' := ConnectStep(m, options, overrides, created, false);
      && m'.config.maxReconnectAttempts >= m.config.maxReconnectAttempts
      && WithinBound(m')
      && GrowsBounded(m.emitted, m'.emitted, m'.config.maxReconnectAttempts)
  {
    ConnectQuiet(m, options, overrides, created, false);
    QuietAttemptBound(m, ConnectStep(m, options, overrides, created, false));
  }

  lemma TimerAttemptBound(m: Machine, created: bool)
    requires WellFormed(m) && WithinBound(m) && m.pendingReconnects > 0
    ensures var m' := ReconnectTimerStep(m, created);
      && m'.config.maxReconnectAttempts == m.config.maxReconnectAttempts
      && WithinBound(m')
      && GrowsBounded(m.emitted, m'.emitted, m'.config.maxReconnectAttempts)
  {
    var m1 := m.(pendingReconnects := m.pendingReconnects - 1);
    ConnectQuiet(m1, NoOptions, NoOverrides, created, true);
    QuietAttemptBound(m, ReconnectTimerStep(m, created));
  }

  /**
   * Over any run in which no `connect` lowers `maxReconnectAttempts` (a call
   * may omit it, repeat it or raise it), the counter stays within the final
   * maximum and every `reconnecting` event emitted carries an attempt number
   * between 1 and that maximum. The log only grows.
   */
  lemma {:induction false} RunAttemptBound(m: Machine, inputs: seq<Input>)
    requires Inv(m) && WithinBound(m) && ValidRun(m, inputs) && NotLoweringRun(m, inputs)
    ensures var m' := Run(m, inputs);
      && m'.config.maxReconnectAttempts >= m.config.maxReconnectAttempts
      && WithinBound(m')
      && GrowsBounded(m.emitted, m'.emitted, m'.config.maxReconnectAttempts)
    decreases |inputs|
  {
    if inputs != [] {
      var next := Step(m, inputs[0]);
      StepAttemptBound(m, inputs[0]);
      StepKeepsInv(m, inputs[0]);
      RunAttemptBound(next, inputs[1..]);
      var last := Run(m, inputs);
      assert last == Run(next, inputs[1..]);
      Widen(m.emitted, next.emitted, next.config.maxReconnectAttempts, last.config.maxReconnectAttempts);
      GrowsTransitive(m.emitted, next.emitted, last.emitted, last.config.maxReconnectAttempts);
    }
  }

  lemma GrowsTransitive(a: seq<Emission>, b: seq<Emission>, c: seq<Emission>, max: int)
    requires GrowsBounded(a, b, max) && GrowsBounded(b, c, max)
    ensures GrowsBounded(a, c, max)
  {
    assert c[..|a|] == c[..|b|][..|a|];
  }

  // ---------------------------------------------------------------------
  // Consequences a caller may not expect
  // ---------------------------------------------------------------------

  /**
   * The reconnect path calls `connect()` with no options: the socket it
   * opens is built for the client's default session and carries no `events`
   * parameter, whatever the original call asked for.
   */
  lemma ReconnectUsesDefaultOptions(m: Machine)
    requires Inv(m) && m.pendingReconnects > 0
    ensures var m' := ReconnectTimerStep(m, true);
      && m'.socket == Some(|m.sockets|)
      && m'.sockets[|m.sockets|].url == BuildUrl(m.client, NoOptions)
      && m'.sockets[|m.sockets|].byReconnect
      && ValuesOf(m'.sockets[|m.sockets|].url.query, "session") == [GetDefaultSession(m.client)]
      && ValuesOf(m'.sockets[|m.sockets|].url.query, "events") == []
  {
    UrlParameters(m.client, NoOptions);
  }

  /** `close()` does not cancel a scheduled reconnect: the timer still fires afterwards. */
  lemma CloseKeepsScheduledReconnect(m: Machine)
    requires Inv(m) && m.pendingReconnects > 0
    ensures Enabled(CloseStep(m), ReconnectTimerFired(true))
    ensures ReconnectTimerStep(CloseStep(m), true).socket.Some?
  {
  }

  /**
   * `close()` does not detach the socket's close handler and clears
   * `isReconnecting`, so when the socket it closed reports its close, a
   * reconnect is scheduled after all (while attempts remain).
   */
  lemma CloseThenCloseEventReconnects(m: Machine, id: nat)
    requires Inv(m) && m.socket == Some(id) && Live(m.sockets[id].readyState)
    requires m.config.autoReconnect && m.reconnectAttempts < m.config.maxReconnectAttempts
    ensures Enabled(CloseStep(m), SocketClosed(id))
    ensures var m' := OnCloseStep(CloseStep(m), id);
      && m'.pendingReconnects == m.pendingReconnects + 1
      && m'.isReconnecting
      && m'.emitted == m.emitted + [Emission("close", CloseArg(id)), Emission("reconnecting", AttemptArg(m.reconnectAttempts + 1))]
  {
  }

  /**
   * A second `connect` while a socket is live leaves the old socket's close
   * handler attached: its late close, arriving while the new socket is still
   * connecting, marks the module disconnected and schedules a reconnect.
   */
  lemma StaleCloseDisturbsNewConnection(m: Machine, id: nat, options: Options, o: ConfigOverrides)
    requires Inv(m) && m.socket == Some(id) && Live(m.sockets[id].readyState)
    requires MergeConfig(m.config, o).autoReconnect
    requires m.reconnectAttempts < MergeConfig(m.config, o).maxReconnectAttempts
    ensures var m1 := ConnectStep(m, options, o, true, false);
      && Enabled(m1, SocketClosed(id)) && m1.socket == Some(|m.sockets|) && id != |m.sockets|
    ensures var m' := OnCloseStep(ConnectStep(m, options, o, true, false), id);
      && m'.socket == Some(|m.sockets|) && !m'.isConnected && !m'.pingTimer
      && m'.pendingReconnects == m.pendingReconnects + 1
  {
  }

  /**
   * The same late close arriving after the new socket has opened: it stops
   * the new connection's keepalive, so `isOpen()` is false although the
   * socket held is OPEN, and it schedules a reconnect whose `connect()` then
   * closes that healthy socket.
   */
  lemma StaleCloseStopsKeepalive(m: Machine, id: nat, options: Options, o: ConfigOverrides)
    requires Inv(m) && m.socket == Some(id) && Live(m.sockets[id].readyState)
    requires MergeConfig(m.config, o).autoReconnect && MergeConfig(m.config, o).pingInterval > 0
    requires MergeConfig(m.config, o).maxReconnectAttempts > 0
    ensures var m1 := ConnectStep(m, options, o, true, false);
      && Enabled(m1, SocketOpened(|m.sockets|))
      && var m2 := OnOpenStep(m1, |m.sockets|);
      && WellFormed(m2) && m2.pingTimer && IsOpenIn(m2) && Enabled(m2, SocketClosed(id))
    ensures var m3 := OnCloseStep(OnOpenStep(ConnectStep(m, options, o, true, false), |m.sockets|), id);
      && WellFormed(m3) && m3.socket == Some(|m.sockets|) && m3.sockets[|m.sockets|].readyState == Open
      && !m3.pingTimer && !IsOpenIn(m3)
      && m3.isReconnecting && m3.pendingReconnects == m.pendingReconnects + 1
      && ReconnectTimerStep(m3, true).sockets[|m.sockets|].readyState == Closing
  {
    var m1 := ConnectStep(m, options, o, true, false);
    ConnectKeepsInv(m, options, o, true, false);
    assert m1.socket == Some(|m.sockets|) && m1.config == MergeConfig(m.config, o);
    var m2 := OnOpenStep(m1, |m.sockets|);
    OnOpenKeepsInv(m1, |m.sockets|);
    assert m2.reconnectAttempts == 0 && !m2.isReconnecting;
  }

  /** A caller's `connect` does not reset the attempt counter; only an open does. */
  lemma ConnectKeepsCounter(m: Machine, options: Options, o: ConfigOverrides, created: bool)
    requires Inv(m) && m.reconnectAttempts > 0
    ensures ConnectStep(m, options, o, created, false).reconnectAttempts == m.reconnectAttempts > 0
  {
  }

  // ---------------------------------------------------------------------
  // A complete run
  // ---------------------------------------------------------------------

  const ScenarioClient: ClientConfig := NewClient(ClientOptions("http://localhost:3000", None, None))
  const ScenarioOptions: Options := Options(Some("default"), Some(EventNames(["message"])))
  const ScenarioConfig: ConfigOverrides := ConfigOverrides(Some(true), Some(100), Some(2), Some(0))

  const ScenarioInputs: seq<Input> :=
    [ConnectCall(ScenarioOptions, ScenarioConfig, true), SocketOpened(0), SocketClosed(0),
     ReconnectTimerFired(true), SocketClosed(1), ReconnectTimerFired(true), SocketClosed(2)]

  /** The states the scenario passes through, after 1, 2, ... 7 inputs. */
  function ScenarioState(k: nat): Machine
    requires 1 <= k <= 7
  {
    var c, cfg := ScenarioClient, Config(true, 100, 2, 0);
    var first, retry := BuildUrl(c, ScenarioOptions), BuildUrl(c, NoOptions);
    var open, failed := OpenEmission, ReconnectFailedEmission;
    var close0, close1, close2 := Emission("close", CloseArg(0)), Emission("close", CloseArg(1)), Emission("close", CloseArg(2));
    var try1, try2 := Emission("reconnecting", AttemptArg(1)), Emission("reconnecting", AttemptArg(2));
    var s0 := SocketRecord(first, Connecting, Pending, false);
    var s1 := SocketRecord(retry, Connecting, Pending, true);
    match k
    case 1 => Machine(c, Some(0), [s0], cfg, 0, false, false, false, Some(first), [], [], 0)
    case 2 => Machine(c, Some(0), [s0.(readyState := Open, promise := Resolved)], cfg, 0, false, true, false, Some(first), [open], [], 0)
    case 3 => Machine(c, Some(0), [s0.(readyState := Closed, promise := Resolved)], cfg, 1, false, false, true, Some(first),
                      [open, close0, try1], [], 1)
    case 4 => Machine(c, Some(1), [s0.(readyState := Closed, promise := Resolved), s1], cfg, 1, false, false, false, Some(retry),
                      [open, close0, try1], [], 0)
    case 5 => Machine(c, Some(1), [s0.(readyState := Closed, promise := Resolved), s1.(readyState := Closed)], cfg, 2, false, false, true, Some(retry),
                      [open, close0, try1, close1, try2], [], 1)
    case 6 => Machine(c, Some(2), [s0.(readyState := Closed, promise := Resolved), s1.(readyState := Closed), s1], cfg, 2, false, false, false, Some(retry),
                      [open, close0, try1, close1, try2], [], 0)
    case 7 => Machine(c, Some(2), [s0.(readyState := Closed, promise := Resolved), s1.(readyState := Closed), s1.(readyState := Closed)], cfg, 2, false, false, false, Some(retry),
                      [open, close0, try1, close1, try2, close2, failed], [], 0)
  }

  lemma ScenarioStep(k: nat)
    requires 0 <= k < 7
    ensures var before := if k == 0 then Init(ScenarioClient) else ScenarioState(k);
      WellFormed(before) && Enabled(before, ScenarioInputs[k]) && Step(before, ScenarioInputs[k]) == ScenarioState(k + 1)
  {
    match k
    case 0 => ScenarioConnect();
    case 1 => ScenarioOpen();
    case 2 => ScenarioClose(2);
    case 3 => ScenarioRetry(3);
    case 4 => ScenarioClose(4);
    case 5 => ScenarioRetry(5);
    case 6 => ScenarioClose(6);
  }

  lemma ScenarioOpen()
    ensures WellFormed(ScenarioState(1)) && ScenarioState(1).sockets[0].readyState == Connecting
    ensures OnOpenStep(ScenarioState(1), 0) == ScenarioState(2)
  {
  }

  lemma ScenarioClose(k: nat)
    requires k == 2 || k == 4 || k == 6
    ensures var id := k / 2 - 1;
      && id < |ScenarioState(k).sockets| && ScenarioState(k).sockets[id].readyState != Closed
      && OnCloseStep(ScenarioState(k), id) == ScenarioState(k + 1)
  {
  }

  lemma ScenarioConnect()
    ensures ConnectStep(Init(ScenarioClient), ScenarioOptions, ScenarioConfig, true, false) == ScenarioState(1)
  {
    assert MergeConfig(DefaultConfig, ScenarioConfig) == Config(true, 100, 2, 0);
  }

  lemma ScenarioRetry(k: nat)
    requires k == 3 || k == 5
    ensures WellFormed(ScenarioState(k)) && ScenarioState(k).pendingReconnects > 0
    ensures ReconnectTimerStep(ScenarioState(k), true) == ScenarioState(k + 1)
  {
    var m := ScenarioState(k);
    var m1 := m.(pendingReconnects := 0);
    assert MergeConfig(m1.config, NoOverrides) == m1.config;
    var closed := CloseStep(m1);
    assert closed.sockets == m.sockets;
  }

  lemma {:induction false} ScenarioRun(k: nat)
    requires 0 <= k < 7
    ensures var before := if k == 0 then Init(ScenarioClient) else ScenarioState(k);
      ValidRun(before, ScenarioInputs[k..]) && Run(before, ScenarioInputs[k..]) == ScenarioState(7)
    decreases 7 - k
  {
    var before := if k == 0 then Init(ScenarioClient) else ScenarioState(k);
    ScenarioStep(k);
    assert ScenarioInputs[k..][1..] == ScenarioInputs[k + 1..];
    if k < 6 {
      ScenarioRun(k + 1);
    } else {
      assert ScenarioInputs[k + 1..] == [];
    }
  }

  /**
   * Connect with at most two reconnect attempts and no keepalive; the socket
   * opens and then drops, and every reopen closes again without opening. The
   * module emits open, close, reconnecting(1), close, reconnecting(2), close,
   * reconnect_failed, and then has nothing scheduled.
   */
  lemma ExhaustionScenario()
    ensures ValidRun(Init(ScenarioClient), ScenarioInputs)
    ensures Run(Init(ScenarioClient), ScenarioInputs).emitted
         == [OpenEmission, Emission("close", CloseArg(0)), Emission("reconnecting", AttemptArg(1)),
             Emission("close", CloseArg(1)), Emission("reconnecting", AttemptArg(2)),
             Emission("close", CloseArg(2)), ReconnectFailedEmission]
    ensures Run(Init(ScenarioClient), ScenarioInputs).pendingReconnects == 0
  {
    ScenarioRun(0);
    assert ScenarioInputs[0..] == ScenarioInputs;
  }
}
