/**
 * The WebSocket module: a class over the fields of the original
 * (`socket`, `config`, `reconnectAttempts`, the keepalive timer handle,
 * `isConnected`, `isReconnecting`, `url`), plus the parts of the platform it
 * observes (its sockets with their connect promises, the emitted-event log,
 * the frames sent, the reconnect timeouts still scheduled).
 *
 * Every method is proved to change the state exactly as the matching
 * function of WebSocketState does, and the public ones to keep `Valid()`.
 * The socket handlers (`OnOpen`, `OnMessage`, `OnError`, `OnClose`) and the
 * timer callbacks are methods the platform calls; their preconditions are
 * what the platform guarantees about when it calls them.
 */
module WebSocket {
  import opened Wrappers
  import opened Client
  import opened WebSocketUrl
  import opened WebSocketState

  class WebSocketModule {
    const client: ClientConfig
    var socket: Option<nat>
    var config: Config
    var reconnectAttempts: int
    var pingTimer: bool
    var isConnected: bool
    var isReconnecting: bool
    var url: Option<WsUrl>

    // The platform, as far as the module observes it.
    var sockets: seq<SocketRecord>
    var emitted: seq<Emission>
    var sent: seq<Outbound>
    var pendingReconnects: nat

    function State(): Machine
      reads this
    {
      Machine(client, socket, sockets, config, reconnectAttempts, pingTimer,
              isConnected, isReconnecting, url, emitted, sent, pendingReconnects)
    }

    ghost predicate Valid()
      reads this
    {
      Inv(State())
    }

    constructor (client: ClientConfig)
      ensures State() == Init(client) && Valid()
    {
      this.client := client;
      socket := None;
      config := DefaultConfig;
      reconnectAttempts := 0;
      pingTimer := false;
      isConnected := false;
      isReconnecting := false;
      url := None;
      sockets := [];
      emitted := [];
      sent := [];
      pendingReconnects := 0;
      InitInv(client);
    }

    method Emit(e: Emission)
      modifies this
      ensures State() == EmitStep(old(State()), e)
    {
      emitted := emitted + [e];
    }

    method StopPingInterval()
      modifies this
      ensures State() == StopPingStep(old(State()))
    {
      if pingTimer {
        pingTimer := false;
      }
    }

    method StartPingInterval()
      modifies this
      ensures State() == StartPingStep(old(State()))
    {
      StopPingInterval();
      if config.pingInterval > 0 {
        pingTimer := true;
      }
    }

    method IsOpen() returns (r: bool)
      requires WellFormed(State())
      ensures r == IsOpenIn(State())
    {
      r := isConnected && socket.Some? && sockets[socket.value].readyState == Open;
    }

    method Ping()
      requires WellFormed(State())
      modifies this
      ensures State() == PingStep(old(State()))
    {
      var open := IsOpen();
      if open {
        sent := sent + [Outbound(socket.value, PingFrame)];
      }
    }

    method AttemptReconnect()
      modifies this
      ensures State() == AttemptReconnectStep(old(State()))
    {
      if reconnectAttempts >= config.maxReconnectAttempts {
        Emit(ReconnectFailedEmission);
        return;
      }
      isReconnecting := true;
      reconnectAttempts := reconnectAttempts + 1;
      Emit(Emission("reconnecting", AttemptArg(reconnectAttempts)));
      pendingReconnects := pendingReconnects + 1;  // setTimeout(..., config.reconnectInterval)
    }

    /** The URL is assembled parameter by parameter, the event names one at a time. */
    method BuildWebSocketUrl(options: Options) returns (u: WsUrl)
      ensures u == BuildUrl(client, options)
    {
      var query: seq<Param> := [];
      if Truthy(client.apiKey) {
        query := query + [Param("x-api-key", client.apiKey.value)];
      }
      if Truthy(options.session) {
        query := query + [Param("session", options.session.value)];
      } else {
        query := query + [Param("session", GetDefaultSession(client))];
      }
      assert query == ApiKeyParams(client) + [SessionParam(client, options)];
      ghost var head := query;
      if options.events.Some? {
        match options.events.value
        case AllEvents =>
          query := query + [Param("events", "*")];
        case EventNames(names) =>
          var prefix := query;
          var i := 0;
          while i < |names|
            invariant 0 <= i <= |names|
            invariant query == prefix + EventParams(names[..i])
          {
            assert names[..i + 1][..i] == names[..i];
            query := query + [Param("events", names[i])];
            i := i + 1;
          }
          assert names[..i] == names;
      }
      assert query == head + FilterParams(options.events);
      u := WsUrl(StreamingBase(client.baseUrl) + "/ws", query);
    }

    /** `close()`; it keeps `Valid()` whenever that held before. */
    method Close()
      requires WellFormed(State())
      modifies this
      ensures State() == CloseStep(old(State()))
      ensures old(Valid()) ==> Valid()
    {
      ghost var before := State();
      isReconnecting := false;
      StopPingInterval();
      if socket.Some? {
        sockets := CloseSocket(sockets, socket.value);  // socket.close()
        socket := None;
      }
      if Inv(before) {
        CloseKeepsInv(before);
      }
    }

    method StartConnect(options: Options, overrides: ConfigOverrides, created: bool, byReconnect: bool)
      requires WellFormed(State())
      modifies this
      ensures State() == ConnectStep(old(State()), options, overrides, created, byReconnect)
    {
      config := MergeConfig(config, overrides);
      if socket.Some? {
        Close();
      }
      var u := BuildWebSocketUrl(options);
      url := Some(u);
      if created {
        socket := Some(|sockets|);
        sockets := sockets + [SocketRecord(u, Connecting, Pending, byReconnect)];
      } else if byReconnect {
        isReconnecting := false;  // the reconnect's .catch
      }
    }

    /** `connect(options, overrides)`; `created` is whether `new WebSocket(url)` succeeded. */
    method Connect(options: Options, overrides: ConfigOverrides, created: bool)
      requires Valid()
      modifies this
      ensures Valid()
      ensures State() == ConnectStep(old(State()), options, overrides, created, false)
    {
      ConnectKeepsInv(State(), options, overrides, created, false);
      StartConnect(options, overrides, created, false);
    }

    method Resolve(id: nat)
      requires id < |sockets|
      modifies this
      ensures State() == ResolveStep(old(State()), id)
    {
      if sockets[id].promise == Pending {
        sockets := sockets[id := sockets[id].(promise := Resolved)];
        if sockets[id].byReconnect {
          isReconnecting := false;
          Emit(ReconnectedEmission);
        }
      }
    }

    method Reject(id: nat)
      requires id < |sockets|
      modifies this
      ensures State() == RejectStep(old(State()), id)
    {
      if sockets[id].promise == Pending {
        sockets := sockets[id := sockets[id].(promise := Rejected)];
        if sockets[id].byReconnect {
          isReconnecting := false;
        }
      }
    }

    method OnOpen(id: nat)
      requires Valid() && Enabled(State(), SocketOpened(id))
      modifies this
      ensures Valid()
      ensures State() == OnOpenStep(old(State()), id)
    {
      ghost var m := State();
      OnOpenKeepsInv(m, id);
      sockets := WithReadyState(sockets, id, Open);
      isConnected := true;
      reconnectAttempts := 0;
      assert State() == m.(sockets := WithReadyState(m.sockets, id, Open), isConnected := true, reconnectAttempts := 0);
      StartPingInterval();
      Emit(OpenEmission);
      ghost var m2 := State();
      Resolve(id);
      assert State() == ResolveStep(m2, id);
    }

    method OnMessage(id: nat, frame: Frame)
      requires Valid() && Enabled(State(), SocketMessage(id, frame))
      modifies this
      ensures Valid()
      ensures State() == OnMessageStep(old(State()), frame)
    {
      OnMessageKeepsInv(State(), frame);
      match frame
      case Parsed(p) =>
        Emit(Emission("message", PayloadArg(p)));
        Emit(Emission(p.event, PayloadArg(p)));
      case Unparsable(reason) =>
        Emit(Emission("error", ErrorArg(ParseFailure(reason))));
    }

    method OnError(id: nat)
      requires Valid() && Enabled(State(), SocketError(id))
      modifies this
      ensures Valid()
      ensures State() == OnErrorStep(old(State()), id)
    {
      OnErrorKeepsInv(State(), id);
      Emit(Emission("error", ErrorArg(TransportFailure(id))));
      Reject(id);
    }

    method OnClose(id: nat)
      requires Valid() && Enabled(State(), SocketClosed(id))
      modifies this
      ensures Valid()
      ensures State() == OnCloseStep(old(State()), id)
    {
      ghost var m := State();
      OnCloseKeepsInv(m, id);
      sockets := WithReadyState(sockets, id, Closed);
      isConnected := false;
      assert State() == m.(sockets := WithReadyState(m.sockets, id, Closed), isConnected := false);
      StopPingInterval();
      Emit(Emission("close", CloseArg(id)));
      ghost var m2 := State();
      if config.autoReconnect && !isReconnecting {
        AttemptReconnect();
        assert State() == AttemptReconnectStep(m2);
      }
    }

    /**
     * The platform's side of the server's closing handshake: the socket
     * becomes CLOSING; no handler of the module runs.
     */
    method PeerStartsClosing(id: nat)
      requires Valid() && Enabled(State(), PeerClosing(id))
      modifies this
      ensures Valid()
      ensures State() == PeerClosingStep(old(State()), id)
    {
      PeerClosingKeepsInv(State(), id);
      sockets := WithReadyState(sockets, id, Closing);
    }

    /** The keepalive interval fires. */
    method PingTimerFires()
      requires Valid() && Enabled(State(), PingTimerFired)
      modifies this
      ensures Valid()
      ensures State() == PingStep(old(State()))
    {
      Ping();
    }

    /** A scheduled reconnect fires; `created` is whether its `new WebSocket(url)` succeeded. */
    method ReconnectTimerFires(created: bool)
      requires Valid() && Enabled(State(), ReconnectTimerFired(created))
      modifies this
      ensures Valid()
      ensures State() == ReconnectTimerStep(old(State()), created)
    {
      ghost var m := State();
      ReconnectTimerKeepsInv(m, created);
      pendingReconnects := pendingReconnects - 1;
      assert State() == m.(pendingReconnects := m.pendingReconnects - 1);
      StartConnect(NoOptions, NoOverrides, created, true);
    }
  }
}
