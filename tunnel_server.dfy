/**
 * The server's tunnel listeners (`ProxyTunnelServer`): which listeners are
 * bound when the application has loaded, how each accepted connection's
 * handler pipeline is assembled, and how the TLS stage is built.
 *
 * Binding a port and the TLS library are not modelled: a bind's success and
 * the success of each TLS set-up call are parameters.
 */
module TunnelServer {
  import opened Common

  // ---------------------------------------------------------------------------
  // Configuration
  // ---------------------------------------------------------------------------

  /** The `tunnel.*` options the server reads; `None` is an unset option. */
  datatype TunnelConfig = TunnelConfig(
    port: Option<int>,
    sslPort: Option<int>,
    keyStorePassword: Option<string>,
    keyManagerPassword: Option<string>,
    transferLogEnable: Option<bool>)

  /** The `protocol.*` options: frame decoder and idle monitor settings. */
  datatype ProtocolConfig = ProtocolConfig(
    maxFrameLength: int,
    lengthFieldOffset: int,
    lengthFieldLength: int,
    lengthAdjustment: int,
    initialBytesToStrip: int,
    readIdleTime: int,
    writeIdleTime: int,
    allIdleTimeSeconds: int)

  datatype ServerConfig = ServerConfig(tunnel: TunnelConfig, protocol: ProtocolConfig)

  /** `null != transferLogEnable && transferLogEnable`: an unset flag counts as false. */
  predicate TransferLogEnabled(t: TunnelConfig)
  {
    t.transferLogEnable == Some(true)
  }

  // ---------------------------------------------------------------------------
  // Handlers and the pipeline
  // ---------------------------------------------------------------------------

  /** The settings `createSslHandler` puts on its TLS engine. */
  datatype SslEngineSettings = SslEngineSettings(useClientMode: bool, needClientAuth: bool)

  /**
   * One stage of a connection's pipeline. The fields of `FrameDecoder` and
   * `IdleState` are the constructor arguments in their positional order.
   */
  datatype Handler =
    | Logging
    | Ssl(engine: SslEngineSettings)
    | FrameDecoder(maxFrameLength: int, lengthFieldOffset: int, lengthFieldLength: int,
                   lengthAdjustment: int, initialBytesToStrip: int)
    | FrameEncoder
    | IdleState(readerIdleTime: int, writerIdleTime: int, allIdleTime: int)
    | TunnelChannelHandler

  /** A connection's handler pipeline, edited in place. */
  class ChannelPipeline {
    var handlers: seq<Handler>

    constructor ()
      ensures handlers == []
    {
      handlers := [];
    }

    /** `pipeline().addFirst(h)`. */
    method AddFirst(h: Handler)
      modifies this
      ensures handlers == [h] + old(handlers)
    {
      handlers := [h] + handlers;
    }

    /** `pipeline().addLast(h)`. */
    method AddLast(h: Handler)
      modifies this
      ensures handlers == old(handlers) + [h]
    {
      handlers := handlers + [h];
    }

    /**
     * `pipeline().addLast(h)` for a handler that may be `null`: Netty's
     * variadic `addLast` stops at the first `null` argument, so a `null`
     * handler adds nothing.
     */
    method AddLastNullable(h: Option<Handler>)
      modifies this
      ensures handlers == old(handlers) + (if h.Some? then [h.value] else [])
    {
      if h.Some? {
        AddLast(h.value);
      }
    }
  }

  /** The four stages every connection gets, in the order they are appended. */
  function CommonStages(p: ProtocolConfig): seq<Handler>
  {
    [ FrameDecoder(p.maxFrameLength, p.lengthFieldOffset, p.lengthFieldLength,
                   p.lengthAdjustment, p.initialBytesToStrip),
      FrameEncoder,
      IdleState(p.readIdleTime, p.writeIdleTime, p.allIdleTimeSeconds),
      TunnelChannelHandler ]
  }

  /**
   * What `proxyServerCommonInitHandler` makes of a pipeline `before`: the
   * logging stage in front when transfer logging is on, `before` kept in
   * order, and the decoder, encoder, idle monitor and tunnel handler at the
   * end, each built from the protocol options in their order.
   */
  function CommonPipeline(t: TunnelConfig, p: ProtocolConfig, before: seq<Handler>): (r: seq<Handler>)
    ensures |r| == (if TransferLogEnabled(t) then 1 else 0) + |before| + 4
    ensures TransferLogEnabled(t) ==> r[0] == Logging && r[1..|before| + 1] == before
    ensures !TransferLogEnabled(t) ==> r[..|before|] == before
    ensures r[|r| - 4] == FrameDecoder(p.maxFrameLength, p.lengthFieldOffset, p.lengthFieldLength,
                                        p.lengthAdjustment, p.initialBytesToStrip)
    ensures r[|r| - 3] == FrameEncoder
    ensures r[|r| - 2] == IdleState(p.readIdleTime, p.writeIdleTime, p.allIdleTimeSeconds)
    ensures r[|r| - 1] == TunnelChannelHandler
  {
    (if TransferLogEnabled(t) then [Logging] else []) + before + CommonStages(p)
  }

  /** `proxyServerCommonInitHandler`. */
  method ProxyServerCommonInitHandler(ch: ChannelPipeline, config: ServerConfig)
    modifies ch
    ensures ch.handlers == CommonPipeline(config.tunnel, config.protocol, old(ch.handlers))
  {
    var t, p := config.tunnel, config.protocol;
    if t.transferLogEnable.Some? && t.transferLogEnable.value {
      ch.AddFirst(Logging);
    }
    ch.AddLast(FrameDecoder(p.maxFrameLength, p.lengthFieldOffset, p.lengthFieldLength,
                            p.lengthAdjustment, p.initialBytesToStrip));
    ch.AddLast(FrameEncoder);
    ch.AddLast(IdleState(p.readIdleTime, p.writeIdleTime, p.allIdleTimeSeconds));
    ch.AddLast(TunnelChannelHandler);
  }

  // ---------------------------------------------------------------------------
  // The TLS stage
  // ---------------------------------------------------------------------------

  /**
   * Whether each call into the key-store and TLS libraries returns normally;
   * `keyStoreOpened` covers reading the file at `tunnel.jksPath`.
   */
  datatype TlsEnvironment = TlsEnvironment(
    keyStoreOpened: bool,
    keyStoreLoaded: bool,
    keyManagerInitialised: bool,
    contextInitialised: bool,
    engineCreated: bool)

  predicate TlsLibrarySucceeds(env: TlsEnvironment)
  {
    env.keyStoreOpened && env.keyStoreLoaded && env.keyManagerInitialised
    && env.contextInitialised && env.engineCreated
  }

  /**
   * `createSslHandler`. It yields a server-mode engine without client
   * authentication exactly when both passwords are set and every library
   * call succeeds; any exception (an unset password fails on
   * `toCharArray()`) is caught and gives `null`.
   */
  function CreateSslHandler(t: TunnelConfig, env: TlsEnvironment): (r: Option<Handler>)
    ensures r.Some? <==> t.keyStorePassword.Some? && t.keyManagerPassword.Some? && TlsLibrarySucceeds(env)
    ensures r.Some? ==> r.value.Ssl? && !r.value.engine.useClientMode && !r.value.engine.needClientAuth
  {
    if !env.keyStoreOpened then None
    else if t.keyStorePassword.None? || !env.keyStoreLoaded then None
    else if t.keyManagerPassword.None? || !env.keyManagerInitialised then None
    else if !env.contextInitialised || !env.engineCreated then None
    else Some(Ssl(SslEngineSettings(false, false)))
  }

  /**
   * The SSL listener's `initChannel` applied to `before`: the TLS stage (if
   * one could be built) is appended first, then the common stages, so the
   * logging stage, which is put at the front, ends up ahead of it.
   */
  function SslPipeline(config: ServerConfig, env: TlsEnvironment, before: seq<Handler>): (r: seq<Handler>)
    ensures var tls := CreateSslHandler(config.tunnel, env);
            var lead := if TransferLogEnabled(config.tunnel) then 1 else 0;
            && (tls.Some? ==> |r| == lead + |before| + 5 && r[lead..lead + |before|] == before
                              && r[lead + |before|] == tls.value
                              && r[lead + |before| + 1..] == CommonStages(config.protocol))
            && (tls.None? ==> r == CommonPipeline(config.tunnel, config.protocol, before))
    ensures TransferLogEnabled(config.tunnel) ==> r[0] == Logging
  {
    var tls := CreateSslHandler(config.tunnel, env);
    CommonPipeline(config.tunnel, config.protocol, before + (if tls.Some? then [tls.value] else []))
  }

  /** The SSL listener's `initChannel`. */
  method InitSslChannel(ch: ChannelPipeline, config: ServerConfig, env: TlsEnvironment)
    modifies ch
    ensures ch.handlers == SslPipeline(config, env, old(ch.handlers))
  {
    ch.AddLastNullable(CreateSslHandler(config.tunnel, env));
    ProxyServerCommonInitHandler(ch, config);
  }

  /** The plain listener's `initChannel`. */
  method InitPlainChannel(ch: ChannelPipeline, config: ServerConfig)
    modifies ch
    ensures ch.handlers == CommonPipeline(config.tunnel, config.protocol, old(ch.handlers))
  {
    ProxyServerCommonInitHandler(ch, config);
  }

  // Pipeline layouts of a fresh connection.

  /** Without transfer logging, a plain connection gets exactly the four common stages. */
  lemma PlainPipelineLayout(config: ServerConfig)
    requires !TransferLogEnabled(config.tunnel)
    ensures CommonPipeline(config.tunnel, config.protocol, []) == CommonStages(config.protocol)
    ensures CommonStages(config.protocol) ==
      [ FrameDecoder(config.protocol.maxFrameLength, config.protocol.lengthFieldOffset,
                     config.protocol.lengthFieldLength, config.protocol.lengthAdjustment,
                     config.protocol.initialBytesToStrip),
        FrameEncoder,
        IdleState(config.protocol.readIdleTime, config.protocol.writeIdleTime,
                  config.protocol.allIdleTimeSeconds),
        TunnelChannelHandler ]
  {
  }

  /** Turning transfer logging on only puts the logging stage at index 0. */
  lemma LoggingIsPrepended(config: ServerConfig, before: seq<Handler>)
    requires TransferLogEnabled(config.tunnel)
    ensures CommonPipeline(config.tunnel, config.protocol, before) ==
            [Logging] + CommonPipeline(config.tunnel.(transferLogEnable := Some(false)), config.protocol, before)
  {
  }

  /**
   * On the SSL listener with a working TLS set-up, the TLS stage directly
   * follows the logging stage (or comes first without it), ahead of all the
   * common stages.
   */
  lemma SslPipelineLayout(config: ServerConfig, env: TlsEnvironment)
    requires CreateSslHandler(config.tunnel, env).Some?
    ensures var h := CreateSslHandler(config.tunnel, env).value;
            SslPipeline(config, env, []) ==
              (if TransferLogEnabled(config.tunnel) then [Logging] else []) + [h] + CommonStages(config.protocol)
    ensures TransferLogEnabled(config.tunnel) ==>
              SslPipeline(config, env, [])[0] == Logging && SslPipeline(config, env, [])[1].Ssl?
  {
  }

  /**
   * When the TLS stage cannot be built, a connection to the SSL listener
   * gets the plain listener's pipeline: it is still accepted, without TLS.
   */
  lemma SslFailureGivesPlainPipeline(config: ServerConfig, env: TlsEnvironment)
    requires CreateSslHandler(config.tunnel, env).None?
    ensures SslPipeline(config, env, []) == CommonPipeline(config.tunnel, config.protocol, [])
  {
  }

  // ---------------------------------------------------------------------------
  // Listener start-up
  // ---------------------------------------------------------------------------

  datatype ListenerKind = PlainListener | SslListener

  /** One bind attempt and whether it succeeded. */
  datatype BindRecord = BindRecord(kind: ListenerKind, port: Option<int>, bound: bool)

  /**
   * `startProxyServer`: one bind on `tunnel.port`. A failure (including an
   * unset port, which fails on unboxing) is caught and logged.
   */
  function StartProxyServer(t: TunnelConfig, bindSucceeds: bool): (r: BindRecord)
    ensures r.kind == PlainListener && r.port == t.port
    ensures r.bound <==> t.port.Some? && bindSucceeds
  {
    BindRecord(PlainListener, t.port, t.port.Some? && bindSucceeds)
  }

  /**
   * `startProxyServerForSSL`: no attempt at all when `tunnel.sslPort` is
   * unset; otherwise one bind on it, whose failure is caught and logged.
   */
  function StartProxyServerForSsl(t: TunnelConfig, bindSucceeds: bool): (r: Option<BindRecord>)
    ensures r.None? <==> t.sslPort.None?
    ensures r.Some? ==> r.value.kind == SslListener && r.value.port == t.sslPort && (r.value.bound <==> bindSucceeds)
  {
    if t.sslPort.None? then None
    else Some(BindRecord(SslListener, t.sslPort, bindSucceeds))
  }

  /**
   * `onEvent` for the application-loaded event: the bind attempts made, in
   * order. Nothing is bound in the ahead-of-time build runtime; otherwise
   * the plain listener is tried first and the SSL listener second whatever
   * became of the first, each exactly once.
   */
  function OnEvent(notAotRuntime: bool, t: TunnelConfig, plainBinds: bool, sslBinds: bool): (r: seq<BindRecord>)
    ensures !notAotRuntime ==> r == []
    ensures notAotRuntime ==> |r| == (if t.sslPort.Some? then 2 else 1)
    ensures notAotRuntime ==> r[0].kind == PlainListener && r[0].port == t.port
                              && (r[0].bound <==> t.port.Some? && plainBinds)
    ensures |r| == 2 ==> r[1].kind == SslListener && r[1].port == t.sslPort && (r[1].bound <==> sslBinds)
  {
    if notAotRuntime then
      var ssl := StartProxyServerForSsl(t, sslBinds);
      [StartProxyServer(t, plainBinds)] + (if ssl.Some? then [ssl.value] else [])
    else []
  }

  /** The listeners that end up serving traffic after `onEvent`. */
  function BoundListeners(records: seq<BindRecord>): (r: set<ListenerKind>)
    ensures forall k :: k in r <==> exists i | 0 <= i < |records| :: records[i].kind == k && records[i].bound
  {
    set i | 0 <= i < |records| && records[i].bound :: records[i].kind
  }

  /**
   * A listener serves traffic exactly when it is outside the ahead-of-time
   * runtime, configured and its bind succeeded; one listener's failure
   * never keeps the other from starting.
   */
  lemma ListenersStarted(notAotRuntime: bool, t: TunnelConfig, plainBinds: bool, sslBinds: bool)
    ensures var up := BoundListeners(OnEvent(notAotRuntime, t, plainBinds, sslBinds));
            && (PlainListener in up <==> notAotRuntime && t.port.Some? && plainBinds)
            && (SslListener in up <==> notAotRuntime && t.sslPort.Some? && sslBinds)
  {
    var r := OnEvent(notAotRuntime, t, plainBinds, sslBinds);
    var up := BoundListeners(r);
    if PlainListener in up {
      var i :| 0 <= i < |r| && r[i].kind == PlainListener && r[i].bound;
      assert i == 0;
    }
    if SslListener in up {
      var i :| 0 <= i < |r| && r[i].kind == SslListener && r[i].bound;
      assert i == 1;
    }
    if notAotRuntime && t.port.Some? && plainBinds {
      assert r[0].kind == PlainListener && r[0].bound;
    }
    if notAotRuntime && t.sslPort.Some? && sslBinds {
      assert r[1].kind == SslListener && r[1].bound;
    }
  }
}
