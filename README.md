# Neutrino-proxy control plane in Dafny

This project models three small pieces of decision logic in neutrino-proxy, a
reverse-tunnel proxy. An agent inside a private network keeps one outbound
control connection to a public server and authenticates on it with a licence
key.

- **Agent control connection** (`ProxyClientService`, module `ClientControl`).
  The service holds the current channel, the reconnect counter, a stop flag for
  `Solon.stop()` and an event log (connect attempts, channel closes, AUTH
  frames written). Each operation is a pure step function on `ClientState`:
  `StartStep`, `ConnectStep`, `ConnectComplete`, `ReconnectStep`. The class
  `ProxyClientService` has the same fields, and its methods are written the way
  the Java is and proved equal to those functions. `Ticks` runs the scheduled
  reconnect routine over a sequence of connect outcomes. The lemmas about it
  cover failed ticks, a success after failures, and an active channel.
  `reconnectCount` is a Java `int`, so `++` wraps at 2^31 (module `JavaInt`).
- **Tunnel listeners** (`ProxyTunnelServer`, module `TunnelServer`). A
  connection's pipeline is a `ChannelPipeline` object whose `seq<Handler>` is
  edited in place by `AddFirst` (prepend) and `AddLast` (append). The init
  handlers are methods over that object, proved against the pipeline functions.
  Which listeners get bound is a pure function of the AOT flag, the
  configuration and the bind outcomes. Building the TLS stage gives `None`
  (Java `null`) on any failure.
- **Online/offline status** (`ProxyMutualService`, module `MutualService`).
  The two mappers share one `StatusStore` that records every
  `updateOnlineStatus` call in order. `LatestStatus` reads a licence or a port
  mapping back from the log: the last write that covers it decides.

Inputs that the source gets from the outside are parameters:
- a connect outcome (`Connected(channel)` or `ConnectFailed`);
- whether a bind succeeds;
- whether each key-store and TLS library call succeeds (`TlsEnvironment`);
- `NativeDetector.isNotAotRuntime()`;
- the timestamp in place of `new Date()`;
- the client id from `ProxyUtil.getClientId()`.

In four places the code does something other than one might expect, and the model follows the code:
- One might expect a TLS set-up failure to leave the SSL listener unstarted. In
  the code the SSL port is bound whatever happens. `createSslHandler` runs once per
  accepted connection, inside `initChannel`. A `null` handler passed to Netty's
  variadic `addLast` is skipped, so that connection gets the plain pipeline
  (`SslFailureGivesPlainPipeline`).
- One might expect `reconnectCount` to reset only once the server accepts the
  AUTH frame. The code resets it as soon as the connect succeeds, when AUTH is written, with no
  AUTH_RESULT involved.
- `reconnect()` checks neither the configuration nor the stop flag. So its AUTH
  frame carries the licence key as configured, possibly unset. The model assumes
  that building AUTH from an unset key succeeds; `ProxyMessage.buildAuthMessage`
  is not part of this model.
- `init()` registers the schedule before its `try`. The JDK's
  `scheduleWithFixedDelay` refuses a period that is not positive, so then
  `start()` never runs (`ProxyClientService.Init`).

## Model

| member | source | states |
|---|---|---|
| `ClientControl.ValidateConfig` | neutrino-proxy-client/src/main/java/org/dromara/neutrinoproxy/client/core/ProxyClientService.java:60-80 | Checks run in the order server ip, server port, key-store path, licence key. The error reported is the first missing value, and no error means the configuration is complete. Null and "" both count as missing. |
| `ClientControl.ReconnectSchedule` | neutrino-proxy-client/src/main/java/org/dromara/neutrinoproxy/client/core/ProxyClientService.java:44-57 | `init` schedules reconnect with a 10-second initial delay and a period of `intervalSeconds`. Nothing is scheduled when the period is not positive. |
| `ClientControl.ConnectComplete` | neutrino-proxy-client/src/main/java/org/dromara/neutrinoproxy/client/core/ProxyClientService.java:100-113 | On success: `channel` is the new channel, AUTH {licenceKey, clientId} is written on it, and `reconnectCount` is 0. On failure the state is unchanged. |
| `ClientControl.ConnectStep` | neutrino-proxy-client/src/main/java/org/dromara/neutrinoproxy/client/core/ProxyClientService.java:95-115 | One connect attempt is logged, then the listener runs. A failure's exception from `sync()` is caught by both callers, so only the state change matters. The counter is 0 after a success and unchanged after a failure. |
| `ClientControl.StartStep` | neutrino-proxy-client/src/main/java/org/dromara/neutrinoproxy/client/core/ProxyClientService.java:59-90 | A config error: stop flag set; channel, counter and log untouched. Valid config and active channel: only AUTH is rewritten on that same channel. Otherwise: one connect attempt and no close of the stale channel; the counter changes only by the success reset. |
| `ClientControl.ReconnectStep` | neutrino-proxy-client/src/main/java/org/dromara/neutrinoproxy/client/core/ProxyClientService.java:117-131 | An active channel: nothing changes. Otherwise a non-null stale channel is closed, then one connect attempt is made. The counter ends at old+1 (32-bit wrap) on failure and at 0 on success. |
| `ClientControl.Ticks` | neutrino-proxy-client/src/main/java/org/dromara/neutrinoproxy/client/core/ProxyClientService.java:47 | The scheduler running `reconnect` once per connect outcome. Ticks never change the stop flag and only append to the event log. |
| `ClientControl.TicksAppend` | neutrino-proxy-client/src/main/java/org/dromara/neutrinoproxy/client/core/ProxyClientService.java:47 | Running the scheduled ticks in two batches gives the same state as running them in one. |
| `ClientControl.FailedTicksCount` | neutrino-proxy-client/src/main/java/org/dromara/neutrinoproxy/client/core/ProxyClientService.java:117-131 | After n failed ticks with no active channel, the counter is old+n (as a 32-bit int), and the channel and stop flag are unchanged. |
| `ClientControl.FailedTicksEvents` | neutrino-proxy-client/src/main/java/org/dromara/neutrinoproxy/client/core/ProxyClientService.java:117-131 | n failed ticks log exactly n times [close of the stale channel, if any; connect attempt], and no AUTH. |
| `ClientControl.SuccessAfterFailures` | neutrino-proxy-client/src/main/java/org/dromara/neutrinoproxy/client/core/ProxyClientService.java:101-109 | k failed ticks then a successful one: counter 0, the new channel installed, AUTH on it as the last event. |
| `ClientControl.ActiveTicksIdle` | neutrino-proxy-client/src/main/java/org/dromara/neutrinoproxy/client/core/ProxyClientService.java:118-121 | While the channel is active, any number of ticks leaves the state exactly as it was. |
| `ClientControl.StartVersusReconnect` | neutrino-proxy-client/src/main/java/org/dromara/neutrinoproxy/client/core/ProxyClientService.java:81-86 | On a stale channel with a failed connect, `start` logs only the attempt and keeps the counter. `reconnect` closes the channel first and bumps the counter. |
| `ClientControl.RestartResendsAuth` | neutrino-proxy-client/src/main/java/org/dromara/neutrinoproxy/client/core/ProxyClientService.java:81-89 | Calling `start` twice on a live channel writes AUTH twice, on the same channel. There is no new connection and no counter change. |
| `JavaInt.Wrap32` | neutrino-proxy-client/src/main/java/org/dromara/neutrinoproxy/client/core/ProxyClientService.java:38 | Reduction to a Java `int`; it is the identity inside the 32-bit range. |
| `JavaInt.Increment` | neutrino-proxy-client/src/main/java/org/dromara/neutrinoproxy/client/core/ProxyClientService.java:125 | `++reconnectCount`: plus one, except that the largest int wraps to the smallest. |
| `JavaInt.WrapAdd` | neutrino-proxy-client/src/main/java/org/dromara/neutrinoproxy/client/core/ProxyClientService.java:125 | Wrapping after each increment equals wrapping once at the end. |
| `ClientControl.ProxyClientService.Init` | neutrino-proxy-client/src/main/java/org/dromara/neutrinoproxy/client/core/ProxyClientService.java:44-57 | Registers the schedule and then runs `start`. If the schedule is refused, nothing else happens. |
| `ClientControl.ProxyClientService.Start` | neutrino-proxy-client/src/main/java/org/dromara/neutrinoproxy/client/core/ProxyClientService.java:59-90 | The new state is `StartStep` of the old one; the schedule is untouched. |
| `ClientControl.ProxyClientService.ConnectProxyServer` | neutrino-proxy-client/src/main/java/org/dromara/neutrinoproxy/client/core/ProxyClientService.java:95-115 | The new state is `ConnectStep` of the old one. |
| `ClientControl.ProxyClientService.OperationComplete` | neutrino-proxy-client/src/main/java/org/dromara/neutrinoproxy/client/core/ProxyClientService.java:100-113 | The new state is `ConnectComplete` of the old one. |
| `ClientControl.ProxyClientService.Reconnect` | neutrino-proxy-client/src/main/java/org/dromara/neutrinoproxy/client/core/ProxyClientService.java:117-131 | The new state is `ReconnectStep` of the old one. |
| `TunnelServer.CommonPipeline` | neutrino-proxy-server/src/main/java/org/dromara/neutrinoproxy/server/proxy/core/ProxyTunnelServer.java:120-130 | Logging is prepended exactly when `transferLogEnable` is non-null and true, and the existing handlers keep their order. The pipeline ends with decoder, encoder, idle monitor and tunnel handler. The decoder and idle monitor take their options in constructor order. |
| `TunnelServer.ProxyServerCommonInitHandler` | neutrino-proxy-server/src/main/java/org/dromara/neutrinoproxy/server/proxy/core/ProxyTunnelServer.java:120-130 | The addFirst/addLast edits turn the pipeline into `CommonPipeline` of the old one. |
| `TunnelServer.ChannelPipeline.AddFirst` | neutrino-proxy-server/src/main/java/org/dromara/neutrinoproxy/server/proxy/core/ProxyTunnelServer.java:122 | Prepends one handler. |
| `TunnelServer.ChannelPipeline.AddLast` | neutrino-proxy-server/src/main/java/org/dromara/neutrinoproxy/server/proxy/core/ProxyTunnelServer.java:124-129 | Appends one handler. |
| `TunnelServer.ChannelPipeline.AddLastNullable` | neutrino-proxy-server/src/main/java/org/dromara/neutrinoproxy/server/proxy/core/ProxyTunnelServer.java:83 | Appends the handler, or nothing when it is null. |
| `TunnelServer.CreateSslHandler` | neutrino-proxy-server/src/main/java/org/dromara/neutrinoproxy/server/proxy/core/ProxyTunnelServer.java:95-118 | Gives a handler exactly when both passwords are set and every library call succeeds. That handler is server mode without client auth; any exception gives null. |
| `TunnelServer.SslPipeline` | neutrino-proxy-server/src/main/java/org/dromara/neutrinoproxy/server/proxy/core/ProxyTunnelServer.java:81-85 | The TLS stage follows the prepended logging and the existing handlers (kept in order), and precedes the four common stages. Without a TLS handler the result is the common pipeline. |
| `TunnelServer.InitSslChannel` | neutrino-proxy-server/src/main/java/org/dromara/neutrinoproxy/server/proxy/core/ProxyTunnelServer.java:81-85 | The SSL listener's `initChannel` turns the pipeline into `SslPipeline` of the old one. |
| `TunnelServer.InitPlainChannel` | neutrino-proxy-server/src/main/java/org/dromara/neutrinoproxy/server/proxy/core/ProxyTunnelServer.java:60-63 | The plain listener's `initChannel` turns the pipeline into `CommonPipeline` of the old one. |
| `TunnelServer.PlainPipelineLayout` | neutrino-proxy-server/src/main/java/org/dromara/neutrinoproxy/server/proxy/core/ProxyTunnelServer.java:124-129 | With logging off, a new connection's pipeline is exactly [decoder, encoder, idle monitor, tunnel handler]. |
| `TunnelServer.LoggingIsPrepended` | neutrino-proxy-server/src/main/java/org/dromara/neutrinoproxy/server/proxy/core/ProxyTunnelServer.java:121-122 | Turning logging on only adds Logging at index 0. |
| `TunnelServer.SslPipelineLayout` | neutrino-proxy-server/src/main/java/org/dromara/neutrinoproxy/server/proxy/core/ProxyTunnelServer.java:81-85 | With a TLS handler: [Logging if on] + [Ssl] + common stages. With logging on, Logging is at index 0 and Ssl at index 1. |
| `TunnelServer.SslFailureGivesPlainPipeline` | neutrino-proxy-server/src/main/java/org/dromara/neutrinoproxy/server/proxy/core/ProxyTunnelServer.java:83 | Without a TLS handler, a connection on the SSL port gets the plain pipeline. |
| `TunnelServer.StartProxyServer` | neutrino-proxy-server/src/main/java/org/dromara/neutrinoproxy/server/proxy/core/ProxyTunnelServer.java:55-71 | One bind attempt on `tunnel.port`. It succeeds only with the port set and the bind succeeding; a failure is caught. |
| `TunnelServer.StartProxyServerForSsl` | neutrino-proxy-server/src/main/java/org/dromara/neutrinoproxy/server/proxy/core/ProxyTunnelServer.java:73-93 | No attempt when `sslPort` is null. Otherwise one attempt whose failure is caught. |
| `TunnelServer.OnEvent` | neutrino-proxy-server/src/main/java/org/dromara/neutrinoproxy/server/proxy/core/ProxyTunnelServer.java:44-51 | Nothing in the AOT runtime. Otherwise plain first, then SSL if configured, each bound once whatever became of the other. |
| `TunnelServer.BoundListeners` | neutrino-proxy-server/src/main/java/org/dromara/neutrinoproxy/server/proxy/core/ProxyTunnelServer.java:65-70 | The set of listener kinds whose bind succeeded. |
| `TunnelServer.ListenersStarted` | neutrino-proxy-server/src/main/java/org/dromara/neutrinoproxy/server/proxy/core/ProxyTunnelServer.java:44-93 | A listener serves exactly when: outside AOT, its port is configured and its bind succeeded. |
| `MutualService.OnlineWrites` | neutrino-proxy-server/src/main/java/org/dromara/neutrinoproxy/server/service/ProxyMutualService.java:52-57 | Exactly two writes: the mapping of (licence, serverPort), then the licence. Both are ONLINE and both carry `now`. |
| `MutualService.OfflineWrites` | neutrino-proxy-server/src/main/java/org/dromara/neutrinoproxy/server/service/ProxyMutualService.java:63-68 | Exactly two writes: the mappings of the licence alone, then the licence. Both are OFFLINE and both carry `now`. |
| `MutualService.WritesIgnoreIp` | neutrino-proxy-server/src/main/java/org/dromara/neutrinoproxy/server/service/ProxyMutualService.java:56 | The ip only reaches the log line, never the store. |
| `MutualService.LatestStatus` | neutrino-proxy-server/src/main/java/org/dromara/neutrinoproxy/server/service/ProxyMutualService.java:54-55 | None exactly when no write covers the record. Otherwise: the stamp of a covering write with no covering write after it. |
| `MutualService.LatestStatusAppend` | neutrino-proxy-server/src/main/java/org/dromara/neutrinoproxy/server/service/ProxyMutualService.java:54-55 | After appended writes, a record reads from the new writes if they cover it, otherwise from the old log. |
| `MutualService.OnlineMarksOnline` | neutrino-proxy-server/src/main/java/org/dromara/neutrinoproxy/server/service/ProxyMutualService.java:52-57 | After `online`, the licence and the (licence, port) mapping read ONLINE at `now`. Every other record is unchanged. |
| `MutualService.OfflineMarksOffline` | neutrino-proxy-server/src/main/java/org/dromara/neutrinoproxy/server/service/ProxyMutualService.java:63-68 | After `offline`, the licence and all its mappings read OFFLINE at `now`. Other licences are unchanged. |
| `MutualService.OnlineThenOffline` | neutrino-proxy-server/src/main/java/org/dromara/neutrinoproxy/server/service/ProxyMutualService.java:52-68 | `online` then `offline` leaves the licence and its mapping OFFLINE, stamped with the offline time. |
| `MutualService.StatusStore.UpdatePortMappingStatus` | neutrino-proxy-server/src/main/java/org/dromara/neutrinoproxy/server/service/ProxyMutualService.java:54 | Appends one mapping write keyed by licence and port. |
| `MutualService.StatusStore.UpdatePortMappingStatusOfLicense` | neutrino-proxy-server/src/main/java/org/dromara/neutrinoproxy/server/service/ProxyMutualService.java:65 | Appends one mapping write keyed by licence alone. |
| `MutualService.StatusStore.UpdateLicenseStatus` | neutrino-proxy-server/src/main/java/org/dromara/neutrinoproxy/server/service/ProxyMutualService.java:55 | Appends one licence write. |
| `MutualService.ProxyMutualService.Online` | neutrino-proxy-server/src/main/java/org/dromara/neutrinoproxy/server/service/ProxyMutualService.java:52-57 | Appends exactly `OnlineWrites`, in order, to the store. |
| `MutualService.ProxyMutualService.Offline` | neutrino-proxy-server/src/main/java/org/dromara/neutrinoproxy/server/service/ProxyMutualService.java:63-68 | Appends exactly `OfflineWrites`, in order, to the store. |

## Left out

- Sockets and Netty are reduced to connect and bind outcomes given as parameters: `Bootstrap.connect`, `ServerBootstrap.bind().sync()`, event-loop groups, `writeAndFlush`. A written frame is a log entry.
- Netty's `ChannelInitializer` sits in the pipeline during `initChannel` and removes itself afterwards. The model starts a new connection's pipeline from `[]` and leaves this out.
- The exception that `sync()` rethrows after a failed connect is not modelled: `start` and `reconnect` both catch it and only log it, and neither does anything after that.
- Key stores, `KeyManagerFactory`, `SSLContext` and `SSLEngine` are foreign TLS library calls. Each call's success is a flag in `TlsEnvironment`.
- The frame codec (`ProxyMessageDecoder`, `ProxyMessageEncoder`, `ProxyMessage.buildAuthMessage`) is not part of this model. AUTH is the abstract `AuthMessage`, with no byte layout and no round-trip.
- The session registry and `ProxyTunnelChannelHandler` (idle close, duplicate AUTH) are not part of this model.
- Concurrency is left out: threads, the scheduler's timing, `synchronized` and `volatile`. `reconnect` is one sequential step per tick, and the schedule is recorded only as data. So the property that at most one reconnect is in flight is not modelled.
- `UdpServerUtil.initCache`, `ProxyUtil.setCmdChannel` and logging have no effect in the model. `Solon.stop()` only sets `stopped`.
- Closing a channel is only logged. A channel's `isActive` flag going false by itself (a dropped socket) is not an operation of the model: the lemmas take any state.
- The store is an append-only log, because the mappers' SQL is not visible. `LatestStatus` reads it as last-write-wins per record, and a mapping write keyed by licence alone covers every port of that licence. This reading follows the mappers' method names, not their SQL.
- A persistence write that throws is not modelled; `online` and `offline` do not catch.
- The `protocol.*` options are plain integers. A null option would make `initChannel` throw on unboxing, and that is not modelled.
- `licenseId` and `serverPort` of the status writes are plain integers; the source passes them through, null included.
