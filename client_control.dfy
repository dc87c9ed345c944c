/**
 * The agent's control connection: configuration checks on start-up, the
 * connect-completion listener, and the scheduled reconnect routine of
 * `ProxyClientService`.
 *
 * Sockets are not modelled. A connect attempt's outcome is a parameter
 * (`Connected(channel)` or `ConnectFailed`), and everything the routine does
 * to the outside world (a connect attempt, closing a channel, writing an AUTH
 * frame) is appended to an event log.
 */
module ClientControl {
  import opened Common
  import opened JavaInt

  // ---------------------------------------------------------------------------
  // Configuration
  // ---------------------------------------------------------------------------

  /** The `tunnel.*` options the agent reads; `None` is an unset option. */
  datatype ClientConfig = ClientConfig(
    serverIp: Option<string>,
    serverPort: Option<int>,
    sslEnable: Option<bool>,
    jksPath: Option<string>,
    licenseKey: Option<string>,
    intervalSeconds: int)

  /** Hutool's `StrUtil.isEmpty`: unset or the empty string. */
  predicate IsEmpty(s: Option<string>)
  {
    s.None? || s.value == ""
  }

  /** `null != sslEnable && sslEnable`: an unset flag counts as false. */
  predicate SslEnabled(c: ClientConfig)
  {
    c.sslEnable == Some(true)
  }

  /** Every value that start-up demands is present. */
  predicate ConfigComplete(c: ClientConfig)
  {
    && !IsEmpty(c.serverIp)
    && c.serverPort.Some?
    && (SslEnabled(c) ==> !IsEmpty(c.jksPath))
    && !IsEmpty(c.licenseKey)
  }

  /** The configuration error that makes start-up stop the process. */
  datatype ConfigError = MissingServerIp | MissingServerPort | MissingJksPath | MissingLicenseKey

  /**
   * The checks at the head of `start()`, in their order: the first missing
   * value is the one reported, and no error at all means the configuration
   * is complete.
   */
  function ValidateConfig(c: ClientConfig): (r: Option<ConfigError>)
    ensures r.None? <==> ConfigComplete(c)
    ensures r == Some(MissingServerIp) <==> IsEmpty(c.serverIp)
    ensures r == Some(MissingServerPort) <==> !IsEmpty(c.serverIp) && c.serverPort.None?
    ensures r == Some(MissingJksPath) <==>
              !IsEmpty(c.serverIp) && c.serverPort.Some? && SslEnabled(c) && IsEmpty(c.jksPath)
    ensures r == Some(MissingLicenseKey) <==>
              !IsEmpty(c.serverIp) && c.serverPort.Some? && (SslEnabled(c) ==> !IsEmpty(c.jksPath))
              && IsEmpty(c.licenseKey)
  {
    if IsEmpty(c.serverIp) then Some(MissingServerIp)
    else if c.serverPort.None? then Some(MissingServerPort)
    else if c.sslEnable.Some? && c.sslEnable.value && IsEmpty(c.jksPath) then Some(MissingJksPath)
    else if IsEmpty(c.licenseKey) then Some(MissingLicenseKey)
    else None
  }

  // ---------------------------------------------------------------------------
  // Reconnect schedule (`init`)
  // ---------------------------------------------------------------------------

  /** The fixed grace delay before the first reconnect tick. */
  const RECONNECT_INITIAL_DELAY_SECONDS: int := 10

  datatype Schedule = Schedule(initialDelaySeconds: int, periodSeconds: int)

  /**
   * The fixed-delay schedule `init()` registers for `reconnect()`. The JDK's
   * `scheduleWithFixedDelay` rejects a delay that is not positive, and does
   * so before `init()` reaches its `try`, so then nothing is scheduled.
   */
  function ReconnectSchedule(c: ClientConfig): (r: Option<Schedule>)
    ensures r.Some? <==> c.intervalSeconds > 0
    ensures r.Some? ==> r.value.initialDelaySeconds == 10 && r.value.periodSeconds == c.intervalSeconds
  {
    if c.intervalSeconds <= 0 then None
    else Some(Schedule(RECONNECT_INITIAL_DELAY_SECONDS, c.intervalSeconds))
  }

  // ---------------------------------------------------------------------------
  // Connection state
  // ---------------------------------------------------------------------------

  /** A transport channel: its identity and its `isActive()` flag. */
  datatype Channel = Channel(id: nat, active: bool)

  /** The AUTH frame's content: the configured licence key and the process's client id. */
  datatype AuthMessage = AuthMessage(licenseKey: Option<string>, clientId: string)

  /** What the control connection does to the outside world, in order. */
  datatype ClientEvent =
    | ConnectAttempt
    | ChannelClosed(channelId: nat)
    | AuthSent(channelId: nat, message: AuthMessage)

  /** How a connect attempt completes. */
  datatype ConnectOutcome = Connected(channel: Channel) | ConnectFailed

  /** The fields of `ProxyClientService`, plus the stop flag and the event log. */
  datatype ClientState = ClientState(
    channel: Option<Channel>,
    reconnectCount: Int32,
    stopped: bool,
    events: seq<ClientEvent>)

  predicate HasActiveChannel(s: ClientState)
  {
    s.channel.Some? && s.channel.value.active
  }

  function AuthOf(c: ClientConfig, clientId: string): AuthMessage
  {
    AuthMessage(c.licenseKey, clientId)
  }

  /** The AUTH frame written right after a successful connect, if any. */
  function AuthOnConnect(c: ClientConfig, clientId: string, outcome: ConnectOutcome): seq<ClientEvent>
  {
    if outcome.Connected? then [AuthSent(outcome.channel.id, AuthOf(c, clientId))] else []
  }

  /** The closing of a stale channel that `reconnect()` does before connecting. */
  function StaleClose(s: ClientState): seq<ClientEvent>
  {
    if s.channel.Some? then [ChannelClosed(s.channel.value.id)] else []
  }

  /**
   * The connect-completion listener. A success installs the new channel,
   * writes AUTH on it and resets the counter; a failure is only logged.
   */
  function ConnectComplete(s: ClientState, c: ClientConfig, clientId: string, outcome: ConnectOutcome): (r: ClientState)
    ensures outcome.Connected? ==>
              && r.channel == Some(outcome.channel)
              && r.reconnectCount == 0
              && r.events == s.events + [AuthSent(outcome.channel.id, AuthOf(c, clientId))]
              && r.stopped == s.stopped
    ensures outcome.ConnectFailed? ==> r == s
  {
    match outcome
    case Connected(ch) =>
      s.(channel := Some(ch), events := s.events + [AuthSent(ch.id, AuthOf(c, clientId))], reconnectCount := 0)
    case ConnectFailed => s
  }

  /**
   * `connectProxyServer()`: one connect attempt, then the listener. The
   * exception `sync()` raises for a failed attempt is caught by both callers,
   * so it changes nothing here.
   */
  function ConnectStep(s: ClientState, c: ClientConfig, clientId: string, outcome: ConnectOutcome): (r: ClientState)
    ensures r.events == s.events + [ConnectAttempt] + AuthOnConnect(c, clientId, outcome)
    ensures r.channel == (if outcome.Connected? then Some(outcome.channel) else s.channel)
    ensures r.reconnectCount == (if outcome.Connected? then 0 else s.reconnectCount)
    ensures r.stopped == s.stopped
  {
    ConnectComplete(s.(events := s.events + [ConnectAttempt]), c, clientId, outcome)
  }

  /**
   * `start()`. A configuration error stops the process and touches nothing
   * else; with an active channel AUTH is written again on that channel;
   * otherwise a connect is attempted, without closing a stale channel.
   */
  function StartStep(s: ClientState, c: ClientConfig, clientId: string, outcome: ConnectOutcome): (r: ClientState)
    ensures ValidateConfig(c).Some? ==>
              r.stopped && r.channel == s.channel && r.reconnectCount == s.reconnectCount && r.events == s.events
    ensures ValidateConfig(c).None? ==> r.stopped == s.stopped
    ensures ValidateConfig(c).None? && HasActiveChannel(s) ==>
              && r.channel == s.channel
              && r.reconnectCount == s.reconnectCount
              && r.events == s.events + [AuthSent(s.channel.value.id, AuthOf(c, clientId))]
    ensures ValidateConfig(c).None? && !HasActiveChannel(s) ==>
              && r.events == s.events + [ConnectAttempt] + AuthOnConnect(c, clientId, outcome)
              && r.channel == (if outcome.Connected? then Some(outcome.channel) else s.channel)
              && r.reconnectCount == (if outcome.Connected? then 0 else s.reconnectCount)
  {
    if ValidateConfig(c).Some? then s.(stopped := true)
    else if s.channel.None? || !s.channel.value.active then ConnectStep(s, c, clientId, outcome)
    else s.(events := s.events + [AuthSent(s.channel.value.id, AuthOf(c, clientId))])
  }

  /**
   * One tick of `reconnect()`. With an active channel nothing happens.
   * Otherwise a stale channel is closed, the counter goes up by one (with
   * Java's wrap-around) and a connect is attempted; a success then resets
   * the counter to 0.
   */
  function ReconnectStep(s: ClientState, c: ClientConfig, clientId: string, outcome: ConnectOutcome): (r: ClientState)
    ensures HasActiveChannel(s) ==> r == s
    ensures !HasActiveChannel(s) ==>
              && r.events == s.events + StaleClose(s) + [ConnectAttempt] + AuthOnConnect(c, clientId, outcome)
              && r.channel == (if outcome.Connected? then Some(outcome.channel) else s.channel)
              && r.reconnectCount == (if outcome.Connected? then 0 else Increment(s.reconnectCount))
              && r.stopped == s.stopped
  {
    if s.channel.Some? && s.channel.value.active then s
    else
      var closed := if s.channel.Some? then s.(events := s.events + [ChannelClosed(s.channel.value.id)]) else s;
      ConnectStep(closed.(reconnectCount := Increment(closed.reconnectCount)), c, clientId, outcome)
  }

  /**
   * Successive reconnect ticks, one connect outcome per tick. Ticks never
   * touch the stop flag and only ever append to the event log.
   */
  function Ticks(s: ClientState, c: ClientConfig, clientId: string, outcomes: seq<ConnectOutcome>): (r: ClientState)
    ensures r.stopped == s.stopped
    ensures |s.events| <= |r.events| && r.events[..|s.events|] == s.events
    decreases |outcomes|
  {
    if outcomes == [] then s
    else Ticks(ReconnectStep(s, c, clientId, outcomes[0]), c, clientId, outcomes[1..])
  }

  /** `n` failed connect outcomes. */
  function Failures(n: nat): (r: seq<ConnectOutcome>)
    ensures |r| == n
    ensures forall i | 0 <= i < n :: r[i] == ConnectFailed
  {
    if n == 0 then [] else Failures(n - 1) + [ConnectFailed]
  }

  // ---------------------------------------------------------------------------
  // Properties of the reconnect loop
  // ---------------------------------------------------------------------------

  /** Running ticks in two batches is running them in one. */
  lemma {:induction false} TicksAppend(s: ClientState, c: ClientConfig, clientId: string, a: seq<ConnectOutcome>, b: seq<ConnectOutcome>)
    ensures Ticks(s, c, clientId, a + b) == Ticks(Ticks(s, c, clientId, a), c, clientId, b)
    decreases |a|
  {
    if a == [] {
      assert a + b == b;
    } else {
      assert (a + b)[0] == a[0];
      assert (a + b)[1..] == a[1..] + b;
      TicksAppend(ReconnectStep(s, c, clientId, a[0]), c, clientId, a[1..], b);
    }
  }

  /**
   * Without a live channel, every failed tick adds exactly one to the
   * counter (as a 32-bit `int`) and leaves the channel and the stop flag as
   * they were.
   */
  lemma {:induction false} FailedTicksCount(s: ClientState, c: ClientConfig, clientId: string, outcomes: seq<ConnectOutcome>)
    requires !HasActiveChannel(s)
    requires forall i | 0 <= i < |outcomes| :: outcomes[i] == ConnectFailed
    ensures Ticks(s, c, clientId, outcomes).reconnectCount == Wrap32(s.reconnectCount + |outcomes|)
    ensures Ticks(s, c, clientId, outcomes).channel == s.channel
    ensures Ticks(s, c, clientId, outcomes).stopped == s.stopped
    decreases |outcomes|
  {
    if outcomes != [] {
      var s1 := ReconnectStep(s, c, clientId, outcomes[0]);
      FailedTicksCount(s1, c, clientId, outcomes[1..]);
      WrapAdd(s.reconnectCount + 1, |outcomes| - 1);
    }
  }

  /**
   * Each failed tick also closes the stale channel (if there is one) and
   * makes exactly one connect attempt, and writes no AUTH frame.
   */
  lemma {:induction false} FailedTicksEvents(s: ClientState, c: ClientConfig, clientId: string, n: nat)
    requires !HasActiveChannel(s)
    ensures Ticks(s, c, clientId, Failures(n)).events == s.events + RepeatEvents(StaleClose(s) + [ConnectAttempt], n)
  {
    if n > 0 {
      FailedTicksEvents(s, c, clientId, n - 1);
      TicksAppend(s, c, clientId, Failures(n - 1), [ConnectFailed]);
      FailedTicksCount(s, c, clientId, Failures(n - 1));
      var m := Ticks(s, c, clientId, Failures(n - 1));
      assert Ticks(m, c, clientId, [ConnectFailed]) == ReconnectStep(m, c, clientId, ConnectFailed);
      assert StaleClose(m) == StaleClose(s);
    }
  }

  /** `block` repeated `n` times. */
  function RepeatEvents(block: seq<ClientEvent>, n: nat): (r: seq<ClientEvent>)
    ensures |r| == n * |block|
  {
    if n == 0 then [] else RepeatEvents(block, n - 1) + block
  }

  /**
   * After `k` failed ticks, a tick whose connect succeeds leaves the new
   * channel installed, AUTH written on it as the last event, and the
   * counter back at 0.
   */
  lemma SuccessAfterFailures(s: ClientState, c: ClientConfig, clientId: string, k: nat, ch: Channel)
    requires !HasActiveChannel(s)
    ensures Ticks(s, c, clientId, Failures(k) + [Connected(ch)]).reconnectCount == 0
    ensures Ticks(s, c, clientId, Failures(k) + [Connected(ch)]).channel == Some(ch)
    ensures Ticks(s, c, clientId, Failures(k) + [Connected(ch)]).stopped == s.stopped
    ensures var r := Ticks(s, c, clientId, Failures(k) + [Connected(ch)]);
            |r.events| > 0 && r.events[|r.events| - 1] == AuthSent(ch.id, AuthOf(c, clientId))
  {
    TicksAppend(s, c, clientId, Failures(k), [Connected(ch)]);
    FailedTicksCount(s, c, clientId, Failures(k));
    var m := Ticks(s, c, clientId, Failures(k));
    assert Ticks(m, c, clientId, [Connected(ch)]) == ReconnectStep(m, c, clientId, Connected(ch));
  }

  /** While the channel stays active, reconnect ticks change nothing at all. */
  lemma {:induction false} ActiveTicksIdle(s: ClientState, c: ClientConfig, clientId: string, outcomes: seq<ConnectOutcome>)
    requires HasActiveChannel(s)
    ensures Ticks(s, c, clientId, outcomes) == s
    decreases |outcomes|
  {
    if outcomes != [] {
      ActiveTicksIdle(s, c, clientId, outcomes[1..]);
    }
  }

  /**
   * The difference between `start()` and a reconnect tick on a stale
   * channel with a complete configuration: only the tick closes the old
   * channel, and only the tick moves the counter when the connect fails.
   */
  lemma StartVersusReconnect(s: ClientState, c: ClientConfig, clientId: string, ch: Channel)
    requires ConfigComplete(c)
    requires s.channel == Some(ch) && !ch.active
    ensures StartStep(s, c, clientId, ConnectFailed).events == s.events + [ConnectAttempt]
    ensures StartStep(s, c, clientId, ConnectFailed).reconnectCount == s.reconnectCount
    ensures ReconnectStep(s, c, clientId, ConnectFailed).events == s.events + [ChannelClosed(ch.id), ConnectAttempt]
    ensures ReconnectStep(s, c, clientId, ConnectFailed).reconnectCount == Increment(s.reconnectCount)
  {
  }

  /**
   * A repeated `start()` on a live channel only writes AUTH again: the
   * connection is neither replaced nor re-established.
   */
  lemma RestartResendsAuth(s: ClientState, c: ClientConfig, clientId: string, o1: ConnectOutcome, o2: ConnectOutcome)
    requires ConfigComplete(c) && HasActiveChannel(s)
    ensures var r := StartStep(StartStep(s, c, clientId, o1), c, clientId, o2);
            && r.channel == s.channel
            && r.reconnectCount == s.reconnectCount
            && r.events == s.events + [AuthSent(s.channel.value.id, AuthOf(c, clientId)),
                                       AuthSent(s.channel.value.id, AuthOf(c, clientId))]
  {
  }

  // ---------------------------------------------------------------------------
  // The service object
  // ---------------------------------------------------------------------------

  /** `ProxyClientService`: the agent's control-connection holder. */
  class ProxyClientService {
    /** The injected configuration. */
    const proxyConfig: ClientConfig
    /** `ProxyUtil.getClientId()`: fixed for the life of the process. */
    const clientId: string

    var channel: Option<Channel>
    var reconnectCount: Int32
    /** Stands for `Solon.stop()` having been called. */
    var stopped: bool
    var events: seq<ClientEvent>
    /** The reconnect schedule registered by `init()`, if any. */
    var schedule: Option<Schedule>

    function State(): ClientState
      reads this
    {
      ClientState(channel, reconnectCount, stopped, events)
    }

    constructor (config: ClientConfig, id: string)
      ensures proxyConfig == config && clientId == id
      ensures State() == ClientState(None, 0, false, [])
      ensures schedule == None
    {
      proxyConfig := config;
      clientId := id;
      channel := None;
      reconnectCount := 0;
      stopped := false;
      events := [];
      schedule := None;
    }

    /**
     * `init()`: registers the reconnect schedule and then runs `start()`.
     * `ok` is false when the schedule is refused, in which case `start()`
     * never runs.
     */
    method Init(outcome: ConnectOutcome) returns (ok: bool)
      modifies this
      ensures ok <==> ReconnectSchedule(proxyConfig).Some?
      ensures schedule == (if ok then ReconnectSchedule(proxyConfig) else old(schedule))
      ensures State() == (if ok then StartStep(old(State()), proxyConfig, clientId, outcome) else old(State()))
    {
      var regular := ReconnectSchedule(proxyConfig);
      if regular.None? {
        return false;
      }
      schedule := regular;
      Start(outcome);
      ok := true;
    }

    /** `start()`. */
    method Start(outcome: ConnectOutcome)
      modifies this
      ensures State() == StartStep(old(State()), proxyConfig, clientId, outcome)
      ensures schedule == old(schedule)
    {
      if IsEmpty(proxyConfig.serverIp) {
        stopped := true;
        return;
      }
      if proxyConfig.serverPort.None? {
        stopped := true;
        return;
      }
      if proxyConfig.sslEnable.Some? && proxyConfig.sslEnable.value && IsEmpty(proxyConfig.jksPath) {
        stopped := true;
        return;
      }
      if IsEmpty(proxyConfig.licenseKey) {
        stopped := true;
        return;
      }
      if channel.None? || !channel.value.active {
        ConnectProxyServer(outcome);
      } else {
        events := events + [AuthSent(channel.value.id, AuthOf(proxyConfig, clientId))];
      }
    }

    /** `connectProxyServer()`: one attempt, completed by `OperationComplete`. */
    method ConnectProxyServer(outcome: ConnectOutcome)
      modifies this
      ensures State() == ConnectStep(old(State()), proxyConfig, clientId, outcome)
      ensures schedule == old(schedule)
    {
      events := events + [ConnectAttempt];
      OperationComplete(outcome);
    }

    /** The connect future's listener. */
    method OperationComplete(outcome: ConnectOutcome)
      modifies this
      ensures State() == ConnectComplete(old(State()), proxyConfig, clientId, outcome)
      ensures schedule == old(schedule)
    {
      if outcome.Connected? {
        channel := Some(outcome.channel);
        events := events + [AuthSent(outcome.channel.id, AuthOf(proxyConfig, clientId))];
        reconnectCount := 0;
      }
    }

    /** `reconnect()`: one tick of the schedule. */
    method Reconnect(outcome: ConnectOutcome)
      modifies this
      ensures State() == ReconnectStep(old(State()), proxyConfig, clientId, outcome)
      ensures schedule == old(schedule)
    {
      if channel.Some? {
        if channel.value.active {
          return;
        }
        events := events + [ChannelClosed(channel.value.id)];
      }
      reconnectCount := Increment(reconnectCount);
      ConnectProxyServer(outcome);
    }
  }
}
