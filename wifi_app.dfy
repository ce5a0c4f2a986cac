/**
 * The station-connection manager (main/wifi_app.c).
 *
 * The driver-event callback and the task loop are modelled as sequential
 * steps on one state: the retry counter g_retry_number, the three bits of
 * the event group, the three-slot message queue, the configuration buffer
 * and the credential namespace. Calls into the radio driver, the HTTP
 * server and its monitor are recorded in a log of commands instead of
 * being performed.
 */
module WifiApp {
  import opened Wrappers
  import opened AppNvs

  const MaxConnectionRetries: int := 5
  /** Length of the queue created by wifi_app_start. */
  const QueueCapacity: nat := 3

  /**
   * wifi_app_message_e, together with the LOAD_SAVED_CREDENTIALS message the
   * task sends itself and any other id the switch does not know.
   */
  datatype AppMsg =
    | StartHttpServer
    | ConnectingFromHttpServer
    | StaConnectedGotIp
    | UserRequestedStaDisconnect
    | StaDisconnected
    | LoadSavedCredentials
    | UnknownMsg(id: int)

  /** http_server_message_e, together with the user-disconnect notice the task sends. */
  datatype HttpMsg =
    | WifiConnectInit
    | WifiConnectSuccess
    | WifiConnectFailed
    | WifiDisconnected
    | OtaUpdateInitialized
    | OtaUpdateSuccessful
    | OtaUpdateFailed
    | WifiUserDisconnect

  /** Calls the connection manager makes into code outside the model. */
  datatype Command =
    | ConnectSta(config: Option<WifiConfig>)  // wifi_app_connect_sta: apply the configuration, then connect
    | Reconnect                               // esp_wifi_connect from the event handler
    | Disconnect                              // esp_wifi_disconnect
    | SaveCreds                               // app_nvs_save_sta_creds
    | ClearCreds                              // app_nvs_clear_sta_creds
    | Notify(msg: HttpMsg)                    // http_server_monitor_send_message
    | StartHttp                               // http_server_start

  /** The driver and IP events the callback receives; OtherEvent stands for those it only logs. */
  datatype DriverEvent =
    | WifiStaDisconnectedEvent(reason: int)
    | IpStaGotIp
    | OtherEvent(id: int)

  /** The three bits of the event group, each recording why a connection is in flight. */
  datatype Origin = SavedCreds | FromHttp | UserRequested

  datatype AppState = AppState(
    retry: int,
    savedCredsBit: bool,
    fromHttpBit: bool,
    userDisconnectBit: bool,
    queue: seq<AppMsg>,
    config: Option<WifiConfig>,
    blobs: Store,
    log: seq<Command>)

  function Origins(s: AppState): set<Origin>
  {
    (if s.savedCredsBit then {SavedCreds} else {})
    + (if s.fromHttpBit then {FromHttp} else {})
    + (if s.userDisconnectBit then {UserRequested} else {})
  }

  /** The order in which STA_DISCONNECTED handling tests the bits. */
  function Priority(o: Origin): nat
  {
    match o
    case SavedCreds => 0
    case FromHttp => 1
    case UserRequested => 2
  }

  /** o is set, and no set bit is tested before it. */
  ghost predicate IsFirstOrigin(s: AppState, o: Origin)
  {
    o in Origins(s) && forall o' :: o' in Origins(s) ==> Priority(o) <= Priority(o')
  }

  /** The commands a step issued: what it appended to the log. */
  function Issued(s: AppState, r: AppState): seq<Command>
  {
    if |s.log| <= |r.log| then r.log[|s.log|..] else []
  }

  /** The state wifi_app_start sets up, once the task has sent itself LOAD_SAVED_CREDENTIALS. */
  function Initial(blobs: Store): AppState
  {
    AppState(0, false, false, false, [LoadSavedCredentials], Some(ZeroConfig), blobs, [])
  }

  /** What every reachable state satisfies. */
  ghost predicate Inv(s: AppState)
  {
    && 0 <= s.retry <= MaxConnectionRetries
    && |s.queue| <= QueueCapacity
    && s.config.Some?
  }

  /** The callback posts a message for this event, and blocks while the queue is full. */
  predicate EventSends(s: AppState, e: DriverEvent)
  {
    e.IpStaGotIp? || (e.WifiStaDisconnectedEvent? && s.retry >= MaxConnectionRetries)
  }

  /**
   * wifi_app_event_handler: a station disconnect reconnects while retries
   * remain and otherwise posts STA_DISCONNECTED; getting an address posts
   * STA_CONNECTED_GOT_IP; every other event is only logged.
   */
  function OnDriverEvent(s: AppState, e: DriverEvent): (r: AppState)
    ensures Origins(r) == Origins(s) && r.config == s.config && r.blobs == s.blobs
    ensures e.WifiStaDisconnectedEvent? && s.retry < MaxConnectionRetries ==>
      r.retry == s.retry + 1 && Issued(s, r) == [Reconnect] && r.queue == s.queue
    ensures e.WifiStaDisconnectedEvent? && s.retry >= MaxConnectionRetries ==>
      r.retry == s.retry && r.log == s.log && r.queue == s.queue + [StaDisconnected]
    ensures e.IpStaGotIp? ==> r == s.(queue := s.queue + [StaConnectedGotIp])
    ensures e.OtherEvent? ==> r == s
    ensures 0 <= s.retry <= MaxConnectionRetries ==> 0 <= r.retry <= MaxConnectionRetries
    ensures s.log <= r.log
  {
    match e
    case WifiStaDisconnectedEvent(_) =>
      if s.retry < MaxConnectionRetries then s.(retry := s.retry + 1, log := s.log + [Reconnect])
      else s.(queue := s.queue + [StaDisconnected])
    case IpStaGotIp => s.(queue := s.queue + [StaConnectedGotIp])
    case OtherEvent(_) => s
  }

  /**
   * LOAD_SAVED_CREDENTIALS: load the stored credentials; when that succeeds,
   * connect with them and set the saved-creds bit; in every case post
   * START_HTTP_SERVER.
   */
  function OnLoadSavedCredentials(s: AppState, nvs: NvsResults): (r: AppState)
    ensures var loaded := Load(s.config, s.blobs, nvs);
      && r.config == loaded.config
      && Issued(s, r) == (if loaded.found then [ConnectSta(loaded.config)] else [])
      && r.savedCredsBit == (s.savedCredsBit || loaded.found)
    ensures s.log <= r.log
    ensures r.queue == s.queue + [StartHttpServer]
    ensures r.retry == s.retry && r.fromHttpBit == s.fromHttpBit && r.userDisconnectBit == s.userDisconnectBit
    ensures r.blobs == s.blobs
  {
    var loaded := Load(s.config, s.blobs, nvs);
    var withConfig := s.(config := loaded.config);
    var connected :=
      if loaded.found then withConfig.(log := withConfig.log + [ConnectSta(withConfig.config)], savedCredsBit := true)
      else withConfig;
    connected.(queue := connected.queue + [StartHttpServer])
  }

  /**
   * CONNECTING_FROM_HTTP_SERVER: set the from-http bit, connect with the
   * current configuration, reset the retry counter and tell the HTTP monitor.
   */
  function OnConnectingFromHttpServer(s: AppState): (r: AppState)
    ensures r.fromHttpBit && r.retry == 0
    ensures s.log <= r.log && Issued(s, r) == [ConnectSta(s.config), Notify(WifiConnectInit)]
    ensures r.savedCredsBit == s.savedCredsBit && r.userDisconnectBit == s.userDisconnectBit
    ensures r.queue == s.queue && r.config == s.config && r.blobs == s.blobs
  {
    var flagged := s.(fromHttpBit := true);
    var connecting := flagged.(log := flagged.log + [ConnectSta(flagged.config)]);
    var reset := connecting.(retry := 0);
    reset.(log := reset.log + [Notify(WifiConnectInit)])
  }

  /**
   * STA_CONNECTED_GOT_IP: report success, persist the credentials unless
   * this was a connection with saved credentials, then clear the
   * saved-creds and from-http bits.
   */
  function OnStaConnectedGotIp(s: AppState, nvs: NvsResults): (r: AppState)
    ensures s.log <= r.log
    ensures Issued(s, r) == [Notify(WifiConnectSuccess)] + (if s.savedCredsBit then [] else [SaveCreds])
    ensures r.blobs == if s.savedCredsBit then s.blobs else Save(s.config, s.blobs, nvs).blobs
    ensures !r.savedCredsBit && !r.fromHttpBit
    ensures r.userDisconnectBit == s.userDisconnectBit && r.retry == s.retry
    ensures r.queue == s.queue && r.config == s.config
  {
    var notified := s.(log := s.log + [Notify(WifiConnectSuccess)]);
    var persisted :=
      if s.savedCredsBit then notified.(savedCredsBit := false)
      else notified.(blobs := Save(s.config, s.blobs, nvs).blobs, log := notified.log + [SaveCreds]);
    if s.fromHttpBit then persisted.(fromHttpBit := false) else persisted
  }

  /**
   * USER_REQUESTED_STA_DISCONNECT: set the user bit, spend the whole retry
   * budget so that no reconnect follows, disconnect and erase the stored
   * credentials.
   */
  function OnUserRequestedStaDisconnect(s: AppState, nvs: NvsResults): (r: AppState)
    ensures r.userDisconnectBit && r.retry == MaxConnectionRetries
    ensures s.log <= r.log && Issued(s, r) == [Disconnect, ClearCreds]
    ensures r.blobs == Clear(s.blobs, nvs).blobs
    ensures r.savedCredsBit == s.savedCredsBit && r.fromHttpBit == s.fromHttpBit
    ensures r.queue == s.queue && r.config == s.config
  {
    var flagged := s.(userDisconnectBit := true, retry := MaxConnectionRetries);
    var disconnected := flagged.(log := flagged.log + [Disconnect]);
    disconnected.(blobs := Clear(s.blobs, nvs).blobs, log := disconnected.log + [ClearCreds])
  }

  /**
   * STA_DISCONNECTED: the retry budget is spent. The first set bit in the
   * order saved-creds, from-http, user-disconnect decides the reaction and
   * is the only bit cleared; only a saved-creds attempt erases the stored
   * credentials.
   */
  function OnStaDisconnected(s: AppState, nvs: NvsResults): (r: AppState)
    ensures Origins(s) == {} ==> r == s
    ensures forall o :: IsFirstOrigin(s, o) ==> Origins(r) == Origins(s) - {o}
    ensures Origins(r) <= Origins(s)
    ensures s.log <= r.log && |Issued(s, r)| <= 1
    ensures ClearCreds in Issued(s, r) <==> SavedCreds in Origins(s)
    ensures Notify(WifiConnectFailed) in Issued(s, r) <==> IsFirstOrigin(s, FromHttp)
    ensures Notify(WifiUserDisconnect) in Issued(s, r) <==> IsFirstOrigin(s, UserRequested)
    ensures r.blobs == if SavedCreds in Origins(s) then Clear(s.blobs, nvs).blobs else s.blobs
    ensures r.retry == s.retry && r.queue == s.queue && r.config == s.config
  {
    if s.savedCredsBit then
      s.(savedCredsBit := false, blobs := Clear(s.blobs, nvs).blobs, log := s.log + [ClearCreds])
    else if s.fromHttpBit then
      s.(fromHttpBit := false, log := s.log + [Notify(WifiConnectFailed)])
    else if s.userDisconnectBit then
      s.(userDisconnectBit := false, log := s.log + [Notify(WifiUserDisconnect)])
    else
      s
  }

  /** The switch of wifi_app_task on a received message. */
  function Dispatch(s: AppState, m: AppMsg, nvs: NvsResults): AppState
  {
    match m
    case LoadSavedCredentials => OnLoadSavedCredentials(s, nvs)
    case StartHttpServer => s.(log := s.log + [StartHttp])
    case ConnectingFromHttpServer => OnConnectingFromHttpServer(s)
    case StaConnectedGotIp => OnStaConnectedGotIp(s, nvs)
    case UserRequestedStaDisconnect => OnUserRequestedStaDisconnect(s, nvs)
    case StaDisconnected => OnStaDisconnected(s, nvs)
    case UnknownMsg(_) => s
  }

  /** One iteration of wifi_app_task: receive the oldest message and handle it. */
  function TaskStep(s: AppState, nvs: NvsResults): (r: AppState)
    requires |s.queue| > 0
    ensures Inv(s) ==> Inv(r)
    ensures s.log <= r.log
    ensures s.queue[0].UnknownMsg? ==> r == s.(queue := s.queue[1..])
    ensures s.queue[0].StartHttpServer? ==> r == s.(queue := s.queue[1..], log := s.log + [StartHttp])
  {
    Dispatch(s.(queue := s.queue[1..]), s.queue[0], nvs)
  }

  /**
   * One step of the system: a driver event reaches the callback, another task
   * calls wifi_app_send_message, or the task receives a message.
   */
  datatype Input = Driver(event: DriverEvent) | Post(msg: AppMsg) | Receive(nvs: NvsResults)

  /** The step can complete now: a send needs a free slot, a receive needs a message. */
  predicate Enabled(s: AppState, i: Input)
  {
    match i
    case Driver(e) => !EventSends(s, e) || |s.queue| < QueueCapacity
    case Post(_) => |s.queue| < QueueCapacity
    case Receive(_) => |s.queue| > 0
  }

  /** A step that would block leaves the state as it is. */
  function Apply(s: AppState, i: Input): (r: AppState)
    ensures Inv(s) ==> Inv(r)
    ensures s.log <= r.log
  {
    if !Enabled(s, i) then s
    else
      match i
      case Driver(e) => OnDriverEvent(s, e)
      case Post(m) => s.(queue := s.queue + [m])
      case Receive(nvs) => TaskStep(s, nvs)
  }

  function Run(s: AppState, ins: seq<Input>): AppState
    decreases |ins|
  {
    if ins == [] then s else Run(Apply(s, ins[0]), ins[1..])
  }

  function Receives(results: seq<NvsResults>): seq<Input>
  {
    seq(|results|, k requires 0 <= k < |results| => Receive(results[k]))
  }

  function DisconnectEvents(reasons: seq<int>): seq<Input>
  {
    seq(|reasons|, k requires 0 <= k < |reasons| => Driver(WifiStaDisconnectedEvent(reasons[k])))
  }

  function Reconnects(n: nat): seq<Command>
  {
    seq(n, _ => Reconnect)
  }

  lemma {:induction false} RunAppend(s: AppState, a: seq<Input>, b: seq<Input>)
    ensures Run(s, a + b) == Run(Run(s, a), b)
    decreases |a|
  {
    if a == [] {
      assert a + b == b;
    } else {
      assert (a + b)[1..] == a[1..] + b;
      RunAppend(Apply(s, a[0]), a[1..], b);
    }
  }

  lemma RunThree(s: AppState, a: Input, b: Input, c: Input)
    ensures Run(s, [a, b]) == Apply(Apply(s, a), b)
    ensures Run(s, [a, b, c]) == Apply(Apply(Apply(s, a), b), c)
  {
    var s1 := Apply(s, a);
    var s2 := Apply(s1, b);
    assert [a, b][1..] == [b];
    assert [a, b, c][1..] == [b, c];
    assert [b, c][1..] == [c];
    assert [b][1..] == [] && [c][1..] == [];
    assert Run(s1, [b]) == s2;
    assert Run(s2, [c]) == Apply(s2, c);
    assert Run(s1, [b, c]) == Run(s2, [c]);
  }

  /** Every run keeps the retry counter within [0, MAX_CONNECTION_RETRIES] and the queue within its capacity. */
  lemma {:induction false} RunPreservesInv(s: AppState, ins: seq<Input>)
    requires Inv(s)
    ensures Inv(Run(s, ins))
    ensures s.log <= Run(s, ins).log
    decreases |ins|
  {
    if ins != [] {
      RunPreservesInv(Apply(s, ins[0]), ins[1..]);
    }
  }

  /** With the queue empty every receive blocks, so nothing changes. */
  lemma {:induction false} BlockedReceivesChangeNothing(s: AppState, results: seq<NvsResults>)
    requires |s.queue| == 0
    ensures Run(s, Receives(results)) == s
    decreases |results|
  {
    if results != [] {
      assert Receives(results)[1..] == Receives(results[1..]);
      BlockedReceivesChangeNothing(s, results[1..]);
    }
  }

  /** While retries remain, each driver disconnect reconnects once and spends one retry. */
  lemma {:induction false} ReconnectsWhileBudgetLeft(s: AppState, reasons: seq<int>)
    requires s.retry + |reasons| <= MaxConnectionRetries
    ensures Run(s, DisconnectEvents(reasons)) == s.(retry := s.retry + |reasons|, log := s.log + Reconnects(|reasons|))
    decreases |reasons|
  {
    if reasons != [] {
      var next := OnDriverEvent(s, WifiStaDisconnectedEvent(reasons[0]));
      assert DisconnectEvents(reasons)[1..] == DisconnectEvents(reasons[1..]);
      ReconnectsWhileBudgetLeft(next, reasons[1..]);
      assert s.log + [Reconnect] + Reconnects(|reasons| - 1) == s.log + Reconnects(|reasons|);
    }
  }

  /**
   * From any counter value in [0, MAX_CONNECTION_RETRIES], a burst of
   * disconnects reconnects exactly MAX - retry times and the next one posts
   * STA_DISCONNECTED.
   */
  lemma DisconnectBurstGivesUp(s: AppState, reasons: seq<int>)
    requires 0 <= s.retry <= MaxConnectionRetries && |s.queue| < QueueCapacity
    requires |reasons| == MaxConnectionRetries - s.retry + 1
    ensures var r := Run(s, DisconnectEvents(reasons));
      && r.retry == MaxConnectionRetries
      && r.log == s.log + Reconnects(MaxConnectionRetries - s.retry)
      && r.queue == s.queue + [StaDisconnected]
      && Origins(r) == Origins(s) && r.blobs == s.blobs
  {
    var n := |reasons| - 1;
    var last := Driver(WifiStaDisconnectedEvent(reasons[n]));
    assert DisconnectEvents(reasons) == DisconnectEvents(reasons[..n]) + [last];
    RunAppend(s, DisconnectEvents(reasons[..n]), [last]);
    ReconnectsWhileBudgetLeft(s, reasons[..n]);
  }

  /** Only driver disconnects and STA_DISCONNECTED messages are in play. */
  ghost predicate DisconnectTrafficOnly(s: AppState, ins: seq<Input>)
  {
    && (forall k :: 0 <= k < |s.queue| ==> s.queue[k] == StaDisconnected)
    && (forall k :: 0 <= k < |ins| ==> ins[k].Receive? || (ins[k].Driver? && ins[k].event.WifiStaDisconnectedEvent?))
  }

  function Erasures(log: seq<Command>): nat
  {
    multiset(log)[ClearCreds]
  }

  lemma DisconnectStepErasure(s: AppState, i: Input)
    requires DisconnectTrafficOnly(s, [i])
    ensures var r := Apply(s, i);
      && DisconnectTrafficOnly(r, [])
      && (r.savedCredsBit ==> s.savedCredsBit)
      && Erasures(r.log) == Erasures(s.log) + (if s.savedCredsBit && !r.savedCredsBit then 1 else 0)
  {
    var r := Apply(s, i);
    if Enabled(s, i) && i.Receive? {
      var popped := s.(queue := s.queue[1..]);
      assert s.queue[0] == StaDisconnected;
      assert r == OnStaDisconnected(popped, i.nvs);
      assert r.log == s.log + Issued(popped, r);
      if s.savedCredsBit {
        assert IsFirstOrigin(popped, SavedCreds);
        assert Issued(popped, r) == [ClearCreds];
      } else {
        assert ClearCreds !in Issued(popped, r);
        assert multiset(Issued(popped, r))[ClearCreds] == 0;
      }
    } else if Enabled(s, i) {
      assert [i][0] == i;
      var e := i.event;
      assert e.WifiStaDisconnectedEvent?;
      if s.retry < MaxConnectionRetries {
        assert r.log == s.log + [Reconnect];
      } else {
        assert r.log == s.log;
        assert r.queue == s.queue + [StaDisconnected];
      }
    }
  }

  /**
   * However driver disconnects and STA_DISCONNECTED handling interleave, the
   * stored credentials are erased once when the saved-creds attempt is given
   * up, and never otherwise.
   */
  lemma {:induction false} CredentialsErasedOncePerGiveUp(s: AppState, ins: seq<Input>)
    requires DisconnectTrafficOnly(s, ins)
    ensures var r := Run(s, ins);
      && (r.savedCredsBit ==> s.savedCredsBit)
      && Erasures(r.log) == Erasures(s.log) + (if s.savedCredsBit && !r.savedCredsBit then 1 else 0)
    decreases |ins|
  {
    if ins != [] {
      DisconnectStepErasure(s, ins[0]);
      var next := Apply(s, ins[0]);
      assert DisconnectTrafficOnly(next, ins[1..]);
      CredentialsErasedOncePerGiveUp(next, ins[1..]);
    }
  }

  function ReconnectCount(log: seq<Command>): nat
  {
    multiset(log)[Reconnect]
  }

  /** No message in the queue and no message posted by another task asks for a new connection. */
  ghost predicate NoHttpConnectRequest(s: AppState, ins: seq<Input>)
  {
    && ConnectingFromHttpServer !in s.queue
    && forall k :: 0 <= k < |ins| ==> ins[k] != Post(ConnectingFromHttpServer)
  }

  lemma NoReconnectIssued(p: AppState, r: AppState)
    requires p.log <= r.log && Reconnect !in Issued(p, r)
    ensures ReconnectCount(r.log) == ReconnectCount(p.log)
  {
    assert r.log == p.log + Issued(p, r);
    assert multiset(Issued(p, r))[Reconnect] == 0;
  }

  /** Handling any message but CONNECTING_FROM_HTTP_SERVER keeps the budget spent and issues no reconnect. */
  lemma DispatchKeepsBudgetSpent(p: AppState, m: AppMsg, nvs: NvsResults)
    requires p.retry == MaxConnectionRetries && m != ConnectingFromHttpServer
    ensures var r := Dispatch(p, m, nvs);
      && r.retry == MaxConnectionRetries
      && (r.queue == p.queue || r.queue == p.queue + [StartHttpServer])
      && (m != LoadSavedCredentials ==> r.queue == p.queue)
      && ReconnectCount(r.log) == ReconnectCount(p.log)
  {
    var r := Dispatch(p, m, nvs);
    match m {
      case LoadSavedCredentials =>
        var loaded := Load(p.config, p.blobs, nvs);
        assert Issued(p, r) == (if loaded.found then [ConnectSta(loaded.config)] else []);
      case StartHttpServer =>
        assert Issued(p, r) == [StartHttp];
      case StaConnectedGotIp =>
      case UserRequestedStaDisconnect =>
      case StaDisconnected =>
        assert |Issued(p, r)| <= 1;
      case UnknownMsg(_) =>
        assert Issued(p, r) == [];
    }
    NoReconnectIssued(p, r);
  }

  lemma SpentBudgetStep(s: AppState, i: Input)
    requires s.retry == MaxConnectionRetries && NoHttpConnectRequest(s, [i])
    ensures var r := Apply(s, i);
      && r.retry == MaxConnectionRetries && NoHttpConnectRequest(r, [])
      && ReconnectCount(r.log) == ReconnectCount(s.log)
  {
    assert [i][0] == i;
    if Enabled(s, i) && i.Receive? {
      var popped := s.(queue := s.queue[1..]);
      assert s.queue[0] in s.queue;
      assert forall m :: m in popped.queue ==> m in s.queue;
      DispatchKeepsBudgetSpent(popped, s.queue[0], i.nvs);
    } else if Enabled(s, i) && i.Post? {
      assert i.msg != ConnectingFromHttpServer;
    }
  }

  /**
   * Once the retry budget is spent (after a user disconnect or after giving
   * up), no driver disconnect reconnects again until a CONNECTING_FROM_HTTP_SERVER
   * message is handled, however driver events, posted messages and receives
   * interleave.
   */
  lemma {:induction false} NoReconnectsOnceBudgetSpent(s: AppState, ins: seq<Input>)
    requires s.retry == MaxConnectionRetries && NoHttpConnectRequest(s, ins)
    ensures var r := Run(s, ins);
      r.retry == MaxConnectionRetries && ReconnectCount(r.log) == ReconnectCount(s.log)
    decreases |ins|
  {
    if ins != [] {
      SpentBudgetStep(s, ins[0]);
      var next := Apply(s, ins[0]);
      assert NoHttpConnectRequest(next, ins[1..]);
      NoReconnectsOnceBudgetSpent(next, ins[1..]);
    }
  }

  /**
   * After a user disconnect, the driver's disconnect event gets no
   * reconnect and goes straight to STA_DISCONNECTED; with no connection
   * attempt in flight that reports the user disconnect.
   */
  lemma UserDisconnectSkipsRetries(s: AppState, nvs: NvsResults, reason: int, nvs2: NvsResults)
    requires s.queue == [UserRequestedStaDisconnect] && !s.savedCredsBit && !s.fromHttpBit
    ensures var r := Run(s, [Receive(nvs), Driver(WifiStaDisconnectedEvent(reason)), Receive(nvs2)]);
      && r.log == s.log + [Disconnect, ClearCreds, Notify(WifiUserDisconnect)]
      && Reconnect !in r.log[|s.log|..]
      && Origins(r) == {} && r.retry == MaxConnectionRetries && r.queue == []
  {
    RunThree(s, Receive(nvs), Driver(WifiStaDisconnectedEvent(reason)), Receive(nvs2));
    var s1 := OnUserRequestedStaDisconnect(s.(queue := []), nvs);
    assert TaskStep(s, nvs) == s1;
    assert Apply(s, Receive(nvs)) == s1;
    var s2 := OnDriverEvent(s1, WifiStaDisconnectedEvent(reason));
    assert s2.log == s1.log && s2.queue == [StaDisconnected];
    assert Apply(s1, Driver(WifiStaDisconnectedEvent(reason))) == s2;
    var s3 := OnStaDisconnected(s2.(queue := []), nvs2);
    assert TaskStep(s2, nvs2) == s3;
    assert Apply(s2, Receive(nvs2)) == s3;
    assert IsFirstOrigin(s2.(queue := []), UserRequested);
    assert s3.log == s2.log + [Notify(WifiUserDisconnect)];
    assert s1.log == s.log + [Disconnect, ClearCreds];
  }

  /**
   * A user disconnect while an HTTP-initiated attempt is still in flight is
   * reported as a failed connection, and the user bit stays set.
   */
  lemma UserDisconnectDuringHttpAttempt(s: AppState, nvs: NvsResults, reason: int, nvs2: NvsResults)
    requires s.queue == [UserRequestedStaDisconnect] && !s.savedCredsBit && s.fromHttpBit
    ensures var r := Run(s, [Receive(nvs), Driver(WifiStaDisconnectedEvent(reason)), Receive(nvs2)]);
      && r.log == s.log + [Disconnect, ClearCreds, Notify(WifiConnectFailed)]
      && Origins(r) == {UserRequested}
  {
    RunThree(s, Receive(nvs), Driver(WifiStaDisconnectedEvent(reason)), Receive(nvs2));
    var s1 := OnUserRequestedStaDisconnect(s.(queue := []), nvs);
    assert Apply(s, Receive(nvs)) == s1;
    var s2 := OnDriverEvent(s1, WifiStaDisconnectedEvent(reason));
    assert Apply(s1, Driver(WifiStaDisconnectedEvent(reason))) == s2;
    var s3 := OnStaDisconnected(s2.(queue := []), nvs2);
    assert Apply(s2, Receive(nvs2)) == s3;
    assert IsFirstOrigin(s2, FromHttp);
  }

  /**
   * A user disconnect while a saved-credentials attempt is still in flight
   * clears the stored credentials a second time when the driver gives up,
   * sends no user-disconnect notice, and leaves the user bit set.
   */
  lemma UserDisconnectDuringSavedCredsAttempt(s: AppState, nvs: NvsResults, reason: int, nvs2: NvsResults)
    requires s.queue == [UserRequestedStaDisconnect] && s.savedCredsBit
    ensures var r := Run(s, [Receive(nvs), Driver(WifiStaDisconnectedEvent(reason)), Receive(nvs2)]);
      && r.log == s.log + [Disconnect, ClearCreds, ClearCreds]
      && Origins(r) == Origins(s) - {SavedCreds} + {UserRequested}
  {
    RunThree(s, Receive(nvs), Driver(WifiStaDisconnectedEvent(reason)), Receive(nvs2));
    var s1 := OnUserRequestedStaDisconnect(s.(queue := []), nvs);
    assert TaskStep(s, nvs) == s1;
    assert Apply(s, Receive(nvs)) == s1;
    var s2 := OnDriverEvent(s1, WifiStaDisconnectedEvent(reason));
    assert Apply(s1, Driver(WifiStaDisconnectedEvent(reason))) == s2;
    var s3 := OnStaDisconnected(s2.(queue := []), nvs2);
    assert TaskStep(s2, nvs2) == s3;
    assert Apply(s2, Receive(nvs2)) == s3;
    assert IsFirstOrigin(s2.(queue := []), SavedCreds);
    assert s3.log == s2.log + [ClearCreds];
    assert s1.log == s.log + [Disconnect, ClearCreds];
  }

  /**
   * An HTTP request handled while a saved-credentials attempt is still in
   * flight sets the from-http bit, but the connection that follows is not
   * persisted: GOT_IP tests only the saved-creds bit.
   */
  lemma HttpConnectionDuringSavedCredsAttemptNotSaved(s: AppState, nvs: NvsResults, nvs2: NvsResults)
    requires s.queue == [ConnectingFromHttpServer] && s.savedCredsBit
    ensures var r := Run(s, [Receive(nvs), Driver(IpStaGotIp), Receive(nvs2)]);
      && r.log == s.log + [ConnectSta(s.config), Notify(WifiConnectInit), Notify(WifiConnectSuccess)]
      && SaveCreds !in r.log[|s.log|..]
      && r.blobs == s.blobs && !r.savedCredsBit && !r.fromHttpBit
  {
    RunThree(s, Receive(nvs), Driver(IpStaGotIp), Receive(nvs2));
    var s1 := OnConnectingFromHttpServer(s.(queue := []));
    assert Apply(s, Receive(nvs)) == s1;
    var s2 := s1.(queue := [StaConnectedGotIp]);
    assert Apply(s1, Driver(IpStaGotIp)) == s2;
    var s3 := OnStaConnectedGotIp(s2.(queue := []), nvs2);
    assert Apply(s2, Receive(nvs2)) == s3;
    assert s3.log[|s.log|..] == [ConnectSta(s.config), Notify(WifiConnectInit), Notify(WifiConnectSuccess)];
  }

  /**
   * When an HTTP-started attempt overlapping a saved-credentials attempt is
   * given up, the saved-creds reaction wins: the stored credentials are
   * cleared, no CONNECT_FAILED is sent, and the from-http bit stays set.
   */
  lemma GiveUpDuringOverlappingAttempts(s: AppState, nvs: NvsResults)
    requires s.queue == [StaDisconnected] && s.savedCredsBit && s.fromHttpBit
    ensures var r := Run(s, [Receive(nvs)]);
      && r.log == s.log + [ClearCreds]
      && Notify(WifiConnectFailed) !in r.log[|s.log|..]
      && !r.savedCredsBit && r.fromHttpBit
      && r.blobs == Clear(s.blobs, nvs).blobs
  {
  }

  /**
   * An HTTP-initiated connection that gets an address persists the
   * configuration it used, so that the next load restores it.
   */
  lemma HttpConnectionPersistsCredentials(s: AppState, c: WifiConfig, loadNvs: NvsResults)
    requires s.queue == [ConnectingFromHttpServer] && s.config == Some(c) && !s.savedCredsBit
    requires loadNvs.open == EspOk && loadNvs.getSsid == EspOk && loadNvs.getPassword == EspOk
    ensures var r := Run(s, [Receive(AllOk), Driver(IpStaGotIp), Receive(AllOk)]);
      && r.log == s.log + [ConnectSta(Some(c)), Notify(WifiConnectInit), Notify(WifiConnectSuccess), SaveCreds]
      && !r.fromHttpBit && r.retry == 0
      && Load(r.config, r.blobs, loadNvs) == LoadResult(Some(c), c.ssid[0] != 0)
  {
    RunThree(s, Receive(AllOk), Driver(IpStaGotIp), Receive(AllOk));
    var s1 := OnConnectingFromHttpServer(s.(queue := []));
    assert Apply(s, Receive(AllOk)) == s1;
    var s2 := s1.(queue := [StaConnectedGotIp]);
    assert Apply(s1, Driver(IpStaGotIp)) == s2;
    var s3 := OnStaConnectedGotIp(s2.(queue := []), AllOk);
    assert Apply(s2, Receive(AllOk)) == s3;
    LoadAfterSave(c, s.blobs, Some(c), AllOk, loadNvs);
  }

  /**
   * Start-up: the task loads the saved credentials, connects with them when
   * the load succeeds, and starts the HTTP server exactly once.
   */
  lemma StartupSequence(blobs: Store, loadNvs: NvsResults, nvs: NvsResults)
    ensures var loaded := Load(Some(ZeroConfig), blobs, loadNvs);
      var r := Run(Initial(blobs), [Receive(loadNvs), Receive(nvs)]);
      && r.log == (if loaded.found then [ConnectSta(loaded.config)] else []) + [StartHttp]
      && r.savedCredsBit == loaded.found
      && r.queue == [] && r.retry == 0 && r.blobs == blobs
  {
    var s0 := Initial(blobs);
    RunThree(s0, Receive(loadNvs), Receive(nvs), Receive(nvs));
    var s1 := OnLoadSavedCredentials(s0.(queue := []), loadNvs);
    assert Apply(s0, Receive(loadNvs)) == s1;
    assert s1.queue == [StartHttpServer];
  }

  /**
   * The connection manager's globals: g_retry_number, the event group, the
   * message queue, and the configuration and credentials it reaches through
   * the credential store.
   */
  class WifiApp {
    var retryNumber: int
    var savedCredsBit: bool
    var fromHttpBit: bool
    var userDisconnectBit: bool
    var queue: seq<AppMsg>
    /** Commands issued to the driver, the HTTP server and its monitor, oldest first. */
    var log: seq<Command>
    const creds: CredStore

    function State(): AppState
      reads this, creds
    {
      AppState(retryNumber, savedCredsBit, fromHttpBit, userDisconnectBit, queue, creds.wifiConfig, creds.blobs, log)
    }

    ghost predicate Valid()
      reads this, creds
    {
      Inv(State())
    }

    /** wifi_app_start, followed by the task's first message to itself. */
    constructor (creds: CredStore)
      modifies creds
      ensures this.creds == creds
      ensures State() == Initial(old(creds.blobs))
      ensures Valid()
    {
      this.creds := creds;
      retryNumber := 0;
      savedCredsBit, fromHttpBit, userDisconnectBit := false, false, false;
      queue := [];
      log := [];
      new;
      creds.wifiConfig := Some(ZeroConfig);
      Send(LoadSavedCredentials);
    }

    /** wifi_app_send_message; the source blocks while the queue is full. */
    method Send(m: AppMsg)
      requires |queue| < QueueCapacity
      modifies this
      ensures State() == old(State()).(queue := old(queue) + [m])
    {
      queue := queue + [m];
    }

    /** wifi_app_connect_sta. */
    method ConnectStation()
      modifies this
      ensures State() == old(State()).(log := old(log) + [ConnectSta(creds.wifiConfig)])
    {
      log := log + [ConnectSta(creds.wifiConfig)];
    }

    /** http_server_monitor_send_message. */
    method NotifyMonitor(msg: HttpMsg)
      modifies this
      ensures State() == old(State()).(log := old(log) + [Notify(msg)])
    {
      log := log + [Notify(msg)];
    }

    /** wifi_app_event_handler. */
    method HandleEvent(e: DriverEvent)
      requires Valid()
      requires EventSends(State(), e) ==> |queue| < QueueCapacity
      modifies this
      ensures Valid()
      ensures State() == OnDriverEvent(old(State()), e)
    {
      match e
      case WifiStaDisconnectedEvent(_) =>
        if retryNumber < MaxConnectionRetries {
          log := log + [Reconnect];
          retryNumber := retryNumber + 1;
        } else {
          Send(StaDisconnected);
        }
      case IpStaGotIp =>
        Send(StaConnectedGotIp);
      case OtherEvent(_) =>
    }

    /** One iteration of wifi_app_task's loop. */
    method ReceiveAndHandle(nvs: NvsResults)
      requires Valid() && |queue| > 0
      modifies this, creds
      ensures Valid()
      ensures State() == TaskStep(old(State()), nvs)
    {
      var msg := queue[0];
      queue := queue[1..];
      match msg
      case LoadSavedCredentials =>
        var found := creds.LoadStaCreds(nvs);
        if found {
          ConnectStation();
          savedCredsBit := true;
        }
        Send(StartHttpServer);
      case StartHttpServer =>
        log := log + [StartHttp];
      case ConnectingFromHttpServer =>
        fromHttpBit := true;
        ConnectStation();
        retryNumber := 0;
        NotifyMonitor(WifiConnectInit);
      case StaConnectedGotIp =>
        NotifyMonitor(WifiConnectSuccess);
        var savedCreds, fromHttp := savedCredsBit, fromHttpBit;
        if savedCreds {
          savedCredsBit := false;
        } else {
          log := log + [SaveCreds];
          var err := creds.SaveStaCreds(nvs);
        }
        if fromHttp {
          fromHttpBit := false;
        }
      case UserRequestedStaDisconnect =>
        userDisconnectBit := true;
        retryNumber := MaxConnectionRetries;
        log := log + [Disconnect];
        log := log + [ClearCreds];
        var err := creds.ClearStaCreds(nvs);
      case StaDisconnected =>
        if savedCredsBit {
          savedCredsBit := false;
          log := log + [ClearCreds];
          var err := creds.ClearStaCreds(nvs);
        } else if fromHttpBit {
          fromHttpBit := false;
          NotifyMonitor(WifiConnectFailed);
        } else if userDisconnectBit {
          userDisconnectBit := false;
          NotifyMonitor(WifiUserDisconnect);
        }
      case UnknownMsg(_) =>
    }

    /**
     * The receive loop of wifi_app_task, for as many iterations as there
     * are NVS results, stopping early where the source would block on an
     * empty queue.
     */
    method TaskLoop(results: seq<NvsResults>) returns (handled: nat)
      requires Valid()
      modifies this, creds
      ensures Valid()
      ensures handled <= |results| && (handled < |results| ==> |queue| == 0)
      ensures State() == Run(old(State()), Receives(results))
    {
      handled := 0;
      while handled < |results| && |queue| > 0
        invariant Valid()
        invariant handled <= |results|
        invariant State() == Run(old(State()), Receives(results)[..handled])
      {
        ReceiveAndHandle(results[handled]);
        RunAppend(old(State()), Receives(results)[..handled], [Receive(results[handled])]);
        assert Receives(results)[..handled + 1] == Receives(results)[..handled] + [Receive(results[handled])];
        handled := handled + 1;
      }
      BlockedOrDone(State(), results, handled);
      RunAppend(old(State()), Receives(results)[..handled], Receives(results)[handled..]);
      assert Receives(results)[..handled] + Receives(results)[handled..] == Receives(results);
    }
  }

  lemma BlockedOrDone(s: AppState, results: seq<NvsResults>, handled: nat)
    requires handled <= |results|
    requires handled < |results| ==> |s.queue| == 0
    ensures Run(s, Receives(results)[handled..]) == s
  {
    assert Receives(results)[handled..] == Receives(results[handled..]);
    if handled < |results| {
      BlockedReceivesChangeNothing(s, results[handled..]);
    }
  }
}
