/**
 * One round of StartLocalForward, as functions of the configuration, the
 * console input and the answers of the SSH library. The class in program.dfy
 * runs the same steps in place and is proved to produce these results.
 */
module Forwarding {
  import opened Wrappers
  import Ports
  import ConsoleEx

  /** One entry of a host's "local_forward" list. */
  datatype ForwardConfig = ForwardConfig(
    description: string,
    localHost: string,
    localPort: int,          // 0: pick a free port when the forward starts
    remoteHost: string,
    remotePort: int,
    enabled: bool)

  /** One entry of "proxy_config"; None stands for a JSON value that is absent (null). */
  datatype ProxyConfig = ProxyConfig(
    description: string,
    host: string,
    port: int,
    privateKeyPath: Option<string>,
    passPhrase: Option<string>,
    userName: Option<string>,
    password: Option<string>,
    serverAliveInterval: int,              // -1: keep the library's keep-alive setting
    localForwards: Option<seq<ForwardConfig>>,
    enabled: bool)

  /** The two kinds of SSH.NET connection info the source builds. */
  datatype ConnectionInfo =
    | PasswordInfo(host: string, port: int, userName: Option<string>, password: Option<string>)
    | PrivateKeyInfo(host: string, port: int, userName: Option<string>, keyPath: string, passPhrase: Option<string>)

  /** Connection info for a host: password based exactly when no private key is configured. */
  function ConnectionInfoFor(c: ProxyConfig): ConnectionInfo {
    match c.privateKeyPath
    case None => PasswordInfo(c.host, c.port, c.userName, c.password)
    case Some(path) => PrivateKeyInfo(c.host, c.port, c.userName, path, c.passPhrase)
  }

  /**
   * Password-based connection info is built exactly when no private key is
   * configured. Under key authentication the password does not reach the
   * connection: the key file is opened with the passphrase, so a password
   * read at the prompt changes nothing that is sent.
   */
  lemma ConnectionInfoChoice(c: ProxyConfig, password: Option<string>)
    ensures ConnectionInfoFor(c).PasswordInfo? <==> c.privateKeyPath.None?
    ensures c.privateKeyPath.Some? ==>
      && ConnectionInfoFor(c.(password := password)) == ConnectionInfoFor(c)
      && ConnectionInfoFor(c).passPhrase == c.passPhrase
  {
  }

  /** The keep-alive interval set on the client, in seconds; None leaves the library default. */
  function KeepAlive(c: ProxyConfig): Option<int> {
    if c.serverAliveInterval != -1 then Some(c.serverAliveInterval) else None
  }

  /** C#'s unchecked conversion of an int to uint. */
  function ToUInt32(x: int): (r: nat)
    ensures r < 0x1_0000_0000
    ensures 0 <= x < 0x1_0000_0000 ==> r == x
    ensures x == -1 ==> r == 0xFFFF_FFFF
  {
    x % 0x1_0000_0000
  }

  /** The arguments of ForwardedPortLocal. */
  datatype ForwardRequest = ForwardRequest(localHost: string, localPort: nat, remoteHost: string, remotePort: nat)

  function RequestFor(f: ForwardConfig): ForwardRequest {
    ForwardRequest(f.localHost, ToUInt32(f.localPort), f.remoteHost, ToUInt32(f.remotePort))
  }

  /** A forwarded port added to a client; `index` is its position in the host's forward list. */
  datatype ActiveForward = ActiveForward(index: nat, request: ForwardRequest, started: bool)

  /** A connected SshClient of host number `host`, with the forwarded ports added to it. */
  datatype Client = Client(host: nat, info: ConnectionInfo, keepAlive: Option<int>, forwards: seq<ActiveForward>)

  /**
   * The SSH library, as answers to its calls: whether the connection-info and
   * private-key-file constructors accept their arguments, whether Connect
   * succeeds, whether Start binds a forwarded port, and the local port of
   * the TCP connection a connected client of a host holds to its server.
   */
  datatype Network = Network(
    accepts: ConnectionInfo -> bool,
    connects: (ConnectionInfo, Option<int>) -> bool,
    starts: (ConnectionInfo, ForwardRequest) -> bool,
    sourcePort: (nat, ConnectionInfo) -> int)

  /** Calls into the SSH library that the program makes, in order. */
  datatype Call =
    | Connect(host: nat, ok: bool)
    | Start(host: nat, forward: nat, request: ForwardRequest, ok: bool)
    | DisposeForward(host: nat, forward: nat)
    | DisposeClient(host: nat)

  /** The ports on which the given clients' started forwards listen. */
  function ListeningPorts(clients: seq<Client>): seq<int> {
    if clients == [] then []
    else ListeningPorts(clients[..|clients| - 1]) + StartedPorts(clients[|clients| - 1].forwards)
  }

  function StartedPorts(fs: seq<ActiveForward>): seq<int> {
    if fs == [] then []
    else StartedPorts(fs[..|fs| - 1]) + if fs[|fs| - 1].started then [fs[|fs| - 1].request.localPort] else []
  }

  /** The local ports of the given clients' connections to their servers. */
  function ConnectionPorts(clients: seq<Client>, net: Network): seq<int> {
    if clients == [] then []
    else
      var c := clients[|clients| - 1];
      ConnectionPorts(clients[..|clients| - 1], net) + [net.sourcePort(c.host, c.info)]
  }

  /**
   * What the operating system reports: other programs' ports, plus the
   * connections of this program's clients and the ports its started
   * forwards listen on.
   */
  function Tables(others: Ports.PortTables, clients: seq<Client>, net: Network): Ports.PortTables {
    Ports.PortTables(
      others.tcpConnections + ConnectionPorts(clients, net),
      others.tcpListeners + ListeningPorts(clients),
      others.udpListeners)
  }

  /** The ports of the round's own clients that the operating system reports as in use. */
  function OwnPorts(clients: seq<Client>, net: Network): seq<int> {
    ConnectionPorts(clients, net) + ListeningPorts(clients)
  }

  /** ReadLine on the remaining input: None at end of input, which consumes nothing. */
  function FirstLine(lines: seq<string>): Option<string> {
    if lines == [] then None else Some(lines[0])
  }

  function AfterFirstLine(lines: seq<string>): seq<string> {
    if lines == [] then [] else lines[1..]
  }

  // ---------------------------------------------------------------------
  // The forward loop of one connected host
  // ---------------------------------------------------------------------

  /** Indices, from k on, of the enabled forwards. */
  function EnabledFrom(fs: seq<ForwardConfig>, k: nat): (r: seq<nat>)
    decreases |fs| - k
    ensures forall m :: 0 <= m < |r| ==> k <= r[m] < |fs| && fs[r[m]].enabled
    ensures forall m, n :: 0 <= m < n < |r| ==> r[m] < r[n]
  {
    if k >= |fs| then []
    else (if fs[k].enabled then [k] else []) + EnabledFrom(fs, k + 1)
  }

  /** The filter misses no enabled forward from k on. */
  lemma {:induction false} EnabledFromComplete(fs: seq<ForwardConfig>, k: nat, j: nat)
    requires k <= j < |fs| && fs[j].enabled
    decreases j - k
    ensures j in EnabledFrom(fs, k)
  {
    if j > k {
      EnabledFromComplete(fs, k + 1, j);
    }
  }

  /** Two forward lists with the same enabled flags from k on have the same enabled indices. */
  lemma {:induction false} EnabledFromSameFlags(fs: seq<ForwardConfig>, gs: seq<ForwardConfig>, k: nat)
    requires |fs| == |gs|
    requires forall j :: k <= j < |fs| ==> fs[j].enabled == gs[j].enabled
    ensures EnabledFrom(fs, k) == EnabledFrom(gs, k)
    decreases |fs| - k
  {
    if k < |fs| {
      EnabledFromSameFlags(fs, gs, k + 1);
    }
  }

  /**
   * How a forward's configuration may change in a round: only LocalPort,
   * only from 0, and only to what the port scan returns.
   */
  predicate ForwardUpdated(f0: ForwardConfig, f1: ForwardConfig) {
    && f1 == f0.(localPort := f1.localPort)
    && (f0.localPort != 0 ==> f1.localPort == f0.localPort)
    && (f1.localPort != f0.localPort ==>
          f0.enabled && (f1.localPort == Ports.NotFound || Ports.DefaultStartPort <= f1.localPort <= Ports.MaxPort))
  }

  /**
   * The forwarded ports `added` to a client, given the enabled indices `en`
   * its forward loop had to visit and the forward list `fs` after the loop:
   * each is the next enabled forward, whose final LocalPort is not 0, with
   * the arguments of that forward, started as the library answered; all but
   * the last were started; fewer than all enabled forwards were added only
   * because the last one failed.
   */
  predicate ForwardsAdded(info: ConnectionInfo, en: seq<nat>, fs: seq<ForwardConfig>, added: seq<ActiveForward>, net: Network) {
    && (forall m :: 0 <= m < |en| ==> en[m] < |fs|)
    && |added| <= |en|
    && (forall m :: 0 <= m < |added| ==>
          && added[m].index == en[m]
          && fs[en[m]].localPort != 0
          && added[m].request == RequestFor(fs[en[m]])
          && added[m].started == net.starts(info, added[m].request))
    && (forall m :: 0 <= m < |added| - 1 ==> added[m].started)
    && (|added| < |en| ==> |added| > 0 && !added[|added| - 1].started)
  }

  /**
   * ForwardsAdded, together with the Start calls the loop made (`calls`, one
   * per added forward) and whether it ended by a failed Start (`failed`).
   */
  predicate ForwardsRun(i: nat, info: ConnectionInfo, en: seq<nat>, fs: seq<ForwardConfig>,
                        added: seq<ActiveForward>, calls: seq<Call>, failed: bool, net: Network)
  {
    && ForwardsAdded(info, en, fs, added, net)
    && |calls| == |added|
    && (forall m :: 0 <= m < |added| ==> calls[m] == Start(i, en[m], added[m].request, added[m].started))
    && (failed <==> (|added| > 0 && !added[|added| - 1].started))
    && (!failed ==> |added| == |en|)
  }

  /** The state the forward loop carries: the host's forward list, its client and the calls made. */
  datatype ForwardLoop = ForwardLoop(forwards: seq<ForwardConfig>, client: Client, trace: seq<Call>, failed: bool)

  /**
   * One enabled forward k of host i: a LocalPort of 0 is replaced by the
   * first free port of the default range; the forwarded port is added to
   * the client and started; a failed Start ends the loop.
   */
  function StartForward(k: nat, i: nat, st: ForwardLoop, done: seq<Client>, others: Ports.PortTables, net: Network): (r: ForwardLoop)
    requires k < |st.forwards| && st.forwards[k].enabled
    ensures |r.forwards| == |st.forwards| && r.forwards == st.forwards[k := r.forwards[k]]
    ensures ForwardUpdated(st.forwards[k], r.forwards[k])
    ensures var request := RequestFor(r.forwards[k]);
      var ok := net.starts(st.client.info, request);
      && r.client == st.client.(forwards := st.client.forwards + [ActiveForward(k, request, ok)])
      && r.trace == st.trace + [Start(i, k, request, ok)]
      && r.failed == !ok
  {
    var f := st.forwards[k];
    var port :=
      if f.localPort == 0
      then Ports.AvailablePort(Tables(others, done + [st.client], net), Ports.DefaultStartPort, Ports.DefaultEndPort)
      else f.localPort;
    var f' := f.(localPort := port);
    var request := RequestFor(f');
    var ok := net.starts(st.client.info, request);
    ForwardLoop(
      st.forwards[k := f'],
      st.client.(forwards := st.client.forwards + [ActiveForward(k, request, ok)]),
      st.trace + [Start(i, k, request, ok)],
      !ok)
  }

  /**
   * A LocalPort of 0 becomes the least port of the dynamic range that no
   * other program uses, that none of this round's clients, the current one
   * included, uses for its connection, and on which none of their forwarded
   * ports listens; or NotFound when there is none.
   */
  lemma FreshPortIsFree(k: nat, i: nat, st: ForwardLoop, done: seq<Client>, others: Ports.PortTables, net: Network)
    requires k < |st.forwards| && st.forwards[k].enabled && st.forwards[k].localPort == 0
    ensures var p := StartForward(k, i, st, done, others, net).forwards[k].localPort;
      var mine := OwnPorts(done + [st.client], net);
      && (p == Ports.NotFound || Ports.DefaultStartPort <= p <= Ports.MaxPort)
      && (p != Ports.NotFound ==> !Ports.Listed(others, p) && p !in mine)
      && (forall q :: Ports.DefaultStartPort <= q < p ==> Ports.Listed(others, q) || q in mine)
      && (p == Ports.NotFound <==>
            forall q :: Ports.DefaultStartPort <= q <= Ports.MaxPort ==> Ports.Listed(others, q) || q in mine)
  {
    var t := Tables(others, done + [st.client], net);
    var used := Ports.UsedPorts(t, Ports.DefaultStartPort, Ports.DefaultEndPort);
    var p := StartForward(k, i, st, done, others, net).forwards[k].localPort;
    assert p == Ports.FirstFree(used, Ports.DefaultStartPort);
    forall q ensures Ports.Listed(t, q) <==> Ports.Listed(others, q) || q in OwnPorts(done + [st.client], net) {
    }
  }

  /**
   * A forward the loop reaches leaves it with a LocalPort other than 0:
   * a configured port is kept and a 0 becomes the scan's result, which is
   * never 0; so a later round does not scan again for it.
   */
  lemma StartForwardFixesPort(k: nat, i: nat, st: ForwardLoop, done: seq<Client>, others: Ports.PortTables, net: Network)
    requires k < |st.forwards| && st.forwards[k].enabled
    ensures var f := StartForward(k, i, st, done, others, net).forwards[k];
      && f.localPort != 0
      && (st.forwards[k].localPort != 0 ==> f.localPort == st.forwards[k].localPort)
  {
    Ports.DefaultRangeResult(Tables(others, done + [st.client], net));
  }

  /**
   * The foreach over the enabled forwards of host i, from position k on. A
   * LocalPort of 0 is replaced by a free port; the forwarded port is added
   * to the client and started; the first Start that fails throws out of the
   * loop, so the forwards after it are not attempted.
   */
  function ForwardsFrom(k: nat, i: nat, st: ForwardLoop, done: seq<Client>, others: Ports.PortTables, net: Network): (r: ForwardLoop)
    requires k <= |st.forwards| && !st.failed
    decreases |st.forwards| - k
    ensures |r.forwards| == |st.forwards|
    ensures forall j :: 0 <= j < k ==> r.forwards[j] == st.forwards[j]
    ensures forall j :: k <= j < |st.forwards| ==> ForwardUpdated(st.forwards[j], r.forwards[j])
    ensures r.client == st.client.(forwards := r.client.forwards)
    ensures |st.client.forwards| <= |r.client.forwards| && r.client.forwards[..|st.client.forwards|] == st.client.forwards
    ensures |st.trace| <= |r.trace| && r.trace[..|st.trace|] == st.trace
  {
    if k == |st.forwards| then st
    else if !st.forwards[k].enabled then ForwardsFrom(k + 1, i, st, done, others, net)
    else
      var st' := StartForward(k, i, st, done, others, net);
      if st'.failed then st' else ForwardsFrom(k + 1, i, st', done, others, net)
  }

  /**
   * From state st at position k to state r: if the loop ended in a failed
   * Start, that Start was for a forward at k or later, and every forward
   * after it is as it was in st.
   */
  predicate StoppedAt(k: nat, st: ForwardLoop, r: ForwardLoop) {
    r.failed ==>
      && |st.client.forwards| < |r.client.forwards| && |r.forwards| == |st.forwards|
      && var last := r.client.forwards[|r.client.forwards| - 1].index;
         && k <= last < |st.forwards|
         && forall j :: last < j < |st.forwards| ==> r.forwards[j] == st.forwards[j]
  }

  lemma StoppedCompose(k: nat, st: ForwardLoop, st': ForwardLoop, r: ForwardLoop)
    requires k < |st.forwards| && |st'.forwards| == |st.forwards| && st'.forwards == st.forwards[k := st'.forwards[k]]
    requires |st'.client.forwards| == |st.client.forwards| + 1
    requires StoppedAt(k + 1, st', r)
    ensures StoppedAt(k, st, r)
  {
    if r.failed {
      var last := r.client.forwards[|r.client.forwards| - 1].index;
      forall j | last < j < |st.forwards|
        ensures r.forwards[j] == st.forwards[j]
      {
        assert st'.forwards[j] == st.forwards[j];
      }
    }
  }

  /**
   * A Start that fails throws out of the loop: the forwards after the one
   * that failed are not reached, so a LocalPort of 0 among them stays 0
   * and no port scan runs for them.
   */
  lemma {:induction false} ForwardsFromStopsAtFailure(k: nat, i: nat, st: ForwardLoop, done: seq<Client>,
                                                      others: Ports.PortTables, net: Network)
    requires k <= |st.forwards| && !st.failed
    decreases |st.forwards| - k
    ensures StoppedAt(k, st, ForwardsFrom(k, i, st, done, others, net))
  {
    if k < |st.forwards| {
      if !st.forwards[k].enabled {
        ForwardsFromStopsAtFailure(k + 1, i, st, done, others, net);
      } else {
        var st' := StartForward(k, i, st, done, others, net);
        if !st'.failed {
          ForwardsFromStopsAtFailure(k + 1, i, st', done, others, net);
          StoppedCompose(k, st, st', ForwardsFrom(k + 1, i, st', done, others, net));
        }
      }
    }
  }

  /** What follows a prefix p of a, when p + [x] is also a prefix of a. */
  lemma SliceAfter<T>(a: seq<T>, p: seq<T>, x: T)
    requires |p| + 1 <= |a| && a[..|p| + 1] == p + [x]
    ensures a[|p|..] == [x] + a[|p| + 1..]
  {
    assert a[|p|] == x;
  }

  /** A started forward in front of a run of the loop is again a run. */
  lemma ForwardsRunCons(i: nat, info: ConnectionInfo, k: nat, en: seq<nat>, fs: seq<ForwardConfig>, first: ActiveForward,
                        added: seq<ActiveForward>, calls: seq<Call>, failed: bool, net: Network)
    requires ForwardsRun(i, info, en, fs, added, calls, failed, net)
    requires k < |fs| && first.index == k && fs[k].localPort != 0 && first.request == RequestFor(fs[k])
    requires first.started && net.starts(info, first.request)
    ensures ForwardsRun(i, info, [k] + en, fs, [first] + added, [Start(i, k, first.request, true)] + calls, failed, net)
  {
    var en', added', calls' := [k] + en, [first] + added, [Start(i, k, first.request, true)] + calls;
    forall m | 0 <= m < |added'|
      ensures && added'[m].index == en'[m]
              && fs[en'[m]].localPort != 0
              && added'[m].request == RequestFor(fs[en'[m]])
              && added'[m].started == net.starts(info, added'[m].request)
              && calls'[m] == Start(i, en'[m], added'[m].request, added'[m].started)
    {
      if m > 0 {
        assert added'[m] == added[m - 1] && calls'[m] == calls[m - 1] && en'[m] == en[m - 1];
      }
    }
    forall m | 0 <= m < |added'| - 1
      ensures added'[m].started
    {
      if m > 0 {
        assert added'[m] == added[m - 1];
      }
    }
  }

  /** The forward loop visits the enabled forwards in order and stops at the first failed Start. */
  lemma {:induction false} ForwardsFromRun(k: nat, i: nat, st: ForwardLoop, done: seq<Client>, others: Ports.PortTables, net: Network)
    requires k <= |st.forwards| && !st.failed
    decreases |st.forwards| - k, 2
    ensures var r := ForwardsFrom(k, i, st, done, others, net);
      ForwardsRun(i, st.client.info, EnabledFrom(st.forwards, k), r.forwards,
                  r.client.forwards[|st.client.forwards|..], r.trace[|st.trace|..], r.failed, net)
  {
    if k < |st.forwards| && !st.forwards[k].enabled {
      var r := ForwardsFrom(k, i, st, done, others, net);
      assert EnabledFrom(st.forwards, k) == EnabledFrom(st.forwards, k + 1);
      assert r == ForwardsFrom(k + 1, i, st, done, others, net);
      ForwardsFromRun(k + 1, i, st, done, others, net);
    } else if k < |st.forwards| {
      ForwardsFromRunStarted(k, i, st, done, others, net);
    }
  }

  /** The case of ForwardsFromRun where forward k is enabled. */
  lemma {:induction false} ForwardsFromRunStarted(k: nat, i: nat, st: ForwardLoop, done: seq<Client>, others: Ports.PortTables, net: Network)
    requires k < |st.forwards| && !st.failed && st.forwards[k].enabled
    decreases |st.forwards| - k, 1
    ensures var r := ForwardsFrom(k, i, st, done, others, net);
      ForwardsRun(i, st.client.info, EnabledFrom(st.forwards, k), r.forwards,
                  r.client.forwards[|st.client.forwards|..], r.trace[|st.trace|..], r.failed, net)
  {
    var st' := StartForward(k, i, st, done, others, net);
    if st'.failed {
      var r := ForwardsFrom(k, i, st, done, others, net);
      assert r == st';
      StartForwardFixesPort(k, i, st, done, others, net);
      assert EnabledFrom(st.forwards, k) == [k] + EnabledFrom(st.forwards, k + 1);
      assert r.client.forwards[|st.client.forwards|..] == [ActiveForward(k, RequestFor(st'.forwards[k]), false)];
      assert r.trace[|st.trace|..] == [Start(i, k, RequestFor(st'.forwards[k]), false)];
    } else {
      ForwardsFromRunContinued(k, i, st, st', done, others, net);
    }
  }

  /** The case of ForwardsFromRun where forward k is enabled and started. */
  lemma {:induction false} ForwardsFromRunContinued(k: nat, i: nat, st: ForwardLoop, st': ForwardLoop, done: seq<Client>, others: Ports.PortTables, net: Network)
    requires k < |st.forwards| && !st.failed && st.forwards[k].enabled
    requires st' == StartForward(k, i, st, done, others, net) && !st'.failed
    decreases |st.forwards| - k, 0
    ensures var r := ForwardsFrom(k, i, st, done, others, net);
      ForwardsRun(i, st.client.info, EnabledFrom(st.forwards, k), r.forwards,
                  r.client.forwards[|st.client.forwards|..], r.trace[|st.trace|..], r.failed, net)
  {
    var r := ForwardsFrom(k + 1, i, st', done, others, net);
    assert r == ForwardsFrom(k, i, st, done, others, net);
    var request := RequestFor(st'.forwards[k]);
    var first := ActiveForward(k, request, true);
    assert st'.client.forwards == st.client.forwards + [first];
    assert st'.trace == st.trace + [Start(i, k, request, true)];
    assert st'.client.info == st.client.info;
    assert r.forwards[k] == st'.forwards[k];
    StartForwardFixesPort(k, i, st, done, others, net);
    ForwardsFromRun(k + 1, i, st', done, others, net);
    EnabledFromSameFlags(st.forwards, st'.forwards, k + 1);
    var added' := r.client.forwards[|st'.client.forwards|..];
    var calls' := r.trace[|st'.trace|..];
    SliceAfter(r.client.forwards, st.client.forwards, first);
    SliceAfter(r.trace, st.trace, Start(i, k, request, true));
    ForwardsRunCons(i, st.client.info, k, EnabledFrom(st.forwards, k + 1), r.forwards, first, added', calls', r.failed, net);
    assert EnabledFrom(st.forwards, k) == [k] + EnabledFrom(st.forwards, k + 1);
  }

  /** The forward lists of a host before and after a round: each forward updated as ForwardUpdated allows. */
  predicate ForwardsUpdated(fs0: seq<ForwardConfig>, fs1: seq<ForwardConfig>) {
    |fs1| == |fs0| && forall k :: 0 <= k < |fs0| ==> ForwardUpdated(fs0[k], fs1[k])
  }

  /** A missing forward list stays missing; a present one is updated forward by forward. */
  predicate LocalForwardsUpdated(o0: Option<seq<ForwardConfig>>, o1: Option<seq<ForwardConfig>>) {
    match o0
    case None => o1.None?
    case Some(fs) => o1.Some? && ForwardsUpdated(fs, o1.value)
  }

  // ---------------------------------------------------------------------
  // One host
  // ---------------------------------------------------------------------

  /** Everything one round reads and changes. */
  datatype RoundState = RoundState(
    configs: seq<ProxyConfig>,
    lines: seq<string>,             // remaining console lines
    keys: seq<ConsoleEx.KeyInfo>,   // remaining key presses
    clients: seq<Client>,           // the round's client list so far
    trace: seq<Call>)

  /** After one host: go on with the next, or an exception has left StartLocalForward. */
  datatype HostStep = Continue(s: RoundState) | Abort(s: RoundState)

  /** Whether host i must be asked for a password: key authentication without one. */
  predicate NeedsPassword(c: ProxyConfig) {
    c.privateKeyPath.Some? && c.password.None?
  }

  /**
   * How a host's configuration may change in a round: a missing user name of
   * an enabled host is filled in, a missing password of an enabled host
   * under key authentication is set, and the forwards are updated; nothing
   * else changes, and a disabled host does not change at all.
   */
  predicate ConfigUpdated(c0: ProxyConfig, c1: ProxyConfig) {
    && c1 == c0.(userName := c1.userName, password := c1.password, localForwards := c1.localForwards)
    && (c1.userName != c0.userName ==> c0.enabled && c0.userName.None?)
    && (c1.password != c0.password ==> c0.enabled && NeedsPassword(c0) && c1.password.Some?)
    && (c1.localForwards != c0.localForwards ==> c0.enabled)
    && LocalForwardsUpdated(c0.localForwards, c1.localForwards)
  }

  /** A configuration left alone is a ConfigUpdated step. */
  lemma UnchangedIsUpdated(c: ProxyConfig)
    ensures ConfigUpdated(c, c)
  {
    if c.localForwards.Some? {
      assert ForwardsUpdated(c.localForwards.value, c.localForwards.value);
    }
  }

  /** x is what remains of a once some of its first elements are consumed. */
  predicate IsSuffix<T(==)>(x: seq<T>, a: seq<T>) {
    |x| <= |a| && a[|a| - |x|..] == x
  }

  /**
   * The try block for host i, whose credentials are resolved: build the
   * connection info (an exception here is outside the try), connect, and
   * on success add the client and run its forwards.
   */
  function ConnectHost(i: nat, s: RoundState, others: Ports.PortTables, net: Network): (r: HostStep)
    requires i < |s.configs|
    ensures |r.s.configs| == |s.configs|
    ensures r.s.configs == s.configs[i := s.configs[i].(localForwards := r.s.configs[i].localForwards)]
    ensures LocalForwardsUpdated(s.configs[i].localForwards, r.s.configs[i].localForwards)
    ensures r.s.lines == s.lines && r.s.keys == s.keys
    ensures s.clients <= r.s.clients && |r.s.clients| <= |s.clients| + 1
    ensures s.trace <= r.s.trace
    ensures r.Abort? <==> !net.accepts(ConnectionInfoFor(s.configs[i]))
    ensures r.Abort? ==> r.s == s
    ensures r.Continue? && !net.connects(ConnectionInfoFor(s.configs[i]), KeepAlive(s.configs[i])) ==>
      r.s == s.(trace := s.trace + [Connect(i, false)])
  {
    var c := s.configs[i];
    var info := ConnectionInfoFor(c);
    if !net.accepts(info) then Abort(s)
    else
      var ok := net.connects(info, KeepAlive(c));
      var trace := s.trace + [Connect(i, ok)];
      if !ok then Continue(s.(trace := trace))
      else
        var client := Client(i, info, KeepAlive(c), []);
        match c.localForwards
        case None =>
          // enumerating a missing list throws inside the try: the client stays
          Continue(s.(clients := s.clients + [client], trace := trace))
        case Some(fs) =>
          var l := ForwardsFrom(0, i, ForwardLoop(fs, client, trace, false), s.clients, others, net);
          Continue(s.(configs := s.configs[i := c.(localForwards := Some(l.forwards))],
                      clients := s.clients + [l.client],
                      trace := l.trace))
  }

  /** The user-name prompt: a missing user name of host i is read from the next console line. */
  function PromptUserName(i: nat, s: RoundState): (s1: RoundState)
    requires i < |s.configs|
    ensures |s1.configs| == |s.configs|
    ensures s1 == s.(configs := s.configs[i := s1.configs[i]], lines := s1.lines)
    ensures s1.configs[i] == s.configs[i].(userName := s1.configs[i].userName)
    ensures s.configs[i].userName.Some? ==> s1 == s
    ensures s.configs[i].userName.None? ==> s1.configs[i].userName == FirstLine(s.lines) && s1.lines == AfterFirstLine(s.lines)
  {
    var c := s.configs[i];
    if c.userName.None?
    then s.(configs := s.configs[i := c.(userName := FirstLine(s.lines))], lines := AfterFirstLine(s.lines))
    else s
  }

  /**
   * The password prompt under key authentication: the password read is
   * written back into the configuration. None when the key stream ends
   * before Enter, which is an exception that leaves the round.
   */
  function PromptPassword(i: nat, s: RoundState): (s1: Option<RoundState>)
    requires i < |s.configs|
    ensures s1.Some? ==> |s1.value.configs| == |s.configs|
    ensures s1.Some? ==> s1.value == s.(configs := s.configs[i := s1.value.configs[i]], keys := s1.value.keys)
    ensures s1.Some? ==> s1.value.configs[i] == s.configs[i].(password := s1.value.configs[i].password)
    ensures s1.Some? && s1.value.configs[i].password != s.configs[i].password ==>
      NeedsPassword(s.configs[i]) && s1.value.configs[i].password.Some?
    ensures s1.Some? ==> IsSuffix(s1.value.keys, s.keys) && !NeedsPassword(s1.value.configs[i])
    ensures !NeedsPassword(s.configs[i]) ==> s1 == Some(s)
    ensures NeedsPassword(s.configs[i]) ==> (s1.None? <==> ConsoleEx.FirstEnter(s.keys).None?)
    ensures NeedsPassword(s.configs[i]) && ConsoleEx.FirstEnter(s.keys).Some? ==>
      var e := ConsoleEx.FirstEnter(s.keys).value;
      s1 == Some(s.(configs := s.configs[i := s.configs[i].(password := Some(ConsoleEx.Typed(s.keys[..e])))],
                    keys := s.keys[e + 1..]))
  {
    var c := s.configs[i];
    if NeedsPassword(c) then
      match ConsoleEx.PasswordRead(s.keys)
      case None => None
      case Some((password, consumed)) =>
        Some(s.(configs := s.configs[i := c.(password := Some(password))], keys := s.keys[consumed..]))
    else Some(s)
  }

  /**
   * One iteration of the host loop: skip a disabled host; prompt for a
   * missing user name and, under key authentication, a missing password,
   * writing the answers back into the configuration; then connect.
   */
  function ProcessHost(i: nat, s: RoundState, others: Ports.PortTables, net: Network): (r: HostStep)
    requires i < |s.configs|
    ensures |r.s.configs| == |s.configs|
  {
    if !s.configs[i].enabled then Continue(s)
    else
      var s1 := PromptUserName(i, s);
      match PromptPassword(i, s1)
      case None => Abort(s1.(keys := []))
      case Some(s2) => ConnectHost(i, s2, others, net)
  }

  /** Whether a round ran over every host or an exception left it. */
  datatype RoundOutcome = Finished(s: RoundState) | Aborted(s: RoundState)

  /** The host loop of StartLocalForward from host i on. */
  function RoundFrom(i: nat, s: RoundState, others: Ports.PortTables, net: Network): (r: RoundOutcome)
    requires i <= |s.configs|
    decreases |s.configs| - i
    ensures |r.s.configs| == |s.configs|
  {
    if i == |s.configs| then Finished(s)
    else match ProcessHost(i, s, others, net)
      case Continue(s') => RoundFrom(i + 1, s', others, net)
      case Abort(s') => Aborted(s')
  }

  /**
   * What one iteration of the host loop may change: only host i's
   * configuration, as ConfigUpdated allows; the console input only shrinks;
   * calls and at most one client are appended.
   */
  predicate HostShape(i: nat, s: RoundState, t: RoundState) {
    && i < |s.configs| && |t.configs| == |s.configs|
    && (forall j :: 0 <= j < |s.configs| && j != i ==> t.configs[j] == s.configs[j])
    && ConfigUpdated(s.configs[i], t.configs[i])
    && IsSuffix(t.lines, s.lines) && IsSuffix(t.keys, s.keys)
    && s.clients <= t.clients && |t.clients| <= |s.clients| + 1
    && s.trace <= t.trace
  }

  /** The three updates of an enabled host's configuration in one iteration make a ConfigUpdated step. */
  lemma CredentialsThenForwards(c0: ProxyConfig, c1: ProxyConfig, c2: ProxyConfig, c3: ProxyConfig)
    requires c0.enabled
    requires c1 == c0.(userName := c1.userName) && (c1.userName != c0.userName ==> c0.userName.None?)
    requires c2 == c1.(password := c2.password) && (c2.password != c1.password ==> NeedsPassword(c1) && c2.password.Some?)
    requires c3 == c2.(localForwards := c3.localForwards) && LocalForwardsUpdated(c2.localForwards, c3.localForwards)
    ensures ConfigUpdated(c0, c3)
  {
  }

  /** Three single-index updates at i leave every other configuration alone. */
  lemma OthersUnchangedThrough(i: nat, a: seq<ProxyConfig>, b: seq<ProxyConfig>, c: seq<ProxyConfig>, d: seq<ProxyConfig>)
    requires i < |a| && |b| == |a| && |c| == |a| && |d| == |a|
    requires b == a[i := b[i]] && c == b[i := c[i]] && d == c[i := d[i]]
    ensures |d| == |a| && forall j :: 0 <= j < |a| && j != i ==> d[j] == a[j]
  {
  }

  lemma ProcessHostShape(i: nat, s: RoundState, others: Ports.PortTables, net: Network)
    requires i < |s.configs|
    ensures HostShape(i, s, ProcessHost(i, s, others, net).s)
    ensures !s.configs[i].enabled ==> ProcessHost(i, s, others, net) == Continue(s)
  {
    if s.configs[i].enabled {
      var s1 := PromptUserName(i, s);
      match PromptPassword(i, s1)
      case None =>
        assert ProcessHost(i, s, others, net).s == s1.(keys := []);
        assert HostShape(i, s, s1.(keys := []));
      case Some(s2) =>
        var t := ConnectHost(i, s2, others, net).s;
        assert ProcessHost(i, s, others, net).s == t;
        CredentialsThenForwards(s.configs[i], s1.configs[i], s2.configs[i], t.configs[i]);
        OthersUnchangedThrough(i, s.configs, s1.configs, s2.configs, t.configs);
        assert HostShape(i, s, t);
    }
  }

  /**
   * What the host loop from host i on may change: the configurations of
   * hosts i and above, as ConfigUpdated allows; the console input only
   * shrinks; calls and clients are appended.
   */
  predicate RoundShape(i: nat, s: RoundState, t: RoundState) {
    && |t.configs| == |s.configs|
    && (forall j :: 0 <= j < i && j < |s.configs| ==> t.configs[j] == s.configs[j])
    && (forall j :: i <= j < |s.configs| ==> ConfigUpdated(s.configs[j], t.configs[j]))
    && IsSuffix(t.lines, s.lines) && IsSuffix(t.keys, s.keys)
    && s.clients <= t.clients && s.trace <= t.trace
  }

  lemma HostShapeIsRoundShape(i: nat, s: RoundState, t: RoundState)
    requires HostShape(i, s, t)
    ensures RoundShape(i, s, t)
  {
    forall j | i <= j < |s.configs|
      ensures ConfigUpdated(s.configs[j], t.configs[j])
    {
      if j != i {
        UnchangedIsUpdated(s.configs[j]);
      }
    }
  }

  lemma ShapeCompose(i: nat, s: RoundState, s': RoundState, t: RoundState)
    requires HostShape(i, s, s') && RoundShape(i + 1, s', t)
    ensures RoundShape(i, s, t)
  {
  }

  lemma {:induction false} RoundFromShape(i: nat, s: RoundState, others: Ports.PortTables, net: Network)
    requires i <= |s.configs|
    decreases |s.configs| - i
    ensures RoundShape(i, s, RoundFrom(i, s, others, net).s)
  {
    if i < |s.configs| {
      var h := ProcessHost(i, s, others, net);
      ProcessHostShape(i, s, others, net);
      if h.Continue? {
        var t := RoundFrom(i + 1, h.s, others, net).s;
        assert RoundFrom(i, s, others, net).s == t;
        RoundFromShape(i + 1, h.s, others, net);
        ShapeCompose(i, s, h.s, t);
      } else {
        assert RoundFrom(i, s, others, net).s == h.s;
        HostShapeIsRoundShape(i, s, h.s);
      }
    }
  }

  // ---------------------------------------------------------------------
  // What a round connects and starts
  // ---------------------------------------------------------------------

  /** The hosts of the successful Connect calls, in order. */
  function ConnectedHosts(calls: seq<Call>): seq<nat> {
    if calls == [] then []
    else
      var last := calls[|calls| - 1];
      ConnectedHosts(calls[..|calls| - 1]) + if last.Connect? && last.ok then [last.host] else []
  }

  /** The hosts of the given clients, in order. */
  function ClientHosts(clients: seq<Client>): seq<nat> {
    if clients == [] then [] else ClientHosts(clients[..|clients| - 1]) + [clients[|clients| - 1].host]
  }

  lemma {:induction false} ConnectedHostsAppend(a: seq<Call>, b: seq<Call>)
    ensures ConnectedHosts(a + b) == ConnectedHosts(a) + ConnectedHosts(b)
    decreases |b|
  {
    if b != [] {
      assert (a + b)[..|a + b| - 1] == a + b[..|b| - 1];
      ConnectedHostsAppend(a, b[..|b| - 1]);
    } else {
      assert a + b == a;
    }
  }

  lemma {:induction false} ClientHostsAppend(a: seq<Client>, b: seq<Client>)
    ensures ClientHosts(a + b) == ClientHosts(a) + ClientHosts(b)
    decreases |b|
  {
    if b != [] {
      assert (a + b)[..|a + b| - 1] == a + b[..|b| - 1];
      ClientHostsAppend(a, b[..|b| - 1]);
    } else {
      assert a + b == a;
    }
  }

  /** Start calls connect nothing. */
  lemma {:induction false} StartsConnectNothing(calls: seq<Call>)
    requires forall m :: 0 <= m < |calls| ==> calls[m].Start?
    ensures ConnectedHosts(calls) == []
    decreases |calls|
  {
    if calls != [] {
      StartsConnectNothing(calls[..|calls| - 1]);
    }
  }

  /** Whether a call concerns the enabled host c and, for a Start, one of its enabled forwards. */
  predicate AttemptedOn(c: ProxyConfig, call: Call) {
    match call
    case Connect(_, _) => c.enabled
    case Start(_, k, _, _) =>
      c.enabled && c.localForwards.Some? && k < |c.localForwards.value| && c.localForwards.value[k].enabled
    case _ => false
  }

  /**
   * A connected client of the enabled host c: its connection info and
   * keep-alive are the host's, the library accepted and connected it, and
   * its forwarded ports are the ones the forward loop added.
   */
  predicate ClientOf(c: ProxyConfig, client: Client, net: Network) {
    && c.enabled
    && client.info == ConnectionInfoFor(c)
    && client.keepAlive == KeepAlive(c)
    && net.accepts(client.info)
    && net.connects(client.info, client.keepAlive)
    && match c.localForwards
       case None => client.forwards == []
       case Some(fs) => ForwardsAdded(client.info, EnabledFrom(fs, 0), fs, client.forwards, net)
  }

  /** The hosts from i on that are enabled and that the library connects, in order. */
  function ConnectingHosts(configs: seq<ProxyConfig>, i: nat, net: Network): seq<nat>
    decreases |configs| - i
  {
    if i >= |configs| then []
    else
      var c := configs[i];
      (if c.enabled && net.connects(ConnectionInfoFor(c), KeepAlive(c)) then [i] else [])
      + ConnectingHosts(configs, i + 1, net)
  }

  /**
   * The connecting hosts are, in strictly increasing order, exactly the
   * hosts from i on that are enabled and that the library connects.
   */
  lemma {:induction false} ConnectingHostsAscending(configs: seq<ProxyConfig>, i: nat, net: Network)
    decreases |configs| - i
    ensures forall m :: 0 <= m < |ConnectingHosts(configs, i, net)| ==>
      && i <= ConnectingHosts(configs, i, net)[m] < |configs|
      && configs[ConnectingHosts(configs, i, net)[m]].enabled
      && net.connects(ConnectionInfoFor(configs[ConnectingHosts(configs, i, net)[m]]),
                      KeepAlive(configs[ConnectingHosts(configs, i, net)[m]]))
    ensures forall j :: i <= j < |configs| && configs[j].enabled && net.connects(ConnectionInfoFor(configs[j]), KeepAlive(configs[j])) ==>
      j in ConnectingHosts(configs, i, net)
    ensures forall m, n :: 0 <= m < n < |ConnectingHosts(configs, i, net)| ==>
      ConnectingHosts(configs, i, net)[m] < ConnectingHosts(configs, i, net)[n]
  {
    if i < |configs| {
      ConnectingHostsAscending(configs, i + 1, net);
      var c := configs[i];
      var head: seq<nat> := if c.enabled && net.connects(ConnectionInfoFor(c), KeepAlive(c)) then [i] else [];
      var rest := ConnectingHosts(configs, i + 1, net);
      assert ConnectingHosts(configs, i, net) == head + rest;
      forall m, n | 0 <= m < n < |head + rest|
        ensures (head + rest)[m] < (head + rest)[n]
      {
        assert (head + rest)[n] == rest[n - |head|];
        if m >= |head| {
          assert (head + rest)[m] == rest[m - |head|];
        }
      }
      forall m | 0 <= m < |head + rest|
        ensures var h := (head + rest)[m];
          i <= h < |configs| && configs[h].enabled && net.connects(ConnectionInfoFor(configs[h]), KeepAlive(configs[h]))
      {
        if m >= |head| {
          assert (head + rest)[m] == rest[m - |head|];
        }
      }
      forall j | i <= j < |configs| && configs[j].enabled && net.connects(ConnectionInfoFor(configs[j]), KeepAlive(configs[j]))
        ensures j in head + rest
      {
        if j > i {
          assert j in rest;
        }
      }
    }
  }

  /**
   * What one connected host adds: the Connect call and the Start calls of
   * its enabled forwards, and exactly one client, as ClientOf describes.
   */
  lemma ConnectHostCalls(i: nat, s: RoundState, others: Ports.PortTables, net: Network)
    requires i < |s.configs| && s.configs[i].enabled
    ensures var r := ConnectHost(i, s, others, net); var t := r.s;
      && (forall m :: |s.trace| <= m < |t.trace| ==> t.trace[m].host == i && AttemptedOn(s.configs[i], t.trace[m]))
      && ConnectedHosts(t.trace[|s.trace|..]) == ClientHosts(t.clients[|s.clients|..])
      && (|t.clients| == |s.clients| + 1 ==> t.clients[|s.clients|].host == i && ClientOf(t.configs[i], t.clients[|s.clients|], net))
      && (r.Continue? ==> (|t.clients| == |s.clients| + 1 <==> net.connects(ConnectionInfoFor(t.configs[i]), KeepAlive(t.configs[i]))))
      && (r.Continue? ==> net.accepts(ConnectionInfoFor(t.configs[i])))
  {
    var c := s.configs[i];
    var info := ConnectionInfoFor(c);
    if net.accepts(info) {
      var ok := net.connects(info, KeepAlive(c));
      var trace := s.trace + [Connect(i, ok)];
      var t := ConnectHost(i, s, others, net).s;
      assert ConnectedHosts([Connect(i, ok)]) == if ok then [i] else [];
      if !ok {
        assert t.trace[|s.trace|..] == [Connect(i, ok)];
      } else if c.localForwards.None? {
        assert t.trace[|s.trace|..] == [Connect(i, ok)];
        assert t.clients[|s.clients|..] == [Client(i, info, KeepAlive(c), [])];
      } else {
        ConnectHostForwards(i, s, others, net);
      }
    }
  }

  /** The calls of a forward loop over the enabled forwards of host c are Start calls on them. */
  lemma RunCallsAttempted(i: nat, c: ProxyConfig, info: ConnectionInfo, fs: seq<ForwardConfig>,
                          added: seq<ActiveForward>, calls: seq<Call>, failed: bool, net: Network)
    requires c.enabled && c.localForwards.Some?
    requires ForwardsRun(i, info, EnabledFrom(c.localForwards.value, 0), fs, added, calls, failed, net)
    ensures forall m :: 0 <= m < |calls| ==> calls[m].Start? && calls[m].host == i && AttemptedOn(c, calls[m])
  {
  }

  /** A connected client whose forwards a forward loop added is a client of the updated host. */
  lemma LoopClientOf(c: ProxyConfig, fs: seq<ForwardConfig>, client: Client, i: nat, calls: seq<Call>, failed: bool, net: Network)
    requires c.enabled && c.localForwards.Some? && ForwardsUpdated(c.localForwards.value, fs)
    requires client.info == ConnectionInfoFor(c) && client.keepAlive == KeepAlive(c)
    requires net.accepts(client.info) && net.connects(client.info, client.keepAlive)
    requires ForwardsRun(i, client.info, EnabledFrom(c.localForwards.value, 0), fs, client.forwards, calls, failed, net)
    ensures ClientOf(c.(localForwards := Some(fs)), client, net)
  {
    EnabledFromSameFlags(c.localForwards.value, fs, 0);
  }

  /** The calls of a connected host i: its Connect, then Start calls on its enabled forwards. */
  lemma ConnectThenStarts(i: nat, c: ProxyConfig, before: seq<Call>, trace: seq<Call>, calls: seq<Call>)
    requires c.enabled && trace == before + [Connect(i, true)] + calls
    requires forall m :: 0 <= m < |calls| ==> calls[m].Start? && calls[m].host == i && AttemptedOn(c, calls[m])
    ensures forall m :: |before| <= m < |trace| ==> trace[m].host == i && AttemptedOn(c, trace[m])
    ensures ConnectedHosts(trace[|before|..]) == [i]
  {
    assert trace[|before|..] == [Connect(i, true)] + calls;
    StartsConnectNothing(calls);
    ConnectedHostsAppend([Connect(i, true)], calls);
    assert ConnectedHosts([Connect(i, true)]) == [i];
    forall m | |before| < m < |trace|
      ensures trace[m].host == i && AttemptedOn(c, trace[m])
    {
      assert trace[m] == calls[m - |before| - 1];
    }
  }

  /** The forward loop ConnectHost runs for a connected host with a forward list. */
  function HostLoop(i: nat, s: RoundState, others: Ports.PortTables, net: Network): ForwardLoop
    requires i < |s.configs| && s.configs[i].localForwards.Some?
  {
    var c := s.configs[i];
    var client := Client(i, ConnectionInfoFor(c), KeepAlive(c), []);
    ForwardsFrom(0, i, ForwardLoop(c.localForwards.value, client, s.trace + [Connect(i, true)], false), s.clients, others, net)
  }

  /** ConnectHost of a connected host with a forward list, in terms of its loop. */
  lemma ConnectHostLoop(i: nat, s: RoundState, others: Ports.PortTables, net: Network)
    requires i < |s.configs| && s.configs[i].enabled && s.configs[i].localForwards.Some?
    requires net.accepts(ConnectionInfoFor(s.configs[i]))
    requires net.connects(ConnectionInfoFor(s.configs[i]), KeepAlive(s.configs[i]))
    ensures var l := HostLoop(i, s, others, net);
      ConnectHost(i, s, others, net) ==
        Continue(s.(configs := s.configs[i := s.configs[i].(localForwards := Some(l.forwards))],
                    clients := s.clients + [l.client],
                    trace := l.trace))
  {
  }

  /** What the forward loop of a connected host i adds: its calls and its client. */
  lemma HostLoopFacts(i: nat, s: RoundState, others: Ports.PortTables, net: Network)
    requires i < |s.configs| && s.configs[i].enabled && s.configs[i].localForwards.Some?
    requires net.accepts(ConnectionInfoFor(s.configs[i]))
    requires net.connects(ConnectionInfoFor(s.configs[i]), KeepAlive(s.configs[i]))
    ensures var l := HostLoop(i, s, others, net); var c := s.configs[i];
      && |s.trace| <= |l.trace|
      && (forall m :: |s.trace| <= m < |l.trace| ==> l.trace[m].host == i && AttemptedOn(c, l.trace[m]))
      && ConnectedHosts(l.trace[|s.trace|..]) == [i]
      && l.client.host == i
      && ClientOf(c.(localForwards := Some(l.forwards)), l.client, net)
  {
    HostLoopCalls(i, s, others, net);
    HostLoopClient(i, s, others, net);
  }

  /** The calls of the host's forward loop: its Connect, then Starts of its enabled forwards. */
  lemma HostLoopCalls(i: nat, s: RoundState, others: Ports.PortTables, net: Network)
    requires i < |s.configs| && s.configs[i].enabled && s.configs[i].localForwards.Some?
    ensures var l := HostLoop(i, s, others, net); var c := s.configs[i];
      && |s.trace| <= |l.trace|
      && (forall m :: |s.trace| <= m < |l.trace| ==> l.trace[m].host == i && AttemptedOn(c, l.trace[m]))
      && ConnectedHosts(l.trace[|s.trace|..]) == [i]
  {
    var c := s.configs[i];
    var info := ConnectionInfoFor(c);
    var trace := s.trace + [Connect(i, true)];
    var st := ForwardLoop(c.localForwards.value, Client(i, info, KeepAlive(c), []), trace, false);
    var l := ForwardsFrom(0, i, st, s.clients, others, net);
    assert l == HostLoop(i, s, others, net);
    ForwardsFromRun(0, i, st, s.clients, others, net);
    var calls := l.trace[|st.trace|..];
    RunCallsAttempted(i, c, st.client.info, l.forwards, l.client.forwards[|st.client.forwards|..], calls, l.failed, net);
    assert l.trace == trace + calls;
    ConnectThenStarts(i, c, s.trace, l.trace, calls);
  }

  /** The client of the host's forward loop is a client of the host's configuration after the loop. */
  lemma HostLoopClient(i: nat, s: RoundState, others: Ports.PortTables, net: Network)
    requires i < |s.configs| && s.configs[i].enabled && s.configs[i].localForwards.Some?
    requires net.accepts(ConnectionInfoFor(s.configs[i]))
    requires net.connects(ConnectionInfoFor(s.configs[i]), KeepAlive(s.configs[i]))
    ensures var l := HostLoop(i, s, others, net); var c := s.configs[i];
      && l.client.host == i
      && ClientOf(c.(localForwards := Some(l.forwards)), l.client, net)
  {
    var c := s.configs[i];
    var info := ConnectionInfoFor(c);
    var trace := s.trace + [Connect(i, true)];
    var st := ForwardLoop(c.localForwards.value, Client(i, info, KeepAlive(c), []), trace, false);
    var l := HostLoop(i, s, others, net);
    assert l == ForwardsFrom(0, i, st, s.clients, others, net);
    ForwardsFromRun(0, i, st, s.clients, others, net);
    assert l.client.forwards[0..] == l.client.forwards;
    LoopClientOf(c, l.forwards, l.client, i, l.trace[|trace|..], l.failed, net);
  }



  /** The case of ConnectHostCalls where the host connects and has a forward list. */
  lemma ConnectHostForwards(i: nat, s: RoundState, others: Ports.PortTables, net: Network)
    requires i < |s.configs| && s.configs[i].enabled && s.configs[i].localForwards.Some?
    requires net.accepts(ConnectionInfoFor(s.configs[i]))
    requires net.connects(ConnectionInfoFor(s.configs[i]), KeepAlive(s.configs[i]))
    ensures var r := ConnectHost(i, s, others, net); var t := r.s;
      && (forall m :: |s.trace| <= m < |t.trace| ==> t.trace[m].host == i && AttemptedOn(s.configs[i], t.trace[m]))
      && ConnectedHosts(t.trace[|s.trace|..]) == ClientHosts(t.clients[|s.clients|..])
      && |t.clients| == |s.clients| + 1
      && t.clients[|s.clients|].host == i && ClientOf(t.configs[i], t.clients[|s.clients|], net)
  {
    var l := HostLoop(i, s, others, net);
    ConnectHostLoop(i, s, others, net);
    HostLoopFacts(i, s, others, net);
    var t := ConnectHost(i, s, others, net).s;
    assert t.clients[|s.clients|..] == [l.client];
    assert ClientHosts([l.client]) == [i];
  }

  /**
   * The calls one iteration of the host loop appends concern host i, which
   * is enabled, and its enabled forwards; the hosts they connect are those
   * of the clients it appends.
   */
  predicate HostCalls(i: nat, s: RoundState, t: RoundState) {
    && i < |s.configs|
    && s.trace <= t.trace && s.clients <= t.clients
    && (forall m :: |s.trace| <= m < |t.trace| ==> t.trace[m].host == i && AttemptedOn(s.configs[i], t.trace[m]))
    && ConnectedHosts(t.trace[|s.trace|..]) == ClientHosts(t.clients[|s.clients|..])
  }

  /**
   * The client one iteration appends, if any, is a client of host i by the
   * final configuration; when the iteration does not leave the round, an
   * enabled host's connection info was accepted and a client is appended
   * exactly when the library connects it; an exception appends nothing.
   */
  predicate HostClient(i: nat, s: RoundState, t: RoundState, continued: bool, net: Network) {
    && i < |s.configs| && |t.configs| == |s.configs|
    && s.clients <= t.clients && |t.clients| <= |s.clients| + 1
    && (|t.clients| == |s.clients| + 1 ==>
          t.clients[|s.clients|].host == i && ClientOf(t.configs[i], t.clients[|s.clients|], net))
    && (!s.configs[i].enabled ==> t.clients == s.clients)
    && (continued && s.configs[i].enabled ==>
          && net.accepts(ConnectionInfoFor(t.configs[i]))
          && (|t.clients| == |s.clients| + 1 <==> net.connects(ConnectionInfoFor(t.configs[i]), KeepAlive(t.configs[i]))))
    && (!continued ==> t.clients == s.clients && t.trace == s.trace)
  }

  lemma ProcessHostCalls(i: nat, s: RoundState, others: Ports.PortTables, net: Network)
    requires i < |s.configs|
    ensures HostCalls(i, s, ProcessHost(i, s, others, net).s)
  {
    var t := ProcessHost(i, s, others, net).s;
    if !s.configs[i].enabled {
      assert t.trace[|s.trace|..] == [] && t.clients[|s.clients|..] == [];
    } else {
      var s1 := PromptUserName(i, s);
      match PromptPassword(i, s1)
      case None =>
        assert t.trace[|s.trace|..] == [] && t.clients[|s.clients|..] == [];
      case Some(s2) =>
        ConnectHostCalls(i, s2, others, net);
    }
  }

  lemma ProcessHostClient(i: nat, s: RoundState, others: Ports.PortTables, net: Network)
    requires i < |s.configs|
    ensures var h := ProcessHost(i, s, others, net); HostClient(i, s, h.s, h.Continue?, net)
  {
    if s.configs[i].enabled {
      var s1 := PromptUserName(i, s);
      match PromptPassword(i, s1)
      case None =>
      case Some(s2) =>
        ConnectHostCalls(i, s2, others, net);
    }
  }

  /** Whether the user name and, under key authentication, the password of an enabled host are known. */
  predicate Resolved(c: ProxyConfig) {
    c.enabled ==> c.userName.Some? && !NeedsPassword(c)
  }

  /**
   * The prompts of one iteration: a host that gets past them has its
   * password under key authentication, and its user name unless the console
   * input ran out; a resolved host reads no input; at most the next line is
   * read.
   */
  predicate HostPrompts(i: nat, s: RoundState, t: RoundState, continued: bool) {
    && i < |s.configs| && |t.configs| == |s.configs|
    && (s.configs[i].enabled && continued ==>
          !NeedsPassword(t.configs[i]) && (t.configs[i].userName.Some? || s.lines == []))
    && (Resolved(s.configs[i]) ==> t.lines == s.lines && t.keys == s.keys)
    && (t.lines == s.lines || (s.configs[i].enabled && s.configs[i].userName.None? && s.lines != [] && t.lines == s.lines[1..]))
  }

  lemma ProcessHostPrompts(i: nat, s: RoundState, others: Ports.PortTables, net: Network)
    requires i < |s.configs|
    ensures var h := ProcessHost(i, s, others, net); HostPrompts(i, s, h.s, h.Continue?)
  {
    var c := s.configs[i];
    if c.enabled {
      var s1 := PromptUserName(i, s);
      match PromptPassword(i, s1)
      case None =>
      case Some(s2) =>
        assert ConnectHost(i, s2, others, net).s.configs[i].(localForwards := s2.configs[i].localForwards) == s2.configs[i];
    }
  }

  // ---------------------------------------------------------------------
  // What a round does
  // ---------------------------------------------------------------------

  /** Slicing a prefix-extended sequence in two steps. */
  lemma SliceThrough<T>(a: seq<T>, b: seq<T>, c: seq<T>)
    requires a <= b <= c
    ensures c[|a|..] == b[|a|..] + c[|b|..]
  {
  }

  /**
   * Between states s and t, from host i on: the calls made concern enabled
   * hosts i and above of `configs` and their enabled forwards, and the
   * hosts connected are, in order, the hosts of the clients added.
   */
  predicate CallsFrom(i: nat, configs: seq<ProxyConfig>, s: RoundState, t: RoundState) {
    && s.trace <= t.trace && s.clients <= t.clients
    && (forall m :: |s.trace| <= m < |t.trace| ==>
          i <= t.trace[m].host < |configs| && AttemptedOn(configs[t.trace[m].host], t.trace[m]))
    && ConnectedHosts(t.trace[|s.trace|..]) == ClientHosts(t.clients[|s.clients|..])
  }

  lemma CallsCompose(i: nat, s: RoundState, s': RoundState, t: RoundState)
    requires HostShape(i, s, s') && HostCalls(i, s, s') && CallsFrom(i + 1, s'.configs, s', t)
    ensures CallsFrom(i, s.configs, s, t)
  {
    SliceThrough(s.trace, s'.trace, t.trace);
    SliceThrough(s.clients, s'.clients, t.clients);
    ConnectedHostsAppend(s'.trace[|s.trace|..], t.trace[|s'.trace|..]);
    ClientHostsAppend(s'.clients[|s.clients|..], t.clients[|s'.clients|..]);
    forall m | |s.trace| <= m < |t.trace|
      ensures i <= t.trace[m].host < |s.configs| && AttemptedOn(s.configs[t.trace[m].host], t.trace[m])
    {
      if m < |s'.trace| {
        assert t.trace[m] == s'.trace[m];
      }
    }
  }

  /**
   * A round calls the library only for enabled hosts and their enabled
   * forwards, from host i on, and the hosts it connects are, in order, the
   * hosts of the clients it adds.
   */
  lemma {:induction false} RoundFromCalls(i: nat, s: RoundState, others: Ports.PortTables, net: Network)
    requires i <= |s.configs|
    decreases |s.configs| - i
    ensures CallsFrom(i, s.configs, s, RoundFrom(i, s, others, net).s)
  {
    if i < |s.configs| {
      var h := ProcessHost(i, s, others, net);
      ProcessHostShape(i, s, others, net);
      ProcessHostCalls(i, s, others, net);
      if h.Continue? {
        var t := RoundFrom(i + 1, h.s, others, net).s;
        assert RoundFrom(i, s, others, net).s == t;
        RoundFromCalls(i + 1, h.s, others, net);
        CallsCompose(i, s, h.s, t);
      } else {
        assert RoundFrom(i, s, others, net).s == h.s;
        assert h.s.trace[|s.trace|..] == [] && h.s.clients[|s.clients|..] == [];
      }
    } else {
      assert s.trace[|s.trace|..] == [] && s.clients[|s.clients|..] == [];
    }
  }

  /** Between states s and t: each client added is a client of host i or above, by t's configuration. */
  predicate ClientsFrom(i: nat, s: RoundState, t: RoundState, net: Network) {
    && s.clients <= t.clients && |t.configs| == |s.configs|
    && forall n :: |s.clients| <= n < |t.clients| ==>
         i <= t.clients[n].host < |t.configs| && ClientOf(t.configs[t.clients[n].host], t.clients[n], net)
  }

  lemma ClientsCompose(i: nat, s: RoundState, s': RoundState, t: RoundState, continued: bool, net: Network)
    requires HostClient(i, s, s', continued, net) && ClientsFrom(i + 1, s', t, net) && RoundShape(i + 1, s', t)
    ensures ClientsFrom(i, s, t, net)
  {
    forall n | |s.clients| <= n < |t.clients|
      ensures i <= t.clients[n].host < |t.configs| && ClientOf(t.configs[t.clients[n].host], t.clients[n], net)
    {
      if n < |s'.clients| {
        assert t.clients[n] == s'.clients[n];
      }
    }
  }

  /** One host's client, if it connects, followed by the clients of the hosts after it. */
  lemma ConnectingStep(i: nat, configs: seq<ProxyConfig>, a: seq<Client>, b: seq<Client>, clients: seq<Client>, net: Network)
    requires i < |configs| && a <= b <= clients && |b| <= |a| + 1
    requires |b| == |a| + 1 ==> b[|a|].host == i
    requires |b| == |a| + 1 <==>
      configs[i].enabled && net.connects(ConnectionInfoFor(configs[i]), KeepAlive(configs[i]))
    requires ClientHosts(clients[|b|..]) == ConnectingHosts(configs, i + 1, net)
    ensures ClientHosts(clients[|a|..]) == ConnectingHosts(configs, i, net)
  {
    SliceThrough(a, b, clients);
    var mine := b[|a|..];
    ClientHostsAppend(mine, clients[|b|..]);
    var c := configs[i];
    var head: seq<nat> := if c.enabled && net.connects(ConnectionInfoFor(c), KeepAlive(c)) then [i] else [];
    if |b| == |a| + 1 {
      assert mine == [b[|a|]];
      assert ClientHosts(mine) == ClientHosts([]) + [i];
    } else {
      assert mine == [];
    }
    assert ClientHosts(mine) == head;
    assert ConnectingHosts(configs, i, net) == head + ConnectingHosts(configs, i + 1, net);
  }

  lemma ConnectingCompose(i: nat, s: RoundState, s': RoundState, t: RoundState, net: Network)
    requires HostShape(i, s, s') && HostClient(i, s, s', true, net) && RoundShape(i + 1, s', t)
    requires ClientHosts(t.clients[|s'.clients|..]) == ConnectingHosts(t.configs, i + 1, net)
    ensures ClientHosts(t.clients[|s.clients|..]) == ConnectingHosts(t.configs, i, net)
  {
    assert t.configs[i] == s'.configs[i];
    assert s'.configs[i].enabled == s.configs[i].enabled;
    ConnectingStep(i, t.configs, s.clients, s'.clients, t.clients, net);
  }

  /** Each client a round adds is a client of its host's final configuration. */
  lemma {:induction false} RoundFromClients(i: nat, s: RoundState, others: Ports.PortTables, net: Network)
    requires i <= |s.configs|
    decreases |s.configs| - i
    ensures ClientsFrom(i, s, RoundFrom(i, s, others, net).s, net)
  {
    if i < |s.configs| {
      var h := ProcessHost(i, s, others, net);
      ProcessHostClient(i, s, others, net);
      if h.Continue? {
        var r := RoundFrom(i + 1, h.s, others, net);
        assert RoundFrom(i, s, others, net) == r;
        RoundFromShape(i + 1, h.s, others, net);
        RoundFromClients(i + 1, h.s, others, net);
        ClientsCompose(i, s, h.s, r.s, true, net);
      } else {
        assert RoundFrom(i, s, others, net) == Aborted(h.s);
      }
    }
  }

  /**
   * Every forward a round reached is left with a LocalPort other than 0 in
   * the configuration the round writes back, so a later round over the same
   * list does not scan for it again.
   */
  lemma RoundFromFixesPorts(i: nat, s: RoundState, others: Ports.PortTables, net: Network)
    requires i <= |s.configs|
    ensures var t := RoundFrom(i, s, others, net).s;
      forall n, m :: |s.clients| <= n < |t.clients| && 0 <= m < |t.clients[n].forwards| ==>
        && t.clients[n].host < |t.configs|
        && t.configs[t.clients[n].host].localForwards.Some?
        && var fs := t.configs[t.clients[n].host].localForwards.value;
           t.clients[n].forwards[m].index < |fs| && fs[t.clients[n].forwards[m].index].localPort != 0
  {
    var t := RoundFrom(i, s, others, net).s;
    RoundFromClients(i, s, others, net);
    forall n, m | |s.clients| <= n < |t.clients| && 0 <= m < |t.clients[n].forwards|
      ensures && t.clients[n].host < |t.configs|
              && t.configs[t.clients[n].host].localForwards.Some?
              && var fs := t.configs[t.clients[n].host].localForwards.value;
                 t.clients[n].forwards[m].index < |fs| && fs[t.clients[n].forwards[m].index].localPort != 0
    {
      assert ClientOf(t.configs[t.clients[n].host], t.clients[n], net);
    }
  }

  /**
   * A round that finishes adds exactly the enabled hosts the library
   * connects, in host order.
   */
  lemma {:induction false} RoundFromConnecting(i: nat, s: RoundState, others: Ports.PortTables, net: Network)
    requires i <= |s.configs|
    decreases |s.configs| - i
    ensures var r := RoundFrom(i, s, others, net);
      r.Finished? ==>
        s.clients <= r.s.clients && ClientHosts(r.s.clients[|s.clients|..]) == ConnectingHosts(r.s.configs, i, net)
  {
    if i < |s.configs| {
      var h := ProcessHost(i, s, others, net);
      if h.Continue? {
        ProcessHostShape(i, s, others, net);
        ProcessHostClient(i, s, others, net);
        var r := RoundFrom(i + 1, h.s, others, net);
        assert RoundFrom(i, s, others, net) == r;
        RoundFromShape(i + 1, h.s, others, net);
        RoundFromConnecting(i + 1, h.s, others, net);
        if r.Finished? {
          ConnectingCompose(i, s, h.s, r.s, net);
        }
      }
    } else {
      assert s.clients[|s.clients|..] == [];
    }
  }

  /** Between states s and t: every enabled host from i on is settled, as RoundFromSettled states. */
  predicate SettledFrom(i: nat, s: RoundState, t: RoundState, net: Network) {
    && |t.configs| == |s.configs|
    && forall j :: i <= j < |s.configs| && s.configs[j].enabled ==>
         && net.accepts(ConnectionInfoFor(t.configs[j]))
         && !NeedsPassword(t.configs[j])
         && (t.configs[j].userName.Some? || t.lines == [])
  }

  lemma SettledCompose(i: nat, s: RoundState, s': RoundState, t: RoundState, net: Network)
    requires HostShape(i, s, s') && HostClient(i, s, s', true, net) && HostPrompts(i, s, s', true)
    requires RoundShape(i + 1, s', t) && SettledFrom(i + 1, s', t, net)
    ensures SettledFrom(i, s, t, net)
  {
    forall j | i <= j < |s.configs| && s.configs[j].enabled
      ensures && net.accepts(ConnectionInfoFor(t.configs[j]))
              && !NeedsPassword(t.configs[j])
              && (t.configs[j].userName.Some? || t.lines == [])
    {
      if j == i {
        assert t.configs[i] == s'.configs[i];
        assert s.lines == [] ==> t.lines == [];
      } else {
        assert s'.configs[j] == s.configs[j];
      }
    }
  }

  /**
   * After a round that finishes, every enabled host from i on has connection
   * info the library accepts, its password under key authentication, and
   * its user name unless the console input ran out.
   */
  lemma {:induction false} RoundFromSettled(i: nat, s: RoundState, others: Ports.PortTables, net: Network)
    requires i <= |s.configs|
    decreases |s.configs| - i
    ensures var r := RoundFrom(i, s, others, net);
      r.Finished? ==> SettledFrom(i, s, r.s, net)
  {
    if i < |s.configs| {
      var h := ProcessHost(i, s, others, net);
      if h.Continue? {
        ProcessHostShape(i, s, others, net);
        ProcessHostClient(i, s, others, net);
        ProcessHostPrompts(i, s, others, net);
        var r := RoundFrom(i + 1, h.s, others, net);
        assert RoundFrom(i, s, others, net) == r;
        RoundFromShape(i + 1, h.s, others, net);
        RoundFromSettled(i + 1, h.s, others, net);
        if r.Finished? {
          SettledCompose(i, s, h.s, r.s, net);
        }
      }
    }
  }

  /** A round over resolved hosts reads no console input. */
  lemma {:induction false} RoundFromResolved(i: nat, s: RoundState, others: Ports.PortTables, net: Network)
    requires i <= |s.configs|
    requires forall j :: i <= j < |s.configs| ==> Resolved(s.configs[j])
    decreases |s.configs| - i
    ensures var t := RoundFrom(i, s, others, net).s;
      t.lines == s.lines && t.keys == s.keys
  {
    if i < |s.configs| {
      ProcessHostShape(i, s, others, net);
      ProcessHostPrompts(i, s, others, net);
      var h := ProcessHost(i, s, others, net);
      if h.Continue? {
        var s' := h.s;
        assert RoundFrom(i, s, others, net) == RoundFrom(i + 1, s', others, net);
        RoundFromResolved(i + 1, s', others, net);
      }
    }
  }
}
