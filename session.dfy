/**
 * Main: load the configuration files, then run rounds of StartLocalForward,
 * each followed by the command prompt and DisposeAllSshClients, until the
 * user quits or an exception ends the program.
 */
module Session {
  import opened Wrappers
  import Commands
  import Ports
  import opened Forwarding

  // ---------------------------------------------------------------------
  // DisposeAllSshClients
  // ---------------------------------------------------------------------

  /** Dispose calls for the forwarded ports of one client of host `host`, in the order they were added. */
  function ForwardDisposals(host: nat, fs: seq<ActiveForward>): seq<Call> {
    if fs == [] then []
    else ForwardDisposals(host, fs[..|fs| - 1]) + [DisposeForward(host, fs[|fs| - 1].index)]
  }

  /** The calls of DisposeAllSshClients: for each client, its forwarded ports and then the client. */
  function DisposalTrace(clients: seq<Client>): seq<Call> {
    if clients == [] then []
    else
      var c := clients[|clients| - 1];
      DisposalTrace(clients[..|clients| - 1]) + ForwardDisposals(c.host, c.forwards) + [DisposeClient(c.host)]
  }

  /** The hosts of the disposed clients, in order. */
  function DisposedHosts(calls: seq<Call>): seq<nat> {
    if calls == [] then []
    else
      var last := calls[|calls| - 1];
      DisposedHosts(calls[..|calls| - 1]) + if last.DisposeClient? then [last.host] else []
  }

  /** A forwarded port, as its host and its position in the host's forward list. */
  datatype PortId = PortId(host: nat, forward: nat)

  /** The forwarded ports disposed, in order. */
  function DisposedForwards(calls: seq<Call>): seq<PortId> {
    if calls == [] then []
    else
      var last := calls[|calls| - 1];
      DisposedForwards(calls[..|calls| - 1]) + if last.DisposeForward? then [PortId(last.host, last.forward)] else []
  }

  /** The forwarded ports added to one client of host `host`. */
  function ForwardIds(host: nat, fs: seq<ActiveForward>): seq<PortId> {
    if fs == [] then [] else ForwardIds(host, fs[..|fs| - 1]) + [PortId(host, fs[|fs| - 1].index)]
  }

  /** The forwarded ports added to the given clients, client by client. */
  function AddedForwards(clients: seq<Client>): seq<PortId> {
    if clients == [] then []
    else
      var c := clients[|clients| - 1];
      AddedForwards(clients[..|clients| - 1]) + ForwardIds(c.host, c.forwards)
  }

  lemma {:induction false} DisposedHostsAppend(a: seq<Call>, b: seq<Call>)
    ensures DisposedHosts(a + b) == DisposedHosts(a) + DisposedHosts(b)
    decreases |b|
  {
    if b != [] {
      assert (a + b)[..|a + b| - 1] == a + b[..|b| - 1];
      DisposedHostsAppend(a, b[..|b| - 1]);
    } else {
      assert a + b == a;
    }
  }

  lemma {:induction false} DisposedForwardsAppend(a: seq<Call>, b: seq<Call>)
    ensures DisposedForwards(a + b) == DisposedForwards(a) + DisposedForwards(b)
    decreases |b|
  {
    if b != [] {
      assert (a + b)[..|a + b| - 1] == a + b[..|b| - 1];
      DisposedForwardsAppend(a, b[..|b| - 1]);
    } else {
      assert a + b == a;
    }
  }

  /** Disposing one client's forwarded ports disposes exactly those ports, and no client. */
  lemma {:induction false} ForwardDisposalsDispose(host: nat, fs: seq<ActiveForward>)
    ensures DisposedForwards(ForwardDisposals(host, fs)) == ForwardIds(host, fs)
    ensures DisposedHosts(ForwardDisposals(host, fs)) == []
    ensures ConnectedHosts(ForwardDisposals(host, fs)) == []
    decreases |fs|
  {
    if fs != [] {
      var init := ForwardDisposals(host, fs[..|fs| - 1]);
      var last := DisposeForward(host, fs[|fs| - 1].index);
      ForwardDisposalsDispose(host, fs[..|fs| - 1]);
      assert (init + [last])[..|init + [last]| - 1] == init;
    }
  }

  /**
   * DisposeAllSshClients disposes every client of the list, in order, and
   * every forwarded port added to them, including one whose Start failed;
   * it connects nothing.
   */
  lemma {:induction false} DisposalDisposesAll(clients: seq<Client>)
    ensures DisposedHosts(DisposalTrace(clients)) == ClientHosts(clients)
    ensures DisposedForwards(DisposalTrace(clients)) == AddedForwards(clients)
    ensures ConnectedHosts(DisposalTrace(clients)) == []
    decreases |clients|
  {
    if clients != [] {
      var c := clients[|clients| - 1];
      var init := DisposalTrace(clients[..|clients| - 1]);
      var fd := ForwardDisposals(c.host, c.forwards);
      var last := [DisposeClient(c.host)];
      DisposalDisposesAll(clients[..|clients| - 1]);
      ForwardDisposalsDispose(c.host, c.forwards);
      DisposedHostsAppend(init + fd, last);
      DisposedHostsAppend(init, fd);
      DisposedForwardsAppend(init + fd, last);
      DisposedForwardsAppend(init, fd);
      ConnectedHostsAppend(init + fd, last);
      ConnectedHostsAppend(init, fd);
      assert DisposedHosts(last) == [c.host] by {
        assert last[..0] == [];
      }
      assert DisposedForwards(last) == [] by {
        assert last[..0] == [];
      }
      assert ConnectedHosts(last) == [] by {
        assert last[..0] == [];
      }
    }
  }

  // ---------------------------------------------------------------------
  // Main
  // ---------------------------------------------------------------------

  /** How Main ends: its status code and every call made into the SSH library. */
  datatype Exit = Exit(status: int, trace: seq<Call>)

  /** What one pass of Main's loop leads to: the end of the program, or the state of the next round. */
  datatype Step =
    | Done(exit: Exit)
    | Again(configs: seq<Forwarding.ProxyConfig>, lines: seq<string>, keys: seq<ConsoleEx.KeyInfo>, trace: seq<Call>)

  /**
   * One pass of the do-while loop of Main. A round that throws ends the
   * program with status 1; its clients, never returned to Main, are not
   * disposed, and the finally block disposes Main's list, which the
   * previous pass already emptied. Otherwise the prompt reads lines until a
   * command and the round's clients are disposed; "retry" leads to another
   * round with the configurations as this one left them, anything else
   * returns 0.
   */
  function SessionStep(configs: seq<Forwarding.ProxyConfig>, lines: seq<string>, keys: seq<ConsoleEx.KeyInfo>,
                       trace: seq<Call>, others: Ports.PortTables, net: Network): (r: Step)
    ensures r.Again? ==> |r.lines| < |lines|
  {
    var s := RoundState(configs, lines, keys, [], trace);
    match RoundFrom(0, s, others, net)
    case Aborted(t) => Done(Exit(1, t.trace))
    case Finished(t) =>
      var a := Commands.NextCommand(t.lines);
      var trace' := t.trace + DisposalTrace(t.clients);
      if a.cmd == Commands.Retry then
        RoundConsumes(0, s, others, net);
        Again(t.configs, t.lines[a.consumed..], t.keys, trace')
      else Done(Exit(0, trace'))
  }

  /** The do-while loop of Main from one round on. */
  function SessionFrom(configs: seq<Forwarding.ProxyConfig>, lines: seq<string>, keys: seq<ConsoleEx.KeyInfo>,
                       trace: seq<Call>, others: Ports.PortTables, net: Network): Exit
    decreases |lines|
  {
    match SessionStep(configs, lines, keys, trace, others, net)
    case Done(exit) => exit
    case Again(configs', lines', keys', trace') => SessionFrom(configs', lines', keys', trace', others, net)
  }

  /** A round only consumes console input. */
  lemma RoundConsumes(i: nat, s: RoundState, others: Ports.PortTables, net: Network)
    requires i <= |s.configs|
    ensures IsSuffix(RoundFrom(i, s, others, net).s.lines, s.lines)
  {
    RoundFromShape(i, s, others, net);
  }

  /** The configuration lists of all files, in order. */
  function Concat(loaded: seq<seq<Forwarding.ProxyConfig>>): seq<Forwarding.ProxyConfig> {
    if loaded == [] then [] else Concat(loaded[..|loaded| - 1]) + loaded[|loaded| - 1]
  }

  /** Whether every configuration file loaded; None stands for a file whose loading threw. */
  predicate AllLoaded(loaded: seq<Option<seq<Forwarding.ProxyConfig>>>) {
    forall n :: 0 <= n < |loaded| ==> loaded[n].Some?
  }

  function Values(loaded: seq<Option<seq<Forwarding.ProxyConfig>>>): (r: seq<seq<Forwarding.ProxyConfig>>)
    requires AllLoaded(loaded)
    ensures |r| == |loaded| && forall n :: 0 <= n < |loaded| ==> r[n] == loaded[n].value
  {
    seq(|loaded|, n requires 0 <= n < |loaded| => loaded[n].value)
  }

  /**
   * Main on the loaded configuration files: a file that fails to load ends
   * the program with status 1 before any connection; otherwise the rounds
   * run over all hosts of all files.
   */
  function MainExit(loaded: seq<Option<seq<Forwarding.ProxyConfig>>>, lines: seq<string>, keys: seq<ConsoleEx.KeyInfo>,
                others: Ports.PortTables, net: Network): Exit
  {
    if !AllLoaded(loaded) then Exit(1, [])
    else SessionFrom(Concat(Values(loaded)), lines, keys, [], others, net)
  }

  // ---------------------------------------------------------------------
  // What Main guarantees
  // ---------------------------------------------------------------------

  /** Calls of a round, which concern enabled hosts only, dispose nothing. */
  lemma {:induction false} RoundCallsDisposeNothing(configs: seq<Forwarding.ProxyConfig>, calls: seq<Call>)
    requires forall m :: 0 <= m < |calls| ==> calls[m].host < |configs| && AttemptedOn(configs[calls[m].host], calls[m])
    ensures DisposedHosts(calls) == []
    decreases |calls|
  {
    if calls != [] {
      RoundCallsDisposeNothing(configs, calls[..|calls| - 1]);
    }
  }

  lemma PrefixAppend<T>(a: seq<T>, x: seq<T>, y: seq<T>)
    requires x <= y
    ensures a + x <= a + y
  {
    assert (a + y)[..|a + x|] == a + x;
  }

  /** One finished round followed by its teardown disposes every client it connected. */
  lemma {:induction false} RoundThenDisposal(s: RoundState, others: Ports.PortTables, net: Network)
    requires s.clients == []
    requires RoundFrom(0, s, others, net).Finished?
    ensures s.trace <= RoundFrom(0, s, others, net).s.trace
    ensures var t := RoundFrom(0, s, others, net).s;
      var calls := t.trace[|s.trace|..] + DisposalTrace(t.clients);
      DisposedHosts(calls) == ConnectedHosts(calls) == ClientHosts(t.clients)
  {
    var t := RoundFrom(0, s, others, net).s;
    RoundFromCalls(0, s, others, net);
    var round := t.trace[|s.trace|..];
    assert t.clients[|s.clients|..] == t.clients;
    RoundCallsDisposeNothing(s.configs, round);
    DisposalDisposesAll(t.clients);
    DisposedHostsAppend(round, DisposalTrace(t.clients));
    ConnectedHostsAppend(round, DisposalTrace(t.clients));
  }

  /**
   * How the calls made until exit relate disposal to connection: every
   * client connected is disposed after a normal exit, the first of them
   * after an exception.
   */
  predicate Disposes(status: int, calls: seq<Call>) {
    && (status == 0 || status == 1)
    && (status == 0 ==> DisposedHosts(calls) == ConnectedHosts(calls))
    && (status == 1 ==> DisposedHosts(calls) <= ConnectedHosts(calls))
  }

  lemma DisposesCompose(status: int, first: seq<Call>, rest: seq<Call>)
    requires DisposedHosts(first) == ConnectedHosts(first) && Disposes(status, rest)
    ensures Disposes(status, first + rest)
  {
    DisposedHostsAppend(first, rest);
    ConnectedHostsAppend(first, rest);
    if status == 1 {
      PrefixAppend(DisposedHosts(first), DisposedHosts(rest), ConnectedHosts(rest));
    }
  }

  /** Slicing the calls of a round, its teardown and what follows. */
  lemma SliceRound(trace: seq<Call>, round: seq<Call>, disposal: seq<Call>, all: seq<Call>)
    requires trace <= round && round + disposal <= all
    ensures trace <= all
    ensures all[|trace|..] == (round[|trace|..] + disposal) + all[|round + disposal|..]
  {
  }

  /** The retry case of SessionDisposes. */
  lemma {:induction false} SessionDisposesRetry(configs: seq<Forwarding.ProxyConfig>, lines: seq<string>, keys: seq<ConsoleEx.KeyInfo>,
                                               trace: seq<Call>, others: Ports.PortTables, net: Network)
    requires var t := RoundFrom(0, RoundState(configs, lines, keys, [], trace), others, net);
      t.Finished? && Commands.NextCommand(t.s.lines).cmd == Commands.Retry
    decreases |lines|, 0
    ensures var r := SessionFrom(configs, lines, keys, trace, others, net);
      trace <= r.trace && Disposes(r.status, r.trace[|trace|..])
  {
    var s := RoundState(configs, lines, keys, [], trace);
    var t := RoundFrom(0, s, others, net).s;
    var a := Commands.NextCommand(t.lines);
    var disposal := DisposalTrace(t.clients);
    var trace' := t.trace + disposal;
    RoundConsumes(0, s, others, net);
    var lines' := t.lines[a.consumed..];
    var r := SessionFrom(t.configs, lines', t.keys, trace', others, net);
    assert SessionFrom(configs, lines, keys, trace, others, net) == r;
    SessionDisposes(t.configs, lines', t.keys, trace', others, net);
    RoundThenDisposal(s, others, net);
    SliceRound(trace, t.trace, disposal, r.trace);
    DisposesCompose(r.status, t.trace[|trace|..] + disposal, r.trace[|trace'|..]);
  }

  /** The case of SessionDisposes where the round throws. */
  lemma SessionDisposesAborted(configs: seq<Forwarding.ProxyConfig>, lines: seq<string>, keys: seq<ConsoleEx.KeyInfo>,
                               trace: seq<Call>, others: Ports.PortTables, net: Network)
    requires RoundFrom(0, RoundState(configs, lines, keys, [], trace), others, net).Aborted?
    ensures var r := SessionFrom(configs, lines, keys, trace, others, net);
      trace <= r.trace && Disposes(r.status, r.trace[|trace|..])
  {
    var s := RoundState(configs, lines, keys, [], trace);
    var t := RoundFrom(0, s, others, net).s;
    assert SessionFrom(configs, lines, keys, trace, others, net) == Exit(1, t.trace);
    RoundFromCalls(0, s, others, net);
    RoundCallsDisposeNothing(configs, t.trace[|trace|..]);
  }

  /** The case of SessionDisposes where the prompt ends the program. */
  lemma SessionDisposesQuit(configs: seq<Forwarding.ProxyConfig>, lines: seq<string>, keys: seq<ConsoleEx.KeyInfo>,
                            trace: seq<Call>, others: Ports.PortTables, net: Network)
    requires var t := RoundFrom(0, RoundState(configs, lines, keys, [], trace), others, net);
      t.Finished? && Commands.NextCommand(t.s.lines).cmd != Commands.Retry
    ensures var r := SessionFrom(configs, lines, keys, trace, others, net);
      trace <= r.trace && Disposes(r.status, r.trace[|trace|..])
  {
    var s := RoundState(configs, lines, keys, [], trace);
    var t := RoundFrom(0, s, others, net).s;
    var disposal := DisposalTrace(t.clients);
    assert SessionStep(configs, lines, keys, trace, others, net) == Done(Exit(0, t.trace + disposal));
    RoundThenDisposal(s, others, net);
    FinalDisposal(trace, t.trace, disposal);
  }

  /** A round's calls after `trace`, then its teardown, that dispose what they connect. */
  lemma FinalDisposal(trace: seq<Call>, round: seq<Call>, disposal: seq<Call>)
    requires trace <= round
    requires DisposedHosts(round[|trace|..] + disposal) == ConnectedHosts(round[|trace|..] + disposal)
    ensures trace <= round + disposal && Disposes(0, (round + disposal)[|trace|..])
  {
    assert (round + disposal)[|trace|..] == round[|trace|..] + disposal;
  }

  /**
   * Main's client disposal from one round on: calls are only appended;
   * when the program ends normally every client it connected has been
   * disposed; after an exception the clients disposed are the first of
   * those connected, and the ones left are the clients of the round that
   * threw.
   */
  lemma {:induction false} SessionDisposes(configs: seq<Forwarding.ProxyConfig>, lines: seq<string>, keys: seq<ConsoleEx.KeyInfo>,
                                          trace: seq<Call>, others: Ports.PortTables, net: Network)
    decreases |lines|, 1
    ensures var r := SessionFrom(configs, lines, keys, trace, others, net);
      trace <= r.trace && Disposes(r.status, r.trace[|trace|..])
  {
    var t := RoundFrom(0, RoundState(configs, lines, keys, [], trace), others, net);
    if t.Aborted? {
      SessionDisposesAborted(configs, lines, keys, trace, others, net);
    } else if Commands.NextCommand(t.s.lines).cmd == Commands.Retry {
      SessionDisposesRetry(configs, lines, keys, trace, others, net);
    } else {
      SessionDisposesQuit(configs, lines, keys, trace, others, net);
    }
  }

  /**
   * Main's exit status and disposal: 1 when a configuration file fails to
   * load, with no call made; otherwise as SessionDisposes states.
   */
  lemma MainDisposes(loaded: seq<Option<seq<Forwarding.ProxyConfig>>>, lines: seq<string>, keys: seq<ConsoleEx.KeyInfo>,
                     others: Ports.PortTables, net: Network)
    ensures var r := MainExit(loaded, lines, keys, others, net);
      && (!AllLoaded(loaded) ==> r == Exit(1, []))
      && Disposes(r.status, r.trace)
  {
    if AllLoaded(loaded) {
      SessionDisposes(Concat(Values(loaded)), lines, keys, [], others, net);
      assert MainExit(loaded, lines, keys, others, net).trace[0..] == MainExit(loaded, lines, keys, others, net).trace;
    }
  }

  /**
   * Answers typed in a round are written back into the configuration, so a
   * round after a retry asks for nothing: once a round finishes with console
   * input left, a later round over its configurations reads no line and no
   * key, whatever the input holds.
   */
  lemma RetryAsksNothing(s: RoundState, lines': seq<string>, keys': seq<ConsoleEx.KeyInfo>, trace': seq<Call>,
                         others: Ports.PortTables, net: Network)
    requires RoundFrom(0, s, others, net).Finished? && RoundFrom(0, s, others, net).s.lines != []
    ensures var s' := RoundState(RoundFrom(0, s, others, net).s.configs, lines', keys', [], trace');
      var t' := RoundFrom(0, s', others, net).s;
      t'.lines == lines' && t'.keys == keys'
  {
    var t := RoundFrom(0, s, others, net).s;
    RoundFromSettled(0, s, others, net);
    forall j | 0 <= j < |t.configs|
      ensures Resolved(t.configs[j])
    {
      RoundFromShape(0, s, others, net);
      assert t.configs[j].enabled == s.configs[j].enabled;
    }
    RoundFromResolved(0, RoundState(t.configs, lines', keys', [], trace'), others, net);
  }
}
