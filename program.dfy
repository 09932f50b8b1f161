/**
 * The program as it runs: Main, StartLocalForward and DisposeAllSshClients
 * as methods of one object that holds the host configurations (edited in
 * place), the console input not yet read, Main's client list and the calls
 * made into the SSH library. Each method is proved to do what the
 * functions of Forwarding and Session describe.
 */
module Program {
  import opened Wrappers
  import Ports
  import ConsoleEx
  import Commands
  import opened Forwarding
  import Session

  class Forwarder {
    var configs: seq<ProxyConfig>        // proxyConfigList
    var lines: seq<string>               // console lines not yet read
    var keys: seq<ConsoleEx.KeyInfo>     // key presses not yet read
    var clients: seq<Client>             // Main's sshClientList
    var trace: seq<Call>                 // calls made into the SSH library
    const others: Ports.PortTables       // ports in use by other programs
    const net: Network                   // the SSH library's answers

    constructor (configs: seq<ProxyConfig>, lines: seq<string>, keys: seq<ConsoleEx.KeyInfo>,
                 others: Ports.PortTables, net: Network)
      ensures this.configs == configs && this.lines == lines && this.keys == keys
      ensures this.others == others && this.net == net
      ensures clients == [] && trace == []
    {
      this.configs := configs;
      this.lines := lines;
      this.keys := keys;
      this.others := others;
      this.net := net;
      clients := [];
      trace := [];
    }

    /** The state of a round whose client list is `list`. */
    function State(list: seq<Client>): RoundState
      reads this
    {
      RoundState(configs, lines, keys, list, trace)
    }

    /** Console.ReadLine: the next line, or None at the end of the input. */
    method ReadLine() returns (line: Option<string>)
      modifies this
      ensures line == FirstLine(old(lines)) && lines == AfterFirstLine(old(lines))
      ensures configs == old(configs) && keys == old(keys) && clients == old(clients) && trace == old(trace)
    {
      if lines == [] {
        line := None;
      } else {
        line := Some(lines[0]);
        lines := lines[1..];
      }
    }

    /** The user-name prompt of host i. */
    method PromptUserName(i: nat, ghost list: seq<Client>)
      requires i < |configs|
      modifies this
      ensures State(list) == Forwarding.PromptUserName(i, old(State(list)))
      ensures clients == old(clients)
    {
      if configs[i].userName.None? {
        var line := ReadLine();
        configs := configs[i := configs[i].(userName := line)];
      }
    }

    /** The password prompt of host i; false when the key input ends before Enter. */
    method PromptPassword(i: nat, ghost list: seq<Client>) returns (ok: bool)
      requires i < |configs|
      modifies this
      ensures var p := Forwarding.PromptPassword(i, old(State(list)));
        && ok == p.Some?
        && State(list) == if ok then p.value else old(State(list)).(keys := [])
      ensures clients == old(clients)
    {
      var c := configs[i];
      if NeedsPassword(c) {
        var password, consumed, _ := ConsoleEx.ReadPassword(keys);
        if password.None? {
          keys := [];
          return false;
        }
        configs := configs[i := c.(password := password)];
        keys := keys[consumed..];
      }
      ok := true;
    }

    /** The foreach over the forwards `fs` of host i, whose connected client is `client`. */
    method RunForwards(i: nat, fs: seq<ForwardConfig>, client: Client, done: seq<Client>)
      returns (fs': seq<ForwardConfig>, client': Client)
      modifies this
      ensures var l := ForwardsFrom(0, i, ForwardLoop(fs, client, old(trace), false), done, others, net);
        fs' == l.forwards && client' == l.client && trace == l.trace
      ensures configs == old(configs) && lines == old(lines) && keys == old(keys) && clients == old(clients)
    {
      ghost var goal := ForwardsFrom(0, i, ForwardLoop(fs, client, trace, false), done, others, net);
      fs', client' := fs, client;
      var k := 0;
      while k < |fs'|
        invariant k <= |fs'| == |fs|
        invariant ForwardsFrom(k, i, ForwardLoop(fs', client', trace, false), done, others, net) == goal
        invariant configs == old(configs) && lines == old(lines) && keys == old(keys) && clients == old(clients)
      {
        if fs'[k].enabled {
          ghost var st := ForwardLoop(fs', client', trace, false);
          var f := fs'[k];
          var port := f.localPort;
          if port == 0 {
            port := Ports.GetAvailablePort(Tables(others, done + [client'], net), Ports.DefaultStartPort, Ports.DefaultEndPort);
          }
          f := f.(localPort := port);
          fs' := fs'[k := f];
          var request := RequestFor(f);
          var started := net.starts(client'.info, request);
          client' := client'.(forwards := client'.forwards + [ActiveForward(k, request, started)]);
          trace := trace + [Start(i, k, request, started)];
          assert ForwardLoop(fs', client', trace, !started) == StartForward(k, i, st, done, others, net);
          if !started {
            return;
          }
        }
        k := k + 1;
      }
    }

    /** The try block of host i: connect, add the client to `list`, run its forwards. */
    method ConnectHost(i: nat, list: seq<Client>) returns (ok: bool, list': seq<Client>)
      requires i < |configs|
      modifies this
      ensures var h := Forwarding.ConnectHost(i, old(State(list)), others, net);
        ok == h.Continue? && State(list') == h.s
      ensures clients == old(clients)
    {
      var c := configs[i];
      var info := ConnectionInfoFor(c);
      list' := list;
      if !net.accepts(info) {
        return false, list';
      }
      ok := true;
      var connected := net.connects(info, KeepAlive(c));
      trace := trace + [Connect(i, connected)];
      if !connected {
        return;
      }
      var client := Client(i, info, KeepAlive(c), []);
      match c.localForwards
      case None =>
        list' := list + [client];
      case Some(fs) =>
        var fs', client' := RunForwards(i, fs, client, list);
        configs := configs[i := c.(localForwards := Some(fs'))];
        list' := list + [client'];
    }

    /** One iteration of the host loop of StartLocalForward. */
    method ProcessHost(i: nat, list: seq<Client>) returns (ok: bool, list': seq<Client>)
      requires i < |configs|
      modifies this
      ensures var h := Forwarding.ProcessHost(i, old(State(list)), others, net);
        ok == h.Continue? && State(list') == h.s
      ensures clients == old(clients)
    {
      list' := list;
      if !configs[i].enabled {
        return true, list';
      }
      PromptUserName(i, list);
      ok := PromptPassword(i, list);
      if !ok {
        return;
      }
      ok, list' := ConnectHost(i, list);
    }

    /**
     * StartLocalForward: the client list of the round, and whether it ran
     * over every host (false: an exception left it, and the list is lost).
     */
    method StartLocalForward() returns (ok: bool, list: seq<Client>)
      modifies this
      ensures var r := RoundFrom(0, old(State([])), others, net);
        ok == r.Finished? && State(list) == r.s
      ensures clients == old(clients)
    {
      ghost var goal := RoundFrom(0, State([]), others, net);
      list := [];
      var i := 0;
      while i < |configs|
        invariant i <= |configs|
        invariant RoundFrom(i, State(list), others, net) == goal
        invariant clients == old(clients)
      {
        var continued;
        continued, list := ProcessHost(i, list);
        if !continued {
          return false, list;
        }
        i := i + 1;
      }
      ok := true;
    }

    /** The inner foreach of DisposeAllSshClients: dispose the forwarded ports of client c. */
    method DisposeForwards(c: Client)
      modifies this
      ensures trace == old(trace) + Session.ForwardDisposals(c.host, c.forwards)
      ensures configs == old(configs) && lines == old(lines) && keys == old(keys) && clients == old(clients)
    {
      var m := 0;
      while m < |c.forwards|
        invariant m <= |c.forwards|
        invariant trace == old(trace) + Session.ForwardDisposals(c.host, c.forwards[..m])
        invariant configs == old(configs) && lines == old(lines) && keys == old(keys) && clients == old(clients)
      {
        trace := trace + [DisposeForward(c.host, c.forwards[m].index)];
        assert c.forwards[..m + 1][..m] == c.forwards[..m];
        m := m + 1;
      }
      assert c.forwards[..m] == c.forwards;
    }

    /** DisposeAllSshClients on Main's list: each client's forwarded ports, then the client; then Clear. */
    method DisposeAllSshClients()
      modifies this
      ensures trace == old(trace) + Session.DisposalTrace(old(clients)) && clients == []
      ensures configs == old(configs) && lines == old(lines) && keys == old(keys)
    {
      var n := 0;
      while n < |clients|
        invariant n <= |clients| && clients == old(clients)
        invariant trace == old(trace) + Session.DisposalTrace(clients[..n])
        invariant configs == old(configs) && lines == old(lines) && keys == old(keys)
      {
        var c := clients[n];
        assert clients[..n + 1][..n] == clients[..n];
        assert Session.DisposalTrace(clients[..n + 1]) ==
               Session.DisposalTrace(clients[..n]) + Session.ForwardDisposals(c.host, c.forwards) + [DisposeClient(c.host)];
        DisposeForwards(c);
        trace := trace + [DisposeClient(c.host)];
        n := n + 1;
      }
      assert clients[..n] == clients;
      clients := [];
    }

    /** The prompt loop of Main: read lines until one is a command; end of input quits. */
    method AwaitCommand() returns (cmd: Commands.Command)
      modifies this
      ensures var a := Commands.NextCommand(old(lines));
        cmd == a.cmd && lines == old(lines)[a.consumed..]
      ensures configs == old(configs) && keys == old(keys) && clients == old(clients) && trace == old(trace)
    {
      ghost var input := lines;
      ghost var goal := Commands.NextCommand(input);
      ghost var read := 0;
      while true
        invariant read <= |input| && lines == input[read..]
        invariant goal.cmd == Commands.NextCommand(lines).cmd
        invariant goal.consumed == Commands.NextCommand(lines).consumed + read
        invariant configs == old(configs) && keys == old(keys) && clients == old(clients) && trace == old(trace)
        decreases |lines|
      {
        ghost var rest := lines;
        var line := ReadLine();
        cmd := Commands.ParseCommand(line);
        if line.None? {
          assert Commands.NextCommand(rest) == Commands.Awaited(Commands.Quit, 0);
          return;
        }
        Commands.NextCommandStep(rest);
        assert input[read..][1..] == input[read + 1..];
        if cmd != Commands.Unrecognized {
          return;
        }
        read := read + 1;
      }
    }

    /**
     * One pass of Main's loop: a round, then, unless it threw, the prompt and
     * the teardown. `done` when the program ends, with its status; the
     * finally block disposes Main's list once more.
     */
    method RunRound() returns (done: bool, status: int)
      requires clients == []
      modifies this
      ensures var st := Session.SessionStep(old(configs), old(lines), old(keys), old(trace), others, net);
        && done == st.Done?
        && (done ==> st.exit == Session.Exit(status, trace))
        && (!done ==> st == Session.Again(configs, lines, keys, trace))
      ensures clients == []
    {
      var ok, list := StartLocalForward();
      if !ok {
        DisposeAllSshClients();
        return true, 1;
      }
      clients := list;
      var cmd := AwaitCommand();
      DisposeAllSshClients();
      if cmd != Commands.Retry {
        DisposeAllSshClients();
        return true, 0;
      }
      done, status := false, 0;
    }

    /** The loop of Main after loading: passes until the program ends. */
    method Run() returns (status: int)
      requires clients == []
      modifies this
      ensures Session.SessionFrom(old(configs), old(lines), old(keys), old(trace), others, net) == Session.Exit(status, trace)
    {
      while true
        invariant clients == []
        invariant Session.SessionFrom(configs, lines, keys, trace, others, net) ==
                  Session.SessionFrom(old(configs), old(lines), old(keys), old(trace), others, net)
        decreases |lines|
      {
        var done;
        done, status := RunRound();
        if done {
          return;
        }
      }
    }
  }

  /** The foreach over the configuration files of Main; None when one fails to load. */
  method LoadAll(loaded: seq<Option<seq<ProxyConfig>>>) returns (configs: Option<seq<ProxyConfig>>)
    ensures Session.AllLoaded(loaded) ==> configs == Some(Session.Concat(Session.Values(loaded)))
    ensures !Session.AllLoaded(loaded) ==> configs == None
  {
    var list := [];
    var n := 0;
    while n < |loaded|
      invariant n <= |loaded|
      invariant Session.AllLoaded(loaded[..n]) && list == Session.Concat(Session.Values(loaded[..n]))
    {
      if loaded[n].None? {
        return None;
      }
      assert Session.Values(loaded[..n + 1]) == Session.Values(loaded[..n]) + [loaded[n].value];
      list := list + loaded[n].value;
      n := n + 1;
    }
    assert loaded[..n] == loaded;
    configs := Some(list);
  }

  /**
   * Main: load every configuration file, then run. The status and the calls
   * made into the SSH library are those Session.MainExit describes.
   */
  method Launch(loaded: seq<Option<seq<ProxyConfig>>>, lines: seq<string>, keys: seq<ConsoleEx.KeyInfo>,
                others: Ports.PortTables, net: Network)
    returns (status: int, trace: seq<Call>)
    ensures Session.MainExit(loaded, lines, keys, others, net) == Session.Exit(status, trace)
  {
    var configs := LoadAll(loaded);
    if configs.None? {
      return 1, [];
    }
    var f := new Forwarder(configs.value, lines, keys, others, net);
    status := f.Run();
    trace := f.trace;
  }
}
