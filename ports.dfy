/**
 * Free-port discovery (GetUsedPortSet and GetAvailablePort in Program.cs).
 * The operating system's port enumeration is replaced by the three port
 * lists it would report.
 */
module Ports {

  /** Largest port number; also the literal upper bound of the scan. */
  const MaxPort := 65535
  /** Default bounds of GetAvailablePort (the dynamic/private port range). */
  const DefaultStartPort := 49152
  const DefaultEndPort := 65535
  /** What GetAvailablePort returns when no port is free. */
  const NotFound := -1

  /** The local ports the operating system reports as in use. */
  datatype PortTables = PortTables(
    tcpConnections: seq<int>,   // local ends of active TCP connections
    tcpListeners: seq<int>,     // active TCP listeners
    udpListeners: seq<int>)     // active UDP listeners

  /** A port is in use when any of the three tables lists it. */
  predicate Listed(t: PortTables, p: int) {
    p in t.tcpConnections || p in t.tcpListeners || p in t.udpListeners
  }

  /** The used ports restricted to [startPort, endPort]. */
  function UsedPorts(t: PortTables, startPort: int, endPort: int): (used: set<int>)
    ensures forall p :: p in used <==> Listed(t, p) && startPort <= p <= endPort
  {
    set p | p in t.tcpConnections + t.tcpListeners + t.udpListeners && startPort <= p <= endPort
  }

  /**
   * The first port at or above `from`, up to MaxPort, that `used` does not
   * hold; NotFound if there is none.
   */
  function FirstFree(used: set<int>, from: int): (r: int)
    decreases MaxPort + 1 - from
    ensures r == NotFound || (from <= r <= MaxPort && r !in used)
    ensures r != NotFound ==> forall q :: from <= q < r ==> q in used
    ensures from >= 0 ==> (r == NotFound <==> forall q :: from <= q <= MaxPort ==> q in used)
  {
    if from > MaxPort then NotFound
    else if from !in used then from
    else FirstFree(used, from + 1)
  }

  /** The result GetAvailablePort computes for the given tables and bounds. */
  function AvailablePort(t: PortTables, startPort: int, endPort: int): int {
    FirstFree(UsedPorts(t, startPort, endPort), startPort)
  }

  /** Collects the listed ports that lie in [startPort, endPort]. */
  method GetUsedPortSet(t: PortTables, startPort: int, endPort: int) returns (used: set<int>)
    ensures used == UsedPorts(t, startPort, endPort)
  {
    used := {};
    var i := 0;
    while i < |t.tcpConnections|
      invariant 0 <= i <= |t.tcpConnections|
      invariant used == set p | p in t.tcpConnections[..i] && startPort <= p <= endPort
    {
      var port := t.tcpConnections[i];
      if startPort <= port && port <= endPort {
        used := used + {port};
      }
      assert t.tcpConnections[..i + 1] == t.tcpConnections[..i] + [port];
      i := i + 1;
    }
    assert t.tcpConnections[..i] == t.tcpConnections;
    ghost var fromConnections := used;
    i := 0;
    while i < |t.tcpListeners|
      invariant 0 <= i <= |t.tcpListeners|
      invariant used == fromConnections + set p | p in t.tcpListeners[..i] && startPort <= p <= endPort
    {
      var port := t.tcpListeners[i];
      if startPort <= port && port <= endPort {
        used := used + {port};
      }
      assert t.tcpListeners[..i + 1] == t.tcpListeners[..i] + [port];
      i := i + 1;
    }
    assert t.tcpListeners[..i] == t.tcpListeners;
    ghost var fromTcp := used;
    i := 0;
    while i < |t.udpListeners|
      invariant 0 <= i <= |t.udpListeners|
      invariant used == fromTcp + set p | p in t.udpListeners[..i] && startPort <= p <= endPort
    {
      var port := t.udpListeners[i];
      if startPort <= port && port <= endPort {
        used := used + {port};
      }
      assert t.udpListeners[..i + 1] == t.udpListeners[..i] + [port];
      i := i + 1;
    }
    assert t.udpListeners[..i] == t.udpListeners;
  }

  /**
   * Scans upward from startPort for a port not in use. The scan stops at the
   * literal MaxPort, not at endPort, while the used set only covers
   * [startPort, endPort].
   */
  method GetAvailablePort(t: PortTables, startPort: int, endPort: int) returns (port: int)
    ensures port == AvailablePort(t, startPort, endPort)
    ensures port != NotFound ==> startPort <= port <= MaxPort && !(Listed(t, port) && port <= endPort)
    ensures port != NotFound ==> AllListed(t, startPort, port, endPort)
    ensures startPort >= 0 ==> (port == NotFound <==> AllListed(t, startPort, MaxPort + 1, endPort))
  {
    AvailablePortMeans(t, startPort, endPort);
    var usedPortSet := GetUsedPortSet(t, startPort, endPort);
    port := startPort;
    while port <= MaxPort
      invariant startPort <= port
      invariant FirstFree(usedPortSet, port) == FirstFree(usedPortSet, startPort)
      decreases MaxPort + 1 - port
    {
      if port !in usedPortSet {
        assert FirstFree(usedPortSet, startPort) == port;
        return;
      }
      port := port + 1;
    }
    assert FirstFree(usedPortSet, port) == NotFound;
    port := NotFound;
  }

  /** Every port of [lo, hi) is listed, and none of them lies above endPort. */
  predicate AllListed(t: PortTables, lo: int, hi: int, endPort: int) {
    forall q :: lo <= q < hi ==> Listed(t, q) && q <= endPort
  }

  /**
   * The result of the scan in terms of the port tables: a port it returns
   * lies in [startPort, MaxPort] and is not listed within [startPort, endPort];
   * every port below it from startPort on is listed within the bounds; it
   * finds nothing exactly when all of [startPort, MaxPort] is listed within
   * them.
   */
  lemma AvailablePortMeans(t: PortTables, startPort: int, endPort: int)
    ensures var r := AvailablePort(t, startPort, endPort);
      && (r != NotFound ==> startPort <= r <= MaxPort && !(Listed(t, r) && r <= endPort))
      && (r != NotFound ==> AllListed(t, startPort, r, endPort))
      && (startPort >= 0 ==> (r == NotFound <==> AllListed(t, startPort, MaxPort + 1, endPort)))
  {
    var used := UsedPorts(t, startPort, endPort);
    var r := AvailablePort(t, startPort, endPort);
    assert r == FirstFree(used, startPort);
    if r != NotFound {
      assert r !in used;
      assert !(Listed(t, r) && r <= endPort);
      assert AllListed(t, startPort, r, endPort) by {
        forall q | startPort <= q < r
          ensures Listed(t, q) && q <= endPort
        {
          assert q in used;
        }
      }
      if startPort >= 0 {
        assert !AllListed(t, startPort, MaxPort + 1, endPort);
      }
    } else if startPort >= 0 {
      assert AllListed(t, startPort, MaxPort + 1, endPort) by {
        forall q | startPort <= q <= MaxPort
          ensures Listed(t, q) && q <= endPort
        {
          assert q in used;
        }
      }
    }
  }

  /**
   * With endPort below MaxPort the scan runs past endPort: every port above
   * endPort is outside the used set, so a port is always found, and it is
   * endPort + 1 when all of [startPort, endPort] is in use.
   */
  lemma {:induction false} ScanRunsPastEndPort(t: PortTables, startPort: int, endPort: int)
    requires 0 <= startPort <= endPort < MaxPort
    requires forall q :: startPort <= q <= endPort ==> Listed(t, q)
    ensures AvailablePort(t, startPort, endPort) == endPort + 1
  {
    assert endPort + 1 !in UsedPorts(t, startPort, endPort);
  }

  /** With the default bounds the result is NotFound or a port of the dynamic range. */
  lemma DefaultRangeResult(t: PortTables)
    ensures var r := AvailablePort(t, DefaultStartPort, DefaultEndPort);
      r == NotFound || DefaultStartPort <= r <= DefaultEndPort
    ensures AvailablePort(t, DefaultStartPort, DefaultEndPort) != 0
  {
  }

  /** A found port is the unique least free port: the result does not depend on how it is searched. */
  lemma {:induction false} FirstFreeIsLeast(used: set<int>, from: int, p: int)
    requires 0 <= from <= p <= MaxPort && p !in used
    requires forall q :: from <= q < p ==> q in used
    ensures FirstFree(used, from) == p
  {
  }
}
