/** Choosing a host port for a published container port (docker.go). */
module Ports {
  import opened Store

  datatype HostPort = Ephemeral | Fixed(port: nat) | Exhausted

  /** The first port from `port` on that is not in use, looking at `left` of them. */
  function Sweep(low: nat, high: nat, used: set<nat>, port: nat, left: nat): HostPort
    decreases left
  {
    if left == 0 then Exhausted
    else if port !in used then Fixed(port)
    else Sweep(low, high, used, if port + 1 > high then low else port + 1, left - 1)
  }

  /** The port a start gets whose random number is `draw`. */
  function FreePort(low: nat, high: nat, used: set<nat>, draw: nat): HostPort
    requires low == 0 || low <= high
  {
    if low == 0 then Ephemeral else Sweep(low, high, used, low + draw % (high - low + 1), high - low + 1)
  }

  /**
   A sweep over the whole range from a random start.  An empty range setting
   leaves the choice to Docker.
   */
  method GetFreePort(low: nat, high: nat, used: set<nat>) returns (r: HostPort, ghost draw: nat)
    requires low == 0 || low <= high
    ensures r == FreePort(low, high, used, draw)
    ensures low == 0 <==> r == Ephemeral
    ensures r.Fixed? ==> low <= r.port <= high && r.port !in used
    ensures r == Exhausted <==> low != 0 && forall p | low <= p <= high :: p in used
  {
    var offset: nat := *;
    draw := offset;
    if low == 0 {
      return Ephemeral, draw;
    }
    var numPorts := high - low + 1;
    var first := low + offset % numPorts;
    var port := first;
    var i := 0;
    while i < numPorts
      invariant 0 <= i <= numPorts
      invariant port == if first + i <= high then first + i else first + i - numPorts
      invariant forall p | first <= p < first + i && p <= high :: p in used
      invariant forall p | low <= p < first + i - numPorts :: p in used
      invariant Sweep(low, high, used, first, numPorts) == Sweep(low, high, used, port, numPorts - i)
    {
      if port !in used {
        return Fixed(port), draw;
      }
      port := port + 1;
      if port > high {
        port := low;
      }
      i := i + 1;
    }
    return Exhausted, draw;
  }

  /** What a start asks for under a name: the port the name had, or what the sweep from its
      random number finds. */
  function PortOf(used: set<nat>, low: nat, high: nat, preferred: map<string, nat>, draws: map<string, nat>, n: string): HostPort
    requires (low == 0 || low <= high) && (n in preferred || n in draws)
  {
    if n in preferred then Fixed(preferred[n]) else FreePort(low, high, used, draws[n])
  }

  /** Whatever the draw, the sweep ends at a free port of the range. */
  lemma {:induction false} SweepFindsFree(low: nat, high: nat, used: set<nat>, port: nat, left: nat)
    requires low <= port <= high
    ensures var r := Sweep(low, high, used, port, left);
      !r.Ephemeral? && (r.Fixed? ==> low <= r.port <= high && r.port !in used)
    decreases left
  {
    if left > 0 && port in used { SweepFindsFree(low, high, used, if port + 1 > high then low else port + 1, left - 1); }
  }

  lemma FreePortIsFree(low: nat, high: nat, used: set<nat>, draw: nat)
    requires low == 0 || low <= high
    ensures var r := FreePort(low, high, used, draw); r.Fixed? ==> low != 0 && low <= r.port <= high && r.port !in used
  {
    if low != 0 { SweepFindsFree(low, high, used, low + draw % (high - low + 1), high - low + 1); }
  }

  /** Every free port is somebody's draw. */
  lemma AnyFreePortCanBeDrawn(low: nat, high: nat, used: set<nat>, p: nat)
    requires 0 < low <= p <= high && p !in used
    ensures FreePort(low, high, used, p - low) == Fixed(p)
  {
    var n := high - low + 1;
    assert (p - low) % n == p - low;
  }
}
