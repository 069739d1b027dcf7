/** When there are host ports for everything an instance publishes (docker.go). */
module Placement {
  import opened Store

  /** The ports a new name can be given. */
  ghost function SparePorts(db: Db, low: nat, high: nat): set<nat> {
    set p | 1 <= p < 65536 && (low == 0 || low <= p <= high) && p !in UsedPorts(db)
  }

  /** The names without a port to keep. */
  ghost function NewNames(names: set<string>, preferred: map<string, nat>): set<string> {
    names - preferred.Keys
  }

  /** There are ports for the new names.  With a port range there may be one such name, since two
      can be drawn the same port; Docker's own picks never collide. */
  ghost predicate Placeable(db: Db, low: nat, high: nat, names: set<string>, preferred: map<string, nat>) {
    |NewNames(names, preferred)| <= |SparePorts(db, low, high)| && Distinguishable(low, high, names, preferred)
  }

  ghost predicate Distinguishable(low: nat, high: nat, names: set<string>, preferred: map<string, nat>) {
    low != 0 && NewNames(names, preferred) != {} ==> |NewNames(names, preferred)| == 1 && high < 65536
  }

  /** Names keep the ports they had, new ones have unused ones, all different. */
  ghost predicate WellPlaced(db: Db, low: nat, high: nat, preferred: map<string, nat>, ports: map<string, nat>) {
    && (forall n | n in ports :: if n in preferred then ports[n] == preferred[n] else ports[n] in SparePorts(db, low, high))
    && Different(ports)
  }

  ghost predicate Different(ports: map<string, nat>) {
    forall n, k | n in ports && k in ports && n != k :: ports[n] != ports[k]
  }

  /** The ports to keep are on record, and apart. */
  ghost predicate Keepable(db: Db, preferred: map<string, nat>) {
    Different(preferred) && forall n | n in preferred :: 0 < preferred[n] < 65536 && preferred[n] in UsedPorts(db)
  }

  lemma NothingPlaced(db: Db, low: nat, high: nat, preferred: map<string, nat>)
    ensures WellPlaced(db, low, high, preferred, map[])
  {
  }

  lemma {:induction false} SubsetCounts<T>(a: set<T>, b: set<T>)
    requires a <= b
    ensures |a| <= |b|
    decreases b
  {
    if x :| x in a {
      SubsetCounts(a - {x}, b - {x});
    }
  }

  /** The ports that the new names among `ports` have. */
  ghost function NewPorts(preferred: map<string, nat>, ports: map<string, nat>): set<nat> {
    PortsOf(ports, ports.Keys - preferred.Keys)
  }

  ghost function PortsOf(ports: map<string, nat>, names: set<string>): set<nat>
    requires names <= ports.Keys
  {
    set n | n in names :: ports[n]
  }

  lemma {:induction false} FewPorts(ports: map<string, nat>, names: set<string>)
    requires names <= ports.Keys
    ensures |PortsOf(ports, names)| <= |names|
    decreases |names|
  {
    if n :| n in names {
      FewPorts(ports, names - {n});
      assert PortsOf(ports, names) == PortsOf(ports, names - {n}) + {ports[n]};
    } else {
      assert PortsOf(ports, names) == {};
    }
  }

  lemma SetMinus<T>(a: set<T>, b: set<T>, c: set<T>)
    requires a - b <= c
    ensures |a| <= |b| + |c|
  {
    SubsetCounts(a - b, c);
    SubsetCounts(a * b, b);
    assert a == (a - b) + a * b;
    assert |a| == |a - b| + |a * b|;
  }

  lemma Disjoint<T>(a: set<T>, b: set<T>, c: set<T>)
    requires a <= c && b <= c && a !! b
    ensures |a| + |b| <= |c|
  {
    SubsetCounts(a + b, c);
    assert |a + b| == |a| + |b|;
  }

  /** Without a range, what earlier containers took still leaves enough for the next one. */
  lemma RoomForNext(unused: set<nat>, left: set<nat>, names: set<string>, preferred: map<string, nat>, ports: map<string, nat>, next: set<string>)
    requires |NewNames(names, preferred)| <= |unused| && ports.Keys + next <= names && ports.Keys !! next
    requires unused - NewPorts(preferred, ports) <= left
    ensures |next - preferred.Keys| <= |left|
  {
    hide PortsOf;
    var had, more := ports.Keys - preferred.Keys, next - preferred.Keys;
    assert had <= NewNames(names, preferred) && more <= NewNames(names, preferred) && had !! more;
    Disjoint(had, more, NewNames(names, preferred));
    FewPorts(ports, had);
    SetMinus(unused, NewPorts(preferred, ports), left);
  }

  /** With a range there is at most one new name, so what it draws is nobody's yet. */
  lemma OneNewName(db: Db, low: nat, high: nat, names: set<string>, preferred: map<string, nat>, n: string, k: string)
    requires low != 0 && Placeable(db, low, high, names, preferred)
    requires n in names && k in names && n !in preferred && k !in preferred
    ensures n == k
  {
    var new_ := NewNames(names, preferred);
    SubsetCounts({n, k}, new_);
    assert |{n}| == 1 && (n != k ==> |{n, k}| == 2);
  }

  /** New names take one spare port each, and giving up ports takes none. */
  lemma SpareAfter(db: Db, d: Db, low: nat, high: nat, preferred: map<string, nat>, ports: map<string, nat>)
    requires forall p | p in UsedPorts(d) :: p in UsedPorts(db) || p in NewPorts(preferred, ports)
    ensures |SparePorts(db, low, high)| <= |SparePorts(d, low, high)| + |ports.Keys - preferred.Keys|
  {
    hide UsedPorts, PortsOf;
    FewPorts(ports, ports.Keys - preferred.Keys);
    SetMinus(SparePorts(db, low, high), NewPorts(preferred, ports), SparePorts(d, low, high));
  }

  lemma PortsPlaced(db: Db, low: nat, high: nat, preferred: map<string, nat>, ports: map<string, nat>, more: map<string, nat>)
    requires WellPlaced(db, low, high, preferred, ports) && WellPlaced(db, low, high, preferred, more) && ports.Keys !! more.Keys
    requires forall n, k | n in ports && k in more :: ports[n] != more[k]
    ensures WellPlaced(db, low, high, preferred, ports + more)
  {
  }
}
