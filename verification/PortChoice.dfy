/** When one start asks Docker for the same host port twice (docker.go). */
module PortChoice {
  import opened Store
  import opened Ports

  /** The random numbers of a start, and the rows each of its sweeps sees.  Its own new ports are
      written at its end, but rows may go meanwhile: a stop does not take the port lock.  What
      is in `floor` stays. */
  datatype Sweeps = Sweeps(draws: map<string, nat>, seen: map<string, set<nat>>)

  ghost predicate Possible(db: Db, floor: set<nat>, names: set<string>, sweeps: Sweeps) {
    && names <= sweeps.draws.Keys && names <= sweeps.seen.Keys
    && (forall n | n in sweeps.seen :: floor <= sweeps.seen[n] <= UsedPorts(db))
  }

  function Wanted(low: nat, high: nat, preferred: map<string, nat>, sweeps: Sweeps, n: string): HostPort
    requires (low == 0 || low <= high) && n in sweeps.draws && n in sweeps.seen
  {
    PortOf(sweeps.seen[n], low, high, preferred, sweeps.draws, n)
  }

  /** Two names the start publishes are to have the same port. */
  ghost predicate AsksTwice(low: nat, high: nat, names: set<string>, preferred: map<string, nat>, sweeps: Sweeps)
    requires (low == 0 || low <= high) && names <= sweeps.draws.Keys && names <= sweeps.seen.Keys
  {
    exists n, k | n in names && k in names && n != k ::
      Wanted(low, high, preferred, sweeps, n).Fixed? && Wanted(low, high, preferred, sweeps, n) == Wanted(low, high, preferred, sweeps, k)
  }

  /** A first start has no ports to keep, a replacement keeps those on record, and nobody takes
      them off the record meanwhile. */
  ghost predicate OnRecord(db: Db, floor: set<nat>, preferred: map<string, nat>) {
    && (forall n | n in preferred :: preferred[n] in floor)
    && (preferred == map[] || exists i :: i in db.instances && db.instances[i].runtime.ports == preferred)
  }

  /** Two names without a port to keep, and a port that is free or may become so. */
  ghost predicate CanClash(floor: set<nat>, low: nat, high: nat, names: set<string>, preferred: map<string, nat>) {
    && low != 0
    && (exists n, k :: n in names - preferred.Keys && k in names - preferred.Keys && n != k)
    && (exists p :: low <= p <= high && p !in floor)
  }

  lemma KeptAreApart(db: Db, floor: set<nat>, low: nat, high: nat, names: set<string>, preferred: map<string, nat>, sweeps: Sweeps, n: string, k: string)
    requires (low == 0 || low <= high) && UniquePorts(db.instances) && OnRecord(db, floor, preferred) && Possible(db, floor, names, sweeps)
    requires n in names && k in names && n in preferred && n != k
    ensures Wanted(low, high, preferred, sweeps, n) != Wanted(low, high, preferred, sweeps, k)
  {
    var i :| i in db.instances && db.instances[i].runtime.ports == preferred;
    assert db.instances[i].runtime.ports[n] == preferred[n];
    if k in preferred {
      assert db.instances[i].runtime.ports[k] == preferred[k];
    } else {
      FreePortIsFree(low, high, sweeps.seen[k], sweeps.draws[k]);
    }
  }

  /** A start can come to ask twice for one port if and only if it has two names without a port
      to keep and there is a port in the range that does not stay recorded.  Where nothing is
      stopped beside it `floor` is all that is recorded, and that means a free port. */
  lemma AsksTwiceIff(db: Db, floor: set<nat>, low: nat, high: nat, names: set<string>, preferred: map<string, nat>)
    requires (low == 0 || low <= high) && UniquePorts(db.instances) && OnRecord(db, floor, preferred) && floor <= UsedPorts(db)
    ensures (exists sweeps | Possible(db, floor, names, sweeps) :: AsksTwice(low, high, names, preferred, sweeps))
      <==> CanClash(floor, low, high, names, preferred)
  {
    if sweeps :| Possible(db, floor, names, sweeps) && AsksTwice(low, high, names, preferred, sweeps) {
      TwiceNeedsTwoNew(db, floor, low, high, names, preferred, sweeps);
    }
    if CanClash(floor, low, high, names, preferred) {
      var sweeps := ClashingSweeps(db, floor, low, high, names, preferred);
    }
  }

  lemma TwiceNeedsTwoNew(db: Db, floor: set<nat>, low: nat, high: nat, names: set<string>, preferred: map<string, nat>, sweeps: Sweeps)
    requires (low == 0 || low <= high) && UniquePorts(db.instances) && OnRecord(db, floor, preferred) && Possible(db, floor, names, sweeps)
    requires AsksTwice(low, high, names, preferred, sweeps)
    ensures CanClash(floor, low, high, names, preferred)
  {
    hide UniquePorts, OnRecord, FreePort, UsedPorts;
    var n, k :| n in names && k in names && n != k
      && Wanted(low, high, preferred, sweeps, n).Fixed? && Wanted(low, high, preferred, sweeps, n) == Wanted(low, high, preferred, sweeps, k);
    if n in preferred { KeptAreApart(db, floor, low, high, names, preferred, sweeps, n, k); }
    if k in preferred { KeptAreApart(db, floor, low, high, names, preferred, sweeps, k, n); }
    FreePortIsFree(low, high, sweeps.seen[n], sweeps.draws[n]);
    var p := FreePort(low, high, sweeps.seen[n], sweeps.draws[n]).port;
    assert low <= p <= high && p !in floor;
    assert n in names - preferred.Keys && k in names - preferred.Keys;
  }

  lemma ClashingSweeps(db: Db, floor: set<nat>, low: nat, high: nat, names: set<string>, preferred: map<string, nat>) returns (sweeps: Sweeps)
    requires (low == 0 || low <= high) && CanClash(floor, low, high, names, preferred) && floor <= UsedPorts(db)
    ensures Possible(db, floor, names, sweeps) && AsksTwice(low, high, names, preferred, sweeps)
  {
    hide UsedPorts, FreePort;
    var n, k :| n in names - preferred.Keys && k in names - preferred.Keys && n != k;
    var p :| low <= p <= high && p !in floor;
    sweeps := Sweeps(map x | x in names :: p - low, map x | x in names :: floor);
    AnyFreePortCanBeDrawn(low, high, floor, p);
    assert Wanted(low, high, preferred, sweeps, n) == Fixed(p) == Wanted(low, high, preferred, sweeps, k);
  }
}
