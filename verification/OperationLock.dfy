/**
 The operation lock: a read-write mutex inside each manager, an exclusive gate file every
 operation passes through, and a shared or exclusive lock file behind it (operation_lock.go).
 Managers may live in different processes; threads belong to one manager.
 */
module OperationLock {

  type ThreadId = nat
  type ManagerId = nat

  datatype Option<+T> = None | Some(value: T)

  /** How far an acquisition or a release has come. */
  datatype Phase =
    | Idle
    | Waiting        // for the manager's mutex
    | Local          // holds the mutex, wants the gate
    | Gated          // holds mutex and gate, wants the main lock
    | Locked         // holds mutex, gate and main lock
    | Inside         // holds mutex and main lock: the operation runs
    | BackingOut     // failed behind the gate, still holds mutex and gate
    | Unlocking      // failed or finished, still holds the mutex

  datatype Thread = Thread(manager: ManagerId, phase: Phase, exclusive: bool, nonblocking: bool)

  /** A writer that waits for readers announces itself, which keeps later readers out; one that
      waits for another writer has not got that far. */
  datatype RWMutex = RWMutex(readers: set<ThreadId>, writer: Option<ThreadId>, announced: Option<ThreadId>)

  const FREE := RWMutex({}, None, None)

  datatype State = State(
    threads: map<ThreadId, Thread>,
    local: map<ManagerId, RWMutex>,
    gate: Option<ThreadId>,
    shared: set<ThreadId>,
    owner: Option<ThreadId>)

  datatype Step =
    | Begin(t: ThreadId, exclusive: bool, nonblocking: bool)
    | Announce(t: ThreadId)
    | TakeLocal(t: ThreadId)
    | LocalBusy(t: ThreadId)
    | TakeGate(t: ThreadId)
    | GateRefused(t: ThreadId)
    | TakeMain(t: ThreadId)
    | MainRefused(t: ThreadId)
    | DropGate(t: ThreadId)
    | DropGateAfterRefusal(t: ThreadId)
    | Leave(t: ThreadId)
    | DropLocal(t: ThreadId)
    | Crash(manager: ManagerId)

  // ------------------------------------------------------------------ steps

  predicate LocalFree(x: RWMutex, t: ThreadId, exclusive: bool, nonblocking: bool) {
    if !exclusive then x.writer == None && x.announced == None
    else if nonblocking then x.writer == None && x.announced == None && x.readers == {}
    else x.announced == Some(t) && x.writer == None && x.readers == {}
  }

  predicate MainFree(s: State, exclusive: bool) {
    s.owner == None && (exclusive ==> s.shared == {})
  }

  predicate In(s: State, t: ThreadId, phase: Phase) {
    t in s.threads && s.threads[t].phase == phase && s.threads[t].manager in s.local
  }

  /** A refusal is contention on a non-blocking attempt, or an error at any time. */
  predicate Enabled(s: State, step: Step) {
    match step
    case Begin(t, _, _) => In(s, t, Idle)
    case Announce(t) =>
      && In(s, t, Waiting) && s.threads[t].exclusive && !s.threads[t].nonblocking
      && s.local[s.threads[t].manager].announced == None && s.local[s.threads[t].manager].writer == None
    case TakeLocal(t) => In(s, t, Waiting) && LocalFree(s.local[s.threads[t].manager], t, s.threads[t].exclusive, s.threads[t].nonblocking)
    case LocalBusy(t) =>
      && In(s, t, Waiting) && s.threads[t].nonblocking
      && !LocalFree(s.local[s.threads[t].manager], t, s.threads[t].exclusive, true)
    case TakeGate(t) => In(s, t, Local) && s.gate == None
    case GateRefused(t) => In(s, t, Local)
    case TakeMain(t) => In(s, t, Gated) && MainFree(s, s.threads[t].exclusive)
    case MainRefused(t) => In(s, t, Gated)
    case DropGate(t) => In(s, t, Locked)
    case DropGateAfterRefusal(t) => In(s, t, BackingOut)
    case Leave(t) => In(s, t, Inside)
    case DropLocal(t) => In(s, t, Unlocking)
    case Crash(x) => x in s.local
  }

  function To(s: State, t: ThreadId, phase: Phase): State
    requires t in s.threads
  {
    s.(threads := s.threads[t := s.threads[t].(phase := phase)])
  }

  function Locally(s: State, t: ThreadId, x: RWMutex): State
    requires t in s.threads
  {
    s.(local := s.local[s.threads[t].manager := x])
  }

  function Without<T>(holder: Option<T>, gone: set<T>): Option<T> {
    if holder.Some? && holder.value in gone then None else holder
  }

  function ThreadsOf(s: State, x: ManagerId): set<ThreadId> {
    set t | t in s.threads && s.threads[t].manager == x
  }

  function Apply(s: State, step: Step): State
    requires Enabled(s, step)
  {
    match step
    case Begin(t, exclusive, nonblocking) =>
      s.(threads := s.threads[t := s.threads[t].(phase := Waiting, exclusive := exclusive, nonblocking := nonblocking)])
    case Announce(t) => Locally(s, t, s.local[s.threads[t].manager].(announced := Some(t)))
    case TakeLocal(t) =>
      var x := s.local[s.threads[t].manager];
      To(Locally(s, t, if s.threads[t].exclusive then RWMutex(x.readers, Some(t), Without(x.announced, {t})) else x.(readers := x.readers + {t})), t, Local)
    case LocalBusy(t) => To(s, t, Idle)
    case TakeGate(t) => To(s, t, Gated).(gate := Some(t))
    case GateRefused(t) => To(s, t, Unlocking)
    case TakeMain(t) =>
      var locked := To(s, t, Locked);
      if s.threads[t].exclusive then locked.(owner := Some(t)) else locked.(shared := s.shared + {t})
    case MainRefused(t) => To(s, t, BackingOut)
    case DropGate(t) => To(s, t, Inside).(gate := None)
    case DropGateAfterRefusal(t) => To(s, t, Unlocking).(gate := None)
    case Leave(t) => To(s, t, Unlocking).(owner := Without(s.owner, {t}), shared := s.shared - {t})
    case DropLocal(t) =>
      var x := s.local[s.threads[t].manager];
      To(Locally(s, t, x.(readers := x.readers - {t}, writer := Without(x.writer, {t}))), t, Idle)
    case Crash(x) =>
      // The kernel drops the file locks; the mutex dies with the process.
      var gone := ThreadsOf(s, x);
      State(map t | t in s.threads :: if t in gone then s.threads[t].(phase := Idle) else s.threads[t],
            s.local[x := FREE], Without(s.gate, gone), s.shared - gone, Without(s.owner, gone))
  }

  // -------------------------------------------------------------- invariant

  predicate HoldsLocal(p: Phase) {
    p == Local || p == Gated || p == Locked || p == Inside || p == BackingOut || p == Unlocking
  }

  predicate HoldsGate(p: Phase) {
    p == Gated || p == Locked || p == BackingOut
  }

  predicate HoldsMain(p: Phase) {
    p == Locked || p == Inside
  }

  predicate Is(s: State, t: ThreadId, exclusive: bool) {
    t in s.threads && s.threads[t].exclusive == exclusive
  }

  ghost predicate GateInv(s: State) {
    forall t :: s.gate == Some(t) <==> t in s.threads && HoldsGate(s.threads[t].phase)
  }

  ghost predicate MainInv(s: State) {
    && (forall t :: t in s.shared <==> Is(s, t, false) && HoldsMain(s.threads[t].phase))
    && (forall t :: s.owner == Some(t) <==> Is(s, t, true) && HoldsMain(s.threads[t].phase))
    && (s.owner.Some? ==> s.shared == {})
  }

  predicate Holds(threads: map<ThreadId, Thread>, x: ManagerId, t: ThreadId, exclusive: bool) {
    t in threads && threads[t].manager == x && threads[t].exclusive == exclusive && HoldsLocal(threads[t].phase)
  }

  predicate Announcing(threads: map<ThreadId, Thread>, x: ManagerId, t: ThreadId) {
    t in threads && threads[t].manager == x && threads[t].exclusive && threads[t].phase == Waiting && !threads[t].nonblocking
  }

  /** The mutex of one manager says who holds it. */
  ghost predicate LocalOk(threads: map<ThreadId, Thread>, x: ManagerId, mutex: RWMutex) {
    && (forall t :: t in mutex.readers <==> Holds(threads, x, t, false))
    && (forall t: ThreadId :: mutex.writer == Some(t) <==> Holds(threads, x, t, true))
    && (mutex.announced.Some? ==> Announcing(threads, x, mutex.announced.value))
    && (mutex.writer.Some? ==> mutex.readers == {})
  }

  ghost predicate LocalInv(s: State) {
    && (forall t | t in s.threads :: s.threads[t].manager in s.local)
    && (forall x | x in s.local :: LocalOk(s.threads, x, s.local[x]))
  }

  ghost predicate Inv(s: State) {
    GateInv(s) && MainInv(s) && LocalInv(s)
  }

  ghost predicate Init(s: State) {
    && (forall t | t in s.threads :: s.threads[t].phase == Idle && s.threads[t].manager in s.local)
    && (forall x | x in s.local :: s.local[x] == FREE)
    && s.gate == None && s.shared == {} && s.owner == None
  }

  lemma InitInv(s: State)
    requires Init(s)
    ensures Inv(s)
  {
  }

  lemma GateKept(s: State, step: Step)
    requires Inv(s) && Enabled(s, step)
    ensures GateInv(Apply(s, step))
  {
    hide MainInv, LocalInv, LocalFree, MainFree;
  }

  /** A change of phase that leaves the main lock alone. */
  lemma MainTo(s: State, d: State, t: ThreadId)
    requires MainInv(s) && t in s.threads && t in d.threads && d.threads == s.threads[t := d.threads[t]]
    requires HoldsMain(s.threads[t].phase) == HoldsMain(d.threads[t].phase)
    requires HoldsMain(s.threads[t].phase) ==> d.threads[t].exclusive == s.threads[t].exclusive
    requires d.shared == s.shared && d.owner == s.owner
    ensures MainInv(d)
  {
  }

  lemma MainMoves(s: State, step: Step)
    requires MainInv(s) && Enabled(s, step) && (step.TakeMain? || step.Leave?)
    ensures MainInv(Apply(s, step))
  {
  }

  lemma MainCrashes(s: State, x: ManagerId)
    requires MainInv(s) && x in s.local
    ensures MainInv(Apply(s, Crash(x)))
  {
  }

  lemma MainKept(s: State, step: Step)
    requires MainInv(s) && Enabled(s, step)
    ensures MainInv(Apply(s, step))
  {
    hide MainInv, LocalFree, MainFree;
    if step.TakeMain? || step.Leave? {
      MainMoves(s, step);
    } else if step.Crash? {
      MainCrashes(s, step.manager);
    } else {
      MainTo(s, Apply(s, step), step.t);
    }
  }

  /** One thread moves; the other managers' mutexes do not notice. */
  lemma OtherManager(threads: map<ThreadId, Thread>, t: ThreadId, moved: Thread, x: ManagerId, mutex: RWMutex)
    requires LocalOk(threads, x, mutex) && t in threads && threads[t].manager != x && moved.manager == threads[t].manager
    ensures LocalOk(threads[t := moved], x, mutex)
  {
    forall u, e ensures Holds(threads[t := moved], x, u, e) == Holds(threads, x, u, e) { }
  }

  /** A move that neither takes nor drops the mutex, nor answers an announcement. */
  lemma SameHold(threads: map<ThreadId, Thread>, t: ThreadId, moved: Thread, x: ManagerId, mutex: RWMutex)
    requires LocalOk(threads, x, mutex) && t in threads && threads[t].manager == x && moved.manager == x
    requires HoldsLocal(threads[t].phase) == HoldsLocal(moved.phase)
    requires HoldsLocal(threads[t].phase) ==> moved.exclusive == threads[t].exclusive
    requires mutex.announced == Some(t) ==> Announcing(threads[t := moved], x, t)
    ensures LocalOk(threads[t := moved], x, mutex)
  {
    forall u, e ensures Holds(threads[t := moved], x, u, e) == Holds(threads, x, u, e) { }
  }

  lemma Taken(threads: map<ThreadId, Thread>, t: ThreadId, x: ManagerId, mutex: RWMutex)
    requires LocalOk(threads, x, mutex) && t in threads && threads[t].manager == x && threads[t].phase == Waiting
    requires LocalFree(mutex, t, threads[t].exclusive, threads[t].nonblocking)
    ensures
      var taken := if threads[t].exclusive then RWMutex(mutex.readers, Some(t), Without(mutex.announced, {t})) else mutex.(readers := mutex.readers + {t});
      LocalOk(threads[t := threads[t].(phase := Local)], x, taken)
  {
    var after := threads[t := threads[t].(phase := Local)];
    forall u, e ensures Holds(after, x, u, e) == (if u == t then e == threads[t].exclusive else Holds(threads, x, u, e)) { }
  }

  lemma Dropped(threads: map<ThreadId, Thread>, t: ThreadId, x: ManagerId, mutex: RWMutex)
    requires LocalOk(threads, x, mutex) && t in threads && threads[t].manager == x && threads[t].phase == Unlocking
    ensures LocalOk(threads[t := threads[t].(phase := Idle)], x, mutex.(readers := mutex.readers - {t}, writer := Without(mutex.writer, {t})))
  {
    var after := threads[t := threads[t].(phase := Idle)];
    forall u, e ensures Holds(after, x, u, e) == (u != t && Holds(threads, x, u, e)) { }
    assert mutex.announced == Some(t) ==> false;
  }

  lemma Crashed(s: State, x: ManagerId, y: ManagerId)
    requires LocalInv(s) && x in s.local && y in s.local
    ensures LocalOk(Apply(s, Crash(x)).threads, y, Apply(s, Crash(x)).local[y])
  {
    var after := Apply(s, Crash(x)).threads;
    forall u, e ensures Holds(after, y, u, e) == (y != x && Holds(s.threads, y, u, e)) { }
    assert LocalOk(s.threads, y, s.local[y]);
  }

  lemma LocalKept(s: State, step: Step)
    requires LocalInv(s) && Enabled(s, step)
    ensures LocalInv(Apply(s, step))
  {
    hide LocalOk, LocalFree, MainFree;
    var d := Apply(s, step);
    forall y | y in d.local
      ensures LocalOk(d.threads, y, d.local[y])
    {
      assert LocalOk(s.threads, y, s.local[y]);
      if step.Crash? {
        Crashed(s, step.manager, y);
      } else {
        LocalStep(s, step, y);
      }
    }
  }

  lemma LocalStep(s: State, step: Step, y: ManagerId)
    requires LocalInv(s) && Enabled(s, step) && !step.Crash? && y in s.local
    ensures LocalOk(Apply(s, step).threads, y, Apply(s, step).local[y])
  {
    hide LocalOk, LocalFree, MainFree;
    var d, t := Apply(s, step), step.t;
    assert LocalOk(s.threads, y, s.local[y]);
    if s.threads[t].manager != y {
      OtherManager(s.threads, t, d.threads[t], y, s.local[y]);
      assert s.threads[t := d.threads[t]] == d.threads;
    } else {
      AnnouncedWaits(s.threads, t, y, s.local[y]);
      if step.TakeLocal? {
        Taken(s.threads, t, y, s.local[y]);
      } else if step.DropLocal? {
        Dropped(s.threads, t, y, s.local[y]);
      } else if step.Announce? {
        Announced(s.threads, t, y, s.local[y]);
        assert d.threads == s.threads;
      } else {
        SameHold(s.threads, t, d.threads[t], y, s.local[y]);
        assert s.threads[t := d.threads[t]] == d.threads;
      }
    }
  }

  lemma Announced(threads: map<ThreadId, Thread>, t: ThreadId, x: ManagerId, mutex: RWMutex)
    requires LocalOk(threads, x, mutex) && Announcing(threads, x, t)
    ensures LocalOk(threads, x, mutex.(announced := Some(t)))
  {
  }

  lemma AnnouncedWaits(threads: map<ThreadId, Thread>, t: ThreadId, x: ManagerId, mutex: RWMutex)
    requires LocalOk(threads, x, mutex)
    ensures mutex.announced == Some(t) ==> t in threads && threads[t].phase == Waiting && !threads[t].nonblocking
  {
  }

  lemma InvKept(s: State, step: Step)
    requires Inv(s) && Enabled(s, step)
    ensures Inv(Apply(s, step))
  {
    hide GateInv, MainInv, LocalInv, Enabled, Apply;
    GateKept(s, step);
    MainKept(s, step);
    LocalKept(s, step);
  }

  // ---------------------------------------------------------------- all runs

  /** A run: every step is enabled where it is taken. */
  ghost predicate Run(states: seq<State>, steps: seq<Step>) {
    && |states| == |steps| + 1
    && (forall k | 0 <= k < |steps| :: Enabled(states[k], steps[k]) && states[k + 1] == Apply(states[k], steps[k]))
  }

  lemma {:induction false} RunInv(states: seq<State>, steps: seq<Step>, k: nat)
    requires Run(states, steps) && k < |states| && Inv(states[0])
    ensures Inv(states[k])
  {
    hide Inv, Enabled, Apply;
    if k > 0 {
      RunInv(states, steps, k - 1);
      InvKept(states[k - 1], steps[k - 1]);
    }
  }

  /** Whoever runs exclusively runs alone, in every process. */
  lemma ExclusiveRunsAlone(states: seq<State>, steps: seq<Step>, k: nat, t: ThreadId, u: ThreadId)
    requires Run(states, steps) && k < |states| && Init(states[0])
    requires In(states[k], t, Inside) && states[k].threads[t].exclusive && In(states[k], u, Inside)
    ensures u == t
  {
    InitInv(states[0]);
    RunInv(states, steps, k);
    assert Is(states[k], t, true);
    assert u !in states[k].shared;
  }

  /** A thread that is idle holds nothing, however it got there: by release, by a refused
      attempt, by an error or by a crash. */
  lemma IdleHoldsNothing(states: seq<State>, steps: seq<Step>, k: nat, t: ThreadId)
    requires Run(states, steps) && k < |states| && Init(states[0]) && In(states[k], t, Idle)
    ensures states[k].gate != Some(t) && t !in states[k].shared && states[k].owner != Some(t)
    ensures forall x | x in states[k].local ::
      t !in states[k].local[x].readers && states[k].local[x].writer != Some(t) && states[k].local[x].announced != Some(t)
  {
    hide Enabled, Apply;
    InitInv(states[0]);
    RunInv(states, steps, k);
    forall x | x in states[k].local
      ensures t !in states[k].local[x].readers && states[k].local[x].writer != Some(t) && states[k].local[x].announced != Some(t)
    {
      assert LocalOk(states[k].threads, x, states[k].local[x]);
      assert !Holds(states[k].threads, x, t, true) && !Holds(states[k].threads, x, t, false);
    }
  }

  // --------------------------------------------------------------- draining

  /** An exclusive attempt that has the gate and waits for the main lock. */
  predicate Draining(s: State, w: ThreadId) {
    In(s, w, Gated) && s.threads[w].exclusive
  }

  /** While it waits, the holders of the main lock can only become fewer. */
  lemma OnlyDrains(s: State, step: Step, w: ThreadId)
    requires Inv(s) && Enabled(s, step) && Draining(s, w) && Draining(Apply(s, step), w)
    ensures Apply(s, step).shared <= s.shared
    ensures Apply(s, step).owner == None || Apply(s, step).owner == s.owner
    ensures step.Leave? && step.t in s.shared ==> Apply(s, step).shared < s.shared && |Apply(s, step).shared| < |s.shared|
  {
    hide LocalInv, LocalFree;
    assert s.gate == Some(w);
    if step.Leave? && step.t in s.shared {
      assert Apply(s, step).shared == s.shared - {step.t};
    }
  }

  lemma {:induction false} DrainsOverRun(states: seq<State>, steps: seq<Step>, w: ThreadId, j: nat, k: nat)
    requires Run(states, steps) && j <= k < |states| && Inv(states[0])
    requires forall i | j <= i <= k :: Draining(states[i], w)
    ensures states[k].shared <= states[j].shared
    ensures states[k].owner == None || states[k].owner == states[j].owner
    decreases k - j
  {
    hide Inv, Enabled, Apply;
    if j < k {
      DrainsOverRun(states, steps, w, j, k - 1);
      RunInv(states, steps, k - 1);
      assert Draining(states[k - 1], w) && Draining(states[k], w) && states[k] == Apply(states[k - 1], steps[k - 1]);
      OnlyDrains(states[k - 1], steps[k - 1], w);
    }
  }

  /** So those that were inside need leave only once, each when it likes, for it to enter. */
  lemma WaiterEnters(states: seq<State>, steps: seq<Step>, w: ThreadId, j: nat, k: nat)
    requires Run(states, steps) && j <= k < |states| && Inv(states[0])
    requires forall i | j <= i <= k :: Draining(states[i], w)
    requires forall t | t in states[j].shared :: exists i :: j <= i <= k && t !in states[i].shared
    requires exists i :: j <= i <= k && states[i].owner == None
    ensures Enabled(states[k], TakeMain(w))
  {
    hide Inv, Run, Apply;
    DrainsOverRun(states, steps, w, j, k);
    if t :| t in states[k].shared {
      var i :| j <= i <= k && t !in states[i].shared;
      DrainsOverRun(states, steps, w, i, k);
      assert false;
    }
    var i :| j <= i <= k && states[i].owner == None;
    DrainsOverRun(states, steps, w, i, k);
    assert Draining(states[k], w);
  }

  // ------------------------------------------------------------ no deadlock

  /** Steps by which attempts and operations come to their end. */
  predicate Finishing(step: Step) {
    !step.Begin? && !step.Crash? && !step.GateRefused? && !step.MainRefused?
  }

  lemma Nobody(holder: Option<ThreadId>)
    requires forall t: ThreadId :: holder != Some(t)
    ensures holder == None
  {
    match holder
    case None =>
    case Some(t) =>
  }

  /** Where every thread waits for the mutex of its manager, somebody gets it. */
  lemma WaitingProceeds(s: State, t: ThreadId)
    requires Inv(s) && In(s, t, Waiting)
    requires forall u | u in s.threads :: !HoldsLocal(s.threads[u].phase)
    ensures exists step :: Enabled(s, step) && Finishing(step)
  {
    hide GateInv, MainInv;
    var x := s.threads[t].manager;
    var mutex := s.local[x];
    assert LocalOk(s.threads, x, mutex);
    assert forall u: ThreadId, e :: !Holds(s.threads, x, u, e);
    Nobody(mutex.writer);
    assert mutex.readers == {};
    if mutex.announced.Some? {
      assert Enabled(s, TakeLocal(mutex.announced.value)) && Finishing(TakeLocal(mutex.announced.value));
    } else if s.threads[t].exclusive && !s.threads[t].nonblocking {
      assert Enabled(s, Announce(t)) && Finishing(Announce(t));
    } else {
      assert Enabled(s, TakeLocal(t)) && Finishing(TakeLocal(t));
    }
  }

  lemma InsideProceeds(s: State, u: ThreadId)
    requires LocalInv(s) && u in s.threads
    requires var p := s.threads[u].phase; p == Locked || p == Inside || p == BackingOut || p == Unlocking
    ensures exists step :: Enabled(s, step) && Finishing(step)
  {
    hide LocalOk;
    var step := match s.threads[u].phase
      case Locked => DropGate(u)
      case Inside => Leave(u)
      case BackingOut => DropGateAfterRefusal(u)
      case _ => DropLocal(u);
    assert Enabled(s, step) && Finishing(step);
  }

  lemma GatedProceeds(s: State, u: ThreadId)
    requires Inv(s) && u in s.threads && s.threads[u].phase == Gated
    requires forall v | v in s.threads :: !HoldsMain(s.threads[v].phase)
    ensures exists step :: Enabled(s, step) && Finishing(step)
  {
    hide LocalOk;
    assert forall v :: v !in s.shared && s.owner != Some(v);
    Nobody(s.owner);
    assert Enabled(s, TakeMain(u)) && Finishing(TakeMain(u));
  }

  lemma LocalProceeds(s: State, u: ThreadId)
    requires Inv(s) && u in s.threads && s.threads[u].phase == Local
    requires forall v | v in s.threads :: !HoldsGate(s.threads[v].phase)
    ensures exists step :: Enabled(s, step) && Finishing(step)
  {
    hide LocalOk, MainInv;
    Nobody(s.gate);
    assert Enabled(s, TakeGate(u)) && Finishing(TakeGate(u));
  }

  /** No reachable state is stuck: while any thread is at work or waits, some step that leads
      towards an end is possible without new requests, errors or crashes. */
  lemma NeverStuck(s: State, t: ThreadId)
    requires Inv(s) && t in s.threads && s.threads[t].phase != Idle
    ensures exists step :: Enabled(s, step) && Finishing(step)
  {
    hide LocalFree, Enabled, Apply, GateInv, MainInv, LocalOk;
    if u :| u in s.threads && (HoldsMain(s.threads[u].phase) || s.threads[u].phase == BackingOut || s.threads[u].phase == Unlocking) {
      InsideProceeds(s, u);
    } else if u :| u in s.threads && s.threads[u].phase == Gated {
      GatedProceeds(s, u);
    } else if u :| u in s.threads && s.threads[u].phase == Local {
      LocalProceeds(s, u);
    } else {
      WaitingThere(s, t);
      WaitingProceeds(s, t);
    }
  }

  lemma WaitingThere(s: State, t: ThreadId)
    requires LocalInv(s) && t in s.threads && s.threads[t].phase == Waiting
    ensures In(s, t, Waiting)
  {
  }

  // ------------------------------------------------------------- termination

  /** How many steps a thread has before it at most, if it begins nothing new. */
  function Rank(s: State, t: ThreadId): nat {
    if t !in s.threads then 0
    else match s.threads[t].phase
      case Idle => 0
      case Unlocking => 1
      case BackingOut => 2
      case Inside => 2
      case Locked => 3
      case Gated => 4
      case Local => 5
      case Waiting => if s.threads[t].manager in s.local && s.local[s.threads[t].manager].announced == Some(t) then 6 else 7
  }

  function Total(s: State, ts: seq<ThreadId>): nat {
    if ts == [] then 0 else Rank(s, ts[0]) + Total(s, ts[1..])
  }

  /** No new request, and no process dies.  Errors and refusals may happen at any time. */
  predicate GoesOn(step: Step) {
    !step.Begin? && !step.Crash?
  }

  lemma OwnRankFalls(s: State, step: Step)
    requires Enabled(s, step) && GoesOn(step)
    ensures Rank(Apply(s, step), step.t) < Rank(s, step.t)
  {
  }

  lemma OtherRankStays(s: State, step: Step, u: ThreadId)
    requires Enabled(s, step) && GoesOn(step) && u != step.t
    ensures Rank(Apply(s, step), u) <= Rank(s, u)
  {
  }

  lemma {:induction false} TotalFalls(s: State, step: Step, ts: seq<ThreadId>)
    requires Enabled(s, step) && GoesOn(step)
    ensures Total(Apply(s, step), ts) <= Total(s, ts)
    ensures step.t in ts ==> Total(Apply(s, step), ts) < Total(s, ts)
  {
    hide Enabled, Apply, Rank;
    if ts != [] {
      TotalFalls(s, step, ts[1..]);
      if ts[0] == step.t { OwnRankFalls(s, step); } else { OtherRankStays(s, step, ts[0]); }
    }
  }

  /** Every thread that can take a step is one there was from the start. */
  lemma StepsOfThreads(s: State, step: Step)
    requires Enabled(s, step) && GoesOn(step)
    ensures step.t in s.threads && Apply(s, step).threads.Keys == s.threads.Keys
  {
  }

  /** Without new requests there are only so many steps, whoever takes them: seven for every
      thread at most. */
  lemma {:induction false} AttemptsEnd(states: seq<State>, steps: seq<Step>, ts: seq<ThreadId>, k: nat)
    requires Run(states, steps) && k < |states| && (forall step | step in steps :: GoesOn(step))
    requires forall t | t in states[0].threads :: t in ts
    ensures states[k].threads.Keys == states[0].threads.Keys
    ensures k + Total(states[k], ts) <= Total(states[0], ts)
  {
    hide Enabled, Apply, Rank, Total;
    if k > 0 {
      AttemptsEnd(states, steps, ts, k - 1);
      assert steps[k - 1] in steps;
      StepsOfThreads(states[k - 1], steps[k - 1]);
      TotalFalls(states[k - 1], steps[k - 1], ts);
    }
  }

  /** And where they stop nobody waits and nobody holds anything. */
  lemma RunsEndIdle(states: seq<State>, steps: seq<Step>, t: ThreadId)
    requires Run(states, steps) && Inv(states[0]) && t in states[|steps|].threads
    requires forall step | Finishing(step) :: !Enabled(states[|steps|], step)
    ensures states[|steps|].threads[t].phase == Idle
  {
    hide Inv, Enabled, Apply;
    RunInv(states, steps, |steps|);
    if states[|steps|].threads[t].phase != Idle { NeverStuck(states[|steps|], t); }
  }
}
